// The background pose-processing queue (`PoseProcessingQueue`): a bounded
// priority queue of jobs, the active and completed job tables, the job state
// machine QUEUED -> PROCESSING -> COMPLETED / FAILED and QUEUED -> CANCELLED,
// the statistics, and the movement classifier run on each finished analysis.
//
// The worker threads, the executor and the lock are not modelled: every
// method is one atomic step, and handing a popped job to a worker and the
// worker starting on it are one step (`TakeNextJob`). A job object is shared
// between the priority queue and the two tables; the model keeps every job
// once, in `jobs`, and lets the queue and the tables hold job ids. Fresh
// uuid4 job ids are modelled by a counter. Clock readings are parameters.
module PoseQueue {
  import opened Wrappers
  import opened Numbers
  import opened Text
  import opened Lists
  import PoseVision
  import PoseCache

  datatype JobStatus = Queued | Processing | Completed | Failed | Cancelled
  {
    /** The enum's `.value`. */
    function Value(): string
    {
      match this
      case Queued => "queued"
      case Processing => "processing"
      case Completed => "completed"
      case Failed => "failed"
      case Cancelled => "cancelled"
    }
  }

  datatype JobPriority = Low | Normal | High | Urgent
  {
    /** The enum's `.value`: smaller is served first. */
    function Value(): nat
    {
      match this
      case Low => 3
      case Normal => 2
      case High => 1
      case Urgent => 0
    }
  }

  /** The movement summary stored with each analysis (`_analyze_movement_patterns`). */
  datatype MovementAnalysis =
    | NoMovement
    | Movement(movementType: string, confidence: real, variationScore: real, frameCount: nat, analyzedAt: int)

  datatype JobResult = JobResult(poseSequencesCount: nat, normalizedPosesCount: nat,
                                 movementAnalysis: MovementAnalysis, cached: bool)

  datatype Job = Job(
    jobId: nat,
    videoId: string,
    videoPath: string,
    priority: JobPriority,
    maxFrames: int,
    createdAt: int,
    startedAt: Option<int>,
    completedAt: Option<int>,
    status: JobStatus,
    result: Option<JobResult>,
    error: Option<string>,
    progress: real,
    processingTimeMs: int)

  /** `PoseProcessingJob.__lt__`: the queue's ordering looks at the priority value only. */
  predicate Precedes(a: Job, b: Job)
  {
    a.priority.Value() < b.priority.Value()
  }

  datatype Stats = Stats(jobsProcessed: nat, jobsFailed: nat, totalProcessingTimeMs: int,
                         averageProcessingTimeMs: real, queueHighWaterMark: nat)

  /** The dictionary `get_job_status` returns; `resultCached` is only present for completed jobs. */
  datatype JobView = JobView(jobId: nat, videoId: string, status: string, progress: real, createdAt: int,
                             startedAt: Option<int>, completedAt: Option<int>, processingTimeMs: int,
                             error: Option<string>, resultCached: Option<bool>)

  datatype QueueStats = QueueStats(queueSize: nat, activeJobs: nat, completedJobs: nat, isRunning: bool,
                                   maxWorkers: nat, maxQueueSize: nat, stats: Stats)

  function View(job: Job, completed: bool): JobView
  {
    JobView(job.jobId, job.videoId, job.status.Value(), job.progress, job.createdAt, job.startedAt,
            job.completedAt, job.processingTimeMs, job.error,
            if completed then Some(job.result.Some?) else None)
  }

  // ------------------------------------------------------ the heap's pop

  /** The position the priority queue serves next: a smallest priority value (the first such, in this model). */
  function NextIndex(queue: seq<nat>, jobs: map<nat, Job>): (i: nat)
    requires |queue| > 0
    requires forall k :: 0 <= k < |queue| ==> queue[k] in jobs
    ensures i < |queue|
    ensures forall k :: 0 <= k < |queue| ==> !Precedes(jobs[queue[k]], jobs[queue[i]])
    ensures forall k :: 0 <= k < i ==> Precedes(jobs[queue[i]], jobs[queue[k]])
  {
    if |queue| == 1 then 0
    else
      var j := NextIndex(queue[..|queue| - 1], jobs);
      if Precedes(jobs[queue[|queue| - 1]], jobs[queue[j]]) then |queue| - 1 else j
  }

  function RemoveAt<T>(s: seq<T>, i: nat): (r: seq<T>)
    requires i < |s|
    ensures |r| == |s| - 1
    ensures multiset(r) + multiset{s[i]} == multiset(s)
  {
    assert s == s[..i] + [s[i]] + s[i + 1..];
    s[..i] + s[i + 1..]
  }

  /**
   * `PriorityQueue.get`: the job served next and the queue left behind. No
   * job left waiting precedes the one served.
   */
  function PopNext(queue: seq<nat>, jobs: map<nat, Job>): (r: (nat, seq<nat>))
    requires |queue| > 0
    requires forall k :: 0 <= k < |queue| ==> queue[k] in jobs
    ensures r.0 in queue && r.0 in jobs
    ensures multiset(r.1) + multiset{r.0} == multiset(queue)
    ensures forall k :: 0 <= k < |r.1| ==> r.1[k] in jobs && !Precedes(jobs[r.1[k]], jobs[r.0])
  {
    var i := NextIndex(queue, jobs);
    var rest := RemoveAt(queue, i);
    assert forall k :: 0 <= k < |rest| ==> rest[k] == if k < i then queue[k] else queue[k + 1];
    (queue[i], rest)
  }

  // ------------------------------------------------------ movement patterns

  /** Sum of |cur[j] - prev[j]| over the first `n` positions. */
  function VariationUpTo(prev: seq<real>, cur: seq<real>, n: nat): real
    requires n <= |prev| && n <= |cur|
  {
    if n == 0 then 0.0 else VariationUpTo(prev, cur, n - 1) + Abs(cur[n - 1] - prev[n - 1])
  }

  /** The L1 distance between consecutive frames, over their common length. */
  function Variation(prev: seq<real>, cur: seq<real>): real
  {
    VariationUpTo(prev, cur, if |prev| < |cur| then |prev| else |cur|)
  }

  /** One variation per consecutive pair of frames. */
  function Variations(frames: seq<seq<real>>): (r: seq<real>)
    ensures |r| == if |frames| <= 1 then 0 else |frames| - 1
  {
    if |frames| <= 1 then []
    else Variations(frames[..|frames| - 1]) + [Variation(frames[|frames| - 2], frames[|frames| - 1])]
  }

  function AverageVariation(frames: seq<seq<real>>): real
  {
    if |frames| > 1 then Mean(Variations(frames)) else 0.0
  }

  /** The movement classes by average variation. */
  function MovementType(avgVariation: real): (t: string)
    ensures t == "static" <==> avgVariation <= 0.3
    ensures t == "high_activity" <==> avgVariation > 2.0
  {
    if avgVariation > 2.0 then "high_activity"
    else if avgVariation > 1.0 then "moderate_activity"
    else if avgVariation > 0.3 then "low_activity"
    else "static"
  }

  /** What `_analyze_movement_patterns` computes. */
  function MovementPatterns(poseSequences: seq<seq<real>>, normalizedPoses: seq<seq<real>>, now: int): MovementAnalysis
  {
    if |poseSequences| == 0 || |normalizedPoses| == 0 then NoMovement
    else
      var avgVariation := AverageVariation(normalizedPoses);
      Movement(MovementType(avgVariation), Mean(PoseVision.AllVisibilities(poseSequences)), avgVariation,
               |poseSequences|, now)
  }

  lemma {:induction false} VariationUpToNonNegative(prev: seq<real>, cur: seq<real>, n: nat)
    requires n <= |prev| && n <= |cur|
    ensures VariationUpTo(prev, cur, n) >= 0.0
  {
    if n > 0 {
      VariationUpToNonNegative(prev, cur, n - 1);
    }
  }

  lemma {:induction false} VariationUpToSame(frame: seq<real>, n: nat)
    requires n <= |frame|
    ensures VariationUpTo(frame, frame, n) == 0.0
  {
    if n > 0 {
      VariationUpToSame(frame, n - 1);
    }
  }

  /** The variation score is never negative, so a recording is never below "static". */
  lemma AverageVariationNonNegative(frames: seq<seq<real>>)
    ensures AverageVariation(frames) >= 0.0
  {
    if |frames| > 1 {
      var vs := Variations(frames);
      forall k | 0 <= k < |vs|
        ensures 0.0 <= vs[k]
      {
        VariationsAt(frames, k);
        var prev, cur := frames[k], frames[k + 1];
        VariationUpToNonNegative(prev, cur, if |prev| < |cur| then |prev| else |cur|);
      }
      assert Sum(vs) >= 0.0 by {
        NonNegativeSum(vs);
      }
    }
  }

  lemma {:induction false} NonNegativeSum(s: seq<real>)
    requires forall k :: 0 <= k < |s| ==> 0.0 <= s[k]
    ensures Sum(s) >= 0.0
  {
    if |s| > 0 {
      NonNegativeSum(s[..|s| - 1]);
    }
  }

  lemma {:induction false} VariationsAt(frames: seq<seq<real>>, k: nat)
    requires k + 1 < |frames|
    ensures Variations(frames)[k] == Variation(frames[k], frames[k + 1])
    decreases |frames|
  {
    if k + 2 < |frames| {
      var init := frames[..|frames| - 1];
      VariationsAt(init, k);
      assert init[k] == frames[k] && init[k + 1] == frames[k + 1];
    }
  }

  /** A recording whose frames are all the same pose is classified "static". */
  lemma StillSequenceIsStatic(poseSequences: seq<seq<real>>, normalizedPoses: seq<seq<real>>, now: int)
    requires |poseSequences| > 0 && |normalizedPoses| > 0
    requires forall k :: 0 <= k < |normalizedPoses| ==> normalizedPoses[k] == normalizedPoses[0]
    ensures MovementPatterns(poseSequences, normalizedPoses, now).movementType == "static"
    ensures MovementPatterns(poseSequences, normalizedPoses, now).variationScore == 0.0
  {
    if |normalizedPoses| > 1 {
      var vs := Variations(normalizedPoses);
      forall k | 0 <= k < |vs|
        ensures vs[k] == 0.0
      {
        VariationsAt(normalizedPoses, k);
        VariationUpToSame(normalizedPoses[0], |normalizedPoses[0]|);
      }
      MeanOfConstant(vs, 0.0);
    }
  }

  /** `_analyze_movement_patterns`: the confidence loop, then the variation loops. */
  method AnalyzeMovementPatterns(poseSequences: seq<seq<real>>, normalizedPoses: seq<seq<real>>, now: int)
    returns (analysis: MovementAnalysis)
    ensures analysis == MovementPatterns(poseSequences, normalizedPoses, now)
  {
    if |poseSequences| == 0 || |normalizedPoses| == 0 {
      return NoMovement;
    }
    var avgConfidence := PoseCache.CalculateAverageConfidence(poseSequences);
    var avgVariation := 0.0;
    if |normalizedPoses| > 1 {
      var variations: seq<real> := [];
      var i := 1;
      while i < |normalizedPoses|
        invariant 1 <= i <= |normalizedPoses|
        invariant variations == Variations(normalizedPoses[..i])
      {
        var prev, cur := normalizedPoses[i - 1], normalizedPoses[i];
        var n := if |cur| < |prev| then |cur| else |prev|;
        var variation := 0.0;
        var j := 0;
        while j < n
          invariant 0 <= j <= n
          invariant variation == VariationUpTo(prev, cur, j)
        {
          variation := variation + Abs(cur[j] - prev[j]);
          j := j + 1;
        }
        assert normalizedPoses[..i + 1][..i] == normalizedPoses[..i];
        variations := variations + [variation];
        i := i + 1;
      }
      assert normalizedPoses[..i] == normalizedPoses;
      avgVariation := if |variations| > 0 then Sum(variations) / (|variations| as real) else 0.0;
    }
    analysis := Movement(MovementType(avgVariation), avgConfidence, avgVariation, |poseSequences|, now);
  }

  // ------------------------------------------------------------ the queue

  /**
   * How the job tables hang together: ids are issued in order, each job sits
   * in at most one of the two tables, the active table holds the QUEUED and
   * PROCESSING jobs, the completed table only finished ones, and the priority
   * queue holds each QUEUED job once (and cancelled jobs not yet popped).
   */
  ghost predicate Tables(jobs: map<nat, Job>, queue: seq<nat>, active: set<nat>, completed: set<nat>, nextId: nat)
  {
    (forall id: nat :: id in jobs <==> id < nextId)
    && (forall id :: id in jobs ==> jobs[id].jobId == id)
    && active !! completed
    && (forall id :: id in active ==> id in jobs && jobs[id].status in {Queued, Processing})
    && (forall id :: id in completed ==> id in jobs && jobs[id].status in {Completed, Failed, Cancelled})
    && (forall id :: id in jobs && jobs[id].status == Queued ==> id in active && id in queue)
    && (forall k :: 0 <= k < |queue| ==> queue[k] in jobs && jobs[queue[k]].status in {Queued, Cancelled})
    && Distinct(queue)
  }

  /** Removing one entry of a list without repeats leaves exactly the other entries. */
  lemma RemoveAtDistinct(s: seq<nat>, i: nat)
    requires i < |s| && Distinct(s)
    ensures Distinct(RemoveAt(s, i))
    ensures forall x :: x in RemoveAt(s, i) <==> x in s && x != s[i]
  {
    var rest := RemoveAt(s, i);
    assert forall k :: 0 <= k < |rest| ==> rest[k] == if k < i then s[k] else s[k + 1];
    forall x | x in s && x != s[i]
      ensures x in rest
    {
      var k :| 0 <= k < |s| && s[k] == x;
      if k < i { assert rest[k] == x; } else { assert rest[k - 1] == x; }
    }
  }

  /** Popping the next job keeps the tables consistent, whether it is dropped or started. */
  lemma TakePreservesTables(jobs: map<nat, Job>, queue: seq<nat>, active: set<nat>, completed: set<nat>,
                            nextId: nat, now: int)
    requires Tables(jobs, queue, active, completed, nextId)
    requires |queue| > 0
    ensures var (id, rest) := PopNext(queue, jobs);
      jobs[id].status == Cancelled ==> Tables(jobs, rest, active, completed, nextId)
    ensures var (id, rest) := PopNext(queue, jobs);
      jobs[id].status == Queued ==>
        Tables(jobs[id := jobs[id].(status := Processing, startedAt := Some(now), progress := 0.1)],
               rest, active, completed, nextId)
  {
    var i := NextIndex(queue, jobs);
    var id := queue[i];
    var rest := RemoveAt(queue, i);
    assert PopNext(queue, jobs) == (id, rest);
    RemoveAtDistinct(queue, i);
    if jobs[id].status == Queued {
      StartPreservesTables(jobs, queue, active, completed, nextId, id, rest, now);
    } else if jobs[id].status == Cancelled {
      DropPreservesTables(jobs, queue, active, completed, nextId, id, rest);
    }
  }

  /** Starting a QUEUED job taken off the queue keeps the tables consistent. */
  lemma StartPreservesTables(jobs: map<nat, Job>, queue: seq<nat>, active: set<nat>, completed: set<nat>,
                             nextId: nat, id: nat, rest: seq<nat>, now: int)
    requires Tables(jobs, queue, active, completed, nextId)
    requires id in jobs && jobs[id].status == Queued
    requires Distinct(rest) && forall x :: x in rest <==> x in queue && x != id
    ensures Tables(jobs[id := jobs[id].(status := Processing, startedAt := Some(now), progress := 0.1)],
                   rest, active, completed, nextId)
  {
    assert forall k :: 0 <= k < |rest| ==> rest[k] in queue && rest[k] != id;
  }

  /** Dropping a CANCELLED job off the queue keeps the tables consistent. */
  lemma DropPreservesTables(jobs: map<nat, Job>, queue: seq<nat>, active: set<nat>, completed: set<nat>,
                            nextId: nat, id: nat, rest: seq<nat>)
    requires Tables(jobs, queue, active, completed, nextId)
    requires id in jobs && jobs[id].status == Cancelled
    requires Distinct(rest) && forall x :: x in rest <==> x in queue && x != id
    ensures Tables(jobs, rest, active, completed, nextId)
  {
    assert forall k :: 0 <= k < |rest| ==> rest[k] in queue;
  }

  /** A fresh QUEUED job under the next id joins the jobs, the queue and the active table. */
  lemma EnqueuePreservesTables(jobs: map<nat, Job>, queue: seq<nat>, active: set<nat>, completed: set<nat>,
                               nextId: nat, job: Job)
    requires Tables(jobs, queue, active, completed, nextId)
    requires job.jobId == nextId && job.status == Queued
    ensures Tables(jobs[nextId := job], queue + [nextId], active + {nextId}, completed, nextId + 1)
  {
    assert nextId !in jobs;
    assert nextId !in queue;
  }

  /** The scan of `cleanup_completed_jobs`: the completed jobs that finished before `cutoff`. */
  method CollectStale(completed: set<nat>, jobs: map<nat, Job>, cutoff: int) returns (toRemove: set<nat>)
    requires forall id :: id in completed ==> id in jobs
    ensures toRemove == set id | id in completed && id in jobs && jobs[id].completedAt.Some? && jobs[id].completedAt.value < cutoff
  {
    var remaining := completed;
    toRemove := {};
    while remaining != {}
      invariant remaining <= completed
      invariant toRemove == (set id | id in completed && id in jobs && jobs[id].completedAt.Some? && jobs[id].completedAt.value < cutoff) - remaining
      decreases |remaining|
    {
      var id :| id in remaining;
      var job := jobs[id];
      if job.completedAt.Some? && job.completedAt.value < cutoff {
        toRemove := toRemove + {id};
      }
      remaining := remaining - {id};
    }
  }

  /** Forgetting finished jobs from the completed table keeps the tables consistent. */
  lemma ForgetPreservesTables(jobs: map<nat, Job>, queue: seq<nat>, active: set<nat>, completed: set<nat>,
                              nextId: nat, gone: set<nat>)
    requires Tables(jobs, queue, active, completed, nextId)
    ensures Tables(jobs, queue, active, completed - gone, nextId)
  {
  }

  /** A PROCESSING job that completes or fails moves to the completed table. */
  lemma FinishPreservesTables(jobs: map<nat, Job>, queue: seq<nat>, active: set<nat>, completed: set<nat>,
                              nextId: nat, id: nat, job: Job)
    requires Tables(jobs, queue, active, completed, nextId)
    requires id in active && jobs[id].status == Processing
    requires job.jobId == id && job.status in {Completed, Failed}
    ensures Tables(jobs[id := job], queue, active - {id}, completed + {id}, nextId)
  {
    assert forall k :: 0 <= k < |queue| ==> queue[k] != id;
  }

  /**
   * How `_process_single_job` leaves a started job and the statistics. On
   * success the job shows progress 0.6, 0.8, 0.9 and 1.0, ends COMPLETED with
   * the frame counts and the movement analysis, and the average processing
   * time becomes the new total over the new number processed; on failure it
   * ends FAILED at progress 0.0 with the error kept, and one more job counts
   * as failed.
   */
  ghost predicate JobFinished(job: Job, stats: Stats, extraction: Result<seq<seq<real>>, string>, cached: bool,
                              processingTimeMs: nat, now: int, sqrt: real -> real,
                              done: Job, after: Stats, trail: seq<real>)
  {
    if extraction.Success? then
      var frames := extraction.value;
      var normalized := PoseVision.NormalizeSequence(frames, sqrt);
      var processed := stats.jobsProcessed + 1;
      var total := stats.totalProcessingTimeMs + processingTimeMs;
      trail == [0.6, 0.8, 0.9, 1.0]
      && done == job.(status := Completed, completedAt := Some(now), progress := 1.0,
                      processingTimeMs := processingTimeMs,
                      result := Some(JobResult(|frames|, |normalized|, MovementPatterns(frames, normalized, now), cached)))
      && after == stats.(jobsProcessed := processed, totalProcessingTimeMs := total,
                         averageProcessingTimeMs := total as real / processed as real)
    else
      trail == [0.0]
      && done == job.(status := Failed, completedAt := Some(now), progress := 0.0,
                      processingTimeMs := processingTimeMs, error := Some(extraction.error))
      && after == stats.(jobsFailed := stats.jobsFailed + 1)
  }

  /**
   * What `_process_single_job` does to one started job and to the
   * statistics, given the extraction's frames or error message. `trail` is the
   * sequence of progress values the job shows.
   */
  method RunJob(job: Job, stats: Stats, extraction: Result<seq<seq<real>>, string>, cached: bool,
                processingTimeMs: nat, now: int, sqrt: real -> real)
    returns (done: Job, after: Stats, ghost trail: seq<real>)
    ensures done.jobId == job.jobId && done.status == (if extraction.Success? then Completed else Failed)
    ensures JobFinished(job, stats, extraction, cached, processingTimeMs, now, sqrt, done, after, trail)
  {
    done := job;
    after := stats;
    if extraction.Failure? {
      done := done.(status := Failed, completedAt := Some(now), progress := 0.0,
                    processingTimeMs := processingTimeMs, error := Some(extraction.error));
      trail := [0.0];
      after := after.(jobsFailed := after.jobsFailed + 1);
    } else {
      var frames := extraction.value;
      done := done.(progress := 0.6);
      var normalized := PoseVision.NormalizePoseSequence(frames, sqrt);
      done := done.(progress := 0.8);
      var movement := AnalyzeMovementPatterns(frames, normalized, now);
      done := done.(progress := 0.9);
      trail := [0.6, 0.8, 0.9];
      done := done.(status := Completed, completedAt := Some(now), progress := 1.0,
                    processingTimeMs := processingTimeMs,
                    result := Some(JobResult(|frames|, |normalized|, movement, cached)));
      trail := trail + [done.progress];
      var processed := after.jobsProcessed + 1;
      var total := after.totalProcessingTimeMs + processingTimeMs;
      after := after.(jobsProcessed := processed, totalProcessingTimeMs := total,
                      averageProcessingTimeMs := total as real / processed as real);
    }
  }

  class PoseProcessingQueue {
    const maxWorkers: nat
    const maxQueueSize: nat

    /** Every job object ever created, by id. */
    var jobs: map<nat, Job>
    /** The ids held by the priority queue. */
    var queue: seq<nat>
    var active: set<nat>
    var completed: set<nat>
    var stats: Stats
    var isRunning: bool
    var nextId: nat

    ghost predicate Valid()
      reads this
    {
      Tables(jobs, queue, active, completed, nextId)
      && |queue| <= maxQueueSize
      && stats.queueHighWaterMark <= maxQueueSize
    }

    constructor(maxWorkers: nat, maxQueueSize: nat)
      ensures Valid()
      ensures this.maxWorkers == maxWorkers && this.maxQueueSize == maxQueueSize
      ensures jobs == map[] && queue == [] && active == {} && completed == {} && !isRunning
      ensures stats == Stats(0, 0, 0, 0.0, 0)
    {
      this.maxWorkers := maxWorkers;
      this.maxQueueSize := maxQueueSize;
      jobs := map[];
      queue := [];
      active := {};
      completed := {};
      stats := Stats(0, 0, 0, 0.0, 0);
      isRunning := false;
      nextId := 0;
    }

    /** `start`: a second start changes nothing. */
    method Start()
      modifies this
      ensures isRunning
      ensures jobs == old(jobs) && queue == old(queue) && active == old(active) && completed == old(completed)
      ensures stats == old(stats) && nextId == old(nextId)
    {
      if !isRunning {
        isRunning := true;
      }
    }

    method Stop()
      modifies this
      ensures !isRunning
      ensures jobs == old(jobs) && queue == old(queue) && active == old(active) && completed == old(completed)
      ensures stats == old(stats) && nextId == old(nextId)
    {
      isRunning := false;
    }

    /** `enqueue_job`: refused when the queue is full; otherwise a fresh QUEUED job at progress 0.0. */
    method EnqueueJob(videoId: string, videoPath: string, priority: JobPriority, maxFrames: int, now: int)
      returns (r: Result<nat, string>)
      requires Valid()
      modifies this
      ensures Valid()
      ensures |old(queue)| >= maxQueueSize ==>
        r == Failure("Queue is full (" + IntToDecimal(maxQueueSize) + " jobs)")
        && jobs == old(jobs) && queue == old(queue) && active == old(active) && completed == old(completed)
        && stats == old(stats) && nextId == old(nextId)
      ensures |old(queue)| < maxQueueSize ==>
        var id := old(nextId);
        r == Success(id)
        && jobs == old(jobs)[id := Job(id, videoId, videoPath, priority, maxFrames, now, None, None,
                                       Queued, None, None, 0.0, 0)]
        && queue == old(queue) + [id] && active == old(active) + {id} && completed == old(completed)
        && stats == old(stats).(queueHighWaterMark := if |queue| > old(stats).queueHighWaterMark
                                                       then |queue| else old(stats).queueHighWaterMark)
        && nextId == id + 1
      ensures isRunning == old(isRunning)
    {
      if |queue| >= maxQueueSize {
        return Failure("Queue is full (" + IntToDecimal(maxQueueSize) + " jobs)");
      }
      var id := nextId;
      var job := Job(id, videoId, videoPath, priority, maxFrames, now, None, None, Queued, None, None, 0.0, 0);
      EnqueuePreservesTables(jobs, queue, active, completed, nextId, job);
      nextId := nextId + 1;
      jobs := jobs[id := job];
      queue := queue + [id];
      active := active + {id};
      var currentSize := |queue|;
      if currentSize > stats.queueHighWaterMark {
        stats := stats.(queueHighWaterMark := currentSize);
      }
      r := Success(id);
    }

    /** `get_job_status`: the active table first, then the completed one. */
    function GetJobStatus(id: nat): (r: Option<JobView>)
      reads this
      requires Valid()
      ensures r.Some? <==> id in active || id in completed
      ensures r.Some? ==> r.value.jobId == id && r.value.status == jobs[id].status.Value()
      ensures r.Some? ==> (r.value.resultCached.Some? <==> id in completed)
    {
      if id in active then Some(View(jobs[id], false))
      else if id in completed then Some(View(jobs[id], true))
      else None
    }

    /** `get_queue_stats`. */
    function GetQueueStats(): (r: QueueStats)
      reads this
      ensures r.queueSize == |queue| && r.activeJobs == |active| && r.completedJobs == |completed|
      ensures r.stats == stats && r.isRunning == isRunning
    {
      QueueStats(|queue|, |active|, |completed|, isRunning, maxWorkers, maxQueueSize, stats)
    }

    /** `cancel_job`: only an active QUEUED job; it moves to the completed table as CANCELLED. */
    method CancelJob(id: nat, now: int) returns (cancelled: bool)
      requires Valid()
      modifies this
      ensures Valid()
      ensures cancelled <==> id in old(active) && old(jobs)[id].status == Queued
      ensures cancelled ==>
        jobs == old(jobs)[id := old(jobs)[id].(status := Cancelled, completedAt := Some(now))]
        && active == old(active) - {id} && completed == old(completed) + {id}
      ensures !cancelled ==> jobs == old(jobs) && active == old(active) && completed == old(completed)
      ensures queue == old(queue) && stats == old(stats) && nextId == old(nextId) && isRunning == old(isRunning)
    {
      cancelled := false;
      if id in active && jobs[id].status == Queued {
        jobs := jobs[id := jobs[id].(status := Cancelled, completedAt := Some(now))];
        completed := completed + {id};
        active := active - {id};
        cancelled := true;
      }
    }

    /** The completed jobs that finished before `cutoff`. */
    ghost function Stale(cutoff: int): (r: set<nat>)
      reads this
      ensures r <= completed
    {
      set id | id in completed && id in jobs && jobs[id].completedAt.Some? && jobs[id].completedAt.value < cutoff
    }

    /** `cleanup_completed_jobs`, given the cutoff time. */
    method CleanupCompletedJobs(cutoff: int)
      requires Valid()
      modifies this
      ensures Valid()
      ensures completed == old(completed) - old(Stale(cutoff))
      ensures jobs == old(jobs) && queue == old(queue) && active == old(active)
      ensures stats == old(stats) && nextId == old(nextId) && isRunning == old(isRunning)
    {
      var toRemove := CollectStale(completed, jobs, cutoff);
      ForgetPreservesTables(jobs, queue, active, completed, nextId, toRemove);
      completed := completed - toRemove;
    }

    /**
     * One turn of `_process_jobs` followed by the start of `_process_single_job`:
     * the next job by priority leaves the queue; a CANCELLED one is dropped,
     * any other becomes PROCESSING at progress 0.1. An empty queue is the
     * `Empty` timeout and changes nothing.
     */
    method TakeNextJob(now: int) returns (taken: Option<nat>)
      requires Valid()
      modifies this
      ensures Valid()
      ensures |old(queue)| == 0 ==> taken == None && queue == old(queue) && jobs == old(jobs)
      ensures |old(queue)| > 0 ==>
        var (id, rest) := PopNext(old(queue), old(jobs));
        queue == rest
        && (old(jobs)[id].status == Cancelled ==> taken == None && jobs == old(jobs))
        && (old(jobs)[id].status == Queued ==>
              taken == Some(id)
              && jobs == old(jobs)[id := old(jobs)[id].(status := Processing, startedAt := Some(now), progress := 0.1)])
      ensures active == old(active) && completed == old(completed)
      ensures stats == old(stats) && nextId == old(nextId) && isRunning == old(isRunning)
    {
      if |queue| == 0 {
        return None;
      }
      TakePreservesTables(jobs, queue, active, completed, nextId, now);
      var (id, rest) := PopNext(queue, jobs);
      queue := rest;
      if jobs[id].status == Cancelled {
        return None;
      }
      jobs := jobs[id := jobs[id].(status := Processing, startedAt := Some(now), progress := 0.1)];
      taken := Some(id);
    }

    /**
     * The rest of `_process_single_job` for a job that has started. The
     * extraction is the service's I/O: its frames or its error message are a
     * parameter, as are the outcome of the cache write, the elapsed time and
     * the clock. `trail` is the sequence of progress values the job shows.
     */
    method ProcessSingleJob(id: nat, extraction: Result<seq<seq<real>>, string>, cached: bool,
                            processingTimeMs: nat, now: int, sqrt: real -> real)
      returns (ghost trail: seq<real>)
      requires Valid()
      requires id in active && jobs[id].status == Processing
      modifies this
      ensures Valid()
      ensures id in jobs && jobs == old(jobs)[id := jobs[id]]
      ensures JobFinished(old(jobs)[id], old(stats), extraction, cached, processingTimeMs, now, sqrt, jobs[id], stats, trail)
      ensures active == old(active) - {id} && completed == old(completed) + {id}
      ensures queue == old(queue) && nextId == old(nextId) && isRunning == old(isRunning)
    {
      var job, after;
      job, after, trail := RunJob(jobs[id], stats, extraction, cached, processingTimeMs, now, sqrt);
      stats := after;
      FinishPreservesTables(jobs, queue, active, completed, nextId, id, job);
      jobs := jobs[id := job];
      completed := completed + {id};
      active := active - {id};
    }
  }
}
