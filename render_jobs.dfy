/** Render jobs of approved collaborations: queueing one with merged settings, cancelling,
    retrying a failed one, reading its status, and the queue statistics. The render, collaboration
    and video tables are maps held by a store object; the job queue's answers are parameters. */
module RenderJobs {
  import opened Wrappers

  /** A render setting value: the defaults hold text and one whole number. */
  datatype SettingValue = Text(text: string) | Whole(number: int)

  type Settings = map<string, SettingValue>

  datatype Render = Render(
    id: string, collaborationId: string, status: string, progress: real, settings: Settings,
    errorMessage: Option<string>, startedAt: Option<int>, completedAt: Option<int>,
    outputPath: Option<string>)

  /** A collaboration row: its video, its artist and its status. */
  datatype CollaborationRow = CollaborationRow(videoId: string, artistId: string, status: string)

  /** The artist and the uploader a joined query reports. */
  datatype Parties = Parties(artistId: string, uploaderId: string)

  /** Python's `ValueError` for refused requests and `RuntimeError` for a queue that fails. */
  datatype Error = ValueError(message: string) | RuntimeError(message: string)

  const NotApproved := "Collaboration not found or not approved"
  const NoRenderPermission := "You don't have permission to render this collaboration"
  const AlreadyRendering := "A render is already in progress for this collaboration"
  const QueueFailed := "Failed to queue render job"
  const RequeueFailed := "Failed to re-queue render job"
  const RenderNotFound := "Render not found"
  const NoViewPermission := "You don't have permission to view this render"
  const NoCancelPermission := "You don't have permission to cancel this render"
  const NotCancellable := "Can only cancel queued or processing renders"
  const NoRetryPermission := "You don't have permission to retry this render"
  const NotRetryable := "Can only retry failed renders"

  /** The statuses during which a render counts as pending. */
  const PendingStatuses: seq<string> := ["queued", "processing"]

  // ------------------------------------------------------------- settings

  /** The settings every render starts from. */
  const DefaultSettings: Settings :=
    map["resolution" := Text("1920x1080"), "format" := Text("mp4"), "quality" := Text("high"), "fps" := Whole(30)]

  /** The defaults overridden key by key by the caller's settings. */
  function EffectiveSettings(given: Option<Settings>): (r: Settings)
    ensures given.None? ==> r == DefaultSettings
    ensures given.Some? ==> r.Keys == DefaultSettings.Keys + given.value.Keys
    ensures given.Some? ==> forall k :: k in given.value ==> r[k] == given.value[k]
    ensures forall k :: k in DefaultSettings && (given.None? || k !in given.value) ==> r[k] == DefaultSettings[k]
  {
    if given.Some? then DefaultSettings + given.value else DefaultSettings
  }

  /** `default_settings.update(render_settings)`, one key at a time. */
  method MergeSettings(given: Option<Settings>) returns (s: Settings)
    ensures s == EffectiveSettings(given)
  {
    s := DefaultSettings;
    if given.Some? && given.value != map[] {
      var keys := given.value.Keys;
      while keys != {}
        invariant keys <= given.value.Keys
        invariant s.Keys == DefaultSettings.Keys + (given.value.Keys - keys)
        invariant forall k :: k in given.value && k !in keys ==> s[k] == given.value[k]
        invariant forall k :: k in DefaultSettings && k !in given.value.Keys - keys ==> s[k] == DefaultSettings[k]
        decreases keys
      {
        var k :| k in keys;
        s := s[k := given.value[k]];
        keys := keys - {k};
      }
      assert s == DefaultSettings + given.value;
    }
  }

  // ------------------------------------------------------------- decisions

  /** The checks of `queue_render`: an approved collaboration, a requester who is its artist or
      its video's uploader, and no render of it already pending. */
  function QueueRefusal(approved: Option<Parties>, user: string, pending: bool): (r: Option<string>)
    ensures r.None? <==> approved.Some? && (approved.value.artistId == user || approved.value.uploaderId == user) && !pending
    ensures approved.None? ==> r == Some(NotApproved)
  {
    if approved.None? then Some(NotApproved)
    else if !(approved.value.artistId == user || approved.value.uploaderId == user) then Some(NoRenderPermission)
    else if pending then Some(AlreadyRendering)
    else None
  }

  /** The checks of `cancel_render`: the render exists, the requester may act on it, and it is
      queued or processing. */
  function CancelRefusal(parties: Option<Parties>, status: string, user: string): (r: Option<string>)
    ensures r.None? <==> parties.Some? && (parties.value.artistId == user || parties.value.uploaderId == user) &&
                         status in PendingStatuses
    ensures parties.None? ==> r == Some(RenderNotFound)
  {
    if parties.None? then Some(RenderNotFound)
    else if !(parties.value.artistId == user || parties.value.uploaderId == user) then Some(NoCancelPermission)
    else if status !in PendingStatuses then Some(NotCancellable)
    else None
  }

  /** The checks of `retry_render`: the render exists, the requester may act on it, and it failed. */
  function RetryRefusal(parties: Option<Parties>, status: string, user: string): (r: Option<string>)
    ensures r.None? <==> parties.Some? && (parties.value.artistId == user || parties.value.uploaderId == user) &&
                         status == "failed"
    ensures parties.None? ==> r == Some(RenderNotFound)
  {
    if parties.None? then Some(RenderNotFound)
    else if !(parties.value.artistId == user || parties.value.uploaderId == user) then Some(NoRetryPermission)
    else if status != "failed" then Some(NotRetryable)
    else None
  }

  /** The new render `queue_render` stores: queued with no progress, or marked failed when the
      queue refused it. */
  function NewRender(id: string, collaborationId: string, given: Option<Settings>, enqueued: bool): (r: Render)
    ensures r.id == id && r.collaborationId == collaborationId && r.settings == EffectiveSettings(given)
    ensures r.progress == 0.0 && r.startedAt.None? && r.completedAt.None? && r.outputPath.None?
    ensures enqueued ==> r.status == "queued" && r.errorMessage.None?
    ensures !enqueued ==> r.status == "failed" && r.errorMessage == Some(QueueFailed)
  {
    var queued := Render(id, collaborationId, "queued", 0.0, EffectiveSettings(given), None, None, None, None);
    if enqueued then queued else queued.(status := "failed", errorMessage := Some(QueueFailed))
  }

  /** The row after `retry_render`'s reset, and after the re-queue when it fails. */
  function Retried(r: Render, enqueued: bool): (u: Render)
    ensures u.id == r.id && u.collaborationId == r.collaborationId && u.settings == r.settings
    ensures u.progress == 0.0 && u.startedAt.None? && u.completedAt.None? && u.outputPath == r.outputPath
    ensures enqueued ==> u.status == "queued" && u.errorMessage.None?
    ensures !enqueued ==> u.status == "failed" && u.errorMessage == Some(RequeueFailed)
  {
    var reset := r.(status := "queued", progress := 0.0, errorMessage := None, startedAt := None, completedAt := None);
    if enqueued then reset else reset.(status := "failed", errorMessage := Some(RequeueFailed))
  }

  /** A render the queue refused can be retried; one that was queued can be cancelled. */
  lemma NewRenderNextSteps(id: string, collaborationId: string, given: Option<Settings>, enqueued: bool,
                           parties: Parties, user: string)
    requires parties.artistId == user || parties.uploaderId == user
    ensures var r := NewRender(id, collaborationId, given, enqueued);
            (enqueued <==> CancelRefusal(Some(parties), r.status, user).None?) &&
            (!enqueued <==> RetryRefusal(Some(parties), r.status, user).None?)
  {
  }

  /** A retry that reached the queue leaves a render that can be cancelled and cannot be retried
      again; one that did not can be retried again. */
  lemma RetriedNextSteps(r: Render, enqueued: bool, parties: Parties, user: string)
    requires parties.artistId == user || parties.uploaderId == user
    ensures var u := Retried(r, enqueued);
            (enqueued <==> CancelRefusal(Some(parties), u.status, user).None?) &&
            (enqueued <==> RetryRefusal(Some(parties), u.status, user).Some?)
  {
  }

  /** `get_render_status`'s view of a row: a completed render with an output path gets a signed
      link, every other row is shown as stored. */
  function Viewed(r: Render, presign: string -> string): (v: Render)
    ensures v.outputPath.Some? <==> r.outputPath.Some?
    ensures r.status == "completed" && r.outputPath.Some? && r.outputPath.value != "" ==>
              v.outputPath == Some(presign(r.outputPath.value))
    ensures !(r.status == "completed" && r.outputPath.Some? && r.outputPath.value != "") ==> v == r
    ensures v.(outputPath := r.outputPath) == r
  {
    if r.outputPath.Some? && r.outputPath.value != "" && r.status == "completed" then
      r.(outputPath := Some(presign(r.outputPath.value)))
    else r
  }

  // ------------------------------------------------------------- queue statistics

  /** One row of the grouped count over the last day's finished renders. */
  datatype StatRow = StatRow(status: string, count: int)

  /** The count the last row with `status` reports, or `fallback` when no row has it. */
  function CountFor(rows: seq<StatRow>, status: string, fallback: int): int
  {
    if |rows| == 0 then fallback
    else if rows[|rows| - 1].status == status then rows[|rows| - 1].count
    else CountFor(rows[..|rows| - 1], status, fallback)
  }

  function StatusesOf(rows: seq<StatRow>): set<string>
  {
    set k | 0 <= k < |rows| :: rows[k].status
  }

  /** `queue_stats.get(key, 0)`. */
  function QueueCount(queueStats: map<string, int>, key: string): int
  {
    if key in queueStats then queueStats[key] else 0
  }

  /** The result before the rows are applied: live queue counts and zero finished counts. */
  function BaseStatus(queueStats: map<string, int>): (m: map<string, int>)
    ensures m.Keys == {"queued", "processing", "stuck", "completed", "failed", "cancelled"}
  {
    map["queued" := QueueCount(queueStats, "queued"), "processing" := QueueCount(queueStats, "processing"),
        "stuck" := QueueCount(queueStats, "stuck"),
        "completed" := 0, "failed" := 0, "cancelled" := 0]
  }

  /** The result after the rows overwrite their statuses in order. */
  function Overwritten(base: map<string, int>, rows: seq<StatRow>): (m: map<string, int>)
    ensures m.Keys == base.Keys + StatusesOf(rows)
    ensures forall k :: k in m ==> m[k] == CountFor(rows, k, if k in base then base[k] else 0)
  {
    if |rows| == 0 then base
    else
      var last := rows[|rows| - 1];
      var rest := Overwritten(base, rows[..|rows| - 1]);
      assert StatusesOf(rows) == StatusesOf(rows[..|rows| - 1]) + {last.status} by {
        assert forall k :: 0 <= k < |rows| - 1 ==> rows[..|rows| - 1][k] == rows[k];
      }
      rest[last.status := last.count]
  }

  /** `get_render_queue_status`. */
  function QueueStatus(queueStats: map<string, int>, rows: seq<StatRow>): map<string, int>
  {
    Overwritten(BaseStatus(queueStats), rows)
  }

  /** When the rows only report finished statuses, as the query asks, the result has exactly the
      six keys: the live counts for the queue's three, and for the finished three the count of
      their row or 0. */
  lemma QueueStatusEntries(queueStats: map<string, int>, rows: seq<StatRow>)
    requires forall k :: 0 <= k < |rows| ==> rows[k].status in ["completed", "failed", "cancelled"]
    ensures var m := QueueStatus(queueStats, rows);
            m.Keys == {"queued", "processing", "stuck", "completed", "failed", "cancelled"} &&
            m["queued"] == QueueCount(queueStats, "queued") &&
            m["processing"] == QueueCount(queueStats, "processing") &&
            m["stuck"] == QueueCount(queueStats, "stuck") &&
            m["completed"] == CountFor(rows, "completed", 0) &&
            m["failed"] == CountFor(rows, "failed", 0) &&
            m["cancelled"] == CountFor(rows, "cancelled", 0)
  {
    var base := BaseStatus(queueStats);
    assert StatusesOf(rows) <= base.Keys;
    forall s | s in ["queued", "processing", "stuck"]
      ensures CountFor(rows, s, base[s]) == base[s]
    {
      CountForAbsent(rows, s, base[s]);
    }
  }

  /** A status no row reports keeps its fallback. */
  lemma {:induction false} CountForAbsent(rows: seq<StatRow>, status: string, fallback: int)
    requires forall k :: 0 <= k < |rows| ==> rows[k].status != status
    ensures CountFor(rows, status, fallback) == fallback
  {
    if |rows| > 0 {
      CountForAbsent(rows[..|rows| - 1], status, fallback);
    }
  }

  /** The loop of `get_render_queue_status` over the grouped rows. */
  method GetRenderQueueStatus(queueStats: map<string, int>, rows: seq<StatRow>) returns (result: map<string, int>)
    ensures result == QueueStatus(queueStats, rows)
  {
    result := BaseStatus(queueStats);
    var i := 0;
    assert rows[..0] == [];
    while i < |rows|
      invariant 0 <= i <= |rows|
      invariant result == Overwritten(BaseStatus(queueStats), rows[..i])
    {
      assert rows[..i + 1][..i] == rows[..i];
      result := result[rows[i].status := rows[i].count];
      i := i + 1;
    }
    assert rows[..i] == rows;
  }

  // ------------------------------------------------------------- the store

  /** The render table beside the collaboration and video rows the service joins against. */
  class RenderStore {
    var collaborations: map<string, CollaborationRow>
    var uploaders: map<string, string>
    var renders: map<string, Render>

    constructor(collaborations: map<string, CollaborationRow>, uploaders: map<string, string>)
      ensures this.collaborations == collaborations && this.uploaders == uploaders && renders == map[]
    {
      this.collaborations := collaborations;
      this.uploaders := uploaders;
      renders := map[];
    }

    /** The joined row of an approved collaboration and its video. */
    function ApprovedParties(collaborationId: string): (r: Option<Parties>)
      reads this
      ensures r.Some? <==> collaborationId in collaborations && collaborations[collaborationId].status == "approved" &&
                           collaborations[collaborationId].videoId in uploaders
    {
      if collaborationId in collaborations && collaborations[collaborationId].status == "approved" &&
         collaborations[collaborationId].videoId in uploaders then
        var c := collaborations[collaborationId];
        Some(Parties(c.artistId, uploaders[c.videoId]))
      else None
    }

    /** The joined row of a render, its collaboration and its video. */
    function RenderParties(renderId: string): (r: Option<Parties>)
      reads this
      ensures r.Some? ==> renderId in renders
    {
      if renderId in renders && renders[renderId].collaborationId in collaborations &&
         collaborations[renders[renderId].collaborationId].videoId in uploaders then
        var c := collaborations[renders[renderId].collaborationId];
        Some(Parties(c.artistId, uploaders[c.videoId]))
      else None
    }

    /** Some render of the collaboration is queued or processing. */
    predicate Pending(collaborationId: string)
      reads this
    {
      exists id :: id in renders && renders[id].collaborationId == collaborationId && renders[id].status in PendingStatuses
    }

    /** `queue_render`; `newId` stands for the id the database assigns and `enqueued` for the
        queue's answer. A render the queue refused stays stored, marked failed. */
    method QueueRender(user: string, collaborationId: string, given: Option<Settings>, newId: string, enqueued: bool)
      returns (r: Result<Render, Error>)
      requires newId !in renders
      modifies this
      ensures var refusal := QueueRefusal(old(ApprovedParties(collaborationId)), user, old(Pending(collaborationId)));
              if refusal.Some? then r == Failure(ValueError(refusal.value)) && renders == old(renders)
              else
                renders == old(renders)[newId := NewRender(newId, collaborationId, given, enqueued)] &&
                r == (if enqueued then Success(renders[newId]) else Failure(RuntimeError(QueueFailed)))
      ensures collaborations == old(collaborations) && uploaders == old(uploaders)
    {
      var refusal := QueueRefusal(ApprovedParties(collaborationId), user, Pending(collaborationId));
      if refusal.Some? {
        return Failure(ValueError(refusal.value));
      }
      var settings := MergeSettings(given);
      var render := Render(newId, collaborationId, "queued", 0.0, settings, None, None, None, None);
      renders := renders[newId := render];
      if !enqueued {
        render := render.(status := "failed", errorMessage := Some(QueueFailed));
        renders := renders[newId := render];
        return Failure(RuntimeError(QueueFailed));
      }
      r := Success(render);
    }

    /** `cancel_render`: the queue's own answer is ignored. */
    method CancelRender(user: string, renderId: string) returns (r: Result<bool, Error>)
      modifies this
      ensures var refusal := CancelRefusal(old(RenderParties(renderId)),
                                           if renderId in old(renders) then old(renders)[renderId].status else "", user);
              if refusal.Some? then r == Failure(ValueError(refusal.value)) && renders == old(renders)
              else r == Success(true) && renders == old(renders)[renderId := old(renders)[renderId].(status := "cancelled")]
      ensures collaborations == old(collaborations) && uploaders == old(uploaders)
    {
      var parties := RenderParties(renderId);
      var status := if renderId in renders then renders[renderId].status else "";
      var refusal := CancelRefusal(parties, status, user);
      if refusal.Some? {
        return Failure(ValueError(refusal.value));
      }
      renders := renders[renderId := renders[renderId].(status := "cancelled")];
      r := Success(true);
    }

    /** `retry_render`; `enqueued` stands for the queue's answer to the re-queue. */
    method RetryRender(user: string, renderId: string, enqueued: bool) returns (r: Result<Render, Error>)
      modifies this
      ensures var refusal := RetryRefusal(old(RenderParties(renderId)),
                                          if renderId in old(renders) then old(renders)[renderId].status else "", user);
              if refusal.Some? then r == Failure(ValueError(refusal.value)) && renders == old(renders)
              else
                renders == old(renders)[renderId := Retried(old(renders)[renderId], enqueued)] &&
                r == (if enqueued then Success(renders[renderId]) else Failure(RuntimeError(RequeueFailed)))
      ensures collaborations == old(collaborations) && uploaders == old(uploaders)
    {
      var parties := RenderParties(renderId);
      var status := if renderId in renders then renders[renderId].status else "";
      var refusal := RetryRefusal(parties, status, user);
      if refusal.Some? {
        return Failure(ValueError(refusal.value));
      }
      var reset := renders[renderId].(status := "queued", progress := 0.0, errorMessage := None,
                                      startedAt := None, completedAt := None);
      renders := renders[renderId := reset];
      if !enqueued {
        renders := renders[renderId := reset.(status := "failed", errorMessage := Some(RequeueFailed))];
        return Failure(RuntimeError(RequeueFailed));
      }
      r := Success(reset);
    }

    /** `get_render_status`: nothing for an unknown render, a refusal for an outsider, otherwise
        the row with a signed link for a finished output. */
    method GetRenderStatus(user: string, renderId: string, presign: string -> string)
      returns (r: Result<Option<Render>, Error>)
      ensures RenderParties(renderId).None? ==> r == Success(None)
      ensures RenderParties(renderId).Some? &&
              !(RenderParties(renderId).value.artistId == user || RenderParties(renderId).value.uploaderId == user) ==>
                r == Failure(ValueError(NoViewPermission))
      ensures RenderParties(renderId).Some? &&
              (RenderParties(renderId).value.artistId == user || RenderParties(renderId).value.uploaderId == user) ==>
                r == Success(Some(Viewed(renders[renderId], presign)))
    {
      var parties := RenderParties(renderId);
      if parties.None? {
        return Success(None);
      }
      if !(parties.value.artistId == user || parties.value.uploaderId == user) {
        return Failure(ValueError(NoViewPermission));
      }
      var render := renders[renderId];
      if render.outputPath.Some? && render.outputPath.value != "" && render.status == "completed" {
        render := render.(outputPath := Some(presign(render.outputPath.value)));
      }
      r := Success(Some(render));
    }
  }

  /** Once `queue_render` stored a render the queue accepted, queueing the same collaboration
      again is refused as already in progress. */
  lemma QueueTwiceRefused(renders: map<string, Render>, approved: Parties, user: string,
                          collaborationId: string, given: Option<Settings>, newId: string)
    requires approved.artistId == user || approved.uploaderId == user
    ensures var after := renders[newId := NewRender(newId, collaborationId, given, true)];
            var pending := exists id :: id in after && after[id].collaborationId == collaborationId &&
                                        after[id].status in PendingStatuses;
            pending && QueueRefusal(Some(approved), user, pending) == Some(AlreadyRendering)
  {
    var after := renders[newId := NewRender(newId, collaborationId, given, true)];
    assert after[newId].status == PendingStatuses[0];
  }
}
