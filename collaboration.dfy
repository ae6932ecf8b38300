/** Claiming a video for a collaboration, moving a collaboration through its review statuses, and
    the overlays the artist places on it. The database tables are maps held by a store object;
    each query becomes a lookup in them and each UPDATE a new map entry. */
module Collaborations {
  import opened Wrappers

  /** A JSON object stored as-is (overlay position and timing). */
  type Data = map<string, string>

  datatype Video = Video(id: string, uploaderId: string, status: string)

  datatype Collaboration = Collaboration(
    id: string, videoId: string, artistId: string, status: string, revenueSplit: real,
    submissionNotes: Option<string>, feedback: Option<string>,
    submittedAt: Option<int>, completedAt: Option<int>)

  datatype Overlay = Overlay(id: string, collaborationId: string, assetId: string,
                             positionData: Data, timingData: Data, layerOrder: int)

  /** The artist's share used when the requested split is not a fraction. */
  const DefaultSplit: real := 0.7

  /** The statuses `update_collaboration_status` accepts. */
  const ValidStatuses: seq<string> := ["claimed", "in_progress", "submitted", "approved", "rejected"]

  /** The statuses that count as an artist still holding a video. */
  const ActiveStatuses: seq<string> := ["claimed", "in_progress", "submitted"]

  const NotAvailable := "Video not found or not available"
  const AlreadyActive := "You already have an active collaboration on this video"
  const InvalidStatus := "Invalid status. Must be one of: ['claimed', 'in_progress', 'submitted', 'approved', 'rejected']"
  const CollaborationNotFound := "Collaboration not found"
  const NoPermission := "You don't have permission to update this collaboration"
  const ArtistOnly := "Artists can only set status to 'in_progress' or 'submitted'"
  const VideographerOnly := "Videographers can only set status to 'approved' or 'rejected'"
  const NotTheArtist := "Collaboration not found or you're not the artist"
  const AssetNotFound := "Asset not found"
  const OverlayNotFound := "Overlay not found"
  const OnlyOwnUpdate := "You can only update your own overlays"
  const OnlyOwnDelete := "You can only delete your own overlays"
  const NoAccess := "You don't have access to this collaboration"

  // ------------------------------------------------------------- starting

  /** The revenue split stored for a new collaboration: always a fraction, the requested one when
      it already is. */
  function EffectiveSplit(split: real): (r: real)
    ensures 0.0 <= r <= 1.0
    ensures 0.0 <= split <= 1.0 ==> r == split
    ensures !(0.0 <= split <= 1.0) ==> r == DefaultSplit
  {
    if 0.0 <= split <= 1.0 then split else DefaultSplit
  }

  /** `SELECT * FROM videos WHERE id = … AND status = 'available'` finds a row. */
  predicate Available(videos: map<string, Video>, videoId: string)
  {
    videoId in videos && videos[videoId].status == "available"
  }

  /** The artist already holds a claimed, in-progress or submitted collaboration on the video. */
  predicate HasActive(collaborations: map<string, Collaboration>, videoId: string, artistId: string)
  {
    exists id :: id in collaborations && collaborations[id].videoId == videoId &&
                 collaborations[id].artistId == artistId && collaborations[id].status in ActiveStatuses
  }

  /** `start_collaboration`: the refusal, or the new claimed collaboration stored under `newId`. */
  function StartOutcome(videos: map<string, Video>, collaborations: map<string, Collaboration>,
                        user: string, videoId: string, split: real, newId: string)
    : (r: Result<Collaboration, string>)
    ensures r.Success? <==> Available(videos, videoId) && !HasActive(collaborations, videoId, user)
    ensures !Available(videos, videoId) ==> r == Failure(NotAvailable)
    ensures Available(videos, videoId) && HasActive(collaborations, videoId, user) ==> r == Failure(AlreadyActive)
    ensures r.Success? ==>
              var c := r.value;
              c.id == newId && c.videoId == videoId && c.artistId == user && c.status == "claimed" &&
              0.0 <= c.revenueSplit <= 1.0 &&
              c.submissionNotes.None? && c.feedback.None? && c.submittedAt.None? && c.completedAt.None?
  {
    if !Available(videos, videoId) then Failure(NotAvailable)
    else if HasActive(collaborations, videoId, user) then Failure(AlreadyActive)
    else Success(Collaboration(newId, videoId, user, "claimed", EffectiveSplit(split), None, None, None, None))
  }

  /** Once a start succeeds, the same artist starting on the same video again is refused. */
  lemma StartTwiceRefused(videos: map<string, Video>, collaborations: map<string, Collaboration>,
                          user: string, videoId: string, split: real, newId: string,
                          split2: real, newId2: string)
    requires StartOutcome(videos, collaborations, user, videoId, split, newId).Success?
    ensures var c := StartOutcome(videos, collaborations, user, videoId, split, newId).value;
            StartOutcome(videos, collaborations[newId := c], user, videoId, split2, newId2) == Failure(AlreadyActive)
  {
    var c := StartOutcome(videos, collaborations, user, videoId, split, newId).value;
    var after := collaborations[newId := c];
    assert after[newId].status == ActiveStatuses[0];
    assert HasActive(after, videoId, user);
  }

  /** No artist holds two active collaborations on one video. */
  predicate OneActivePerArtist(collaborations: map<string, Collaboration>)
  {
    forall i, j :: i in collaborations && j in collaborations &&
                   collaborations[i].status in ActiveStatuses && collaborations[j].status in ActiveStatuses &&
                   collaborations[i].videoId == collaborations[j].videoId &&
                   collaborations[i].artistId == collaborations[j].artistId
                   ==> i == j
  }

  /** Starting a collaboration keeps at most one active collaboration per artist and video. */
  lemma StartKeepsOneActive(videos: map<string, Video>, collaborations: map<string, Collaboration>,
                            user: string, videoId: string, split: real, newId: string)
    requires OneActivePerArtist(collaborations)
    requires newId !in collaborations
    requires StartOutcome(videos, collaborations, user, videoId, split, newId).Success?
    ensures OneActivePerArtist(collaborations[newId := StartOutcome(videos, collaborations, user, videoId, split, newId).value])
  {
    var c := StartOutcome(videos, collaborations, user, videoId, split, newId).value;
    var after := collaborations[newId := c];
    forall i, j | i in after && j in after &&
                  after[i].status in ActiveStatuses && after[j].status in ActiveStatuses &&
                  after[i].videoId == after[j].videoId && after[i].artistId == after[j].artistId
      ensures i == j
    {
      if i != newId && j != newId {
        assert collaborations[i] == after[i] && collaborations[j] == after[j];
      }
    }
  }

  // ------------------------------------------------------------- status updates

  /** The row `update_collaboration_status` reads: the collaboration's artist and the video's uploader. */
  datatype Parties = Parties(artistId: string, uploaderId: string)

  /** The checks of `update_collaboration_status`, in the order the function makes them. */
  function StatusRefusal(status: string, parties: Option<Parties>, user: string): (r: Option<string>)
    ensures status !in ValidStatuses ==> r == Some(InvalidStatus)
    ensures r.None? <==>
              status in ValidStatuses && parties.Some? &&
              ((parties.value.artistId == user && parties.value.uploaderId != user &&
                (status == "in_progress" || status == "submitted")) ||
               (parties.value.uploaderId == user && parties.value.artistId != user &&
                (status == "approved" || status == "rejected")))
  {
    if status !in ValidStatuses then Some(InvalidStatus)
    else if parties.None? then Some(CollaborationNotFound)
    else
      var isArtist := parties.value.artistId == user;
      var isVideographer := parties.value.uploaderId == user;
      if !(isArtist || isVideographer) then Some(NoPermission)
      else if isArtist && status !in ["in_progress", "submitted"] then Some(ArtistOnly)
      else if isVideographer && status !in ["approved", "rejected"] then Some(VideographerOnly)
      else None
  }

  /** A user who is both the artist and the uploader may set no status at all. */
  lemma BothRolesCannotUpdate(status: string, user: string)
    ensures StatusRefusal(status, Some(Parties(user, user)), user).Some?
  {
  }

  /** Anyone else than the artist and the uploader is refused whatever the status. */
  lemma OutsiderRefused(status: string, parties: Parties, user: string)
    requires status in ValidStatuses
    requires parties.artistId != user && parties.uploaderId != user
    ensures StatusRefusal(status, Some(parties), user) == Some(NoPermission)
  {
  }

  /** One column assignment of the UPDATE statement `update_collaboration_status` builds. */
  datatype StatusAssignment =
    | SetStatus(status: string)
    | SetNotes(notes: string)
    | SetFeedback(feedback: string)
    | StampSubmitted
    | StampCompleted

  /** The assignments of the status UPDATE, in the order the statement lists them. */
  function StatusAssignments(status: string, notes: Option<string>, feedback: Option<string>)
    : (r: seq<StatusAssignment>)
    ensures |r| >= 1 && r[0] == SetStatus(status)
  {
    [SetStatus(status)]
    + (if notes.Some? then [SetNotes(notes.value)] else [])
    + (if feedback.Some? then [SetFeedback(feedback.value)] else [])
    + (if status == "submitted" then [StampSubmitted]
       else if status in ["approved", "rejected"] then [StampCompleted] else [])
  }

  /** The row after the assignments run at time `now`. */
  function Assigned(c: Collaboration, assignments: seq<StatusAssignment>, now: int): Collaboration
  {
    if |assignments| == 0 then c
    else
      var rest := Assigned(c, assignments[..|assignments| - 1], now);
      match assignments[|assignments| - 1]
      case SetStatus(s) => rest.(status := s)
      case SetNotes(n) => rest.(submissionNotes := Some(n))
      case SetFeedback(f) => rest.(feedback := Some(f))
      case StampSubmitted => rest.(submittedAt := Some(now))
      case StampCompleted => rest.(completedAt := Some(now))
  }

  lemma AssignedAppend(c: Collaboration, a: seq<StatusAssignment>, x: StatusAssignment, now: int)
    ensures Assigned(c, a + [x], now) == Assigned(Assigned(c, a, now), [x], now)
  {
    assert (a + [x])[..|a|] == a;
  }

  /** The effect of a permitted status update: the status is set, notes and feedback change only
      when supplied, `submitted` stamps the submission time and a decision stamps the completion
      time; the identity, video, artist and split stay. */
  lemma StatusUpdateEffect(c: Collaboration, status: string, notes: Option<string>,
                           feedback: Option<string>, now: int)
    ensures var u := Assigned(c, StatusAssignments(status, notes, feedback), now);
            u.status == status &&
            u.submissionNotes == (if notes.Some? then notes else c.submissionNotes) &&
            u.feedback == (if feedback.Some? then feedback else c.feedback) &&
            u.submittedAt == (if status == "submitted" then Some(now) else c.submittedAt) &&
            u.completedAt == (if status == "approved" || status == "rejected" then Some(now) else c.completedAt) &&
            u.id == c.id && u.videoId == c.videoId && u.artistId == c.artistId &&
            u.revenueSplit == c.revenueSplit
  {
    var s := [SetStatus(status)];
    var n := if notes.Some? then [SetNotes(notes.value)] else [];
    var f := if feedback.Some? then [SetFeedback(feedback.value)] else [];
    var t := if status == "submitted" then [StampSubmitted]
             else if status in ["approved", "rejected"] then [StampCompleted] else [];
    assert StatusAssignments(status, notes, feedback) == s + n + f + t;
    var u1 := Assigned(c, s, now);
    assert Assigned(c, [] + s, now) == Assigned(Assigned(c, [], now), s, now) by {
      AssignedAppend(c, [], SetStatus(status), now);
    }
    assert u1 == c.(status := status) by { assert [] + s == s; }
    var u2 := Assigned(c, s + n, now);
    if notes.Some? {
      AssignedAppend(c, s, SetNotes(notes.value), now);
    } else {
      assert s + n == s;
    }
    var u3 := Assigned(c, s + n + f, now);
    if feedback.Some? {
      AssignedAppend(c, s + n, SetFeedback(feedback.value), now);
    } else {
      assert s + n + f == s + n;
    }
    if |t| == 1 {
      AssignedAppend(c, s + n + f, t[0], now);
      assert s + n + f + t == (s + n + f) + [t[0]];
    } else {
      assert s + n + f + t == s + n + f;
    }
  }

  /** The status update does not look at the current status: the artist may move even an approved
      or rejected collaboration back to in progress. */
  lemma ArtistMayReopen(c: Collaboration, uploaderId: string, now: int)
    requires c.status == "approved" || c.status == "rejected"
    requires uploaderId != c.artistId
    ensures StatusRefusal("in_progress", Some(Parties(c.artistId, uploaderId)), c.artistId).None?
    ensures Assigned(c, StatusAssignments("in_progress", None, None), now).status in ActiveStatuses
  {
    StatusUpdateEffect(c, "in_progress", None, None, now);
  }

  /** Builds the assignment list by successive appends, as the function grows `update_query`. */
  method BuildStatusUpdate(status: string, notes: Option<string>, feedback: Option<string>)
    returns (assignments: seq<StatusAssignment>)
    ensures assignments == StatusAssignments(status, notes, feedback)
  {
    assignments := [SetStatus(status)];
    if notes.Some? {
      assignments := assignments + [SetNotes(notes.value)];
    }
    if feedback.Some? {
      assignments := assignments + [SetFeedback(feedback.value)];
    }
    if status == "submitted" {
      assignments := assignments + [StampSubmitted];
    } else if status in ["approved", "rejected"] {
      assignments := assignments + [StampCompleted];
    }
  }

  // ------------------------------------------------------------- overlay updates

  /** One column assignment of the UPDATE statement `update_overlay` builds. */
  datatype OverlayAssignment =
    | SetPosition(positionData: Data)
    | SetTiming(timingData: Data)
    | SetLayer(layerOrder: int)

  /** The assignments of `update_overlay`: one per supplied field, in the order position, timing,
      layer. */
  function OverlayAssignments(position: Option<Data>, timing: Option<Data>, layer: Option<int>)
    : (r: seq<OverlayAssignment>)
    ensures |r| == 0 <==> position.None? && timing.None? && layer.None?
    ensures |r| <= 3
  {
    (if position.Some? then [SetPosition(position.value)] else [])
    + (if timing.Some? then [SetTiming(timing.value)] else [])
    + (if layer.Some? then [SetLayer(layer.value)] else [])
  }

  function OverlayAssigned(o: Overlay, assignments: seq<OverlayAssignment>): Overlay
  {
    if |assignments| == 0 then o
    else
      var rest := OverlayAssigned(o, assignments[..|assignments| - 1]);
      match assignments[|assignments| - 1]
      case SetPosition(p) => rest.(positionData := p)
      case SetTiming(t) => rest.(timingData := t)
      case SetLayer(l) => rest.(layerOrder := l)
  }

  lemma OverlayAssignedAppend(o: Overlay, a: seq<OverlayAssignment>, x: OverlayAssignment)
    ensures OverlayAssigned(o, a + [x]) == OverlayAssigned(OverlayAssigned(o, a), [x])
  {
    assert (a + [x])[..|a|] == a;
  }

  /** `update_overlay` changes exactly the supplied fields; the overlay's identity, collaboration
      and asset stay. */
  lemma OverlayUpdateEffect(o: Overlay, position: Option<Data>, timing: Option<Data>, layer: Option<int>)
    ensures var u := OverlayAssigned(o, OverlayAssignments(position, timing, layer));
            u.positionData == position.GetOr(o.positionData) &&
            u.timingData == timing.GetOr(o.timingData) &&
            u.layerOrder == layer.GetOr(o.layerOrder) &&
            u.id == o.id && u.collaborationId == o.collaborationId && u.assetId == o.assetId
  {
    var p := if position.Some? then [SetPosition(position.value)] else [];
    var t := if timing.Some? then [SetTiming(timing.value)] else [];
    var l := if layer.Some? then [SetLayer(layer.value)] else [];
    assert OverlayAssignments(position, timing, layer) == p + t + l;
    if position.Some? {
      OverlayAssignedAppend(o, [], SetPosition(position.value));
      assert [] + p == p;
    }
    if timing.Some? {
      OverlayAssignedAppend(o, p, SetTiming(timing.value));
    } else {
      assert p + t == p;
    }
    if layer.Some? {
      OverlayAssignedAppend(o, p + t, SetLayer(layer.value));
    } else {
      assert p + t + l == p + t;
    }
  }

  /** Builds the assignment list by successive appends, as the function grows `update_fields`. */
  method BuildOverlayUpdate(position: Option<Data>, timing: Option<Data>, layer: Option<int>)
    returns (fields: seq<OverlayAssignment>)
    ensures fields == OverlayAssignments(position, timing, layer)
  {
    fields := [];
    if position.Some? {
      fields := fields + [SetPosition(position.value)];
    }
    if timing.Some? {
      fields := fields + [SetTiming(timing.value)];
    }
    if layer.Some? {
      fields := fields + [SetLayer(layer.value)];
    }
  }

  // ------------------------------------------------------------- the store

  /** The collaboration, video, overlay and asset tables the service functions query and update. */
  class CollaborationStore {
    var videos: map<string, Video>
    var collaborations: map<string, Collaboration>
    var overlays: map<string, Overlay>
    var assets: set<string>

    constructor(videos: map<string, Video>, assets: set<string>)
      ensures this.videos == videos && this.assets == assets
      ensures collaborations == map[] && overlays == map[]
    {
      this.videos := videos;
      this.assets := assets;
      collaborations := map[];
      overlays := map[];
    }

    /** The joined row of a collaboration and its video, when both exist. */
    function PartiesOf(collaborationId: string): (r: Option<Parties>)
      reads this
      ensures r.Some? <==> collaborationId in collaborations && collaborations[collaborationId].videoId in videos
    {
      if collaborationId in collaborations && collaborations[collaborationId].videoId in videos then
        var c := collaborations[collaborationId];
        Some(Parties(c.artistId, videos[c.videoId].uploaderId))
      else None
    }

    /** `start_collaboration`; `newId` stands for the id the database assigns. */
    method StartCollaboration(user: string, videoId: string, revenueSplit: real, newId: string)
      returns (r: Result<Collaboration, string>)
      requires newId !in collaborations
      modifies this
      ensures r == StartOutcome(old(videos), old(collaborations), user, videoId, revenueSplit, newId)
      ensures collaborations == if r.Success? then old(collaborations)[newId := r.value] else old(collaborations)
      ensures videos == old(videos) && overlays == old(overlays) && assets == old(assets)
    {
      if !(videoId in videos && videos[videoId].status == "available") {
        return Failure(NotAvailable);
      }
      if HasActive(collaborations, videoId, user) {
        return Failure(AlreadyActive);
      }
      var split := revenueSplit;
      if !(0.0 <= split <= 1.0) {
        split := DefaultSplit;
      }
      var c := Collaboration(newId, videoId, user, "claimed", split, None, None, None, None);
      collaborations := collaborations[newId := c];
      r := Success(c);
    }

    /** `update_collaboration_status` at time `now`. */
    method UpdateCollaborationStatus(user: string, collaborationId: string, status: string,
                                     notes: Option<string>, feedback: Option<string>, now: int)
      returns (r: Result<Collaboration, string>)
      modifies this
      ensures var refusal := StatusRefusal(status, old(PartiesOf(collaborationId)), user);
              if refusal.Some? then r == Failure(refusal.value) && collaborations == old(collaborations)
              else
                r.Success? &&
                r.value == Assigned(old(collaborations)[collaborationId], StatusAssignments(status, notes, feedback), now) &&
                collaborations == old(collaborations)[collaborationId := r.value]
      ensures videos == old(videos) && overlays == old(overlays) && assets == old(assets)
    {
      var refusal := StatusRefusal(status, PartiesOf(collaborationId), user);
      if refusal.Some? {
        return Failure(refusal.value);
      }
      var assignments := BuildStatusUpdate(status, notes, feedback);
      var updated := Assigned(collaborations[collaborationId], assignments, now);
      collaborations := collaborations[collaborationId := updated];
      r := Success(updated);
    }

    /** `add_overlay_to_collaboration`; `newId` stands for the id the database assigns. */
    method AddOverlay(user: string, collaborationId: string, assetId: string,
                      position: Data, timing: Data, layerOrder: int, newId: string)
      returns (r: Result<Overlay, string>)
      requires newId !in overlays
      modifies this
      ensures !(collaborationId in old(collaborations) && old(collaborations)[collaborationId].artistId == user) ==>
                r == Failure(NotTheArtist) && overlays == old(overlays)
      ensures (collaborationId in old(collaborations) && old(collaborations)[collaborationId].artistId == user &&
               assetId !in assets) ==> r == Failure(AssetNotFound) && overlays == old(overlays)
      ensures r.Success? <==>
                collaborationId in old(collaborations) && old(collaborations)[collaborationId].artistId == user &&
                assetId in assets
      ensures r.Success? ==>
                r.value == Overlay(newId, collaborationId, assetId, position, timing, layerOrder) &&
                overlays == old(overlays)[newId := r.value]
      ensures videos == old(videos) && collaborations == old(collaborations) && assets == old(assets)
    {
      if !(collaborationId in collaborations && collaborations[collaborationId].artistId == user) {
        return Failure(NotTheArtist);
      }
      if assetId !in assets {
        return Failure(AssetNotFound);
      }
      var o := Overlay(newId, collaborationId, assetId, position, timing, layerOrder);
      overlays := overlays[newId := o];
      r := Success(o);
    }

    /** The artist of the collaboration an overlay belongs to, when the join finds both rows. */
    function OverlayOwner(overlayId: string): (r: Option<string>)
      reads this
      ensures r.Some? <==> overlayId in overlays && overlays[overlayId].collaborationId in collaborations
    {
      if overlayId in overlays && overlays[overlayId].collaborationId in collaborations then
        Some(collaborations[overlays[overlayId].collaborationId].artistId)
      else None
    }

    /** `update_overlay`: only the artist of the overlay's collaboration may change it, and only the
        supplied fields change; with none supplied nothing is written. */
    method UpdateOverlay(user: string, overlayId: string, position: Option<Data>, timing: Option<Data>,
                         layer: Option<int>)
      returns (r: Result<Overlay, string>)
      modifies this
      ensures old(OverlayOwner(overlayId)).None? ==> r == Failure(OverlayNotFound) && overlays == old(overlays)
      ensures old(OverlayOwner(overlayId)).Some? && old(OverlayOwner(overlayId)).value != user ==>
                r == Failure(OnlyOwnUpdate) && overlays == old(overlays)
      ensures r.Success? <==> old(OverlayOwner(overlayId)) == Some(user)
      ensures r.Success? ==>
                r.value == OverlayAssigned(old(overlays)[overlayId], OverlayAssignments(position, timing, layer)) &&
                overlays == old(overlays)[overlayId := r.value]
      ensures videos == old(videos) && collaborations == old(collaborations) && assets == old(assets)
    {
      var owner := OverlayOwner(overlayId);
      if owner.None? {
        return Failure(OverlayNotFound);
      }
      if owner.value != user {
        return Failure(OnlyOwnUpdate);
      }
      var fields := BuildOverlayUpdate(position, timing, layer);
      if |fields| > 0 {
        overlays := overlays[overlayId := OverlayAssigned(overlays[overlayId], fields)];
      }
      r := Success(overlays[overlayId]);
    }

    /** `delete_overlay`: only the artist of the overlay's collaboration may delete it. */
    method DeleteOverlay(user: string, overlayId: string) returns (r: Result<bool, string>)
      modifies this
      ensures old(OverlayOwner(overlayId)).None? ==> r == Failure(OverlayNotFound)
      ensures old(OverlayOwner(overlayId)).Some? && old(OverlayOwner(overlayId)).value != user ==>
                r == Failure(OnlyOwnDelete)
      ensures r.Success? <==> old(OverlayOwner(overlayId)) == Some(user)
      ensures r.Success? ==> r.value && overlays == old(overlays) - {overlayId}
      ensures r.Failure? ==> overlays == old(overlays)
      ensures videos == old(videos) && collaborations == old(collaborations) && assets == old(assets)
    {
      var owner := OverlayOwner(overlayId);
      if owner.None? {
        return Failure(OverlayNotFound);
      }
      if owner.value != user {
        return Failure(OnlyOwnDelete);
      }
      overlays := overlays - {overlayId};
      r := Success(true);
    }

    /** `get_collaboration_overlays`: the artist and the uploader see the collaboration's overlays. */
    method GetCollaborationOverlays(user: string, collaborationId: string)
      returns (r: Result<set<Overlay>, string>)
      ensures PartiesOf(collaborationId).None? ==> r == Failure(CollaborationNotFound)
      ensures r.Success? <==>
                PartiesOf(collaborationId).Some? &&
                (PartiesOf(collaborationId).value.artistId == user || PartiesOf(collaborationId).value.uploaderId == user)
      ensures r.Success? ==>
                r.value == set id | id in overlays && overlays[id].collaborationId == collaborationId :: overlays[id]
    {
      var parties := PartiesOf(collaborationId);
      if parties.None? {
        return Failure(CollaborationNotFound);
      }
      if !(parties.value.artistId == user || parties.value.uploaderId == user) {
        return Failure(NoAccess);
      }
      r := Success(set id | id in overlays && overlays[id].collaborationId == collaborationId :: overlays[id]);
    }
  }
}
