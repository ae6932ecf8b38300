/** The in-memory collaboration rooms behind the real-time socket: who is in which room, the
    connection record of each user, the bounded activity log of each room, and the dispatch of
    incoming socket messages. */
module Rooms {
  import opened Wrappers
  import opened Lists

  /** A JSON object carried through unchanged (user info, overlay and cursor payloads). */
  type Data = map<string, string>

  /** `user_connections[user_id]`: the room last joined, the user's info and two timestamps. */
  datatype Connection = Connection(collaborationId: string, userInfo: Data, joinedAt: int, lastSeen: int)

  datatype RenderData = RenderData(renderId: string, progress: real, status: string)

  /** The messages the manager builds; only overlay updates and chat messages are logged. */
  datatype Message =
    | UserJoined(userId: string, userInfo: Data, timestamp: int)
    | UserLeft(userId: string, userInfo: Data, timestamp: int)
    | OverlayUpdated(userId: string, overlayData: Data, timestamp: int)
    | CursorUpdated(userId: string, cursorData: Data, timestamp: int)
    | ChatMessage(userId: string, userInfo: Data, text: string, timestamp: int)
    | RenderProgress(renderData: RenderData, timestamp: int)

  /** One entry of `get_collaboration_users`. */
  datatype UserPresence = UserPresence(userId: string, userInfo: Data, joinedAt: int, lastSeen: int)

  /** The number of messages each room's activity log keeps. */
  const ActivityCap: nat := 100

  // ------------------------------------------------------------- rooms

  predicate NoEmptyRoom(rooms: map<string, set<string>>)
  {
    forall cid :: cid in rooms ==> rooms[cid] != {}
  }

  /** The rooms after `user` joins `cid`: the room is created when missing. */
  function Joined(rooms: map<string, set<string>>, cid: string, user: string): (r: map<string, set<string>>)
    ensures r.Keys == rooms.Keys + {cid}
    ensures user in r[cid] && r[cid] - {user} == if cid in rooms then rooms[cid] - {user} else {}
    ensures forall c :: c in rooms && c != cid ==> r[c] == rooms[c]
    ensures NoEmptyRoom(rooms) ==> NoEmptyRoom(r)
  {
    rooms[cid := (if cid in rooms then rooms[cid] else {}) + {user}]
  }

  /** The rooms after `user` leaves `cid`: a room left empty is deleted. */
  function Left(rooms: map<string, set<string>>, cid: string, user: string): (r: map<string, set<string>>)
    ensures cid !in rooms ==> r == rooms
    ensures cid in rooms ==> (cid in r <==> rooms[cid] - {user} != {})
    ensures cid in r ==> r[cid] == rooms[cid] - {user}
    ensures forall c :: c != cid ==> (c in r <==> c in rooms)
    ensures forall c :: c in rooms && c != cid ==> r[c] == rooms[c]
    ensures NoEmptyRoom(rooms) ==> NoEmptyRoom(r)
  {
    if cid !in rooms then rooms
    else if rooms[cid] - {user} == {} then rooms - {cid}
    else rooms[cid := rooms[cid] - {user}]
  }

  /** Leaving undoes joining for a user who was not already in the room. */
  lemma LeaveUndoesJoin(rooms: map<string, set<string>>, cid: string, user: string)
    requires NoEmptyRoom(rooms)
    requires cid !in rooms || user !in rooms[cid]
    ensures Left(Joined(rooms, cid, user), cid, user) == rooms
  {
    var j := Joined(rooms, cid, user);
    var l := Left(j, cid, user);
    if cid in rooms {
      assert j[cid] - {user} == rooms[cid];
      assert rooms[cid] != {};
      assert l == j[cid := rooms[cid]];
    } else {
      assert j[cid] - {user} == {};
    }
    assert l.Keys == rooms.Keys;
  }

  /** `exclude_user and user_id == exclude_user`: an empty user id excludes nobody. */
  predicate Excluded(user: string, exclude: Option<string>)
  {
    exclude.Some? && exclude.value != "" && user == exclude.value
  }

  /** The users a broadcast to `cid` reaches: the room's members less the excluded user. */
  function Recipients(rooms: map<string, set<string>>, cid: string, exclude: Option<string>): (r: set<string>)
    ensures cid !in rooms ==> r == {}
    ensures forall u :: u in r ==> cid in rooms && u in rooms[cid]
    ensures forall u :: cid in rooms && u in rooms[cid] && exclude != Some(u) ==> u in r
    ensures exclude.Some? && exclude.value != "" ==> exclude.value !in r
    ensures exclude == Some("") && cid in rooms ==> r == rooms[cid]
  {
    if cid in rooms then set u | u in rooms[cid] && !Excluded(u, exclude) else {}
  }

  /** After a join every other member hears of it, and the joiner (with a non-empty id) does not. */
  lemma JoinNotifiesOthers(rooms: map<string, set<string>>, cid: string, user: string)
    requires user != ""
    ensures Recipients(Joined(rooms, cid, user), cid, Some(user)) ==
            if cid in rooms then rooms[cid] - {user} else {}
  {
    var j := Joined(rooms, cid, user);
    var r := Recipients(j, cid, Some(user));
    assert r == j[cid] - {user};
  }

  // ---------------------------------------------------------- activity

  predicate LogsBounded(activity: map<string, seq<Message>>)
  {
    forall cid :: cid in activity ==> |activity[cid]| <= ActivityCap
  }

  /** A log with `m` appended, trimmed to its newest `ActivityCap` messages. */
  function Logged(log: seq<Message>, m: Message): (r: seq<Message>)
    ensures |r| == if |log| < ActivityCap then |log| + 1 else ActivityCap
    ensures r == (log + [m])[|log| + 1 - |r|..]
    ensures r[|r| - 1] == m
  {
    var l := log + [m];
    if |l| > ActivityCap then l[|l| - ActivityCap..] else l
  }

  /** `_add_to_activity`: the room's log, created when missing, with `m` logged. */
  function AddToActivity(activity: map<string, seq<Message>>, cid: string, m: Message): (r: map<string, seq<Message>>)
    ensures r.Keys == activity.Keys + {cid}
    ensures r[cid] == Logged(if cid in activity then activity[cid] else [], m)
    ensures forall c :: c in activity && c != cid ==> r[c] == activity[c]
    ensures LogsBounded(activity) ==> LogsBounded(r)
  {
    activity[cid := Logged(if cid in activity then activity[cid] else [], m)]
  }

  /** Logging `ms` one after the other. */
  function LogAll(log: seq<Message>, ms: seq<Message>): seq<Message>
  {
    if ms == [] then log else Logged(LogAll(log, ms[..|ms| - 1]), ms[|ms| - 1])
  }

  /** Logging one message after the newest `ActivityCap` of `all` keeps the newest of `all + [m]`. */
  lemma LoggedAfterDrop(all: seq<Message>, m: Message)
    ensures Logged(Drop(all, -(ActivityCap as int)), m) == Drop(all + [m], -(ActivityCap as int))
  {
    var prev := Drop(all, -(ActivityCap as int));
    var r := Logged(prev, m);
    var d := Drop(all + [m], -(ActivityCap as int));
    var start := |all| - |prev|;
    assert prev + [m] == (all + [m])[start..];
    SliceOfSlice(all + [m], start, |prev| + 1 - |r|);
    assert |r| == |d|;
  }

  /** However many messages are logged, the log holds exactly the newest `ActivityCap` of all. */
  lemma {:induction false} LogAllKeepsNewest(log: seq<Message>, ms: seq<Message>)
    requires |log| <= ActivityCap
    ensures LogAll(log, ms) == Drop(log + ms, -(ActivityCap as int))
  {
    if ms != [] {
      var init, m := ms[..|ms| - 1], ms[|ms| - 1];
      LogAllKeepsNewest(log, init);
      LoggedAfterDrop(log + init, m);
      AppendSplitLast(log, ms);
    }
  }

  /** `activity[-limit:] if activity else []` on the room's log. */
  function RecentActivity(log: seq<Message>, limit: int): (r: seq<Message>)
    ensures limit == 0 ==> r == log
    ensures limit > 0 ==> r == log[|log| - (if limit < |log| then limit else |log|)..]
    ensures limit < 0 ==> r == log[(if -limit < |log| then -limit else |log|)..]
  {
    if log == [] then [] else Drop(log, -limit)
  }

  /** The newest logged message is the one `get_recent_activity(cid, 1)` returns. */
  lemma NewestIsRecent(log: seq<Message>, m: Message)
    ensures RecentActivity(Logged(log, m), 1) == [m]
  {
    var r := Logged(log, m);
    assert r[|r| - 1..] == [r[|r| - 1]];
  }

  function Log(activity: map<string, seq<Message>>, cid: string): seq<Message>
  {
    if cid in activity then activity[cid] else []
  }

  // ------------------------------------------------------ presence

  function PresenceOf(user: string, c: Connection): (p: UserPresence)
    ensures p.userId == user && p.userInfo == c.userInfo
    ensures p.joinedAt == c.joinedAt && p.lastSeen == c.lastSeen
  {
    UserPresence(user, c.userInfo, c.joinedAt, c.lastSeen)
  }

  /** `user_connections.get(user_id, {}).get('user_info', {})`. */
  function InfoOf(connections: map<string, Connection>, user: string): Data
  {
    if user in connections then connections[user].userInfo else map[]
  }

  // ------------------------------------------------------- the manager

  class ConnectionManager {
    var rooms: map<string, set<string>>
    var connections: map<string, Connection>
    var activity: map<string, seq<Message>>

    /** No stored room is empty and no log is longer than `ActivityCap`. */
    ghost predicate Valid()
      reads this
    {
      NoEmptyRoom(rooms) && LogsBounded(activity)
    }

    constructor ()
      ensures Valid()
      ensures rooms == map[] && connections == map[] && activity == map[]
    {
      rooms, connections, activity := map[], map[], map[];
    }

    /** `_broadcast_to_collaboration`: visits the room's members and returns those it sends to. */
    method Broadcast(cid: string, exclude: Option<string>) returns (sent: set<string>)
      ensures sent == Recipients(rooms, cid, exclude)
    {
      sent := {};
      if cid !in rooms {
        return;
      }
      var members := rooms[cid];
      var remaining := members;
      while remaining != {}
        invariant remaining <= members
        invariant sent == set u | u in members - remaining && !Excluded(u, exclude)
        decreases remaining
      {
        var u :| u in remaining;
        if !Excluded(u, exclude) {
          sent := sent + {u};
        }
        remaining := remaining - {u};
      }
      assert members - remaining == members;
    }

    /** `_add_to_activity`. */
    method AddActivity(cid: string, m: Message)
      modifies this
      ensures activity == AddToActivity(old(activity), cid, m)
      ensures rooms == old(rooms) && connections == old(connections)
    {
      var log := if cid in activity then activity[cid] else [];
      log := log + [m];
      if |log| > ActivityCap {
        log := log[|log| - ActivityCap..];
      }
      activity := activity[cid := log];
    }

    /** `join_collaboration`: enter the room, overwrite the connection record, notify the others. */
    method JoinCollaboration(cid: string, user: string, userInfo: Data, now: int) returns (sent: set<string>)
      requires Valid()
      modifies this
      ensures Valid()
      ensures rooms == Joined(old(rooms), cid, user)
      ensures connections == old(connections)[user := Connection(cid, userInfo, now, now)]
      ensures activity == old(activity)
      ensures sent == Recipients(rooms, cid, Some(user))
    {
      var members := if cid in rooms then rooms[cid] else {};
      rooms := rooms[cid := members + {user}];
      connections := connections[user := Connection(cid, userInfo, now, now)];
      sent := Broadcast(cid, Some(user));
    }

    /** `leave_collaboration`: leave the room (deleting it when empty), drop the connection record,
        and notify the room when there was a record. */
    method LeaveCollaboration(cid: string, user: string) returns (sent: set<string>)
      requires Valid()
      modifies this
      ensures Valid()
      ensures rooms == Left(old(rooms), cid, user)
      ensures connections == old(connections) - {user}
      ensures activity == old(activity)
      ensures sent == if user in old(connections) then Recipients(rooms, cid, None) else {}
      ensures user !in sent
    {
      if cid in rooms {
        var members := rooms[cid] - {user};
        if members == {} {
          rooms := rooms - {cid};
        } else {
          rooms := rooms[cid := members];
        }
      }
      sent := {};
      if user in connections {
        connections := connections - {user};
        sent := Broadcast(cid, None);
      }
    }

    /** `broadcast_overlay_update`: everyone but the sender hears of it, and it is logged. */
    method BroadcastOverlayUpdate(cid: string, user: string, overlayData: Data, now: int) returns (sent: set<string>)
      requires Valid()
      modifies this
      ensures Valid()
      ensures sent == Recipients(rooms, cid, Some(user))
      ensures activity == AddToActivity(old(activity), cid, OverlayUpdated(user, overlayData, now))
      ensures rooms == old(rooms) && connections == old(connections)
    {
      var message := OverlayUpdated(user, overlayData, now);
      sent := Broadcast(cid, Some(user));
      AddActivity(cid, message);
    }

    /** `broadcast_cursor_position`: everyone but the sender hears of it; nothing is logged. */
    method BroadcastCursorPosition(cid: string, user: string, cursorData: Data, now: int) returns (sent: set<string>)
      ensures sent == Recipients(rooms, cid, Some(user))
    {
      sent := Broadcast(cid, Some(user));
    }

    /** `broadcast_chat_message`: the whole room hears it, sender included, and it is logged. */
    method BroadcastChatMessage(cid: string, user: string, text: string, now: int) returns (sent: set<string>)
      requires Valid()
      modifies this
      ensures Valid()
      ensures sent == Recipients(rooms, cid, None)
      ensures activity == AddToActivity(old(activity), cid, ChatMessage(user, InfoOf(connections, user), text, now))
      ensures rooms == old(rooms) && connections == old(connections)
    {
      var info := if user in connections then connections[user].userInfo else map[];
      var message := ChatMessage(user, info, text, now);
      sent := Broadcast(cid, None);
      AddActivity(cid, message);
    }

    /** `broadcast_render_progress`: the whole room hears it; nothing is logged. */
    method BroadcastRenderProgress(cid: string, renderData: RenderData, now: int) returns (sent: set<string>)
      ensures sent == Recipients(rooms, cid, None)
    {
      sent := Broadcast(cid, None);
    }

    /** `get_collaboration_users`: one entry per member that has a connection record. */
    method GetCollaborationUsers(cid: string) returns (users: seq<UserPresence>)
      ensures cid !in rooms ==> users == []
      ensures forall i :: 0 <= i < |users| ==>
                cid in rooms && users[i].userId in rooms[cid] && users[i].userId in connections &&
                users[i] == PresenceOf(users[i].userId, connections[users[i].userId])
      ensures forall u :: cid in rooms && u in rooms[cid] && u in connections ==>
                PresenceOf(u, connections[u]) in users
      ensures forall i, j :: 0 <= i < j < |users| ==> users[i].userId != users[j].userId
    {
      users := [];
      if cid !in rooms {
        return;
      }
      var members := rooms[cid];
      var remaining := members;
      while remaining != {}
        invariant remaining <= members
        invariant forall i :: 0 <= i < |users| ==>
                    users[i].userId in members - remaining && users[i].userId in connections &&
                    users[i] == PresenceOf(users[i].userId, connections[users[i].userId])
        invariant forall u :: u in members - remaining && u in connections ==>
                    PresenceOf(u, connections[u]) in users
        invariant forall i, j :: 0 <= i < j < |users| ==> users[i].userId != users[j].userId
        decreases remaining
      {
        var u :| u in remaining;
        if u in connections {
          var c := connections[u];
          users := users + [UserPresence(u, c.userInfo, c.joinedAt, c.lastSeen)];
        }
        remaining := remaining - {u};
      }
    }

    /** `get_recent_activity`. */
    method GetRecentActivity(cid: string, limit: int) returns (r: seq<Message>)
      ensures r == RecentActivity(Log(activity, cid), limit)
    {
      var log := if cid in activity then activity[cid] else [];
      r := if log == [] then [] else Drop(log, -limit);
    }

    /** `update_user_presence`: only the user's `last_seen` moves. */
    method UpdateUserPresence(user: string, now: int)
      modifies this
      ensures connections == if user in old(connections)
                             then old(connections)[user := old(connections)[user].(lastSeen := now)]
                             else old(connections)
      ensures rooms == old(rooms) && activity == old(activity)
    {
      if user in connections {
        connections := connections[user := connections[user].(lastSeen := now)];
      }
    }
  }

  // --------------------------------------------------- socket messages

  /** The fields of an incoming socket message that the dispatcher reads, each possibly absent. */
  datatype Incoming = Incoming(kind: Option<string>, overlayData: Option<Data>, cursorData: Option<Data>, text: Option<string>)

  datatype Action = OverlayUpdate | CursorUpdate | Chat | Ping | Unknown

  /** Which branch of `handle_websocket_message` a message type selects. */
  function Dispatch(kind: Option<string>): (a: Action)
    ensures a == OverlayUpdate <==> kind == Some("overlay_update")
    ensures a == CursorUpdate <==> kind == Some("cursor_update")
    ensures a == Chat <==> kind == Some("chat_message")
    ensures a == Ping <==> kind == Some("ping")
  {
    match kind
    case Some("overlay_update") => OverlayUpdate
    case Some("cursor_update") => CursorUpdate
    case Some("chat_message") => Chat
    case Some("ping") => Ping
    case _ => Unknown
  }

  /** Of the message kinds, only overlay updates and chat messages reach the activity log. */
  predicate IsLogged(a: Action)
  {
    a == OverlayUpdate || a == Chat
  }

  /** `handle_websocket_message` against the shared manager. */
  method HandleWebsocketMessage(manager: ConnectionManager, cid: string, user: string, message: Incoming, now: int)
    returns (sent: set<string>)
    requires manager.Valid()
    modifies manager
    ensures manager.Valid()
    ensures manager.rooms == old(manager.rooms)
    ensures !IsLogged(Dispatch(message.kind)) ==> manager.activity == old(manager.activity)
    ensures Dispatch(message.kind) == OverlayUpdate ==>
              manager.activity == AddToActivity(old(manager.activity), cid,
                                    OverlayUpdated(user, message.overlayData.GetOr(map[]), now))
    ensures Dispatch(message.kind) == Chat ==>
              manager.activity == AddToActivity(old(manager.activity), cid,
                                    ChatMessage(user, InfoOf(old(manager.connections), user), message.text.GetOr(""), now))
    ensures Dispatch(message.kind) == Ping ==>
              manager.connections == if user in old(manager.connections)
                                     then old(manager.connections)[user := old(manager.connections)[user].(lastSeen := now)]
                                     else old(manager.connections)
    ensures Dispatch(message.kind) != Ping ==> manager.connections == old(manager.connections)
    ensures Dispatch(message.kind) in {Ping, Unknown} ==> sent == {}
    ensures Dispatch(message.kind) in {OverlayUpdate, CursorUpdate} ==> sent == Recipients(manager.rooms, cid, Some(user))
    ensures Dispatch(message.kind) == Chat ==> sent == Recipients(manager.rooms, cid, None)
  {
    sent := {};
    match Dispatch(message.kind)
    case OverlayUpdate =>
      sent := manager.BroadcastOverlayUpdate(cid, user, message.overlayData.GetOr(map[]), now);
    case CursorUpdate =>
      sent := manager.BroadcastCursorPosition(cid, user, message.cursorData.GetOr(map[]), now);
    case Chat =>
      sent := manager.BroadcastChatMessage(cid, user, message.text.GetOr(""), now);
    case Ping =>
      manager.UpdateUserPresence(user, now);
    case Unknown =>
  }

  /** `get_collaboration_presence`: members with records and the 20 newest logged messages. */
  datatype Presence = Presence(collaborationId: string, activeUsers: seq<UserPresence>, recentActivity: seq<Message>, timestamp: int)

  method GetCollaborationPresence(manager: ConnectionManager, cid: string, now: int) returns (p: Presence)
    ensures p.collaborationId == cid && p.timestamp == now
    ensures p.recentActivity == RecentActivity(Log(manager.activity, cid), 20)
    ensures |p.recentActivity| <= 20
    ensures forall i :: 0 <= i < |p.activeUsers| ==>
              cid in manager.rooms && p.activeUsers[i].userId in manager.rooms[cid] &&
              p.activeUsers[i].userId in manager.connections
    ensures forall u :: cid in manager.rooms && u in manager.rooms[cid] && u in manager.connections ==>
              PresenceOf(u, manager.connections[u]) in p.activeUsers
  {
    var users := manager.GetCollaborationUsers(cid);
    var recent := manager.GetRecentActivity(cid, 20);
    p := Presence(cid, users, recent, now);
  }

  /** `notify_render_progress`: the room hears of the render; no state changes. */
  method NotifyRenderProgress(manager: ConnectionManager, cid: string, renderId: string, progress: real, status: string, now: int)
    returns (sent: set<string>)
    ensures sent == Recipients(manager.rooms, cid, None)
  {
    sent := manager.BroadcastRenderProgress(cid, RenderData(renderId, progress, status), now);
  }
}
