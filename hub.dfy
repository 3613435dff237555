/**
 * The in-memory pub-sub hub (`ConnectionManager`): live connections, one
 * session per connection, and rooms mapping a name to the ids of their
 * members. A room exists only while it has members, and a connection is in
 * a room exactly when the room is listed in that connection's session.
 *
 * The transport is not modelled: a send either succeeds, which is recorded
 * as a `Delivery` in `outbox`, or fails, which the caller announces through
 * the `failing` set (the connections whose transport will raise). Timestamps
 * are left out.
 */
module Hub {
  import opened Wrappers
  import opened JsMap

  type ConnId = string
  type Room = string

  /** The per-connection record: the rooms it joined and its activity counters. */
  datatype Session = Session(rooms: set<Room>, messagesReceived: nat, messagesSent: nat)

  datatype ConnectionEvent = UserConnected | UserDisconnected | UserJoinedRoom | UserLeftRoom

  /** What the hub sends: its own connection updates, or a caller's payload. */
  datatype Message =
    | ConnectionUpdate(event: ConnectionEvent, subject: ConnId, room: Option<Room>, totalConnections: Option<nat>)
    | Payload(text: string)

  datatype Delivery = Delivery(to: ConnId, message: Message)

  /** The three dictionaries of the hub. */
  datatype HubState = HubState(connections: set<ConnId>, sessions: map<ConnId, Session>, rooms: map<Room, set<ConnId>>)

  /** Counts reported by `get_stats`. */
  datatype Stats = Stats(
    totalConnections: nat,
    totalSessions: nat,
    totalRooms: nat,
    activeConnectionIds: set<ConnId>,
    connectionsPerRoom: map<Room, nat>,
    messagesSent: map<ConnId, nat>)

  const NewSession := Session({}, 0, 0)

  /** Sessions and connections agree, rooms are non-empty, and membership is symmetric. */
  ghost predicate Inv(h: HubState) {
    && h.sessions.Keys == h.connections
    && (forall r <- h.rooms :: h.rooms[r] != {})
    && (forall r <- h.rooms, c <- h.rooms[r] :: c in h.sessions && r in h.sessions[c].rooms)
    && (forall c <- h.sessions, r <- h.sessions[c].rooms :: r in h.rooms && c in h.rooms[r])
  }

  const EmptyHub := HubState({}, map[], map[])

  /** Removes the connections in `gone` from the hub; rooms left empty disappear. */
  function Drop(h: HubState, gone: set<ConnId>): HubState {
    HubState(
      h.connections - gone,
      map c | c in h.sessions && c !in gone :: h.sessions[c],
      map r | r in h.rooms && h.rooms[r] - gone != {} :: h.rooms[r] - gone)
  }

  /** Counts one successful send for each session in `ok`. */
  function Bump(h: HubState, ok: set<ConnId>): HubState {
    HubState(
      h.connections,
      map c | c in h.sessions :: if c in ok then h.sessions[c].(messagesSent := h.sessions[c].messagesSent + 1) else h.sessions[c],
      h.rooms)
  }

  /** The state after sending one message to `targets`, of which those in `failing` fail and are disconnected. */
  function Deliver(h: HubState, targets: set<ConnId>, failing: set<ConnId>): HubState {
    Drop(Bump(h, targets - failing), targets * failing)
  }

  /** `disconnect`: a no-op for an unknown id, otherwise the connection leaves every room and is forgotten. */
  function Disconnected(h: HubState, id: ConnId): (r: HubState)
    requires Inv(h)
    ensures Inv(r)
    ensures id !in r.connections && id !in r.sessions
    ensures forall room <- r.rooms :: id !in r.rooms[room]
    ensures id in h.connections ==> forall room <- h.rooms :: (room !in r.rooms <==> h.rooms[room] == {id})
    ensures id !in h.connections ==> r == h
    ensures r.connections == h.connections - {id}
    ensures r.rooms.Keys <= h.rooms.Keys
    ensures forall room <- r.rooms :: r.rooms[room] == h.rooms[room] - {id}
    ensures forall c <- h.sessions | c != id :: c in r.sessions && r.sessions[c] == h.sessions[c]
  {
    if id !in h.connections then h else Drop(h, {id})
  }

  /**
   * `disconnect` as the source writes it, on any state: the id is taken out
   * of each room its session lists that still holds it, a room left empty is
   * deleted, and then the session and the connection are forgotten.
   */
  function DisconnectAsWritten(h: HubState, id: ConnId): HubState {
    if id !in h.connections then h
    else if id !in h.sessions then HubState(h.connections - {id}, h.sessions, h.rooms)
    else
      var listed := h.sessions[id].rooms;
      HubState(
        h.connections - {id},
        h.sessions - {id},
        map r | r in h.rooms && !(r in listed && h.rooms[r] == {id}) ::
          if r in listed then h.rooms[r] - {id} else h.rooms[r])
  }

  /** On a consistent hub the source's `disconnect` is `Disconnected`. */
  lemma {:induction false} DisconnectAsWrittenAgrees(h: HubState, id: ConnId)
    requires Inv(h)
    ensures DisconnectAsWritten(h, id) == Disconnected(h, id)
  {
    if id in h.connections {
      var a := DisconnectAsWritten(h, id);
      var b := Disconnected(h, id);
      forall r <- h.rooms
        ensures (r in h.sessions[id].rooms && h.rooms[r] == {id}) <==> h.rooms[r] - {id} == {}
        ensures r !in h.sessions[id].rooms ==> h.rooms[r] - {id} == h.rooms[r]
      {
        if h.rooms[r] - {id} == {} {
          var c :| c in h.rooms[r];
          assert c == id;
        }
      }
      assert a.rooms == b.rooms;
      assert a.sessions == b.sessions;
    }
  }

  /**
   * `connect` as the source writes it: the session is replaced by a fresh one
   * with no rooms, but the rooms that already listed the id keep it.
   */
  function ConnectAsWritten(h: HubState, id: ConnId): HubState {
    HubState(h.connections + {id}, h.sessions[id := NewSession], h.rooms)
  }

  /**
   * `connect` with the stale registration of a reused id dropped first: the
   * connection is registered with a fresh session that is in no room.
   */
  function Connected(h: HubState, id: ConnId): (r: HubState)
    requires Inv(h)
    ensures Inv(r)
    ensures r.connections == h.connections + {id}
    ensures r.sessions[id] == NewSession
    ensures forall room <- r.rooms :: id !in r.rooms[room]
    ensures id !in h.connections ==> r.rooms == h.rooms
  {
    var base := Drop(h, {id});
    DropInv(h, {id});
    DropAbsent(h, id);
    HubState(base.connections + {id}, base.sessions[id := NewSession], base.rooms)
  }

  /** Registering keeps every other session and only takes the id out of the rooms. */
  lemma ConnectedParts(h: HubState, id: ConnId)
    requires Inv(h)
    ensures Connected(h, id) == HubState(h.connections + {id}, h.sessions[id := NewSession], Drop(h, {id}).rooms)
  {
    var base := Drop(h, {id});
    assert base.sessions[id := NewSession] == h.sessions[id := NewSession];
  }

  /** `join_room`: whether the id was newly added, and the new state. */
  function Join(h: HubState, id: ConnId, room: Room): (r: (bool, HubState))
    requires Inv(h)
    ensures Inv(r.1)
    ensures id !in h.connections ==> r == (false, h)
    ensures id in h.connections ==> r.0 == !(room in h.rooms && id in h.rooms[room])
    ensures id in h.connections ==> room in r.1.rooms && id in r.1.rooms[room] && room in r.1.sessions[id].rooms
    ensures id in h.connections ==> r.1.rooms[room] == (if room in h.rooms then h.rooms[room] else {}) + {id}
    ensures id in h.connections ==> r.1.sessions[id] == h.sessions[id].(rooms := h.sessions[id].rooms + {room})
    ensures r.1.connections == h.connections
    ensures r.1.rooms.Keys <= h.rooms.Keys + {room}
    ensures forall rm <- h.rooms | rm != room :: rm in r.1.rooms && r.1.rooms[rm] == h.rooms[rm]
    ensures forall c <- h.sessions | c != id :: c in r.1.sessions && r.1.sessions[c] == h.sessions[c]
  {
    if id !in h.connections then (false, h)
    else
      var members := if room in h.rooms then h.rooms[room] else {};
      var s := h.sessions[id];
      (id !in members,
       HubState(h.connections, h.sessions[id := s.(rooms := s.rooms + {room})], h.rooms[room := members + {id}]))
  }

  /** `leave_room`: whether the id was a member, and the new state. */
  function Leave(h: HubState, id: ConnId, room: Room): (r: (bool, HubState))
    requires Inv(h)
    ensures Inv(r.1)
    ensures r.0 == (room in h.rooms && id in h.rooms[room])
    ensures room in r.1.rooms ==> id !in r.1.rooms[room]
    ensures r.0 ==> (room !in r.1.rooms <==> h.rooms[room] == {id})
    ensures !r.0 ==> r.1 == h
    ensures r.0 ==> id in h.sessions && id in r.1.sessions && r.1.sessions[id] == h.sessions[id].(rooms := h.sessions[id].rooms - {room})
    ensures r.1.connections == h.connections
    ensures r.1.rooms.Keys <= h.rooms.Keys
    ensures room in r.1.rooms ==> r.1.rooms[room] == h.rooms[room] - {id}
    ensures forall rm <- h.rooms | rm != room :: rm in r.1.rooms && r.1.rooms[rm] == h.rooms[rm]
    ensures forall c <- h.sessions | c != id :: c in r.1.sessions && r.1.sessions[c] == h.sessions[c]
  {
    if room in h.rooms && id in h.rooms[room] then
      var rest := h.rooms[room] - {id};
      var s := h.sessions[id];
      LeaveSymmetric(h, id, room);
      (true,
       HubState(h.connections,
                h.sessions[id := s.(rooms := s.rooms - {room})],
                if rest == {} then h.rooms - {room} else h.rooms[room := rest]))
    else
      (false, h)
  }

  /** A session other than the leaving one that lists the room is among the room's remaining members. */
  lemma {:induction false} LeaveSymmetric(h: HubState, id: ConnId, room: Room)
    requires Inv(h) && room in h.rooms && id in h.rooms[room]
    ensures forall c <- h.sessions | c != id && room in h.sessions[c].rooms :: c in h.rooms[room] - {id}
  {
  }

  /** Every other member of a room a connection leaves is still in the room afterwards. */
  lemma {:induction false} LeaveKeepsOthers(h: HubState, id: ConnId, room: Room)
    requires Inv(h) && room in h.rooms
    ensures var after := Leave(h, id, room).1;
            forall c <- h.rooms[room] | c != id :: room in after.rooms && c in after.rooms[room]
  {
    var after := Leave(h, id, room).1;
    forall c <- h.rooms[room] | c != id
      ensures room in after.rooms && c in after.rooms[room]
    {
      if id in h.rooms[room] {
        assert c in h.rooms[room] - {id};
      }
    }
  }

  /** The connections `broadcast_to_room` sends to. */
  function RoomTargets(h: HubState, room: Room, exclude: Option<ConnId>): (t: set<ConnId>)
    requires Inv(h)
    ensures room !in h.rooms ==> t == {}
    ensures forall c :: c in t <==> room in h.rooms && c in h.rooms[room] && exclude != Some(c)
  {
    if room !in h.rooms then {}
    else set c | c in h.rooms[room] && exclude != Some(c) && c in h.connections
  }

  /** The connections `broadcast_to_all` sends to. */
  function AllTargets(h: HubState, exclude: Option<ConnId>): (t: set<ConnId>)
    ensures forall c :: c in t <==> c in h.connections && exclude != Some(c)
  {
    set c | c in h.connections && exclude != Some(c)
  }

  /** `get_stats`. */
  function StatsOf(h: HubState): (s: Stats)
    requires Inv(h)
    ensures s.totalConnections == s.totalSessions == |h.connections|
    ensures s.totalRooms == |h.rooms|
    ensures s.activeConnectionIds == h.connections
    ensures forall r <- h.rooms :: r in s.connectionsPerRoom && s.connectionsPerRoom[r] == |h.rooms[r]| > 0
    ensures s.connectionsPerRoom.Keys == h.rooms.Keys
    ensures s.messagesSent.Keys == h.connections
    ensures forall c <- h.connections :: s.messagesSent[c] == h.sessions[c].messagesSent
  {
    Stats(
      |h.connections|, |h.sessions|, |h.rooms|, h.connections,
      map r | r in h.rooms :: |h.rooms[r]|,
      map c | c in h.sessions :: h.sessions[c].messagesSent)
  }

  // ---------------------------------------------------------------------
  // Properties relating several operations

  /** Reusing a registered id through the source's `connect` breaks membership symmetry. */
  lemma ConnectAsWrittenBreaksSymmetry()
    ensures var h := HubState({"a"}, map["a" := Session({"r"}, 0, 0)], map["r" := {"a"}]);
            Inv(h) && !Inv(ConnectAsWritten(h, "a"))
  {
    var h := HubState({"a"}, map["a" := Session({"r"}, 0, 0)], map["r" := {"a"}]);
    var h' := ConnectAsWritten(h, "a");
    assert "a" in h'.rooms["r"] && "r" !in h'.sessions["a"].rooms;
  }

  /**
   * After the source's reconnect, the source's `disconnect` leaves the id
   * behind in its old room: the room lists a connection that no longer exists.
   */
  lemma ReconnectLeaksRoom()
    ensures var h := ConnectAsWritten(HubState({"a"}, map["a" := Session({"r"}, 0, 0)], map["r" := {"a"}]), "a");
            var h' := DisconnectAsWritten(h, "a");
            "r" in h'.rooms && "a" in h'.rooms["r"] && "a" !in h'.connections && !Inv(h')
  {
    var h := ConnectAsWritten(HubState({"a"}, map["a" := Session({"r"}, 0, 0)], map["r" := {"a"}]), "a");
    assert h.sessions["a"].rooms == {};
    var h' := DisconnectAsWritten(h, "a");
    assert "r" in h'.rooms && h'.rooms["r"] == {"a"};
  }

  /** Joining twice reports a change only the first time. */
  lemma {:induction false} JoinTwice(h: HubState, id: ConnId, room: Room)
    requires Inv(h) && id in h.connections && !(room in h.rooms && id in h.rooms[room])
    ensures Join(h, id, room).0
    ensures !Join(Join(h, id, room).1, id, room).0
    ensures Join(Join(h, id, room).1, id, room).1 == Join(h, id, room).1
  {
    var h1 := Join(h, id, room).1;
    var s := h1.sessions[id];
    assert s.rooms + {room} == s.rooms;
    assert h1.rooms[room] + {id} == h1.rooms[room];
  }

  /** Leaving after joining restores the room table. */
  lemma {:induction false} JoinThenLeave(h: HubState, id: ConnId, room: Room)
    requires Inv(h) && id in h.connections && !(room in h.rooms && id in h.rooms[room])
    ensures var h1 := Join(h, id, room).1;
            Leave(h1, id, room).0 && Leave(h1, id, room).1.rooms == h.rooms
  {
    var members := if room in h.rooms then h.rooms[room] else {};
    assert members + {id} - {id} == members;
  }

  /** `disconnect` is idempotent. */
  lemma {:induction false} DisconnectIdempotent(h: HubState, id: ConnId)
    requires Inv(h)
    ensures Disconnected(Disconnected(h, id), id) == Disconnected(h, id)
  {
  }

  // ---------------------------------------------------------------------
  // Lemmas used by the class below

  lemma {:induction false} DropInv(h: HubState, gone: set<ConnId>)
    requires Inv(h)
    ensures Inv(Drop(h, gone))
  {
    var d := Drop(h, gone);
    forall c <- d.sessions, r <- d.sessions[c].rooms
      ensures r in d.rooms && c in d.rooms[r]
    {
      assert c in h.rooms[r] - gone;
    }
  }

  /** Dropping a connection that is not registered changes nothing. */
  lemma {:induction false} DropAbsent(h: HubState, id: ConnId)
    requires Inv(h)
    ensures id !in h.connections ==> Drop(h, {id}) == h
  {
    if id in h.connections {
      return;
    }
    var d := Drop(h, {id});
    forall r <- h.rooms
      ensures h.rooms[r] - {id} == h.rooms[r]
    {
    }
    assert d.rooms == h.rooms;
    assert d.sessions == h.sessions;
  }

  /** The deliveries of one message to `order`, in that order. */
  function Sends(order: seq<ConnId>, message: Message): (d: seq<Delivery>)
    ensures |d| == |order|
    ensures forall i | 0 <= i < |d| :: d[i] == Delivery(order[i], message)
  {
    if order == [] then [] else [Delivery(order[0], message)] + Sends(order[1..], message)
  }

  lemma {:induction false} SendsAppend(order: seq<ConnId>, t: ConnId, message: Message)
    ensures Sends(order + [t], message) == Sends(order, message) + [Delivery(t, message)]
  {
    var a := Sends(order + [t], message);
    var b := Sends(order, message) + [Delivery(t, message)];
    assert |a| == |b|;
    forall i | 0 <= i < |a|
      ensures a[i] == b[i]
    {
    }
  }

  /**
   * The `user_disconnected` notices `disconnect` schedules when the
   * connections in `gone` drop out one after another, starting from `before`
   * connections: each carries the count left after its own removal.
   */
  function DisconnectNotices(gone: seq<ConnId>, before: nat): (d: seq<Message>)
    requires |gone| <= before
    ensures |d| == |gone|
    ensures forall i | 0 <= i < |d| :: d[i] == ConnectionUpdate(UserDisconnected, gone[i], None, Some(before - 1 - i))
  {
    if gone == [] then []
    else [ConnectionUpdate(UserDisconnected, gone[0], None, Some(before - 1))] + DisconnectNotices(gone[1..], before - 1)
  }

  lemma {:induction false} DisconnectNoticesAppend(gone: seq<ConnId>, before: nat, t: ConnId)
    requires |gone| < before
    ensures DisconnectNotices(gone + [t], before)
         == DisconnectNotices(gone, before) + [ConnectionUpdate(UserDisconnected, t, None, Some(before - 1 - |gone|))]
  {
    var a := DisconnectNotices(gone + [t], before);
    var b := DisconnectNotices(gone, before) + [ConnectionUpdate(UserDisconnected, t, None, Some(before - 1 - |gone|))];
    assert |a| == |b|;
    forall i | 0 <= i < |a|
      ensures a[i] == b[i]
    {
    }
  }

  /** `xs` lists the elements of `s`, once each. */
  ghost predicate Tallied(xs: seq<ConnId>, s: set<ConnId>) {
    Distinct(xs) && forall c :: c in xs <==> c in s
  }

  lemma TallyStep(xs: seq<ConnId>, s: set<ConnId>, t: ConnId)
    requires Tallied(xs, s) && t !in s
    ensures Tallied(xs + [t], s + {t})
  {
    assert t !in xs;
  }

  lemma Extend<T>(log: seq<T>, base: seq<T>, part: seq<T>, e: T, whole: seq<T>)
    requires log == base + part && whole == part + [e]
    ensures log + [e] == base + whole
  {
  }

  lemma CardRemove(s: set<ConnId>, t: ConnId)
    requires t in s
    ensures |s - {t}| == |s| - 1
  {
    assert (s - {t}) + {t} == s;
  }

  lemma {:induction false} BumpInv(h: HubState, ok: set<ConnId>)
    requires Inv(h)
    ensures Inv(Bump(h, ok))
  {
    var b := Bump(h, ok);
    forall c <- b.sessions
      ensures b.sessions[c].rooms == h.sessions[c].rooms
    {
    }
  }

  /** Leaving every room and then forgetting the session is `disconnect`. */
  lemma {:induction false} DropOne(h: HubState, id: ConnId)
    requires Inv(h) && id in h.connections
    ensures HubState(h.connections - {id}, h.sessions - {id}, Drop(h, {id}).rooms) == Disconnected(h, id)
  {
    var d := Drop(h, {id});
    assert d.sessions == h.sessions - {id};
  }

  /** Counting one send on a single session is `Bump` of that session. */
  lemma {:induction false} BumpOne(h: HubState, id: ConnId)
    ensures HubState(h.connections,
                     if id in h.sessions then h.sessions[id := h.sessions[id].(messagesSent := h.sessions[id].messagesSent + 1)] else h.sessions,
                     h.rooms) == Bump(h, {id})
  {
    var b := Bump(h, {id});
    if id in h.sessions {
      assert b.sessions == h.sessions[id := h.sessions[id].(messagesSent := h.sessions[id].messagesSent + 1)];
    } else {
      assert b.sessions == h.sessions;
    }
  }

  /** Sending to one connection, as `send_message` does. */
  lemma {:induction false} DeliverSingle(h: HubState, id: ConnId)
    requires Inv(h)
    ensures id in h.connections ==> Deliver(h, {id}, {id}) == Disconnected(h, id)
    ensures Deliver(h, {id}, {}) == Bump(h, {id})
  {
    assert {id} - {id} == {} && {id} * {id} == {id} && {id} - {} == {id} && {id} * {} == {};
    var b0 := Bump(h, {});
    assert b0.sessions == h.sessions;
    var b1 := Bump(h, {id});
    BumpInv(h, {id});
    var d := Drop(b1, {});
    forall r <- b1.rooms
      ensures b1.rooms[r] - {} == b1.rooms[r]
    {
    }
    assert d.rooms == b1.rooms;
    assert d.sessions == b1.sessions;
  }

  lemma {:induction false} DeliverInv(h: HubState, targets: set<ConnId>, failing: set<ConnId>)
    requires Inv(h)
    ensures Inv(Deliver(h, targets, failing))
  {
    BumpInv(h, targets - failing);
    DropInv(Bump(h, targets - failing), targets * failing);
  }

  lemma {:induction false} DeliverFail(h: HubState, done: set<ConnId>, failing: set<ConnId>, t: ConnId)
    requires t in failing && t !in done
    ensures Drop(Deliver(h, done, failing), {t}) == Deliver(h, done + {t}, failing)
  {
    var a := Drop(Deliver(h, done, failing), {t});
    var b := Deliver(h, done + {t}, failing);
    assert (done + {t}) - failing == done - failing;
    assert (done + {t}) * failing == done * failing + {t};
    assert a.sessions == b.sessions;
    forall r <- h.rooms
      ensures h.rooms[r] - done * failing - {t} == h.rooms[r] - (done * failing + {t})
    {
    }
    assert a.rooms == b.rooms;
  }

  lemma {:induction false} DeliverOk(h: HubState, done: set<ConnId>, failing: set<ConnId>, t: ConnId)
    requires t !in failing && t !in done
    ensures var d := Deliver(h, done, failing);
            Bump(d, {t}) == Deliver(h, done + {t}, failing)
  {
    var a := Bump(Deliver(h, done, failing), {t});
    var b := Deliver(h, done + {t}, failing);
    assert (done + {t}) * failing == done * failing;
    assert (done + {t}) - failing == (done - failing) + {t};
    assert a.sessions == b.sessions;
  }

  lemma {:induction false} DeliverNothing(h: HubState, failing: set<ConnId>)
    requires Inv(h)
    ensures Deliver(h, {}, failing) == h
  {
    var d := Deliver(h, {}, failing);
    assert {} - failing == {} && {} * failing == {};
    assert d.sessions == h.sessions;
    forall r <- h.rooms
      ensures h.rooms[r] - {} == h.rooms[r]
    {
    }
    assert d.rooms == h.rooms;
  }

  /** Taking a connection out of the rooms in `done` only. */
  function RemoveFrom(rooms: map<Room, set<ConnId>>, id: ConnId, done: set<Room>): map<Room, set<ConnId>> {
    map r | r in rooms && (r in done ==> rooms[r] - {id} != {}) :: if r in done then rooms[r] - {id} else rooms[r]
  }

  lemma {:induction false} RemoveFromAll(h: HubState, id: ConnId)
    requires Inv(h) && id in h.sessions
    ensures RemoveFrom(h.rooms, id, h.sessions[id].rooms) == Drop(h, {id}).rooms
  {
    var a := RemoveFrom(h.rooms, id, h.sessions[id].rooms);
    var b := Drop(h, {id}).rooms;
    forall r | r in h.rooms && r !in h.sessions[id].rooms
      ensures h.rooms[r] - {id} == h.rooms[r]
    {
    }
    assert a.Keys == b.Keys;
  }

  /**
   * The bookkeeping of a fan-out over `done`, starting from the connections
   * `conns0`: the failing visited ones are gone, `order` lists the ones that
   * received the message and `dropped` the live ones that failed, each with
   * its `user_disconnected` notice scheduled.
   */
  ghost predicate FannedOut(conns: set<ConnId>, outbox: seq<Delivery>, scheduled: seq<Message>,
                            conns0: set<ConnId>, out0: seq<Delivery>, sched0: seq<Message>, message: Message, failing: set<ConnId>,
                            done: set<ConnId>, order: seq<ConnId>, dropped: seq<ConnId>)
  {
    && conns == conns0 - done * failing
    && Tallied(order, done - failing) && outbox == out0 + Sends(order, message)
    && Tallied(dropped, done * failing * conns0)
    && |conns| + |dropped| == |conns0|
    && scheduled == sched0 + DisconnectNotices(dropped, |conns0|)
  }

  lemma FanOutStart(conns0: set<ConnId>, out0: seq<Delivery>, sched0: seq<Message>, message: Message, failing: set<ConnId>)
    ensures FannedOut(conns0, out0, sched0, conns0, out0, sched0, message, failing, {}, [], [])
  {
    assert conns0 - {} * failing == conns0;
  }

  /** Once every target is visited, the bookkeeping gives what `Fanout` promises. */
  lemma FanOutEnd(conns: set<ConnId>, outbox: seq<Delivery>, scheduled: seq<Message>,
                  conns0: set<ConnId>, out0: seq<Delivery>, sched0: seq<Message>, message: Message, failing: set<ConnId>,
                  targets: set<ConnId>, order: seq<ConnId>, dropped: seq<ConnId>)
    requires FannedOut(conns, outbox, scheduled, conns0, out0, sched0, message, failing, targets, order, dropped)
    ensures Tallied(order, targets - failing) && outbox == out0 + Sends(order, message)
    ensures Tallied(dropped, targets * failing * conns0)
    ensures |dropped| <= |conns0| && scheduled == sched0 + DisconnectNotices(dropped, |conns0|)
    ensures targets * failing == {} ==> scheduled == sched0
  {
  }

  /** Moving one element from the targets still to visit to those visited. */
  lemma MoveOne(todo: set<ConnId>, done: set<ConnId>, t: ConnId)
    requires t in todo && todo !! done
    ensures t !in done && todo - {t} < todo
    ensures (todo - {t}) !! (done + {t}) && (todo - {t}) + (done + {t}) == todo + done
  {
  }

  /** Sending to a target that does not fail delivers the message and records it in `order`. */
  lemma FanOutOk(conns: set<ConnId>, outbox: seq<Delivery>, scheduled: seq<Message>,
                 conns0: set<ConnId>, out0: seq<Delivery>, sched0: seq<Message>, message: Message, failing: set<ConnId>,
                 done: set<ConnId>, order: seq<ConnId>, dropped: seq<ConnId>, t: ConnId)
    requires FannedOut(conns, outbox, scheduled, conns0, out0, sched0, message, failing, done, order, dropped)
    requires t !in done && t !in failing
    ensures FannedOut(conns, outbox + [Delivery(t, message)], scheduled, conns0, out0, sched0, message, failing, done + {t}, order + [t], dropped)
  {
    TallyStep(order, done - failing, t);
    assert (done + {t}) - failing == (done - failing) + {t};
    assert (done + {t}) * failing == done * failing;
    SendsAppend(order, t, message);
    Extend(outbox, out0, Sends(order, message), Delivery(t, message), Sends(order + [t], message));
  }

  /** A failing target that is still connected is dropped and its disconnection announced. */
  lemma FanOutDrop(conns: set<ConnId>, outbox: seq<Delivery>, scheduled: seq<Message>,
                   conns0: set<ConnId>, out0: seq<Delivery>, sched0: seq<Message>, message: Message, failing: set<ConnId>,
                   done: set<ConnId>, order: seq<ConnId>, dropped: seq<ConnId>, t: ConnId)
    requires FannedOut(conns, outbox, scheduled, conns0, out0, sched0, message, failing, done, order, dropped)
    requires t !in done && t in failing && t in conns
    ensures FannedOut(conns - {t}, outbox, scheduled + [ConnectionUpdate(UserDisconnected, t, None, Some(|conns - {t}|))],
                      conns0, out0, sched0, message, failing, done + {t}, order, dropped + [t])
  {
    var n0 := |conns0|;
    TallyStep(dropped, done * failing * conns0, t);
    assert (done + {t}) - failing == done - failing;
    assert (done + {t}) * failing * conns0 == done * failing * conns0 + {t};
    assert conns - {t} == conns0 - (done + {t}) * failing;
    CardRemove(conns, t);
    DisconnectNoticesAppend(dropped, n0, t);
    Extend(scheduled, sched0, DisconnectNotices(dropped, n0),
           ConnectionUpdate(UserDisconnected, t, None, Some(|conns - {t}|)), DisconnectNotices(dropped + [t], n0));
  }

  /** A failing target that an earlier send already dropped changes nothing. */
  lemma FanOutGone(conns: set<ConnId>, outbox: seq<Delivery>, scheduled: seq<Message>,
                   conns0: set<ConnId>, out0: seq<Delivery>, sched0: seq<Message>, message: Message, failing: set<ConnId>,
                   done: set<ConnId>, order: seq<ConnId>, dropped: seq<ConnId>, t: ConnId)
    requires FannedOut(conns, outbox, scheduled, conns0, out0, sched0, message, failing, done, order, dropped)
    requires t !in done && t in failing && t !in conns
    ensures FannedOut(conns, outbox, scheduled, conns0, out0, sched0, message, failing, done + {t}, order, dropped)
  {
    assert (done + {t}) - failing == done - failing;
    assert (done + {t}) * failing * conns0 == done * failing * conns0;
    assert conns == conns0 - (done + {t}) * failing;
  }

  /** The hub as a mutable object: the three dictionaries plus what it has sent. */
  class ConnectionManager {
    var connections: set<ConnId>
    var sessions: map<ConnId, Session>
    var rooms: map<Room, set<ConnId>>
    /** Every message handed to a transport that accepted it, in order. */
    var outbox: seq<Delivery>
    /** `user_disconnected` announcements handed to the event loop as separate tasks. */
    var scheduled: seq<Message>

    function State(): HubState
      reads this
    {
      HubState(connections, sessions, rooms)
    }

    ghost predicate Valid()
      reads this
    {
      Inv(State())
    }

    constructor ()
      ensures Valid() && State() == EmptyHub && outbox == [] && scheduled == []
    {
      connections, sessions, rooms := {}, map[], map[];
      outbox, scheduled := [], [];
    }

    /** Removes `id` from every room its session lists, deleting rooms that empty. */
    method LeaveAllRooms(id: ConnId)
      requires Valid() && id in sessions
      modifies this
      ensures rooms == Drop(old(State()), {id}).rooms
      ensures connections == old(connections) && sessions == old(sessions)
      ensures outbox == old(outbox) && scheduled == old(scheduled)
    {
      ghost var h0 := State();
      var todo := sessions[id].rooms;
      while todo != {}
        invariant todo <= h0.sessions[id].rooms
        invariant rooms == RemoveFrom(h0.rooms, id, h0.sessions[id].rooms - todo)
        invariant connections == h0.connections && sessions == h0.sessions
        invariant outbox == old(outbox) && scheduled == old(scheduled)
        decreases todo
      {
        var r :| r in todo;
        ghost var done := h0.sessions[id].rooms - todo;
        if r in rooms && id in rooms[r] {
          if rooms[r] - {id} == {} {
            rooms := rooms - {r};
          } else {
            rooms := rooms[r := rooms[r] - {id}];
          }
        }
        todo := todo - {r};
        assert h0.sessions[id].rooms - todo == done + {r};
        assert rooms == RemoveFrom(h0.rooms, id, done + {r});
      }
      RemoveFromAll(h0, id);
    }

    /** `disconnect`. */
    method Disconnect(id: ConnId)
      requires Valid()
      modifies this
      ensures Valid()
      ensures State() == Disconnected(old(State()), id)
      ensures outbox == old(outbox)
      ensures id in old(connections) ==>
        scheduled == old(scheduled) + [ConnectionUpdate(UserDisconnected, id, None, Some(|connections|))]
      ensures id !in old(connections) ==> scheduled == old(scheduled)
    {
      if id !in connections {
        return;
      }
      ghost var h0 := State();
      LeaveAllRooms(id);
      sessions := sessions - {id};
      connections := connections - {id};
      DropOne(h0, id);
      scheduled := scheduled + [ConnectionUpdate(UserDisconnected, id, None, Some(|connections|))];
    }

    /** `_send_message_safe`: a send that `fails` disconnects the connection. */
    method SendSafe(id: ConnId, message: Message, fails: bool)
      requires Valid()
      modifies this
      ensures Valid()
      ensures fails ==> State() == Disconnected(old(State()), id) && outbox == old(outbox)
      ensures !fails ==> State() == Bump(old(State()), {id}) && outbox == old(outbox) + [Delivery(id, message)]
      ensures fails && id in old(connections) ==>
        scheduled == old(scheduled) + [ConnectionUpdate(UserDisconnected, id, None, Some(|connections|))]
      ensures !(fails && id in old(connections)) ==> scheduled == old(scheduled)
    {
      if fails {
        Disconnect(id);
      } else {
        ghost var h0 := State();
        if id in sessions {
          var s := sessions[id];
          sessions := sessions[id := s.(messagesSent := s.messagesSent + 1)];
        }
        outbox := outbox + [Delivery(id, message)];
        BumpOne(h0, id);
        BumpInv(h0, {id});
      }
    }

    /**
     * Sends `message` to every connection in `targets`, in the order `order`
     * (the iteration order of a set, so any order); the failing ones are
     * disconnected and receive nothing.
     */
    method Fanout(targets: set<ConnId>, message: Message, failing: set<ConnId>) returns (ghost order: seq<ConnId>, ghost dropped: seq<ConnId>)
      requires Valid()
      modifies this
      ensures Valid()
      ensures State() == Deliver(old(State()), targets, failing)
      ensures Tallied(order, targets - failing)
      ensures outbox == old(outbox) + Sends(order, message)
      ensures Tallied(dropped, targets * failing * old(connections))
      ensures |dropped| <= |old(connections)| && scheduled == old(scheduled) + DisconnectNotices(dropped, |old(connections)|)
      ensures targets * failing == {} ==> scheduled == old(scheduled)
    {
      ghost var h0, out0, sched0 := State(), outbox, scheduled;
      var todo := targets;
      ghost var done: set<ConnId> := {};
      order, dropped := [], [];
      DeliverNothing(h0, failing);
      FanOutStart(connections, outbox, scheduled, message, failing);
      while todo != {}
        invariant todo !! done && todo + done == targets
        invariant Delivered(h0, failing, done)
        invariant FannedOut(connections, outbox, scheduled, h0.connections, out0, sched0, message, failing, done, order, dropped)
        decreases todo
      {
        todo, done, order, dropped := FanoutNext(h0, out0, sched0, message, failing, todo, done, order, dropped);
      }
      FanOutEnd(connections, outbox, scheduled, h0.connections, out0, sched0, message, failing, targets, order, dropped);
    }

    /** The hub is `h0` with one message delivered to the connections in `done`. */
    ghost predicate Delivered(h0: HubState, failing: set<ConnId>, done: set<ConnId>)
      reads this
    {
      Valid() && State() == Deliver(h0, done, failing)
    }

    /** One iteration of `Fanout`'s loop: a target not yet visited is sent the message. */
    method FanoutNext(ghost h0: HubState, ghost out0: seq<Delivery>, ghost sched0: seq<Message>, message: Message, failing: set<ConnId>,
                      todo: set<ConnId>, ghost done: set<ConnId>, ghost order: seq<ConnId>, ghost dropped: seq<ConnId>)
      returns (todo': set<ConnId>, ghost done': set<ConnId>, ghost order': seq<ConnId>, ghost dropped': seq<ConnId>)
      requires todo != {} && todo !! done && Delivered(h0, failing, done)
      requires FannedOut(connections, outbox, scheduled, h0.connections, out0, sched0, message, failing, done, order, dropped)
      modifies this
      ensures todo' < todo && todo' !! done' && todo' + done' == todo + done && Delivered(h0, failing, done')
      ensures FannedOut(connections, outbox, scheduled, h0.connections, out0, sched0, message, failing, done', order', dropped')
    {
      var t :| t in todo;
      MoveOne(todo, done, t);
      order', dropped' := SendOne(h0, out0, sched0, message, failing, done, order, dropped, t);
      todo', done' := todo - {t}, done + {t};
    }

    /** Sends `message` to `t` and extends the fan-out's bookkeeping by that one target. */
    method SendOne(ghost h0: HubState, ghost out0: seq<Delivery>, ghost sched0: seq<Message>, message: Message, failing: set<ConnId>,
                   ghost done: set<ConnId>, ghost order: seq<ConnId>, ghost dropped: seq<ConnId>, t: ConnId)
      returns (ghost order': seq<ConnId>, ghost dropped': seq<ConnId>)
      requires t !in done && Delivered(h0, failing, done)
      requires FannedOut(connections, outbox, scheduled, h0.connections, out0, sched0, message, failing, done, order, dropped)
      modifies this
      ensures Delivered(h0, failing, done + {t})
      ensures FannedOut(connections, outbox, scheduled, h0.connections, out0, sched0, message, failing, done + {t}, order', dropped')
    {
      ghost var conns0 := h0.connections;
      if t !in failing {
        FanOutOk(connections, outbox, scheduled, conns0, out0, sched0, message, failing, done, order, dropped, t);
        SendStep(h0, done, failing, t, message, false);
        order', dropped' := order + [t], dropped;
      } else if t in connections {
        FanOutDrop(connections, outbox, scheduled, conns0, out0, sched0, message, failing, done, order, dropped, t);
        SendStep(h0, done, failing, t, message, true);
        order', dropped' := order, dropped + [t];
      } else {
        FanOutGone(connections, outbox, scheduled, conns0, out0, sched0, message, failing, done, order, dropped, t);
        SendStep(h0, done, failing, t, message, true);
        order', dropped' := order, dropped;
      }
    }

    /** The send to `t` within a fan-out, relating the state to `Deliver`. */
    method SendStep(ghost h0: HubState, ghost done: set<ConnId>, ghost failing: set<ConnId>, t: ConnId, message: Message, fails: bool)
      requires Delivered(h0, failing, done) && t !in done && fails == (t in failing)
      modifies this
      ensures Delivered(h0, failing, done + {t})
      ensures fails ==> outbox == old(outbox)
      ensures !fails ==> outbox == old(outbox) + [Delivery(t, message)]
      ensures fails && t in old(connections) ==> connections == old(connections) - {t}
      ensures fails && t in old(connections) ==>
        scheduled == old(scheduled) + [ConnectionUpdate(UserDisconnected, t, None, Some(|connections|))]
      ensures !(fails && t in old(connections)) ==> connections == old(connections) && scheduled == old(scheduled)
    {
      SendSafe(t, message, fails);
      if fails {
        DeliverFail(h0, done, failing, t);
        DropAbsent(old(State()), t);
      } else {
        DeliverOk(h0, done, failing, t);
      }
    }

    /** `broadcast_to_room`: a missing room sends nothing. */
    method BroadcastToRoom(room: Room, message: Message, exclude: Option<ConnId>, failing: set<ConnId>)
      returns (ghost order: seq<ConnId>, ghost dropped: seq<ConnId>)
      requires Valid()
      modifies this
      ensures Valid()
      ensures var targets := RoomTargets(old(State()), room, exclude);
              && State() == Deliver(old(State()), targets, failing)
              && Distinct(order) && (forall c :: c in order <==> c in targets - failing)
              && outbox == old(outbox) + Sends(order, message)
              && Distinct(dropped) && (forall c :: c in dropped <==> c in targets * failing)
              && |dropped| <= |old(connections)| && scheduled == old(scheduled) + DisconnectNotices(dropped, |old(connections)|)
    {
      var targets := RoomTargets(State(), room, exclude);
      order, dropped := Fanout(targets, message, failing);
    }

    /** `broadcast_to_all`. */
    method BroadcastToAll(message: Message, exclude: Option<ConnId>, failing: set<ConnId>)
      returns (ghost order: seq<ConnId>, ghost dropped: seq<ConnId>)
      requires Valid()
      modifies this
      ensures Valid()
      ensures var targets := AllTargets(old(State()), exclude);
              && State() == Deliver(old(State()), targets, failing)
              && Distinct(order) && (forall c :: c in order <==> c in targets - failing)
              && outbox == old(outbox) + Sends(order, message)
              && Distinct(dropped) && (forall c :: c in dropped <==> c in targets * failing)
              && |dropped| <= |old(connections)| && scheduled == old(scheduled) + DisconnectNotices(dropped, |old(connections)|)
    {
      var targets := AllTargets(State(), exclude);
      order, dropped := Fanout(targets, message, failing);
    }

    /** `send_message`: false for an unknown connection. */
    method SendMessage(id: ConnId, text: string, fails: bool) returns (known: bool)
      requires Valid()
      modifies this
      ensures Valid()
      ensures known == (id in old(connections))
      ensures !known ==> State() == old(State()) && outbox == old(outbox)
      ensures known ==> State() == Deliver(old(State()), {id}, if fails then {id} else {})
      ensures known && !fails ==> outbox == old(outbox) + [Delivery(id, Payload(text))]
      ensures known && fails ==> outbox == old(outbox)
      ensures known && fails ==> scheduled == old(scheduled) + [ConnectionUpdate(UserDisconnected, id, None, Some(|connections|))]
      ensures !(known && fails) ==> scheduled == old(scheduled)
    {
      known := id in connections;
      if !known {
        return;
      }
      DeliverSingle(State(), id);
      SendSafe(id, Payload(text), fails);
    }

    /**
     * `connect`: registers the id (the caller's, unless absent or empty) with a
     * fresh session and announces it to every other connection.
     */
    method Connect(clientId: Option<ConnId>, generated: ConnId, failing: set<ConnId>)
      returns (id: ConnId, ghost order: seq<ConnId>, ghost dropped: seq<ConnId>)
      requires Valid()
      modifies this
      ensures Valid()
      ensures id == if clientId.Some? && clientId.value != "" then clientId.value else generated
      ensures var registered := Connected(old(State()), id);
              && State() == Deliver(registered, AllTargets(registered, Some(id)), failing)
              && Distinct(order) && (forall c :: c in order <==> c in AllTargets(registered, Some(id)) - failing)
              && outbox == old(outbox) + Sends(order, ConnectionUpdate(UserConnected, id, None, Some(|registered.connections|)))
              && Distinct(dropped) && (forall c :: c in dropped <==> c in AllTargets(registered, Some(id)) * failing)
              && |dropped| <= |registered.connections|
              && scheduled == old(scheduled) + DisconnectNotices(dropped, |registered.connections|)
    {
      id := if clientId.Some? && clientId.value != "" then clientId.value else generated;
      ghost var h0 := State();
      ConnectedParts(h0, id);
      if id in sessions {
        LeaveAllRooms(id);
      } else {
        DropAbsent(h0, id);
      }
      sessions := sessions[id := NewSession];
      connections := connections + {id};
      assert State() == Connected(h0, id);
      order, dropped := BroadcastToAll(ConnectionUpdate(UserConnected, id, None, Some(|connections|)), Some(id), failing);
    }

    /** `join_room`: true iff the id was newly added; the other members hear of it. */
    method JoinRoom(id: ConnId, room: Room, failing: set<ConnId>)
      returns (added: bool, ghost order: seq<ConnId>, ghost dropped: seq<ConnId>)
      requires Valid()
      modifies this
      ensures Valid()
      ensures added == Join(old(State()), id, room).0
      ensures var joined := Join(old(State()), id, room).1;
              if added then
                && State() == Deliver(joined, RoomTargets(joined, room, Some(id)), failing)
                && Distinct(order) && (forall c :: c in order <==> c in RoomTargets(joined, room, Some(id)) - failing)
                && outbox == old(outbox) + Sends(order, ConnectionUpdate(UserJoinedRoom, id, Some(room), None))
                && Distinct(dropped) && (forall c :: c in dropped <==> c in RoomTargets(joined, room, Some(id)) * failing)
                && |dropped| <= |old(connections)| && scheduled == old(scheduled) + DisconnectNotices(dropped, |old(connections)|)
              else State() == joined && outbox == old(outbox) && scheduled == old(scheduled)
    {
      order, dropped := [], [];
      if id !in connections {
        return false, order, dropped;
      }
      var members := if room in rooms then rooms[room] else {};
      added := id !in members;
      rooms := rooms[room := members + {id}];
      var s := sessions[id];
      sessions := sessions[id := s.(rooms := s.rooms + {room})];
      assert State() == Join(old(State()), id, room).1;
      if added {
        order, dropped := BroadcastToRoom(room, ConnectionUpdate(UserJoinedRoom, id, Some(room), None), Some(id), failing);
      }
    }

    /** `leave_room`: true iff the id was a member; the remaining members hear of it. */
    method LeaveRoom(id: ConnId, room: Room, failing: set<ConnId>)
      returns (removed: bool, ghost order: seq<ConnId>, ghost dropped: seq<ConnId>)
      requires Valid()
      modifies this
      ensures Valid()
      ensures removed == Leave(old(State()), id, room).0
      ensures var left := Leave(old(State()), id, room).1;
              if removed then
                && State() == Deliver(left, RoomTargets(left, room, Some(id)), failing)
                && Distinct(order) && (forall c :: c in order <==> c in RoomTargets(left, room, Some(id)) - failing)
                && outbox == old(outbox) + Sends(order, ConnectionUpdate(UserLeftRoom, id, Some(room), None))
                && Distinct(dropped) && (forall c :: c in dropped <==> c in RoomTargets(left, room, Some(id)) * failing)
                && |dropped| <= |old(connections)| && scheduled == old(scheduled) + DisconnectNotices(dropped, |old(connections)|)
              else State() == left && outbox == old(outbox) && scheduled == old(scheduled)
    {
      removed := false;
      order, dropped := [], [];
      if room in rooms && id in rooms[room] {
        var rest := rooms[room] - {id};
        removed := true;
        if rest == {} {
          rooms := rooms - {room};
        } else {
          rooms := rooms[room := rest];
        }
      }
      if id in sessions {
        var s := sessions[id];
        sessions := sessions[id := s.(rooms := s.rooms - {room})];
      }
      if !removed {
        assert sessions == old(sessions) by {
          if id in old(sessions) {
            assert room !in old(sessions)[id].rooms;
            assert old(sessions)[id].(rooms := old(sessions)[id].rooms - {room}) == old(sessions)[id];
          }
        }
      }
      assert State() == Leave(old(State()), id, room).1;
      if removed {
        order, dropped := BroadcastToRoom(room, ConnectionUpdate(UserLeftRoom, id, Some(room), None), Some(id), failing);
      }
    }

    /** `get_stats`. */
    function GetStats(): (s: Stats)
      requires Valid()
      reads this
      ensures s == StatsOf(State())
    {
      StatsOf(State())
    }
  }
}
