/**
 * The room relay of the whiteboard server (backend/index.js).
 *
 * The server keeps two pieces of state: the process-wide map from a room to the
 * socket that created it, and the socket.io adapter's room membership. Every
 * socket is also a member of the room named after its own id (socket.io's
 * "personal room"), and room names and socket ids live in the same name space.
 * Emitting is modelled as appending to an outbox: `io.to(x).emit(...)` appends
 * one message addressed to the name `x`; `socket.to(room).emit(...)` appends one
 * message per member of `room` that is not in the room named after the sender's
 * id, addressed to that member's own id. The 100 ms timers of the
 * `disconnecting` handler are a FIFO queue of rooms whose recount is still due.
 */
module Backend {
  import opened Wrappers

  type SocketId = string
  type RoomId = string

  /** What the server emits; the constructor names are the socket.io event names. */
  datatype Event =
    | UserCount(count: nat)
    | SendCurrentCanvas(target: SocketId)
    | CanvasImage(data: string)

  /** One emission: the event and the room name it was addressed to. */
  datatype Message = Message(to: string, event: Event)

  /**
   * The number a creator is told: the room's size, less one if the creator is
   * itself a member. It is the number of members other than the creator, and so
   * never negative.
   */
  function Occupancy(room: set<SocketId>, creator: SocketId): (n: nat)
    ensures n == |room - {creator}|
    ensures n <= |room|
  {
    if creator in room then
      assert room == (room - {creator}) + {creator};
      |room| - 1
    else
      assert room - {creator} == room;
      |room|
  }

  /** The elements of a sequence, as a set. */
  function Elems<T>(s: seq<T>): set<T>
  {
    set x | x in s
  }

  ghost predicate Distinct<T>(s: seq<T>)
  {
    forall i, j | 0 <= i < j < |s| :: s[i] != s[j]
  }

  lemma {:induction false} DistinctElems<T>(s: seq<T>)
    requires Distinct(s)
    ensures |Elems(s)| == |s|
  {
    if s != [] {
      var init := s[..|s| - 1];
      var last := s[|s| - 1];
      assert Distinct(init);
      DistinctElems(init);
      assert last !in Elems(init);
      assert Elems(s) == Elems(init) + {last} by {
        assert s == init + [last];
      }
    }
  }

  /**
   * A room holding its creator and N distinct other sockets has occupancy N,
   * whatever order they joined in.
   */
  lemma {:induction false} OccupancyOfJoiners(creator: SocketId, joiners: seq<SocketId>)
    requires Distinct(joiners)
    requires creator !in joiners
    ensures Occupancy({creator} + Elems(joiners), creator) == |joiners|
  {
    assert ({creator} + Elems(joiners)) - {creator} == Elems(joiners);
    DistinctElems(joiners);
  }

  /**
   * When a non-creator leaves, the occupancy drops by exactly one; when the
   * creator leaves, it does not change, because the creator was never counted.
   */
  lemma OccupancyAfterLeave(room: set<SocketId>, creator: SocketId, leaver: SocketId)
    requires leaver in room
    ensures leaver != creator ==> Occupancy(room - {leaver}, creator) == Occupancy(room, creator) - 1
    ensures leaver == creator ==> Occupancy(room - {leaver}, creator) == Occupancy(room, creator)
  {
    if leaver != creator {
      assert (room - {creator}) == (room - {leaver} - {creator}) + {leaver};
    } else {
      assert room - {leaver} - {creator} == room - {creator};
    }
  }

  /** Joining a room one is already in does not change its occupancy. */
  lemma OccupancyRejoin(room: set<SocketId>, creator: SocketId, s: SocketId)
    requires s in room
    ensures Occupancy(room + {s}, creator) == Occupancy(room, creator)
  {
    assert room + {s} == room;
  }

  /**
   * `recipients` receive `data`, each exactly once, and nobody else receives
   * anything.
   */
  ghost predicate Delivers(sent: seq<Message>, recipients: set<SocketId>, data: string)
  {
    && (forall i | 0 <= i < |sent| :: sent[i].event == CanvasImage(data) && sent[i].to in recipients)
    && (forall x | x in recipients :: exists i | 0 <= i < |sent| :: sent[i].to == x)
    && (forall i, j | 0 <= i < j < |sent| :: sent[i].to != sent[j].to)
  }

  /** The addressees of a sequence of messages, in order. */
  function Addressees(sent: seq<Message>): seq<string>
  {
    seq(|sent|, i requires 0 <= i < |sent| => sent[i].to)
  }

  /** A fan-out reaches exactly as many sockets as it sends messages. */
  lemma DeliversCount(sent: seq<Message>, recipients: set<SocketId>, data: string)
    requires Delivers(sent, recipients, data)
    ensures |sent| == |recipients|
  {
    var tos := Addressees(sent);
    assert |tos| == |sent| && forall i | 0 <= i < |sent| :: tos[i] == sent[i].to;
    assert Distinct(tos);
    DistinctElems(tos);
    assert Elems(tos) == recipients;
  }

  /** Fanning out to one socket is a single message to it. */
  lemma DeliversToOne(sent: seq<Message>, x: SocketId, data: string)
    requires Delivers(sent, {x}, data)
    ensures sent == [Message(x, CanvasImage(data))]
  {
    DeliversCount(sent, {x}, data);
    assert sent[0].to in {x};
  }

  /** Fanning out to nobody sends nothing. */
  lemma DeliversToNobody(sent: seq<Message>, data: string)
    requires Delivers(sent, {}, data)
    ensures sent == []
  {
    DeliversCount(sent, {}, data);
  }

  /** The fan-out of `socket.to(room).emit("canvasImage", data)`. */
  method FanOut(recipients: set<SocketId>, data: string) returns (sent: seq<Message>)
    ensures Delivers(sent, recipients, data)
    ensures |sent| == |recipients|
  {
    var rest := recipients;
    sent := [];
    while rest != {}
      invariant rest <= recipients
      invariant |sent| + |rest| == |recipients|
      invariant forall i | 0 <= i < |sent| ::
        sent[i].event == CanvasImage(data) && sent[i].to in recipients - rest
      invariant forall x | x in recipients - rest :: exists i | 0 <= i < |sent| :: sent[i].to == x
      invariant forall i, j | 0 <= i < j < |sent| :: sent[i].to != sent[j].to
      decreases rest
    {
      var x :| x in rest;
      ghost var before, wasRest := sent, rest;
      sent := sent + [Message(x, CanvasImage(data))];
      rest := rest - {x};
      forall y | y in recipients - rest
        ensures exists i | 0 <= i < |sent| :: sent[i].to == y
      {
        if y == x {
          assert sent[|sent| - 1].to == y;
        } else {
          assert y in recipients - wasRest;
          var i :| 0 <= i < |before| && before[i].to == y;
          assert sent[i].to == y;
        }
      }
    }
    assert recipients - rest == recipients;
  }

  /**
   * The loop of the `disconnecting` handler: every room the socket is in, except
   * the room named after its own id, gets a recount, each once.
   */
  method ScheduleRecounts(rooms: set<RoomId>, self: SocketId) returns (scheduled: seq<RoomId>)
    ensures forall i | 0 <= i < |scheduled| :: scheduled[i] in rooms && scheduled[i] != self
    ensures forall q | q in rooms && q != self :: q in scheduled
    ensures Distinct(scheduled)
  {
    var rest := rooms;
    scheduled := [];
    while rest != {}
      invariant rest <= rooms
      invariant forall i | 0 <= i < |scheduled| :: scheduled[i] in rooms - rest && scheduled[i] != self
      invariant forall q | q in rooms - rest && q != self :: q in scheduled
      invariant Distinct(scheduled)
      decreases rest
    {
      var q :| q in rest;
      if q != self {
        scheduled := scheduled + [q];
      }
      rest := rest - {q};
    }
  }

  /** The server: `roomCreators`, the adapter's rooms, the live sockets, the due timers and what was emitted. */
  class Relay {
    var creators: map<RoomId, SocketId>
    var members: map<RoomId, set<SocketId>>
    var connected: set<SocketId>
    var timers: seq<RoomId>
    var outbox: seq<Message>

    /** `io.sockets.adapter.rooms.get(r) || new Set()`. */
    function Members(r: RoomId): (m: set<SocketId>)
      reads this
      ensures r !in members ==> m == {}
      ensures Valid() ==> m <= connected
    {
      if r in members then members[r] else {}
    }

    /** `socket.rooms`: every room the socket is a member of. */
    function RoomsOf(s: SocketId): set<RoomId>
      reads this
    {
      set q | q in members && s in members[q]
    }

    /**
     * Socket ids are never empty, so a recorded creator is always truthy; only
     * live sockets are room members; every live socket is in its personal room.
     */
    ghost predicate Valid()
      reads this
    {
      && "" !in connected
      && (forall r | r in creators :: creators[r] != "")
      && (forall r | r in members :: members[r] <= connected)
      && (forall s | s in connected :: s in members && s in members[s])
    }

    /** The state at server start. */
    constructor ()
      ensures Valid()
      ensures creators == map[] && members == map[] && connected == {}
      ensures timers == [] && outbox == []
    {
      creators, members, connected := map[], map[], {};
      timers, outbox := [], [];
    }

    /** The transport handshake: a new socket goes live and joins its personal room. */
    method Connect(s: SocketId)
      requires Valid()
      requires s != "" && s !in connected
      modifies this`members, this`connected
      ensures Valid()
      ensures connected == old(connected) + {s}
      ensures members == old(members)[s := old(Members(s)) + {s}]
      ensures RoomsOf(s) == {s}
    {
      members := members[s := Members(s) + {s}];
      connected := connected + {s};
    }

    /** `socket.join(r)`: a live socket becomes a member of a room, which is created if need be. */
    method Join(s: SocketId, r: RoomId)
      requires Valid()
      requires s in connected
      modifies this`members
      ensures Valid()
      ensures members == old(members)[r := old(Members(r)) + {s}]
      ensures RoomsOf(s) == old(RoomsOf(s)) + {r}
    {
      var all := Members(r) + {s};
      assert all <= connected;
      members := members[r := all];
    }

    /**
     * The `join-room` handler. The socket joins the room. If the room has no
     * creator, the socket becomes it and alone is told a count of 0. Otherwise the
     * recorded creator is told the new occupancy and is asked to send its canvas
     * to the joiner, whether or not that creator is still connected.
     */
    method JoinRoom(s: SocketId, r: RoomId)
      requires Valid()
      requires s in connected
      modifies this`members, this`creators, this`outbox
      ensures Valid()
      ensures members == old(members)[r := old(Members(r)) + {s}]
      ensures r !in old(creators) ==>
        && creators == old(creators)[r := s]
        && outbox == old(outbox) + [Message(s, UserCount(0))]
      ensures r in old(creators) ==>
        var c := old(creators)[r];
        && creators == old(creators)
        && outbox == old(outbox) + [Message(c, UserCount(Occupancy(Members(r), c))), Message(c, SendCurrentCanvas(s))]
    {
      Join(s, r);
      var all := Members(r);
      if r !in creators || creators[r] == "" {
        creators := creators[r := s];
        outbox := outbox + [Message(s, UserCount(0))];
        return;
      }
      var c := creators[r];
      var count := Occupancy(all, c);
      if c != "" {
        outbox := outbox + [Message(c, UserCount(count))];
      }
      outbox := outbox + [Message(c, SendCurrentCanvas(s))];
    }

    /**
     * The `canvasImage` handler: to the one addressee when `to` is truthy,
     * otherwise to every member of the room that is not in the sender's
     * personal room (socket.io's `socket.to` excepts the room named after the
     * sender's id, which holds the sender).
     */
    method CanvasImage(s: SocketId, r: RoomId, data: string, to: Option<SocketId>) returns (sent: seq<Message>)
      requires Valid()
      requires s in connected
      modifies this`outbox
      ensures outbox == old(outbox) + sent
      ensures to.Some? && to.value != "" ==> sent == [Message(to.value, Event.CanvasImage(data))]
      ensures !(to.Some? && to.value != "") ==>
        Delivers(sent, Members(r) - Members(s), data) && |sent| == |Members(r) - Members(s)|
    {
      if to.Some? && to.value != "" {
        sent := [Message(to.value, Event.CanvasImage(data))];
      } else {
        sent := FanOut(Members(r) - Members(s), data);
      }
      outbox := outbox + sent;
    }

    /**
     * The `disconnecting` handler, run while the socket is still in its rooms:
     * a recount is scheduled for each of them except its personal room.
     */
    method Disconnecting(s: SocketId) returns (scheduled: seq<RoomId>)
      requires Valid()
      requires s in connected
      modifies this`timers
      ensures timers == old(timers) + scheduled
      ensures forall q :: q in scheduled <==> s in Members(q) && q != s
      ensures Distinct(scheduled)
    {
      scheduled := ScheduleRecounts(RoomsOf(s), s);
      timers := timers + scheduled;
    }

    /**
     * The transport teardown after `disconnecting`: the socket leaves every room
     * (an emptied room disappears) and stops being live. The `disconnect` handler
     * itself only logs. The creator map is left as it is.
     */
    method Disconnect(s: SocketId)
      requires Valid()
      requires s in connected
      modifies this`members, this`connected
      ensures Valid()
      ensures connected == old(connected) - {s}
      ensures forall q :: Members(q) == old(Members(q)) - {s}
      ensures RoomsOf(s) == {}
    {
      members := map q | q in members && members[q] - {s} != {} :: members[q] - {s};
      connected := connected - {s};
    }

    /**
     * The body of a recount timer: the creator is told the room's occupancy,
     * but only if a creator is recorded and that creator is still connected.
     */
    method Recount(r: RoomId)
      modifies this`outbox
      ensures r in creators && creators[r] != "" && creators[r] in connected ==>
        outbox == old(outbox) + [Message(creators[r], UserCount(Occupancy(Members(r), creators[r])))]
      ensures !(r in creators && creators[r] != "" && creators[r] in connected) ==> outbox == old(outbox)
    {
      var all := Members(r);
      if r in creators {
        var c := creators[r];
        var count := Occupancy(all, c);
        if c != "" && c in connected {
          outbox := outbox + [Message(c, UserCount(count))];
        }
      }
    }

    /** The event loop fires the earliest due recount timer. */
    method RunTimer() returns (r: RoomId)
      requires timers != []
      modifies this`timers, this`outbox
      ensures r == old(timers)[0] && timers == old(timers)[1..]
      ensures r in creators && creators[r] != "" && creators[r] in connected ==>
        outbox == old(outbox) + [Message(creators[r], UserCount(Occupancy(Members(r), creators[r])))]
      ensures !(r in creators && creators[r] != "" && creators[r] in connected) ==> outbox == old(outbox)
    {
      r := timers[0];
      timers := timers[1..];
      Recount(r);
    }
  }
}
