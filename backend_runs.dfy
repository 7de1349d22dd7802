/**
 * Whole runs of the relay, driven from a freshly started server: what the
 * creator of a room is sent as others join, and what happens to a room whose
 * creator has gone.
 */
module BackendRuns {
  import opened Wrappers
  import opened Backend

  /**
   * What a fresh server emits when `creator` joins a room and then `joiners`
   * join it one after another: the creator is told 0, then after the k-th join
   * it is told k and asked to send its canvas to the k-th joiner.
   */
  function Transcript(creator: SocketId, joiners: seq<SocketId>): seq<Message>
    decreases |joiners|
  {
    if joiners == [] then [Message(creator, UserCount(0))]
    else
      var n := |joiners|;
      Transcript(creator, joiners[..n - 1])
        + [Message(creator, UserCount(n)), Message(creator, SendCurrentCanvas(joiners[n - 1]))]
  }

  /** Each further joiner adds its count and its canvas request to the transcript. */
  lemma TranscriptSnoc(creator: SocketId, joiners: seq<SocketId>, j: SocketId)
    ensures Transcript(creator, joiners + [j])
      == Transcript(creator, joiners) + [Message(creator, UserCount(|joiners| + 1)), Message(creator, SendCurrentCanvas(j))]
  {
    assert (joiners + [j])[..|joiners|] == joiners;
  }

  /** Only the creator is ever addressed, and the transcript has one count per join plus one request per non-first join. */
  lemma {:induction false} TranscriptShape(creator: SocketId, joiners: seq<SocketId>)
    ensures |Transcript(creator, joiners)| == 1 + 2 * |joiners|
    ensures forall m | m in Transcript(creator, joiners) :: m.to == creator
  {
    if joiners != [] {
      TranscriptShape(creator, joiners[..|joiners| - 1]);
    }
  }

  /**
   * One round of JoinOneByOne: a new socket connects and joins a room whose
   * creator is recorded and whose members are exactly the live sockets. The
   * creator is told the room's size before the join, which is the number of
   * members other than itself after it.
   */
  method JoinRound(relay: Relay, room: RoomId, creator: SocketId, ghost present: set<SocketId>, j: SocketId)
    requires relay.Valid()
    requires j != "" && j != room && j !in present && creator in present
    requires relay.connected == present && relay.Members(room) == present
    requires room in relay.creators && relay.creators[room] == creator
    modifies relay
    ensures relay.Valid()
    ensures relay.connected == present + {j} && relay.Members(room) == present + {j}
    ensures room in relay.creators && relay.creators[room] == creator
    ensures relay.outbox == old(relay.outbox) + [Message(creator, UserCount(|present|)), Message(creator, SendCurrentCanvas(j))]
  {
    relay.Connect(j);
    relay.JoinRoom(j, room);
  }

  /** A fresh server where `creator` has connected and created `room`. */
  method FoundRoom(room: RoomId, creator: SocketId) returns (relay: Relay)
    requires creator != "" && room != creator
    ensures fresh(relay) && relay.Valid()
    ensures relay.connected == {creator} && relay.Members(room) == {creator}
    ensures room in relay.creators && relay.creators[room] == creator
    ensures relay.outbox == [Message(creator, UserCount(0))]
  {
    relay := new Relay();
    relay.Connect(creator);
    relay.JoinRoom(creator, room);
  }

  /**
   * Starts a server, connects `creator` and lets it join `room`, then connects
   * each joiner in turn and lets it join the same room. The messages emitted are
   * exactly the transcript: after the N-th distinct joiner the creator is told N.
   */
  method JoinOneByOne(room: RoomId, creator: SocketId, joiners: seq<SocketId>) returns (out: seq<Message>)
    requires creator != "" && "" !in joiners
    requires creator !in joiners && Distinct(joiners)
    requires room != creator && room !in joiners
    ensures out == Transcript(creator, joiners)
  {
    var relay := FoundRoom(room, creator);
    ghost var present := {creator};
    var i := 0;
    while i < |joiners|
      invariant 0 <= i <= |joiners|
      invariant relay.Valid()
      invariant creator in present && |present| == i + 1
      invariant forall k | i <= k < |joiners| :: joiners[k] !in present
      invariant relay.connected == present && relay.Members(room) == present
      invariant room in relay.creators && relay.creators[room] == creator
      invariant relay.outbox == Transcript(creator, joiners[..i])
    {
      assert joiners[i] !in present;
      JoinRound(relay, room, creator, present, joiners[i]);
      TranscriptSnoc(creator, joiners[..i], joiners[i]);
      assert joiners[..i + 1] == joiners[..i] + [joiners[i]];
      present := present + {joiners[i]};
      assert |present| == i + 2;
      i := i + 1;
    }
    assert joiners[..i] == joiners;
    out := relay.outbox;
  }

  /** Four distinct names: three sockets and a room. */
  ghost predicate Cast(a: SocketId, b: SocketId, c: SocketId, room: RoomId)
  {
    && a != "" && b != "" && c != ""
    && a != b && a != c && b != c
    && room != a && room != b && room != c
  }

  /** `a` connects to a fresh server and creates `room`. */
  method Founded(a: SocketId, b: SocketId, c: SocketId, room: RoomId) returns (relay: Relay)
    requires Cast(a, b, c, room)
    ensures fresh(relay) && relay.Valid()
    ensures relay.connected == {a}
    ensures relay.members == map[a := {a}, room := {a}]
    ensures relay.creators == map[room := a] && relay.timers == []
    ensures relay.outbox == [Message(a, UserCount(0))]
  {
    relay := new Relay();
    relay.Connect(a);
    relay.JoinRoom(a, room);
  }

  /** `b` connects and joins the room `a` created. */
  method SecondJoins(relay: Relay, a: SocketId, b: SocketId, c: SocketId, room: RoomId)
    requires Cast(a, b, c, room) && relay.Valid()
    requires relay.connected == {a}
    requires relay.members == map[a := {a}, room := {a}]
    requires relay.creators == map[room := a]
    modifies relay
    ensures relay.Valid()
    ensures relay.connected == {a, b}
    ensures relay.members == map[a := {a}, room := {a, b}, b := {b}]
    ensures relay.creators == map[room := a] && relay.timers == old(relay.timers)
    ensures relay.outbox == old(relay.outbox) + [Message(a, UserCount(1)), Message(a, SendCurrentCanvas(b))]
  {
    relay.Connect(b);
    relay.JoinRoom(b, room);
    assert relay.Members(room) == {a, b};
  }

  /** Stage one of OrphanedRoom: `a` creates `room`, `b` joins it and broadcasts a stroke, which reaches `a` only. */
  method TwoInRoom(a: SocketId, b: SocketId, c: SocketId, room: RoomId, stroke: string) returns (relay: Relay)
    requires Cast(a, b, c, room)
    ensures fresh(relay) && relay.Valid()
    ensures relay.connected == {a, b}
    ensures relay.members == map[a := {a}, room := {a, b}, b := {b}]
    ensures relay.creators == map[room := a] && relay.timers == []
    ensures relay.outbox == [
      Message(a, UserCount(0)), Message(a, UserCount(1)), Message(a, SendCurrentCanvas(b)),
      Message(a, Event.CanvasImage(stroke))]
  {
    relay := Founded(a, b, c, room);
    SecondJoins(relay, a, b, c, room);
    assert relay.Members(room) - relay.Members(b) == {a};
    var sent := relay.CanvasImage(b, room, stroke, None);
    DeliversToOne(sent, a, stroke);
  }

  /** Besides its personal room, the only room `a` has joined is `room`. */
  lemma OnlyRoomOf(relay: Relay, a: SocketId, b: SocketId, room: RoomId, scheduled: seq<RoomId>)
    requires a != b && room != a && room != b
    requires relay.members == map[a := {a}, room := {a, b}, b := {b}]
    requires forall q :: q in scheduled <==> a in relay.Members(q) && q != a
    requires Distinct(scheduled)
    ensures scheduled == [room]
  {
    assert room in scheduled;
    forall q | q in scheduled ensures q == room {
      assert q in relay.members;
    }
    DistinctElems(scheduled);
    assert Elems(scheduled) == {room};
  }

  /** Stage two of OrphanedRoom: `a` leaves and the recount that fires afterwards sends nothing. */
  method CreatorLeaves(a: SocketId, b: SocketId, c: SocketId, room: RoomId, stroke: string) returns (relay: Relay)
    requires Cast(a, b, c, room)
    ensures fresh(relay) && relay.Valid()
    ensures relay.connected == {b} && relay.Members(room) == {b}
    ensures relay.creators == map[room := a] && relay.timers == []
    ensures relay.outbox == [
      Message(a, UserCount(0)), Message(a, UserCount(1)), Message(a, SendCurrentCanvas(b)),
      Message(a, Event.CanvasImage(stroke))]
  {
    relay := TwoInRoom(a, b, c, room, stroke);
    var scheduled := relay.Disconnecting(a);
    OnlyRoomOf(relay, a, b, room, scheduled);
    relay.Disconnect(a);
    assert relay.Members(room) == {b};
    var fired := relay.RunTimer();
  }

  /** `c` joins after the creator `a` has gone: `a` is still addressed, and told the whole room's size. */
  method ThirdJoins(relay: Relay, a: SocketId, b: SocketId, c: SocketId, room: RoomId)
    requires Cast(a, b, c, room) && relay.Valid()
    requires relay.connected == {b} && relay.Members(room) == {b}
    requires relay.creators == map[room := a]
    modifies relay
    ensures relay.outbox == old(relay.outbox) + [Message(a, UserCount(2)), Message(a, SendCurrentCanvas(c))]
  {
    relay.Connect(c);
    relay.JoinRoom(c, room);
    assert relay.Members(room) == {b, c};
    assert Occupancy({b, c}, a) == 2;
  }

  /**
   * A room whose creator has disconnected. `a` creates `room` and `b` joins;
   * `b` broadcasts a stroke, which reaches `a` only. `a` leaves: the recount
   * that fires afterwards sends nothing, and a second stroke from `b` reaches
   * nobody. When `c` joins, the server still addresses the departed `a`, with a
   * count of 2 because `a` is no longer a member, and asks it to send its canvas
   * to `c`.
   */
  method OrphanedRoom(a: SocketId, b: SocketId, c: SocketId, room: RoomId, stroke1: string, stroke2: string)
    returns (out: seq<Message>)
    requires Cast(a, b, c, room)
    ensures out == [
      Message(a, UserCount(0)),
      Message(a, UserCount(1)),
      Message(a, SendCurrentCanvas(b)),
      Message(a, Event.CanvasImage(stroke1)),
      Message(a, UserCount(2)),
      Message(a, SendCurrentCanvas(c))
    ]
  {
    var relay := CreatorLeaves(a, b, c, room, stroke1);
    ghost var before := relay.outbox;
    assert relay.Members(room) - relay.Members(b) == {};
    var sent := relay.CanvasImage(b, room, stroke2, None);
    ThirdJoins(relay, a, b, c, room);
    out := relay.outbox;
  }
}
