/**
 * The signaling relay hub (backend/Hubs/VideoCallHub.cs) as pure state
 * transitions. The transport's group table and connection registry are
 * explicit: `groups` maps a room to the connection ids added to it and
 * `connected` holds the live connection ids. Every `SendAsync` the hub
 * makes is appended to `outbox` with the set of connections it reaches
 * at that moment, and every log line with the values it computes to `log`.
 */
module Relay {
  import opened Wrappers
  import Classifier

  type ConnectionId = string
  type RoomId = string

  /** The three client events the hub emits, with their arguments. */
  datatype Event =
    | UserConnected(joined: ConnectionId)
    | ReceiveSignal(signal: string, from: ConnectionId)
    | UserDisconnected(departed: ConnectionId)

  /** One `SendAsync`: the connections it reaches and what it carries. */
  datatype Send = Send(recipients: set<ConnectionId>, event: Event)

  /** The fault, if any, that ended a connection. */
  datatype Exception = Exception(message: string)

  /** What each log line records. */
  datatype LogEntry =
    | ClientConnected(id: ConnectionId)
    | JoinedRoom(id: ConnectionId, room: RoomId)
    | SignalRelayed(from: ConnectionId, to: ConnectionId, room: RoomId, signalType: string)
    | ClientDisconnected(id: ConnectionId, reason: string)

  datatype HubState = HubState(
    groups: map<RoomId, set<ConnectionId>>,
    connected: set<ConnectionId>,
    outbox: seq<Send>,
    log: seq<LogEntry>)

  const Empty := HubState(map[], {}, [], [])

  /** The ids added to `room` so far (a room never joined has none). */
  function Members(groups: map<RoomId, set<ConnectionId>>, room: RoomId): set<ConnectionId> {
    if room in groups then groups[room] else {}
  }

  /** The reason logged on disconnect: the fault's message, or a fixed label. */
  function DisconnectReason(exception: Option<Exception>): (reason: string)
    ensures exception.Some? ==> reason == exception.value.message
    ensures exception.None? ==> reason == "Normal disconnect"
  {
    match exception
    case Some(e) => e.message
    case None => "Normal disconnect"
  }

  /**
   * OnConnectedAsync: the transport registers the new connection; the hub
   * itself only logs. No room is joined and nothing is sent.
   */
  function Connect(s: HubState, caller: ConnectionId): (t: HubState)
    requires caller !in s.connected
    ensures t.connected == s.connected + {caller}
    ensures t.groups == s.groups && t.outbox == s.outbox
    ensures t.log == s.log + [ClientConnected(caller)]
  {
    s.(connected := s.connected + {caller}, log := s.log + [ClientConnected(caller)])
  }

  /**
   * JoinRoom: the caller is added to the room first; the `userConnected`
   * notification then goes to the room's live members, the caller among them.
   */
  function JoinRoom(s: HubState, caller: ConnectionId, room: RoomId): (t: HubState)
    requires caller in s.connected
    ensures Members(t.groups, room) == Members(s.groups, room) + {caller}
    ensures forall r :: r != room ==> Members(t.groups, r) == Members(s.groups, r)
    ensures t.connected == s.connected
    ensures t.outbox == s.outbox + [Send(Members(t.groups, room) * s.connected, UserConnected(caller))]
    ensures caller in t.outbox[|s.outbox|].recipients
    ensures t.log == s.log + [JoinedRoom(caller, room)]
  {
    var groups := s.groups[room := Members(s.groups, room) + {caller}];
    s.(groups := groups,
       outbox := s.outbox + [Send(groups[room] * s.connected, UserConnected(caller))],
       log := s.log + [JoinedRoom(caller, room)])
  }

  /**
   * SendSignal: one send, addressed to `target` alone and carrying the
   * payload unchanged with the caller's id. `room` and the computed signal
   * type reach only the log. A target that is not connected is reached by
   * nobody, silently.
   */
  function SendSignal(s: HubState, caller: ConnectionId, signal: string, room: RoomId, target: ConnectionId): (t: HubState)
    requires caller in s.connected
    ensures t.groups == s.groups && t.connected == s.connected
    ensures |t.outbox| == |s.outbox| + 1 && t.outbox[..|s.outbox|] == s.outbox
    ensures t.outbox[|s.outbox|].event == ReceiveSignal(signal, caller)
    ensures t.outbox[|s.outbox|].recipients <= {target}
    ensures target in t.outbox[|s.outbox|].recipients <==> target in s.connected
    ensures t.log == s.log + [SignalRelayed(caller, target, room, Classifier.ClassifySignal(signal))]
  {
    s.(outbox := s.outbox + [Send({target} * s.connected, ReceiveSignal(signal, caller))],
       log := s.log + [SignalRelayed(caller, target, room, Classifier.ClassifySignal(signal))])
  }

  /**
   * OnDisconnectedAsync. The transport has already aborted the caller's
   * connection when the hub runs, so `userDisconnected` goes to every
   * other live connection (Clients.All), with no regard to rooms. The hub
   * itself removes the caller from no group; once it returns, the
   * transport drops the caller from every group it was added to.
   */
  function Disconnect(s: HubState, caller: ConnectionId, exception: Option<Exception>): (t: HubState)
    requires caller in s.connected
    ensures t.connected == s.connected - {caller}
    ensures t.groups.Keys == s.groups.Keys
    ensures forall r :: Members(t.groups, r) == Members(s.groups, r) - {caller}
    ensures t.outbox == s.outbox + [Send(s.connected - {caller}, UserDisconnected(caller))]
    ensures caller !in t.outbox[|s.outbox|].recipients
    ensures t.log == s.log + [ClientDisconnected(caller, DisconnectReason(exception))]
  {
    s.(connected := s.connected - {caller},
       groups := map r | r in s.groups :: s.groups[r] - {caller},
       outbox := s.outbox + [Send(s.connected - {caller}, UserDisconnected(caller))],
       log := s.log + [ClientDisconnected(caller, DisconnectReason(exception))])
  }

  /** Every member of every room is a live connection. */
  ghost predicate GroupsLive(s: HubState) {
    forall r :: Members(s.groups, r) <= s.connected
  }

  // ---------------------------------------------------------------------
  // Properties of single calls
  // ---------------------------------------------------------------------

  /** Joining the same room twice leaves the caller in it once, and notifies twice. */
  lemma JoinTwiceIsIdempotent(s: HubState, caller: ConnectionId, room: RoomId)
    requires caller in s.connected
    ensures JoinRoom(JoinRoom(s, caller, room), caller, room).groups == JoinRoom(s, caller, room).groups
    ensures |JoinRoom(JoinRoom(s, caller, room), caller, room).outbox| == |s.outbox| + 2
  {
    var t := JoinRoom(s, caller, room);
    assert Members(t.groups, room) + {caller} == Members(t.groups, room);
  }

  /** The room argument of SendSignal plays no part in what is delivered or to whom. */
  lemma SendSignalIgnoresRoom(s: HubState, caller: ConnectionId, signal: string, room1: RoomId, room2: RoomId, target: ConnectionId)
    requires caller in s.connected
    ensures SendSignal(s, caller, signal, room1, target).outbox == SendSignal(s, caller, signal, room2, target).outbox
    ensures SendSignal(s, caller, signal, room1, target).groups == SendSignal(s, caller, signal, room2, target).groups
  {
  }

  /**
   * Only the log depends on the signal's label: two payloads labelled
   * differently are delivered the same way, each unchanged.
   */
  lemma DeliveryIgnoresSignalType(s: HubState, caller: ConnectionId, sig1: string, sig2: string, room: RoomId, target: ConnectionId)
    requires caller in s.connected
    ensures SendSignal(s, caller, sig1, room, target).outbox[|s.outbox|].recipients
         == SendSignal(s, caller, sig2, room, target).outbox[|s.outbox|].recipients
    ensures SendSignal(s, caller, sig1, room, target).outbox[|s.outbox|].event.signal == sig1
  {
  }

  /**
   * The departure notice reaches every other live connection, including
   * ones that share no room with the departing caller.
   */
  lemma DepartureIsGlobal(s: HubState, caller: ConnectionId, exception: Option<Exception>, other: ConnectionId)
    requires caller in s.connected && other in s.connected && other != caller
    requires forall r :: r in s.groups ==> !(caller in s.groups[r] && other in s.groups[r])
    ensures other in Disconnect(s, caller, exception).outbox[|s.outbox|].recipients
  {
  }

  // ---------------------------------------------------------------------
  // Runs of calls
  // ---------------------------------------------------------------------

  /** A hub entry point as the transport dispatches it. */
  datatype Call =
    | OnConnected(id: ConnectionId)
    | Join(caller: ConnectionId, room: RoomId)
    | Signal(caller: ConnectionId, signal: string, room: RoomId, target: ConnectionId)
    | OnDisconnected(caller: ConnectionId, exception: Option<Exception>)

  /** The transport dispatches a connect for a new id and every other call for a live one. */
  predicate Dispatchable(s: HubState, c: Call) {
    match c
    case OnConnected(id) => id !in s.connected
    case Join(caller, _) => caller in s.connected
    case Signal(caller, _, _, _) => caller in s.connected
    case OnDisconnected(caller, _) => caller in s.connected
  }

  /** One call; a call the transport would never dispatch changes nothing. */
  function Step(s: HubState, c: Call): HubState {
    if !Dispatchable(s, c) then s
    else match c
      case OnConnected(id) => Connect(s, id)
      case Join(caller, room) => JoinRoom(s, caller, room)
      case Signal(caller, signal, room, target) => SendSignal(s, caller, signal, room, target)
      case OnDisconnected(caller, exception) => Disconnect(s, caller, exception)
  }

  function Run(s: HubState, calls: seq<Call>): HubState
    decreases |calls|
  {
    if calls == [] then s else Run(Step(s, calls[0]), calls[1..])
  }

  /** The sends of one step reach only connections live at that step. */
  ghost predicate SentToLive(before: seq<Send>, after: seq<Send>, live: set<ConnectionId>) {
    |before| <= |after| && after[..|before|] == before &&
    forall i :: |before| <= i < |after| ==> after[i].recipients <= live
  }

  lemma StepOnlyAppends(s: HubState, c: Call)
    ensures SentToLive(s.outbox, Step(s, c).outbox, s.connected)
    ensures |Step(s, c).outbox| <= |s.outbox| + 1
    ensures s.log <= Step(s, c).log
    ensures forall r :: Members(s.groups, r) * Step(s, c).connected <= Members(Step(s, c).groups, r)
    ensures GroupsLive(s) ==> GroupsLive(Step(s, c))
  {
    var t := Step(s, c);
    if Dispatchable(s, c) && c.Join? {
      forall r ensures Members(s.groups, r) <= Members(t.groups, r) {
        if r != c.room {
          assert Members(t.groups, r) == Members(s.groups, r);
        }
      }
    }
  }

  /**
   * While every room holds only live connections, a room's notification
   * reaches exactly its members, the joiner included.
   */
  lemma GroupSendReachesMembers(s: HubState, caller: ConnectionId, room: RoomId)
    requires GroupsLive(s) && caller in s.connected
    ensures JoinRoom(s, caller, room).outbox[|s.outbox|].recipients == Members(JoinRoom(s, caller, room).groups, room)
  {
    assert Members(s.groups, room) <= s.connected;
  }

  /**
   * Over any run, the hub only appends to its outbox and its log, by at
   * most one send per call, and a run that starts with only live
   * connections in its rooms keeps it so: a departed connection is never
   * left behind in a room.
   */
  lemma {:induction false} RunOnlyAppends(s: HubState, calls: seq<Call>)
    ensures s.outbox <= Run(s, calls).outbox
    ensures s.log <= Run(s, calls).log
    ensures |Run(s, calls).outbox| <= |s.outbox| + |calls|
    ensures GroupsLive(s) ==> GroupsLive(Run(s, calls))
    decreases |calls|
  {
    if calls != [] {
      var s1 := Step(s, calls[0]);
      StepOnlyAppends(s, calls[0]);
      RunOnlyAppends(s1, calls[1..]);
      assert s.outbox == s1.outbox[..|s.outbox|];
    }
  }

  /**
   * Three connections join "lobby" in order, then the first leaves. Each
   * join notifies the members so far, the joiner included; the departure
   * goes to the two that remain.
   */
  lemma LobbyScenario(a: ConnectionId, b: ConnectionId, c: ConnectionId)
    requires a != b && b != c && a != c
    ensures Run(Empty, [OnConnected(a), OnConnected(b), OnConnected(c),
                        Join(a, "lobby"), Join(b, "lobby"), Join(c, "lobby"),
                        OnDisconnected(a, None)]).outbox
         == [Send({a}, UserConnected(a)),
             Send({a, b}, UserConnected(b)),
             Send({a, b, c}, UserConnected(c)),
             Send({b, c}, UserDisconnected(a))]
  {
    var calls := [OnConnected(a), OnConnected(b), OnConnected(c),
                  Join(a, "lobby"), Join(b, "lobby"), Join(c, "lobby"),
                  OnDisconnected(a, None)];
    var s1 := Connect(Empty, a);
    var s2 := Connect(s1, b);
    var s3 := Connect(s2, c);
    var s4 := JoinRoom(s3, a, "lobby");
    var s5 := JoinRoom(s4, b, "lobby");
    var s6 := JoinRoom(s5, c, "lobby");
    var s7 := Disconnect(s6, a, None);
    assert Run(s7, calls[7..]) == s7;
    assert Run(s6, calls[6..]) == s7;
    assert Run(s5, calls[5..]) == s7;
    assert Run(s4, calls[4..]) == s7;
    assert Run(s3, calls[3..]) == s7;
    assert Run(s2, calls[2..]) == s7;
    assert Run(s1, calls[1..]) == s7;
    assert Run(Empty, calls) == s7;
    assert s3.connected == {a, b, c};
    assert Members(s4.groups, "lobby") * s3.connected == {a};
    assert Members(s5.groups, "lobby") * s4.connected == {a, b};
    assert Members(s6.groups, "lobby") * s5.connected == {a, b, c};
    assert s6.connected - {a} == {b, c};
  }

  /**
   * A connection joins "r" and leaves; its id then connects again, and a
   * second connection joins "r". The new session of the first id was
   * never added to "r", so the second join notifies only the joiner.
   */
  lemma ReconnectStartsClean(a: ConnectionId, b: ConnectionId)
    requires a != b
    ensures Run(Empty, [OnConnected(a), Join(a, "r"), OnDisconnected(a, None),
                        OnConnected(a), OnConnected(b), Join(b, "r")]).outbox
         == [Send({a}, UserConnected(a)),
             Send({}, UserDisconnected(a)),
             Send({b}, UserConnected(b))]
  {
    var calls := [OnConnected(a), Join(a, "r"), OnDisconnected(a, None),
                  OnConnected(a), OnConnected(b), Join(b, "r")];
    var s1 := Connect(Empty, a);
    var s2 := JoinRoom(s1, a, "r");
    var s3 := Disconnect(s2, a, None);
    var s4 := Connect(s3, a);
    var s5 := Connect(s4, b);
    var s6 := JoinRoom(s5, b, "r");
    assert Run(s6, calls[6..]) == s6;
    assert Run(s5, calls[5..]) == s6;
    assert Run(s4, calls[4..]) == s6;
    assert Run(s3, calls[3..]) == s6;
    assert Run(s2, calls[2..]) == s6;
    assert Run(s1, calls[1..]) == s6;
    assert Run(Empty, calls) == s6;
    assert Members(s2.groups, "r") * s1.connected == {a};
    assert Members(s3.groups, "r") == {};
    assert Members(s6.groups, "r") * s5.connected == {b};
  }
}
