/**
 * The client's per-remote-peer bookkeeping in
 * frontend/src/components/VideoCall.tsx, as a value: one `Link` per remote
 * connection id, fusing the three tables the component keeps under that id
 * (the peer object, its initiator flag and its remote stream). Module
 * Frontend proves that the component's methods move its tables exactly as
 * the functions here move a `Links` value.
 */
module Negotiation {
  import opened Wrappers

  type UserId = string

  /**
   * A parsed signaling message. `tag` is its `type` field when that field
   * is a string (absent or non-string fields never compare equal to a tag);
   * `body` stands for the rest of the object, which is opaque here.
   */
  datatype SignalData = SignalData(tag: Option<string>, body: string)

  /**
   * What JSON.parse makes of a payload: a failure, the literal `null`
   * (which parses, but has no `type` field to read), or an object.
   */
  datatype Parsed = Unparseable | ParsedNull | ParsedValue(data: SignalData)

  datatype MediaStream = MediaStream(id: string)

  /** The view of one remote peer: role, messages applied to its peer object, remote stream. */
  datatype Link = Link(initiator: bool, applied: seq<SignalData>, stream: Option<MediaStream>)

  type Links = map<UserId, Link>

  /** The state of a just-created peer. */
  function FreshLink(initiator: bool): Link {
    Link(initiator, [], None)
  }

  /**
   * The glare gate. `stored` is the initiator flag looked up for the sender
   * (None when absent, which reads as false): an offer is applied unless the
   * local side initiated, an answer only if it did, a candidate always, and
   * any other type never.
   */
  function Gate(tag: Option<string>, stored: Option<bool>): (apply: bool)
    ensures tag == Some("offer") ==> (apply <==> stored != Some(true))
    ensures tag == Some("answer") ==> (apply <==> stored == Some(true))
    ensures tag == Some("candidate") ==> apply
    ensures tag !in {Some("offer"), Some("answer"), Some("candidate")} ==> !apply
  {
    if tag == Some("offer") && stored != Some(true) then true
    else if tag == Some("answer") && stored == Some(true) then true
    else tag == Some("candidate")
  }

  /** A message fits a role: offers go to responders, answers to initiators, candidates to both. */
  ghost predicate RoleConsistent(initiator: bool, tag: Option<string>) {
    || tag == Some("candidate")
    || (tag == Some("offer") && !initiator)
    || (tag == Some("answer") && initiator)
  }

  /** No peer object has ever been handed a message that conflicts with its role. */
  ghost predicate GlareSafe(links: Links) {
    forall id, i :: id in links && 0 <= i < |links[id].applied| ==>
      RoleConsistent(links[id].initiator, links[id].applied[i].tag)
  }

  /** removePeer: all three entries of `id` go together; no other id is touched. */
  function Remove(links: Links, id: UserId): (r: Links)
    ensures r.Keys == links.Keys - {id}
    ensures forall k :: k in r ==> r[k] == links[k]
  {
    links - {id}
  }

  /** handleUserConnected: a peer already known is left alone; otherwise the local side initiates. */
  function UserConnected(links: Links, id: UserId): (r: Links)
    ensures id in links ==> r == links
    ensures id !in links ==> r.Keys == links.Keys + {id} && r[id] == FreshLink(true)
    ensures forall k :: k in links ==> k in r && r[k] == links[k]
  {
    if id in links then links else links[id := FreshLink(true)]
  }

  /**
   * The gated hand-over to a peer the sender already has: the message is
   * appended to what that peer was handed if the gate lets it through.
   */
  function Deliver(links: Links, id: UserId, data: SignalData): (r: Links)
    requires id in links
    ensures r.Keys == links.Keys
    ensures forall k :: k in links && k != id ==> r[k] == links[k]
    ensures r[id].initiator == links[id].initiator && r[id].stream == links[id].stream
    ensures Gate(data.tag, Some(links[id].initiator)) ==> r[id].applied == links[id].applied + [data]
    ensures !Gate(data.tag, Some(links[id].initiator)) ==> r == links
  {
    if Gate(data.tag, Some(links[id].initiator)) then links[id := links[id].(applied := links[id].applied + [data])]
    else links
  }

  /**
   * handleReceiveSignal. A payload that fails to parse tears the sender's
   * peer down. Otherwise a sender without a peer gets one as responder, and
   * then the message is handed to that peer if the gate lets it through.
   * For `null` the peer is looked up or created first and the read of its
   * `type` then fails, so it is torn down as well.
   */
  function ReceiveSignal(links: Links, id: UserId, parsed: Parsed): (r: Links)
    ensures !parsed.ParsedValue? ==> r == Remove(links, id)
    ensures parsed.ParsedValue? ==> r.Keys == links.Keys + {id}
    ensures parsed.ParsedValue? ==> forall k :: k in links && k != id ==> r[k] == links[k]
    ensures parsed.ParsedValue? ==>
      var before := if id in links then links[id] else FreshLink(false);
      && r[id].initiator == before.initiator
      && r[id].stream == before.stream
      && r[id].applied == before.applied + (if Gate(parsed.data.tag, Some(before.initiator)) then [parsed.data] else [])
  {
    match parsed
    case Unparseable => Remove(links, id)
    case ParsedNull => Remove(if id in links then links else links[id := FreshLink(false)], id)
    case ParsedValue(data) => Deliver(if id in links then links else links[id := FreshLink(false)], id, data)
  }

  /** The `stream` event of a live peer: its remote stream is recorded, nothing else changes. */
  function StreamArrived(links: Links, id: UserId, stream: MediaStream): (r: Links)
    requires id in links
    ensures r.Keys == links.Keys
    ensures r[id].stream == Some(stream)
    ensures r[id].initiator == links[id].initiator && r[id].applied == links[id].applied
    ensures forall k :: k in links && k != id ==> r[k] == links[k]
  {
    links[id := links[id].(stream := Some(stream))]
  }

  // ---------------------------------------------------------------------
  // The glare gate, message by message
  // ---------------------------------------------------------------------

  /** With a stored flag, the gate passes exactly the messages that fit the role. */
  lemma GateIsRoleConsistent(tag: Option<string>, initiator: bool)
    ensures Gate(tag, Some(initiator)) <==> RoleConsistent(initiator, tag)
  {
  }

  /** A message from an unknown sender creates a responder; an offer or candidate is then applied, an answer is not. */
  lemma StrangerBecomesResponder(links: Links, id: UserId, data: SignalData)
    requires id !in links
    ensures ReceiveSignal(links, id, ParsedValue(data))[id].initiator == false
    ensures ReceiveSignal(links, id, ParsedValue(data))[id].stream == None
    ensures ReceiveSignal(links, id, ParsedValue(data))[id].applied
         == (if data.tag == Some("offer") || data.tag == Some("candidate") then [data] else [])
  {
  }

  /** An offer arriving while the local side is the initiator leaves everything as it was. */
  lemma OfferToInitiatorDropped(links: Links, id: UserId, data: SignalData)
    requires id in links && links[id].initiator
    requires data.tag == Some("offer")
    ensures ReceiveSignal(links, id, ParsedValue(data)) == links
  {
    assert links[id := links[id]] == links;
  }

  /** An answer arriving while the local side is the responder leaves everything as it was. */
  lemma AnswerToResponderDropped(links: Links, id: UserId, data: SignalData)
    requires id in links && !links[id].initiator
    requires data.tag == Some("answer")
    ensures ReceiveSignal(links, id, ParsedValue(data)) == links
  {
    assert links[id := links[id]] == links;
  }

  /** A candidate is applied whatever the role, after creating a responder if needed. */
  lemma CandidateAlwaysApplied(links: Links, id: UserId, data: SignalData)
    requires data.tag == Some("candidate")
    ensures var r := ReceiveSignal(links, id, ParsedValue(data));
      r[id].applied == (if id in links then links[id].applied else []) + [data]
  {
  }

  /** A message of any other type is dropped; only the responder created for an unknown sender remains. */
  lemma OtherTypesOnlyCreate(links: Links, id: UserId, data: SignalData)
    requires data.tag !in {Some("offer"), Some("answer"), Some("candidate")}
    ensures ReceiveSignal(links, id, ParsedValue(data))
         == (if id in links then links else links[id := FreshLink(false)])
  {
  }

  /**
   * After a teardown, the next contact from the same id starts from
   * nothing: the role comes from the new contact alone and neither the old
   * messages nor the old stream survive.
   */
  lemma TeardownLeavesNoResidue(links: Links, id: UserId, data: SignalData)
    ensures UserConnected(Remove(links, id), id)[id] == FreshLink(true)
    ensures var l := ReceiveSignal(Remove(links, id), id, ParsedValue(data))[id];
      !l.initiator && l.stream == None && l.applied <= [data]
  {
  }

  // ---------------------------------------------------------------------
  // Runs of events
  // ---------------------------------------------------------------------

  /** What reaches the component: the three hub events and the two peer-object events. */
  datatype ClientEvent =
    | PeerJoined(id: UserId)
    | SignalReceived(id: UserId, parsed: Parsed)
    | PeerLeft(id: UserId)
    | StreamReceived(id: UserId, stream: MediaStream)
    | PeerFailed(id: UserId)

  /** One event; a stream event needs a live peer to come from, so without one nothing happens. */
  function Apply(links: Links, e: ClientEvent): Links {
    match e
    case PeerJoined(id) => UserConnected(links, id)
    case SignalReceived(id, parsed) => ReceiveSignal(links, id, parsed)
    case PeerLeft(id) => Remove(links, id)
    case StreamReceived(id, stream) => if id in links then StreamArrived(links, id, stream) else links
    case PeerFailed(id) => Remove(links, id)
  }

  function Replay(links: Links, events: seq<ClientEvent>): Links
    decreases |events|
  {
    if events == [] then links else Replay(Apply(links, events[0]), events[1..])
  }

  lemma ApplyKeepsGlareSafe(links: Links, e: ClientEvent)
    requires GlareSafe(links)
    ensures GlareSafe(Apply(links, e))
  {
    if e.SignalReceived? && e.parsed.ParsedValue? {
      var r := Apply(links, e);
      var before := if e.id in links then links[e.id] else FreshLink(false);
      forall k, i | k in r && 0 <= i < |r[k].applied|
        ensures RoleConsistent(r[k].initiator, r[k].applied[i].tag)
      {
        if k == e.id && i == |before.applied| {
          GateIsRoleConsistent(e.parsed.data.tag, before.initiator);
        }
      }
    }
  }

  /**
   * Whatever the order of joins, signals, departures and failures, no
   * peer object is ever handed an offer while initiating or an answer
   * while responding: the gate is the only way a message reaches a peer.
   */
  lemma {:induction false} ReplayKeepsGlareSafe(links: Links, events: seq<ClientEvent>)
    requires GlareSafe(links)
    ensures GlareSafe(Replay(links, events))
    decreases |events|
  {
    if events != [] {
      ApplyKeepsGlareSafe(links, events[0]);
      ReplayKeepsGlareSafe(Apply(links, events[0]), events[1..]);
    }
  }

  /**
   * A joins first, then B. A hears that B joined and initiates; B hears
   * A's offer and responds; A applies B's answer; candidates are applied
   * on both sides.
   */
  lemma Handshake(a: UserId, b: UserId, offer: SignalData, answer: SignalData, candA: SignalData, candB: SignalData)
    requires offer.tag == Some("offer") && answer.tag == Some("answer")
    requires candA.tag == Some("candidate") && candB.tag == Some("candidate")
    ensures var atA := Replay(map[], [PeerJoined(b), SignalReceived(b, ParsedValue(answer)), SignalReceived(b, ParsedValue(candB))]);
      b in atA && atA[b] == Link(true, [answer, candB], None)
    ensures var atB := Replay(map[], [SignalReceived(a, ParsedValue(offer)), SignalReceived(a, ParsedValue(candA))]);
      a in atB && atB[a] == Link(false, [offer, candA], None)
  {
    var e1 := [PeerJoined(b), SignalReceived(b, ParsedValue(answer)), SignalReceived(b, ParsedValue(candB))];
    var a1 := UserConnected(map[], b);
    var a2 := ReceiveSignal(a1, b, ParsedValue(answer));
    var a3 := ReceiveSignal(a2, b, ParsedValue(candB));
    assert Replay(a3, e1[3..]) == a3;
    assert Replay(a2, e1[2..]) == a3;
    assert Replay(a1, e1[1..]) == a3;
    var e2 := [SignalReceived(a, ParsedValue(offer)), SignalReceived(a, ParsedValue(candA))];
    var b1 := ReceiveSignal(map[], a, ParsedValue(offer));
    var b2 := ReceiveSignal(b1, a, ParsedValue(candA));
    assert Replay(b2, e2[2..]) == b2;
    assert Replay(b1, e2[1..]) == b2;
  }
}
