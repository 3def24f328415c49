/**
 * The VideoCall component's peer registry (frontend/src/components/VideoCall.tsx)
 * as an object: the dictionaries behind `peersRef`, `initiatorStatusRef` and
 * the `remoteStreams` state are fields updated in place, and each peer is an
 * object that records the messages handed to it and whether it was
 * destroyed. The ghost field `links` is the tables' value view, one `Link`
 * per id; every method is proved to move it exactly as the function of
 * module Negotiation that models it.
 */
module Frontend {
  import opened Wrappers
  import opened Negotiation

  /** A simple-peer instance, opaque except for what is handed to it and whether it was destroyed. */
  class Peer {
    const initiator: bool
    var applied: seq<SignalData>
    var destroyed: bool

    constructor (initiator: bool)
      ensures this.initiator == initiator && applied == [] && !destroyed
    {
      this.initiator := initiator;
      applied := [];
      destroyed := false;
    }

    /** `peer.signal(data)` */
    method Signal(data: SignalData)
      modifies this
      ensures applied == old(applied) + [data] && destroyed == old(destroyed)
    {
      applied := applied + [data];
    }

    /** `peer.destroy()` */
    method Destroy()
      modifies this
      ensures destroyed && applied == old(applied)
    {
      destroyed := true;
    }
  }

  /** Adding a key a map lacks and then dropping it leaves the map as dropping it alone. */
  lemma AddThenDrop<K, V>(m: map<K, V>, k: K, v: V)
    requires k !in m
    ensures m[k := v] - {k} == m - {k}
  {
  }

  /** `connection.invoke("SendSignal", signal, roomId, userId)` */
  datatype Invocation = SendSignal(signal: string, roomId: string, userId: UserId)

  class VideoCall {
    const roomId: string
    var peers: map<UserId, Peer>
    var initiatorStatus: map<UserId, bool>
    var remoteStreams: map<UserId, MediaStream>
    var outgoing: seq<Invocation>
    /** The three tables read together, one `Link` per id that has a peer. */
    ghost var links: Links

    /**
     * The registry's invariant: a flag for exactly the ids that have a peer,
     * a stream only for an id that has a peer, every registered peer live
     * and created with its recorded role, no peer object shared by two ids,
     * and `links` in step with the tables and the peers.
     */
    ghost predicate Valid()
      reads this, peers.Values
    {
      && peers.Keys == initiatorStatus.Keys == links.Keys
      && remoteStreams.Keys <= peers.Keys
      && (forall id :: id in peers ==> !peers[id].destroyed && peers[id].initiator == initiatorStatus[id])
      && (forall id1, id2 :: id1 in peers && id2 in peers && id1 != id2 ==> peers[id1] != peers[id2])
      && (forall id :: id in peers ==>
            links[id] == Link(initiatorStatus[id], peers[id].applied,
                              if id in remoteStreams then Some(remoteStreams[id]) else None))
    }

    constructor (roomId: string)
      ensures Valid() && this.roomId == roomId
      ensures peers == map[] && links == map[] && outgoing == []
    {
      this.roomId := roomId;
      peers, initiatorStatus, remoteStreams, outgoing := map[], map[], map[], [];
      links := map[];
    }

    /**
     * createPeer: the role and the new peer are recorded under the same id.
     * Both callers create a peer only for an id that has none.
     */
    method CreatePeer(userId: UserId, isInitiator: bool) returns (peer: Peer)
      requires Valid() && userId !in peers
      modifies this
      ensures Valid() && fresh(peer) && peer.initiator == isInitiator
      ensures peers == old(peers)[userId := peer]
      ensures initiatorStatus == old(initiatorStatus)[userId := isInitiator]
      ensures links == old(links)[userId := FreshLink(isInitiator)]
      ensures remoteStreams == old(remoteStreams) && outgoing == old(outgoing)
    {
      peer := new Peer(isInitiator);
      initiatorStatus, peers, links :=
        initiatorStatus[userId := isInitiator], peers[userId := peer], links[userId := FreshLink(isInitiator)];
    }

    /**
     * removePeer, also what a peer's `error` and `close` events call: if
     * `userId` has a peer, that peer is destroyed and its three entries are
     * removed together; otherwise nothing changes.
     */
    method RemovePeer(userId: UserId)
      requires Valid()
      modifies this, if userId in peers then {peers[userId]} else {}
      ensures Valid()
      ensures links == Remove(old(links), userId)
      ensures peers == old(peers) - {userId}
      ensures userId in old(peers) ==> old(peers)[userId].destroyed
      ensures userId !in old(peers) ==> links == old(links) && remoteStreams == old(remoteStreams)
      ensures outgoing == old(outgoing)
    {
      if userId in peers {
        peers[userId].Destroy();
        peers := peers - {userId};
        initiatorStatus := initiatorStatus - {userId};
        remoteStreams := remoteStreams - {userId};
        links := Remove(links, userId);
      }
    }

    /** handleUserConnected */
    method HandleUserConnected(userId: UserId)
      requires Valid()
      modifies this
      ensures Valid()
      ensures links == UserConnected(old(links), userId)
      ensures userId in old(peers) ==> peers == old(peers)
      ensures userId !in old(peers) ==>
                && userId in peers && peers == old(peers)[userId := peers[userId]]
                && fresh(peers[userId]) && peers[userId].initiator
      ensures outgoing == old(outgoing)
    {
      if userId !in peers {
        var _ := CreatePeer(userId, true);
      }
    }

    /** handleReceiveSignal, with JSON.parse's outcome given as `parsed`. */
    method HandleReceiveSignal(userId: UserId, parsed: Parsed)
      requires Valid()
      modifies this, peers.Values
      ensures Valid()
      ensures links == ReceiveSignal(old(links), userId, parsed)
      ensures parsed.ParsedValue? && userId !in old(peers) ==>
                && userId in peers && peers == old(peers)[userId := peers[userId]]
                && fresh(peers[userId]) && !peers[userId].initiator
      ensures parsed.ParsedValue? && userId in old(peers) ==> peers == old(peers)
      ensures !parsed.ParsedValue? ==> peers == old(peers) - {userId}
      ensures !parsed.ParsedValue? && userId in old(peers) ==> old(peers)[userId].destroyed
      ensures outgoing == old(outgoing)
    {
      match parsed
      case Unparseable =>
        RemovePeer(userId);
      case ParsedNull =>
        if userId !in peers {
          var p := CreatePeer(userId, false);
          AddThenDrop(old(peers), userId, p);
        }
        RemovePeer(userId);
      case ParsedValue(data) =>
        AcceptSignal(userId, data);
    }

    /** The path of handleReceiveSignal for a parsed message: find or create the sender's peer, then gate. */
    method AcceptSignal(userId: UserId, data: SignalData)
      requires Valid()
      modifies this, peers.Values
      ensures Valid()
      ensures links == ReceiveSignal(old(links), userId, ParsedValue(data))
      ensures userId !in old(peers) ==>
                && userId in peers && peers == old(peers)[userId := peers[userId]]
                && fresh(peers[userId]) && !peers[userId].initiator
      ensures userId in old(peers) ==> peers == old(peers)
      ensures outgoing == old(outgoing)
    {
      if userId !in peers {
        var _ := CreatePeer(userId, false);
      }
      SignalIfAllowed(userId, data);
    }

    /** The glare gate of handleReceiveSignal, applied to the peer `userId` now has. */
    method SignalIfAllowed(userId: UserId, data: SignalData)
      requires Valid() && userId in peers
      modifies this, peers[userId]
      ensures Valid() && peers == old(peers) && outgoing == old(outgoing)
      ensures links == Deliver(old(links), userId, data)
    {
      var peer := peers[userId];
      var stored := if userId in initiatorStatus then Some(initiatorStatus[userId]) else None;
      var apply := false;
      if data.tag == Some("offer") && stored != Some(true) {
        apply := true;
      } else if data.tag == Some("answer") && stored == Some(true) {
        apply := true;
      } else if data.tag == Some("candidate") {
        apply := true;
      }
      assert apply == Gate(data.tag, Some(links[userId].initiator));
      if apply {
        peer.Signal(data);
      }
      links := Deliver(links, userId, data);
      forall id | id in peers
        ensures links[id] == Link(initiatorStatus[id], peers[id].applied,
                                  if id in remoteStreams then Some(remoteStreams[id]) else None)
      {
        if id != userId {
          assert peers[id] != peer;
        }
      }
    }

    /** handleUserDisconnected */
    method HandleUserDisconnected(userId: UserId)
      requires Valid()
      modifies this, peers.Values
      ensures Valid()
      ensures links == Remove(old(links), userId)
      ensures peers == old(peers) - {userId}
      ensures userId in old(peers) ==> old(peers)[userId].destroyed
      ensures outgoing == old(outgoing)
    {
      RemovePeer(userId);
    }

    /** A live peer's `stream` event: the remote stream is stored under its id. */
    method OnRemoteStream(userId: UserId, stream: MediaStream)
      requires Valid() && userId in peers
      modifies this
      ensures Valid() && peers == old(peers)
      ensures links == StreamArrived(old(links), userId, stream)
      ensures outgoing == old(outgoing)
    {
      remoteStreams, links := remoteStreams[userId := stream], StreamArrived(links, userId, stream);
    }

    /** A live peer's `signal` event: the serialized signal is sent through the hub to that peer's id. */
    method OnLocalSignal(userId: UserId, signal: string)
      requires Valid() && userId in peers
      modifies this
      ensures Valid() && peers == old(peers) && links == old(links)
      ensures outgoing == old(outgoing) + [SendSignal(signal, roomId, userId)]
    {
      outgoing := outgoing + [SendSignal(signal, roomId, userId)];
    }
  }
}
