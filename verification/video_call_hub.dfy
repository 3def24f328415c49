/**
 * The hub class itself (backend/Hubs/VideoCallHub.cs). The fields stand for
 * the state the hub reaches through SignalR: the group table (`Groups`),
 * the live connections addressed by `Clients`, the sends it issues and its
 * log. The caller's `Context.ConnectionId` is the `caller` parameter. Each
 * method is proved to perform exactly the matching transition of module
 * Relay (OnConnectedAsync: Connect, OnDisconnectedAsync: Disconnect, the
 * others the function of the same name).
 */
module Backend {
  import opened Wrappers
  import Classifier
  import opened Relay

  class VideoCallHub {
    var groups: map<RoomId, set<ConnectionId>>
    var connected: set<ConnectionId>
    var outbox: seq<Send>
    var log: seq<LogEntry>

    function State(): HubState
      reads this
    {
      HubState(groups, connected, outbox, log)
    }

    /**
     * The hub's state as the transport holds it when the server starts:
     * no groups, no connections, nothing sent, nothing logged. (SignalR
     * builds a hub object per invocation and the C# constructor only keeps
     * the logger; the tables live in the transport.)
     */
    constructor ()
      ensures State() == Empty
    {
      groups, connected, outbox, log := map[], {}, [], [];
    }

    method OnConnectedAsync(caller: ConnectionId)
      requires caller !in connected
      modifies this
      ensures State() == Connect(old(State()), caller)
    {
      connected := connected + {caller};
      log := log + [ClientConnected(caller)];
    }

    method JoinRoom(caller: ConnectionId, roomId: RoomId)
      requires caller in connected
      modifies this
      ensures State() == Relay.JoinRoom(old(State()), caller, roomId)
    {
      groups := groups[roomId := Members(groups, roomId) + {caller}];
      log := log + [JoinedRoom(caller, roomId)];
      outbox := outbox + [Send(groups[roomId] * connected, UserConnected(caller))];
    }

    method SendSignal(caller: ConnectionId, signal: string, roomId: RoomId, userId: ConnectionId)
      requires caller in connected
      modifies this
      ensures State() == Relay.SendSignal(old(State()), caller, signal, roomId, userId)
    {
      var signalType := Classifier.ClassifySignal(signal);
      log := log + [SignalRelayed(caller, userId, roomId, signalType)];
      outbox := outbox + [Send({userId} * connected, ReceiveSignal(signal, caller))];
    }

    method OnDisconnectedAsync(caller: ConnectionId, exception: Option<Exception>)
      requires caller in connected
      modifies this
      ensures State() == Disconnect(old(State()), caller, exception)
    {
      // The transport has aborted the connection before the hub runs.
      connected := connected - {caller};
      log := log + [ClientDisconnected(caller, DisconnectReason(exception))];
      outbox := outbox + [Send(connected, UserDisconnected(caller))];
      // After the hub returns, the transport drops the caller from every group.
      groups := map r | r in groups :: groups[r] - {caller};
    }
  }
}
