/**
 * The connection and call state machine of the mobile app's LiveKit service
 * (mobile/src/services/livekit.ts). The native audio session is outside the
 * model: whether starting or stopping it succeeds is a parameter, and so is
 * each of the three clock readings taken while a room is made.
 */
module LiveKit {
  import opened Wrappers
  import opened Text
  import opened AppTypes

  /** The error an awaited call throws, rethrown to the caller. */
  datatype Outcome<T> = Success(value: T) | Thrown(error: string)

  /** A room; `disconnect` switches `isActive` off on the object the caller holds. */
  class Room {
    const id: string
    const name: string
    const agentId: string
    const participantId: string
    const token: string
    const serverUrl: string
    const createdAt: int
    var isActive: bool

    constructor (id: string, name: string, agentId: string, participantId: string,
                 token: string, serverUrl: string, createdAt: int)
      ensures this.id == id && this.name == name && this.agentId == agentId
      ensures this.participantId == participantId && this.token == token
      ensures this.serverUrl == serverUrl && this.createdAt == createdAt
      ensures isActive
    {
      this.id := id;
      this.name := name;
      this.agentId := agentId;
      this.participantId := participantId;
      this.token := token;
      this.serverUrl := serverUrl;
      this.createdAt := createdAt;
      isActive := true;
    }
  }

  class LiveKitService {
    var currentRoom: Room?
    var connectionState: ConnectionState
    var callState: CallState

    /** The private constructor: no room, disconnected, idle. */
    constructor ()
      ensures currentRoom == null && connectionState == Disconnected && callState == Idle
      ensures !IsConnected() && !IsInCall()
    {
      currentRoom := null;
      connectionState := Disconnected;
      callState := Idle;
    }

    /**
     * `connectToAgent`. When the audio session starts, a new active room for
     * `agent` becomes the current room and both states are connected; when it
     * fails, both states are failed, the current room is the one there was
     * before, and the error is thrown again. The room's id, its participant
     * id and its creation time come from three separate clock readings.
     */
    method ConnectToAgent(agent: Agent, serverUrl: string, token: string,
                          roomMs: int, participantMs: int, createdAtMs: int, audioStart: Outcome<()>)
      returns (result: Outcome<Room>)
      modifies this
      ensures audioStart.Success? ==>
        && result.Success? && fresh(result.value)
        && result.value.agentId == agent.id && result.value.token == token
        && result.value.serverUrl == serverUrl && result.value.isActive
        && result.value.id == "room_" + IntToString(roomMs)
        && result.value.participantId == "user_" + IntToString(participantMs)
        && result.value.createdAt == createdAtMs
        && result.value.name == "Conversation with " + agent.name
        && currentRoom == result.value
        && connectionState == Connected && callState == CallConnected
      ensures audioStart.Success? ==> IsConnected() && IsInCall()
      ensures audioStart.Thrown? ==> !IsConnected() && !IsInCall()
      ensures audioStart.Thrown? ==>
        && result == Thrown(audioStart.error)
        && currentRoom == old(currentRoom)
        && connectionState == ConnectionFailed && callState == CallFailed
    {
      connectionState := Connecting;
      callState := Calling;
      if audioStart.Thrown? {
        connectionState := ConnectionFailed;
        callState := CallFailed;
        return Thrown(audioStart.error);
      }
      var room := new Room("room_" + IntToString(roomMs), "Conversation with " + agent.name, agent.id,
                           "user_" + IntToString(participantMs), token, serverUrl, createdAtMs);
      currentRoom := room;
      connectionState := Connected;
      callState := CallConnected;
      result := Success(room);
    }

    /**
     * `disconnect`. The room there was is marked inactive and dropped before
     * the audio session is stopped; if stopping it fails, the error is thrown
     * again and both states stay as they were.
     */
    method Disconnect(audioStop: Outcome<()>) returns (result: Outcome<()>)
      modifies this, currentRoom
      ensures old(currentRoom) != null ==> !old(currentRoom).isActive
      ensures currentRoom == null
      ensures audioStop.Success? ==>
        result.Success? && connectionState == Disconnected && callState == Ended
      ensures audioStop.Success? ==> !IsConnected() && !IsInCall()
      ensures audioStop.Thrown? ==>
        && result == Thrown(audioStop.error)
        && connectionState == old(connectionState) && callState == old(callState)
      ensures audioStop.Thrown? ==> IsConnected() == old(IsConnected()) && IsInCall() == old(IsInCall())
    {
      if currentRoom != null {
        currentRoom.isActive := false;
        currentRoom := null;
      }
      if audioStop.Thrown? {
        return Thrown(audioStop.error);
      }
      connectionState := Disconnected;
      callState := Ended;
      result := Success(());
    }

    /** `isConnected`. */
    function IsConnected(): (r: bool)
      reads this
      ensures r <==> connectionState == Connected
    {
      connectionState == Connected
    }

    /** `isInCall`. */
    function IsInCall(): (r: bool)
      reads this
      ensures r <==> callState == CallConnected
    {
      callState == CallConnected
    }
  }

  /** The class's static `instance` slot. */
  class Registry {
    var instance: LiveKitService?

    constructor ()
      ensures instance == null
    {
      instance := null;
    }

    /**
     * `getInstance`: the first call creates the service in its initial state,
     * every later call returns that same object.
     */
    method GetInstance() returns (service: LiveKitService)
      modifies this
      ensures old(instance) != null ==> service == old(instance)
      ensures old(instance) == null ==>
        fresh(service) && service.currentRoom == null
        && service.connectionState == Disconnected && service.callState == Idle
      ensures instance == service
    {
      if instance == null {
        instance := new LiveKitService();
      }
      service := instance;
    }
  }

  /** Two calls to `getInstance` in a row hand out the same service. */
  method GetInstanceTwice(registry: Registry) returns (first: LiveKitService, second: LiveKitService)
    modifies registry
    ensures first == second
  {
    first := registry.GetInstance();
    second := registry.GetInstance();
  }
}
