/**
 * The records the mobile app passes around (mobile/src/types/index.ts).
 * Dates are milliseconds since the epoch; a field marked optional in the
 * TypeScript interface is an `Option`.
 */
module AppTypes {
  import opened Wrappers

  datatype AgentStatus = Online | Offline | Busy

  datatype Agent = Agent(
    id: string,
    name: string,
    description: string,
    voice: Option<string>,
    avatar: Option<string>,
    capabilities: seq<string>,
    status: AgentStatus)

  datatype MessageKind = TextMessage | AudioMessage
  datatype Sender = FromUser | FromAgent

  /** A chat message; its free-form `metadata` record is not part of this model. */
  datatype Message = Message(
    id: string,
    roomId: string,
    content: string,
    kind: MessageKind,
    sender: Sender,
    timestamp: int)

  datatype ConversationStatus = Active | Completed | Failed

  datatype Conversation = Conversation(
    id: string,
    agentId: string,
    agentName: string,
    messages: seq<Message>,
    startTime: int,
    endTime: Option<int>,
    duration: Option<int>,
    status: ConversationStatus)

  datatype AudioQuality = Low | Medium | High

  datatype UserPreferences = UserPreferences(
    preferredAgent: Option<string>,
    voiceEnabled: bool,
    textModeEnabled: bool,
    notificationsEnabled: bool,
    audioQuality: AudioQuality,
    language: string)

  datatype User = User(
    id: string,
    email: string,
    displayName: string,
    avatar: Option<string>,
    preferences: UserPreferences)

  /** The `ConnectionState` union of string literals. */
  datatype ConnectionState = Disconnected | Connecting | Connected | Reconnecting | ConnectionFailed

  /** The `CallState` union of string literals. */
  datatype CallState = Idle | Calling | CallConnected | Ended | CallFailed
}
