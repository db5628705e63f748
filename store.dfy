/**
 * The app's zustand store (mobile/src/store/index.ts). Every action hands
 * `set` a partial state, which zustand merges shallowly over the current one;
 * here that merge is `Set`, and each action is a function from the old state
 * to the new one. The `persist` middleware saves what `Partialize` keeps.
 */
module Store {
  import opened Wrappers
  import opened AppTypes

  datatype AppState = AppState(
    user: Option<User>,
    isAuthenticated: bool,
    availableAgents: seq<Agent>,
    selectedAgent: Option<Agent>,
    conversations: seq<Conversation>,
    currentConversation: Option<Conversation>,
    isVoiceMode: bool,
    isSettingsOpen: bool)

  /** The state the store is created with. */
  const Initial := AppState(None, false, [], None, [], None, true, false)

  /** A `Partial<AppState>`: a field that is `None` is absent from the object. */
  datatype StatePatch = StatePatch(
    user: Option<Option<User>>,
    isAuthenticated: Option<bool>,
    availableAgents: Option<seq<Agent>>,
    selectedAgent: Option<Option<Agent>>,
    conversations: Option<seq<Conversation>>,
    currentConversation: Option<Option<Conversation>>,
    isVoiceMode: Option<bool>,
    isSettingsOpen: Option<bool>)

  const Unchanged := StatePatch(None, None, None, None, None, None, None, None)

  /** zustand's `set(partial)`: the fields present in the patch replace the state's. */
  function Set(s: AppState, p: StatePatch): AppState {
    AppState(
      p.user.GetOr(s.user),
      p.isAuthenticated.GetOr(s.isAuthenticated),
      p.availableAgents.GetOr(s.availableAgents),
      p.selectedAgent.GetOr(s.selectedAgent),
      p.conversations.GetOr(s.conversations),
      p.currentConversation.GetOr(s.currentConversation),
      p.isVoiceMode.GetOr(s.isVoiceMode),
      p.isSettingsOpen.GetOr(s.isSettingsOpen))
  }

  /** `setUser`: replaces `user` and nothing else. */
  function SetUser(s: AppState, user: Option<User>): (r: AppState)
    ensures r == s.(user := user)
  {
    Set(s, Unchanged.(user := Some(user)))
  }

  /** `setAuthenticated`: replaces `isAuthenticated` and nothing else. */
  function SetAuthenticated(s: AppState, authenticated: bool): (r: AppState)
    ensures r == s.(isAuthenticated := authenticated)
  {
    Set(s, Unchanged.(isAuthenticated := Some(authenticated)))
  }

  /** `setAvailableAgents`: replaces `availableAgents` and nothing else. */
  function SetAvailableAgents(s: AppState, agents: seq<Agent>): (r: AppState)
    ensures r == s.(availableAgents := agents)
  {
    Set(s, Unchanged.(availableAgents := Some(agents)))
  }

  /** `setSelectedAgent`: replaces `selectedAgent` and nothing else. */
  function SetSelectedAgent(s: AppState, agent: Option<Agent>): (r: AppState)
    ensures r == s.(selectedAgent := agent)
  {
    Set(s, Unchanged.(selectedAgent := Some(agent)))
  }

  /** `setCurrentConversation`: replaces `currentConversation` and nothing else. */
  function SetCurrentConversation(s: AppState, conversation: Option<Conversation>): (r: AppState)
    ensures r == s.(currentConversation := conversation)
  {
    Set(s, Unchanged.(currentConversation := Some(conversation)))
  }

  /** `setVoiceMode`: replaces `isVoiceMode` and nothing else. */
  function SetVoiceMode(s: AppState, enabled: bool): (r: AppState)
    ensures r == s.(isVoiceMode := enabled)
  {
    Set(s, Unchanged.(isVoiceMode := Some(enabled)))
  }

  /** `setSettingsOpen`: replaces `isSettingsOpen` and nothing else. */
  function SetSettingsOpen(s: AppState, open: bool): (r: AppState)
    ensures r == s.(isSettingsOpen := open)
  {
    Set(s, Unchanged.(isSettingsOpen := Some(open)))
  }

  /** `addConversation`: the new conversation goes first and the old list follows it. */
  function AddConversation(s: AppState, conversation: Conversation): (r: AppState)
    ensures |r.conversations| == |s.conversations| + 1
    ensures r.conversations[0] == conversation && r.conversations[1..] == s.conversations
    ensures r == s.(conversations := r.conversations)
  {
    Set(s, Unchanged.(conversations := Some([conversation] + s.conversations)))
  }

  /** A `Partial<Conversation>`; for the optional fields, `Some(None)` sets them to `undefined`. */
  datatype ConversationPatch = ConversationPatch(
    id: Option<string>,
    agentId: Option<string>,
    agentName: Option<string>,
    messages: Option<seq<Message>>,
    startTime: Option<int>,
    endTime: Option<Option<int>>,
    duration: Option<Option<int>>,
    status: Option<ConversationStatus>)

  /** `{ ...conv, ...updates }`. */
  function Merge(c: Conversation, u: ConversationPatch): Conversation {
    Conversation(
      u.id.GetOr(c.id),
      u.agentId.GetOr(c.agentId),
      u.agentName.GetOr(c.agentName),
      u.messages.GetOr(c.messages),
      u.startTime.GetOr(c.startTime),
      u.endTime.GetOr(c.endTime),
      u.duration.GetOr(c.duration),
      u.status.GetOr(c.status))
  }

  /** Merging the same updates twice is merging them once, and the fields they omit are kept. */
  lemma MergeIdempotent(c: Conversation, u: ConversationPatch)
    ensures Merge(Merge(c, u), u) == Merge(c, u)
    ensures u.id.None? ==> Merge(c, u).id == c.id
    ensures u == ConversationPatch(None, None, None, None, None, None, None, None) ==> Merge(c, u) == c
  {
  }

  /** The conversation list with `updates` merged over every entry whose id is `id`. */
  function MapUpdate(conversations: seq<Conversation>, id: string, u: ConversationPatch): (r: seq<Conversation>)
    ensures |r| == |conversations|
    ensures forall i :: 0 <= i < |r| && conversations[i].id != id ==> r[i] == conversations[i]
    ensures forall i :: 0 <= i < |r| && conversations[i].id == id ==> r[i] == Merge(conversations[i], u)
  {
    if conversations == [] then []
    else
      var c := conversations[0];
      [if c.id == id then Merge(c, u) else c] + MapUpdate(conversations[1..], id, u)
  }

  /** `updateConversation`. */
  function UpdateConversation(s: AppState, id: string, u: ConversationPatch): (r: AppState)
    ensures r.conversations == MapUpdate(s.conversations, id, u)
    ensures s.currentConversation.Some? && s.currentConversation.value.id == id ==>
      r.currentConversation == Some(Merge(s.currentConversation.value, u))
    ensures s.currentConversation.None? || s.currentConversation.value.id != id ==>
      r.currentConversation == s.currentConversation
    ensures r == s.(conversations := r.conversations, currentConversation := r.currentConversation)
  {
    var current :=
      if s.currentConversation.Some? && s.currentConversation.value.id == id
      then Some(Merge(s.currentConversation.value, u))
      else s.currentConversation;
    Set(s, Unchanged.(conversations := Some(MapUpdate(s.conversations, id, u)), currentConversation := Some(current)))
  }

  /** Applying the same update twice leaves the state as applying it once. */
  lemma {:induction false} UpdateConversationIdempotent(s: AppState, id: string, u: ConversationPatch)
    ensures UpdateConversation(UpdateConversation(s, id, u), id, u) == UpdateConversation(s, id, u)
  {
    var once := MapUpdate(s.conversations, id, u);
    var twice := MapUpdate(once, id, u);
    forall i | 0 <= i < |twice|
      ensures twice[i] == once[i]
    {
      MergeIdempotent(s.conversations[i], u);
    }
    MergeIdempotent(s.currentConversation.GetOr(Conversation("", "", "", [], 0, None, None, Active)), u);
  }

  /** A `Partial<UserPreferences>`; `Some(None)` clears the optional preferred agent. */
  datatype PreferencesPatch = PreferencesPatch(
    preferredAgent: Option<Option<string>>,
    voiceEnabled: Option<bool>,
    textModeEnabled: Option<bool>,
    notificationsEnabled: Option<bool>,
    audioQuality: Option<AudioQuality>,
    language: Option<string>)

  /** `{ ...user.preferences, ...preferences }`. */
  function MergePreferences(p: UserPreferences, u: PreferencesPatch): UserPreferences {
    UserPreferences(
      u.preferredAgent.GetOr(p.preferredAgent),
      u.voiceEnabled.GetOr(p.voiceEnabled),
      u.textModeEnabled.GetOr(p.textModeEnabled),
      u.notificationsEnabled.GetOr(p.notificationsEnabled),
      u.audioQuality.GetOr(p.audioQuality),
      u.language.GetOr(p.language))
  }

  /**
   * `updateUserPreferences`: with a signed-in user the partial preferences are
   * merged over theirs and the rest of the user is kept; with none, `user`
   * stays null. Nothing else in the state changes.
   */
  function UpdateUserPreferences(s: AppState, u: PreferencesPatch): (r: AppState)
    ensures s.user.None? ==> r.user.None?
    ensures s.user.Some? ==> r.user == Some(s.user.value.(preferences := MergePreferences(s.user.value.preferences, u)))
    ensures r == s.(user := r.user)
  {
    var user := match s.user
      case Some(current) => Some(current.(preferences := MergePreferences(current.preferences, u)))
      case None => None;
    Set(s, Unchanged.(user := Some(user)))
  }

  /** What the `persist` middleware writes to storage. */
  datatype Persisted = Persisted(
    user: Option<User>,
    selectedAgent: Option<Agent>,
    conversations: seq<Conversation>,
    isVoiceMode: bool)

  /** `partialize`. */
  function Partialize(s: AppState): Persisted {
    Persisted(s.user, s.selectedAgent, s.conversations, s.isVoiceMode)
  }

  /** The default `persist` merge on start-up: `{ ...currentState, ...persistedState }`. */
  function Rehydrate(s: AppState, p: Persisted): AppState {
    s.(user := p.user, selectedAgent := p.selectedAgent, conversations := p.conversations, isVoiceMode := p.isVoiceMode)
  }

  /** `partialize` keeps exactly `user`, `selectedAgent`, `conversations` and `isVoiceMode`. */
  lemma PartializeKeepsExactly(s: AppState, t: AppState)
    ensures Partialize(s) == Partialize(t) <==>
      s.user == t.user && s.selectedAgent == t.selectedAgent &&
      s.conversations == t.conversations && s.isVoiceMode == t.isVoiceMode
  {
  }

  /**
   * Saving and restoring brings back every persisted field and leaves the
   * others as the store started with them.
   */
  lemma RehydrateRestores(start: AppState, saved: AppState)
    ensures Partialize(Rehydrate(start, Partialize(saved))) == Partialize(saved)
    ensures Rehydrate(start, Partialize(saved)).isAuthenticated == start.isAuthenticated
    ensures Rehydrate(start, Partialize(saved)).availableAgents == start.availableAgents
    ensures Rehydrate(start, Partialize(saved)).currentConversation == start.currentConversation
    ensures Rehydrate(start, Partialize(saved)).isSettingsOpen == start.isSettingsOpen
  {
  }

  /** The setters of fields that are not persisted never change what is saved. */
  lemma TransientSettersNotPersisted(s: AppState, b: bool, agents: seq<Agent>, c: Option<Conversation>)
    ensures Partialize(SetAuthenticated(s, b)) == Partialize(s)
    ensures Partialize(SetAvailableAgents(s, agents)) == Partialize(s)
    ensures Partialize(SetCurrentConversation(s, c)) == Partialize(s)
    ensures Partialize(SetSettingsOpen(s, b)) == Partialize(s)
  {
  }
}
