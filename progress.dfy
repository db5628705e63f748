/**
 * The student's progress record of the tutor (`student_progress` in
 * security_plus_agent.py), each change the tutor makes to it as a function
 * from the old record to the new one, the texts built from it, and the
 * memory document it is saved as and loaded from.
 */
module Tracker {
  import opened Wrappers
  import opened Text
  import opened Dict
  import opened QuestionBank
  import opened Knowledge
  import opened Quiz

  /** A study session; `endTime` is set when it is ended. */
  datatype Session = Session(
    sessionId: string,
    startTime: string,
    previousSession: Option<Session>,
    endTime: Option<string>)

  /** One entry of `quiz_history`. */
  datatype QuizRecord = QuizRecord(
    timestamp: string,
    score: real,
    correct: nat,
    total: nat,
    questions: seq<Question>)

  /** `student_progress`; `currentSession` is `None` when the key is absent. */
  datatype Progress = Progress(
    questionsAnswered: nat,
    correctAnswers: nat,
    topicsCovered: set<string>,
    sessionsCompleted: seq<Session>,
    lastSession: Option<Session>,
    currentSession: Option<Session>,
    currentDomain: Option<string>,
    currentTopic: Option<string>,
    quizHistory: seq<QuizRecord>,
    weakAreas: seq<string>,
    strongAreas: seq<string>)

  /** The record a new tutor starts with. */
  const Defaults := Progress(0, 0, {}, [], None, None, None, None, [], [], [])

  function TotalAsked(history: seq<QuizRecord>): nat {
    if history == [] then 0 else TotalAsked(history[..|history| - 1]) + history[|history| - 1].total
  }

  function TotalRight(history: seq<QuizRecord>): nat {
    if history == [] then 0 else TotalRight(history[..|history| - 1]) + history[|history| - 1].correct
  }

  /**
   * What the tutor keeps true of the record: the counters are the sums over
   * the quiz history, no quiz has more right answers than questions, and
   * neither area list holds a domain twice.
   */
  predicate Consistent(p: Progress) {
    && p.questionsAnswered == TotalAsked(p.quizHistory)
    && p.correctAnswers == TotalRight(p.quizHistory)
    && (forall i :: 0 <= i < |p.quizHistory| ==> p.quizHistory[i].correct <= p.quizHistory[i].total)
    && NoDuplicates(p.weakAreas)
    && NoDuplicates(p.strongAreas)
  }

  /** Never more right answers than answers. */
  lemma {:induction false} ConsistentBounds(p: Progress)
    requires Consistent(p)
    ensures p.correctAnswers <= p.questionsAnswered
  {
    HistoryBounds(p.quizHistory);
  }

  lemma {:induction false} HistoryBounds(history: seq<QuizRecord>)
    requires forall i :: 0 <= i < |history| ==> history[i].correct <= history[i].total
    ensures TotalRight(history) <= TotalAsked(history)
    decreases |history|
  {
    if history != [] {
      HistoryBounds(history[..|history| - 1]);
    }
  }

  // Topics.

  /** The entry `f"{domain}_{topic}"` of `topics_covered`. */
  function TopicKey(domain: string, topic: string): string {
    domain + "_" + topic
  }

  /** `topics_covered.add(key)`. */
  function Cover(p: Progress, key: string): Progress {
    p.(topicsCovered := p.topicsCovered + {key})
  }

  /** Covering a topic and making it the current domain and topic. */
  function Focus(p: Progress, domain: string, topic: string): Progress {
    Cover(p, TopicKey(domain, topic)).(currentDomain := Some(domain), currentTopic := Some(topic))
  }

  /**
   * Covering a topic adds exactly its key, a second time changes nothing,
   * and nothing else in the record changes.
   */
  lemma CoverAddsKey(p: Progress, key: string)
    ensures key in Cover(p, key).topicsCovered
    ensures forall k :: k in Cover(p, key).topicsCovered <==> k in p.topicsCovered || k == key
    ensures Cover(Cover(p, key), key) == Cover(p, key)
    ensures key in p.topicsCovered ==> Cover(p, key) == p
    ensures Cover(p, key).(topicsCovered := p.topicsCovered) == p
  {
  }

  /** Focusing twice on the same topic is focusing once. */
  lemma FocusIdempotent(p: Progress, domain: string, topic: string)
    ensures Focus(Focus(p, domain, topic), domain, topic) == Focus(p, domain, topic)
    ensures Focus(p, domain, topic).currentDomain == Some(domain)
    ensures Focus(p, domain, topic).currentTopic == Some(topic)
  {
  }

  // Grading.

  /**
   * The record after a graded quiz: the answered and right counters grow,
   * one history entry is appended, and the areas are updated.
   */
  function Graded(p: Progress, answers: seq<string>, quiz: seq<Question>, now: string): Progress
    requires |answers| == |quiz| && |quiz| > 0
  {
    var right := CountCorrect(answers, quiz);
    var areas := UpdateAreas(p.weakAreas, p.strongAreas, p.currentDomain, right, |quiz|);
    p.(questionsAnswered := p.questionsAnswered + |quiz|,
       correctAnswers := p.correctAnswers + right,
       quizHistory := p.quizHistory + [QuizRecord(now, Score(right, |quiz|), right, |quiz|, quiz)],
       weakAreas := areas.0,
       strongAreas := areas.1)
  }

  /** `Graded` as the grading loop and then the bookkeeping after it compute it. */
  lemma GradedSteps(p: Progress, answers: seq<string>, quiz: seq<Question>, now: string, right: nat)
    requires |answers| == |quiz| && |quiz| > 0 && right == CountCorrect(answers, quiz)
    ensures var counted := p.(questionsAnswered := p.questionsAnswered + |quiz|, correctAnswers := p.correctAnswers + right);
      var areas := UpdateAreas(counted.weakAreas, counted.strongAreas, counted.currentDomain, right, |quiz|);
      Graded(p, answers, quiz, now) ==
        counted.(quizHistory := counted.quizHistory + [QuizRecord(now, Score(right, |quiz|), right, |quiz|, quiz)],
                 weakAreas := areas.0, strongAreas := areas.1)
  {
  }

  /**
   * A graded quiz keeps the record consistent: the counters still add up
   * to the history, so the right answers never outnumber the answers.
   */
  lemma GradedKeepsConsistent(p: Progress, answers: seq<string>, quiz: seq<Question>, now: string)
    requires |answers| == |quiz| && |quiz| > 0
    requires Consistent(p)
    ensures Consistent(Graded(p, answers, quiz, now))
    ensures Graded(p, answers, quiz, now).correctAnswers <= Graded(p, answers, quiz, now).questionsAnswered
  {
    var q := Graded(p, answers, quiz, now);
    assert q.quizHistory[..|q.quizHistory| - 1] == p.quizHistory;
    UpdateAreasKeepsLists(p.weakAreas, p.strongAreas, p.currentDomain, CountCorrect(answers, quiz), |quiz|);
    ConsistentBounds(q);
  }

  /** A quiz answered all right adds its length to both counters, one answered all wrong to neither. */
  lemma GradedCounters(p: Progress, answers: seq<string>, quiz: seq<Question>, now: string)
    requires |answers| == |quiz| && |quiz| > 0
    ensures Graded(p, answers, quiz, now).questionsAnswered == p.questionsAnswered + |quiz|
    ensures (forall i :: 0 <= i < |quiz| ==> answers[i] == quiz[i].correct) <==>
      Graded(p, answers, quiz, now).correctAnswers == p.correctAnswers + |quiz|
    ensures (forall i :: 0 <= i < |quiz| ==> answers[i] != quiz[i].correct) <==>
      Graded(p, answers, quiz, now).correctAnswers == p.correctAnswers
  {
    AllCorrectIff(answers, quiz);
    NoneCorrectIff(answers, quiz);
  }

  // Sessions.

  /** `f"session_{len(sessions_completed) + 1}_{now}"`. */
  function SessionId(completed: nat, now: string): string {
    "session_" + NatToString(completed + 1) + "_" + now
  }

  /** `start_new_session`'s change: a new current session that remembers the last one. */
  function BeginSession(p: Progress, now: string): Progress {
    p.(currentSession := Some(Session(SessionId(|p.sessionsCompleted|, now), now, p.lastSession, None)))
  }

  /**
   * `end_session`'s change: with a current session, it is stamped, appended
   * to the completed sessions, becomes the last session and stops being
   * current; without one nothing changes.
   */
  function FinishSession(p: Progress, now: string): Progress {
    match p.currentSession
    case None => p
    case Some(s) =>
      var ended := s.(endTime := Some(now));
      p.(sessionsCompleted := p.sessionsCompleted + [ended], lastSession := Some(ended), currentSession := None)
  }

  /**
   * A session started at `start` and ended at `end` is the newest completed
   * session and the last session; it links to the session that was last
   * before it, and its id counts the sessions completed before it.
   */
  lemma SessionLifecycle(p: Progress, start: string, end: string)
    ensures var q := FinishSession(BeginSession(p, start), end);
      && |q.sessionsCompleted| == |p.sessionsCompleted| + 1
      && q.sessionsCompleted[..|p.sessionsCompleted|] == p.sessionsCompleted
      && q.lastSession == Some(q.sessionsCompleted[|p.sessionsCompleted|])
      && q.lastSession.value == Session(SessionId(|p.sessionsCompleted|, start), start, p.lastSession, Some(end))
      && q.currentSession.None?
      && q.(sessionsCompleted := p.sessionsCompleted, lastSession := p.lastSession, currentSession := p.currentSession) == p
  {
  }

  /** Ending when no session is current changes nothing. */
  lemma FinishWithoutSession(p: Progress, now: string)
    requires p.currentSession.None?
    ensures FinishSession(p, now) == p
  {
  }

  /** Every change the tutor makes keeps the record consistent. */
  lemma ChangesKeepConsistent(p: Progress, key: string, domain: string, topic: string, now: string)
    requires Consistent(p)
    ensures Consistent(Cover(p, key))
    ensures Consistent(Focus(p, domain, topic))
    ensures Consistent(BeginSession(p, now))
    ensures Consistent(FinishSession(p, now))
  {
  }

  // The greetings start with a short separate literal so that a proof can
  // read their first characters without unfolding the whole text
  // (FirstGreetingIff tells them apart by their ninth character).

  const FirstGreeting := "Welcome to " + "your first Security+ session! I'm excited to help you prepare for the exam. Let's get started!"

  const WelcomeBack := "Welcome back! " + "[break:1s] I can see we've been making progress. "

  /** `knowledge_base.get(key, {}).get('name', fallback)`. */
  function DomainNameOr(catalog: Catalog, key: string, fallback: string): (r: string)
    ensures Get(catalog, key).Some? ==> r == Get(catalog, key).value.name
    ensures Get(catalog, key).None? ==> r == fallback
  {
    match Get(catalog, key)
    case Some(domain) => domain.name
    case None => fallback
  }

  function WelcomeBackBody(p: Progress, catalog: Catalog): string {
    "You've completed " + NatToString(|p.sessionsCompleted|) + " previous sessions and covered "
    + NatToString(|p.topicsCovered|) + " topics. "
    + (if Truthy(p.currentDomain) && Truthy(p.currentTopic)
       then "We were working on " + DomainNameOr(catalog, p.currentDomain.value, "our last topic") + ". "
       else "")
    + "Let's pick up right where we left off! [break:2s]"
    + (if p.weakAreas != [] then "I notice we might want to review some areas that need more practice. " else "")
    + "Are you ready to continue with today's session?"
  }

  /** What `start_new_session` says. */
  function Greeting(p: Progress, catalog: Catalog): string {
    if p.lastSession.Some? then WelcomeBack + WelcomeBackBody(p, catalog) else FirstGreeting
  }

  /** The first-session greeting is given exactly when there is no last session. */
  lemma FirstGreetingIff(p: Progress, catalog: Catalog)
    ensures Greeting(p, catalog) == FirstGreeting <==> p.lastSession.None?
  {
    if p.lastSession.Some? {
      assert (WelcomeBack + WelcomeBackBody(p, catalog))[8] == 'b';
      assert FirstGreeting[8] == 't';
    }
  }

  // Picking up where the student left off.

  // Split for the same reason as the greetings: ContinueNamesFocus reads its first character.
  const NoPreviousTopic := "I " + "don't see a previous topic. Let's start fresh! What domain would you like to study?"

  /** What `continue_last_topic` says: the current topic and domain, or the domain alone. */
  function ContinueText(p: Progress): string {
    if !Truthy(p.currentDomain) then NoPreviousTopic
    else if Truthy(p.currentTopic) then
      "Let's continue with " + Display(p.currentTopic.value) + " in " + Display(p.currentDomain.value)
      + ". [break:1s] We'll pick up right where we left off and cover some new material."
    else
      "Let's continue with " + Display(p.currentDomain.value)
      + ". [break:1s] We'll move on to a new topic in this domain."
  }

  /**
   * Without a current domain the student is asked to start fresh; otherwise
   * the reply names the current domain, and the current topic when there is one.
   */
  lemma ContinueNamesFocus(p: Progress)
    ensures ContinueText(p) == NoPreviousTopic <==> !Truthy(p.currentDomain)
    ensures Truthy(p.currentDomain) ==> Contains(ContinueText(p), Display(p.currentDomain.value))
    ensures Truthy(p.currentDomain) && Truthy(p.currentTopic) ==>
      Contains(ContinueText(p), Display(p.currentTopic.value))
  {
    if Truthy(p.currentDomain) {
      var domain := Display(p.currentDomain.value);
      var lead := "Let's continue with ";
      assert NoPreviousTopic[0] == 'I';
      if Truthy(p.currentTopic) {
        var topic := Display(p.currentTopic.value);
        var tail := ". [break:1s] We'll pick up right where we left off and cover some new material.";
        assert ContinueText(p) == lead + topic + (" in " + domain + tail);
        assert ContinueText(p)[0] == 'L';
        ContainsMiddle(lead, topic, " in " + domain + tail);
        assert ContinueText(p) == (lead + topic + " in ") + domain + tail;
        ContainsMiddle(lead + topic + " in ", domain, tail);
      } else {
        var tail := ". [break:1s] We'll move on to a new topic in this domain.";
        assert ContinueText(p) == lead + domain + tail;
        assert ContinueText(p)[0] == 'L';
        ContainsMiddle(lead, domain, tail);
      }
    }
  }

  // Summaries.

  /** The accuracy line of `get_progress`. */
  function AccuracyLine(p: Progress): string {
    if p.questionsAnswered > 0 then "Accuracy: " + OneDecimal(p.correctAnswers, p.questionsAnswered) + "%\n"
    else "Accuracy: N/A\n"
  }

  /** Accuracy is "N/A" exactly when no question has been answered. */
  lemma AccuracyUnavailableIff(p: Progress)
    ensures AccuracyLine(p) == "Accuracy: N/A\n" <==> p.questionsAnswered == 0
  {
    if p.questionsAnswered > 0 {
      var head := "Accuracy: " + OneDecimal(p.correctAnswers, p.questionsAnswered);
      var line := head + "%\n";
      assert line[|line| - 2] == '%';
      assert "Accuracy: N/A\n"[12] == 'A';
    }
  }

  /** What `get_progress` says. */
  function ProgressReport(p: Progress): string {
    "📈 Your Progress:\n\n"
    + "Questions Answered: " + NatToString(p.questionsAnswered) + "\n"
    + "Correct: " + NatToString(p.correctAnswers) + "\n"
    + AccuracyLine(p)
    + "\nTopics Covered: " + NatToString(|p.topicsCovered|) + "\n"
  }

  const NoSessionsYet := "This is your first session! Let's get started."

  /** How many of the most recent sessions the history lists. */
  const RecentCount := 3

  /** `f"• Session on {start_time[:10]}\n"`: the date part of an ISO timestamp. */
  function SessionLine(s: Session): string {
    "• Session on " + Take(s.startTime, 10) + "\n"
  }

  function SessionLines(sessions: seq<Session>): string {
    if sessions == [] then "" else SessionLines(sessions[..|sessions| - 1]) + SessionLine(sessions[|sessions| - 1])
  }

  function HistoryHeader(p: Progress): string {
    "📚 Your Learning History:\n\n"
    + "Total Sessions: " + NatToString(|p.sessionsCompleted|) + "\n"
    + "Topics Covered: " + NatToString(|p.topicsCovered|) + "\n"
    + "Questions Answered: " + NatToString(p.questionsAnswered) + "\n"
    + (if p.questionsAnswered > 0
       then "Overall Accuracy: " + OneDecimal(p.correctAnswers, p.questionsAnswered) + "%\n" else "")
    + (if p.weakAreas != [] then "\nAreas to Review: " + Join(p.weakAreas, ", ") + "\n" else "")
    + (if p.strongAreas != [] then "Strong Areas: " + Join(p.strongAreas, ", ") + "\n" else "")
    + "\nRecent Sessions:\n"
  }

  /** What `get_session_history` says. */
  function SessionHistory(p: Progress): string {
    if p.sessionsCompleted == [] then NoSessionsYet
    else HistoryHeader(p) + SessionLines(TakeLast(p.sessionsCompleted, RecentCount))
  }

  lemma {:induction false} SessionLinesContain(sessions: seq<Session>, j: nat)
    requires j < |sessions|
    ensures Contains(SessionLines(sessions), SessionLine(sessions[j]))
    decreases |sessions|
  {
    var init := sessions[..|sessions| - 1];
    var last := SessionLine(sessions[|sessions| - 1]);
    if j == |sessions| - 1 {
      ContainsSelf(last);
      ContainsLeft(SessionLines(init), last, last);
    } else {
      assert init[j] == sessions[j];
      SessionLinesContain(init, j);
      ContainsRight(SessionLines(init), last, SessionLine(sessions[j]));
    }
  }

  /** The history lists each of the (at most three) most recent completed sessions. */
  lemma HistoryListsRecent(p: Progress, k: nat)
    requires k < |p.sessionsCompleted| && k < RecentCount
    ensures Contains(SessionHistory(p), SessionLine(p.sessionsCompleted[|p.sessionsCompleted| - 1 - k]))
  {
    var recent := TakeLast(p.sessionsCompleted, RecentCount);
    var j := |recent| - 1 - k;
    assert recent[j] == p.sessionsCompleted[|p.sessionsCompleted| - 1 - k];
    SessionLinesContain(recent, j);
    ContainsLeft(HistoryHeader(p), SessionLines(recent), SessionLine(recent[j]));
  }

  // The memory file.

  /** The saved document: `student_progress` with `topics_covered` written as a list. */
  datatype Memory = Memory(
    questionsAnswered: nat,
    correctAnswers: nat,
    topicsCovered: seq<string>,
    sessionsCompleted: seq<Session>,
    lastSession: Option<Session>,
    currentSession: Option<Session>,
    currentDomain: Option<string>,
    currentTopic: Option<string>,
    quizHistory: seq<QuizRecord>,
    weakAreas: seq<string>,
    strongAreas: seq<string>)

  function SetOf(xs: seq<string>): set<string> {
    set x | x in xs
  }

  /** The document for a record, with its topic set written in the order `topics`. */
  function Encode(p: Progress, topics: seq<string>): Memory {
    Memory(p.questionsAnswered, p.correctAnswers, topics, p.sessionsCompleted, p.lastSession,
           p.currentSession, p.currentDomain, p.currentTopic, p.quizHistory, p.weakAreas, p.strongAreas)
  }

  /** `load_memory`: the document with its topic list read back as a set. */
  function Decode(m: Memory): Progress {
    Progress(m.questionsAnswered, m.correctAnswers, SetOf(m.topicsCovered), m.sessionsCompleted,
             m.lastSession, m.currentSession, m.currentDomain, m.currentTopic, m.quizHistory,
             m.weakAreas, m.strongAreas)
  }

  /**
   * `student_progress.update(data)` with a document the tutor wrote: every key
   * of the document replaces the record's. A document written while no
   * session was open has no `current_session` key, so the record keeps its own.
   */
  function Loaded(p: Progress, m: Memory): (q: Progress)
    ensures m.currentSession.Some? || p.currentSession.None? ==> q == Decode(m)
    ensures q.currentSession == (if m.currentSession.Some? then m.currentSession else p.currentSession)
  {
    if m.currentSession.Some? then Decode(m) else Decode(m).(currentSession := p.currentSession)
  }

  /** `topics` lists the set `s`, each member once: what `list(s)` gives. */
  predicate Lists(topics: seq<string>, s: set<string>) {
    NoDuplicates(topics) && SetOf(topics) == s
  }

  /** Saving and loading gives back the record, whatever order the topics were written in. */
  lemma EncodeDecode(p: Progress, topics: seq<string>)
    requires Lists(topics, p.topicsCovered)
    ensures Decode(Encode(p, topics)) == p
  {
  }

  /**
   * Loading a saved document over the fresh record restores what was saved;
   * over any other record it does too, unless the saved record had no open
   * session and the other record has one, which then stays open.
   */
  lemma SaveThenLoad(p: Progress, q: Progress, topics: seq<string>)
    requires Lists(topics, p.topicsCovered)
    ensures Loaded(Defaults, Encode(p, topics)) == p
    ensures p.currentSession.Some? || q.currentSession.None? ==> Loaded(q, Encode(p, topics)) == p
    ensures p.currentSession.None? && q.currentSession.Some? ==>
      Loaded(q, Encode(p, topics)) == p.(currentSession := q.currentSession)
  {
    EncodeDecode(p, topics);
  }

  /** A list of distinct topics has as many entries as its set: the topic count survives saving. */
  lemma {:induction false} ListedSize(topics: seq<string>)
    requires NoDuplicates(topics)
    ensures |SetOf(topics)| == |topics|
    decreases |topics|
  {
    if topics != [] {
      var init := topics[..|topics| - 1];
      var last := topics[|topics| - 1];
      ListedSize(init);
      assert SetOf(topics) == SetOf(init) + {last};
      assert last !in SetOf(init);
    }
  }
}
