/**
 * `SecurityPlusTeacher` (security_plus_agent.py): the tutor's tools as
 * methods that change its progress record in place. The knowledge base and
 * the question banks are handed to it; the clock's reading is a parameter
 * of the methods that use it; the session's `current_quiz` metadata is the
 * field `currentQuiz`; the memory file is the field `memoryFile`, which holds
 * the document last written.
 */
module Tutor {
  import opened Wrappers
  import opened Text
  import opened Dict
  import opened QuestionBank
  import opened Knowledge
  import opened Lessons
  import opened Quiz
  import opened Tracker

  const UseDomainList := "Use: domain_1, domain_2, domain_3, domain_4, or domain_5"
  const NoActiveQuiz := "No active quiz. Use quiz_me or quiz_domain first!"

  /** The reply to `quiz_domain` with a domain the bank does not have. */
  function InvalidQuizDomain(bank: Dict<seq<Question>>): string {
    "Invalid domain. Available domains: " + Join(Keys(bank), ", ")
  }

  /** The reply to an answer with the wrong number of parts. */
  function WrongAnswerCount(n: nat): string {
    "Provide " + NatToString(n) + " answer(s)"
  }

  /** The reply to `mark_topic_completed`. */
  function CompletedText(domain: string, topic: string): string {
    "Great! I've marked " + Display(topic) + " as completed. [break:1s] You're making excellent progress through "
    + Display(domain) + "!"
  }

  /** `current_quiz` is falsy when it is absent or an empty list. */
  predicate ActiveQuiz(quiz: Option<seq<Question>>) {
    quiz.Some? && quiz.value != []
  }

  class SecurityPlusTeacher {
    const knowledgeBase: Catalog
    const practiceQuestions: seq<Question>
    const domainPracticeQuestions: Dict<seq<Question>>
    var progress: Progress
    var currentQuiz: Option<seq<Question>>
    var memoryFile: Option<Memory>

    /**
     * `__init__`: the default record, then whatever the memory file holds
     * (`stored` is `None` when there is no readable file). The knowledge base
     * is `ALL_DOMAINS` and the bank `DOMAIN_PRACTICE_QUESTIONS`, both keyed
     * `domain_1` .. `domain_5`.
     */
    constructor (knowledgeBase: Catalog, practiceQuestions: seq<Question>,
                 domainPracticeQuestions: Dict<seq<Question>>, stored: Option<Memory>)
      requires Keys(knowledgeBase) == DomainIds() && Keys(domainPracticeQuestions) == DomainIds()
      ensures SameDomains()
      ensures this.knowledgeBase == knowledgeBase && this.practiceQuestions == practiceQuestions
      ensures this.domainPracticeQuestions == domainPracticeQuestions
      ensures stored.None? ==> progress == Defaults
      ensures stored.Some? ==> progress == Decode(stored.value)
      ensures currentQuiz.None? && memoryFile.None?
    {
      this.knowledgeBase := knowledgeBase;
      this.practiceQuestions := practiceQuestions;
      this.domainPracticeQuestions := domainPracticeQuestions;
      progress := Defaults;
      currentQuiz := None;
      memoryFile := None;
      new;
      LoadMemory(stored);
    }

    /** Every domain of the quiz bank is a domain of the knowledge base, and the other way round. */
    predicate SameDomains() {
      Keys(knowledgeBase) == Keys(domainPracticeQuestions)
    }

    /**
     * `load_memory`: a readable document updates the record key by key, with
     * its topic list turned into a set.
     */
    method LoadMemory(stored: Option<Memory>)
      modifies this
      ensures stored.Some? ==> progress == Loaded(old(progress), stored.value)
      ensures stored.None? ==> progress == old(progress)
      ensures currentQuiz == old(currentQuiz) && memoryFile == old(memoryFile)
    {
      if stored.Some? {
        progress := Loaded(progress, stored.value);
      }
    }

    /**
     * `save_memory`: writes the record with its topic set as a list, in
     * whatever order the set gives; reading the document back gives the record.
     */
    method SaveMemory()
      modifies this
      ensures progress == old(progress) && currentQuiz == old(currentQuiz)
      ensures memoryFile.Some? && Lists(memoryFile.value.topicsCovered, progress.topicsCovered)
      ensures memoryFile == Some(Encode(progress, memoryFile.value.topicsCovered))
      ensures Decode(memoryFile.value) == progress
    {
      var left := progress.topicsCovered;
      var topics: seq<string> := [];
      while left != {}
        invariant SetOf(topics) + left == progress.topicsCovered
        invariant SetOf(topics) !! left
        invariant NoDuplicates(topics)
        decreases |left|
      {
        var t :| t in left;
        topics := topics + [t];
        left := left - {t};
      }
      memoryFile := Some(Encode(progress, topics));
      EncodeDecode(progress, topics);
    }

    /**
     * `explain_topic`. A topic that is found is covered, becomes the current
     * domain and topic, and the record is saved; a failed look-up changes nothing.
     */
    method ExplainTopic(domain: string, topic: string) returns (reply: string)
      modifies this
      ensures var r := FindTopic(knowledgeBase, domain, topic);
        r.Found? ==>
          && reply == Explanation(r.topicKey, r.topic)
          && progress == Focus(old(progress), r.domainKey, r.topicKey)
          && memoryFile.Some? && Decode(memoryFile.value) == progress
      ensures var r := FindTopic(knowledgeBase, domain, topic);
        !r.Found? ==> reply == Guidance(r) && progress == old(progress) && memoryFile == old(memoryFile)
      ensures currentQuiz == old(currentQuiz)
    {
      var r := FindTopic(knowledgeBase, domain, topic);
      if !r.Found? {
        return Guidance(r);
      }
      progress := Focus(progress, r.domainKey, r.topicKey);
      SaveMemory();
      reply := RenderExplanation(r.topicKey, r.topic);
    }

    /** `list_topics`: changes nothing. */
    method ListTopics(domain: string) returns (reply: string)
      ensures Get(knowledgeBase, Normalize(domain)).None? ==> reply == UseDomainList
      ensures Get(knowledgeBase, Normalize(domain)).Some? ==>
        reply == TopicList(Get(knowledgeBase, Normalize(domain)).value)
    {
      match Get(knowledgeBase, Normalize(domain))
      case None =>
        reply := UseDomainList;
      case Some(d) =>
        reply := RenderTopicList(d);
    }

    /**
     * `teach_lesson`. A topic that is found is covered, but the current
     * domain and topic stay as they were and nothing is saved.
     */
    method TeachLesson(domain: string, topic: string) returns (reply: string)
      modifies this
      ensures var r := FindTopic(knowledgeBase, domain, topic);
        r.Found? ==>
          reply == Lesson(r.topicKey, r.topic) && progress == Cover(old(progress), TopicKey(r.domainKey, r.topicKey))
      ensures var r := FindTopic(knowledgeBase, domain, topic);
        !r.Found? ==> reply == Guidance(r) && progress == old(progress)
      ensures currentQuiz == old(currentQuiz) && memoryFile == old(memoryFile)
    {
      var r := FindTopic(knowledgeBase, domain, topic);
      if !r.Found? {
        return Guidance(r);
      }
      reply := RenderLesson(r.topicKey, r.topic);
      progress := Cover(progress, TopicKey(r.domainKey, r.topicKey));
    }

    /**
     * `deliver_scripted_lesson`. Only a topic that has a script is covered;
     * nothing is saved.
     */
    method DeliverScriptedLesson(domain: string, topic: string) returns (reply: string)
      modifies this
      ensures var r := FindTopic(knowledgeBase, domain, topic);
        r.Found? && r.topic.scriptedLesson.Some? ==>
          && reply == ScriptedLesson(r.topicKey, r.domain, r.topic.scriptedLesson.value)
          && progress == Cover(old(progress), TopicKey(r.domainKey, r.topicKey))
      ensures var r := FindTopic(knowledgeBase, domain, topic);
        r.Found? && r.topic.scriptedLesson.None? ==> reply == NoScriptedLesson(r.topicKey) && progress == old(progress)
      ensures var r := FindTopic(knowledgeBase, domain, topic);
        !r.Found? ==> reply == Guidance(r) && progress == old(progress)
      ensures currentQuiz == old(currentQuiz) && memoryFile == old(memoryFile)
    {
      var r := FindTopic(knowledgeBase, domain, topic);
      if !r.Found? {
        return Guidance(r);
      }
      if r.topic.scriptedLesson.None? {
        return NoScriptedLesson(r.topicKey);
      }
      progress := Cover(progress, TopicKey(r.domainKey, r.topicKey));
      reply := ScriptedLesson(r.topicKey, r.domain, r.topic.scriptedLesson.value);
    }

    /**
     * `quiz_me`: draws the clamped count of questions, or the whole pool
     * when it is smaller, at distinct positions, and makes them the active
     * quiz in place of any earlier one. `drawn` is the random draw.
     */
    method QuizMe(numQuestions: int := 1) returns (reply: string, drawn: seq<nat>)
      modifies this
      ensures IsDraw(drawn, |practiceQuestions|, Min(ClampCount(numQuestions), |practiceQuestions|))
      ensures currentQuiz == Some(Pick(practiceQuestions, drawn))
      ensures reply == QuizMeText(ClampCount(numQuestions), Pick(practiceQuestions, drawn))
      ensures progress == old(progress) && memoryFile == old(memoryFile)
    {
      var count := ClampCount(numQuestions);
      var questions;
      questions, drawn := Sample(practiceQuestions, Min(count, |practiceQuestions|));
      var text := "Practice Quiz - " + NatToString(count) + " Question(s)\n\n";
      text := AppendQuestionBlocks(text, questions);
      reply := text + AnswerPrompt;
      currentQuiz := Some(questions);
    }

    /**
     * `quiz_domain`: the domain is looked up as given, without normalising
     * it; an unknown domain stores nothing.
     */
    method QuizDomain(domain: string, numQuestions: int := 3) returns (reply: string, drawn: seq<nat>)
      modifies this
      ensures Get(domainPracticeQuestions, domain).None? ==>
        reply == InvalidQuizDomain(domainPracticeQuestions) && drawn == [] && currentQuiz == old(currentQuiz)
      ensures Get(domainPracticeQuestions, domain).Some? ==>
        var pool := Get(domainPracticeQuestions, domain).value;
        var count := Min(ClampCount(numQuestions), |pool|);
        && IsDraw(drawn, |pool|, count)
        && currentQuiz == Some(Pick(pool, drawn))
        && reply == QuizDomainText(DomainNameOr(knowledgeBase, domain, Display(domain)), count, Pick(pool, drawn))
      ensures SameDomains() && Get(domainPracticeQuestions, domain).Some? ==>
        var pool := Get(domainPracticeQuestions, domain).value;
        && Get(knowledgeBase, domain).Some?
        && reply == QuizDomainText(Get(knowledgeBase, domain).value.name,
                                   Min(ClampCount(numQuestions), |pool|), Pick(pool, drawn))
      ensures progress == old(progress) && memoryFile == old(memoryFile)
    {
      match Get(domainPracticeQuestions, domain)
      case None =>
        reply := InvalidQuizDomain(domainPracticeQuestions);
        drawn := [];
      case Some(pool) =>
        var count := Min(ClampCount(numQuestions), |pool|);
        var questions;
        questions, drawn := Sample(pool, count);
        var name := DomainNameOr(knowledgeBase, domain, Display(domain));
        var text := "Practice Quiz - " + name + "\n" + "Questions: " + NatToString(count) + "\n\n";
        text := AppendQuestionBlocks(text, questions);
        reply := text + AnswerPrompt;
        currentQuiz := Some(questions);
    }

    /**
     * `check_answer`. Without an active quiz, or with the wrong number of
     * answers, nothing changes. Otherwise the answers are graded, the record
     * becomes `Graded` of the old one and is saved, and the quiz is cleared.
     */
    method CheckAnswer(answer: string, now: string) returns (reply: string)
      modifies this
      ensures !ActiveQuiz(old(currentQuiz)) ==>
        reply == NoActiveQuiz && progress == old(progress) && currentQuiz == old(currentQuiz)
        && memoryFile == old(memoryFile)
      ensures ActiveQuiz(old(currentQuiz)) && |ParseAnswers(answer)| != |old(currentQuiz).value| ==>
        reply == WrongAnswerCount(|old(currentQuiz).value|) && progress == old(progress)
        && currentQuiz == old(currentQuiz) && memoryFile == old(memoryFile)
      ensures ActiveQuiz(old(currentQuiz)) && |ParseAnswers(answer)| == |old(currentQuiz).value| ==>
        && reply == Report(ParseAnswers(answer), old(currentQuiz).value)
        && progress == Graded(old(progress), ParseAnswers(answer), old(currentQuiz).value, now)
        && currentQuiz.None?
        && memoryFile.Some? && Decode(memoryFile.value) == progress
    {
      if !ActiveQuiz(currentQuiz) {
        return NoActiveQuiz;
      }
      var quiz := currentQuiz.value;
      var answers := ParseAnswers(answer);
      if |answers| != |quiz| {
        return WrongAnswerCount(|quiz|);
      }
      reply := Grade(answers, quiz, now);
    }

    /**
     * `check_answer` once the answers match the quiz: grades them, records
     * the quiz, saves and clears the quiz.
     */
    method Grade(answers: seq<string>, quiz: seq<Question>, now: string) returns (reply: string)
      requires |answers| == |quiz| && 0 < |quiz|
      modifies this
      ensures reply == Report(answers, quiz)
      ensures progress == Graded(old(progress), answers, quiz, now)
      ensures currentQuiz.None?
      ensures memoryFile.Some? && Decode(memoryFile.value) == progress
    {
      ghost var start := progress;
      var results, right := GradeAnswers(answers, quiz);
      RecordQuiz(quiz, right, now);
      GradedSteps(start, answers, quiz, now, right);
      SaveMemory();
      reply := AppendClosing(results, right, |quiz|);
      currentQuiz := None;
    }

    /**
     * The grading loop of `check_answer`: each answer, compared with its
     * question's correct letter, adds one to the answered counter and, when
     * it is right, one to the right counter.
     */
    method GradeAnswers(answers: seq<string>, quiz: seq<Question>) returns (text: string, right: nat)
      requires |answers| == |quiz|
      modifies this
      ensures right == CountCorrect(answers, quiz)
      ensures text == ResultsHeader + ResultLines(answers, quiz)
      ensures progress == old(progress).(questionsAnswered := old(progress).questionsAnswered + |quiz|,
                                         correctAnswers := old(progress).correctAnswers + right)
      ensures currentQuiz == old(currentQuiz) && memoryFile == old(memoryFile)
    {
      text := ResultsHeader;
      right := 0;
      for i := 0 to |quiz|
        invariant right == CountCorrect(answers[..i], quiz[..i])
        invariant text == ResultsHeader + ResultLines(answers[..i], quiz[..i])
        invariant progress == old(progress).(questionsAnswered := old(progress).questionsAnswered + i,
                                             correctAnswers := old(progress).correctAnswers + right)
        invariant currentQuiz == old(currentQuiz) && memoryFile == old(memoryFile)
      {
        assert answers[..i + 1][..i] == answers[..i] && quiz[..i + 1][..i] == quiz[..i];
        if answers[i] == quiz[i].correct {
          right := right + 1;
          progress := progress.(correctAnswers := progress.correctAnswers + 1);
        }
        text := AppendResultLine(text, i + 1, answers[i], quiz[i]);
        ConcatAssoc(ResultsHeader, ResultLines(answers[..i], quiz[..i]), ResultLine(i + 1, answers[i], quiz[i]));
        progress := progress.(questionsAnswered := progress.questionsAnswered + 1);
      }
      assert answers[..|quiz|] == answers && quiz[..|quiz|] == quiz;
    }

    /**
     * The rest of `check_answer`'s bookkeeping: the history entry, then the
     * current domain added to the weak areas below 70 or to the strong areas
     * from 90, if it is not there yet.
     */
    method RecordQuiz(quiz: seq<Question>, right: nat, now: string)
      requires 0 < |quiz|
      modifies this
      ensures var areas := UpdateAreas(old(progress).weakAreas, old(progress).strongAreas,
                                       old(progress).currentDomain, right, |quiz|);
        progress == old(progress).(quizHistory := old(progress).quizHistory + [QuizRecord(now, Score(right, |quiz|), right, |quiz|, quiz)],
                                   weakAreas := areas.0, strongAreas := areas.1)
      ensures currentQuiz == old(currentQuiz) && memoryFile == old(memoryFile)
    {
      var total := |quiz|;
      var score := Score(right, total);
      progress := progress.(quizHistory := progress.quizHistory + [QuizRecord(now, score, right, total, quiz)]);
      if 100 * right < 70 * total {
        if Truthy(progress.currentDomain) && progress.currentDomain.value !in progress.weakAreas {
          progress := progress.(weakAreas := progress.weakAreas + [progress.currentDomain.value]);
        }
      } else if 100 * right >= 90 * total {
        if Truthy(progress.currentDomain) && progress.currentDomain.value !in progress.strongAreas {
          progress := progress.(strongAreas := progress.strongAreas + [progress.currentDomain.value]);
        }
      }
    }

    /** The score line and the closing line of the results. */
    static method AppendClosing(prefix: string, right: nat, total: nat) returns (text: string)
      requires 0 < total
      ensures text == prefix + ScoreLine(right, total) + Tier(right, total)
    {
      var tier;
      if right == total {
        tier := PerfectMessage;
      } else if 100 * right >= 70 * total {
        tier := GoodMessage;
      } else {
        tier := StudyMessage;
      }
      text := prefix + ScoreLine(right, total) + tier;
    }

    /** The text of one graded question, appended. */
    static method AppendResultLine(prefix: string, n: nat, answer: string, q: Question) returns (text: string)
      ensures text == prefix + ResultLine(n, answer, q)
    {
      var verdict;
      if answer == q.correct {
        verdict := "Q" + NatToString(n) + ": ✓ Correct!\n";
      } else {
        verdict := "Q" + NatToString(n) + ": ✗ Wrong. Answer: " + q.correct + "\n";
      }
      text := prefix + verdict + q.explanation + "\n\n";
      ConcatAssoc(prefix, verdict, q.explanation);
      ConcatAssoc(prefix, verdict + q.explanation, "\n\n");
    }

    /**
     * `start_new_session`: a new current session whose previous session is
     * the last one; the record is not saved.
     */
    method StartNewSession(now: string) returns (reply: string)
      modifies this
      ensures progress == BeginSession(old(progress), now)
      ensures reply == Greeting(old(progress), knowledgeBase)
      ensures currentQuiz == old(currentQuiz) && memoryFile == old(memoryFile)
    {
      reply := Greeting(progress, knowledgeBase);
      progress := BeginSession(progress, now);
    }

    /** `end_session`: closes the current session, if there is one, and saves. */
    method EndSession(now: string)
      modifies this
      ensures progress == FinishSession(old(progress), now)
      ensures memoryFile.Some? && Decode(memoryFile.value) == progress
      ensures currentQuiz == old(currentQuiz)
    {
      progress := FinishSession(progress, now);
      SaveMemory();
    }

    /**
     * `mark_topic_completed`: the names are used exactly as given, not
     * normalised, for the covered key and the current domain and topic.
     */
    method MarkTopicCompleted(domain: string, topic: string) returns (reply: string)
      modifies this
      ensures progress == Focus(old(progress), domain, topic)
      ensures TopicKey(domain, topic) in progress.topicsCovered
      ensures memoryFile.Some? && Decode(memoryFile.value) == progress
      ensures reply == CompletedText(domain, topic)
      ensures currentQuiz == old(currentQuiz)
    {
      progress := Focus(progress, domain, topic);
      SaveMemory();
      reply := CompletedText(domain, topic);
    }

    /** `continue_last_topic`: names the current topic and domain; changes nothing. */
    method ContinueLastTopic() returns (reply: string)
      ensures reply == ContinueText(progress)
    {
      reply := ContinueText(progress);
    }

    /** `get_progress`: changes nothing. */
    method GetProgress() returns (reply: string)
      ensures reply == ProgressReport(progress)
    {
      reply := ProgressReport(progress);
    }

    /** `get_session_history`: changes nothing; lists at most the three latest sessions. */
    method GetSessionHistory() returns (reply: string)
      ensures reply == SessionHistory(progress)
    {
      var sessions := progress.sessionsCompleted;
      if sessions == [] {
        return NoSessionsYet;
      }
      var header := HistoryHeader(progress);
      var recent := TakeLast(sessions, RecentCount);
      reply := header;
      for i := 0 to |recent|
        invariant reply == header + SessionLines(recent[..i])
      {
        assert recent[..i + 1][..i] == recent[..i];
        ConcatAssoc(header, SessionLines(recent[..i]), SessionLine(recent[i]));
        reply := reply + SessionLine(recent[i]);
      }
      assert recent[..|recent|] == recent;
    }
  }
}
