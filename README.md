# Security+ tutor and mobile client, modelled in Dafny

This project models a voice tutor for the CompTIA Security+ exam and the state logic of its mobile client.

**The tutor.** `SecurityPlusTeacher` keeps one progress record for the student:
- answered and right counters;
- the set of covered topics;
- completed, last and current sessions;
- the current domain and topic;
- the quiz history;
- the weak and strong areas.

Its tools change that record. They explain and teach topics looked up in a knowledge base, draw practice quizzes from a question bank, grade answers, open and close study sessions, and save the record to a memory file.

**The mobile client.** The model covers:
- the store's reducers;
- the LiveKit connection and call state machine;
- the pure duration, relative-time and status helpers of the call and history screens.

**Modules.** There is one Dafny module per concern:

| module | file | what it holds |
|---|---|---|
| `Wrappers`, `Dict`, `Text` | wrappers.dfy, dict.dfy, text.dfy | `Option`; insertion-ordered dictionaries; the Python and JavaScript string and number operations the sources use, on ASCII |
| `QuestionBank` | question_bank.dfy | the 75 literal practice questions, their shape invariants, and the loop that flattens them |
| `Knowledge` | knowledge.dfy | the knowledge-base catalog and the normalised domain and topic look-up |
| `Lessons` | lessons.dfy | the explanation, lesson, scripted-lesson and topic-list texts as functions; the explanation, lesson and topic-list loops are methods proved to build them |
| `Quiz` | quiz.dfy | the count clamp, the draw without replacement, the quiz texts, answer parsing, grading, score thresholds, the tier line and the area update |
| `Tracker` | progress.dfy | the progress record, each change to it as a function, its consistency invariant, sessions, summaries and the memory document |
| `Tutor` | tutor.dfy | the class `SecurityPlusTeacher`, whose methods change its fields in place |
| `AppTypes`, `Store` | app_types.dfy, store.dfy | the client's types and the store's actions as pure functions |
| `LiveKit` | livekit.dfy | `LiveKitService` and its rooms as classes, with the singleton slot |
| `CallScreen`, `HistoryScreen` | call_screen.dfy, history_screen.dfy | the screen helpers |

**Inputs instead of effects.** Randomness, the clock and I/O become inputs:
- `random.sample` is a nondeterministic choice of distinct positions, returned as `drawn`;
- every `datetime.now()`, `Date.now()` and `new Date()` reading is a parameter;
- the memory file is a field holding the last document written, and the constructor receives the loaded document;
- the success or failure of the native audio session is a parameter;
- the session's `current_quiz` metadata is the field `currentQuiz`.

## Model

| member | source | states |
|---|---|---|
| Tutor.SecurityPlusTeacher.constructor | security_plus_agent.py:187-207 | the knowledge base and the quiz bank are both keyed domain_1 .. domain_5, so they have the same domains. The tutor starts from the default record with no active quiz. A readable memory document then replaces the record, and without one the defaults stay |
| Tutor.SecurityPlusTeacher.LoadMemory | security_plus_agent.py:209-220 | a readable document updates the record key by key, with its topic list read back as a set. A document without a current session leaves the record's current session in place. A missing or unreadable document leaves the record unchanged |
| Tracker.Loaded | security_plus_agent.py:215-218 | the update gives the decoded document whenever the document has a current session or the record has none. The current session is the document's if it has one, and the record's otherwise |
| Tracker.SaveThenLoad | security_plus_agent.py:209-233 | loading a saved document over the default record restores the saved record. Over any record it does too, except that an open session of that record survives a document saved with none |
| Tutor.SecurityPlusTeacher.SaveMemory | security_plus_agent.py:222-233 | the written document lists every covered topic exactly once; reading it back gives the current record; nothing else changes |
| Tracker.EncodeDecode | security_plus_agent.py:209-233 | saving then loading restores the record, including the covered topics as the same set, whatever order the set was listed in |
| Tracker.ListedSize | security_plus_agent.py:224-226 | a topic list without duplicates has as many entries as its set, so the number of covered topics survives saving |
| Knowledge.FindTopic | security_plus_agent.py:306-318 | both names are lower-cased with spaces turned into underscores. The result is an unknown domain exactly when the normalised domain is absent, and an unknown topic exactly when the domain exists but lacks the normalised topic. A found topic is the catalog's entry under the normalised keys |
| Knowledge.FindTopicNormalized | security_plus_agent.py:306-307 | looking up names that are already normalised finds the same thing |
| Knowledge.GuidanceListsTopics | security_plus_agent.py:314-316 | when the topic is unknown, the reply names every topic of the domain |
| Tutor.SecurityPlusTeacher.ExplainTopic | security_plus_agent.py:299-350 | a found topic is explained, covered, made the current domain and topic, and saved; a failed look-up replies with guidance and changes nothing |
| Tutor.SecurityPlusTeacher.ListTopics | security_plus_agent.py:353-370 | an unknown normalised domain gets the list of domain names; a known one gets its name, weight and one line per topic; nothing changes |
| Tutor.SecurityPlusTeacher.TeachLesson | security_plus_agent.py:373-426 | a found topic is taught and covered, but the current domain and topic stay as they were and nothing is saved; a failed look-up changes nothing |
| Tutor.SecurityPlusTeacher.DeliverScriptedLesson | security_plus_agent.py:429-461 | only a topic with a script is delivered and covered; a topic without one gets the fallback text and nothing is covered; nothing is saved |
| Lessons.RenderExplanation | security_plus_agent.py:329-349 | the explanation loop builds exactly the explanation text: title, description, each list field with at most six bullets, then the key points |
| Lessons.ExplanationCovers | security_plus_agent.py:329-349 | the explanation holds the description, the first six items of every list field and every key point |
| Lessons.ExplanationIgnoresExtraItems | security_plus_agent.py:341 | items past the sixth of any list field do not change the explanation |
| Lessons.RenderLesson | security_plus_agent.py:393-426 | the lesson loop builds exactly the lesson text. The first list field is introduced as "walk you through" and the later ones as "Next". Each field shows at most five numbered items |
| Lessons.LessonCovers | security_plus_agent.py:397-416 | the lesson holds the description and each of the first five items of every list field, numbered from 1 |
| Lessons.LessonIgnoresExtraItems | security_plus_agent.py:414 | items past the fifth of any list field do not change the lesson |
| Lessons.RenderTopicList | security_plus_agent.py:364-370 | the topic-list loop builds the domain's header followed by one line per topic, in order |
| Quiz.ClampCount | security_plus_agent.py:470 | the count is in 1..5. It is the requested count when that is in range, and otherwise the nearest count in range |
| Quiz.Sample | security_plus_agent.py:471 | the draw has the requested number of positions, all in range and pairwise distinct; the questions are the ones at those positions |
| Quiz.PickWellFormed | security_plus_agent.py:471 | a quiz drawn from well-formed questions holds only well-formed questions |
| Tutor.SecurityPlusTeacher.QuizMe | security_plus_agent.py:464-484 | the count defaults to 1. The clamped count is drawn, or the whole pool if smaller, at distinct positions. The draw becomes the active quiz in place of any earlier one. The header shows the clamped count, and the record is unchanged |
| Tutor.SecurityPlusTeacher.QuizDomain | security_plus_agent.py:487-518 | the domain key is used exactly as given. An unknown key replies with the available keys and leaves the active quiz alone. A known key draws the clamped count, capped at the domain's size, and makes it the active quiz. The count defaults to 3. When the knowledge base has the bank's domains, the header shows the knowledge base's name for the domain |
| Quiz.QuestionBlocksContain | security_plus_agent.py:474-478 | every drawn question appears in the quiz text under its number |
| Quiz.AppendQuestionBlocks | security_plus_agent.py:474-478 | the question loop appends exactly the numbered question blocks |
| Quiz.ParseAnswers | security_plus_agent.py:545 | the answer splits into one part per comma plus one, and no part begins or ends with a blank |
| Quiz.AnswerCaseIgnored | security_plus_agent.py:545 | the parsed answers of a lower-cased input are those of the input, so the case the student types does not matter |
| Quiz.ParsedAnswerIsUpper | security_plus_agent.py:545 | a parsed answer holds no lower-case letter |
| Tutor.SecurityPlusTeacher.CheckAnswer | security_plus_agent.py:534-601 | without an active quiz, or with the wrong number of answers, it replies with the error and changes nothing, the quiz included. Otherwise it replies with the report, the record becomes the graded record and is saved, and the quiz is cleared |
| Tutor.SecurityPlusTeacher.Grade | security_plus_agent.py:550-601 | grading matched answers replies with the report, leaves the graded record, saves it and clears the quiz |
| Tutor.SecurityPlusTeacher.GradeAnswers | security_plus_agent.py:550-564 | the grading loop counts exactly the answers equal to their question's correct letter. It adds the quiz length to the answered counter and the right answers to the right counter, and builds the result lines |
| Tutor.SecurityPlusTeacher.RecordQuiz | security_plus_agent.py:566-590 | one history entry is appended. Below 70 the current domain joins the weak areas if absent; from 90 it joins the strong areas if absent |
| Tutor.SecurityPlusTeacher.AppendClosing | security_plus_agent.py:565-598 | appends the score line and the tier line chosen by the integer thresholds |
| Quiz.CountCorrect | security_plus_agent.py:553-557 | the number of right answers never exceeds the quiz length |
| Quiz.AllCorrectIff | security_plus_agent.py:553-557 | every answer is right exactly when the right count equals the quiz length |
| Quiz.NoneCorrectIff | security_plus_agent.py:553-557 | no answer is right exactly when the right count is zero |
| Quiz.ScoreThresholds | security_plus_agent.py:565-598 | the real-valued score is below 70, at least 90, below 100 or exactly 100 exactly when the matching integer comparison of the counts holds |
| Quiz.TierByScore | security_plus_agent.py:592-597 | "Perfect" exactly at 100, "Good work" exactly from 70 up to 100, and "Keep studying" exactly below 70 |
| Quiz.RoundDiv | security_plus_agent.py:567 | the rounded quotient is within half a unit of the exact one |
| Quiz.AddIfAbsent | security_plus_agent.py:579-588 | appending when absent puts the domain in the list, keeps the old list as a prefix, adds at most one entry and never creates a duplicate |
| Quiz.UpdateAreasKeepsLists | security_plus_agent.py:579-588 | the weak list gains the current domain only when it is set and the score is below 70, and the strong list only from 90. Neither list gains a duplicate |
| Quiz.MiddleScoreKeepsAreas | security_plus_agent.py:579-588 | a score from 70 up to 90 changes neither list |
| Quiz.WeakDomainCanBecomeStrong | security_plus_agent.py:579-588 | nothing removes a weak domain, so a weak domain that later scores 90 or more is in both lists |
| Tracker.GradedKeepsConsistent | security_plus_agent.py:550-588 | grading keeps the counters equal to the sums over the history and the area lists free of duplicates, so right answers never outnumber answers |
| Tracker.GradedCounters | security_plus_agent.py:553-562 | the answered counter grows by the quiz length. The right counter grows by the quiz length exactly when every answer is right, and not at all exactly when none is |
| Tracker.ConsistentBounds | security_plus_agent.py:553-562 | in a consistent record, right answers never outnumber answered questions |
| Tracker.CoverAddsKey | security_plus_agent.py:691-699 | covering adds exactly the key `domain_topic`, covering it again changes nothing, and no other field changes |
| Tracker.FocusIdempotent | security_plus_agent.py:691-699 | covering a topic and making it current is idempotent and sets the current domain and topic |
| Tutor.SecurityPlusTeacher.MarkTopicCompleted | security_plus_agent.py:691-700 | the names are used exactly as given, without normalising. The key is covered, the names become the current domain and topic, and the record is saved |
| Tutor.SecurityPlusTeacher.StartNewSession | security_plus_agent.py:235-270 | the new current session's id counts the completed sessions plus one, and it remembers the last session. The greeting is computed from the old record, and nothing is saved |
| Tracker.FirstGreetingIff | security_plus_agent.py:235-270 | the first-session greeting is given exactly when there is no last session |
| Tutor.SecurityPlusTeacher.EndSession | security_plus_agent.py:272-282 | the current session, if any, is closed; the record is saved in either case |
| Tracker.SessionLifecycle | security_plus_agent.py:235-282 | a session started and then ended is the newest completed session and the last session. It links to the session that was last before it, its id counts the sessions before it, and nothing else changes |
| Tracker.FinishWithoutSession | security_plus_agent.py:276 | ending with no current session changes nothing |
| Tracker.ChangesKeepConsistent | security_plus_agent.py:235-282 | covering, focusing, starting and ending sessions keep the record consistent |
| Tutor.SecurityPlusTeacher.ContinueLastTopic | security_plus_agent.py:677-688 | replies with the continuation text and changes nothing |
| Tracker.ContinueNamesFocus | security_plus_agent.py:677-688 | the student is asked to start fresh exactly when there is no current domain. Otherwise the reply names the current domain, and also the current topic when there is one |
| Tutor.SecurityPlusTeacher.GetProgress | security_plus_agent.py:618-632 | replies with the progress summary and changes nothing |
| Tracker.AccuracyUnavailableIff | security_plus_agent.py:624-628 | the accuracy reads "N/A" exactly when no question has been answered |
| Tutor.SecurityPlusTeacher.GetSessionHistory | security_plus_agent.py:646-674 | replies with the history summary, whose loop lists the last three sessions; changes nothing |
| Tracker.HistoryListsRecent | security_plus_agent.py:669-672 | the history lists each of the (at most three) most recent completed sessions |
| QuestionBank.Q4 | security_plus_knowledge_base.py:28-29 | a question written with options "A) ", "B) ", "C) ", "D) " and a correct letter among them is well formed |
| QuestionBank.Domain1Questions | security_plus_knowledge_base.py:25-146 | the domain_1 list has 15 questions. Each has four options labelled A to D in order, and a single-letter correct answer that labels exactly one option |
| QuestionBank.Domain2Questions | security_plus_knowledge_base.py:147-273 | the same for domain_2 |
| QuestionBank.Domain3Questions | security_plus_knowledge_base.py:274-405 | the same for domain_3 |
| QuestionBank.Domain4Questions | security_plus_knowledge_base.py:406-527 | the same for domain_4 |
| QuestionBank.Domain5Questions | security_plus_knowledge_base.py:528-654 | the same for domain_5 |
| QuestionBank.DomainPracticeQuestions | security_plus_knowledge_base.py:24-655 | the bank's keys are domain_1 .. domain_5 in order, which are the keys of `ALL_DOMAINS` that the tutor's constructor requires of the knowledge base. Every list holds 15 well-formed questions, so none is empty |
| QuestionBank.BuildPracticeQuestions | security_plus_knowledge_base.py:658-660 | the flattening loop produces the concatenation of the lists in key order |
| QuestionBank.LoadQuestionBank | security_plus_knowledge_base.py:24-660 | the global pool is the five domain lists one after another, 75 well-formed questions |
| QuestionBank.FlattenSize | security_plus_knowledge_base.py:658-660 | the pool is as long as all the lists together |
| QuestionBank.FlattenMembers | security_plus_knowledge_base.py:658-660 | a question is in the pool exactly when it is in one of the domain lists |
| Store.SetUser | mobile/src/store/index.ts:49 | replaces `user` and nothing else |
| Store.SetAuthenticated | mobile/src/store/index.ts:50 | replaces `isAuthenticated` and nothing else |
| Store.SetAvailableAgents | mobile/src/store/index.ts:53 | replaces `availableAgents` and nothing else |
| Store.SetSelectedAgent | mobile/src/store/index.ts:54 | replaces `selectedAgent` and nothing else |
| Store.SetCurrentConversation | mobile/src/store/index.ts:73 | replaces `currentConversation` and nothing else |
| Store.SetVoiceMode | mobile/src/store/index.ts:76 | replaces `isVoiceMode` and nothing else |
| Store.SetSettingsOpen | mobile/src/store/index.ts:77 | replaces `isSettingsOpen` and nothing else |
| Store.AddConversation | mobile/src/store/index.ts:57-60 | the new conversation comes first, the old list follows it unchanged, the length grows by one, and nothing else changes |
| Store.MapUpdate | mobile/src/store/index.ts:64-66 | the length is kept. Entries with another id are unchanged, and entries with the id get the updates merged over them |
| Store.UpdateConversation | mobile/src/store/index.ts:62-71 | the list is updated by id. The current conversation is merged only when its id matches, and otherwise, or when there is none, it is kept. Nothing else changes |
| Store.MergeIdempotent | mobile/src/store/index.ts:62-71 | merging the same updates twice equals merging once, and fields the updates omit are kept |
| Store.UpdateConversationIdempotent | mobile/src/store/index.ts:62-71 | applying the same update twice leaves the state as applying it once |
| Store.UpdateUserPreferences | mobile/src/store/index.ts:80-88 | with a user, the partial preferences are merged over theirs and the rest of the user is kept; without one, `user` stays null; nothing else changes |
| Store.PartializeKeepsExactly | mobile/src/store/index.ts:92-97 | two states persist the same thing exactly when their user, selected agent, conversations and voice mode agree |
| Store.RehydrateRestores | mobile/src/store/index.ts:92-97 | restoring a saved state brings back every persisted field and leaves the others as the store started |
| Store.TransientSettersNotPersisted | mobile/src/store/index.ts:49-97 | the setters of fields that are not persisted never change what is saved |
| LiveKit.LiveKitService.constructor | mobile/src/services/livekit.ts:7-11 | a new service is disconnected and idle, with no room, so neither `isConnected` nor `isInCall` holds |
| LiveKit.Registry.GetInstance | mobile/src/services/livekit.ts:13-18 | the first call creates a service in the initial state, and every later call returns that same service |
| LiveKit.GetInstanceTwice | mobile/src/services/livekit.ts:13-18 | two calls in a row return the same service |
| LiveKit.LiveKitService.ConnectToAgent | mobile/src/services/livekit.ts:20-50 | when the audio session starts, a new active room becomes current and both states are connected. The room carries the agent's id, the token and the server URL. Its id, participant id and creation time come from three separate clock readings. Afterwards `isConnected` and `isInCall` both hold. When the audio session fails, both states are failed, the room is unchanged, and the error is rethrown; then neither getter holds |
| LiveKit.LiveKitService.Disconnect | mobile/src/services/livekit.ts:52-66 | the previous room is marked inactive and dropped before the audio is stopped. On success both states are disconnected and ended, and neither `isConnected` nor `isInCall` holds. On failure the error is rethrown, and both states and both getters stay as they were |
| CallScreen.TimerRoundTrip | mobile/src/screens/CallScreen.tsx:98-102 | for a non-negative duration, reading the `MM:SS` timer back gives the duration: the fields are the floor of the minutes and the remaining seconds below 60 |
| CallScreen.PaddedRoundTrip | mobile/src/screens/CallScreen.tsx:101 | zero padding never truncates a number: the padded digits read back as the number |
| CallScreen.TimerFieldWidths | mobile/src/screens/CallScreen.tsx:101 | the seconds field is exactly two digits after the colon, and the timer is at least five characters |
| CallScreen.StatusText | mobile/src/screens/CallScreen.tsx:104-117 | "Connected" exactly when both the connection and the call are connected. "Waiting for agent..." exactly when the connection is connected and the call is not. "Connecting...", "Reconnecting..." and "Connection Failed" exactly for those connection states. "Disconnected" exactly for the disconnected state |
| CallScreen.StatusColor | mobile/src/screens/CallScreen.tsx:119-131 | green exactly for connected, orange exactly for connecting or reconnecting, red exactly for failed, and grey for disconnected |
| HistoryScreen.DurationRoundTrip | mobile/src/screens/HistoryScreen.tsx:62-66 | for a non-negative duration, reading "{m}m {s}s" back gives the duration |
| HistoryScreen.RelativeTimeBands | mobile/src/screens/HistoryScreen.tsx:68-80 | "Just now" under a minute, including future dates. Whole minutes under an hour, whole hours under a day and whole days under a week. The locale's date from a week on |
| HistoryScreen.DurationLabel | mobile/src/screens/HistoryScreen.tsx:113 | "N/A" exactly when the duration is missing or zero, the formatted duration otherwise |
| Text.NormalizeIdempotent | security_plus_agent.py:306-307 | lower-casing and turning spaces into underscores a second time changes nothing |
| Text.JoinSplit | security_plus_agent.py:545 | splitting at a separator and joining with it gives the text back |
| Text.NatToStringRoundTrip | security_plus_agent.py:567 | a count's decimal rendering reads back as the count |

## Left out

- I/O. Reading and writing `student_memory.json`, JSON encoding and the printed errors are not modelled. The memory file is a field holding the last document written. A missing or unreadable file is `None`.
- Tutor.SecurityPlusTeacher.LoadMemory: only `current_session` may be missing from a loaded document. That is the only key the tutor ever deletes before saving. A document missing other keys, or carrying keys the record does not have, is not modelled.
- Tutor.SecurityPlusTeacher.constructor: the memory-file path is not a field. The `memoryFile` field starts as `None` until the first save.
- The agent framework. The LLM instructions, `entrypoint`, the voice pipeline and the `@function_tool` plumbing are not modelled. The `context.store_metadata` API is the field `currentQuiz`.
- Randomness and the clock. `random.sample` is a nondeterministic choice of distinct positions. Each ISO timestamp and each millisecond reading is a parameter.
- Quiz.Percent and Quiz.OneDecimal: `{score:.0f}` and `{accuracy:.1f}` format binary floats with round-half-even. The model rounds the exact ratio half upwards. The two agree for every score of a quiz of at most five questions. For accuracy they can differ by one tenth on an exact tie.
- Case mapping. Python's `lower`, `upper`, `title` and `strip` are modelled on ASCII letters and ASCII white space only.
- The knowledge tables. domains/domain_*/knowledge.py is not part of this model; the catalog is a parameter of the tutor. A topic keeps its description, its list-valued fields in order, and its optional key points and scripted lesson. The renderers skip every other field.
- Lessons.Explanation and Lessons.Lesson: a topic without a description is not modelled. The source then prints an empty description.
- Source text encoding. The tutor's source shows its emoji and bullets as mis-decoded UTF-8 text, and the thumbs-up has lost a byte. The model writes the intended characters: 📚, 🎯, 📊, 📈, 🎉, 👍, •, ✓ and ✗.
- Tracker.Greeting: a `last_session` that is present but an empty dict counts as falsy in the source. Here any present last session counts as present.
- Some tools of the tutor are not modelled. `get_exam_overview`, `get_study_tips` and `list_quiz_domains` reply with static or catalog texts. `start_session` returns what `start_new_session` replies, and `end_current_session` calls `end_session` and replies with a fixed text.
- The LiveKit service's intermediate states. The `connecting` and `calling` states that `connectToAgent` holds while it awaits the audio are overwritten before it returns. The model assigns them but states only the final states. `muteMicrophone` and `setSpeakerVolume` only log, so they are not modelled, and neither is the React hook.
- The UI. JSX rendering, styles, animations, the volume arithmetic and the random bar heights of the call screen are not modelled. The store's storage backend is not modelled either; only `partialize` and the default merge on start-up are.
