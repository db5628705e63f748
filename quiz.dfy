/**
 * The quiz engine of the tutor (security_plus_agent.py): how many questions
 * a quiz asks, how they are drawn, the text that asks them, how an answer is
 * read and graded, and how a score moves a domain into the weak or strong
 * areas. The random draw is a nondeterministic choice of distinct positions.
 */
module Quiz {
  import opened Wrappers
  import opened Text
  import opened QuestionBank

  /** The most questions one quiz asks. */
  const MaxQuestions := 5

  function Distance(a: int, b: int): nat {
    if a < b then b - a else a - b
  }

  /**
   * `min(max(1, n), 5)`: the count in 1..5 nearest to the one asked for,
   * which is the one asked for when it is already in range.
   */
  function ClampCount(n: int): (r: nat)
    ensures 1 <= r <= MaxQuestions
    ensures 1 <= n <= MaxQuestions ==> r == n
    ensures forall m :: 1 <= m <= MaxQuestions ==> Distance(r, n) <= Distance(m, n)
  {
    if n < 1 then 1 else if n > MaxQuestions then MaxQuestions else n
  }

  function Min(a: nat, b: nat): nat {
    if a < b then a else b
  }

  // Drawing questions.

  /** `idx` names `k` distinct positions of a list of length `n`: what `random.sample` may pick. */
  predicate IsDraw(idx: seq<nat>, n: nat, k: nat) {
    && |idx| == k
    && (forall i :: 0 <= i < k ==> idx[i] < n)
    && (forall i, j :: 0 <= i < j < k ==> idx[i] != idx[j])
  }

  /** The questions at the drawn positions, in the order drawn. */
  function Pick(pool: seq<Question>, idx: seq<nat>): (r: seq<Question>)
    requires forall i :: 0 <= i < |idx| ==> idx[i] < |pool|
    ensures |r| == |idx|
    ensures forall q :: q in r ==> q in pool
  {
    if idx == [] then [] else Pick(pool, idx[..|idx| - 1]) + [pool[idx[|idx| - 1]]]
  }

  lemma {:induction false} PickAt(pool: seq<Question>, idx: seq<nat>, i: nat)
    requires forall j :: 0 <= j < |idx| ==> idx[j] < |pool|
    requires i < |idx|
    ensures Pick(pool, idx)[i] == pool[idx[i]]
    decreases |idx|
  {
    if i < |idx| - 1 {
      PickAt(pool, idx[..|idx| - 1], i);
    }
  }

  /** Drawn from a bank of well-formed questions, a quiz holds only well-formed questions. */
  lemma PickWellFormed(pool: seq<Question>, idx: seq<nat>)
    requires forall j :: 0 <= j < |idx| ==> idx[j] < |pool|
    requires AllWellFormed(pool)
    ensures AllWellFormed(Pick(pool, idx))
  {
  }

  /** The positions 0 .. n - 1. */
  function Positions(n: nat): (r: set<nat>)
    ensures |r| == n
    ensures forall j: nat :: j in r <==> j < n
  {
    if n == 0 then {} else Positions(n - 1) + {n - 1}
  }

  /**
   * `random.sample(pool, k)`: `k` questions at distinct positions of the
   * pool, so no position is asked twice.
   */
  method Sample(pool: seq<Question>, k: nat) returns (picked: seq<Question>, drawn: seq<nat>)
    requires k <= |pool|
    ensures IsDraw(drawn, |pool|, k)
    ensures picked == Pick(pool, drawn)
  {
    var left := Positions(|pool|);
    drawn := [];
    picked := [];
    while |drawn| < k
      invariant |drawn| <= k
      invariant IsDraw(drawn, |pool|, |drawn|)
      invariant forall j: nat :: j in left <==> j < |pool| && j !in drawn
      invariant |left| == |pool| - |drawn|
      invariant picked == Pick(pool, drawn)
      decreases k - |drawn|
    {
      var j :| j in left;
      assert (drawn + [j])[..|drawn|] == drawn;
      drawn := drawn + [j];
      picked := picked + [pool[j]];
      left := left - {j};
    }
  }

  // The text that asks the questions.

  function OptionLines(options: seq<string>): string {
    if options == [] then "" else OptionLines(options[..|options| - 1]) + options[|options| - 1] + "\n"
  }

  /** One question as a quiz shows it: its number, its prompt, one line per option, a blank line. */
  function QuestionBlock(n: nat, q: Question): string {
    "Q" + NatToString(n) + ": " + q.question + "\n" + OptionLines(q.options) + "\n"
  }

  /** Every question of a quiz, numbered from 1. */
  function QuestionBlocks(qs: seq<Question>): string {
    if qs == [] then "" else QuestionBlocks(qs[..|qs| - 1]) + QuestionBlock(|qs|, qs[|qs| - 1])
  }

  const AnswerPrompt := "Tell me your answer(s) - e.g., 'A' or 'B, C, A'"

  /** `quiz_me`'s text; its header gives the count asked for, not the number drawn. */
  function QuizMeText(count: nat, qs: seq<Question>): string {
    "Practice Quiz - " + NatToString(count) + " Question(s)\n\n" + QuestionBlocks(qs) + AnswerPrompt
  }

  /** `quiz_domain`'s text. */
  function QuizDomainText(domainName: string, count: nat, qs: seq<Question>): string {
    "Practice Quiz - " + domainName + "\n" + "Questions: " + NatToString(count) + "\n\n" + QuestionBlocks(qs) + AnswerPrompt
  }

  method AppendOptionLines(prefix: string, options: seq<string>) returns (text: string)
    ensures text == prefix + OptionLines(options)
  {
    text := prefix;
    for i := 0 to |options|
      invariant text == prefix + OptionLines(options[..i])
    {
      assert options[..i + 1][..i] == options[..i];
      text := text + options[i] + "\n";
    }
    assert options[..|options|] == options;
  }

  /** The loop body of both quiz texts: the question, its options, a blank line. */
  method AppendQuestionBlock(prefix: string, n: nat, q: Question) returns (text: string)
    ensures text == prefix + QuestionBlock(n, q)
  {
    var head := "Q" + NatToString(n) + ": " + q.question + "\n";
    var options := OptionLines(q.options);
    text := AppendOptionLines(prefix + head, q.options);
    text := text + "\n";
    ConcatAssoc(prefix, head, options);
    ConcatAssoc(prefix, head + options, "\n");
  }

  method AppendQuestionBlocks(prefix: string, qs: seq<Question>) returns (text: string)
    ensures text == prefix + QuestionBlocks(qs)
  {
    text := prefix;
    for i := 0 to |qs|
      invariant text == prefix + QuestionBlocks(qs[..i])
    {
      text := AppendQuestionBlock(text, i + 1, qs[i]);
      assert qs[..i + 1][..i] == qs[..i];
      ConcatAssoc(prefix, QuestionBlocks(qs[..i]), QuestionBlock(i + 1, qs[i]));
    }
    assert qs[..|qs|] == qs;
  }

  /** Every question of a quiz appears in its text under its number. */
  lemma {:induction false} QuestionBlocksContain(qs: seq<Question>, i: nat)
    requires i < |qs|
    ensures Contains(QuestionBlocks(qs), QuestionBlock(i + 1, qs[i]))
    decreases |qs|
  {
    var init := qs[..|qs| - 1];
    var last := QuestionBlock(|qs|, qs[|qs| - 1]);
    if i == |qs| - 1 {
      ContainsSelf(last);
      ContainsLeft(QuestionBlocks(init), last, last);
    } else {
      assert init[i] == qs[i];
      QuestionBlocksContain(init, i);
      ContainsRight(QuestionBlocks(init), last, QuestionBlock(i + 1, qs[i]));
    }
  }

  // Reading and grading an answer.

  /** `[a.strip().upper() for a in answer.split(",")]`. */
  function ParseAnswers(answer: string): (r: seq<string>)
    ensures |r| == Count(answer, ',') + 1
    ensures forall i :: 0 <= i < |r| ==> r[i] == [] || (!IsSpace(r[i][0]) && !IsSpace(r[i][|r[i]| - 1]))
  {
    var parts := Split(answer, ',');
    StrippedParts(parts);
    seq(|parts|, i requires 0 <= i < |parts| => Upper(Strip(parts[i])))
  }

  lemma StrippedParts(parts: seq<string>)
    ensures forall i :: 0 <= i < |parts| ==>
      var r := Upper(Strip(parts[i])); r == [] || (!IsSpace(r[0]) && !IsSpace(r[|r| - 1]))
  {
    forall i | 0 <= i < |parts| {
      UpperStripped(parts[i]);
    }
  }

  /** The case the student types in does not matter: "b, c" reads as "B, C". */
  lemma AnswerCaseIgnored(answer: string)
    ensures ParseAnswers(Lower(answer)) == ParseAnswers(answer)
  {
    var parts := Split(answer, ',');
    SplitLower(answer, ',');
    forall i | 0 <= i < |parts|
      ensures Upper(Strip(Split(Lower(answer), ',')[i])) == Upper(Strip(parts[i]))
    {
      StripLower(parts[i]);
      UpperLower(Strip(parts[i]));
    }
  }

  /** A letter a student types in lower case, or with blanks around it, still reads as the letter. */
  lemma ParsedAnswerIsUpper(answer: string, i: nat, j: nat)
    requires i < |ParseAnswers(answer)| && j < |ParseAnswers(answer)[i]|
    ensures !IsAsciiLower(ParseAnswers(answer)[i][j])
  {
    UpperAt(Strip(Split(answer, ',')[i]), j);
  }

  /** How many answers are the correct letter of the question at the same position. */
  function CountCorrect(answers: seq<string>, quiz: seq<Question>): (r: nat)
    requires |answers| == |quiz|
    ensures r <= |quiz|
  {
    if quiz == [] then 0
    else
      CountCorrect(answers[..|answers| - 1], quiz[..|quiz| - 1]) +
      (if answers[|answers| - 1] == quiz[|quiz| - 1].correct then 1 else 0)
  }

  /** Every answer is right exactly when the count of right answers is the quiz length. */
  lemma {:induction false} AllCorrectIff(answers: seq<string>, quiz: seq<Question>)
    requires |answers| == |quiz|
    ensures CountCorrect(answers, quiz) == |quiz| <==>
      forall i :: 0 <= i < |quiz| ==> answers[i] == quiz[i].correct
    decreases |quiz|
  {
    if quiz != [] {
      var n := |quiz| - 1;
      AllCorrectIff(answers[..n], quiz[..n]);
      if CountCorrect(answers, quiz) == |quiz| {
        forall i | 0 <= i < |quiz|
          ensures answers[i] == quiz[i].correct
        {
          if i < n {
            assert answers[..n][i] == answers[i] && quiz[..n][i] == quiz[i];
          }
        }
      } else {
        if answers[n] == quiz[n].correct {
          var i :| 0 <= i < n && answers[..n][i] != quiz[..n][i].correct;
          assert answers[i] != quiz[i].correct;
        }
      }
    }
  }

  /** No answer is right exactly when the count of right answers is zero. */
  lemma {:induction false} NoneCorrectIff(answers: seq<string>, quiz: seq<Question>)
    requires |answers| == |quiz|
    ensures CountCorrect(answers, quiz) == 0 <==>
      forall i :: 0 <= i < |quiz| ==> answers[i] != quiz[i].correct
    decreases |quiz|
  {
    if quiz != [] {
      var n := |quiz| - 1;
      NoneCorrectIff(answers[..n], quiz[..n]);
      if CountCorrect(answers, quiz) == 0 {
        forall i | 0 <= i < |quiz|
          ensures answers[i] != quiz[i].correct
        {
          if i < n {
            assert answers[..n][i] == answers[i] && quiz[..n][i] == quiz[i];
          }
        }
      } else {
        if answers[n] != quiz[n].correct {
          var i :| 0 <= i < n && answers[..n][i] == quiz[..n][i].correct;
          assert answers[i] == quiz[i].correct;
        }
      }
    }
  }

  /** What the results say about one question. */
  function ResultLine(n: nat, answer: string, q: Question): string {
    (if answer == q.correct then "Q" + NatToString(n) + ": ✓ Correct!\n"
     else "Q" + NatToString(n) + ": ✗ Wrong. Answer: " + q.correct + "\n")
    + q.explanation + "\n\n"
  }

  function ResultLines(answers: seq<string>, quiz: seq<Question>): string
    requires |answers| == |quiz|
  {
    if quiz == [] then ""
    else
      ResultLines(answers[..|answers| - 1], quiz[..|quiz| - 1]) +
      ResultLine(|quiz|, answers[|answers| - 1], quiz[|quiz| - 1])
  }

  const ResultsHeader := "📊 Results:\n\n"

  /** `(correct / total) * 100`, the score kept in the quiz history. */
  function Score(correct: nat, total: nat): real
    requires total > 0
  {
    (correct as real / total as real) * 100.0
  }

  /**
   * The score's thresholds are integer comparisons of the counts: below 70,
   * at least 90 and exactly 100 are `100 * correct` against `70 * total`,
   * `90 * total` and `100 * total`.
   */
  lemma ScoreThresholds(correct: nat, total: nat)
    requires total > 0
    ensures Score(correct, total) < 70.0 <==> 100 * correct < 70 * total
    ensures Score(correct, total) >= 90.0 <==> 100 * correct >= 90 * total
    ensures Score(correct, total) < 100.0 <==> correct < total
    ensures Score(correct, total) == 100.0 <==> correct == total
  {
    var t := total as real;
    var c := correct as real;
    var s := Score(correct, total);
    ScoreTimesTotal(correct, total);
    CompareScaled(s, c, t, 70.0);
    CompareScaled(s, c, t, 90.0);
    CompareScaled(s, c, t, 100.0);
    ScaleIff(100.0, s, t);
  }

  lemma ScoreTimesTotal(correct: nat, total: nat)
    requires total > 0
    ensures Score(correct, total) * total as real == 100.0 * correct as real
  {
    var x := correct as real / total as real;
    assert x * total as real == correct as real;
  }

  lemma CompareScaled(s: real, c: real, t: real, k: real)
    requires t > 0.0 && s * t == 100.0 * c
    ensures s < k <==> 100.0 * c < k * t
  {
    ScaleIff(s, k, t);
  }

  lemma ScaleIff(a: real, b: real, t: real)
    requires t > 0.0
    ensures a < b <==> a * t < b * t
  {
    if a < b {
      assert (b - a) * t > 0.0;
    } else {
      assert (a - b) * t >= 0.0;
    }
  }

  /** `n / d` rounded to the nearest whole number, halves upwards. */
  function RoundDiv(n: nat, d: nat): (r: nat)
    requires d > 0
    ensures 2 * n < 2 * r * d + d && 2 * r * d <= 2 * n + d
  {
    var r := (2 * n + d) / (2 * d);
    assert (2 * n + d) == (2 * d) * r + (2 * n + d) % (2 * d);
    r
  }

  /** `f"{score:.0f}"`: the score as a whole percentage. */
  function Percent(correct: nat, total: nat): string
    requires total > 0
  {
    NatToString(RoundDiv(100 * correct, total))
  }

  /** `f"{accuracy:.1f}"` for `correct / answered * 100`: tenths of a percent, one decimal. */
  function OneDecimal(correct: nat, answered: nat): string
    requires answered > 0
  {
    var tenths := RoundDiv(1000 * correct, answered);
    NatToString(tenths / 10) + "." + NatToString(tenths % 10)
  }

  function ScoreLine(correct: nat, total: nat): string
    requires total > 0
  {
    "Score: " + NatToString(correct) + "/" + NatToString(total) + " (" + Percent(correct, total) + "%)\n"
  }

  const PerfectMessage := "🎉 Perfect!"
  const GoodMessage := "👍 Good work!"
  const StudyMessage := "📚 Keep studying!"

  /** The closing line of the results, chosen by the score. */
  function Tier(correct: nat, total: nat): string {
    if correct == total then PerfectMessage
    else if 100 * correct >= 70 * total then GoodMessage
    else StudyMessage
  }

  /** "Perfect" exactly at 100, "Good work" exactly from 70 up to 100, otherwise "Keep studying". */
  lemma TierByScore(correct: nat, total: nat)
    requires 0 < total && correct <= total
    ensures Tier(correct, total) == PerfectMessage <==> Score(correct, total) == 100.0
    ensures Tier(correct, total) == GoodMessage <==> 70.0 <= Score(correct, total) < 100.0
    ensures Tier(correct, total) == StudyMessage <==> Score(correct, total) < 70.0
  {
    ScoreThresholds(correct, total);
    assert |PerfectMessage| == 10 && |GoodMessage| == 12 && |StudyMessage| == 16;
  }

  /** What `check_answer` replies to a graded quiz. */
  function Report(answers: seq<string>, quiz: seq<Question>): string
    requires |answers| == |quiz| && |quiz| > 0
  {
    ResultsHeader + ResultLines(answers, quiz) + ScoreLine(CountCorrect(answers, quiz), |quiz|) +
    Tier(CountCorrect(answers, quiz), |quiz|)
  }

  // Weak and strong areas.

  predicate NoDuplicates(xs: seq<string>) {
    forall i, j :: 0 <= i < j < |xs| ==> xs[i] != xs[j]
  }

  /** `if x not in xs: xs.append(x)`. */
  function AddIfAbsent(xs: seq<string>, x: string): (r: seq<string>)
    ensures x in r
    ensures forall y :: y in r <==> y in xs || y == x
    ensures xs <= r && |r| <= |xs| + 1
    ensures NoDuplicates(xs) ==> NoDuplicates(r)
  {
    if x in xs then xs else xs + [x]
  }

  /** Python truthiness of an optional string: present and not empty. */
  predicate Truthy(s: Option<string>) {
    s.Some? && s.value != ""
  }

  /**
   * The weak and strong areas after a quiz: below 70 the current domain is
   * added to the weak areas, from 90 to the strong areas, and in between
   * neither list changes; without a current domain nothing changes.
   */
  function UpdateAreas(weak: seq<string>, strong: seq<string>, domain: Option<string>,
                       correct: nat, total: nat): (seq<string>, seq<string>)
  {
    if !Truthy(domain) then (weak, strong)
    else if 100 * correct < 70 * total then (AddIfAbsent(weak, domain.value), strong)
    else if 100 * correct >= 90 * total then (weak, AddIfAbsent(strong, domain.value))
    else (weak, strong)
  }

  /** Neither list ever holds a domain twice, and each only ever grows by the current domain. */
  lemma UpdateAreasKeepsLists(weak: seq<string>, strong: seq<string>, domain: Option<string>,
                              correct: nat, total: nat)
    ensures NoDuplicates(weak) ==> NoDuplicates(UpdateAreas(weak, strong, domain, correct, total).0)
    ensures NoDuplicates(strong) ==> NoDuplicates(UpdateAreas(weak, strong, domain, correct, total).1)
    ensures forall y :: y in UpdateAreas(weak, strong, domain, correct, total).0 <==>
      y in weak || (Truthy(domain) && 100 * correct < 70 * total && y == domain.value)
    ensures forall y :: y in UpdateAreas(weak, strong, domain, correct, total).1 <==>
      y in strong || (Truthy(domain) && 100 * correct >= 90 * total && y == domain.value)
  {
  }

  /** A score from 70 up to 90 leaves both lists as they were. */
  lemma MiddleScoreKeepsAreas(weak: seq<string>, strong: seq<string>, domain: Option<string>,
                              correct: nat, total: nat)
    requires 0 < total && 70.0 <= Score(correct, total) < 90.0
    ensures UpdateAreas(weak, strong, domain, correct, total) == (weak, strong)
  {
    ScoreThresholds(correct, total);
  }

  /**
   * Nothing takes a domain out of the weak areas: one that was weak and now
   * scores 90 or more is in both lists.
   */
  lemma WeakDomainCanBecomeStrong(weak: seq<string>, strong: seq<string>, domain: string,
                                  correct: nat, total: nat)
    requires domain in weak && domain != ""
    requires 0 < total && Score(correct, total) >= 90.0
    ensures domain in UpdateAreas(weak, strong, Some(domain), correct, total).0
    ensures domain in UpdateAreas(weak, strong, Some(domain), correct, total).1
  {
    ScoreThresholds(correct, total);
  }
}
