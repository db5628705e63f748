/**
 * The texts the tutor builds from a topic: the explanation of
 * `explain_topic`, the numbered lesson of `teach_lesson`, the scripted lesson
 * of `deliver_scripted_lesson` and the topic list of `list_topics`
 * (security_plus_agent.py). Each is defined once as a function, and the
 * loops that build it piece by piece are methods proved to produce it.
 */
module Lessons {
  import opened Wrappers
  import opened Text
  import opened Dict
  import opened Knowledge

  /** One bulleted line. */
  function Bullet(item: string): string {
    "• " + item + "\n"
  }

  /** A bulleted line for every item, in order. */
  function Bullets(items: seq<string>): string {
    if items == [] then "" else Bullets(items[..|items| - 1]) + Bullet(items[|items| - 1])
  }

  /** How many items of a list field an explanation shows. */
  const ExplainCap := 6

  /** How many items of a list field a lesson shows. */
  const LessonCap := 5

  /** An explanation's section for one list field: its display name, then at most six bullets. */
  function FieldSection(name: string, items: seq<string>): string {
    Display(name) + ":\n" + Bullets(Take(items, ExplainCap)) + "\n"
  }

  function FieldSections(lists: Dict<seq<string>>): string {
    if lists == [] then ""
    else FieldSections(lists[..|lists| - 1]) + FieldSection(lists[|lists| - 1].0, lists[|lists| - 1].1)
  }

  function KeyPointsSection(keyPoints: Option<seq<string>>): string {
    match keyPoints
    case None => ""
    case Some(points) => "🎯 Key Points:\n" + Bullets(points)
  }

  function ExplanationHeader(topicKey: string, t: Topic): string {
    "📚 " + Display(topicKey) + "\n\n" + t.description + "\n\n"
  }

  /**
   * What `explain_topic` says about a topic: a title, the description, every
   * list field with at most six of its items, then every key point.
   */
  function Explanation(topicKey: string, t: Topic): string {
    ExplanationHeader(topicKey, t) + FieldSections(t.lists) + KeyPointsSection(t.keyPoints)
  }

  /** Appends a bullet for each item, as the inner loops of the renderers do. */
  method AppendBullets(prefix: string, items: seq<string>) returns (text: string)
    ensures text == prefix + Bullets(items)
  {
    text := prefix;
    for i := 0 to |items|
      invariant text == prefix + Bullets(items[..i])
    {
      assert items[..i + 1][..i] == items[..i];
      text := text + Bullet(items[i]);
    }
    assert items[..|items|] == items;
  }

  /** Appends the section of one list field. */
  method AppendFieldSection(prefix: string, name: string, items: seq<string>) returns (text: string)
    ensures text == prefix + FieldSection(name, items)
  {
    var title := Display(name) + ":\n";
    var bullets := Bullets(Take(items, ExplainCap));
    text := AppendBullets(prefix + title, Take(items, ExplainCap));
    text := text + "\n";
    ConcatAssoc(prefix, title, bullets);
    ConcatAssoc(prefix, title + bullets, "\n");
  }

  /** `explain_topic`'s rendering loop. */
  method RenderExplanation(topicKey: string, t: Topic) returns (text: string)
    ensures text == Explanation(topicKey, t)
  {
    var header := ExplanationHeader(topicKey, t);
    text := header;
    for i := 0 to |t.lists|
      invariant text == header + FieldSections(t.lists[..i])
    {
      text := AppendFieldSection(text, t.lists[i].0, t.lists[i].1);
      assert t.lists[..i + 1][..i] == t.lists[..i];
      ConcatAssoc(header, FieldSections(t.lists[..i]), FieldSection(t.lists[i].0, t.lists[i].1));
    }
    assert t.lists[..|t.lists|] == t.lists;
    var body := text;
    if t.keyPoints.Some? {
      var points := t.keyPoints.value;
      text := AppendBullets(text + "🎯 Key Points:\n", points);
      ConcatAssoc(body, "🎯 Key Points:\n", Bullets(points));
    } else {
      assert text == body + "";
    }
  }

  /** A numbered line. */
  function NumberedLine(n: nat, item: string): string {
    NatToString(n) + ". " + item + "\n"
  }

  /** The items as lines numbered from 1. */
  function Numbered(items: seq<string>): string {
    if items == [] then "" else Numbered(items[..|items| - 1]) + NumberedLine(|items|, items[|items| - 1])
  }

  /** How a lesson introduces its `ordinal`-th list field. */
  function FieldIntro(ordinal: nat, name: string): string {
    if ordinal == 1 then "Now, let me walk you through the " + ReplaceChar(name, '_', ' ') + " you need to know:\n\n"
    else "Next, let's look at the " + ReplaceChar(name, '_', ' ') + ":\n\n"
  }

  const NoteThese := "\nTake a moment to note these down. These are exam favorites.\n\n"

  /** A lesson's part for its `ordinal`-th list field: an introduction and at most five numbered items. */
  function LessonField(ordinal: nat, name: string, items: seq<string>): string {
    FieldIntro(ordinal, name) + Numbered(Take(items, LessonCap)) + NoteThese
  }

  function LessonFields(lists: Dict<seq<string>>): string {
    if lists == [] then ""
    else LessonFields(lists[..|lists| - 1]) + LessonField(|lists|, lists[|lists| - 1].0, lists[|lists| - 1].1)
  }

  function LessonKeyPoints(keyPoints: Option<seq<string>>): string {
    match keyPoints
    case None => ""
    case Some(points) =>
      "🎯 Here are the critical points you absolutely must remember:\n\n" + Bullets(points)
      + "\nThese often appear on the exam, so highlight them in your notes.\n\n"
  }

  function LessonHeader(topicKey: string, t: Topic): string {
    "📚 Today's Lesson: " + Display(topicKey) + "\n\n"
    + "Alright class, today we're going to cover " + ReplaceChar(topicKey, '_', ' ')
    + ". This is an important topic for your Security+ exam.\n\n"
    + "Let me start with the fundamentals. " + t.description + "\n\n"
    + "Let me pause here for a moment so you can write that down.\n\n"
  }

  const LessonClosing := "Now, before we move on - do you have any questions about what we've covered so far?"

  /**
   * What `teach_lesson` says: an introduction with the description, each
   * list field with at most five items numbered from 1, the key points, and
   * a closing question.
   */
  function Lesson(topicKey: string, t: Topic): string {
    LessonHeader(topicKey, t) + LessonFields(t.lists) + LessonKeyPoints(t.keyPoints) + LessonClosing
  }

  /** Appends a line numbered from 1 for each item. */
  method AppendNumbered(prefix: string, items: seq<string>) returns (text: string)
    ensures text == prefix + Numbered(items)
  {
    text := prefix;
    for i := 0 to |items|
      invariant text == prefix + Numbered(items[..i])
    {
      assert items[..i + 1][..i] == items[..i];
      text := text + NumberedLine(i + 1, items[i]);
    }
    assert items[..|items|] == items;
  }

  /** Appends the part of the `ordinal`-th list field. */
  method AppendLessonField(prefix: string, ordinal: nat, name: string, items: seq<string>) returns (text: string)
    ensures text == prefix + LessonField(ordinal, name, items)
  {
    var intro := FieldIntro(ordinal, name);
    var numbered := Numbered(Take(items, LessonCap));
    text := AppendNumbered(prefix + intro, Take(items, LessonCap));
    text := text + NoteThese;
    ConcatAssoc(prefix, intro, numbered);
    ConcatAssoc(prefix, intro + numbered, NoteThese);
  }

  /** Appends the key points part of a lesson. */
  method AppendLessonKeyPoints(prefix: string, keyPoints: Option<seq<string>>) returns (text: string)
    ensures text == prefix + LessonKeyPoints(keyPoints)
  {
    text := prefix;
    if keyPoints.Some? {
      var opening := "🎯 Here are the critical points you absolutely must remember:\n\n";
      var closing := "\nThese often appear on the exam, so highlight them in your notes.\n\n";
      var bullets := Bullets(keyPoints.value);
      text := AppendBullets(text + opening, keyPoints.value);
      text := text + closing;
      ConcatAssoc(prefix, opening, bullets);
      ConcatAssoc(prefix, opening + bullets, closing);
    } else {
      assert text == prefix + "";
    }
  }

  /** `teach_lesson`'s rendering loop; `fieldCount` numbers the list fields from 1. */
  method RenderLesson(topicKey: string, t: Topic) returns (text: string)
    ensures text == Lesson(topicKey, t)
  {
    var header := LessonHeader(topicKey, t);
    text := header;
    var fieldCount := 0;
    for i := 0 to |t.lists|
      invariant fieldCount == i
      invariant text == header + LessonFields(t.lists[..i])
    {
      fieldCount := fieldCount + 1;
      text := AppendLessonField(text, fieldCount, t.lists[i].0, t.lists[i].1);
      assert t.lists[..i + 1][..i] == t.lists[..i];
      ConcatAssoc(header, LessonFields(t.lists[..i]), LessonField(i + 1, t.lists[i].0, t.lists[i].1));
    }
    assert t.lists[..|t.lists|] == t.lists;
    text := AppendLessonKeyPoints(text, t.keyPoints);
    text := text + LessonClosing;
  }

  /** What `deliver_scripted_lesson` says when the topic has a script. */
  function ScriptedLesson(topicKey: string, domain: Domain, script: string): string {
    "📚 Scripted Lesson: " + Display(topicKey) + "\n\n" + "Domain: " + domain.name + "\n\n" + script
  }

  /** What `deliver_scripted_lesson` says when the topic has none. */
  function NoScriptedLesson(topicKey: string): string {
    "No scripted lesson available for " + topicKey + ". Try using 'teach_lesson' or 'explain_topic' instead."
  }

  function TopicLine(key: string, t: Topic): string {
    "• " + key + ": " + t.description + "\n"
  }

  function TopicLines(topics: Dict<Topic>): string {
    if topics == [] then ""
    else TopicLines(topics[..|topics| - 1]) + TopicLine(topics[|topics| - 1].0, topics[|topics| - 1].1)
  }

  /** What `list_topics` says about a domain: its name and weight, then one line per topic. */
  function TopicList(domain: Domain): string {
    domain.name + " (" + domain.weight + ")\n\n" + TopicLines(domain.topics)
  }

  /** `list_topics`'s rendering loop. */
  method RenderTopicList(domain: Domain) returns (text: string)
    ensures text == TopicList(domain)
  {
    var header := domain.name + " (" + domain.weight + ")\n\n";
    text := header;
    for i := 0 to |domain.topics|
      invariant text == header + TopicLines(domain.topics[..i])
    {
      assert domain.topics[..i + 1][..i] == domain.topics[..i];
      text := text + "• " + domain.topics[i].0 + ": " + domain.topics[i].1.description + "\n";
    }
    assert domain.topics[..|domain.topics|] == domain.topics;
  }

  // Properties of the texts.

  /** Every item has its bullet in the bulleted list. */
  lemma {:induction false} BulletsContain(items: seq<string>, j: nat)
    requires j < |items|
    ensures Contains(Bullets(items), Bullet(items[j]))
    decreases |items|
  {
    var init := items[..|items| - 1];
    var last := Bullet(items[|items| - 1]);
    if j == |items| - 1 {
      ContainsSelf(last);
      ContainsLeft(Bullets(init), last, last);
    } else {
      assert init[j] == items[j];
      BulletsContain(init, j);
      ContainsRight(Bullets(init), last, Bullet(items[j]));
    }
  }

  /** Every item has its number, counted from 1, in the numbered list. */
  lemma {:induction false} NumberedContain(items: seq<string>, j: nat)
    requires j < |items|
    ensures Contains(Numbered(items), NumberedLine(j + 1, items[j]))
    decreases |items|
  {
    var init := items[..|items| - 1];
    var last := NumberedLine(|items|, items[|items| - 1]);
    if j == |items| - 1 {
      ContainsSelf(last);
      ContainsLeft(Numbered(init), last, last);
    } else {
      assert init[j] == items[j];
      NumberedContain(init, j);
      ContainsRight(Numbered(init), last, NumberedLine(j + 1, items[j]));
    }
  }

  /** Each of the first six items of every list field has its bullet in the sections. */
  lemma {:induction false} FieldSectionsContain(lists: Dict<seq<string>>, k: nat, j: nat)
    requires k < |lists| && j < |lists[k].1| && j < ExplainCap
    ensures Contains(FieldSections(lists), Bullet(lists[k].1[j]))
    decreases |lists|
  {
    var init := lists[..|lists| - 1];
    var name, items := lists[|lists| - 1].0, lists[|lists| - 1].1;
    var bullet := Bullet(lists[k].1[j]);
    if k == |lists| - 1 {
      var shown := Take(items, ExplainCap);
      assert shown[j] == items[j];
      BulletsContain(shown, j);
      ContainsLeft(Display(name) + ":\n", Bullets(shown), bullet);
      ContainsRight(Display(name) + ":\n" + Bullets(shown), "\n", bullet);
      ContainsLeft(FieldSections(init), FieldSection(name, items), bullet);
    } else {
      assert init[k] == lists[k];
      FieldSectionsContain(init, k, j);
      ContainsRight(FieldSections(init), FieldSection(name, items), bullet);
    }
  }

  /**
   * The explanation holds the description, the first six items of every
   * list field, and every key point.
   */
  lemma ExplanationCovers(topicKey: string, t: Topic)
    ensures Contains(Explanation(topicKey, t), t.description)
    ensures forall k, j :: 0 <= k < |t.lists| && 0 <= j < |t.lists[k].1| && j < ExplainCap ==>
      Contains(Explanation(topicKey, t), Bullet(t.lists[k].1[j]))
    ensures t.keyPoints.Some? ==> forall j :: 0 <= j < |t.keyPoints.value| ==>
      Contains(Explanation(topicKey, t), Bullet(t.keyPoints.value[j]))
  {
    var header := ExplanationHeader(topicKey, t);
    var sections := FieldSections(t.lists);
    var points := KeyPointsSection(t.keyPoints);
    var title := "📚 " + Display(topicKey) + "\n\n";
    ContainsSelf(t.description);
    ContainsLeft(title, t.description, t.description);
    ContainsRight(title + t.description, "\n\n", t.description);
    ContainsRight(header, sections, t.description);
    ContainsRight(header + sections, points, t.description);
    forall k, j | 0 <= k < |t.lists| && 0 <= j < |t.lists[k].1| && j < ExplainCap
      ensures Contains(Explanation(topicKey, t), Bullet(t.lists[k].1[j]))
    {
      FieldSectionsContain(t.lists, k, j);
      ContainsLeft(header, sections, Bullet(t.lists[k].1[j]));
      ContainsRight(header + sections, points, Bullet(t.lists[k].1[j]));
    }
    if t.keyPoints.Some? {
      var items := t.keyPoints.value;
      forall j | 0 <= j < |items|
        ensures Contains(Explanation(topicKey, t), Bullet(items[j]))
      {
        BulletsContain(items, j);
        ContainsLeft("🎯 Key Points:\n", Bullets(items), Bullet(items[j]));
        ContainsLeft(header + sections, points, Bullet(items[j]));
      }
    }
  }

  /** The list fields with each list cut to its first `n` items. */
  function CapLists(lists: Dict<seq<string>>, n: nat): (r: Dict<seq<string>>)
    ensures |r| == |lists|
    ensures forall k :: 0 <= k < |r| ==> r[k].0 == lists[k].0 && r[k].1 == Take(lists[k].1, n)
  {
    seq(|lists|, k requires 0 <= k < |lists| => (lists[k].0, Take(lists[k].1, n)))
  }

  /** Items of a list field past the sixth do not change the explanation. */
  lemma {:induction false} ExplanationIgnoresExtraItems(topicKey: string, t: Topic)
    ensures Explanation(topicKey, t.(lists := CapLists(t.lists, ExplainCap))) == Explanation(topicKey, t)
  {
    FieldSectionsCapped(t.lists);
  }

  lemma {:induction false} FieldSectionsCapped(lists: Dict<seq<string>>)
    ensures FieldSections(CapLists(lists, ExplainCap)) == FieldSections(lists)
    decreases |lists|
  {
    if lists != [] {
      var init := lists[..|lists| - 1];
      assert CapLists(lists, ExplainCap)[..|lists| - 1] == CapLists(init, ExplainCap);
      FieldSectionsCapped(init);
      var items := lists[|lists| - 1].1;
      assert Take(Take(items, ExplainCap), ExplainCap) == Take(items, ExplainCap);
    }
  }

  /** Each of the first five items of every list field has its number in the lesson parts. */
  lemma {:induction false} LessonFieldsContain(lists: Dict<seq<string>>, k: nat, j: nat)
    requires k < |lists| && j < |lists[k].1| && j < LessonCap
    ensures Contains(LessonFields(lists), NumberedLine(j + 1, lists[k].1[j]))
    decreases |lists|
  {
    var init := lists[..|lists| - 1];
    var name, items := lists[|lists| - 1].0, lists[|lists| - 1].1;
    var line := NumberedLine(j + 1, lists[k].1[j]);
    if k == |lists| - 1 {
      var shown := Take(items, LessonCap);
      var intro := FieldIntro(|lists|, name);
      assert shown[j] == items[j];
      NumberedContain(shown, j);
      ContainsLeft(intro, Numbered(shown), line);
      ContainsRight(intro + Numbered(shown), NoteThese, line);
      ContainsLeft(LessonFields(init), LessonField(|lists|, name, items), line);
    } else {
      assert init[k] == lists[k];
      LessonFieldsContain(init, k, j);
      ContainsRight(LessonFields(init), LessonField(|lists|, name, items), line);
    }
  }

  /** The lesson holds the description and the first five items of every list field, numbered from 1. */
  lemma LessonCovers(topicKey: string, t: Topic)
    ensures Contains(Lesson(topicKey, t), t.description)
    ensures forall k, j :: 0 <= k < |t.lists| && 0 <= j < |t.lists[k].1| && j < LessonCap ==>
      Contains(Lesson(topicKey, t), NumberedLine(j + 1, t.lists[k].1[j]))
  {
    var header := LessonHeader(topicKey, t);
    var fields := LessonFields(t.lists);
    var points := LessonKeyPoints(t.keyPoints);
    var intro := "📚 Today's Lesson: " + Display(topicKey) + "\n\n"
      + "Alright class, today we're going to cover " + ReplaceChar(topicKey, '_', ' ')
      + ". This is an important topic for your Security+ exam.\n\n"
      + "Let me start with the fundamentals. ";
    ContainsSelf(t.description);
    ContainsLeft(intro, t.description, t.description);
    ContainsRight(intro + t.description, "\n\n", t.description);
    ContainsRight(intro + t.description + "\n\n", "Let me pause here for a moment so you can write that down.\n\n", t.description);
    ContainsRight(header, fields, t.description);
    ContainsRight(header + fields, points, t.description);
    ContainsRight(header + fields + points, LessonClosing, t.description);
    forall k, j | 0 <= k < |t.lists| && 0 <= j < |t.lists[k].1| && j < LessonCap
      ensures Contains(Lesson(topicKey, t), NumberedLine(j + 1, t.lists[k].1[j]))
    {
      var line := NumberedLine(j + 1, t.lists[k].1[j]);
      LessonFieldsContain(t.lists, k, j);
      ContainsLeft(header, fields, line);
      ContainsRight(header + fields, points, line);
      ContainsRight(header + fields + points, LessonClosing, line);
    }
  }

  /** Items of a list field past the fifth do not change the lesson. */
  lemma {:induction false} LessonIgnoresExtraItems(topicKey: string, t: Topic)
    ensures Lesson(topicKey, t.(lists := CapLists(t.lists, LessonCap))) == Lesson(topicKey, t)
  {
    LessonFieldsCapped(t.lists);
  }

  lemma {:induction false} LessonFieldsCapped(lists: Dict<seq<string>>)
    ensures LessonFields(CapLists(lists, LessonCap)) == LessonFields(lists)
    decreases |lists|
  {
    if lists != [] {
      var init := lists[..|lists| - 1];
      assert CapLists(lists, LessonCap)[..|lists| - 1] == CapLists(init, LessonCap);
      LessonFieldsCapped(init);
      var items := lists[|lists| - 1].1;
      assert Take(Take(items, LessonCap), LessonCap) == Take(items, LessonCap);
    }
  }
}
