/**
 * The tutor's knowledge base (the `ALL_DOMAINS` catalog, domains/__init__.py)
 * and how a domain and a topic named by the student are looked up in it.
 */
module Knowledge {
  import opened Wrappers
  import opened Text
  import opened Dict

  /**
   * A topic: its description, its list-valued fields other than `key_points`
   * in the order they are declared, and its key points and scripted lesson
   * when it has them. The renderers skip every other kind of field, so the
   * model does not carry them.
   */
  datatype Topic = Topic(
    description: string,
    lists: Dict<seq<string>>,
    keyPoints: Option<seq<string>>,
    scriptedLesson: Option<string>)

  datatype Domain = Domain(name: string, weight: string, topics: Dict<Topic>)

  /** Domain key (`domain_1` ...) to domain, in declaration order. */
  type Catalog = Dict<Domain>

  /** The outcome of looking up a domain and a topic named by the student. */
  datatype Lookup =
    | UnknownDomain
    | UnknownTopic(domain: Domain)
    | Found(domainKey: string, topicKey: string, domain: Domain, topic: Topic)

  /**
   * Both names are lower-cased and have spaces turned into underscores, then
   * the domain is looked up in the catalog and the topic in that domain.
   */
  function FindTopic(catalog: Catalog, domainName: string, topicName: string): (r: Lookup)
    ensures r.UnknownDomain? <==> Normalize(domainName) !in Keys(catalog)
    ensures r.UnknownTopic? <==>
      Normalize(domainName) in Keys(catalog) &&
      Normalize(topicName) !in Keys(Get(catalog, Normalize(domainName)).value.topics)
    ensures r.UnknownTopic? ==> Get(catalog, Normalize(domainName)) == Some(r.domain)
    ensures r.Found? ==>
      && r.domainKey == Normalize(domainName) && r.topicKey == Normalize(topicName)
      && Get(catalog, r.domainKey) == Some(r.domain) && Get(r.domain.topics, r.topicKey) == Some(r.topic)
  {
    var d := Normalize(domainName);
    var t := Normalize(topicName);
    match Get(catalog, d)
    case None => UnknownDomain
    case Some(domain) =>
      match Get(domain.topics, t)
      case None => UnknownTopic(domain)
      case Some(topic) => Found(d, t, domain, topic)
  }

  /** The reply to a failed look-up: how to name a domain, or the topics the domain has. */
  function Guidance(r: Lookup): string
    requires !r.Found?
  {
    match r
    case UnknownDomain => "Use domain_1 through domain_5"
    case UnknownTopic(domain) => "Available topics: " + Join(Keys(domain.topics), ", ")
  }

  /** Every piece of a joined list occurs in the joined text. */
  lemma {:induction false} JoinContains(parts: seq<string>, sep: string, i: nat)
    requires i < |parts|
    ensures Contains(Join(parts, sep), parts[i])
    decreases |parts|
  {
    if |parts| == 1 {
      assert parts[i] <= Join(parts, sep)[0..];
    } else if i == 0 {
      ContainsMiddle([], parts[0], sep + Join(parts[1..], sep));
      assert [] + parts[0] + (sep + Join(parts[1..], sep)) == Join(parts, sep);
    } else {
      JoinContains(parts[1..], sep, i - 1);
      ContainsWithin(Join(parts[1..], sep), parts[i], parts[0] + sep, []);
      assert parts[0] + sep + Join(parts[1..], sep) + [] == Join(parts, sep);
    }
  }

  /** When the topic is unknown, the reply names every topic the domain has. */
  lemma GuidanceListsTopics(catalog: Catalog, domainName: string, topicName: string, k: nat)
    requires FindTopic(catalog, domainName, topicName).UnknownTopic?
    requires k < |FindTopic(catalog, domainName, topicName).domain.topics|
    ensures Contains(Guidance(FindTopic(catalog, domainName, topicName)),
                     FindTopic(catalog, domainName, topicName).domain.topics[k].0)
  {
    var topics := FindTopic(catalog, domainName, topicName).domain.topics;
    JoinContains(Keys(topics), ", ", k);
    ContainsWithin(Join(Keys(topics), ", "), Keys(topics)[k], "Available topics: ", []);
    assert "Available topics: " + Join(Keys(topics), ", ") + [] == "Available topics: " + Join(Keys(topics), ", ");
  }

  /**
   * The look-up does not depend on how the student capitalises or spaces the
   * names: asking again with the normalised names finds the same thing.
   */
  lemma FindTopicNormalized(catalog: Catalog, domainName: string, topicName: string)
    ensures FindTopic(catalog, Normalize(domainName), Normalize(topicName)) == FindTopic(catalog, domainName, topicName)
  {
    NormalizeIdempotent(domainName);
    NormalizeIdempotent(topicName);
  }
}
