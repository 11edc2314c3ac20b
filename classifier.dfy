/** The topic classifier: an ordered chain of keyword groups tested against
    the lowercased message, the first group with a contained keyword deciding
    the topic. */
module Classifier {
  import opened Text

  datatype Topic =
    | Apod             // astronomy picture of the day
    | NearEarthObject
    | MarsRover
    | Launch
    | Isro
    | Constellation
    | Planet
    | Star
    | Galaxy
    | General          // no group matched

  const ApodKeywords: seq<string> := ["apod", "picture", "photo", "image"]
  const NeoKeywords: seq<string> := ["asteroid", "neo", "near earth"]
  const MarsKeywords: seq<string> := ["mars", "rover", "curiosity"]
  const LaunchKeywords: seq<string> := ["spacex", "launch", "rocket"]
  const IsroKeywords: seq<string> := ["isro", "indian space", "india"]
  const ConstellationKeywords: seq<string> :=
    ["ursa major", "ursa minor", "orion", "cassiopeia", "andromeda", "constellation", "big dipper", "little dipper"]
  const PlanetKeywords: seq<string> :=
    ["mercury", "venus", "earth", "mars", "jupiter", "saturn", "uranus", "neptune", "planet"]
  const StarKeywords: seq<string> := ["star", "sun", "supernova", "neutron star", "white dwarf", "black hole"]
  const GalaxyKeywords: seq<string> := ["galaxy", "milky way", "andromeda galaxy", "spiral galaxy"]

  /** The if/elif chain, as (topic, keyword group) rules in the order they are tested. */
  const Rules: seq<(Topic, seq<string>)> := [
    (Apod, ApodKeywords),
    (NearEarthObject, NeoKeywords),
    (MarsRover, MarsKeywords),
    (Launch, LaunchKeywords),
    (Isro, IsroKeywords),
    (Constellation, ConstellationKeywords),
    (Planet, PlanetKeywords),
    (Star, StarKeywords),
    (Galaxy, GalaxyKeywords)
  ]

  /** `kw1 in msg or kw2 in msg or …`, equally `any(kw in msg for kw in group)`. */
  predicate AnyKeyword(msg: string, group: seq<string>) {
    exists k | 0 <= k < |group| :: Contains(msg, group[k])
  }

  /** Rule `i` is the first rule, in chain order, whose group matches `msg`. */
  predicate IsFirstRule(rules: seq<(Topic, seq<string>)>, msg: string, i: nat) {
    i < |rules| && AnyKeyword(msg, rules[i].1) &&
    forall j :: 0 <= j < i ==> !AnyKeyword(msg, rules[j].1)
  }

  /** No rule's group matches `msg`. */
  predicate NoRuleMatches(rules: seq<(Topic, seq<string>)>, msg: string) {
    forall j :: 0 <= j < |rules| ==> !AnyKeyword(msg, rules[j].1)
  }

  /** First-match-wins evaluation of a rule chain; `General` when nothing matches. */
  function FirstRule(rules: seq<(Topic, seq<string>)>, msg: string): (t: Topic)
    ensures NoRuleMatches(rules, msg) ==> t == General
    ensures forall i: nat :: IsFirstRule(rules, msg, i) ==> t == rules[i].0
    decreases |rules|
  {
    if |rules| == 0 then General
    else if AnyKeyword(msg, rules[0].1) then rules[0].0
    else
      FirstRuleShift(rules, msg);
      FirstRule(rules[1..], msg)
  }

  /** Dropping a chain's first rule when it does not match shifts every later
      first match down by one. */
  lemma FirstRuleShift(rules: seq<(Topic, seq<string>)>, msg: string)
    requires |rules| > 0 && !AnyKeyword(msg, rules[0].1)
    ensures NoRuleMatches(rules, msg) <==> NoRuleMatches(rules[1..], msg)
    ensures forall i: nat :: IsFirstRule(rules, msg, i) ==> i > 0 && IsFirstRule(rules[1..], msg, i - 1)
  {
    forall i: nat | IsFirstRule(rules, msg, i)
      ensures i > 0 && IsFirstRule(rules[1..], msg, i - 1)
    {
      forall j | 0 <= j < i - 1 ensures !AnyKeyword(msg, rules[1..][j].1) {
        assert rules[1..][j] == rules[j + 1];
      }
    }
    if NoRuleMatches(rules[1..], msg) {
      forall j | 0 <= j < |rules| ensures !AnyKeyword(msg, rules[j].1) {
        if j > 0 { assert rules[j] == rules[1..][j - 1]; }
      }
    }
  }

  /** If rule `i` matches, some rule no later than `i` is the first to match. */
  lemma {:induction false} FirstRuleAtMost(rules: seq<(Topic, seq<string>)>, msg: string, i: nat)
    requires i < |rules| && AnyKeyword(msg, rules[i].1)
    ensures exists f: nat :: f <= i && IsFirstRule(rules, msg, f)
    decreases i
  {
    if AnyKeyword(msg, rules[0].1) {
      assert IsFirstRule(rules, msg, 0);
    } else {
      assert rules[1..][i - 1] == rules[i];
      FirstRuleAtMost(rules[1..], msg, i - 1);
      var f: nat :| f <= i - 1 && IsFirstRule(rules[1..], msg, f);
      assert rules[1..][f] == rules[f + 1];
      forall j | 0 <= j < f + 1 ensures !AnyKeyword(msg, rules[j].1) {
        if j > 0 { assert rules[j] == rules[1..][j - 1]; }
      }
      assert IsFirstRule(rules, msg, f + 1);
    }
  }

  /** Whenever some rule matches, one of them is the first. */
  lemma FirstRuleExists(rules: seq<(Topic, seq<string>)>, msg: string)
    ensures !NoRuleMatches(rules, msg) ==> exists f: nat :: IsFirstRule(rules, msg, f)
  {
    if !NoRuleMatches(rules, msg) {
      var i :| 0 <= i < |rules| && AnyKeyword(msg, rules[i].1);
      FirstRuleAtMost(rules, msg, i);
    }
  }

  /** The topic of an already lowercased message. The result is `General`
      exactly when no group matches, and otherwise the topic of the first
      group, in chain order, holding a keyword the message contains. */
  function Classify(msg: string): (t: Topic)
    ensures t == General <==> NoRuleMatches(Rules, msg)
    ensures forall i: nat :: IsFirstRule(Rules, msg, i) ==> t == Rules[i].0
  {
    FirstRuleExists(Rules, msg);
    FirstRule(Rules, msg)
  }

  /** The position of a topic's rule in the chain; `General` comes after all of them. */
  function Rank(t: Topic): (n: nat)
    ensures n <= |Rules|
    ensures n < |Rules| ==> Rules[n].0 == t
    ensures n == |Rules| <==> t == General
  {
    match t
    case Apod => 0
    case NearEarthObject => 1
    case MarsRover => 2
    case Launch => 3
    case Isro => 4
    case Constellation => 5
    case Planet => 6
    case Star => 7
    case Galaxy => 8
    case General => 9
  }

  /** A contained keyword of group `i` caps the topic: it is that of rule `i`
      or of an earlier rule, never of a later one and never `General`. */
  lemma KeywordCapsRank(msg: string, i: nat, kw: string)
    requires i < |Rules| && kw in Rules[i].1 && Contains(msg, kw)
    ensures Rank(Classify(msg)) <= i
  {
    var k :| 0 <= k < |Rules[i].1| && Rules[i].1[k] == kw;
    assert AnyKeyword(msg, Rules[i].1);
    FirstRuleAtMost(Rules, msg, i);
    var f: nat :| f <= i && IsFirstRule(Rules, msg, f);
    assert Rank(Rules[f].0) == f;
  }

  /** A contained keyword of group `i` decides the topic when no earlier group matches. */
  lemma KeywordDecides(msg: string, i: nat, kw: string)
    requires i < |Rules| && kw in Rules[i].1 && Contains(msg, kw)
    requires forall j :: 0 <= j < i ==> !AnyKeyword(msg, Rules[j].1)
    ensures Classify(msg) == Rules[i].0
  {
    var k :| 0 <= k < |Rules[i].1| && Rules[i].1[k] == kw;
    assert IsFirstRule(Rules, msg, i);
  }

  /** A group of non-empty keywords has none in the empty message. */
  lemma NoneInEmpty(group: seq<string>)
    requires forall k :: 0 <= k < |group| ==> |group[k]| > 0
    ensures !AnyKeyword("", group)
  {
    forall k | 0 <= k < |group| ensures !Contains("", group[k]) {
      EmptyContainsNothing(group[k]);
    }
  }

  /** Every keyword is non-empty, so the empty message (also what a request
      without a message field becomes) is classified as general. */
  lemma EmptyIsGeneral()
    ensures Classify("") == General
  {
    NoneInEmpty(ApodKeywords);
    NoneInEmpty(NeoKeywords);
    NoneInEmpty(MarsKeywords);
    NoneInEmpty(LaunchKeywords);
    NoneInEmpty(IsroKeywords);
    NoneInEmpty(ConstellationKeywords);
    NoneInEmpty(PlanetKeywords);
    NoneInEmpty(StarKeywords);
    NoneInEmpty(GalaxyKeywords);
  }
}
