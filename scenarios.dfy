/** Whole requests traced through the chat endpoint: the classification a
    concrete message gets and the reply it is answered with. Each trace
    splits into facts about the message's characters (which keywords it
    holds) and consequences of those facts that hold for every message. */
module Scenarios {
  import opened Text
  import opened Wrappers
  import opened Pools
  import opened Lookup
  import opened Classifier
  import opened Fetchers
  import opened Chat
  import opened Shadowing

  /** A message that is already lower case is answered by the handler of
      its own topic. */
  lemma RoutedTo(msg: string, env: Environment, topic: Topic)
    requires Lower(msg) == msg && Classify(msg) == topic
    ensures SpaceChat(Body(Some(JStr(msg))), env) == Answer(topic, msg, env)
  {
  }

  /** Two messages with the same lowercase form get the same reply. */
  lemma SameLowerSameReply(s: string, t: string, env: Environment)
    requires Lower(s) == Lower(t)
    ensures SpaceChat(Body(Some(JStr(s))), env) == SpaceChat(Body(Some(JStr(t))), env)
  {
  }

  /** A message holding "orion" but none of the three keys listed before it
      is answered, by the constellation lookup, with the Orion text. */
  lemma OrionLookup(msg: string)
    requires Contains(msg, "orion")
    requires !Contains(msg, "ursa major") && !Contains(msg, "big dipper") && !Contains(msg, "ursa minor")
    ensures ConstellationTable[3].0 == "orion"
    ensures ConstellationInfo(msg) == ConstellationTable[3].1
  {
    assert IsFirstMatch(ConstellationTable, msg, 3);
  }

  /** … and so is such a message, lower case and classified as a
      constellation question, sent as a request. */
  lemma OrionReply(msg: string, env: Environment)
    requires Lower(msg) == msg && Classify(msg) == Constellation
    requires Contains(msg, "orion")
    requires !Contains(msg, "ursa major") && !Contains(msg, "big dipper") && !Contains(msg, "ursa minor")
    ensures SpaceChat(Body(Some(JStr(msg))), env) == Canned(ConstellationTable[3].1)
  {
    OrionLookup(msg);
  }

  /** A message holding "scorpio" but none of the six keys listed before it
      is answered, by the constellation lookup, with the Scorpio text. */
  lemma ScorpioLookup(msg: string)
    requires Contains(msg, "scorpio")
    requires !Contains(msg, "ursa major") && !Contains(msg, "big dipper") && !Contains(msg, "ursa minor")
    requires !Contains(msg, "orion") && !Contains(msg, "cassiopeia") && !Contains(msg, "andromeda")
    ensures ConstellationInfo(msg) == ConstellationTable[6].1
  {
    ScorpioEitherSpelling(msg);
  }

  /** … and so is such a message, lower case and classified as a
      constellation question, sent as a request. */
  lemma ScorpioReply(msg: string, env: Environment)
    requires Lower(msg) == msg && Classify(msg) == Constellation
    requires Contains(msg, "scorpio")
    requires !Contains(msg, "ursa major") && !Contains(msg, "big dipper") && !Contains(msg, "ursa minor")
    requires !Contains(msg, "orion") && !Contains(msg, "cassiopeia") && !Contains(msg, "andromeda")
    ensures SpaceChat(Body(Some(JStr(msg))), env) == Canned(ConstellationTable[6].1)
  {
    ScorpioLookup(msg);
  }

  // "what is orion"

  lemma WhatIsOrionLower(m: string)
    requires m == "what is orion"
    ensures Lower(m) == m
  {
    LowerOfLower(m);
  }

  /** The message holds "orion" and none of the keys listed before it. */
  lemma WhatIsOrionKeys(m: string)
    requires m == "what is orion"
    ensures Contains(m, "orion")
    ensures !Contains(m, "ursa major") && !Contains(m, "big dipper") && !Contains(m, "ursa minor")
  {
    OccursByChars(m, "orion", 8);
    AbsentChar(m, "ursa major", 0);
    AbsentChar(m, "big dipper", 0);
    AbsentChar(m, "ursa minor", 0);
  }

  /** "what is orion" is a constellation question… */
  lemma WhatIsOrionTopic(m: string)
    requires m == "what is orion"
    ensures Classify(m) == Constellation
  {
    WhatIsOrionKeys(m);
    OrionNoApodKeyword(m);
    OrionNoNeoKeyword(m);
    OrionNoMarsKeyword(m);
    OrionNoLaunchKeyword(m);
    OrionNoIsroKeyword(m);
    assert ConstellationKeywords[2] == "orion";
    KeywordDecides(m, 5, "orion");
  }

  /** The request "what is orion" is answered with the Orion text. */
  lemma WhatIsOrion(m: string, env: Environment)
    requires m == "what is orion"
    ensures SpaceChat(Body(Some(JStr(m))), env) == Canned(ConstellationTable[3].1)
  {
    WhatIsOrionLower(m);
    WhatIsOrionTopic(m);
    WhatIsOrionKeys(m);
    OrionReply(m, env);
  }

  lemma OrionLowered(u: string, l: string)
    requires u == "ORION" && l == "orion"
    ensures Lower(u) == Lower(l)
  {
    assert Lower(u) == l;
    LowerOfLower(l);
  }

  /** "ORION" and "orion" get the same reply. */
  lemma OrionAnyCase(u: string, l: string, env: Environment)
    requires u == "ORION" && l == "orion"
    ensures SpaceChat(Body(Some(JStr(u))), env) == SpaceChat(Body(Some(JStr(l))), env)
  {
    OrionLowered(u, l);
    SameLowerSameReply(u, l, env);
  }

  // "scorpio"

  lemma ScorpioLower(m: string)
    requires m == "scorpio"
    ensures Lower(m) == m
  {
    LowerOfLower(m);
  }

  /** "scorpio" holds none of the keys listed before the key "scorpio". */
  lemma ScorpioSkipsKeys(m: string)
    requires m == "scorpio"
    ensures !Contains(m, "ursa major") && !Contains(m, "big dipper") && !Contains(m, "ursa minor")
    ensures !Contains(m, "orion") && !Contains(m, "cassiopeia") && !Contains(m, "andromeda")
  {
    AbsentChar(m, "ursa major", 0);
    AbsentChar(m, "big dipper", 0);
    AbsentChar(m, "ursa minor", 0);
    AbsentChar(m, "orion", 4);
    AbsentChar(m, "cassiopeia", 1);
    AbsentChar(m, "andromeda", 2);
  }

  /** The zodiac keys of the constellation table are not keywords of the
      constellation group: the message "scorpio" alone is a general question… */
  lemma ScorpioAloneTopic(m: string)
    requires m == "scorpio"
    ensures Classify(m) == General
  {
    ScorpioNoApodKeyword(m);
    ScorpioNoNeoKeyword(m);
    ScorpioNoMarsKeyword(m);
    ScorpioNoLaunchKeyword(m);
    ScorpioNoIsroKeyword(m);
    ScorpioNoConstellationKeyword(m);
    ScorpioNoPlanetKeyword(m);
    ScorpioNoStarKeyword(m);
    ScorpioNoGalaxyKeyword(m);
  }

  /** … answered by the general fallback… */
  lemma ScorpioAlone(m: string, env: Environment)
    requires m == "scorpio"
    ensures SpaceChat(Body(Some(JStr(m))), env) == SmartSpaceAnswer(env.ai, env.seed)
  {
    ScorpioLower(m);
    ScorpioAloneTopic(m);
    RoutedTo(m, env, General);
  }

  /** … although the constellation lookup, had it run, would have found the
      Scorpio text. */
  lemma ScorpioAloneLookup(m: string)
    requires m == "scorpio"
    ensures ConstellationInfo(m) == ConstellationTable[6].1
  {
    OccursByChars(m, "scorpio", 0);
    ScorpioSkipsKeys(m);
    ScorpioLookup(m);
  }

  // "scorpio constellation"

  lemma ScorpioConstellationLower(m: string)
    requires m == "scorpio constellation"
    ensures Lower(m) == m
  {
    LowerOfLower(m);
  }

  /** The message starts with the key "scorpio" and holds the group keyword
      "constellation". */
  lemma ScorpioConstellationHolds(m: string)
    requires m == "scorpio constellation"
    ensures Contains(m, "scorpio") && Contains(m, "constellation")
  {
    OccursByChars(m, "scorpio", 0);
    OccursByChars(m, "constellation", 8);
  }

  /** It holds none of the six constellation keys listed before "scorpio". */
  lemma ScorpioConstellationSkipsKeys(m: string)
    requires m == "scorpio constellation"
    ensures !Contains(m, "ursa major") && !Contains(m, "big dipper") && !Contains(m, "ursa minor")
    ensures !Contains(m, "orion") && !Contains(m, "cassiopeia") && !Contains(m, "andromeda")
  {
    AbsentChar(m, "ursa major", 0);
    AbsentChar(m, "big dipper", 0);
    AbsentChar(m, "ursa minor", 0);
    AbsentPair(m, "orion", 1);
    AbsentPair(m, "cassiopeia", 0);
    AbsentChar(m, "andromeda", 2);
  }

  /** With the group keyword added, the message is a constellation question… */
  lemma ScorpioConstellationTopic(m: string)
    requires m == "scorpio constellation"
    ensures Classify(m) == Constellation
  {
    ScorpioConstellationNoApodKeyword(m);
    ScorpioConstellationNoNeoKeyword(m);
    ScorpioConstellationNoMarsKeyword(m);
    ScorpioConstellationNoLaunchKeyword(m);
    ScorpioConstellationNoIsroKeyword(m);
    ScorpioConstellationHolds(m);
    assert ConstellationKeywords[5] == "constellation";
    KeywordDecides(m, 5, "constellation");
  }

  /** The request "scorpio constellation" is answered with the Scorpio text. */
  lemma ScorpioConstellation(m: string, env: Environment)
    requires m == "scorpio constellation"
    ensures SpaceChat(Body(Some(JStr(m))), env) == Canned(ConstellationTable[6].1)
  {
    ScorpioConstellationLower(m);
    ScorpioConstellationTopic(m);
    ScorpioConstellationHolds(m);
    ScorpioConstellationSkipsKeys(m);
    ScorpioReply(m, env);
  }

  // "tell me about mars and the andromeda galaxy"

  lemma MarsAndAndromedaLower(m: string)
    requires m == "tell me about mars and the andromeda galaxy"
    ensures Lower(m) == m
  {
    LowerOfLower(m);
  }

  lemma MarsAndAndromedaHoldsMars(m: string)
    requires m == "tell me about mars and the andromeda galaxy"
    ensures Contains(m, "mars")
  {
    OccursByChars(m, "mars", 14);
  }

  lemma MarsAndAndromedaHoldsGalaxy(m: string)
    requires m == "tell me about mars and the andromeda galaxy"
    ensures Contains(m, "andromeda galaxy")
  {
    OccursByChars(m, "andromeda galaxy", 27);
  }

  /** It holds no picture-of-the-day keyword. */
  lemma MarsAndAndromedaNoApodKeyword(m: string)
    requires m == "tell me about mars and the andromeda galaxy"
    ensures !AnyKeyword(m, ApodKeywords)
  {
    AbsentChar(m, "apod", 1);
    AbsentChar(m, "picture", 0);
    AbsentChar(m, "photo", 0);
    AbsentChar(m, "image", 0);
  }

  /** It holds no near-Earth-object keyword. */
  lemma MarsAndAndromedaNoNeoKeyword(m: string)
    requires m == "tell me about mars and the andromeda galaxy"
    ensures !AnyKeyword(m, NeoKeywords)
  {
    AbsentChar(m, "asteroid", 6);
    AbsentPair(m, "neo", 0);
    AbsentPair(m, "near earth", 0);
  }

  /** A message naming Mars and the Andromeda Galaxy is about Mars rovers:
      the constellation and galaxy keywords it holds come later in the chain. */
  lemma MarsAndAndromedaTopic(m: string)
    requires m == "tell me about mars and the andromeda galaxy"
    ensures Contains(m, "andromeda galaxy")
    ensures Classify(m) == MarsRover
  {
    MarsAndAndromedaHoldsMars(m);
    MarsAndAndromedaHoldsGalaxy(m);
    MarsAndAndromedaNoApodKeyword(m);
    MarsAndAndromedaNoNeoKeyword(m);
    MarsNeverPlanet(m);
  }

  /** Its reply is one of the Mars rover facts. */
  lemma MarsAndAndromeda(m: string, env: Environment)
    requires m == "tell me about mars and the andromeda galaxy"
    ensures var r := SpaceChat(Body(Some(JStr(m))), env); r.Canned? && r.text in MarsFacts
  {
    MarsAndAndromedaLower(m);
    MarsAndAndromedaTopic(m);
    RoutedTo(m, env, MarsRover);
  }

  // "tell me a space fact"

  lemma SpaceFactLower(m: string)
    requires m == "tell me a space fact"
    ensures Lower(m) == m
  {
    LowerOfLower(m);
  }

  /** "tell me a space fact" holds no keyword of any group: it is a general
      question… */
  lemma SpaceFactTopic(m: string)
    requires m == "tell me a space fact"
    ensures Classify(m) == General
  {
    SpaceFactNoApodKeyword(m);
    SpaceFactNoNeoKeyword(m);
    SpaceFactNoMarsKeyword(m);
    SpaceFactNoLaunchKeyword(m);
    SpaceFactNoIsroKeyword(m);
    SpaceFactNoConstellationKeyword(m);
    SpaceFactNoPlanetKeyword(m);
    SpaceFactNoStarKeyword(m);
    SpaceFactNoGalaxyKeyword(m);
  }

  /** … answered, when no AI model is configured, with one of the six
      general facts. */
  lemma SpaceFactQuestion(m: string, env: Environment)
    requires m == "tell me a space fact" && env.ai.NoModel?
    ensures var r := SpaceChat(Body(Some(JStr(m))), env); r.Canned? && r.text in SpaceFacts
  {
    SpaceFactLower(m);
    SpaceFactTopic(m);
    RoutedTo(m, env, General);
  }

  // Keyword groups a message does not touch: each keyword has a character,
  // or a pair of adjacent characters, that the message lacks.

  lemma OrionNoApodKeyword(m: string)
    requires m == "what is orion"
    ensures !AnyKeyword(m, ApodKeywords)
  {
    AbsentChar(m, "apod", 1);
    AbsentChar(m, "picture", 0);
    AbsentChar(m, "photo", 0);
    AbsentChar(m, "image", 1);
  }

  lemma OrionNoNeoKeyword(m: string)
    requires m == "what is orion"
    ensures !AnyKeyword(m, NeoKeywords)
  {
    AbsentChar(m, "asteroid", 3);
    AbsentChar(m, "neo", 1);
    AbsentChar(m, "near earth", 1);
  }

  lemma OrionNoMarsKeyword(m: string)
    requires m == "what is orion"
    ensures !AnyKeyword(m, MarsKeywords)
  {
    AbsentChar(m, "mars", 0);
    AbsentChar(m, "rover", 2);
    AbsentChar(m, "curiosity", 0);
  }

  lemma OrionNoLaunchKeyword(m: string)
    requires m == "what is orion"
    ensures !AnyKeyword(m, LaunchKeywords)
  {
    AbsentChar(m, "spacex", 1);
    AbsentChar(m, "launch", 0);
    AbsentChar(m, "rocket", 2);
  }

  lemma OrionNoIsroKeyword(m: string)
    requires m == "what is orion"
    ensures !AnyKeyword(m, IsroKeywords)
  {
    AbsentPair(m, "isro", 1);
    AbsentChar(m, "indian space", 2);
    AbsentChar(m, "india", 2);
  }

  lemma ScorpioNoApodKeyword(m: string)
    requires m == "scorpio"
    ensures !AnyKeyword(m, ApodKeywords)
  {
    AbsentChar(m, "apod", 0);
    AbsentChar(m, "picture", 3);
    AbsentChar(m, "photo", 1);
    AbsentChar(m, "image", 1);
  }

  lemma ScorpioNoNeoKeyword(m: string)
    requires m == "scorpio"
    ensures !AnyKeyword(m, NeoKeywords)
  {
    AbsentChar(m, "asteroid", 0);
    AbsentChar(m, "neo", 0);
    AbsentChar(m, "near earth", 0);
  }

  lemma ScorpioNoMarsKeyword(m: string)
    requires m == "scorpio"
    ensures !AnyKeyword(m, MarsKeywords)
  {
    AbsentChar(m, "mars", 0);
    AbsentChar(m, "rover", 2);
    AbsentChar(m, "curiosity", 1);
  }

  lemma ScorpioNoLaunchKeyword(m: string)
    requires m == "scorpio"
    ensures !AnyKeyword(m, LaunchKeywords)
  {
    AbsentChar(m, "spacex", 2);
    AbsentChar(m, "launch", 0);
    AbsentChar(m, "rocket", 3);
  }

  lemma ScorpioNoIsroKeyword(m: string)
    requires m == "scorpio"
    ensures !AnyKeyword(m, IsroKeywords)
  {
    AbsentPair(m, "isro", 0);
    AbsentChar(m, "indian space", 1);
    AbsentChar(m, "india", 1);
  }

  lemma ScorpioNoConstellationKeyword(m: string)
    requires m == "scorpio"
    ensures !AnyKeyword(m, ConstellationKeywords)
  {
    AbsentChar(m, "ursa major", 0);
    AbsentChar(m, "ursa minor", 0);
    AbsentChar(m, "orion", 4);
    AbsentChar(m, "cassiopeia", 1);
    AbsentChar(m, "andromeda", 0);
    AbsentChar(m, "constellation", 2);
    AbsentChar(m, "big dipper", 0);
    AbsentChar(m, "little dipper", 0);
  }

  lemma ScorpioNoPlanetKeyword(m: string)
    requires m == "scorpio"
    ensures !AnyKeyword(m, PlanetKeywords)
  {
    AbsentChar(m, "mercury", 0);
    AbsentChar(m, "venus", 0);
    AbsentChar(m, "earth", 0);
    AbsentChar(m, "mars", 0);
    AbsentChar(m, "jupiter", 0);
    AbsentChar(m, "saturn", 1);
    AbsentChar(m, "uranus", 0);
    AbsentChar(m, "neptune", 0);
    AbsentChar(m, "planet", 1);
  }

  lemma ScorpioNoStarKeyword(m: string)
    requires m == "scorpio"
    ensures !AnyKeyword(m, StarKeywords)
  {
    AbsentChar(m, "star", 1);
    AbsentChar(m, "sun", 1);
    AbsentChar(m, "supernova", 1);
    AbsentChar(m, "neutron star", 0);
    AbsentChar(m, "white dwarf", 0);
    AbsentChar(m, "black hole", 0);
  }

  lemma ScorpioNoGalaxyKeyword(m: string)
    requires m == "scorpio"
    ensures !AnyKeyword(m, GalaxyKeywords)
  {
    AbsentChar(m, "galaxy", 0);
    AbsentChar(m, "milky way", 0);
    AbsentChar(m, "andromeda galaxy", 0);
    AbsentChar(m, "spiral galaxy", 4);
  }

  lemma ScorpioConstellationNoApodKeyword(m: string)
    requires m == "scorpio constellation"
    ensures !AnyKeyword(m, ApodKeywords)
  {
    AbsentChar(m, "apod", 3);
    AbsentChar(m, "picture", 4);
    AbsentChar(m, "photo", 1);
    AbsentChar(m, "image", 1);
  }

  lemma ScorpioConstellationNoNeoKeyword(m: string)
    requires m == "scorpio constellation"
    ensures !AnyKeyword(m, NeoKeywords)
  {
    AbsentChar(m, "asteroid", 7);
    AbsentPair(m, "neo", 0);
    AbsentChar(m, "near earth", 9);
  }

  lemma ScorpioConstellationNoMarsKeyword(m: string)
    requires m == "scorpio constellation"
    ensures !AnyKeyword(m, MarsKeywords)
  {
    AbsentChar(m, "mars", 0);
    AbsentChar(m, "rover", 2);
    AbsentChar(m, "curiosity", 1);
  }

  lemma ScorpioConstellationNoLaunchKeyword(m: string)
    requires m == "scorpio constellation"
    ensures !AnyKeyword(m, LaunchKeywords)
  {
    AbsentChar(m, "spacex", 5);
    AbsentChar(m, "launch", 2);
    AbsentChar(m, "rocket", 3);
  }

  lemma ScorpioConstellationNoIsroKeyword(m: string)
    requires m == "scorpio constellation"
    ensures !AnyKeyword(m, IsroKeywords)
  {
    AbsentPair(m, "isro", 0);
    AbsentChar(m, "indian space", 2);
    AbsentChar(m, "india", 2);
  }

  lemma SpaceFactNoApodKeyword(m: string)
    requires m == "tell me a space fact"
    ensures !AnyKeyword(m, ApodKeywords)
  {
    AbsentChar(m, "apod", 2);
    AbsentChar(m, "picture", 1);
    AbsentChar(m, "photo", 1);
    AbsentChar(m, "image", 0);
  }

  lemma SpaceFactNoNeoKeyword(m: string)
    requires m == "tell me a space fact"
    ensures !AnyKeyword(m, NeoKeywords)
  {
    AbsentChar(m, "asteroid", 4);
    AbsentChar(m, "neo", 0);
    AbsentChar(m, "near earth", 0);
  }

  lemma SpaceFactNoMarsKeyword(m: string)
    requires m == "tell me a space fact"
    ensures !AnyKeyword(m, MarsKeywords)
  {
    AbsentChar(m, "mars", 2);
    AbsentChar(m, "rover", 0);
    AbsentChar(m, "curiosity", 1);
  }

  lemma SpaceFactNoLaunchKeyword(m: string)
    requires m == "tell me a space fact"
    ensures !AnyKeyword(m, LaunchKeywords)
  {
    AbsentChar(m, "spacex", 5);
    AbsentChar(m, "launch", 2);
    AbsentChar(m, "rocket", 0);
  }

  lemma SpaceFactNoIsroKeyword(m: string)
    requires m == "tell me a space fact"
    ensures !AnyKeyword(m, IsroKeywords)
  {
    AbsentChar(m, "isro", 0);
    AbsentChar(m, "indian space", 0);
    AbsentChar(m, "india", 0);
  }

  lemma SpaceFactNoConstellationKeyword(m: string)
    requires m == "tell me a space fact"
    ensures !AnyKeyword(m, ConstellationKeywords)
  {
    AbsentChar(m, "ursa major", 0);
    AbsentChar(m, "ursa minor", 0);
    AbsentChar(m, "orion", 0);
    AbsentChar(m, "cassiopeia", 4);
    AbsentChar(m, "andromeda", 1);
    AbsentChar(m, "constellation", 1);
    AbsentChar(m, "big dipper", 0);
    AbsentChar(m, "little dipper", 1);
  }

  lemma SpaceFactNoPlanetKeyword(m: string)
    requires m == "tell me a space fact"
    ensures !AnyKeyword(m, PlanetKeywords)
  {
    AbsentChar(m, "mercury", 2);
    AbsentChar(m, "venus", 0);
    AbsentChar(m, "earth", 2);
    AbsentChar(m, "mars", 2);
    AbsentChar(m, "jupiter", 0);
    AbsentChar(m, "saturn", 3);
    AbsentChar(m, "uranus", 0);
    AbsentChar(m, "neptune", 0);
    AbsentChar(m, "planet", 3);
  }

  lemma SpaceFactNoStarKeyword(m: string)
    requires m == "tell me a space fact"
    ensures !AnyKeyword(m, StarKeywords)
  {
    AbsentChar(m, "star", 3);
    AbsentChar(m, "sun", 1);
    AbsentChar(m, "supernova", 1);
    AbsentChar(m, "neutron star", 0);
    AbsentChar(m, "white dwarf", 0);
    AbsentChar(m, "black hole", 0);
  }

  lemma SpaceFactNoGalaxyKeyword(m: string)
    requires m == "tell me a space fact"
    ensures !AnyKeyword(m, GalaxyKeywords)
  {
    AbsentChar(m, "galaxy", 0);
    AbsentChar(m, "milky way", 1);
    AbsentChar(m, "andromeda galaxy", 1);
    AbsentChar(m, "spiral galaxy", 2);
  }
}
