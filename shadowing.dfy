/** Consequences of the chain order and of the table order: keywords that
    sit in two groups, or keys that contain other keys, and the entries that
    can therefore never be answered. */
module Shadowing {
  import opened Text
  import opened Classifier
  import opened Lookup

  /** "mars" is a keyword of both the mars-rover group and the planet group;
      the rover rule comes first, so a message mentioning Mars is never a
      planet question: it is about Mars rovers unless an earlier group
      (picture of the day, near-Earth objects) already matched. */
  lemma MarsNeverPlanet(msg: string)
    requires Contains(msg, "mars")
    ensures Classify(msg) in {Apod, NearEarthObject, MarsRover}
    ensures !AnyKeyword(msg, ApodKeywords) && !AnyKeyword(msg, NeoKeywords) ==> Classify(msg) == MarsRover
  {
    assert MarsKeywords[0] == "mars";
    KeywordCapsRank(msg, 2, "mars");
    if !AnyKeyword(msg, ApodKeywords) && !AnyKeyword(msg, NeoKeywords) {
      KeywordDecides(msg, 2, "mars");
    }
  }

  /** The planet table's entry for Mars is dead: whenever the planet lookup
      runs, the message does not contain "mars", so that text is never the
      answer. */
  lemma PlanetMarsEntryUnreachable(msg: string)
    requires Classify(msg) == Planet
    ensures PlanetTable[3].0 == "mars"
    ensures PlanetInfo(msg) != PlanetTable[3].1
  {
    if Contains(msg, "mars") {
      MarsNeverPlanet(msg);
      assert false;
    }
    ShadowedTextsUnique();
    FirstMatchNotAt(PlanetTable, msg, PlanetDefault, 3);
  }

  /** "andromeda galaxy" contains the constellation keyword "andromeda", and
      the constellation rule precedes the galaxy rule: such a message is a
      constellation question, or an earlier topic, and never a galaxy one. */
  lemma AndromedaGalaxyIsConstellation(msg: string)
    requires Contains(msg, "andromeda galaxy")
    ensures Rank(Classify(msg)) <= Rank(Constellation)
    ensures (forall j :: 0 <= j < 5 ==> !AnyKeyword(msg, Rules[j].1)) ==> Classify(msg) == Constellation
  {
    OccursByChars("andromeda galaxy", "andromeda", 0);
    ContainsTransitive(msg, "andromeda galaxy", "andromeda");
    assert ConstellationKeywords[4] == "andromeda";
    KeywordCapsRank(msg, 5, "andromeda");
    if forall j :: 0 <= j < 5 ==> !AnyKeyword(msg, Rules[j].1) {
      KeywordDecides(msg, 5, "andromeda");
    }
  }

  /** The galaxy table's entry for the Andromeda Galaxy is dead: the galaxy
      lookup only runs on messages without "andromeda galaxy". */
  lemma GalaxyAndromedaEntryUnreachable(msg: string)
    requires Classify(msg) == Galaxy
    ensures GalaxyTable[1].0 == "andromeda galaxy"
    ensures GalaxyInfo(msg) != GalaxyTable[1].1
  {
    if Contains(msg, "andromeda galaxy") {
      AndromedaGalaxyIsConstellation(msg);
      assert false;
    }
    ShadowedTextsUnique();
    FirstMatchNotAt(GalaxyTable, msg, GalaxyDefault, 1);
  }

  /** "near earth" is a near-Earth-object keyword and the group comes second:
      only a picture-of-the-day keyword can take such a message elsewhere. */
  lemma NearEarthIsNeo(msg: string)
    requires Contains(msg, "near earth")
    ensures Rank(Classify(msg)) <= Rank(NearEarthObject)
    ensures !AnyKeyword(msg, ApodKeywords) ==> Classify(msg) == NearEarthObject
  {
    assert NeoKeywords[2] == "near earth";
    KeywordCapsRank(msg, 1, "near earth");
    if !AnyKeyword(msg, ApodKeywords) {
      KeywordDecides(msg, 1, "near earth");
    }
  }

  /** The key "neutron star" contains the earlier key "star": a message
      holding it is answered with the text for "star". */
  lemma NeutronStarShadowed(msg: string)
    requires Contains(msg, "neutron star")
    ensures StellarTable[0].0 == "star" && StellarTable[3].0 == "neutron star"
    ensures StellarInfo(msg) == StellarTable[0].1
  {
    OccursByChars("neutron star", "star", 8);
    ContainsTransitive(msg, "neutron star", "star");
    assert IsFirstMatch(StellarTable, msg, 0);
  }

  /** Hence the stellar table's neutron-star text is never an answer. */
  lemma NeutronStarEntryUnreachable(msg: string)
    ensures StellarInfo(msg) != StellarTable[3].1
  {
    OccursByChars("neutron star", "star", 8);
    ShadowedKey(StellarTable, msg, 0, 3);
    ShadowedTextsUnique();
    FirstMatchNotAt(StellarTable, msg, StellarDefault, 3);
  }

  /** "scorpio" and "scorpius" are two spellings with the same text, and
      neither key is a substring of the other, so each is reached on its own. */
  lemma ScorpioSynonyms()
    ensures ConstellationTable[6].0 == "scorpio" && ConstellationTable[7].0 == "scorpius"
    ensures ConstellationTable[6].1 == ConstellationTable[7].1
    ensures !Contains("scorpius", "scorpio") && !Contains("scorpio", "scorpius")
  {
    AbsentPair("scorpius", "scorpio", 5);
    if Contains("scorpio", "scorpius") {
      ContainsShorter("scorpio", "scorpius");
    }
  }

  /** Either spelling gets the Scorpio text, as long as no key listed before
      them matches first. */
  lemma ScorpioEitherSpelling(msg: string)
    requires Contains(msg, "scorpio") || Contains(msg, "scorpius")
    requires forall j :: 0 <= j < 6 ==> !Contains(msg, ConstellationTable[j].0)
    ensures ConstellationInfo(msg) == ConstellationTable[6].1
  {
    ScorpioSynonyms();
    if Contains(msg, "scorpio") {
      assert IsFirstMatch(ConstellationTable, msg, 6);
    } else {
      assert IsFirstMatch(ConstellationTable, msg, 7);
    }
  }
}
