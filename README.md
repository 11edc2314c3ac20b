# VyomNetra space chat — a Dafny model of the chat endpoint's decision logic

VyomNetra's backend (`main.py`) answers one chat message per request. It
lowercases the message and tests it against nine keyword groups in a fixed
order: picture of the day, near-Earth objects, Mars rovers, SpaceX launches,
ISRO, constellations, planets, stars, galaxies. The first group with a keyword
contained in the message picks the topic; if none matches, the topic is
general. Then the topic's handler answers:

- **APOD, NEO and SpaceX** make a live call. They format the response on
  success and otherwise draw a random fallback fact.
- **Mars rovers and ISRO** draw from a fixed pool of facts.
- **The four sky topics** scan a keyed table for the first key contained in
  the message. If no key matches, they answer with the table's default text.
- **General questions** go to the Gemini model. With no model configured, or
  when the call fails, they get a random general fact.

The model is split into modules that follow that structure:

| file | module | what it holds |
|---|---|---|
| `text.dfy` | `Text` | Python's `sub in s` (`Contains`), ASCII lowercasing (`Lower`), and lemmas for showing that a keyword is present or absent |
| `wrappers.dfy` | `Wrappers` | `Option`, used for absent JSON keys |
| `pools.dfy` | `Pools` | the six random pools, verbatim, and `random.choice` as `Pick(pool, seed)` |
| `lookup.dfy` | `Lookup` | the four keyed tables and their defaults, verbatim; the first-match scan `FirstMatch` |
| `classifier.dfy` | `Classifier` | `Topic`, the keyword groups, the ordered rule chain, `Classify` |
| `fetchers.dfy` | `Fetchers` | JSON values and fetch outcomes; the APOD, NEO and SpaceX decision rules; `Reply` |
| `chat.dfy` | `Chat` | the request, the environment, the per-topic dispatch `Answer`, the endpoint `SpaceChat` |
| `shadowing.dfy` | `Shadowing` | what the rule order and the table order hide: "mars", "andromeda galaxy", "neutron star", the Scorpio synonyms |
| `scenarios.dfy` | `Scenarios` | concrete messages traced end to end |

The core makes no change of state: every handler is a function of the message
and of what it observes. Everything outside the program arrives as one
`Environment` value:

- the outcome of each live call;
- today's date;
- whether a model is configured, and what it answers;
- the seed of the one random draw a request makes.

Some consequences of the code are proved along the way:

- The keyword "mars" sits in both the Mars-rover group and the planet group.
  The rover group is tested first, so the planet table's Mars text is never an
  answer.
- "andromeda galaxy" contains the constellation keyword "andromeda", so the
  galaxy table's Andromeda text is never an answer.
- The key "neutron star" comes after the key "star" in the stellar table, so
  its text is never an answer.
- The zodiac keys of the constellation table ("scorpio", "leo", …) are not
  constellation keywords. The message "scorpio" on its own is therefore a
  general question (`Scenarios.ScorpioAlone`). The Scorpio text is reached
  only when an earlier group has not matched and a constellation keyword is
  also present, as in "scorpio constellation".

Two consequences of the code worth stating:

- The message "tell me about mars and the andromeda galaxy" also holds the
  constellation keyword "andromeda", not only the galaxy keyword. It ends up
  with Mars rovers because that group is tested before both.
- The model's text is returned unchecked and may be empty. Non-emptiness is
  proved for every canned text (`Chat.CannedRepliesNonEmpty`), not for
  generated text.

## Model

| member | source | states |
|---|---|---|
| Text.Contains | main.py:51-67 | Python's `kw in msg`, used by every keyword test and by the keyed lookups at main.py:217, 237, 254 and 268: some slice of the message equals the keyword |
| Classifier.AnyKeyword | main.py:51-67 | one rule's or-chain `kw1 in msg or kw2 in msg or …`, equally `any(kw in msg for kw in group)`: some keyword of the group occurs in the message |
| Fetchers.Truthy | main.py:161-163 | Python truthiness of a parsed JSON value, as used for `success` and `details or …`: `null`, `false`, zero, the empty string, array and object are false, everything else true |
| Fetchers.Usable | main.py:88-89 | a fetch yields the live answer only for a status-200 response whose `json()` could be read; the same test guards main.py:113-114 and 154-155 |
| Wrappers.GetOr | main.py:90 | `data.get(key, default)`: the field's value when the key is present, the default when it is absent, as in every `.get` of the fetchers |
| Text.Lower | main.py:48 | the lowercased message has the same length, no ASCII upper-case letter, upper-case letters replaced by their lower-case partners and every other character kept |
| Text.LowerIdempotent | main.py:48 | lowercasing twice is lowercasing once |
| Text.LowerOfLower | main.py:48 | a message with no upper-case letter is unchanged by lowercasing |
| Text.ContainsTransitive | main.py:61-67 | a message containing a keyword contains every substring of it ("andromeda galaxy" ⊇ "andromeda") |
| Pools.Pick | main.py:103 | `random.choice` returns a member of the non-empty pool |
| Pools.PickCoversPool | main.py:103 | every member of the pool is drawn for some seed |
| Pools.FallbackApodInfo | main.py:96-103 | the APOD fallback is one of the three APOD facts |
| Pools.FallbackNeoInfo | main.py:131-138 | the NEO fallback is one of the three NEO facts |
| Pools.MarsRoverData | main.py:140-148 | the Mars answer is one of the four Mars facts |
| Pools.SpaceXFallback | main.py:167-172 | the SpaceX fallback is one of the three SpaceX facts |
| Pools.IsroInfo | main.py:174-183 | the ISRO answer is one of the five ISRO facts |
| Pools.RandomSpaceFact | main.py:185-195 | the general fallback is one of the six general facts |
| Pools.PoolShapes | main.py:98-194 | the pools hold 3, 3, 4, 3, 5 and 6 facts, none of them empty |
| Lookup.FirstMatch | main.py:216-221 | the scan returns the default when no key is contained in the message, and otherwise the text of the first key, in table order, that is |
| Lookup.FirstMatchInTable | main.py:216-221 | the scan's answer is the default or one of the table's texts |
| Lookup.FirstMatchNotAt | main.py:216-218 | an entry that is not the first match is not the answer, if its text is unique in the table and differs from the default |
| Lookup.ShadowedKey | main.py:253-255 | an entry whose key contains an earlier entry's key is never the first match |
| Lookup.ConstellationInfo | main.py:197-221 | the constellation answer is the default or one of the 14 texts |
| Lookup.PlanetInfo | main.py:223-240 | the planet answer is the default or one of the 8 texts |
| Lookup.StellarInfo | main.py:242-257 | the stellar answer is the default or one of the 6 texts |
| Lookup.GalaxyInfo | main.py:259-271 | the galaxy answer is the default or one of the 3 texts |
| Lookup.ConstellationKeysDistinct | main.py:199-214 | the constellation keys are pairwise different, as dictionary keys are |
| Lookup.PlanetKeysDistinct | main.py:225-234 | the planet keys are pairwise different |
| Lookup.StellarKeysDistinct | main.py:244-251 | the stellar keys are pairwise different |
| Lookup.GalaxyKeysDistinct | main.py:261-265 | the galaxy keys are pairwise different |
| Lookup.ConstellationTextsNonEmpty | main.py:199-214 | no constellation text is empty |
| Lookup.PlanetTextsNonEmpty | main.py:225-234 | no planet text is empty |
| Lookup.StellarTextsNonEmpty | main.py:244-251 | no stellar text is empty |
| Lookup.GalaxyTextsNonEmpty | main.py:261-265 | no galaxy text is empty |
| Lookup.ShadowedTextsUnique | main.py:225-265 | the Mars, neutron-star and Andromeda-Galaxy texts are unique in their tables and differ from the defaults |
| Classifier.FirstRule | main.py:51-71 | an ordered rule chain gives `General` when no group matches and otherwise the topic of the first matching group |
| Classifier.Classify | main.py:51-71 | the topic is `General` exactly when no group matches; otherwise it is the topic of the first group, in chain order, holding a contained keyword |
| Classifier.Rank | main.py:51-69 | each topic's position in the chain, with `General` after all nine rules |
| Classifier.KeywordCapsRank | main.py:51-69 | a contained keyword of group `i` makes the topic that of group `i` or of an earlier group |
| Classifier.KeywordDecides | main.py:51-69 | a contained keyword of group `i` decides the topic when no earlier group matches |
| Classifier.EmptyIsGeneral | main.py:48-71 | the empty message is a general question |
| Fetchers.NasaApod | main.py:84-94 | the report is produced exactly for a usable 200 response, with each absent field given its default; anything else gives an APOD fallback fact |
| Fetchers.NasaNeo | main.py:105-129 | the report is produced exactly when the response is usable, `element_count` (0 when absent) is positive and today's list is non-empty; it is about the first object listed, with each absent field given its default; anything else gives a NEO fallback fact |
| Fetchers.LaunchStatusOf | main.py:159-161 | successful exactly when `success` is truthy; failed exactly when it is `False` or absent; scheduled exactly otherwise |
| Fetchers.DetailsShown | main.py:158-163 | the shown details are never falsy: absent gives "No details available", a falsy value gives the mission default, and a truthy value is kept |
| Fetchers.SpaceXLaunch | main.py:150-172 | the report is produced exactly for a usable 200 response, with mission, date, status and details as above; anything else gives a SpaceX fallback fact |
| Fetchers.NeoZeroCountFallsBack | main.py:115-127 | a 200 response counting no objects gives a fallback fact, never a report |
| Fetchers.NeoEmptyTodayFallsBack | main.py:117-127 | a 200 response with an empty or missing list for today gives a fallback fact |
| Fetchers.LaunchStatusCases | main.py:159-161 | `true` is successful, `false` and an absent key are failed, `null` and `0` are scheduled |
| Chat.SmartSpaceAnswer | main.py:273-292 | with a model whose call succeeds, its text unchanged; with no model or a failed call, one of the six general facts |
| Chat.Answer | main.py:51-71 | each topic is answered by its own handler: the three fetchers, the Mars and ISRO pools, the four keyed lookups over the message, and the AI fallback |
| Chat.SpaceChat | main.py:41-82 | a body that cannot be read and a message that is not a string both give the apology; a missing message is answered as the empty general question; a string message is lowercased, classified, and answered by its topic's handler |
| Chat.CaseInsensitive | main.py:48 | a message and its lowercase form get the same reply |
| Chat.EmptyMessageIsGeneral | main.py:48-71 | with no model, a missing message and an empty one get the same reply, one of the six general facts |
| Chat.CannedRepliesNonEmpty | main.py:41-82 | no request is answered with an empty canned text |
| Chat.AnswerNonEmpty | main.py:51-71 | no topic handler answers with an empty canned text |
| Chat.KeyedRepliesNonEmpty | main.py:197-271 | the four keyed lookups never answer with an empty text |
| Shadowing.MarsNeverPlanet | main.py:55-64 | a message containing "mars" is never a planet question; with no picture or NEO keyword it is a Mars-rover question |
| Shadowing.PlanetMarsEntryUnreachable | main.py:229 | when the planet lookup runs, its answer is never the Mars text |
| Shadowing.AndromedaGalaxyIsConstellation | main.py:61-68 | a message containing "andromeda galaxy" is a constellation question or an earlier topic, never a galaxy one |
| Shadowing.GalaxyAndromedaEntryUnreachable | main.py:263 | when the galaxy lookup runs, its answer is never the Andromeda Galaxy text |
| Shadowing.NearEarthIsNeo | main.py:53-63 | a message containing "near earth" is a NEO question unless a picture keyword is present, before the planet keyword "earth" is tested |
| Shadowing.NeutronStarShadowed | main.py:245-255 | a message containing "neutron star" gets the text for "star" |
| Shadowing.NeutronStarEntryUnreachable | main.py:248 | the neutron-star text is never a stellar answer |
| Shadowing.ScorpioSynonyms | main.py:206-207 | "scorpio" and "scorpius" share one text, and neither key is a substring of the other |
| Shadowing.ScorpioEitherSpelling | main.py:206-218 | either spelling gets the Scorpio text when no earlier key matches |
| Scenarios.RoutedTo | main.py:48-71 | a lower-case message is answered by the handler of its topic |
| Scenarios.SameLowerSameReply | main.py:48 | messages with the same lowercase form get the same reply |
| Scenarios.OrionLookup | main.py:200-218 | a message holding "orion" and none of the three keys before it gets the Orion text |
| Scenarios.OrionReply | main.py:41-76 | such a message, lower case and classified as a constellation question, is answered with the Orion text |
| Scenarios.ScorpioLookup | main.py:200-218 | a message holding "scorpio" and none of the six keys before it gets the Scorpio text |
| Scenarios.ScorpioReply | main.py:41-76 | such a message, lower case and classified as a constellation question, is answered with the Scorpio text |
| Scenarios.WhatIsOrionTopic | main.py:51-62 | "what is orion" is a constellation question |
| Scenarios.WhatIsOrion | main.py:41-76 | "what is orion" is answered with the Orion text |
| Scenarios.OrionAnyCase | main.py:48 | "ORION" and "orion" get the same reply |
| Scenarios.ScorpioAloneTopic | main.py:51-71 | "scorpio" alone matches no keyword group |
| Scenarios.ScorpioAlone | main.py:61-71 | "scorpio" alone is answered by the AI fallback |
| Scenarios.ScorpioAloneLookup | main.py:206-218 | the constellation lookup on "scorpio" would find the Scorpio text |
| Scenarios.ScorpioConstellationTopic | main.py:61-62 | "scorpio constellation" is a constellation question |
| Scenarios.ScorpioConstellation | main.py:41-76 | "scorpio constellation" is answered with the Scorpio text |
| Scenarios.MarsAndAndromedaTopic | main.py:55-56 | "tell me about mars and the andromeda galaxy" contains "andromeda galaxy" and is a Mars-rover question |
| Scenarios.MarsAndAndromeda | main.py:55-56 | that message is answered with one of the Mars facts |
| Scenarios.SpaceFactTopic | main.py:51-71 | "tell me a space fact" matches no keyword group |
| Scenarios.SpaceFactQuestion | main.py:69-71 | with no model, "tell me a space fact" is answered with one of the six general facts |

## Left out

- The HTTP layer is not modelled. That covers Flask routing, CORS, the static `index.html` route, the JSON envelope and its `timestamp` (a clock read), and the status code 200 of the apology. A reply is the value of the `response` field.
- Network calls are not modelled. Each `requests.get` is replaced by its outcome, a `Fetch` value carried in the environment. The URLs, the timeout, and building the NEO URL from today's date are left out.
- The clock is not modelled. Today's date is an environment field.
- Randomness is not modelled. `random.choice` is `Pick(pool, seed)` with the request's seed, so uniformity is not modelled; each request draws at most once.
- Gemini is left out: its setup at process start (lines 23-34), the prompt text (lines 280-284) and `generate_content`. The chosen model is an `AiModel` value, either no model or a configured one with the outcome of its call.
- Output formatting is left out. Each f-string template is a `Reply` constructor that holds the values interpolated into it. The template text and Python's `str()` of those values are not modelled. That includes the formatting of the floating-point diameters, the rendering of JSON `details`, and the text `None` printed for a JSON `null` title or name.
- Malformed response bodies are not modelled field by field. Any body that makes the fetcher's own code raise is modelled as `body: None`, which leads to the fallback. Examples are a non-numeric `element_count` or a non-object `estimated_diameter`.
- Fetchers.NasaNeo: `element_count` is modelled as an integer and the diameters as reals; the diameter defaults are `0.0` in the model, which is what `:.1f` prints for Python's default `0`, and the count default is never printed because a positive count is required. Two inputs are not modelled: a fractional `element_count`, and `element_count: true`, for which Python's `True > 0` holds and the report prints "True" without raising.
- Text.Lower: only ASCII letters are lowercased. Python's Unicode `str.lower()` also maps other characters, for example the Kelvin sign to `k`, and those mappings are not modelled.
- The apology's text is the `Apology` constructor. The exception message `str(e)` appended to it is not modelled.
- The `print` diagnostics are left out.
- The wording of the canned texts is copied verbatim. No property of that wording is proved. For example, the Orion text is proved to be the answer to "what is orion", but not that it mentions Orion's Belt.
- Chat.Answer: for Mars rovers and ISRO the contract states only that the answer is a member of its pool, not which member a given seed selects.
