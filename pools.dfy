/** The random fact pools. Each is a fixed list from which the chat draws one
    text with `random.choice`; no state is carried from one draw to the next. */
module Pools {

  /** `random.choice(pool)`. The random source is an arbitrary natural number
      `seed`, reduced modulo the size of the pool. */
  function Pick(pool: seq<string>, seed: nat): (r: string)
    requires |pool| > 0
    ensures r in pool
  {
    pool[seed % |pool|]
  }

  /** Every text of a pool can be drawn: the model excludes no entry. */
  lemma PickCoversPool(pool: seq<string>, x: string)
    requires x in pool
    ensures exists seed: nat :: Pick(pool, seed) == x
  {
    var k :| 0 <= k < |pool| && pool[k] == x;
    assert Pick(pool, k) == x;
  }

  /** Fallback texts for the astronomy picture of the day. */
  const ApodFacts: seq<string> := [
    "🌟 **NASA's APOD Program**: Every day since 1995, NASA has featured a different image or photograph of our fascinating universe, along with a brief explanation written by a professional astronomer!",
    "📸 **Did you know?** NASA's Astronomy Picture of the Day has featured over 10,000 stunning images of space, from distant galaxies to planets in our solar system!",
    "🔭 **APOD Archive**: The NASA APOD archive contains decades of the most beautiful space images ever captured, each with detailed explanations from astronomers!"
  ]

  /** Fallback texts for near-Earth objects. */
  const NeoFacts: seq<string> := [
    "🪨 **NASA NEO Program**: NASA tracks over 90% of near-Earth asteroids larger than 1 km. None of the known objects pose a threat to Earth for the next 100+ years!",
    "🌌 **Asteroid Facts**: There are currently over 28,000 known near-Earth asteroids. NASA discovers about 3,000 new ones each year using ground and space-based telescopes!",
    "🛡️ **Planetary Defense**: NASA's DART mission successfully changed an asteroid's orbit in 2022, proving we can defend Earth if needed!"
  ]

  /** Mars rover texts; this topic never makes a live call. */
  const MarsFacts: seq<string> := [
    "🔴 **Mars Rover Update**: NASA's Perseverance rover is currently exploring Jezero Crater, searching for signs of ancient microbial life and collecting samples for future return to Earth!",
    "🤖 **Rover Fleet**: NASA has successfully operated 5 rovers on Mars: Sojourner, Spirit, Opportunity, Curiosity, and Perseverance. Ingenuity helicopter made the first powered flight on another planet!",
    "🧪 **Mars Discovery**: NASA's rovers have confirmed that Mars once had flowing water, a thicker atmosphere, and conditions that could have supported life billions of years ago!",
    "📡 **Current Mission**: Perseverance has collected over 20 rock samples and Ingenuity has completed over 50 flights, far exceeding its planned 5 flights!"
  ]

  /** Fallback texts for the latest SpaceX launch. */
  const SpaceXFacts: seq<string> := [
    "🚀 **SpaceX Achievements**: SpaceX has revolutionized space travel with reusable rockets, reducing launch costs by 90% and making space more accessible than ever before!",
    "🌌 **Starship Program**: SpaceX is developing Starship, the most powerful rocket ever built, designed to carry humans to Mars and make life multiplanetary!",
    "🛰️ **Starlink Network**: SpaceX has deployed over 5,000 Starlink satellites, providing high-speed internet to remote areas worldwide and supporting global connectivity!"
  ]

  /** ISRO texts; this topic never makes a live call. */
  const IsroFacts: seq<string> := [
    "🇮🇳 **ISRO Achievements**: India's Mars Orbiter Mission (Mangalyaan) made India the first country to reach Mars orbit in its first attempt, and the most cost-effective Mars mission ever at just $74 million!",
    "🚀 **Chandrayaan Program**: ISRO's Chandrayaan-3 successfully landed on the Moon's south pole in 2023, making India the 4th country to land on the Moon and the first to reach the lunar south pole!",
    "🛰️ **PSLV Success**: ISRO's Polar Satellite Launch Vehicle has achieved over 95% success rate and holds the record for launching 104 satellites in a single mission!",
    "🌍 **Global Impact**: ISRO provides crucial Earth observation data for disaster management, weather forecasting, and agricultural monitoring, serving not just India but the entire world!",
    "💫 **Future Missions**: ISRO is planning Gaganyaan (human spaceflight program), Shukrayaan-1 (Venus mission), and Chandrayaan-4 (Moon sample return mission)!"
  ]

  /** General space facts, the answer when no AI model is available. */
  const SpaceFacts: seq<string> := [
    "🌌 **NASA Discovery**: The James Webb Space Telescope has detected galaxies that formed just 400 million years after the Big Bang, giving us unprecedented views of the early universe!",
    "⭐ **Stellar Facts**: According to NASA data, there are more stars in the observable universe than grains of sand on all Earth's beaches - approximately 10^24 stars!",
    "🌍 **Earth Science**: NASA Earth observing satellites have shown that Earth's ice sheets are losing mass at an accelerating rate, with critical implications for sea level rise!",
    "🪐 **Solar System**: NASA's Juno mission revealed that Jupiter has a 'fuzzy' core and produces auroras 1000 times brighter than Earth's!",
    "🚀 **ISS Updates**: The International Space Station travels at 17,500 mph, completing an orbit around Earth every 90 minutes. Astronauts see 16 sunrises and sunsets daily!",
    "🌟 **Exoplanet Hunt**: NASA has confirmed over 5,000 exoplanets so far, with many potentially habitable worlds in the 'Goldilocks zone' of their stars!"
  ]

  function FallbackApodInfo(seed: nat): (r: string)
    ensures r in ApodFacts
  {
    Pick(ApodFacts, seed)
  }

  function FallbackNeoInfo(seed: nat): (r: string)
    ensures r in NeoFacts
  {
    Pick(NeoFacts, seed)
  }

  function MarsRoverData(seed: nat): (r: string)
    ensures r in MarsFacts
  {
    Pick(MarsFacts, seed)
  }

  /** The tail of the SpaceX fetcher, reached whenever the live data is not used. */
  function SpaceXFallback(seed: nat): (r: string)
    ensures r in SpaceXFacts
  {
    Pick(SpaceXFacts, seed)
  }

  function IsroInfo(seed: nat): (r: string)
    ensures r in IsroFacts
  {
    Pick(IsroFacts, seed)
  }

  function RandomSpaceFact(seed: nat): (r: string)
    ensures r in SpaceFacts
  {
    Pick(SpaceFacts, seed)
  }

  /** The pools have the sizes the source gives them, and no text is empty. */
  lemma PoolShapes()
    ensures |ApodFacts| == 3 && |NeoFacts| == 3 && |MarsFacts| == 4
    ensures |SpaceXFacts| == 3 && |IsroFacts| == 5 && |SpaceFacts| == 6
    ensures forall t :: t in ApodFacts + NeoFacts + MarsFacts + SpaceXFacts + IsroFacts + SpaceFacts ==> |t| > 0
  {
  }
}
