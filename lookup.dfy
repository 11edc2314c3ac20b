/** The keyed fact pools: insertion-ordered (key, text) tables searched for
    the first key that occurs in the lowercased message. */
module Lookup {
  import opened Text

  /** Position `i` holds the first key of `pairs`, in table order, that occurs in `msg`. */
  predicate IsFirstMatch(pairs: seq<(string, string)>, msg: string, i: nat) {
    i < |pairs| && Contains(msg, pairs[i].0) &&
    forall j :: 0 <= j < i ==> !Contains(msg, pairs[j].0)
  }

  /** No key of `pairs` occurs in `msg`. */
  predicate NoKeyMatches(pairs: seq<(string, string)>, msg: string) {
    forall j :: 0 <= j < |pairs| ==> !Contains(msg, pairs[j].0)
  }

  /** The loop `for key, info in table.items(): if key in msg: return info`,
      followed by the table's default text. */
  function FirstMatch(pairs: seq<(string, string)>, msg: string, default: string): (r: string)
    ensures NoKeyMatches(pairs, msg) ==> r == default
    ensures forall i: nat :: IsFirstMatch(pairs, msg, i) ==> r == pairs[i].1
    decreases |pairs|
  {
    if |pairs| == 0 then default
    else if Contains(msg, pairs[0].0) then pairs[0].1
    else
      FirstMatchShift(pairs, msg);
      FirstMatch(pairs[1..], msg, default)
  }

  /** Dropping a table's first key when it does not occur in the message
      shifts every later first match down by one. */
  lemma FirstMatchShift(pairs: seq<(string, string)>, msg: string)
    requires |pairs| > 0 && !Contains(msg, pairs[0].0)
    ensures NoKeyMatches(pairs, msg) <==> NoKeyMatches(pairs[1..], msg)
    ensures forall i: nat :: IsFirstMatch(pairs, msg, i) ==> i > 0 && IsFirstMatch(pairs[1..], msg, i - 1)
  {
    forall i: nat | IsFirstMatch(pairs, msg, i)
      ensures i > 0 && IsFirstMatch(pairs[1..], msg, i - 1)
    {
      forall j | 0 <= j < i - 1 ensures !Contains(msg, pairs[1..][j].0) {
        assert pairs[1..][j] == pairs[j + 1];
      }
    }
    if NoKeyMatches(pairs[1..], msg) {
      forall j | 0 <= j < |pairs| ensures !Contains(msg, pairs[j].0) {
        if j > 0 { assert pairs[j] == pairs[1..][j - 1]; }
      }
    }
  }

  /** Whenever some key occurs in the message, one of them is the first. */
  lemma {:induction false} FirstMatchExists(pairs: seq<(string, string)>, msg: string)
    requires !NoKeyMatches(pairs, msg)
    ensures exists i: nat :: IsFirstMatch(pairs, msg, i)
    decreases |pairs|
  {
    if Contains(msg, pairs[0].0) {
      assert IsFirstMatch(pairs, msg, 0);
    } else {
      FirstMatchShift(pairs, msg);
      FirstMatchExists(pairs[1..], msg);
      var i: nat :| IsFirstMatch(pairs[1..], msg, i);
      assert pairs[1..][i] == pairs[i + 1];
      forall j | 0 <= j < i + 1 ensures !Contains(msg, pairs[j].0) {
        if j > 0 { assert pairs[j] == pairs[1..][j - 1]; }
      }
      assert IsFirstMatch(pairs, msg, i + 1);
    }
  }

  /** A keyed lookup answers with one of its table's texts or with its default. */
  lemma FirstMatchInTable(pairs: seq<(string, string)>, msg: string, default: string)
    ensures var r := FirstMatch(pairs, msg, default);
      r == default || exists i :: 0 <= i < |pairs| && r == pairs[i].1
  {
    if !NoKeyMatches(pairs, msg) {
      FirstMatchExists(pairs, msg);
    }
  }

  /** A lookup whose first match can never be entry `k` never answers with
      entry `k`'s text, provided that text appears nowhere else in the table. */
  lemma FirstMatchNotAt(pairs: seq<(string, string)>, msg: string, default: string, k: nat)
    requires k < |pairs| && !IsFirstMatch(pairs, msg, k)
    requires forall i :: 0 <= i < |pairs| && i != k ==> pairs[i].1 != pairs[k].1
    requires default != pairs[k].1
    ensures FirstMatch(pairs, msg, default) != pairs[k].1
  {
    if !NoKeyMatches(pairs, msg) {
      FirstMatchExists(pairs, msg);
    }
  }

  /** Key order shadows: when the key of entry `k` contains the key of an
      earlier entry `j`, entry `k` is never the first match. */
  lemma ShadowedKey(pairs: seq<(string, string)>, msg: string, j: nat, k: nat)
    requires j < k < |pairs| && Contains(pairs[k].0, pairs[j].0)
    ensures !IsFirstMatch(pairs, msg, k)
  {
    if IsFirstMatch(pairs, msg, k) {
      ContainsTransitive(msg, pairs[k].0, pairs[j].0);
      assert false;
    }
  }

  /** The keys of one table are pairwise distinct. */
  predicate DistinctKeys(pairs: seq<(string, string)>) {
    forall i, j :: 0 <= i < j < |pairs| ==> pairs[i].0 != pairs[j].0
  }

  const ConstellationTable: seq<(string, string)> := [
    ("ursa major",
     "🐻 **Ursa Major (The Great Bear)**: One of the most recognizable constellations! It contains the famous Big Dipper asterism - 7 bright stars that form a ladle shape. Located in the northern sky, it's visible year-round from most northern latitudes. The Big Dipper's pointer stars (Merak and Dubhe) help locate Polaris, the North Star. In mythology, it represents a great bear being hunted across the sky."),
    ("big dipper",
     "✨ **The Big Dipper**: This isn't actually a constellation but an asterism (star pattern) within Ursa Major! The seven stars - Alkaid, Mizar, Alioth, Megrez, Phecda, Merak, and Dubhe - form the famous ladle shape. Interestingly, 5 of these stars are part of the Ursa Major Moving Group, traveling through space together."),
    ("ursa minor",
     "🐻 **Ursa Minor (The Little Bear)**: Home to Polaris, the North Star! This constellation contains the Little Dipper asterism. Polaris sits nearly at the north celestial pole, making it appear stationary while other stars rotate around it. Ancient navigators have used Polaris for centuries to find true north."),
    ("orion",
     "⭐ **Orion (The Hunter)**: Perhaps the most famous constellation! Visible worldwide, it features the iconic three stars of Orion's Belt (Alnitak, Alnilam, Mintaka). The red supergiant Betelgeuse marks his shoulder, while blue-white Rigel marks his foot. The Orion Nebula (M42) is a stellar nursery where new stars are born!"),
    ("cassiopeia",
     "👑 **Cassiopeia (The Queen)**: This distinctive W-shaped constellation is easy to spot in the northern sky! It's circumpolar from most northern latitudes, meaning it never sets. In mythology, Cassiopeia was a vain queen. The constellation helps locate Polaris and is opposite the Big Dipper across the north celestial pole."),
    ("andromeda",
     "🌌 **Andromeda (The Princess)**: This constellation is famous for containing the Andromeda Galaxy (M31), our nearest major galactic neighbor! The galaxy is visible to the naked eye as a fuzzy patch. In mythology, Andromeda was a princess chained to a rock as sacrifice to a sea monster, but was saved by Perseus."),
    ("scorpio",
     "🦂 **Scorpio (The Scorpion)**: A spectacular zodiac constellation visible in summer! Its brightest star is Antares, a red supergiant 700 times the size of our Sun. The constellation looks like a scorpion with a curved tail and claws. In mythology, it's the scorpion that killed Orion the Hunter. Best viewed in July and August in the southern sky!"),
    ("scorpius",
     "🦂 **Scorpio (The Scorpion)**: A spectacular zodiac constellation visible in summer! Its brightest star is Antares, a red supergiant 700 times the size of our Sun. The constellation looks like a scorpion with a curved tail and claws. In mythology, it's the scorpion that killed Orion the Hunter. Best viewed in July and August in the southern sky!"),
    ("leo",
     "🦁 **Leo (The Lion)**: A bright zodiac constellation that really looks like a lion! Its brightest star Regulus marks the lion's heart. The 'Sickle' asterism forms the lion's mane and head. Leo is home to many galaxies and the annual Leonid meteor shower in November. Best seen in spring evenings!"),
    ("virgo",
     "♍ **Virgo (The Virgin)**: The second-largest constellation in the sky! Its brightest star Spica is actually a binary star system. Virgo contains over 1,300 galaxies in the Virgo Cluster. In mythology, Virgo represents the goddess of harvest. Best visible in late spring and early summer!"),
    ("gemini",
     "♊ **Gemini (The Twins)**: Features the bright stars Castor and Pollux, representing the twin brothers in Greek mythology! Gemini is a zodiac constellation best seen in winter. It's home to the beautiful open star cluster M35 and was the radiant point for the 2020 SpaceX mission naming!"),
    ("cancer",
     "🦀 **Cancer (The Crab)**: The faintest zodiac constellation, but it contains the beautiful Beehive Cluster (M44)! In mythology, it's the crab that pinched Hercules during his battle with the Hydra. Cancer is best seen in late winter and early spring between Gemini and Leo!"),
    ("aquarius",
     "🏺 **Aquarius (The Water Bearer)**: A large zodiac constellation known for meteor showers! Home to the radiant points of several meteor showers including the Aquarids. Its brightest star is Sadalsuud. Best viewed in autumn evenings in the southern sky!"),
    ("pisces",
     "🐟 **Pisces (The Fishes)**: A large but faint zodiac constellation representing two fish tied together! Contains the vernal equinox point where the Sun crosses the celestial equator in spring. Best seen in autumn evenings, though it requires dark skies due to its faint stars!")
  ]

  const ConstellationDefault: string :=
    "✨ **Constellations**: Star patterns that have guided humanity for thousands of years! There are 88 official constellations covering the entire sky. They help us navigate, tell time, and share stories across cultures. Popular northern constellations include Ursa Major (Big Dipper), Orion, and Cassiopeia. Which constellation interests you?"

  const PlanetTable: seq<(string, string)> := [
    ("mercury",
     "☿️ **Mercury**: The closest planet to the Sun and the smallest in our solar system! It has extreme temperature swings from 800°F (430°C) during the day to -290°F (-180°C) at night. A year on Mercury (88 Earth days) is shorter than its day (176 Earth days)! NASA's MESSENGER mission mapped its entire surface."),
    ("venus",
     "♀️ **Venus**: Earth's 'evil twin' and the hottest planet in our solar system! Its thick atmosphere of carbon dioxide creates a runaway greenhouse effect, reaching 900°F (480°C) - hot enough to melt lead. It rotates backwards and a day is longer than a year there! Often called the 'Morning Star' or 'Evening Star.'"),
    ("earth",
     "🌍 **Earth**: Our beautiful blue marble and the only known planet with life! 71% covered by oceans, with a perfect distance from the Sun for liquid water. Protected by a magnetic field and ozone layer, it's home to millions of species. NASA monitors Earth's climate and changes from space with dozens of satellites!"),
    ("mars",
     "🔴 **Mars**: The Red Planet, our most explored neighbor! It gets its color from iron oxide (rust) on its surface. Mars has the largest volcano (Olympus Mons) and canyon (Valles Marineris) in the solar system. NASA's rovers have found evidence of ancient rivers and lakes - it may have harbored life billions of years ago!"),
    ("jupiter",
     "🪐 **Jupiter**: The king of planets! This gas giant is so massive it could fit all other planets inside it. Jupiter acts as our cosmic protector, attracting asteroids and comets with its powerful gravity. It has over 80 moons, including the four Galilean moons discovered in 1610. The Great Red Spot is a storm larger than Earth!"),
    ("saturn",
     "🪐 **Saturn**: The jewel of our solar system with its stunning rings! These rings are made of billions of ice and rock particles. Saturn is so light it would float in water! It has 146 known moons, including Titan with its thick atmosphere and liquid methane lakes. NASA's Cassini mission revealed incredible details about Saturn's system."),
    ("uranus",
     "🌀 **Uranus**: The tilted ice giant! It rotates on its side at a 98-degree angle, possibly due to an ancient collision. Composed mainly of water, methane, and ammonia ices, it appears blue-green due to methane in its atmosphere. It has faint rings and 27 known moons named after Shakespeare characters!"),
    ("neptune",
     "💙 **Neptune**: The windiest planet with speeds up to 1,200 mph (2,000 km/h)! This deep blue ice giant is the farthest known planet from the Sun. It takes 165 Earth years to complete one orbit! Neptune has 16 known moons, with Triton being the largest and orbiting backwards, suggesting it's a captured Kuiper Belt object.")
  ]

  const PlanetDefault: string :=
    "🪐 **Our Solar System**: Contains 8 amazing planets, each unique! From scorching Mercury to icy Neptune, they show incredible diversity. NASA missions have visited all planets, revolutionizing our understanding. Which planet would you like to explore?"

  const StellarTable: seq<(string, string)> := [
    ("star",
     "⭐ **Stars**: Massive nuclear fusion reactors that light up the universe! They fuse hydrogen into helium in their cores, releasing enormous energy. Stars are born in nebulae, live for millions to billions of years, and end as white dwarfs, neutron stars, or black holes depending on their mass."),
    ("sun",
     "☀️ **Our Sun**: A middle-aged yellow dwarf star that's been shining for 4.6 billion years! Every second, it converts 600 million tons of hydrogen into helium, powering all life on Earth. The Sun's core reaches 27 million°F (15 million°C). Solar activity follows an 11-year cycle monitored by NASA's Solar Dynamics Observatory."),
    ("supernova",
     "💥 **Supernovae**: The explosive death of massive stars! These cosmic explosions are so bright they can outshine entire galaxies. They create and scatter heavy elements like iron and gold throughout the universe - we are literally made of star stuff! NASA telescopes regularly discover supernovae in distant galaxies."),
    ("neutron star",
     "⚡ **Neutron Stars**: The ultra-dense remnants of massive stars! A sugar-cube sized piece would weigh 6 billion tons on Earth. They can spin 700 times per second and have magnetic fields trillions of times stronger than Earth's. Some emit radio beams (pulsars) that sweep across space like cosmic lighthouses."),
    ("white dwarf",
     "💎 **White Dwarfs**: The hot, dense cores left behind when Sun-like stars die! About the size of Earth but with the mass of the Sun. They slowly cool over billions of years, eventually becoming cold, dark objects. Our Sun will become a white dwarf in about 5 billion years."),
    ("black hole",
     "🕳️ **Black Holes**: Regions of spacetime where gravity is so strong that nothing, not even light, can escape! They form when massive stars collapse. NASA's Event Horizon Telescope captured the first image of a black hole in 2019. The supermassive black hole in our galaxy's center, Sagittarius A*, is 4 million times the Sun's mass!")
  ]

  const StellarDefault: string :=
    "⭐ **Stars and Stellar Objects**: The universe is filled with incredible stellar phenomena! From main sequence stars like our Sun to exotic objects like neutron stars and black holes. NASA's space telescopes study these cosmic powerhouses. What stellar object interests you?"

  const GalaxyTable: seq<(string, string)> := [
    ("milky way",
     "🌌 **The Milky Way**: Our home galaxy containing over 100 billion stars! It's a barred spiral galaxy about 100,000 light-years across. We're located in the Orion Arm, about 26,000 light-years from the galactic center. Our entire solar system orbits the galaxy once every 225-250 million years!"),
    ("andromeda galaxy",
     "🌌 **Andromeda Galaxy (M31)**: Our nearest major galactic neighbor, 2.5 million light-years away! It's approaching us at 250,000 mph and will collide with the Milky Way in about 4.5 billion years, creating a new galaxy astronomers call 'Milkomeda.' You can see it with the naked eye as a fuzzy patch!"),
    ("galaxy",
     "🌌 **Galaxies**: Massive collections of stars, gas, dust, and dark matter! There are over 2 trillion galaxies in the observable universe. They come in three main types: spiral (like the Milky Way), elliptical, and irregular. NASA's Hubble and James Webb telescopes have revealed galaxies from when the universe was young!")
  ]

  const GalaxyDefault: string :=
    "🌌 **Galaxies**: Island universes containing billions to trillions of stars! Our Milky Way is just one of countless galaxies in the universe. NASA telescopes study galaxy formation and evolution across cosmic time. Which galaxy interests you?"

  function ConstellationInfo(msg: string): (r: string)
    ensures r == ConstellationDefault || exists i :: 0 <= i < |ConstellationTable| && r == ConstellationTable[i].1
  {
    FirstMatchInTable(ConstellationTable, msg, ConstellationDefault);
    FirstMatch(ConstellationTable, msg, ConstellationDefault)
  }

  function PlanetInfo(msg: string): (r: string)
    ensures r == PlanetDefault || exists i :: 0 <= i < |PlanetTable| && r == PlanetTable[i].1
  {
    FirstMatchInTable(PlanetTable, msg, PlanetDefault);
    FirstMatch(PlanetTable, msg, PlanetDefault)
  }

  function StellarInfo(msg: string): (r: string)
    ensures r == StellarDefault || exists i :: 0 <= i < |StellarTable| && r == StellarTable[i].1
  {
    FirstMatchInTable(StellarTable, msg, StellarDefault);
    FirstMatch(StellarTable, msg, StellarDefault)
  }

  function GalaxyInfo(msg: string): (r: string)
    ensures r == GalaxyDefault || exists i :: 0 <= i < |GalaxyTable| && r == GalaxyTable[i].1
  {
    FirstMatchInTable(GalaxyTable, msg, GalaxyDefault);
    FirstMatch(GalaxyTable, msg, GalaxyDefault)
  }

  /** Within each table every key is unique, as in the dictionary literals. */
  lemma ConstellationKeysDistinct()
    ensures DistinctKeys(ConstellationTable)
  {
  }

  lemma PlanetKeysDistinct()
    ensures DistinctKeys(PlanetTable)
  {
  }

  lemma StellarKeysDistinct()
    ensures DistinctKeys(StellarTable)
  {
  }

  lemma GalaxyKeysDistinct()
    ensures DistinctKeys(GalaxyTable)
  {
  }

  /** No table holds an empty text. */
  lemma ConstellationTextsNonEmpty()
    ensures forall i :: 0 <= i < |ConstellationTable| ==> |ConstellationTable[i].1| > 0
  {
  }

  lemma PlanetTextsNonEmpty()
    ensures forall i :: 0 <= i < |PlanetTable| ==> |PlanetTable[i].1| > 0
  {
  }

  lemma StellarTextsNonEmpty()
    ensures forall i :: 0 <= i < |StellarTable| ==> |StellarTable[i].1| > 0
  {
  }

  lemma GalaxyTextsNonEmpty()
    ensures forall i :: 0 <= i < |GalaxyTable| ==> |GalaxyTable[i].1| > 0
  {
  }

  /** The texts the shadowing results are about appear once in their table
      and differ from the table's default. */
  lemma ShadowedTextsUnique()
    ensures forall i :: 0 <= i < |PlanetTable| && i != 3 ==> PlanetTable[i].1 != PlanetTable[3].1
    ensures forall i :: 0 <= i < |StellarTable| && i != 3 ==> StellarTable[i].1 != StellarTable[3].1
    ensures forall i :: 0 <= i < |GalaxyTable| && i != 1 ==> GalaxyTable[i].1 != GalaxyTable[1].1
    ensures PlanetDefault != PlanetTable[3].1 && StellarDefault != StellarTable[3].1 && GalaxyDefault != GalaxyTable[1].1
  {
  }
}
