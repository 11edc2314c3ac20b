/** The chat endpoint's decision logic: read the message, lowercase it,
    classify it, and route it to the fetcher, random pool, keyed lookup or
    AI fallback of its topic. Everything outside the core (the HTTP request,
    the network, the AI model, the clock and the random source) arrives as
    a value. */
module Chat {
  import opened Wrappers
  import opened Text
  import opened Pools
  import opened Lookup
  import opened Classifier
  import opened Fetchers

  /** The request body: `Malformed` when reading it as a JSON object fails
      (no JSON, invalid JSON, or JSON that is not an object); otherwise its
      `message` field, `None` when the field is absent. */
  datatype Request = Malformed | Body(message: Option<Json>)

  /** The AI model of the process: none configured (no key, or setup failed),
      or a configured model together with the outcome of asking it about this
      message, `None` when the call raised. */
  datatype AiModel = NoModel | Configured(outcome: Option<string>)

  /** Everything one request can observe besides its message: the outcome of
      each live call it might make, today's date as the feed keys it, the AI
      model, and the random source of the one `random.choice` a request makes
      at most. */
  datatype Environment = Environment(
    apod: Fetch<ApodBody>,
    neo: Fetch<NeoBody>,
    today: string,
    launch: Fetch<LaunchBody>,
    ai: AiModel,
    seed: nat)

  /** The AI fallback for general questions: with no model configured, or when
      the model call fails, a random general space fact; otherwise the model's
      text, unchanged. */
  function SmartSpaceAnswer(ai: AiModel, seed: nat): (r: Reply)
    ensures ai.Configured? && ai.outcome.Some? ==> r == Generated(ai.outcome.value)
    ensures !(ai.Configured? && ai.outcome.Some?) ==> r.Canned? && r.text in SpaceFacts
  {
    match ai
    case NoModel => Canned(RandomSpaceFact(seed))
    case Configured(Some(text)) => Generated(text)
    case Configured(None) => Canned(RandomSpaceFact(seed))
  }

  /** The handler of each topic, given the lowercased message. Mars rovers and
      ISRO are answered from their pools without a live call; the four sky
      topics by keyed lookup over the whole message. */
  function Answer(topic: Topic, msg: string, env: Environment): (r: Reply)
    ensures match topic
      case Apod => r == NasaApod(env.apod, env.seed)
      case NearEarthObject => r == NasaNeo(env.neo, env.today, env.seed)
      case MarsRover => r.Canned? && r.text in MarsFacts
      case Launch => r == SpaceXLaunch(env.launch, env.seed)
      case Isro => r.Canned? && r.text in IsroFacts
      case Constellation => r == Canned(ConstellationInfo(msg))
      case Planet => r == Canned(PlanetInfo(msg))
      case Star => r == Canned(StellarInfo(msg))
      case Galaxy => r == Canned(GalaxyInfo(msg))
      case General => r == SmartSpaceAnswer(env.ai, env.seed)
  {
    match topic
    case Apod => NasaApod(env.apod, env.seed)
    case NearEarthObject => NasaNeo(env.neo, env.today, env.seed)
    case MarsRover => Canned(MarsRoverData(env.seed))
    case Launch => SpaceXLaunch(env.launch, env.seed)
    case Isro => Canned(IsroInfo(env.seed))
    case Constellation => Canned(ConstellationInfo(msg))
    case Planet => Canned(PlanetInfo(msg))
    case Star => Canned(StellarInfo(msg))
    case Galaxy => Canned(GalaxyInfo(msg))
    case General => SmartSpaceAnswer(env.ai, env.seed)
  }

  /** The chat endpoint. A missing message reads as `''`; a string message is
      lowercased and answered by its topic's handler; a body that is not a
      JSON object, or a message that is not a string (`.lower()` raises),
      ends in the catch-all apology. */
  function SpaceChat(req: Request, env: Environment): (r: Reply)
    ensures req.Malformed? ==> r == Apology
    ensures req.Body? && req.message.Some? && !req.message.value.JStr? ==> r == Apology
    ensures req.Body? && req.message.None? ==> r == Answer(General, "", env)
    ensures req.Body? && req.message.Some? && req.message.value.JStr? ==>
      var msg := Lower(req.message.value.s);
      r == Answer(Classify(msg), msg, env)
  {
    EmptyIsGeneral();
    match req
    case Malformed => Apology
    case Body(None) => Answer(Classify(""), "", env)
    case Body(Some(JStr(s))) => var msg := Lower(s); Answer(Classify(msg), msg, env)
    case Body(Some(_)) => Apology
  }

  /** Only the lowercased message is seen: a message and its lowercase form
      get the same reply. */
  lemma CaseInsensitive(s: string, env: Environment)
    ensures SpaceChat(Body(Some(JStr(s))), env) == SpaceChat(Body(Some(JStr(Lower(s)))), env)
  {
    LowerIdempotent(s);
  }

  /** A missing message and an empty one are both general questions; with no
      AI model they are answered with one of the six general facts. */
  lemma EmptyMessageIsGeneral(env: Environment)
    requires env.ai.NoModel?
    ensures SpaceChat(Body(None), env) == SpaceChat(Body(Some(JStr(""))), env)
    ensures var r := SpaceChat(Body(None), env); r.Canned? && r.text in SpaceFacts
  {
    EmptyIsGeneral();
    assert Lower("") == "";
  }

  /** A canned answer is never empty, whatever the request and its environment. */
  lemma CannedRepliesNonEmpty(req: Request, env: Environment)
    ensures var r := SpaceChat(req, env); r.Canned? ==> |r.text| > 0
  {
    match req
    case Malformed =>
    case Body(None) => AnswerNonEmpty(Classify(""), "", env);
    case Body(Some(v)) =>
      if v.JStr? {
        var msg := Lower(v.s);
        AnswerNonEmpty(Classify(msg), msg, env);
      }
  }

  /** No topic handler answers with an empty canned text. */
  lemma AnswerNonEmpty(topic: Topic, msg: string, env: Environment)
    ensures var r := Answer(topic, msg, env); r.Canned? ==> |r.text| > 0
  {
    PoolShapes();
    match topic
    case Constellation => KeyedRepliesNonEmpty(msg);
    case Planet => KeyedRepliesNonEmpty(msg);
    case Star => KeyedRepliesNonEmpty(msg);
    case Galaxy => KeyedRepliesNonEmpty(msg);
    case _ =>
  }

  /** The keyed lookups never answer with an empty text. */
  lemma KeyedRepliesNonEmpty(msg: string)
    ensures |ConstellationInfo(msg)| > 0 && |PlanetInfo(msg)| > 0
    ensures |StellarInfo(msg)| > 0 && |GalaxyInfo(msg)| > 0
  {
    ConstellationTextsNonEmpty();
    PlanetTextsNonEmpty();
    StellarTextsNonEmpty();
    GalaxyTextsNonEmpty();
  }
}
