/** The three live-data fetchers (picture of the day, near-Earth objects, the
    latest SpaceX launch). The network call is abstracted into its outcome;
    what is modelled is which outcomes produce the formatted live answer and
    which fall back to the topic's random pool. */
module Fetchers {
  import opened Wrappers
  import opened Pools

  /** A JSON value as Python's `json` module parses it. */
  datatype Json =
    | JNull
    | JBool(b: bool)
    | JNum(n: real)
    | JStr(s: string)
    | JArray(items: seq<Json>)
    | JObject(entries: seq<(string, Json)>)

  /** Python truthiness of a parsed JSON value. */
  predicate Truthy(v: Json) {
    match v
    case JNull => false
    case JBool(b) => b
    case JNum(n) => n != 0.0
    case JStr(s) => |s| > 0
    case JArray(items) => |items| > 0
    case JObject(entries) => |entries| > 0
  }

  /** The outcome of one `requests.get`: a transport failure or timeout, or a
      response with its status code and its body, where the body is `None`
      when reading it as JSON of the expected shape raised an exception. */
  datatype Fetch<T> = NetworkError | HttpResponse(status: int, body: Option<T>)

  /** The answer is live only for a 200 response whose body could be read. */
  predicate Usable<T>(fetch: Fetch<T>) {
    fetch.HttpResponse? && fetch.status == 200 && fetch.body.Some?
  }

  /** The fields of the picture-of-the-day response; `None` is an absent key. */
  datatype ApodBody = ApodBody(title: Option<string>, explanation: Option<string>, date: Option<string>, url: Option<string>)

  /** One listed near-Earth object; the size is the `meters` estimate, `None`
      when any key on the way to it is absent. */
  datatype NeoObject = NeoObject(name: Option<string>, minDiameter: Option<real>, maxDiameter: Option<real>)

  /** The near-Earth-object feed: `element_count` and the per-date lists. */
  datatype NeoBody = NeoBody(elementCount: Option<int>, nearEarthObjects: Option<map<string, seq<NeoObject>>>)

  /** The latest-launch response. */
  datatype LaunchBody = LaunchBody(name: Option<string>, dateUtc: Option<string>, details: Option<Json>, success: Option<Json>)

  datatype LaunchStatus = Successful | Failed | Scheduled

  /** The text the chat endpoint answers with. Canned and generated texts are
      kept verbatim; each f-string template is a constructor holding the
      values interpolated into it. */
  datatype Reply =
    | Canned(text: string)
    | ApodReport(title: string, explanation: string, date: string, url: string)
    | NeoReport(elementCount: int, name: string, minDiameter: real, maxDiameter: real)
    | LaunchReport(mission: string, launchDate: string, status: LaunchStatus, details: Json)
    | Generated(text: string)
    | Apology  // the catch-all text; the exception message appended to it is not modelled

  /** The picture-of-the-day fetcher: the formatted report for a usable
      response, a random fallback fact for anything else. */
  function NasaApod(fetch: Fetch<ApodBody>, seed: nat): (r: Reply)
    ensures r.ApodReport? <==> Usable(fetch)
    ensures !r.ApodReport? ==> r.Canned? && r.text in ApodFacts
    ensures r.ApodReport? ==>
      var body := fetch.body.value;
      && r.title == body.title.GetOr("Amazing Space Image")
      && r.explanation == body.explanation.GetOr("A beautiful view from space!")
      && r.date == body.date.GetOr("Today")
      && r.url == body.url.GetOr("NASA APOD website")
  {
    if Usable(fetch) then
      var body := fetch.body.value;
      ApodReport(body.title.GetOr("Amazing Space Image"),
                 body.explanation.GetOr("A beautiful view from space!"),
                 body.date.GetOr("Today"),
                 body.url.GetOr("NASA APOD website"))
    else
      Canned(FallbackApodInfo(seed))
  }

  /** `data.get('near_earth_objects', {}).get(today, [])`. */
  function TodayObjects(body: NeoBody, today: string): seq<NeoObject> {
    match body.nearEarthObjects
    case None => []
    case Some(feed) => if today in feed then feed[today] else []
  }

  /** The near-Earth-object fetcher. The report, about the first object
      listed for today, is produced only for a usable response whose
      `element_count` (0 when absent) is positive and whose list for today is
      non-empty; every other outcome, including a 200 response with a count
      of 0, gives a random fallback fact. */
  function NasaNeo(fetch: Fetch<NeoBody>, today: string, seed: nat): (r: Reply)
    ensures r.NeoReport? <==>
      Usable(fetch) && fetch.body.value.elementCount.GetOr(0) > 0 &&
      |TodayObjects(fetch.body.value, today)| > 0
    ensures !r.NeoReport? ==> r.Canned? && r.text in NeoFacts
    ensures r.NeoReport? ==>
      var body := fetch.body.value;
      var first := TodayObjects(body, today)[0];
      && r.elementCount == body.elementCount.GetOr(0)
      && r.name == first.name.GetOr("Unknown asteroid")
      && r.minDiameter == first.minDiameter.GetOr(0.0)
      && r.maxDiameter == first.maxDiameter.GetOr(0.0)
  {
    if Usable(fetch) then
      var body := fetch.body.value;
      var count := body.elementCount.GetOr(0);
      var objects := TodayObjects(body, today);
      if count > 0 && |objects| > 0 then
        var first := objects[0];
        NeoReport(count, first.name.GetOr("Unknown asteroid"),
                  first.minDiameter.GetOr(0.0), first.maxDiameter.GetOr(0.0))
      else
        Canned(FallbackNeoInfo(seed))
    else
      Canned(FallbackNeoInfo(seed))
  }

  /** The status line of a launch, from `success` (`False` when absent):
      successful when the value is truthy, failed when it is the value
      `False` itself, and scheduled otherwise — for JSON null, and also for a
      falsy value that is not `False`, such as 0 or "". */
  function LaunchStatusOf(success: Option<Json>): (st: LaunchStatus)
    ensures st == Successful <==> success.Some? && Truthy(success.value)
    ensures st == Failed <==> success.None? || success.value == JBool(false)
    ensures st == Scheduled <==> success.Some? && !Truthy(success.value) && success.value != JBool(false)
  {
    var v := success.GetOr(JBool(false));
    if Truthy(v) then Successful
    else if v == JBool(false) then Failed
    else Scheduled
  }

  const MissionDetailsDefault: string :=
    "This mission represents SpaceX continued efforts to advance space exploration and make life multiplanetary!"

  /** `details or '…'` after `data.get('details', 'No details available')`:
      the shown details are never falsy. */
  function DetailsShown(details: Option<Json>): (d: Json)
    ensures Truthy(d)
    ensures details.None? ==> d == JStr("No details available")
    ensures details.Some? && Truthy(details.value) ==> d == details.value
    ensures details.Some? && !Truthy(details.value) ==> d == JStr(MissionDetailsDefault)
  {
    var v := details.GetOr(JStr("No details available"));
    if Truthy(v) then v else JStr(MissionDetailsDefault)
  }

  /** The SpaceX fetcher: the formatted report for a usable response; a
      failed request, another status or an unreadable body all reach the
      random fallback list. */
  function SpaceXLaunch(fetch: Fetch<LaunchBody>, seed: nat): (r: Reply)
    ensures r.LaunchReport? <==> Usable(fetch)
    ensures !r.LaunchReport? ==> r.Canned? && r.text in SpaceXFacts
    ensures r.LaunchReport? ==>
      var body := fetch.body.value;
      && r.mission == body.name.GetOr("Unknown Mission")
      && r.launchDate == body.dateUtc.GetOr("Unknown Date")
      && r.status == LaunchStatusOf(body.success)
      && r.details == DetailsShown(body.details)
  {
    if Usable(fetch) then
      var body := fetch.body.value;
      LaunchReport(body.name.GetOr("Unknown Mission"), body.dateUtc.GetOr("Unknown Date"),
                   LaunchStatusOf(body.success), DetailsShown(body.details))
    else
      Canned(SpaceXFallback(seed))
  }

  /** A 200 response with no objects counted is a fallback, never a report
      of zero objects. */
  lemma NeoZeroCountFallsBack(body: NeoBody, today: string, seed: nat)
    requires body.elementCount.GetOr(0) == 0
    ensures var r := NasaNeo(HttpResponse(200, Some(body)), today, seed);
      r.Canned? && r.text in NeoFacts
  {
  }

  /** A counted feed whose list for today is empty or missing also falls back. */
  lemma NeoEmptyTodayFallsBack(body: NeoBody, today: string, seed: nat)
    requires TodayObjects(body, today) == []
    ensures var r := NasaNeo(HttpResponse(200, Some(body)), today, seed);
      r.Canned? && r.text in NeoFacts
  {
  }

  /** The three-way status on the values the launch feed actually sends. */
  lemma LaunchStatusCases()
    ensures LaunchStatusOf(Some(JBool(true))) == Successful
    ensures LaunchStatusOf(Some(JBool(false))) == Failed
    ensures LaunchStatusOf(None) == Failed
    ensures LaunchStatusOf(Some(JNull)) == Scheduled
    ensures LaunchStatusOf(Some(JNum(0.0))) == Scheduled
  {
  }
}
