/** `GET /api/timeline`: reading the query parameters, the empty-catalog
    answer, and the response built from the located position and its window. */
module TimelineRequest {
  import opened Wrappers
  import opened Digits
  import opened JsParseInt
  import opened Feed
  import opened Timeline

  /** The broadcast start time used when the query names none. */
  const DefaultStartTime: int := 1767906120
  const DefaultStartTimeText: string := "1767906120"

  const StartTimeRequired: string := "startTime parameter is required"
  const NoVideosMessage: string := "No videos available. Please refresh the feed."
  const TimelineFailed: string := "Failed to fetch timeline!"

  /** `searchParams.get(name) || fallback`: an absent or empty parameter gives the fallback text. */
  function OrDefault(param: Option<string>, fallback: string): string {
    match param
    case None => fallback
    case Some(text) => if text == "" then fallback else text
  }

  /** `parseInt(get("epoch") || "0") || now`: missing, zero or unparseable means now. */
  function EpochOf(param: Option<string>, now: int): int {
    match ParseInt(OrDefault(param, "0"))
    case None => now
    case Some(v) => if v == 0 then now else v
  }

  /** `parseInt(get("startTime") || "1767906120")`, with `NaN` and 0 refused (`None`). */
  function StartTimeOf(param: Option<string>): Option<int> {
    match ParseInt(OrDefault(param, DefaultStartTimeText))
    case None => None
    case Some(v) => if v == 0 then None else Some(v)
  }

  lemma DefaultStartTimeParses()
    ensures ParseInt(DefaultStartTimeText) == Some(DefaultStartTime)
  {
    assert DecimalString(1) == "1";
    assert DecimalString(17) == "17";
    assert DecimalString(176) == "176";
    assert DecimalString(1767) == "1767";
    assert DecimalString(17679) == "17679";
    assert DecimalString(176790) == "176790";
    assert DecimalString(1767906) == "1767906";
    assert DecimalString(17679061) == "17679061";
    assert DecimalString(176790612) == "176790612";
    assert DecimalString(1767906120) == "1767906120";
    ParseIntDecimalString(DefaultStartTime);
  }

  /** The defaults of the two parameters. */
  lemma ParameterDefaults(now: int)
    ensures EpochOf(None, now) == now && EpochOf(Some(""), now) == now
    ensures StartTimeOf(None) == Some(DefaultStartTime)
    ensures StartTimeOf(Some("")) == Some(DefaultStartTime)
  {
    DefaultStartTimeParses();
    assert ParseInt("0") == Some(0) by {
      assert "0" == DecimalString(0);
      ParseIntDecimalString(0);
    }
  }

  /** An epoch written in decimal is taken as given unless it is 0; one that
      does not parse falls back to now. */
  lemma EpochParameter(n: nat, text: string, now: int)
    ensures EpochOf(Some(DecimalString(n)), now) == if n == 0 then now else n
    ensures ParseInt(text).None? ==> EpochOf(Some(text), now) == now
  {
    ParseIntDecimalString(n);
    DecimalStringValue(n);
  }

  /** A start time that parses to 0 or does not parse at all is refused;
      any other decimal start time is accepted as given. */
  lemma StartTimeParameter(n: nat, text: string)
    ensures StartTimeOf(Some(DecimalString(n))) == if n == 0 then None else Some(n)
    ensures text != "" && ParseInt(text).None? ==> StartTimeOf(Some(text)).None?
  {
    ParseIntDecimalString(n);
    DecimalStringValue(n);
  }

  /** The success body of the route. */
  datatype TimelineBody = TimelineBody(
    current: Position,
    before: seq<Video>,
    after: seq<Video>,
    afterCount: int,
    elapsedSeconds: int,
    totalVideos: nat)

  datatype Body = NoBody | Message(message: string) | TimelineJson(timeline: TimelineBody)

  datatype Response = Response(status: int, body: Body)

  /** The statuses that the Fetch standard (section "Responses") calls null
      body statuses: a response with one of them must not carry a body. */
  predicate NullBodyStatus(status: int) {
    status == 101 || status == 103 || status == 204 || status == 205 || status == 304
  }

  /** Building a response, which the constructor refuses (a `TypeError`) for a
      body on a null body status. */
  function Respond(status: int, body: Body): Result<Response, string> {
    if body != NoBody && NullBodyStatus(status) then Failure("invalid response status code")
    else Success(Response(status, body))
  }

  /** Only a null body status refuses a body: 204 with a message fails, while
      200 and 400 take any body and 204 takes no body. */
  lemma RespondStatuses(body: Body)
    ensures body != NoBody ==> Respond(204, body).Failure?
    ensures Respond(204, NoBody) == Success(Response(204, NoBody))
    ensures Respond(200, body) == Success(Response(200, body))
    ensures Respond(400, body) == Success(Response(400, body))
  {
  }

  /** The empty-catalog branch as written: `Response.json` with a message and
      status 204 throws, and the route's `catch` turns that into a 500. */
  function EmptyCatalogAsWritten(): Response {
    match Respond(204, Message(NoVideosMessage))
    case Success(r) => r
    case Failure(_) => Response(500, Message(TimelineFailed))
  }

  lemma EmptyCatalogAsWrittenIsServerError()
    ensures EmptyCatalogAsWritten().status == 500
    ensures EmptyCatalogAsWritten().body == Message(TimelineFailed)
  {
  }

  /** The intended "refresh needed" signal: status 204 with no body. */
  function EmptyCatalog(): (r: Response)
    ensures Respond(204, NoBody) == Success(r)
    ensures r.status == 204 && r.body == NoBody
  {
    Response(204, NoBody)
  }

  /** The route after the database reads: `videos` are the feed's videos of
      the enabled subscriptions, ordered by `publishedAt`; `now` is the clock
      in whole seconds. */
  method Get(epochParam: Option<string>, startTimeParam: Option<string>, now: int, videos: seq<Video>)
    returns (response: Response)
    ensures StartTimeOf(startTimeParam).None? ==>
      response == Response(400, Message(StartTimeRequired))
    ensures StartTimeOf(startTimeParam).Some? && |videos| == 0 ==>
      response == Response(204, NoBody)
    ensures response.status == 200 <==> StartTimeOf(startTimeParam).Some? && |videos| > 0
    ensures response.status == 200 ==>
      && response.body.TimelineJson?
      && var b := response.body.timeline;
      && var elapsed := EpochOf(epochParam, now) - StartTimeOf(startTimeParam).value;
      && b.elapsedSeconds == elapsed
      && b.totalVideos == |videos|
      && b.current == Fallback(videos, Locate(videos, elapsed))
      && b.current.currentIndex < |videos|
      && b.current.video == videos[b.current.currentIndex]
      && b.afterCount == |videos| - b.current.currentIndex - 1
      && |b.before| <= 5 && |b.after| <= 5
      && Neighbours(videos, b.current.currentIndex) == Window(b.before, b.after, b.afterCount)
  {
    var epoch := EpochOf(epochParam, now);
    var startTime := StartTimeOf(startTimeParam);
    if startTime.None? {
      RespondStatuses(Message(StartTimeRequired));
      var r := Respond(400, Message(StartTimeRequired));
      return r.value;
    }
    if |videos| == 0 {
      return EmptyCatalog();
    }
    var found := GetVideoAtEpoch(videos, epoch, startTime.value);
    var current := Fallback(videos, found);
    ResolvedPosition(videos, epoch - startTime.value);
    var window := Neighbours(videos, current.currentIndex);
    var body := TimelineBody(current, window.before, window.after, window.afterCount,
                             epoch - startTime.value, |videos|);
    RespondStatuses(TimelineJson(body));
    var r := Respond(200, TimelineJson(body));
    return r.value;
  }
}
