/**
 * The OpenCage geocoding client (package opencagedata): the query parameters
 * a request carries and the pacing state a client keeps between requests.
 *
 * Timestamps are integer nanoseconds counted from the Unix epoch and durations
 * are integer nanoseconds. The network round trip and the JSON decoding are
 * not modelled: their outcome is a `Response` handed to `Geocode`.
 */
module OpenCageData {
  import opened Wrappers
  import opened Text

  // ---------------------------------------------------------------------------
  // Records
  // ---------------------------------------------------------------------------

  /**
   * A bounding-box hint. Each field is the `%v` text of the float64 degree
   * value it stands for; the model only places these texts.
   */
  datatype GeocodeBounds = GeocodeBounds(north: string, south: string, east: string, west: string)

  /** The value held by a GeocodeParams record at one moment. */
  datatype Options = Options(
    countryCode: string,
    limit: int,
    minConfidence: int,
    noAnnotations: bool,
    noDedupe: bool,
    noRecord: bool,
    language: string,
    bounds: Option<GeocodeBounds>,
    addRequest: bool,
    abbreviate: bool,
    pretty: bool)

  /** The optional settings of a request. Geocode rewrites minConfidence in place. */
  class GeocodeParams {
    var countryCode: string
    var limit: int
    var minConfidence: int
    var noAnnotations: bool
    var noDedupe: bool
    var noRecord: bool
    var language: string
    var bounds: Option<GeocodeBounds>
    var addRequest: bool
    var abbreviate: bool
    var pretty: bool

    /** A record with every field set as given (a Go composite literal). */
    constructor (o: Options)
      ensures Value() == o
    {
      countryCode, limit, minConfidence := o.countryCode, o.limit, o.minConfidence;
      noAnnotations, noDedupe, noRecord := o.noAnnotations, o.noDedupe, o.noRecord;
      language, bounds := o.language, o.bounds;
      addRequest, abbreviate, pretty := o.addRequest, o.abbreviate, o.pretty;
    }

    function Value(): Options
      reads this
    {
      Options(countryCode, limit, minConfidence, noAnnotations, noDedupe, noRecord,
              language, bounds, addRequest, abbreviate, pretty)
    }
  }

  /** What a possibly nil `*GeocodeParams` holds. */
  function Snapshot(params: GeocodeParams?): Option<Options>
    reads params
  {
    if params == null then None else Some(params.Value())
  }

  datatype Status = Status(code: int, message: string)

  /** The server's rate-limit report; reset is in Unix seconds. */
  datatype Rate = Rate(limit: int, remaining: int, reset: int)

  /** A point; the float32 coordinates are carried as reals. */
  datatype Geometry = Geometry(latitude: real, longitude: real)

  datatype ItemBounds = ItemBounds(northEast: Geometry, southWest: Geometry)

  datatype GeocodeResultItem = GeocodeResultItem(
    confidence: int, formatted: string, geometry: Geometry, bounds: ItemBounds)

  /** The decoded response body. */
  datatype GeocodeResult = GeocodeResult(status: Status, rate: Rate, results: seq<GeocodeResultItem>)

  /** What the HTTP GET and the JSON decoding produced. */
  datatype Response =
    | TransportError(message: string)
    | DecodeError(message: string)
    | Decoded(result: GeocodeResult)

  /** The error a Geocode call returns. */
  datatype GeocodeFailure =
    | TransportFailure(message: string)
    | DecodeFailure(message: string)
    | GeocodeError(result: GeocodeResult)  // a decoded response whose status is not 200

  const SUCCESS_CODE: int := 200

  /** A status code in decimal has no colon in it. */
  lemma NoColonInCode(n: int)
    ensures ':' !in FormatInt(n)
  {
  }

  /** What fmt prints for an int operand under the `%s` verb: `%!s(int=N)`. */
  function BadVerbInt(n: int): string {
    "%!s(int=" + FormatInt(n) + ")"
  }

  /**
   * GeocodeError.Error() as written: the int status code goes through `%s`,
   * so the text opens with '%' and never with the code; the message ends it.
   */
  function ErrorMessageAsWritten(result: GeocodeResult): (m: string)
    ensures |m| > |result.status.message| && m[0] == '%'
    ensures !(FormatInt(result.status.code) <= m)
    ensures m[|m| - |result.status.message|..] == result.status.message
  {
    BadVerbInt(result.status.code) + ": " + result.status.message
  }

  /** GeocodeError.Error() as intended: the status code in decimal, a colon and the message. */
  function ErrorMessage(result: GeocodeResult): (m: string)
    ensures |m| == |FormatInt(result.status.code)| + 2 + |result.status.message|
    ensures FormatInt(result.status.code) <= m && m[|FormatInt(result.status.code)|] == ':'
    ensures m[|m| - |result.status.message|..] == result.status.message
  {
    FormatInt(result.status.code) + ": " + result.status.message
  }

  /** As written, the text before the first colon never reads as a number, whatever the code. */
  lemma ErrorMessageAsWrittenLosesCode(result: GeocodeResult)
    ensures ParseInt(Split(ErrorMessageAsWritten(result), ':')[0]) == None
  {
  }

  /** A 400 response reads "%!s(int=400): ..." as written, where "400: ..." is meant. */
  lemma ErrorMessageExample(result: GeocodeResult)
    requires result.status.code == 400
    ensures ErrorMessageAsWritten(result) == "%!s(int=400): " + result.status.message
    ensures ErrorMessage(result) == "400: " + result.status.message
  {
  }

  /** Corrected, the text before the first colon reads back as the status code. */
  lemma ErrorMessageCode(result: GeocodeResult)
    ensures ParseInt(Split(ErrorMessage(result), ':')[0]) == Some(result.status.code)
  {
    var code := result.status.code;
    NoColonInCode(code);
    assert ErrorMessage(result) == FormatInt(code) + [':'] + (" " + result.status.message);
    SplitAfterField(FormatInt(code), ':', " " + result.status.message);
    ParseFormatInt(code);
  }

  // ---------------------------------------------------------------------------
  // Query parameters
  // ---------------------------------------------------------------------------

  const MIN_CONFIDENCE_FALLBACK: int := 5

  /**
   * The minimum confidence a request uses: 0 means unset, 1 to 10 are kept,
   * anything else falls back to the middle of the range.
   */
  function ClampMinConfidence(m: int): (c: int)
    ensures c == 0 || 1 <= c <= 10
    ensures c == 0 <==> m == 0
    ensures c == m <==> 0 <= m <= 10
    ensures c != m ==> c == MIN_CONFIDENCE_FALLBACK
  {
    if m > 10 || m < 0 then MIN_CONFIDENCE_FALLBACK else m
  }

  /** The settings after a request has written the clamped minimum confidence back. */
  function Normalize(o: Options): (n: Options)
    ensures n.minConfidence == 0 || 1 <= n.minConfidence <= 10
    ensures n == o.(minConfidence := n.minConfidence)
    ensures n != o <==> o.minConfidence < 0 || o.minConfidence > 10
    ensures o.minConfidence < 0 || o.minConfidence > 10 ==> n.minConfidence == MIN_CONFIDENCE_FALLBACK
  {
    o.(minConfidence := ClampMinConfidence(o.minConfidence))
  }

  /**
   * The `bounds` value: the four coordinates comma-joined, west, south, east,
   * north. When no coordinate holds a comma, splitting at the commas gives
   * them back.
   */
  function BoundsValue(b: GeocodeBounds): (s: string)
    ensures |s| >= 3
    ensures ',' !in b.west && ',' !in b.south && ',' !in b.east && ',' !in b.north ==>
              Split(s, ',') == [b.west, b.south, b.east, b.north]
  {
    var s := b.west + "," + b.south + "," + b.east + "," + b.north;
    var fields := [b.west, b.south, b.east, b.north];
    assert Join(fields[1..][1..], ',') == b.east + "," + b.north;
    assert Join(fields, ',') == s;
    SplitJoin(fields, ',');
    s
  }

  const FLAG_ON: string := "1"

  /** The query parameters a request can carry, listed in the order a request sets them. */
  datatype Param =
    | Query | ApiKey | CountryCode | Limit | MinConfidence | NoAnnotations | NoDedupe
    | NoRecord | AddRequest | Abbreviate | Pretty | Language | Bounds

  /**
   * The name a parameter carries in the query string: a non-empty run of
   * lower-case letters and underscores, which URL encoding leaves as it is.
   */
  function Name(p: Param): (n: string)
    ensures |n| > 0
    ensures forall i :: 0 <= i < |n| ==> 'a' <= n[i] <= 'z' || n[i] == '_'
  {
    match p
    case Query => "q"
    case ApiKey => "key"
    case CountryCode => "countrycode"
    case Limit => "limit"
    case MinConfidence => "min_confidence"
    case NoAnnotations => "no_annotations"
    case NoDedupe => "no_dedupe"
    case NoRecord => "no_record"
    case AddRequest => "add_request"
    case Abbreviate => "abbrv"
    case Pretty => "pretty"
    case Language => "language"
    case Bounds => "bounds"
  }

  /** Distinct parameters go by distinct names, so a map keyed by Param is a map keyed by name. */
  lemma NamesDistinct(p: Param, p': Param)
    requires p != p'
    ensures Name(p) != Name(p')
  {
  }

  function Flag(on: bool): Option<string> {
    if on then Some(FLAG_ON) else None
  }

  /**
   * The value a request with settings `o` gives the optional parameter `p`;
   * None leaves it out. `q` and `key` are not optional, and no optional
   * parameter is ever sent with an empty value.
   */
  function OptionalValue(o: Options, p: Param): (v: Option<string>)
    ensures p == Query || p == ApiKey ==> v.None?
    ensures v.Some? ==> |v.value| > 0
  {
    match p
    case Query => None
    case ApiKey => None
    case CountryCode => if o.countryCode != "" then Some(ToLower(o.countryCode)) else None
    case Limit => if o.limit != 0 then Some(FormatInt(o.limit)) else None
    case MinConfidence =>
      if o.minConfidence != 0 then Some(FormatInt(ClampMinConfidence(o.minConfidence))) else None
    case NoAnnotations => Flag(o.noAnnotations)
    case NoDedupe => Flag(o.noDedupe)
    case NoRecord => Flag(o.noRecord)
    case AddRequest => Flag(o.addRequest)
    case Abbreviate => Flag(o.abbreviate)
    case Pretty => Flag(o.pretty)
    case Language => if o.language != "" then Some(o.language) else None
    case Bounds => if o.bounds.Some? then Some(BoundsValue(o.bounds.value)) else None
  }

  /**
   * The value of parameter `p` in a request; `opts` is None for a nil
   * `*GeocodeParams`, and then only `q` and `key` have a value.
   */
  function ParamValue(query: string, key: string, opts: Option<Options>, p: Param): (v: Option<string>)
    ensures p == Query ==> v == Some(query)
    ensures p == ApiKey ==> v == Some(key)
    ensures opts.None? ==> (v.Some? <==> p == Query || p == ApiKey)
    ensures v.Some? && p != Query && p != ApiKey ==> |v.value| > 0
  {
    if p == Query then Some(query)
    else if p == ApiKey then Some(key)
    else if opts.None? then None
    else OptionalValue(opts.value, p)
  }

  /** The query parameters of a request for `query` with API key `key` and settings `opts`. */
  function QueryParams(query: string, key: string, opts: Option<Options>): (q: map<Param, string>)
    ensures Query in q && q[Query] == query
    ensures ApiKey in q && q[ApiKey] == key
    ensures opts.None? ==> q.Keys == {Query, ApiKey}
  {
    map p: Param | ParamValue(query, key, opts, p).Some? :: ParamValue(query, key, opts, p).value
  }

  const PARAM_COUNT: nat := 13

  /** Where a parameter stands in the order a request sets them. */
  function Rank(p: Param): (i: nat)
    ensures i < PARAM_COUNT
  {
    match p
    case Query => 0
    case ApiKey => 1
    case CountryCode => 2
    case Limit => 3
    case MinConfidence => 4
    case NoAnnotations => 5
    case NoDedupe => 6
    case NoRecord => 7
    case AddRequest => 8
    case Abbreviate => 9
    case Pretty => 10
    case Language => 11
    case Bounds => 12
  }

  /** The parameter a request sets just before `p`; None for the first. */
  function Before(p: Param): (b: Option<Param>)
    ensures b.None? <==> Rank(p) == 0
    ensures b.Some? ==> Rank(b.value) + 1 == Rank(p)
  {
    match p
    case Query => None
    case ApiKey => Some(Query)
    case CountryCode => Some(ApiKey)
    case Limit => Some(CountryCode)
    case MinConfidence => Some(Limit)
    case NoAnnotations => Some(MinConfidence)
    case NoDedupe => Some(NoAnnotations)
    case NoRecord => Some(NoDedupe)
    case AddRequest => Some(NoRecord)
    case Abbreviate => Some(AddRequest)
    case Pretty => Some(Abbreviate)
    case Language => Some(Pretty)
    case Bounds => Some(Language)
  }

  /**
   * The parameters once a request has handled every parameter up to and
   * including `p`: those among them that have a value, set to it.
   */
  function SetThrough(query: string, key: string, opts: Option<Options>, p: Param): map<Param, string>
  {
    map x: Param | Rank(x) <= Rank(p) && ParamValue(query, key, opts, x).Some?
      :: ParamValue(query, key, opts, x).value
  }

  /**
   * One step: handling `p` right after `prev` adds `p`, with its value, when
   * it has one, and otherwise leaves the parameters as they were.
   */
  lemma SetThroughStep(query: string, key: string, opts: Option<Options>, prev: Param, p: Param)
    requires Before(p) == Some(prev)
    ensures var v := ParamValue(query, key, opts, p);
      SetThrough(query, key, opts, p)
        == if v.Some? then SetThrough(query, key, opts, prev)[p := v.value] else SetThrough(query, key, opts, prev)
  {
  }

  /** Once the last parameter is handled, the request carries exactly QueryParams. */
  lemma SetThroughComplete(query: string, key: string, opts: Option<Options>)
    ensures SetThrough(query, key, opts, Bounds) == QueryParams(query, key, opts)
  {
  }

  /** Each valued optional parameter is present exactly when its setting is not the zero value. */
  lemma ValueParamPresence(query: string, key: string, o: Options)
    ensures var q := QueryParams(query, key, Some(o));
      && (CountryCode in q <==> o.countryCode != "")
      && (Limit in q <==> o.limit != 0)
      && (MinConfidence in q <==> o.minConfidence != 0)
      && (Language in q <==> o.language != "")
      && (Bounds in q <==> o.bounds.Some?)
  {
  }

  /** Each boolean parameter is present exactly when its option is set. */
  lemma FlagParamPresence(query: string, key: string, o: Options)
    ensures var q := QueryParams(query, key, Some(o));
      && (NoAnnotations in q <==> o.noAnnotations)
      && (NoDedupe in q <==> o.noDedupe)
      && (NoRecord in q <==> o.noRecord)
      && (AddRequest in q <==> o.addRequest)
      && (Abbreviate in q <==> o.abbreviate)
      && (Pretty in q <==> o.pretty)
  {
  }

  /** Flags travel as "1"; the language passes unchanged; the country code is lower-cased. */
  lemma TextParamValues(query: string, key: string, o: Options)
    ensures var q := QueryParams(query, key, Some(o));
      && (forall p :: p in {NoAnnotations, NoDedupe, NoRecord, AddRequest, Abbreviate, Pretty} && p in q
            ==> q[p] == FLAG_ON)
      && (o.language != "" ==> q[Language] == o.language)
      && (o.countryCode != "" ==>
            q[CountryCode] == ToLower(o.countryCode)
            && forall i :: 0 <= i < |q[CountryCode]| ==> !IsUpper(q[CountryCode][i]))
  {
  }

  /** The limit travels as a decimal text that reads back as the limit, negative values included. */
  lemma LimitParam(query: string, key: string, o: Options)
    requires o.limit != 0
    ensures Limit in QueryParams(query, key, Some(o))
    ensures ParseInt(QueryParams(query, key, Some(o))[Limit]) == Some(o.limit)
  {
    ParseFormatInt(o.limit);
  }

  /**
   * When min_confidence is sent, it reads back as a value in 1..10: the
   * setting itself when in range, otherwise 5.
   */
  lemma MinConfidenceParam(query: string, key: string, o: Options)
    requires o.minConfidence != 0
    ensures MinConfidence in QueryParams(query, key, Some(o))
    ensures var q := QueryParams(query, key, Some(o));
      exists c :: ParseInt(q[MinConfidence]) == Some(c) && 1 <= c <= 10
        && (1 <= o.minConfidence <= 10 ==> c == o.minConfidence)
        && (o.minConfidence < 0 || o.minConfidence > 10 ==> c == MIN_CONFIDENCE_FALLBACK)
  {
    var c := ClampMinConfidence(o.minConfidence);
    ParseFormatInt(c);
    assert ParseInt(QueryParams(query, key, Some(o))[MinConfidence]) == Some(c);
  }

  /** The bounds value splits at its commas into west, south, east and north. */
  lemma BoundsParam(query: string, key: string, o: Options)
    requires o.bounds.Some?
    requires var b := o.bounds.value; ',' !in b.west && ',' !in b.south && ',' !in b.east && ',' !in b.north
    ensures Bounds in QueryParams(query, key, Some(o))
    ensures var b := o.bounds.value;
      Split(QueryParams(query, key, Some(o))[Bounds], ',') == [b.west, b.south, b.east, b.north]
  {
  }

  /** Worked cases of the minimum-confidence clamp: 11 and -3 become 5, 7 stays, 0 is left out. */
  lemma MinConfidenceExamples(query: string, key: string, o: Options)
    ensures var q := QueryParams(query, key, Some(o.(minConfidence := 11))); MinConfidence in q && q[MinConfidence] == "5"
    ensures var q := QueryParams(query, key, Some(o.(minConfidence := -3))); MinConfidence in q && q[MinConfidence] == "5"
    ensures var q := QueryParams(query, key, Some(o.(minConfidence := 7))); MinConfidence in q && q[MinConfidence] == "7"
    ensures MinConfidence !in QueryParams(query, key, Some(o.(minConfidence := 0)))
  {
  }

  /** Worked case: the country code "BE" is sent as "be". */
  lemma CountryCodeExample(query: string, key: string, o: Options)
    ensures var q := QueryParams(query, key, Some(o.(countryCode := "BE"))); CountryCode in q && q[CountryCode] == "be"
  {
    assert ToLower("BE") == "be";
  }

  /** Worked case: the box N 51, S 50, E 5, W 4 is sent as "4,50,5,51". */
  lemma BoundsExample(query: string, key: string, o: Options)
    ensures var q := QueryParams(query, key, Some(o.(bounds := Some(GeocodeBounds("51", "50", "5", "4")))));
      Bounds in q && q[Bounds] == "4,50,5,51"
  {
  }

  /**
   * Sending the written-back settings again produces the same parameters,
   * and writing back a second time changes nothing.
   */
  lemma QueryIdempotent(query: string, key: string, o: Options)
    ensures Normalize(Normalize(o)) == Normalize(o)
    ensures QueryParams(query, key, Some(Normalize(o))) == QueryParams(query, key, Some(o))
  {
    forall p ensures ParamValue(query, key, Some(Normalize(o)), p) == ParamValue(query, key, Some(o), p) {
    }
  }

  // ---------------------------------------------------------------------------
  // Time
  // ---------------------------------------------------------------------------

  /** The range of time.Duration, an int64 count of nanoseconds. */
  const MIN_DURATION: int := -0x8000_0000_0000_0000
  const MAX_DURATION: int := 0x7fff_ffff_ffff_ffff

  /** Go's zero time.Time, January 1 of year 1 UTC, in nanoseconds from the Unix epoch. */
  const ZERO_TIME: int := -62135596800 * 1000000000

  /** time.Time.Sub: the difference t - u, saturated to the Duration range. */
  function Sub(t: int, u: int): (d: int)
    ensures MIN_DURATION <= d <= MAX_DURATION
    ensures d > 0 <==> t > u
    ensures MIN_DURATION <= t - u <= MAX_DURATION ==> d == t - u
    ensures t - u > MAX_DURATION ==> d == MAX_DURATION
    ensures t - u < MIN_DURATION ==> d == MIN_DURATION
  {
    var d := t - u;
    if d < MIN_DURATION then MIN_DURATION else if d > MAX_DURATION then MAX_DURATION else d
  }

  /** How long a request issued at `now` sleeps first; 0 when it does not sleep. */
  function PacingWait(sleep: int, now: int): (w: nat)
    ensures w > 0 <==> sleep > now
    ensures w <= MAX_DURATION
    ensures w > 0 && sleep - now <= MAX_DURATION ==> now + w == sleep
    ensures sleep - now > MAX_DURATION ==> w == MAX_DURATION
  {
    var d := Sub(sleep, now);
    if d > 0 then d else 0
  }

  // ---------------------------------------------------------------------------
  // Classification and pacing
  // ---------------------------------------------------------------------------

  /** The outcome Geocode reports for a response. */
  function Classify(response: Response): (r: Result<GeocodeResult, GeocodeFailure>)
    ensures r.Success? <==> response.Decoded? && response.result.status.code == SUCCESS_CODE
    ensures r.Success? ==> r.value == response.result
    ensures response.Decoded? && response.result.status.code != SUCCESS_CODE ==>
              r == Failure(GeocodeError(response.result))
    ensures r.Failure? && r.error.GeocodeError? ==>
              response == Decoded(r.error.result) && r.error.result.status.code != SUCCESS_CODE
    ensures response.TransportError? ==> r == Failure(TransportFailure(response.message))
    ensures response.DecodeError? ==> r == Failure(DecodeFailure(response.message))
  {
    match response
    case TransportError(m) => Failure(TransportFailure(m))
    case DecodeError(m) => Failure(DecodeFailure(m))
    case Decoded(result) =>
      if result.status.code != SUCCESS_CODE then Failure(GeocodeError(result)) else Success(result)
  }

  /**
   * The pacing timestamp after a request: `later + delay` after a successful
   * request with pacing on, the old timestamp otherwise.
   */
  function NextSleep(sleep: int, disabled: bool, response: Response, later: int, delay: int): (s: int)
    ensures Classify(response).Failure? ==> s == sleep
    ensures disabled ==> s == sleep
    ensures Classify(response).Success? && !disabled ==> s == later + delay
    ensures s != sleep ==> Classify(response).Success? && !disabled
  {
    if Classify(response).Success? && !disabled then later + delay else sleep
  }

  /**
   * After a paced success, a request issued at or after `later` waits at most
   * `delay`, and not at all when the delay is not positive.
   */
  lemma PacedWaitBound(sleep: int, response: Response, later: int, delay: int, t: int)
    requires Classify(response).Success?
    requires t >= later
    ensures PacingWait(NextSleep(sleep, false, response, later, delay), t) <= if delay > 0 then delay else 0
  {
  }

  /**
   * The timestamp is not monotonic: a paced success moves it back exactly
   * when `later + delay` falls before it. A request that waited has
   * `later >= sleep`, so this takes a negative delay. Where the delay comes
   * from is not part of this model.
   */
  lemma PacingCanMoveBack(sleep: int, response: Response, later: int, delay: int)
    requires Classify(response).Success?
    ensures NextSleep(sleep, false, response, later, delay) < sleep <==> later + delay < sleep
    ensures later >= sleep ==> (NextSleep(sleep, false, response, later, delay) < sleep <==> delay < sleep - later)
  {
  }

  /**
   * Turning pacing off does not cancel a pending wait: the sleep is computed
   * without reading the flag, and with pacing off the timestamp a paced
   * success left behind stays, so a later call before it still waits.
   */
  lemma DisablingKeepsPendingWait(sleep: int, first: Response, later: int, delay: int,
                                  second: Response, later2: int, delay2: int, t: int)
    requires Classify(first).Success?
    requires t < later + delay
    ensures PacingWait(NextSleep(sleep, false, first, later, delay), t) > 0
    ensures NextSleep(NextSleep(sleep, false, first, later, delay), true, second, later2, delay2) == later + delay
  {
  }

  /** With pacing off, the timestamp never leaves its initial value, so no request waits. */
  lemma DisabledNeverWaits(response: Response, later: int, delay: int, t: int)
    requires t >= ZERO_TIME
    ensures NextSleep(ZERO_TIME, true, response, later, delay) == ZERO_TIME
    ensures PacingWait(NextSleep(ZERO_TIME, true, response, later, delay), t) == 0
  {
  }

  // ---------------------------------------------------------------------------
  // The client
  // ---------------------------------------------------------------------------

  class Geocoder {
    /** The API key. */
    var key: string
    /** Turns the automatic pacing off. */
    var disableRateLimitSleep: bool
    /** No request may be issued before this timestamp. */
    var sleep: int

    /** NewGeocoder: a client with the given key, pacing on, and no pending wait. */
    constructor (key: string)
      ensures this.key == key && !disableRateLimitSleep && sleep == ZERO_TIME
    {
      this.key := key;
      disableRateLimitSleep := false;
      sleep := ZERO_TIME;
    }

    /**
     * The query parameters of a request, set one by one. An out-of-range
     * minimum confidence is written back into the caller's params as 5.
     */
    method GeocodeUrl(query: string, params: GeocodeParams?) returns (q: map<Param, string>)
      modifies params
      ensures q == QueryParams(query, key, old(Snapshot(params)))
      ensures params != null ==> params.Value() == Normalize(old(params.Value()))
    {
      ghost var opts := Snapshot(params);
      q := map[];
      q := q[Query := query];
      assert q == SetThrough(query, key, opts, Query);
      q := q[ApiKey := key];
      assert q == SetThrough(query, key, opts, ApiKey);
      if params != null {
        q := SetFilters(q, params, query, opts);
        q := SetResultFlags(q, params, query, opts);
        q := SetOutputFlags(q, params, query, opts);
        q := SetLanguageAndBounds(q, params, query, opts);
        SetThroughComplete(query, key, opts);
      } else {
        assert q.Keys == {Query, ApiKey};
      }
    }

    /**
     * Country code, limit and minimum confidence. An out-of-range minimum
     * confidence is first written back into `params` as the fallback.
     */
    method SetFilters(q: map<Param, string>, params: GeocodeParams, ghost query: string, ghost opts: Option<Options>)
      returns (r: map<Param, string>)
      modifies params
      requires opts == Some(params.Value())
      requires q == SetThrough(query, key, opts, ApiKey)
      ensures params.Value() == Normalize(old(params.Value()))
      ensures r == SetThrough(query, key, opts, MinConfidence)
    {
      r := SetParam(q, params.countryCode != "", ToLower(params.countryCode), CountryCode, ApiKey, query, opts);
      r := SetParam(r, params.limit != 0, FormatInt(params.limit), Limit, CountryCode, query, opts);
      if params.minConfidence != 0 && (params.minConfidence > 10 || params.minConfidence < 0) {
        params.minConfidence := MIN_CONFIDENCE_FALLBACK;
      }
      r := SetParam(r, params.minConfidence != 0, FormatInt(params.minConfidence), MinConfidence, Limit, query, opts);
    }

    /** The flags that shape the results: no_annotations, no_dedupe, no_record. */
    method SetResultFlags(q: map<Param, string>, params: GeocodeParams, ghost query: string, ghost opts: Option<Options>)
      returns (r: map<Param, string>)
      requires opts.Some? && params.Value() == Normalize(opts.value)
      requires q == SetThrough(query, key, opts, MinConfidence)
      ensures r == SetThrough(query, key, opts, NoRecord)
    {
      r := SetParam(q, params.noAnnotations, FLAG_ON, NoAnnotations, MinConfidence, query, opts);
      r := SetParam(r, params.noDedupe, FLAG_ON, NoDedupe, NoAnnotations, query, opts);
      r := SetParam(r, params.noRecord, FLAG_ON, NoRecord, NoDedupe, query, opts);
    }

    /** The flags that shape the response: add_request, abbrv, pretty. */
    method SetOutputFlags(q: map<Param, string>, params: GeocodeParams, ghost query: string, ghost opts: Option<Options>)
      returns (r: map<Param, string>)
      requires opts.Some? && params.Value() == Normalize(opts.value)
      requires q == SetThrough(query, key, opts, NoRecord)
      ensures r == SetThrough(query, key, opts, Pretty)
    {
      r := SetParam(q, params.addRequest, FLAG_ON, AddRequest, NoRecord, query, opts);
      r := SetParam(r, params.abbreviate, FLAG_ON, Abbreviate, AddRequest, query, opts);
      r := SetParam(r, params.pretty, FLAG_ON, Pretty, Abbreviate, query, opts);
    }

    /** The language, passed through, and the bounding box, as "west,south,east,north". */
    method SetLanguageAndBounds(q: map<Param, string>, params: GeocodeParams, ghost query: string, ghost opts: Option<Options>)
      returns (r: map<Param, string>)
      requires opts.Some? && params.Value() == Normalize(opts.value)
      requires q == SetThrough(query, key, opts, Pretty)
      ensures r == SetThrough(query, key, opts, Bounds)
    {
      r := SetParam(q, params.language != "", params.language, Language, Pretty, query, opts);
      var bounds := if params.bounds.Some? then BoundsValue(params.bounds.value) else "";
      r := SetParam(r, params.bounds.Some?, bounds, Bounds, Language, query, opts);
    }

    /**
     * One optional parameter `p`, handled right after `prev`: set to `value`
     * when `present`, left out otherwise.
     */
    method SetParam(q: map<Param, string>, present: bool, value: string, p: Param,
                    ghost prev: Param, ghost query: string, ghost opts: Option<Options>)
      returns (r: map<Param, string>)
      requires Before(p) == Some(prev) && q == SetThrough(query, key, opts, prev)
      requires ParamValue(query, key, opts, p) == if present then Some(value) else None
      ensures r == SetThrough(query, key, opts, p)
    {
      SetThroughStep(query, key, opts, prev, p);
      r := q;
      if present {
        r := r[p := value];
      }
    }

    /**
     * One request. `now` is the clock when the call starts, `response` what the
     * GET and the decoding produced, `later` the clock after the response was
     * decoded, and `delay` the pacing interval derived from the rate report.
     * Returns the parameters it sent, how long it slept first, and the outcome.
     */
    method Geocode(query: string, params: GeocodeParams?, now: int, response: Response, later: int, delay: int)
      returns (request: map<Param, string>, wait: nat, r: Result<GeocodeResult, GeocodeFailure>)
      modifies this`sleep, params
      ensures wait == PacingWait(old(sleep), now)
      ensures request == QueryParams(query, key, old(Snapshot(params)))
      ensures params != null ==> params.Value() == Normalize(old(params.Value()))
      ensures r == Classify(response)
      ensures sleep == NextSleep(old(sleep), disableRateLimitSleep, response, later, delay)
      ensures r.Failure? ==> sleep == old(sleep)
      ensures sleep != old(sleep) ==> r.Success? && !disableRateLimitSleep && sleep == later + delay
    {
      wait := PacingWait(sleep, now);
      request := GeocodeUrl(query, params);
      match response {
        case TransportError(m) =>
          r := Failure(TransportFailure(m));
          return;
        case DecodeError(m) =>
          r := Failure(DecodeFailure(m));
          return;
        case Decoded(result) =>
          if result.status.code != SUCCESS_CODE {
            r := Failure(GeocodeError(result));
            return;
          }
          if !disableRateLimitSleep {
            sleep := later + delay;
          }
          r := Success(result);
      }
    }
  }

  /** Two requests with the same params record carry the same parameters. */
  method RepeatedRequest(g: Geocoder, query: string, params: GeocodeParams?)
    returns (first: map<Param, string>, second: map<Param, string>)
    modifies params
    ensures first == second
    ensures params != null ==> params.Value() == Normalize(old(params.Value()))
  {
    first := g.GeocodeUrl(query, params);
    if params != null {
      QueryIdempotent(query, g.key, old(params.Value()));
    }
    second := g.GeocodeUrl(query, params);
  }

  /**
   * A client created with pacing off issues back-to-back requests without
   * sleeping. A client that turns pacing off later may still wait once
   * (DisablingKeepsPendingWait).
   */
  method UnpacedRequests(key: string, query: string, now1: int, response1: Response, later1: int, delay1: int,
                         now2: int, response2: Response, later2: int, delay2: int)
    returns (wait1: nat, wait2: nat)
    requires now1 >= ZERO_TIME && now2 >= ZERO_TIME
    ensures wait1 == 0 && wait2 == 0
  {
    var g := new Geocoder(key);
    g.disableRateLimitSleep := true;
    var request, r;
    request, wait1, r := g.Geocode(query, null, now1, response1, later1, delay1);
    request, wait2, r := g.Geocode(query, null, now2, response2, later2, delay2);
  }
}
