# OpenCage geocoder client — a Dafny model

This project models the core of the Go client for the OpenCage geocoding API
(package `opencagedata`, file `geocoder.go`). It covers three things:

- **Query parameters.** `geocodeUrl` turns a free-text query, the client's API
  key and an optional `*GeocodeParams` record into the query parameters of the
  request URL. Along the way it writes a clamped minimum confidence back into
  the caller's record.
- **One request.** `Geocode` sleeps until the client's pacing timestamp, sends
  the request, and classifies the outcome. The outcome is a transport error, a
  decode error, a non-200 status (a `GeocodeError`), or a success. After a
  success it moves the pacing timestamp, unless pacing is disabled.
- **A new client.** `NewGeocoder` builds a client with a key, pacing on and the
  zero time as its timestamp.

Files:

- `wrappers.dfy`: `Option` and `Result`.
- `text.dfy` (module `Text`): the Go library text behaviour the client relies
  on. This is `%v` of an `int` (`FormatInt`, with its inverse `ParseInt`),
  `strings.ToLower` on ASCII, the comma join of the bounds (`Join`) and
  `strings.Split` as its reading side.
- `geocoder.dfy` (module `OpenCageData`): the records, the `GeocodeParams` and
  `Geocoder` classes, the query-parameter specification and its lemmas, the
  time arithmetic, response classification and pacing.

How the main pieces are modelled:

- **Query values.** Go's `url.Values` becomes a `map<Param, string>`. `Param`
  enumerates the thirteen parameters the client can set, and `Name` gives each
  one's wire name. `NamesDistinct` proves that distinct parameters have
  distinct names, so the map keyed by `Param` is the map keyed by name.
- **Specification of `geocodeUrl`.** `QueryParams` is the declarative
  definition: each parameter is present exactly when `ParamValue` gives it a
  value.
- **The method.** `Geocoder.GeocodeUrl` sets the parameters one at a time, in
  the source's order. Each step is proved against `SetThrough(p)`, the
  parameters set once everything up to `p` has been handled. `SetThroughStep`
  and `SetThroughComplete` tie that step-by-step construction to
  `QueryParams`. The method's steps are grouped as the source groups them:
  filters, result flags, output flags, then language and bounds.
- **In-place update.** `GeocodeParams` is a class because `geocodeUrl`
  assigns `params.MinConfidence = 5` in place. `Geocoder` is a class because
  `Geocode` updates its `sleep` field.
- **Time.** A timestamp is an integer count of nanoseconds from the Unix
  epoch; a duration is an integer count of nanoseconds. The client's initial
  timestamp is Go's zero `time.Time` (`ZERO_TIME`). `Sub` saturates to the
  int64 range, as `time.Time.Sub` does.
- **Clock readings and the network.** `Geocode` receives as inputs:
  - the clock reading before the sleep (`now`);
  - the outcome of the GET and the decoding (`response`);
  - the clock reading after the decoding (`later`);
  - the pacing delay that the rate report yields (`delay`).
- **Not monotonic.** A successful response updates the timestamp only when
  pacing is on; a non-200 response returns before the update. The timestamp
  is not monotonic. A paced success moves it back exactly when
  `later + delay` falls before it (`PacingCanMoveBack`). A request that
  waited has `later >= sleep`, so this takes a negative delay. The delay is
  an input here, and the model says nothing about which rate reports yield a
  negative one.
- **Turning pacing off.** `Geocode` computes and honours the wait without
  reading `DisableRateLimitSleep`. A client that turns pacing off after a
  paced success therefore still waits once, for the timestamp that success
  left behind (`DisablingKeepsPendingWait`). Only a client created with pacing
  off never waits.

## Model

| member | source | states |
|---|---|---|
| Text.FormatNat | geocoder.go:175 | the decimal text of a natural is a non-empty run of digits with no leading zero |
| Text.FormatInt | geocoder.go:175 | `%v` of an int starts with '-' exactly for negatives, followed by digits |
| Text.DigitsValueOfFormatNat | geocoder.go:175 | the digits of n read back as n |
| Text.ParseFormatInt | geocoder.go:174-176 | the formatted limit parses back to the same int, sign included |
| Text.FormatIntInjective | geocoder.go:175 | distinct ints are sent as distinct texts |
| Text.LowerChar | geocoder.go:172 | upper-case ASCII letters map to their lower-case letter, other characters are kept |
| Text.ToLower | geocoder.go:172 | same length, every character lowered, no upper-case letter left |
| Text.ToLowerIdempotent | geocoder.go:172 | lower-casing an already lower-cased country code changes nothing |
| Text.ToLowerFixedPoint | geocoder.go:172 | a code is sent unchanged exactly when it has no upper-case letter |
| Text.SplitJoin | geocoder.go:206 | splitting comma-joined fields that hold no comma gives the fields back |
| OpenCageData.GeocodeParams.constructor | geocoder.go:63-76 | a params record holds exactly the field values it was built with |
| OpenCageData.ClampMinConfidence | geocoder.go:177-183 | the sent confidence is 0 exactly for 0 and the setting exactly when in 0..10; anything else becomes 5 |
| OpenCageData.Normalize | geocoder.go:177-183 | the write-back changes only minConfidence, changes the record exactly when it is outside 0..10, and then writes 5 |
| OpenCageData.BoundsValue | geocoder.go:205-207 | the bounds text splits at its commas into west, south, east, north when no coordinate holds a comma |
| OpenCageData.Name | geocoder.go:168-207 | every wire name is a non-empty run of lower-case letters and underscores |
| OpenCageData.OptionalValue | geocoder.go:170-207 | q and key are not optional parameters, and no optional parameter is sent with an empty value |
| OpenCageData.ParamValue | geocoder.go:168-207 | q carries the query and key the API key; with nil params no other parameter has a value; no other parameter is sent empty |
| OpenCageData.NamesDistinct | geocoder.go:168-207 | the thirteen parameter names are pairwise distinct |
| OpenCageData.QueryParams | geocoder.go:167-208 | q and key are always sent; with nil params nothing else is sent |
| OpenCageData.Before | geocoder.go:168-207 | the parameters are set in a fixed order, one per step |
| OpenCageData.Rank | geocoder.go:168-207 | each parameter has one of the thirteen step positions |
| OpenCageData.SetThroughStep | geocoder.go:171-207 | one `if ... { q.Set }` step adds its parameter with its value exactly when it has one and leaves the others alone |
| OpenCageData.SetThroughComplete | geocoder.go:167-208 | after the last step the parameters are exactly QueryParams |
| OpenCageData.ValueParamPresence | geocoder.go:170-207 | countrycode, limit, min_confidence, language and bounds are sent exactly when their setting is non-zero / non-nil |
| OpenCageData.FlagParamPresence | geocoder.go:184-201 | each of the six flags is sent exactly when it is true |
| OpenCageData.TextParamValues | geocoder.go:171-204 | flags are sent as "1", language verbatim, the country code lower-cased with no capital left |
| OpenCageData.LimitParam | geocoder.go:174-176 | a non-zero limit is sent and reads back as the limit |
| OpenCageData.MinConfidenceParam | geocoder.go:177-183 | a non-zero min_confidence is sent, reads back in 1..10, equals the setting when in range and 5 otherwise |
| OpenCageData.BoundsParam | geocoder.go:205-207 | the bounds value splits at its commas into west, south, east, north |
| OpenCageData.MinConfidenceExamples | geocoder.go:177-183 | 11 and -3 are sent as "5", 7 as "7", 0 is not sent |
| OpenCageData.CountryCodeExample | geocoder.go:171-173 | the country code "BE" is sent as "be" |
| OpenCageData.BoundsExample | geocoder.go:205-207 | the box N 51, S 50, E 5, W 4 is sent as "4,50,5,51" |
| OpenCageData.QueryIdempotent | geocoder.go:177-183 | the written-back record yields the same parameters, and a second write-back changes nothing |
| OpenCageData.NoColonInCode | geocoder.go:115 | a status code in decimal contains no colon |
| OpenCageData.ErrorMessageAsWritten | geocoder.go:114-116 | as written, the error text opens with '%', never with the status code, and ends with the status message |
| OpenCageData.ErrorMessage | geocoder.go:114-116 | as intended, the error text opens with the status code in decimal and a colon, and ends with the status message |
| OpenCageData.ErrorMessageAsWrittenLosesCode | geocoder.go:114-116 | as written, the text before the first colon of the error message never reads as the status code |
| OpenCageData.ErrorMessageExample | geocoder.go:114-116 | a 400 error reads "%!s(int=400): ..." as written, "400: ..." as intended |
| OpenCageData.ErrorMessageCode | geocoder.go:114-116 | corrected, the text before the first colon reads back as the status code |
| OpenCageData.Sub | geocoder.go:131 | the difference keeps its sign and is exact within the Duration range; above it the result is the largest Duration, below it the smallest |
| OpenCageData.PacingWait | geocoder.go:131-134 | a call sleeps exactly when the timestamp is in the future, and then until that timestamp; a timestamp beyond the largest Duration gives the largest Duration |
| OpenCageData.Classify | geocoder.go:137-150 | success exactly for a decoded status 200, carrying the result; transport, decode and non-200 failures otherwise |
| OpenCageData.NextSleep | geocoder.go:152-157 | the timestamp moves to later + delay exactly after a success with pacing on, and is unchanged otherwise |
| OpenCageData.PacedWaitBound | geocoder.go:152-157 | after a paced success, a call at or after `later` waits at most max(delay, 0) |
| OpenCageData.PacingCanMoveBack | geocoder.go:152-157 | a paced success moves the timestamp back exactly when later + delay falls before it; after a wait, exactly when the delay is below sleep - later |
| OpenCageData.DisablingKeepsPendingWait | geocoder.go:131-157 | after a paced success, turning pacing off keeps that success's timestamp, and a call before it still waits |
| OpenCageData.DisabledNeverWaits | geocoder.go:131-157 | with pacing off the timestamp stays the zero time and no call waits |
| OpenCageData.Geocoder.constructor | geocoder.go:118-122 | a new client has the key, pacing on and the zero time as timestamp |
| OpenCageData.Geocoder.GeocodeUrl | geocoder.go:163-212 | the request carries exactly QueryParams of the record as it was on entry, and the record is left normalized |
| OpenCageData.Geocoder.SetFilters | geocoder.go:171-183 | countrycode, limit and min_confidence are set as specified, with the out-of-range confidence written back first |
| OpenCageData.Geocoder.SetResultFlags | geocoder.go:184-192 | no_annotations, no_dedupe and no_record are set as specified |
| OpenCageData.Geocoder.SetOutputFlags | geocoder.go:193-201 | add_request, abbrv and pretty are set as specified |
| OpenCageData.Geocoder.SetLanguageAndBounds | geocoder.go:202-207 | language and bounds are set as specified |
| OpenCageData.Geocoder.SetParam | geocoder.go:171-173 | one conditional `q.Set` extends the parameters by exactly one step |
| OpenCageData.Geocoder.Geocode | geocoder.go:127-160 | the call waits PacingWait, sends QueryParams, reports Classify, and updates the timestamp only after a paced success |
| OpenCageData.RepeatedRequest | geocoder.go:177-183 | two requests with the same record carry identical parameters, although the first may rewrite it, and the record ends normalized |
| OpenCageData.UnpacedRequests | geocoder.go:47-50 | a client created with pacing disabled never sleeps |

## Left out

- The HTTP GET, closing the body and JSON decoding are not modelled. Their outcome is the `Response` given to `Geocode`.
- The mutex in `Geocode` is not modelled. The model is sequential.
- `time.Now` and `time.Sleep` are not modelled. The clock readings are inputs, and the sleep is reported as the returned `wait`.
- The float arithmetic that derives the delay from the rate report is not modelled. The delay is an input to `Geocode`.
- `time.Time.Add` overflow is not modelled. The new timestamp is `later + delay` in unbounded integers.
- Float formatting is not modelled. The `%v` text of the float64 bounds fields is carried as strings, and float32 geometry values are reals.
- URL assembly is not modelled: `url.Parse`, the `json` path and `Values.Encode` percent-escaping. `GeocodeUrl` returns the parameter map instead of the URL string.
- Text.LowerChar: lowers only the ASCII letters A to Z. `strings.ToLower` also lowers non-ASCII upper-case letters (such as 'Ä'), which the model keeps unchanged. Unicode case mapping is out of scope; ISO country codes are ASCII.
- Text.ToLower: lower-cases ASCII letters only, character by character through `LowerChar`. `strings.ToLower` also maps non-ASCII letters.
- OpenCageData.Geocoder.GeocodeUrl: steps are grouped in helper methods. The source writes the thirteen `if` statements inline. Each helper computes its value eagerly and passes it to `SetParam`. This makes no observable difference, because the computations are pure.

## Findings

| source | as written | input that shows it | evidently intended | confidence | as-written member | corrected member |
|---|---|---|---|---|---|---|
| geocoder.go:115 | the int status code is formatted with the `%s` verb, which fmt prints as `%!s(int=N)` | a GeocodeError whose status code is 400 gives "%!s(int=400): " followed by the message | the code in decimal, "400: " followed by the message | not executed; fmt documents the `%!verb(type=value)` form for a wrong verb | OpenCageData.ErrorMessageAsWrittenLosesCode | OpenCageData.ErrorMessageCode |
