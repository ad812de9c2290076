/**
 * The regular expressions that both the Route schema (`backend/models/Route.js`)
 * and the request validators (`backend/middleware/validation.js`) use, written
 * as matchers that follow the structure of each expression, with lemmas that
 * say in plain terms which strings they accept.
 */
module Patterns {
  import opened Common

  /** `[0-9a-fA-F]`, which is also `[0-9A-F]` under the `i` flag. */
  predicate IsHexDigit(c: char)
  {
    '0' <= c <= '9' || 'a' <= c <= 'f' || 'A' <= c <= 'F'
  }

  predicate AllHex(s: string)
  {
    forall i :: 0 <= i < |s| ==> IsHexDigit(s[i])
  }

  /** `/^[0-9a-fA-F]{24}$/`: the text of a MongoDB ObjectId. */
  predicate IsObjectIdText(s: string)
  {
    |s| == 24 && AllHex(s)
  }

  /** `/^#[0-9A-F]{6}$/i`: a hex colour. */
  predicate IsHexColor(s: string)
  {
    |s| == 7 && s[0] == '#' && AllHex(s[1..])
  }

  /** The hour alternative `([0-1]?[0-9]|2[0-3])` of the operating-hours expression. */
  predicate MatchesHourGroup(h: string)
  {
    || (|h| == 1 && IsDigit(h[0]))
    || (|h| == 2 && '0' <= h[0] <= '1' && IsDigit(h[1]))
    || (|h| == 2 && h[0] == '2' && '0' <= h[1] <= '3')
  }

  /** The minute part `[0-5][0-9]`. */
  predicate MatchesMinuteGroup(m: string)
  {
    |m| == 2 && '0' <= m[0] <= '5' && IsDigit(m[1])
  }

  /** `/^([0-1]?[0-9]|2[0-3]):[0-5][0-9]$/`. The colon is not a digit, so it stands at index 1 or 2. */
  predicate MatchesTimePattern(s: string)
  {
    || (|s| == 4 && MatchesHourGroup(s[..1]) && s[1] == ':' && MatchesMinuteGroup(s[2..]))
    || (|s| == 5 && MatchesHourGroup(s[..2]) && s[2] == ':' && MatchesMinuteGroup(s[3..]))
  }

  predicate AllDigits(s: string)
  {
    forall i :: 0 <= i < |s| ==> IsDigit(s[i])
  }

  /** A clock time written `H:MM` or `HH:MM`, with an hour of at most 23 and a minute of at most 59. */
  predicate IsClockTime(s: string)
  {
    IsClockTimeSplitAt(s, 1) || IsClockTimeSplitAt(s, 2)
  }

  predicate IsClockTimeSplitAt(s: string, k: nat)
  {
    && |s| == k + 3
    && s[k] == ':'
    && AllDigits(s[..k]) && AllDigits(s[k + 1..])
    && DecimalValue(s[..k]) <= 23
    && DecimalValue(s[k + 1..]) <= 59
  }

  lemma TwoDigitValue(s: string)
    requires |s| == 2 && AllDigits(s)
    ensures DecimalValue(s) == 10 * DigitValue(s[0]) + DigitValue(s[1])
  {
    assert s[..1][..0] == [];
    assert DecimalValue(s[..1]) == DigitValue(s[0]);
  }

  lemma OneDigitValue(s: string)
    requires |s| == 1 && AllDigits(s)
    ensures DecimalValue(s) == DigitValue(s[0])
  {
    assert s[..0] == [];
  }

  /** The hour group accepts exactly the one- or two-digit hours from 0 to 23. */
  lemma HourGroupMeaning(h: string)
    requires |h| == 1 || |h| == 2
    ensures MatchesHourGroup(h) <==> AllDigits(h) && DecimalValue(h) <= 23
  {
    if AllDigits(h) {
      if |h| == 1 { OneDigitValue(h); } else { TwoDigitValue(h); }
    }
  }

  /** The minute group accepts exactly the two-digit minutes from 00 to 59. */
  lemma MinuteGroupMeaning(m: string)
    requires |m| == 2
    ensures MatchesMinuteGroup(m) <==> AllDigits(m) && DecimalValue(m) <= 59
  {
    if AllDigits(m) { TwoDigitValue(m); }
  }

  /** The operating-hours expression accepts exactly the clock times from 0:00 to 23:59. */
  lemma TimePatternMeaning(s: string)
    ensures MatchesTimePattern(s) <==> IsClockTime(s)
  {
    if |s| == 4 {
      HourGroupMeaning(s[..1]);
      MinuteGroupMeaning(s[2..]);
      assert s[1 + 1..] == s[2..];
      if MatchesTimePattern(s) {
        assert IsClockTimeSplitAt(s, 1);
      }
    } else if |s| == 5 {
      HourGroupMeaning(s[..2]);
      MinuteGroupMeaning(s[3..]);
      assert s[2 + 1..] == s[3..];
      if MatchesTimePattern(s) {
        assert IsClockTimeSplitAt(s, 2);
      }
    }
  }

  /** A hex colour is `#` and six hex digits of either case; the `#` and the length are both required. */
  lemma HexColorExamples()
    ensures IsHexColor("#a1B2c3") && IsHexColor("#007bff")
    ensures !IsHexColor("007bff") && !IsHexColor("#12345") && !IsHexColor("#12345g")
  {
    assert "#a1B2c3"[1..] == "a1B2c3";
    assert "#12345g"[1..][5] == 'g';
  }

  /** "24:00" and "7:5" are refused; "7:05", "07:05" and "23:59" are accepted. */
  lemma TimePatternExamples()
    ensures !MatchesTimePattern("24:00") && !MatchesTimePattern("7:5")
    ensures MatchesTimePattern("7:05") && MatchesTimePattern("07:05") && MatchesTimePattern("23:59")
  {
    assert "7:05"[..1] == "7" && "7:05"[2..] == "05";
    assert "07:05"[..2] == "07" && "07:05"[3..] == "05";
    assert "23:59"[..2] == "23" && "23:59"[3..] == "59";
    assert "24:00"[..2] == "24";
  }
}

/**
 * The standalone checks of `backend/middleware/validation.js`, and the bounds
 * that its Joi schemas impose on location queries and on the stops of a new
 * route, stated as predicates.
 */
module Validation {
  import opened Common
  import opened Patterns
  import RouteModel
  import BusModel

  /** What a middleware does with a request: pass it on with `next()`, or answer 400 with a message. */
  datatype Verdict = Next | Reject(message: string)

  /**
   * `validateObjectId(paramName)`: the parameter must be present and be 24 hex
   * digits; otherwise the request is answered 400 `Invalid <paramName> format`.
   */
  function ValidateObjectId(paramName: string, param: Option<string>): (v: Verdict)
    ensures v.Next? <==> param.Some? && |param.value| == 24 && forall i :: 0 <= i < 24 ==> IsHexDigit(param.value[i])
    ensures v.Reject? ==> v.message == "Invalid " + paramName + " format"
  {
    if param.None? || param.value == "" || !IsObjectIdText(param.value) then Reject("Invalid " + paramName + " format")
    else Next
  }

  datatype SeatCounts = SeatCounts(totalSeats: int, occupiedSeats: int)

  /** `validateOccupancy`: only an occupancy that is present and has more occupied than total seats is refused. */
  function ValidateOccupancy(occupancy: Option<SeatCounts>): (v: Verdict)
    ensures v.Reject? <==> occupancy.Some? && occupancy.value.occupiedSeats > occupancy.value.totalSeats
  {
    if occupancy.Some? && occupancy.value.occupiedSeats > occupancy.value.totalSeats
    then Reject("Occupied seats cannot exceed total seats")
    else Next
  }

  /** The `locationQuery` schema: both coordinates present and in range, an optional radius of 100 m to 50 km. */
  predicate ValidLocationQuery(latitude: Option<real>, longitude: Option<real>, radius: Option<real>)
  {
    && latitude.Some? && -90.0 <= latitude.value <= 90.0
    && longitude.Some? && -180.0 <= longitude.value <= 180.0
    && (radius.Some? ==> 100.0 <= radius.value <= 50000.0)
  }

  /**
   * A query that passes the `locationQuery` schema searches a box whose
   * latitude half-height lies between 100 m and 50 km worth of degrees.
   */
  lemma LocationQueryBox(latitude: Option<real>, longitude: Option<real>, radius: Option<real>)
    requires ValidLocationQuery(latitude, longitude, radius)
    ensures 100.0 / 111000.0 <= BusModel.LatitudeDelta(radius) <= 50000.0 / 111000.0
  {
  }

  /** The stop rules of the `createRoute` schema: at least two stops, each meeting `StopFieldsValid`. */
  predicate ValidRouteStops(stops: seq<RouteModel.Stop>)
  {
    && |stops| >= 2
    && forall i :: 0 <= i < |stops| ==> StopFieldsValid(stops[i])
  }

  /**
   * One stop of a `createRoute` request: a non-empty stop id, a name not blank
   * once trimmed (Joi's strings refuse ""), order >= 1, estimatedTime >= 0 and
   * coordinates in range.
   */
  predicate StopFieldsValid(s: RouteModel.Stop)
  {
    && s.stopId != ""
    && BusModel.HasText(s.name)
    && s.order >= 1
    && s.estimatedTime >= 0.0
    && -90.0 <= s.latitude <= 90.0
    && -180.0 <= s.longitude <= 180.0
  }

  /** The body of a `POST /routes` request, with the optional fields as options. */
  datatype CreateRouteRequest = CreateRouteRequest(
    routeName: string,
    routeNumber: string,
    description: Option<string>,
    stops: seq<RouteModel.Stop>,
    totalDistance: real,
    estimatedDuration: real,
    operatingStart: string,
    operatingEnd: string,
    frequency: real,
    adultFare: real,
    studentFare: Option<real>,
    seniorFare: Option<real>,
    routeType: Option<RouteModel.RouteType>,
    color: Option<string>)

  /**
   * The `createRoute` schema: a route name and number, and a description when
   * given, not blank once trimmed; the stop rules; the bounds and patterns.
   */
  predicate ValidCreateRoute(q: CreateRouteRequest)
  {
    && BusModel.HasText(q.routeName)
    && BusModel.HasText(q.routeNumber)
    && (q.description.Some? ==> BusModel.HasText(q.description.value))
    && ValidRouteStops(q.stops)
    && q.totalDistance >= 0.0
    && q.estimatedDuration >= 1.0
    && MatchesTimePattern(q.operatingStart)
    && MatchesTimePattern(q.operatingEnd)
    && q.frequency >= 1.0
    && q.adultFare >= 0.0
    && (q.studentFare.Some? ==> q.studentFare.value >= 0.0)
    && (q.seniorFare.Some? ==> q.seniorFare.value >= 0.0)
    && (q.color.Some? ==> IsHexColor(q.color.value))
  }

  /**
   * The document `Route.create(req.body)` builds: the request's fields, with
   * the Route schema's defaults for what the request leaves out (half fares,
   * status Active, type City, colour `#007bff`).
   */
  function RouteDocument(q: CreateRouteRequest, id: string): (r: RouteModel.Route)
    ensures r.stops == q.stops && r.fare.adult == q.adultFare
    ensures r.color == if q.color.Some? then q.color.value else "#007bff"
    ensures r.status == RouteModel.Active
  {
    RouteModel.Route(id, q.routeName, q.routeNumber, q.description, q.stops, q.totalDistance, q.estimatedDuration,
                     q.operatingStart, q.operatingEnd, q.frequency,
                     RouteModel.FareWithDefaults(q.adultFare, q.studentFare, q.seniorFare),
                     RouteModel.Active,
                     if q.routeType.Some? then q.routeType.value else RouteModel.City,
                     if q.color.Some? then q.color.value else "#007bff")
  }

  /**
   * A request that passes the `createRoute` schema builds a document that
   * passes the Route schema too, so `createRoute` can then fail only on a
   * repeated stop order or stop id.
   */
  lemma {:induction false} ValidRequestMeetsSchema(q: CreateRouteRequest, id: string)
    requires ValidCreateRoute(q)
    ensures RouteModel.RouteSatisfiesSchema(RouteDocument(q, id))
  {
    RouteModel.DefaultColorValid();
    var r := RouteDocument(q, id);
    forall i | 0 <= i < |r.stops|
      ensures RouteModel.StopSatisfiesSchema(r.stops[i])
    {
      assert StopFieldsValid(q.stops[i]);
    }
  }
}
