/** get_weather (bot.py:37-55): ask the weather provider about one hour of
    tomorrow and shape its reply into a `(temp, rain)` pair. The HTTP round
    trip is an oracle: `Provider` maps the requested local date-time to what
    the request produced. */
module Weather {
  import opened PyValue
  import opened CivilDate

  /** What `requests.get(url)` yields: a connection-level failure, or a
      reply with its HTTP status and its body decoded as JSON (None when
      the body is not JSON). */
  datatype Reply =
    | ConnectionFailed
    | Response(status: int, body: Option<Json>)

  /** The provider as seen from the bot, keyed by the local date-time whose
      timestamp goes into the request. */
  type Provider = DateTime -> Reply

  /** What a call of get_weather does: return a `(temp, rain)` pair, or let
      an exception escape. `temp` is an int or None; `rain` is whatever
      Python value the code returns (JNull is Python's None). */
  datatype Outcome =
    | Returned(temp: Option<int>, rain: Json)
    | Raised(error: PyException)

  /** The `(None, None)` pair returned for every caught failure. */
  const NoReading: Outcome := Returned(None, JNull)

  /** True when the `(temp, rain)` pair has neither part None. */
  predicate HasReading(o: Outcome)
  {
    o.Returned? && o.temp.Some? && o.rain != JNull
  }

  // ---------------------------------------------------------------------
  // Python's operations on decoded values, with the exceptions they raise

  /** `v[key]` for a string key. */
  function Subscript(v: Json, key: string): (r: Result<Json, PyException>)
    ensures r.Err? ==> r.error == (if v.JObject? then KeyError else TypeError)
    ensures r.Ok? <==> v.JObject? && Lookup(v.entries, key).Some?
    ensures r.Ok? ==> r.value == Lookup(v.entries, key).value
  {
    match v
    case JObject(entries) =>
      (match Lookup(entries, key)
       case Some(x) => Ok(x)
       case None => Err(KeyError))
    case _ => Err(TypeError)
  }

  /** `v[0]`. A dict's keys are strings, so 0 is never among them. */
  function First(v: Json): (r: Result<Json, PyException>)
    ensures r.Ok? <==> (v.JArray? && |v.items| > 0) || (v.JStr? && |v.s| > 0)
    ensures r.Ok? && v.JArray? ==> r.value == v.items[0]
    ensures r.Ok? && v.JStr? ==> r.value == JStr(v.s[..1])
    ensures r.Err? ==> r.error == (if v.JObject? then KeyError
                                   else if v.JArray? || v.JStr? then IndexError
                                   else TypeError)
  {
    match v
    case JArray(items) => if |items| == 0 then Err(IndexError) else Ok(items[0])
    case JStr(s) => if |s| == 0 then Err(IndexError) else Ok(JStr(s[..1]))
    case JObject(_) => Err(KeyError)
    case _ => Err(TypeError)
  }

  /** `round(v)`; only numbers (and bools, which Python counts as ints)
      can be rounded. */
  function Round(v: Json): (r: Result<int, PyException>)
    ensures r.Ok? <==> v.JNum? || v.JBool?
    ensures v.JNum? ==> r == Ok(v.n)
    ensures v.JBool? ==> r == Ok(if v.b then 1 else 0)
    ensures r.Err? ==> r.error == TypeError
  {
    match v
    case JNum(n) => Ok(n)
    case JBool(b) => Ok(if b then 1 else 0)
    case _ => Err(TypeError)
  }

  /** `v.get(key, default)`; only dicts have a `get` method. */
  function Get(v: Json, key: string, default: Json): (r: Result<Json, PyException>)
    ensures r.Ok? <==> v.JObject?
    ensures r.Ok? ==> r.value == (if Lookup(v.entries, key).Some? then Lookup(v.entries, key).value else default)
    ensures r.Err? ==> r.error == AttributeError
  {
    match v
    case JObject(entries) =>
      (match Lookup(entries, key)
       case Some(x) => Ok(x)
       case None => Ok(default))
    case _ => Err(AttributeError)
  }

  // ---------------------------------------------------------------------
  // The body of the try block

  /** `temp = round(data['data'][0]['temp'])` then
      `rain = data.get('rain', {}).get('1h', 0)`. */
  function Shape(data: Json): Result<(int, Json), PyException>
  {
    var list :- Subscript(data, "data");
    var first :- First(list);
    var t :- Subscript(first, "temp");
    var temp :- Round(t);
    var rainObject :- Get(data, "rain", JObject([]));
    var rain :- Get(rainObject, "1h", JNum(0));
    Ok((temp, rain))
  }

  /** The try block and its two handlers: a RequestException (connection
      failure, an HTTP status from 400 to 599 rejected by raise_for_status,
      a body that is not JSON) or a KeyError gives `(None, None)`; any other
      exception escapes. */
  function Interpret(reply: Reply): (o: Outcome)
    ensures o.Returned? && o.temp.None? ==> o == NoReading
    ensures o.Raised? ==> o.error in {IndexError, TypeError, AttributeError}
  {
    match reply
    case ConnectionFailed => NoReading
    case Response(status, body) =>
      if 400 <= status < 600 then NoReading
      else
        match body
        case None => NoReading
        case Some(data) =>
          match Shape(data)
          case Ok((temp, rain)) => Returned(Some(temp), rain)
          case Err(e) => if e == KeyError then NoReading else Raised(e)
  }

  /** get_weather(xam) called on `today`: the target date-time is computed
      outside the try block, so its exceptions escape. */
  function GetWeather(today: Date, xam: int, provider: Provider): (o: Outcome)
    requires ValidDate(today)
    ensures o.Raised? && (o.error == OverflowError || o.error == ValueError) <==>
      today == Date(MaxYear, 12, 31) || !(0 <= xam <= 23)
    ensures today != Date(MaxYear, 12, 31) && 0 <= xam <= 23 ==>
      o == Interpret(provider(DateTime(Tomorrow(today).value, xam, 0, 0)))
  {
    match TomorrowAt(today, xam)
    case Err(e) => Raised(e)
    case Ok(target) => Interpret(provider(target))
  }

  // ---------------------------------------------------------------------
  // Properties of the shaping

  /** A reply that never reached the shaping code gives `(None, None)`. */
  lemma RequestFailuresGiveNoReading(reply: Reply)
    requires reply.ConnectionFailed? ||
             (reply.Response? && (400 <= reply.status < 600 || reply.body.None?))
    ensures Interpret(reply) == NoReading
  {
  }

  /** Exactly the caught failures give a missing temperature, and then the
      rain is missing too; any other returned pair has both. */
  lemma NoTemperatureIffCaught(reply: Reply)
    ensures Interpret(reply).Returned? && Interpret(reply).temp.None? <==>
      reply.ConnectionFailed? ||
      (reply.Response? && (400 <= reply.status < 600 || reply.body.None? ||
                           Shape(reply.body.value) == Err(KeyError)))
    ensures Interpret(reply).Returned? && Interpret(reply).temp.None? ==> Interpret(reply).rain == JNull
  {
  }

  /** An empty `data` list is not a caught failure: the IndexError escapes. */
  lemma EmptyDataListRaises(status: int, entries: seq<(string, Json)>)
    requires !(400 <= status < 600)
    requires Lookup(entries, "data") == Some(JArray([]))
    ensures Interpret(Response(status, Some(JObject(entries)))) == Raised(IndexError)
  {
  }

  /** Whenever a reply yields a temperature, it is the rounded `temp` of
      the first entry of the `data` list, and the rain comes from the
      TOP-LEVEL `rain` object (which is then absent or a dict): its `1h`
      value when present, otherwise 0. */
  lemma SuccessfulReading(status: int, entries: seq<(string, Json)>)
    ensures var o := Interpret(Response(status, Some(JObject(entries))));
      o.Returned? && o.temp.Some? ==>
        var data := Lookup(entries, "data");
        data.Some? && data.value.JArray? && |data.value.items| > 0 &&
        data.value.items[0].JObject? &&
        Lookup(data.value.items[0].entries, "temp").Some? &&
        Round(Lookup(data.value.items[0].entries, "temp").value) == Ok(o.temp.value) &&
        (Lookup(entries, "rain").None? || Lookup(entries, "rain").value.JObject?) &&
        o.rain == TopLevelRain(entries)
  {
  }

  /** The converse: a reply that passes raise_for_status and whose body has
      a non-empty `data` list headed by a dict with a roundable `temp`, and
      a top-level `rain` that is absent or a dict, yields that temperature
      and the top-level rain, and raises nothing. */
  lemma WellFormedReplyGivesReading(status: int, entries: seq<(string, Json)>,
                                    items: seq<Json>, fields: seq<(string, Json)>, t: Json)
    requires !(400 <= status < 600)
    requires Lookup(entries, "data") == Some(JArray(items))
    requires |items| > 0 && items[0] == JObject(fields)
    requires Lookup(fields, "temp") == Some(t) && Round(t).Ok?
    requires Lookup(entries, "rain").None? || Lookup(entries, "rain").value.JObject?
    ensures Interpret(Response(status, Some(JObject(entries)))) ==
      Returned(Some(Round(t).value), TopLevelRain(entries))
  {
  }

  /** `data.get('rain', {}).get('1h', 0)` for a reply whose `rain` is
      absent or a dict. */
  function TopLevelRain(entries: seq<(string, Json)>): Json
    requires Lookup(entries, "rain").None? || Lookup(entries, "rain").value.JObject?
  {
    match Lookup(entries, "rain")
    case None => JNum(0)
    case Some(r) =>
      match Lookup(r.entries, "1h")
      case None => JNum(0)
      case Some(v) => v
  }

  /** A reading can be present with its rain None: a reply carrying
      `"rain": {"1h": null}` returns a temperature and a None rain. */
  lemma TemperatureWithNoneRain(temp: int)
    ensures var body := JObject([("data", JArray([JObject([("temp", JNum(temp))])])),
                                 ("rain", JObject([("1h", JNull)]))]);
      Interpret(Response(200, Some(body))) == Returned(Some(temp), JNull)
  {
    var rainObject := JObject([("1h", JNull)]);
    var entries := [("data", JArray([JObject([("temp", JNum(temp))])])), ("rain", rainObject)];
    assert Lookup(entries[1..], "rain") == Some(rainObject);
    assert Lookup(entries, "rain") == Some(rainObject);
  }
}
