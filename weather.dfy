/**
 * The Korea Meteorological Administration nowcast tool: the compass label of a wind
 * direction, the base time of a request, the reformatting of the coded observation
 * items, and the ladder of messages `get_current_weather` returns.
 *
 * The clock and the HTTP call are parameters: the date and the hour and minute of the
 * two `datetime.now()` readings, and a function from request parameters to what the
 * request produced.
 */
module Weather {
  import opened Common

  /** Precipitation-type codes (`PTY_CODE`). */
  const PtyCodes: map<string, string> := map[
    "0" := "없음", "1" := "비", "2" := "비/눈", "3" := "눈",
    "4" := "소나기", "5" := "빗방울", "6" := "빗방울눈날림", "7" := "눈날림"]

  /** The description of a precipitation code missing from `PtyCodes`. */
  const UnknownPty := "알 수 없음"

  /** The 16 compass points, clockwise from north (`WIND_DIRECTIONS`). */
  const WindDirections: seq<string> := [
    "북(N)", "북북동(NNE)", "북동(NE)", "동북동(ENE)",
    "동(E)", "동남동(ESE)", "남동(SE)", "남남동(SSE)",
    "남(S)", "남남서(SSW)", "남서(SW)", "서남서(WSW)",
    "서(W)", "서북서(WNW)", "북서(NW)", "북북서(NNW)"]

  /** The unit appended to each category's value (`CATEGORY_UNITS`). */
  const CategoryUnits: map<string, string> := map[
    "T1H" := "°C", "RN1" := "mm", "UUU" := "m/s", "VVV" := "m/s",
    "REH" := "%", "PTY" := "", "VEC" := "°", "WSD" := "m/s"]

  /** The eight keys `format_weather_data` may write. */
  const FieldNames: set<string> := {
    "temperature", "rainfall", "east_west_wind", "north_south_wind",
    "humidity", "precipitation_type", "wind_direction", "wind_speed"}

  /** What the tool raises while reformatting items (both are caught by `get_current_weather`). */
  datatype FormatError =
    | NotANumber(raw: string)  // ValueError from `float(obsrValue)`
    | IndexOutOfRange          // IndexError from `WIND_DIRECTIONS[convert_val]`

  /** `str(e)` of the exception. */
  function ErrorText(e: FormatError): (text: string)
    ensures e.NotANumber? ==> Contains(text, "'" + e.raw + "'")
    ensures e.IndexOutOfRange? <==> text == "list index out of range"
  {
    match e
    case NotANumber(raw) =>
      var lead := "could not convert string to float: ";
      var text := lead + "'" + raw + "'";
      assert text[|lead|..] == "'" + raw + "'";
      assert OccursAt(text, "'" + raw + "'", |lead|);
      assert text[0] == 'c' != "list index out of range"[0];
      text
    case IndexOutOfRange => "list index out of range"
  }

  // ---------------------------------------------------------------- get_wind_direction

  /** Python's `int()` on a number: truncation toward zero. */
  function Trunc(x: real): (n: int)
    ensures x >= 0.0 ==> n as real <= x < n as real + 1.0
    ensures x < 0.0 ==> n as real - 1.0 < x <= n as real
  {
    if x >= 0.0 then x.Floor else -((-x).Floor)
  }

  /** The list index `get_wind_direction` uses: the truncated sector number, reset to 0 only when it reaches 16. */
  function WindIndex(vec: real): int
  {
    var k := Trunc((vec + 22.5 * 0.5) / 22.5);
    if k >= 16 then 0 else k
  }

  /**
   * `get_wind_direction`: the compass label of a direction in degrees. A negative index
   * selects from the end of the list, as Python's list indexing does, and one below -16
   * raises IndexError.
   */
  function WindDirection(vec: real): (compass: Result<string, FormatError>)
    ensures compass.Success? <==> vec > -393.75
    ensures compass.Success? ==> compass.value in WindDirections
    ensures compass.Failure? ==> compass.error == IndexOutOfRange
  {
    var k := WindIndex(vec);
    if k >= 0 then Success(WindDirections[k])
    else if k >= -16 then Success(WindDirections[16 + k])
    else Failure(IndexOutOfRange)
  }

  /** Sector `k` covers the half-open interval [22.5k - 11.25, 22.5k + 11.25) of non-negative directions. */
  lemma WindSector(vec: real, k: int)
    requires 0 <= k < 16
    requires 0.0 <= vec
    requires 22.5 * k as real - 11.25 <= vec < 22.5 * k as real + 11.25
    ensures WindDirection(vec) == Success(WindDirections[k])
  {
    var x := (vec + 11.25) / 22.5;
    assert k as real <= x < k as real + 1.0;
    assert x.Floor == k;
  }

  /** Below 348.75 degrees the label is the one at `floor((vec + 11.25) / 22.5)`. */
  lemma WindSectorOf(vec: real)
    requires 0.0 <= vec < 348.75
    ensures var k := ((vec + 11.25) / 22.5).Floor;
      0 <= k < 16 && WindDirection(vec) == Success(WindDirections[k])
  {
    var x := (vec + 11.25) / 22.5;
    assert 0.0 <= x < 16.0;
  }

  /** From 348.75 degrees upward, 360 and beyond included, the index reaches 16 and resets to north. */
  lemma WindNorthFromLastHalfSector(vec: real)
    requires vec >= 348.75
    ensures WindDirection(vec) == Success("북(N)")
  {
    var x := (vec + 11.25) / 22.5;
    assert x >= 16.0;
  }

  /** The label is not periodic beyond 360 degrees: 380 is north while 20 is north-north-east. */
  lemma WindDirectionNotPeriodic()
    ensures WindDirection(20.0) == Success("북북동(NNE)")
    ensures WindDirection(20.0 + 360.0) == Success("북(N)")
  {
    WindSector(20.0, 1);
    WindNorthFromLastHalfSector(380.0);
  }

  /** The sector boundaries near north: 11.25 already belongs to north-north-east. */
  lemma WindBoundaries()
    ensures WindDirection(11.24) == Success("북(N)")
    ensures WindDirection(11.25) == Success("북북동(NNE)")
    ensures WindDirection(354.5) == Success("북(N)")
    ensures WindDirection(0.0) == WindDirection(360.0)
  {
    WindSector(11.24, 0);
    WindSector(11.25, 1);
    WindSector(0.0, 0);
    WindNorthFromLastHalfSector(354.5);
    WindNorthFromLastHalfSector(360.0);
  }

  /**
   * Below the documented range a negative index picks from the end of the list: -50
   * degrees gives north-north-west, whereas 310 degrees, the same bearing, gives north-west.
   */
  lemma NegativeDirectionIndexesFromEnd()
    ensures WindDirection(-50.0) == Success("북북서(NNW)")
    ensures WindDirection(310.0) == Success("북서(NW)")
    ensures WindDirection(-393.75) == Failure(IndexOutOfRange)
  {
    assert Trunc((-50.0 + 11.25) / 22.5) == -1;
    WindSector(310.0, 14);
    assert Trunc((-393.75 + 11.25) / 22.5) == -17;
  }

  // ---------------------------------------------------------------- base date and time

  /** The hour whose data is requested: the previous hour before minute 10 of the hour. */
  function BaseHour(hour: nat, minute: nat): (h: nat)
    requires hour < 24 && minute < 60
    ensures h < 24
    ensures minute >= 10 ==> h == hour
    ensures minute < 10 ==> (h + 1) % 24 == hour
  {
    if minute < 10 then (hour + 23) % 24 else hour
  }

  /** The decimal digit of a number below ten. */
  function Digit(d: nat): (c: char)
    requires d < 10
    ensures '0' <= c <= '9' && DigitValue(c) == d
  {
    ('0' as int + d) as char
  }

  /** The value of a decimal digit. */
  function DigitValue(c: char): int
  {
    c as int - '0' as int
  }

  /** `get_current_time` with the clock reading passed in: the base hour in two digits followed by "00". */
  function BaseTime(hour: nat, minute: nat): (t: string)
    requires hour < 24 && minute < 60
    ensures |t| == 4 && t[2..] == "00"
    ensures '0' <= t[0] <= '9' && '0' <= t[1] <= '9'
    ensures DigitValue(t[0]) * 10 + DigitValue(t[1]) == BaseHour(hour, minute)
  {
    var h := BaseHour(hour, minute);
    [Digit(h / 10), Digit(h % 10), '0', '0']
  }

  /** The query parameters of the nowcast request. */
  function RequestParams(serviceKey: string, nx: string, ny: string, baseDate: string, baseTime: string): (params: map<string, string>)
    ensures params.Keys == {"serviceKey", "pageNo", "numOfRows", "dataType", "base_date", "base_time", "nx", "ny"}
    ensures params["serviceKey"] == serviceKey && params["nx"] == nx && params["ny"] == ny
    ensures params["base_date"] == baseDate && params["base_time"] == baseTime
    ensures params["pageNo"] == "1" && params["numOfRows"] == "30" && params["dataType"] == "XML"
  {
    map[
      "serviceKey" := serviceKey, "pageNo" := "1", "numOfRows" := "30", "dataType" := "XML",
      "base_date" := baseDate, "base_time" := baseTime, "nx" := nx, "ny" := ny]
  }

  /**
   * The date comes from its own clock reading and is never rolled back: in the first ten
   * minutes after midnight the request pairs today's date with "2300".
   */
  lemma MidnightPairsTodayWith2300(serviceKey: string, nx: string, ny: string, today: string, minute: nat)
    requires minute < 10
    ensures var p := RequestParams(serviceKey, nx, ny, today, BaseTime(0, minute));
      p["base_date"] == today && p["base_time"] == "2300"
  {
    assert BaseHour(0, minute) == 23;
    assert BaseTime(0, minute) == ['2', '3', '0', '0'];
  }

  // ---------------------------------------------------------------- format_weather_data

  /**
   * One `<item>` of the parsed response: its `category`, its raw `obsrValue`, and what
   * `float(obsrValue)` gives (None where `float` raises ValueError).
   */
  datatype Item = Item(category: string, obsrValue: string, number: Option<real>)

  /** The key of `weather_data` each recognised category writes. */
  function FieldOf(category: string): (key: Option<string>)
    ensures key.Some? <==> category in CategoryUnits
    ensures key.Some? ==> key.value in FieldNames
  {
    if category == "T1H" then Some("temperature")
    else if category == "RN1" then Some("rainfall")
    else if category == "UUU" then Some("east_west_wind")
    else if category == "VVV" then Some("north_south_wind")
    else if category == "REH" then Some("humidity")
    else if category == "PTY" then Some("precipitation_type")
    else if category == "VEC" then Some("wind_direction")
    else if category == "WSD" then Some("wind_speed")
    else None
  }

  /** Distinct categories write distinct keys. */
  lemma FieldOfInjective(c: string, c': string)
    requires FieldOf(c).Some? && FieldOf(c) == FieldOf(c')
    ensures c == c'
  {
  }

  /** `abs` on a number. */
  function Abs(x: real): (m: real)
    ensures m >= 0.0 && (m == x || m == -x)
  {
    if x >= 0.0 then x else -x
  }

  /** A wind component: its magnitude to one decimal, its unit, and the side its sign points to. */
  function WindComponent(x: real, unit: string, positive: string, negative: string, fixed1: real -> string): string
  {
    fixed1(Abs(x)) + unit + " (" + (if x >= 0.0 then positive else negative) + ")"
  }

  /** The description of a precipitation code (`PTY_CODE.get(value, "알 수 없음")`). */
  function PtyDescription(code: string): (d: string)
    ensures d == UnknownPty <==> code !in PtyCodes
  {
    GetOr(PtyCodes, code, UnknownPty)
  }

  /**
   * The display text one recognised item writes, or what it raises. `fixed1` stands for
   * the `:.1f` rendering of a number, which this model leaves abstract.
   */
  function Display(item: Item, fixed1: real -> string): (r: Result<string, FormatError>)
    requires FieldOf(item.category).Some?
    // only the three numeric categories can raise, and only on an unparsable or far-negative value
    ensures r.Failure? <==>
      (item.category in {"UUU", "VVV", "VEC"} && item.number.None?) ||
      (item.category == "VEC" && item.number.Some? && item.number.value <= -393.75)
  {
    var c := item.category;
    var v := item.obsrValue;
    if c == "UUU" || c == "VVV" then
      match item.number
      case None => Failure(NotANumber(v))
      case Some(x) =>
        if c == "UUU" then Success(WindComponent(x, CategoryUnits[c], "동", "서", fixed1))
        else Success(WindComponent(x, CategoryUnits[c], "북", "남", fixed1))
    else if c == "PTY" then
      Success(PtyDescription(v) + " (코드: " + v + ")")
    else if c == "VEC" then
      match item.number
      case None => Failure(NotANumber(v))
      case Some(x) =>
        match WindDirection(x)
        case Failure(e) => Failure(e)
        case Success(point) => Success(v + CategoryUnits[c] + " (" + point + ")")
    else
      // T1H, RN1, REH and WSD: the raw value followed by its unit
      Success(v + CategoryUnits[c])
  }

  /**
   * A wind component renders its absolute value and a side chosen by the sign alone;
   * zero counts as east (for UUU) and as north (for VVV).
   */
  lemma WindComponentSides(x: real, raw: string, raw': string, fixed1: real -> string)
    requires x >= 0.0
    ensures Display(Item("UUU", raw, Some(x)), fixed1) == Success(fixed1(x) + "m/s" + " (" + "동" + ")")
    ensures Display(Item("VVV", raw, Some(x)), fixed1) == Success(fixed1(x) + "m/s" + " (" + "북" + ")")
    ensures x > 0.0 ==> Display(Item("UUU", raw', Some(-x)), fixed1) == Success(fixed1(x) + "m/s" + " (" + "서" + ")")
    ensures x > 0.0 ==> Display(Item("VVV", raw', Some(-x)), fixed1) == Success(fixed1(x) + "m/s" + " (" + "남" + ")")
  {
    assert Abs(x) == x && Abs(-x) == x;
  }

  /**
   * A precipitation item never raises and always echoes its raw code; codes outside
   * "0" to "7" are described as unknown.
   */
  lemma PtyEchoesCode(code: string, n: Option<real>, fixed1: real -> string)
    ensures Display(Item("PTY", code, n), fixed1).Success?
    ensures Contains(Display(Item("PTY", code, n), fixed1).value, " (코드: " + code + ")")
    ensures code !in {"0", "1", "2", "3", "4", "5", "6", "7"} ==>
      Display(Item("PTY", code, n), fixed1).value == UnknownPty + " (코드: " + code + ")"
    ensures code in {"0", "1", "2", "3", "4", "5", "6", "7"} ==>
      Display(Item("PTY", code, n), fixed1).value == PtyCodes[code] + " (코드: " + code + ")"
  {
    var suffix := " (코드: " + code + ")";
    var text := PtyDescription(code) + suffix;
    assert Display(Item("PTY", code, n), fixed1).value == text;
    assert text[|PtyDescription(code)|..|PtyDescription(code)| + |suffix|] == suffix;
    assert OccursAt(text, suffix, |PtyDescription(code)|);
  }

  /** A direction item renders its raw value, the degree sign and the label of its sector. */
  lemma VecRendering(raw: string, vec: real, k: int, fixed1: real -> string)
    requires 0 <= k < 16 && 0.0 <= vec
    requires 22.5 * k as real - 11.25 <= vec < 22.5 * k as real + 11.25
    ensures Display(Item("VEC", raw, Some(vec)), fixed1) == Success(raw + "°" + " (" + WindDirections[k] + ")")
  {
    WindSector(vec, k);
  }

  /** Whatever the bearing, a direction item that does not raise renders its raw value, the degree sign and its label. */
  lemma VecRenderingAny(raw: string, vec: real, fixed1: real -> string)
    requires WindDirection(vec).Success?
    ensures Display(Item("VEC", raw, Some(vec)), fixed1) == Success(raw + "°" + " (" + WindDirection(vec).value + ")")
  {
  }

  /** Applying one item to the dictionary: the body of the loop in `format_weather_data`. */
  function Step(wd: map<string, string>, item: Item, fixed1: real -> string): (r: Result<map<string, string>, FormatError>)
    ensures r.Failure? <==> Raises(item, fixed1)
    ensures r.Failure? ==> r.error == Display(item, fixed1).error
    ensures r.Success? && FieldOf(item.category).None? ==> r.value == wd
    ensures r.Success? && FieldOf(item.category).Some? ==>
      var key := FieldOf(item.category).value;
      && r.value.Keys == wd.Keys + {key}
      && r.value[key] == Display(item, fixed1).value
      && forall k :: k in wd && k != key ==> r.value[k] == wd[k]
  {
    match FieldOf(item.category)
    case None => Success(wd)
    case Some(key) =>
      match Display(item, fixed1)
      case Failure(e) => Failure(e)
      case Success(text) => Success(wd[key := text])
  }

  /** `format_weather_data` as a fold over the items, stopping at the first item that raises. */
  function Formatted(items: seq<Item>, fixed1: real -> string): (r: Result<map<string, string>, FormatError>)
    ensures r.Success? ==> r.value.Keys <= FieldNames
    ensures items == [] ==> r == Success(map[])
  {
    if items == [] then Success(map[])
    else
      match Formatted(items[..|items| - 1], fixed1)
      case Failure(e) => Failure(e)
      case Success(wd) => Step(wd, items[|items| - 1], fixed1)
  }

  /** The item raises when it is reformatted. */
  predicate Raises(item: Item, fixed1: real -> string)
  {
    FieldOf(item.category).Some? && Display(item, fixed1).Failure?
  }

  /** Once a prefix has raised, the whole list raises with the same error. */
  lemma {:induction false} FailureIsFinal(items: seq<Item>, i: nat, fixed1: real -> string)
    requires i <= |items|
    requires Formatted(items[..i], fixed1).Failure?
    ensures Formatted(items, fixed1) == Formatted(items[..i], fixed1)
    decreases |items| - i
  {
    if i < |items| {
      assert items[..i + 1][..i] == items[..i];
      FailureIsFinal(items, i + 1, fixed1);
    } else {
      assert items[..i] == items;
    }
  }

  /**
   * The fold fails exactly when some item raises, and then with the error of the first
   * such item.
   */
  lemma {:induction false} FormattedFailure(items: seq<Item>, fixed1: real -> string)
    ensures Formatted(items, fixed1).Failure? <==> exists j :: 0 <= j < |items| && Raises(items[j], fixed1)
    ensures Formatted(items, fixed1).Failure? ==>
      exists j :: 0 <= j < |items| && Raises(items[j], fixed1)
        && (forall j' :: 0 <= j' < j ==> !Raises(items[j'], fixed1))
        && Formatted(items, fixed1).error == Display(items[j], fixed1).error
  {
    if items != [] {
      var n := |items| - 1;
      var prefix := items[..n];
      FormattedFailure(prefix, fixed1);
      assert forall j :: 0 <= j < n ==> prefix[j] == items[j];
      if Formatted(prefix, fixed1).Failure? {
        var j :| 0 <= j < |prefix| && Raises(prefix[j], fixed1)
          && (forall j' :: 0 <= j' < j ==> !Raises(prefix[j'], fixed1))
          && Formatted(prefix, fixed1).error == Display(prefix[j], fixed1).error;
        assert Raises(items[j], fixed1);
      } else {
        assert forall j :: 0 <= j < n ==> !Raises(items[j], fixed1);
        if Raises(items[n], fixed1) {
          assert Formatted(items, fixed1).Failure?;
        }
      }
    }
  }

  /** Some item's category writes `key`. */
  predicate Writes(items: seq<Item>, key: string)
  {
    exists j :: 0 <= j < |items| && FieldOf(items[j].category) == Some(key)
  }

  /** Item `j` is the last item whose category writes `key`. */
  predicate LastWriter(items: seq<Item>, key: string, j: int)
  {
    && 0 <= j < |items|
    && FieldOf(items[j].category) == Some(key)
    && forall j' :: j < j' < |items| ==> FieldOf(items[j'].category) != Some(key)
  }

  /** One step changes `key` only when the item's category writes it. */
  lemma StepField(wd: map<string, string>, item: Item, fixed1: real -> string, key: string)
    requires Step(wd, item, fixed1).Success?
    ensures FieldOf(item.category) == Some(key) ==>
      key in Step(wd, item, fixed1).value && Success(Step(wd, item, fixed1).value[key]) == Display(item, fixed1)
    ensures FieldOf(item.category) != Some(key) ==>
      (key in Step(wd, item, fixed1).value <==> key in wd) &&
      (key in wd ==> Step(wd, item, fixed1).value[key] == wd[key])
  {
  }

  /** Appending an item adds its own key to those written. */
  lemma WritesSnoc(prefix: seq<Item>, last: Item, key: string)
    ensures Writes(prefix + [last], key) <==> Writes(prefix, key) || FieldOf(last.category) == Some(key)
  {
    var items := prefix + [last];
    if Writes(items, key) && FieldOf(last.category) != Some(key) {
      var j :| 0 <= j < |items| && FieldOf(items[j].category) == Some(key);
      assert items[j] == prefix[j];
    }
    if Writes(prefix, key) {
      var j :| 0 <= j < |prefix| && FieldOf(prefix[j].category) == Some(key);
      assert items[j] == prefix[j];
    }
    if FieldOf(last.category) == Some(key) {
      assert items[|prefix|] == last;
    }
  }

  /** Appending an item of another category keeps the last writer of `key`; one of its category becomes it. */
  lemma LastWriterSnoc(prefix: seq<Item>, last: Item, key: string, j: int)
    ensures FieldOf(last.category) == Some(key) ==> LastWriter(prefix + [last], key, |prefix|)
    ensures FieldOf(last.category) != Some(key) && LastWriter(prefix, key, j) ==> LastWriter(prefix + [last], key, j)
  {
    var items := prefix + [last];
    assert items[|prefix|] == last;
    if 0 <= j < |prefix| {
      assert items[j] == prefix[j];
      assert forall j' :: j < j' < |prefix| ==> items[j'] == prefix[j'];
    }
  }

  /**
   * In a successful fold a key is present exactly when some item of its category occurs,
   * and its value is the display text of the LAST such item.
   */
  lemma {:induction false} FormattedField(items: seq<Item>, fixed1: real -> string, key: string)
    requires Formatted(items, fixed1).Success?
    ensures key in Formatted(items, fixed1).value <==> Writes(items, key)
    ensures key in Formatted(items, fixed1).value ==>
      exists j :: LastWriter(items, key, j) && Display(items[j], fixed1) == Success(Formatted(items, fixed1).value[key])
  {
    if items != [] {
      var n := |items| - 1;
      var prefix, last := items[..n], items[n];
      assert items == prefix + [last];
      var wd0 := Formatted(prefix, fixed1).value;
      var wd := Step(wd0, last, fixed1).value;
      assert Formatted(items, fixed1) == Step(wd0, last, fixed1);
      FormattedField(prefix, fixed1, key);
      StepField(wd0, last, fixed1, key);
      WritesSnoc(prefix, last, key);
      if FieldOf(last.category) == Some(key) {
        LastWriterSnoc(prefix, last, key, n);
      } else if key in wd {
        var j :| LastWriter(prefix, key, j) && Display(prefix[j], fixed1) == Success(wd0[key]);
        LastWriterSnoc(prefix, last, key, j);
        assert items[j] == prefix[j];
      }
    }
  }

  /** A successful fold writes only the eight keys, and each exactly as the last item of its category says. */
  lemma FormattedLastWins(items: seq<Item>, fixed1: real -> string)
    requires Formatted(items, fixed1).Success?
    ensures Formatted(items, fixed1).value.Keys <= FieldNames
    ensures forall key :: key in Formatted(items, fixed1).value <==> Writes(items, key)
    ensures forall key :: key in Formatted(items, fixed1).value ==>
      exists j :: LastWriter(items, key, j) && Display(items[j], fixed1) == Success(Formatted(items, fixed1).value[key])
  {
    forall key
      ensures key in Formatted(items, fixed1).value <==> Writes(items, key)
      ensures key in Formatted(items, fixed1).value ==>
        exists j :: LastWriter(items, key, j) && Display(items[j], fixed1) == Success(Formatted(items, fixed1).value[key])
    {
      FormattedField(items, fixed1, key);
    }
  }

  /** `format_weather_data`: fills the dictionary item by item; an item that raises ends the loop. */
  method FormatWeatherData(items: seq<Item>, fixed1: real -> string) returns (r: Result<map<string, string>, FormatError>)
    ensures r == Formatted(items, fixed1)
  {
    var weatherData: map<string, string> := map[];
    var i := 0;
    while i < |items|
      invariant 0 <= i <= |items|
      invariant Formatted(items[..i], fixed1) == Success(weatherData)
    {
      var item := items[i];
      assert items[..i + 1][..i] == items[..i];
      match FieldOf(item.category) {
        case None =>
        case Some(key) =>
          var shown := Display(item, fixed1);
          if shown.Failure? {
            FailureIsFinal(items, i + 1, fixed1);
            return Failure(shown.error);
          }
          weatherData := weatherData[key := shown.value];
      }
      i := i + 1;
    }
    assert items[..i] == items;
    r := Success(weatherData);
  }

  // ---------------------------------------------------------------- get_current_weather

  /** The header of the parsed response (`response.header`). */
  datatype Header = Header(resultCode: string, resultMsg: string)

  /** `response.body.items.item`: the item list, or the text of the KeyError or TypeError a missing level raises. */
  datatype Body = Items(items: seq<Item>) | Unreadable(detail: string)

  /** The `response` element of the parsed XML. */
  datatype ApiResponse = ApiResponse(header: Header, body: Body)

  /**
   * What `make_api_request` returns: `{"error": ...}` after any exception, or the parsed
   * document, whose `response` element may be absent.
   */
  datatype Fetched = ErrorDict(message: string) | Document(response: Option<ApiResponse>)

  const NoServiceKey := "서비스 키가 설정되지 않았습니다. 환경 변수를 확인해주세요."
  const Unavailable := "날씨 정보를 가져올 수 없습니다."
  const NoData := "해당 지역의 날씨 정보가 없습니다."
  const ProcessingFailed := "날씨 정보 처리 중 오류가 발생했습니다: "

  /** The message for a result code other than "00". */
  function ApiError(resultMsg: string, resultCode: string): (msg: string)
    ensures Contains(msg, resultMsg) && Contains(msg, resultCode)
  {
    var lead := "API 오류: ";
    var middle := " (코드: ";
    var msg := lead + resultMsg + middle + resultCode + ")";
    assert msg[|lead|..|lead| + |resultMsg|] == resultMsg;
    assert OccursAt(msg, resultMsg, |lead|);
    var at := |lead| + |resultMsg| + |middle|;
    assert msg[at..at + |resultCode|] == resultCode;
    assert OccursAt(msg, resultCode, at);
    msg
  }

  /** The line-break and indentation that open every line after the first in the report template. */
  const Indent := "\n        "

  /** The labels and keys of the report's lines, in the order they are printed. */
  const ReportFields: seq<(string, string)> := [
    ("기온", "temperature"), ("습도", "humidity"), ("강수형태", "precipitation_type"),
    ("1시간 강수량", "rainfall"),
    ("풍향", "wind_direction"), ("풍속", "wind_speed"), ("동서바람성분", "east_west_wind"),
    ("남북바람성분", "north_south_wind")]

  /** `weather_data.get(key, 'N/A')`. */
  function Shown(wd: map<string, string>, key: string): string
  {
    GetOr(wd, key, "N/A")
  }

  /** One line of the report. */
  function FieldLine(name: string, value: string): string
  {
    Indent + "- " + name + ": " + value
  }

  /** The lines of a section of the report. */
  function FieldLines(wd: map<string, string>, fields: seq<(string, string)>): (lines: seq<string>)
    ensures |lines| == |fields|
    ensures forall i :: 0 <= i < |fields| ==> lines[i] == FieldLine(fields[i].0, Shown(wd, fields[i].1))
  {
    if fields == [] then []
    else [FieldLine(fields[0].0, Shown(wd, fields[0].1))] + FieldLines(wd, fields[1..])
  }

  /** The pieces of the report template, in order. */
  function ReportParts(nx: string, ny: string, baseDate: string, baseTime: string, wd: map<string, string>): (parts: seq<string>)
    ensures |parts| == 14
    ensures parts[0] == "# 현재 날씨 정보" && parts[13] == Indent
    ensures parts[1] == Indent + "- 위치: 격자좌표 (X:" + nx + ", Y:" + ny + ")"
    ensures parts[2] == Indent + "- 기준 시간: " + baseDate + " " + baseTime
    ensures parts[3] == "\n" + Indent + "## 기상 상태" && parts[8] == "\n" + Indent + "## 바람 정보"
    ensures forall i :: 0 <= i < 4 ==> parts[4 + i] == FieldLine(ReportFields[i].0, Shown(wd, ReportFields[i].1))
    ensures forall i :: 4 <= i < 8 ==> parts[5 + i] == FieldLine(ReportFields[i].0, Shown(wd, ReportFields[i].1))
  {
    ["# 현재 날씨 정보",
     Indent + "- 위치: 격자좌표 (X:" + nx + ", Y:" + ny + ")",
     Indent + "- 기준 시간: " + baseDate + " " + baseTime,
     "\n" + Indent + "## 기상 상태"]
    + FieldLines(wd, ReportFields[..4])
    + ["\n" + Indent + "## 바람 정보"]
    + FieldLines(wd, ReportFields[4..])
    + [Indent]
  }

  /** The report text of a successful request. */
  function ReportText(nx: string, ny: string, baseDate: string, baseTime: string, wd: map<string, string>): (text: string)
    ensures |text| >= |"# 현재 날씨 정보"| && text[..|"# 현재 날씨 정보"|] == "# 현재 날씨 정보"
    ensures Contains(text, Indent + "- 위치: 격자좌표 (X:" + nx + ", Y:" + ny + ")")
  {
    var parts := ReportParts(nx, ny, baseDate, baseTime, wd);
    ConcatContains(parts, 1);
    Concat(parts)
  }

  /** The report lists exactly the eight fields `format_weather_data` may write. */
  lemma ReportFieldsAreFieldNames()
    ensures |ReportFields| == 8
    ensures forall key :: key in FieldNames <==> exists i :: 0 <= i < |ReportFields| && ReportFields[i].1 == key
  {
    forall key | key in FieldNames
      ensures exists i :: 0 <= i < |ReportFields| && ReportFields[i].1 == key
    {
      if key == "temperature" { assert ReportFields[0].1 == key; }
      else if key == "humidity" { assert ReportFields[1].1 == key; }
      else if key == "precipitation_type" { assert ReportFields[2].1 == key; }
      else if key == "rainfall" { assert ReportFields[3].1 == key; }
      else if key == "wind_direction" { assert ReportFields[4].1 == key; }
      else if key == "wind_speed" { assert ReportFields[5].1 == key; }
      else if key == "east_west_wind" { assert ReportFields[6].1 == key; }
      else { assert ReportFields[7].1 == key; }
    }
  }

  /**
   * The report shows a line for every one of the eight fields, with the field's text when
   * present and "N/A" when absent, and it names the grid point and the base date and time.
   */
  lemma {:induction false} ReportShowsEveryField(nx: string, ny: string, baseDate: string, baseTime: string,
                                                 wd: map<string, string>, i: nat)
    requires i < |ReportFields|
    ensures Contains(ReportText(nx, ny, baseDate, baseTime, wd), FieldLine(ReportFields[i].0, Shown(wd, ReportFields[i].1)))
    ensures ReportFields[i].1 !in wd ==>
      Contains(ReportText(nx, ny, baseDate, baseTime, wd), FieldLine(ReportFields[i].0, "N/A"))
    ensures Contains(ReportText(nx, ny, baseDate, baseTime, wd), Indent + "- 기준 시간: " + baseDate + " " + baseTime)
  {
    var parts := ReportParts(nx, ny, baseDate, baseTime, wd);
    var first := FieldLines(wd, ReportFields[..4]);
    var second := FieldLines(wd, ReportFields[4..]);
    assert |first| == 4 && |second| == 4;
    if i < 4 {
      assert parts[4 + i] == first[i];
      assert ReportFields[..4][i] == ReportFields[i];
      ConcatContains(parts, 4 + i);
    } else {
      assert parts[5 + i] == second[i - 4];
      assert ReportFields[4..][i - 4] == ReportFields[i];
      ConcatContains(parts, 5 + i);
    }
    ConcatContains(parts, 2);
  }

  /**
   * `get_current_weather` with the clock readings and the request passed in: `today` is
   * the date reading, `hour` and `minute` the time reading, and `fetch` maps the request
   * parameters to what `make_api_request` returns.
   */
  function CurrentWeather(serviceKey: string, nx: string, ny: string, today: string, hour: nat, minute: nat,
                          fetch: map<string, string> -> Fetched, fixed1: real -> string): (report: string)
    requires hour < 24 && minute < 60
    // the checks, in the order the source makes them
    ensures serviceKey == "" ==> report == NoServiceKey
    ensures serviceKey != "" ==>
      var fetched := fetch(RequestParams(serviceKey, nx, ny, today, BaseTime(hour, minute)));
      && (fetched.ErrorDict? || fetched.response.None? ==> report == Unavailable)
      && (fetched.Document? && fetched.response.Some? && fetched.response.value.header.resultCode != "00" ==>
            report == ApiError(fetched.response.value.header.resultMsg, fetched.response.value.header.resultCode))
      && (fetched.Document? && fetched.response.Some? && fetched.response.value.header.resultCode == "00" ==>
            match fetched.response.value.body
            case Unreadable(detail) => report == ProcessingFailed + detail
            case Items(items) =>
              if items == [] then report == NoData
              else match Formatted(items, fixed1)
                case Failure(e) => report == ProcessingFailed + ErrorText(e)
                case Success(wd) => report == ReportText(nx, ny, today, BaseTime(hour, minute), wd))
  {
    if serviceKey == "" then NoServiceKey
    else
      var baseTime := BaseTime(hour, minute);
      match fetch(RequestParams(serviceKey, nx, ny, today, baseTime))
      case ErrorDict(_) => Unavailable
      case Document(None) => Unavailable
      case Document(Some(response)) =>
        if response.header.resultCode != "00" then
          ApiError(response.header.resultMsg, response.header.resultCode)
        else
          match response.body
          case Unreadable(detail) => ProcessingFailed + detail
          case Items(items) =>
            if items == [] then NoData
            else
              match Formatted(items, fixed1)
              case Failure(e) => ProcessingFailed + ErrorText(e)
              case Success(wd) => ReportText(nx, ny, today, baseTime, wd)
  }

  /**
   * A successful report shows every one of the eight fields, "N/A" for each category the
   * response did not carry.
   */
  lemma CurrentWeatherShowsAbsentAsNA(serviceKey: string, nx: string, ny: string, today: string, hour: nat, minute: nat,
                                      fetch: map<string, string> -> Fetched, fixed1: real -> string,
                                      msg: string, items: seq<Item>, i: nat)
    requires hour < 24 && minute < 60 && serviceKey != "" && items != [] && i < |ReportFields|
    requires fetch(RequestParams(serviceKey, nx, ny, today, BaseTime(hour, minute)))
      == Document(Some(ApiResponse(Header("00", msg), Items(items))))
    requires forall j :: 0 <= j < |items| ==> !Raises(items[j], fixed1)
    requires forall j :: 0 <= j < |items| ==> FieldOf(items[j].category) != Some(ReportFields[i].1)
    ensures Contains(CurrentWeather(serviceKey, nx, ny, today, hour, minute, fetch, fixed1), FieldLine(ReportFields[i].0, "N/A"))
  {
    FormattedFailure(items, fixed1);
    FormattedLastWins(items, fixed1);
    var wd := Formatted(items, fixed1).value;
    assert ReportFields[i].1 !in wd;
    ReportShowsEveryField(nx, ny, today, BaseTime(hour, minute), wd, i);
  }
}
