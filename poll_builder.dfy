/** poll_options (bot.py:76-85): one option per hour from 7 to 11, built
    from that hour's get_weather outcome, followed by three fixed options. */
module PollBuilder {
  import opened PyValue
  import opened Weather

  /** `range(7, 12)`. */
  const FirstHour := 7
  const HourCount := 5

  /** The options appended after the hour slots, in this order. */
  const Trailing: seq<string> :=
    ["+1 (Coming with someone) \U{1F46B}", "Beer only \U{1F37A}", "Pass \U{274C}"]

  const OptionCount := HourCount + 3

  /** The pieces of the option format, between the placeholders. The
      thermometer is U+1F321 followed by the emoji selector U+FE0F. */
  const HourSuffix := ":00AM"
  const Thermometer := " \U{1F321}\U{FE0F} "
  const Degrees := "\U{B0}C \U{2614} "
  const Percent := "%"

  /** `f"{hour}:00AM"`. */
  function HourText(hour: int): string
  {
    IntText(hour) + HourSuffix
  }

  /** What follows the temperature: `f"°C ☔ {rain}%"`. */
  function RainText(rain: Json): string
  {
    Degrees + (Str(rain) + Percent)
  }

  /** What follows the hour's digits: `:00AM`, then, when the temperature
      is known, `f" 🌡️ {temp}°C ☔ {rain}%"`. */
  function AfterHour(temp: Option<int>, rain: Json): string
  {
    if temp.None? then HourSuffix
    else HourSuffix + (Thermometer + (IntText(temp.value) + RainText(rain)))
  }

  /** The option for one hour: the bare `f"{hour}:00AM"` when `temp` is
      None, otherwise `f"{hour}:00AM 🌡️ {temp}°C ☔ {rain}%"`. */
  function Label(hour: int, temp: Option<int>, rain: Json): string
  {
    IntText(hour) + AfterHour(temp, rain)
  }

  /** A way of writing the option of an hour from its outcome. */
  type Format = (int, Option<int>, Json) -> string

  /** The options for consecutive hours starting at `hour`, one per
      outcome, each written by `format`; the first outcome that raised
      stops the loop and its exception escapes. */
  function Labels(slots: seq<Outcome>, hour: int, format: Format): Result<seq<string>, PyException>
    decreases |slots|
  {
    if slots == [] then Ok([])
    else match slots[0]
      case Raised(e) => Err(e)
      case Returned(temp, rain) =>
        var rest :- Labels(slots[1..], hour + 1, format);
        Ok([format(hour, temp, rain)] + rest)
  }

  /** What poll_options returns, or the exception it lets escape, given the
      outcomes of get_weather(7) .. get_weather(11) in call order. */
  function BuildOptions(slots: seq<Outcome>): Result<seq<string>, PyException>
  {
    var labels :- Labels(slots, FirstHour, Label);
    Ok(labels + Trailing)
  }

  /** The loop of poll_options: `slots[i]` is what get_weather(7 + i)
      produced on its call. */
  method PollOptions(slots: seq<Outcome>) returns (r: Result<seq<string>, PyException>)
    requires |slots| == HourCount
    ensures r == BuildOptions(slots)
  {
    var options: seq<string> := [];
    var hour := FirstHour;
    while hour < FirstHour + HourCount
      invariant FirstHour <= hour <= FirstHour + HourCount
      invariant Labels(slots[..hour - FirstHour], FirstHour, Label) == Ok(options)
    {
      var done := slots[..hour - FirstHour];
      assert slots[..hour - FirstHour + 1] == done + [slots[hour - FirstHour]];
      LabelsExtend(done, FirstHour, Label, slots[hour - FirstHour], hour);
      match slots[hour - FirstHour]
      case Raised(e) =>
        LabelsPrefix(slots, FirstHour, Label, hour - FirstHour + 1);
        return Err(e);
      case Returned(temp, rain) =>
        if temp.None? {
          assert Label(hour, temp, rain) == IntText(hour) + HourSuffix;
          options := options + [HourText(hour)];
        } else {
          options := options + [Label(hour, temp, rain)];
        }
      hour := hour + 1;
    }
    assert slots[..HourCount] == slots;
    r := Ok(options + Trailing);
  }

  // ---------------------------------------------------------------------
  // Properties

  /** The labels succeed exactly when every outcome returned, and then the
      i-th label is the label of hour `hour + i` and its outcome. */
  lemma {:induction false} LabelsAt(slots: seq<Outcome>, hour: int, format: Format)
    ensures Labels(slots, hour, format).Ok? <==> forall i :: 0 <= i < |slots| ==> slots[i].Returned?
    ensures Labels(slots, hour, format).Ok? ==>
      |Labels(slots, hour, format).value| == |slots| &&
      forall i :: 0 <= i < |slots| ==>
        Labels(slots, hour, format).value[i] == format(hour + i, slots[i].temp, slots[i].rain)
    decreases |slots|
  {
    if slots != [] {
      LabelsAt(slots[1..], hour + 1, format);
      assert forall i :: 1 <= i < |slots| ==> slots[i] == slots[1..][i - 1];
    }
  }

  /** When outcome `k` is the first that raised, its exception is the one
      that escapes. */
  lemma {:induction false} LabelsFirstError(slots: seq<Outcome>, hour: int, format: Format, k: int)
    requires 0 <= k < |slots| && slots[k].Raised?
    requires forall j :: 0 <= j < k ==> slots[j].Returned?
    ensures Labels(slots, hour, format) == Err(slots[k].error)
    decreases k
  {
    if k > 0 {
      LabelsFirstError(slots[1..], hour + 1, format, k - 1);
    }
  }

  /** One more outcome either stops the loop with its exception or adds
      the option of the next hour. */
  lemma {:induction false} LabelsExtend(done: seq<Outcome>, hour: int, format: Format, o: Outcome, next: int)
    requires next == hour + |done|
    ensures Labels(done + [o], hour, format) ==
      match Labels(done, hour, format)
      case Err(e) => Err(e)
      case Ok(labels) =>
        if o.Raised? then Err(o.error)
        else Ok(labels + [format(next, o.temp, o.rain)])
    decreases |done|
  {
    if done != [] {
      assert (done + [o])[0] == done[0];
      assert (done + [o])[1..] == done[1..] + [o];
      LabelsExtend(done[1..], hour + 1, format, o, next);
      if done[0].Returned? && Labels(done[1..], hour + 1, format).Ok? && o.Returned? {
        var rest := Labels(done[1..], hour + 1, format).value;
        var first := format(hour, done[0].temp, done[0].rain);
        assert [first] + (rest + [format(next, o.temp, o.rain)]) ==
               ([first] + rest) + [format(next, o.temp, o.rain)];
      }
    } else {
      assert [o][1..] == [];
      if o.Returned? {
        assert [format(hour, o.temp, o.rain)] + [] == [] + [format(hour, o.temp, o.rain)];
      }
    }
  }

  /** A raised outcome among the first `k` stops the whole loop: the
      labels of all outcomes fail as those of the first `k` do. */
  lemma {:induction false} LabelsPrefix(slots: seq<Outcome>, hour: int, format: Format, k: nat)
    requires k <= |slots|
    requires Labels(slots[..k], hour, format).Err?
    ensures Labels(slots, hour, format) == Labels(slots[..k], hour, format)
    decreases k
  {
    assert k > 0;
    if slots[0].Returned? {
      assert slots[..k][1..] == slots[1..][..k - 1];
      LabelsPrefix(slots[1..], hour + 1, format, k - 1);
    }
  }

  /** poll_options yields exactly eight options: the five hours in
      ascending order, each labelled from its own outcome, then the three
      fixed options in their fixed order. It yields them exactly when no
      get_weather call raised; otherwise the first exception escapes. */
  lemma OptionsShape(slots: seq<Outcome>)
    requires |slots| == HourCount
    ensures BuildOptions(slots).Ok? <==> forall i :: 0 <= i < HourCount ==> slots[i].Returned?
    ensures BuildOptions(slots).Ok? ==>
      var options := BuildOptions(slots).value;
      |options| == OptionCount &&
      (forall i :: 0 <= i < HourCount ==>
         options[i] == Label(FirstHour + i, slots[i].temp, slots[i].rain)) &&
      options[HourCount..] == Trailing
    ensures BuildOptions(slots).Err? ==>
      exists k :: 0 <= k < HourCount && slots[k].Raised? &&
        BuildOptions(slots).error == slots[k].error &&
        forall j :: 0 <= j < k ==> slots[j].Returned?
  {
    LabelsAt(slots, FirstHour, Label);
    if BuildOptions(slots).Err? {
      var k := 0;
      while slots[k].Returned?
        invariant 0 <= k < HourCount
        invariant forall j :: 0 <= j < k ==> slots[j].Returned?
        invariant exists m :: k <= m < HourCount && slots[m].Raised?
        decreases HourCount - k
      {
        k := k + 1;
      }
      LabelsFirstError(slots, FirstHour, Label, k);
    } else {
      var labels := Labels(slots, FirstHour, Label).value;
      assert BuildOptions(slots).value == labels + Trailing;
    }
  }

  /** The bare options of the five hours. */
  lemma BareHours()
    ensures Label(7, None, JNull) == "7:00AM" && Label(8, None, JNull) == "8:00AM"
    ensures Label(9, None, JNull) == "9:00AM" && Label(10, None, JNull) == "10:00AM"
    ensures Label(11, None, JNull) == "11:00AM"
  {
  }

  /** Even when every hour failed, the poll still gets all eight options:
      five bare hours and the three fixed options. */
  lemma AllHoursFailed()
    ensures BuildOptions([NoReading, NoReading, NoReading, NoReading, NoReading]) ==
      Ok(["7:00AM", "8:00AM", "9:00AM", "10:00AM", "11:00AM"] + Trailing)
  {
    var slots := [NoReading, NoReading, NoReading, NoReading, NoReading];
    OptionsShape(slots);
    var options := BuildOptions(slots).value;
    BareHours();
    assert options[0] == "7:00AM" && options[1] == "8:00AM" && options[2] == "9:00AM";
    assert options[3] == "10:00AM" && options[4] == "11:00AM";
    assert options == ["7:00AM", "8:00AM", "9:00AM", "10:00AM", "11:00AM"] + Trailing;
  }

  /** A label is the bare hour exactly when the temperature is None,
      whatever the rain. */
  lemma BareLabelIffNoTemperature(hour: int, temp: Option<int>, rain: Json)
    ensures Label(hour, temp, rain) == HourText(hour) <==> temp.None?
  {
    if temp.Some? {
      assert |Label(hour, temp, rain)| > |HourText(hour)|;
    }
  }

  /** The decimal text of an int holds no character other than digits and
      a minus sign. */
  lemma NumeralLacks(n: int, c: char)
    requires !IsDigit(c) && c != '-'
    ensures forall i :: 0 <= i < |IntText(n)| ==> IntText(n)[i] != c
  {
    IntTextRoundTrip(n);
  }

  /** `a + x == a + y` only when `x == y`. */
  lemma SamePrefix(a: string, x: string, y: string)
    requires a + x == a + y
    ensures x == y
  {
    assert x == (a + x)[|a|..];
    assert y == (a + y)[|a|..];
  }

  /** Position of the first `c` in `s`, or `|s|` when there is none. */
  function FirstIndexOf(s: string, c: char): (k: nat)
    ensures k <= |s|
  {
    if s == [] || s[0] == c then 0 else 1 + FirstIndexOf(s[1..], c)
  }

  /** When `a` holds no `c` and `b` starts with one, the first `c` of
      `a + b` is where `b` starts. */
  lemma {:induction false} SeparatorPosition(a: string, b: string, c: char)
    requires forall i :: 0 <= i < |a| ==> a[i] != c
    requires |b| > 0 && b[0] == c
    ensures FirstIndexOf(a + b, c) == |a|
    decreases |a|
  {
    if a != [] {
      assert (a + b)[1..] == a[1..] + b;
      SeparatorPosition(a[1..], b, c);
    }
  }

  /** If `a1 + b1 == a2 + b2`, neither `a` holds the character `c` and
      both `b` start with it, the two splits are the same. */
  lemma SplitAtSeparator(a1: string, b1: string, a2: string, b2: string, c: char)
    requires forall i :: 0 <= i < |a1| ==> a1[i] != c
    requires forall i :: 0 <= i < |a2| ==> a2[i] != c
    requires |b1| > 0 && b1[0] == c && |b2| > 0 && b2[0] == c
    requires a1 + b1 == a2 + b2
    ensures a1 == a2 && b1 == b2
  {
    SeparatorPosition(a1, b1, c);
    SeparatorPosition(a2, b2, c);
    assert a1 == (a1 + b1)[..|a1|];
    assert b1 == (a1 + b1)[|a1|..];
  }

  /** An option names its hour and its temperature: equal labels come from
      the same hour and carry the same temperature, or both have none. */
  lemma LabelDeterminesHourAndTemperature(h1: int, t1: Option<int>, r1: Json,
                                          h2: int, t2: Option<int>, r2: Json)
    requires Label(h1, t1, r1) == Label(h2, t2, r2)
    ensures h1 == h2 && t1 == t2
  {
    NumeralLacks(h1, ':');
    NumeralLacks(h2, ':');
    SplitAtSeparator(IntText(h1), AfterHour(t1, r1), IntText(h2), AfterHour(t2, r2), ':');
    IntTextInjective(h1, h2);
    if t1.Some? && t2.Some? {
      NumeralLacks(t1.value, '\U{B0}');
      NumeralLacks(t2.value, '\U{B0}');
      var rest1 := IntText(t1.value) + RainText(r1);
      var rest2 := IntText(t2.value) + RainText(r2);
      SamePrefix(HourSuffix, Thermometer + rest1, Thermometer + rest2);
      SamePrefix(Thermometer, rest1, rest2);
      SplitAtSeparator(IntText(t1.value), RainText(r1), IntText(t2.value), RainText(r2), '\U{B0}');
      IntTextInjective(t1.value, t2.value);
    }
  }

  /** The labels of the five-reading scenario below, one hour each. */
  lemma Scenario7()
    ensures Label(7, Some(14), JNum(0)) == "7:00AM \U{1F321}\U{FE0F} 14\U{B0}C \U{2614} 0%"
  {
  }

  lemma Scenario8()
    ensures Label(8, Some(15), JNum(0)) == "8:00AM \U{1F321}\U{FE0F} 15\U{B0}C \U{2614} 0%"
  {
  }

  lemma Scenario9()
    ensures Label(9, Some(16), JNum(10)) == "9:00AM \U{1F321}\U{FE0F} 16\U{B0}C \U{2614} 10%"
  {
  }

  lemma Scenario10()
    ensures Label(10, Some(17), JNum(0)) == "10:00AM \U{1F321}\U{FE0F} 17\U{B0}C \U{2614} 0%"
  {
  }

  lemma Scenario11()
    ensures Label(11, Some(18), JNum(5)) == "11:00AM \U{1F321}\U{FE0F} 18\U{B0}C \U{2614} 5%"
  {
  }

  /** Five successful hours with temperatures 14..18 and rain 0, 0, 10, 0, 5
      give these options, in this order, then the fixed ones. */
  lemma FiveReadings(slots: seq<Outcome>)
    requires |slots| == HourCount
    requires slots[0] == Returned(Some(14), JNum(0)) && slots[1] == Returned(Some(15), JNum(0))
    requires slots[2] == Returned(Some(16), JNum(10)) && slots[3] == Returned(Some(17), JNum(0))
    requires slots[4] == Returned(Some(18), JNum(5))
    ensures BuildOptions(slots).Ok?
    ensures BuildOptions(slots).value ==
      ["7:00AM \U{1F321}\U{FE0F} 14\U{B0}C \U{2614} 0%",
       "8:00AM \U{1F321}\U{FE0F} 15\U{B0}C \U{2614} 0%",
       "9:00AM \U{1F321}\U{FE0F} 16\U{B0}C \U{2614} 10%",
       "10:00AM \U{1F321}\U{FE0F} 17\U{B0}C \U{2614} 0%",
       "11:00AM \U{1F321}\U{FE0F} 18\U{B0}C \U{2614} 5%"] + Trailing
  {
    OptionsShape(slots);
    Scenario7();
    Scenario8();
    Scenario9();
    Scenario10();
    Scenario11();
    var options := BuildOptions(slots).value;
    assert options[0] == Label(7, Some(14), JNum(0));
    assert options[1] == Label(8, Some(15), JNum(0));
    assert options[2] == Label(9, Some(16), JNum(10));
    assert options[3] == Label(10, Some(17), JNum(0));
    assert options[4] == Label(11, Some(18), JNum(5));
  }
}
