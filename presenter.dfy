/**
 * display_data (weather_forecast.py:129-150): the unit suffixes, the
 * re-cased city and country code, and the printed lines — a banner, then
 * for each day of the dict in key order a header followed by one report
 * per record of that day's list, in list order.
 */
module Presenter {
  import opened Seqs
  import opened Text
  import opened Organizer
  import Input

  /** The temperature and wind-speed suffixes printed after the readings. */
  datatype Suffixes = Suffixes(temp: string, speed: string)

  /**
   * metric reads in Celsius and m/s, imperial in Fahrenheit and mph; every
   * other string, standard included, falls through to Kelvin and m/s.
   */
  function UnitSuffixes(unit: string): (r: Suffixes)
    ensures r.temp == "C" <==> unit == "metric"
    ensures r.temp == "F" <==> unit == "imperial"
    ensures r.temp == "K" <==> unit != "metric" && unit != "imperial"
    ensures r.speed == (if unit == "imperial" then "mph" else "m/s")
  {
    if unit == "metric" then Suffixes("C", "m/s")
    else if unit == "imperial" then Suffixes("F", "mph")
    else Suffixes("K", "m/s")
  }

  /** On the units the prompt accepts, the suffixes tell the unit apart. */
  lemma SuffixesIdentifyUnit(u: string, v: string)
    requires u in Input.Units && v in Input.Units
    ensures UnitSuffixes(u) == UnitSuffixes(v) <==> u == v
  {
  }

  /** The city, the country code and the suffixes every report line repeats. */
  datatype Legend = Legend(city: string, state: string, units: Suffixes)

  /** One printed line: the opening banner, a day header, or one record's report. */
  datatype Line = Banner | Header(day: string) | Report(slot: Slot, legend: Legend)

  /** The legend display_data builds: city title-cased, country code upper-cased. */
  function LegendFor(unit: string, city: string, state: string): (r: Legend)
    ensures |r.city| == |city| && Lower(r.city) == Lower(city)
    ensures |r.state| == |state| && Lower(r.state) == Lower(state)
    ensures forall i :: 0 <= i < |r.state| ==> !IsLower(r.state[i])
    ensures r.units == UnitSuffixes(unit)
  {
    LowerTitleAfter(city, false);
    UpperLower(state);
    Legend(Title(city), Upper(state), UnitSuffixes(unit))
  }

  /** Lower-casing an upper-cased string is lower-casing the original. */
  lemma UpperLower(s: string)
    ensures Lower(Upper(s)) == Lower(s)
  {
    forall i | 0 <= i < |s|
      ensures Lower(Upper(s))[i] == Lower(s)[i]
    {
    }
  }

  /**
   * For the lower-case words the prompts store, the displayed city and
   * country code give back the stored values, and the city is shown with
   * a capital first letter and the rest unchanged.
   */
  lemma ShownPlaceRecoverable(unit: string, city: string, state: string)
    requires IsLowerWord(city) && IsLowerWord(state)
    ensures var g := LegendFor(unit, city, state);
      Lower(g.city) == city && Lower(g.state) == state &&
      g.city[0] == ToUpper(city[0]) && g.city[1..] == city[1..] &&
      forall i :: 0 <= i < |state| ==> IsUpper(g.state[i])
  {
    assert Lower(city) == city && Lower(state) == state;
    TitleOfLetters(city, false);
    var g := LegendFor(unit, city, state);
    assert g.city[1..] == city[1..];
  }

  /** A value display_data can print: each key is mapped and each record is non-empty (it prints each[0]). */
  predicate Printable(days: seq<string>, slots: map<string, DayList>) {
    forall d :: d in days ==> d in slots && forall j :: 0 <= j < |slots[d]| ==> |slots[d][j]| > 0
  }

  /** One day's lines: its header, then one report per record, in list order. */
  function DayLines(day: string, weather: DayList, legend: Legend): (r: seq<Line>)
    requires forall j :: 0 <= j < |weather| ==> |weather[j]| > 0
    ensures |r| == 1 + |weather|
    ensures r[0] == Header(day)
    ensures forall j :: 0 <= j < |weather| ==> r[j + 1] == Report(weather[j][0], legend)
    ensures forall i :: 0 <= i < |r| ==> !r[i].Banner?
    decreases |weather|
  {
    if weather == [] then [Header(day)]
    else DayLines(day, weather[..|weather| - 1], legend) + [Report(weather[|weather| - 1][0], legend)]
  }

  /** The lines of the days, in key order. */
  function DaysLines(days: seq<string>, slots: map<string, DayList>, legend: Legend): (r: seq<Line>)
    requires Printable(days, slots)
    ensures |r| >= |days|
    ensures forall i :: 0 <= i < |r| ==> !r[i].Banner?
    decreases |days|
  {
    if days == [] then []
    else
      var d := days[|days| - 1];
      DaysLines(days[..|days| - 1], slots, legend) + DayLines(d, slots[d], legend)
  }

  /** Everything display_data prints for the dict f, one Line per print call. */
  function Render(f: Forecast, unit: string, city: string, state: string): (r: seq<Line>)
    requires Printable(f.days, f.slots)
    ensures |r| >= 1 + |f.days| && r[0] == Banner
    ensures forall i :: 1 <= i < |r| ==> !r[i].Banner?
  {
    [Banner] + DaysLines(f.days, f.slots, LegendFor(unit, city, state))
  }

  /** The first record of each element of a day's list: what the report lines show. */
  function Firsts(weather: DayList): (r: seq<Slot>)
    requires forall j :: 0 <= j < |weather| ==> |weather[j]| > 0
    ensures |r| == |weather| && forall j :: 0 <= j < |weather| ==> r[j] == weather[j][0]
  {
    seq(|weather|, j requires 0 <= j < |weather| => weather[j][0])
  }

  /** The days with the records shown under each, in key order. */
  function Groups(days: seq<string>, slots: map<string, DayList>): (r: seq<(string, seq<Slot>)>)
    requires Printable(days, slots)
    ensures |r| == |days|
  {
    seq(|days|, k requires 0 <= k < |days| => (days[k], Firsts(slots[days[k]])))
  }

  /**
   * Reading one printed line back: a header opens a new group, a report adds
   * its record to the group opened last; the banner, and a report before
   * any header, add nothing.
   */
  function Absorb(groups: seq<(string, seq<Slot>)>, line: Line): (r: seq<(string, seq<Slot>)>)
  {
    match line
    case Banner => groups
    case Header(d) => groups + [(d, [])]
    case Report(slot, _) =>
      if groups == [] then groups
      else groups[..|groups| - 1] + [(groups[|groups| - 1].0, groups[|groups| - 1].1 + [slot])]
  }

  /** Reading printed lines back, one line after another. */
  function Regroup(lines: seq<Line>): (r: seq<(string, seq<Slot>)>)
    decreases |lines|
  {
    if lines == [] then [] else Absorb(Regroup(lines[..|lines| - 1]), lines[|lines| - 1])
  }

  lemma RegroupSnoc(lines: seq<Line>, line: Line)
    ensures Regroup(lines + [line]) == Absorb(Regroup(lines), line)
  {
    assert (lines + [line])[..|lines|] == lines;
  }

  lemma {:induction false} RegroupDay(prefix: seq<Line>, day: string, weather: DayList, legend: Legend)
    requires forall j :: 0 <= j < |weather| ==> |weather[j]| > 0
    ensures Regroup(prefix + DayLines(day, weather, legend)) == Regroup(prefix) + [(day, Firsts(weather))]
    decreases |weather|
  {
    if weather == [] {
      RegroupSnoc(prefix, Header(day));
    } else {
      var w := weather[..|weather| - 1];
      var x := weather[|weather| - 1];
      RegroupDay(prefix, day, w, legend);
      var before := prefix + DayLines(day, w, legend);
      assert prefix + DayLines(day, weather, legend) == before + [Report(x[0], legend)];
      RegroupSnoc(before, Report(x[0], legend));
      var g := Regroup(prefix) + [(day, Firsts(w))];
      assert g[..|g| - 1] == Regroup(prefix);
      FirstsSnoc(weather);
    }
  }

  lemma FirstsSnoc(weather: DayList)
    requires forall j :: 0 <= j < |weather| ==> |weather[j]| > 0
    requires weather != []
    ensures Firsts(weather) == Firsts(weather[..|weather| - 1]) + [weather[|weather| - 1][0]]
  {
    var a, b := Firsts(weather), Firsts(weather[..|weather| - 1]) + [weather[|weather| - 1][0]];
    forall j | 0 <= j < |weather| ensures a[j] == b[j] {
    }
  }

  lemma GroupsSnoc(days: seq<string>, slots: map<string, DayList>)
    requires Printable(days, slots) && days != []
    ensures Printable(days[..|days| - 1], slots)
    ensures var d := days[|days| - 1];
      Groups(days, slots) == Groups(days[..|days| - 1], slots) + [(d, Firsts(slots[d]))]
  {
    var p := days[..|days| - 1];
    var g, g' := Groups(days, slots), Groups(p, slots);
    forall k | 0 <= k < |p| ensures g[k] == g'[k] {
      assert days[k] == p[k];
    }
  }

  lemma {:induction false} RegroupDays(days: seq<string>, slots: map<string, DayList>, legend: Legend)
    requires Printable(days, slots)
    ensures Regroup(DaysLines(days, slots, legend)) == Groups(days, slots)
    decreases |days|
  {
    if days != [] {
      var p := days[..|days| - 1];
      var d := days[|days| - 1];
      GroupsSnoc(days, slots);
      RegroupDays(p, slots, legend);
      RegroupDay(DaysLines(p, slots, legend), d, slots[d], legend);
    }
  }

  /**
   * The printed lines lose nothing of the dict but the wrapping lists:
   * reading them back gives every day in key order with, in list order,
   * the record each report shows.
   */
  lemma RenderRegroups(f: Forecast, unit: string, city: string, state: string)
    requires Printable(f.days, f.slots)
    ensures Regroup(Render(f, unit, city, state)) == Groups(f.days, f.slots)
  {
    var legend := LegendFor(unit, city, state);
    var body := DaysLines(f.days, f.slots, legend);
    RegroupDays(f.days, f.slots, legend);
    RegroupBanner(body);
  }

  /** A banner in front changes nothing read back. */
  lemma {:induction false} RegroupBanner(lines: seq<Line>)
    ensures Regroup([Banner] + lines) == Regroup(lines)
    decreases |lines|
  {
    if lines == [] {
      RegroupSnoc([], Banner);
    } else {
      var init, last := lines[..|lines| - 1], lines[|lines| - 1];
      RegroupBanner(init);
      assert lines == init + [last];
      assert [Banner] + lines == ([Banner] + init) + [last];
      RegroupSnoc([Banner] + init, last);
      RegroupSnoc(init, last);
    }
  }

  /**
   * The text each print call writes, before print's own newline: the
   * banner, `***** For <day> *****` and a three-line report.
   */
  function Printed(line: Line): (r: string)
    ensures line.Banner? ==> r == "\nHere is the weather forecast for the next 5 days with 3 hour step.\n"
    ensures line.Header? ==> r == "***** For " + line.day + " *****\n"
    ensures line.Report? ==> |r| > 3 && r[..3] == "At "
  {
    match line
    case Banner => "\nHere is the weather forecast for the next 5 days with 3 hour step.\n"
    case Header(day) => "***** For " + day + " *****\n"
    case Report(slot, legend) =>
      ReportHead(slot, legend) + "\nTemperature: " + slot.temp.text + " " + legend.units.temp +
      "\nWind Speed: " + slot.wind.text + " " + legend.units.speed + "\n"
  }

  /** The opening of a report: "At <time>, the weather in <city>,<state> will have <description>". */
  function ReportHead(slot: Slot, legend: Legend): string {
    "At " + slot.time + ", the weather in " + legend.city + "," + legend.state + " will have " + slot.description
  }

  /**
   * Where the place fields sit in a report's text: the time after "At ",
   * then the city and the country code joined by a comma, then the
   * description after "will have ".
   */
  lemma ReportPlace(slot: Slot, legend: Legend)
    ensures var r, city := Printed(Report(slot, legend)), 3 + |slot.time| + 17;
      var state := city + |legend.city| + 1;
      var desc := state + |legend.state| + 11;
      desc + |slot.description| <= |r| &&
      r[..3] == "At " && r[3..3 + |slot.time|] == slot.time &&
      r[city - 17..city] == ", the weather in " &&
      r[city..city + |legend.city|] == legend.city && r[state - 1] == ',' &&
      r[state..state + |legend.state|] == legend.state &&
      r[desc - 11..desc] == " will have " &&
      r[desc..desc + |slot.description|] == slot.description
  {
    var r := Printed(Report(slot, legend));
    var h1 := "At " + slot.time;
    var h2 := h1 + ", the weather in ";
    var h3 := h2 + legend.city;
    var h4 := h3 + ",";
    var h5 := h4 + legend.state;
    var h6 := h5 + " will have ";
    var h7 := ReportHead(slot, legend);
    assert h7 == h6 + slot.description;
    assert r[..|h7|] == h7;
    Within(r, h6, h7);
    Within(r, h5, h6);
    Within(r, h4, h5);
    Within(r, h3, h4);
    Within(r, h2, h3);
    Within(r, h1, h2);
    Within(r, "At ", h1);
  }

  /**
   * Where the temperature sits in a report's text: after the place, on a
   * line of its own, following "Temperature: " and followed by a space and
   * its unit suffix.
   */
  lemma ReportTemperature(slot: Slot, legend: Legend)
    ensures var r, temp := Printed(Report(slot, legend)), |ReportHead(slot, legend)| + 14;
      temp + |slot.temp.text| + 1 + |legend.units.temp| <= |r| &&
      r[..temp - 14] == ReportHead(slot, legend) &&
      r[temp - 14..temp] == "\nTemperature: " && r[temp..temp + |slot.temp.text|] == slot.temp.text &&
      r[temp + |slot.temp.text|..temp + |slot.temp.text| + 1 + |legend.units.temp|] == " " + legend.units.temp
  {
    var r := Printed(Report(slot, legend));
    var s := ReportHead(slot, legend) + "\nTemperature: ";
    var t := s + slot.temp.text;
    var u := t + " " + legend.units.temp;
    assert r[..|u|] == u;
    Within(r, t, u);
    Within(r, s, t);
    Within(r, ReportHead(slot, legend), s);
  }

  /**
   * How a report's text ends: after the temperature's unit suffix, a line
   * with the wind speed following "Wind Speed: ", then a space, the speed
   * suffix and a newline.
   */
  lemma ReportWind(slot: Slot, legend: Legend)
    ensures var r := Printed(Report(slot, legend));
      var wind := |ReportHead(slot, legend)| + 14 + |slot.temp.text| + 1 + |legend.units.temp| + 13;
      |r| == wind + |slot.wind.text| + 1 + |legend.units.speed| + 1 &&
      r[wind - 13..wind] == "\nWind Speed: " && r[wind..wind + |slot.wind.text|] == slot.wind.text &&
      r[wind + |slot.wind.text|..] == " " + legend.units.speed + "\n"
  {
    var r := Printed(Report(slot, legend));
    var u := ReportHead(slot, legend) + "\nTemperature: " + slot.temp.text + " " + legend.units.temp;
    var v := u + "\nWind Speed: ";
    var w := v + slot.wind.text;
    assert r == w + " " + legend.units.speed + "\n";
    Within(r, w, r);
    Within(r, v, w);
    Within(r, u, v);
  }

  /** When p and q are prefixes of r, the part of r between them is the part of q after p. */
  lemma Within(r: string, p: string, q: string)
    requires |p| <= |q| <= |r| && r[..|q|] == q && q[..|p|] == p
    ensures r[..|p|] == p && r[|p|..|q|] == q[|p|..]
  {
    assert r[..|p|] == r[..|q|][..|p|];
  }

  /** The date can be read back from its printed header, and headers and reports never print alike. */
  lemma PrintedHeaderDay(day: string, other: Line)
    ensures var t := Printed(Header(day)); |t| == |day| + 17 && t[10..|t| - 7] == day
    ensures other.Report? ==> Printed(Header(day)) != Printed(other)
  {
    var t := Printed(Header(day));
    assert t[10..|t| - 7] == day;
    if other.Report? {
      assert Printed(Header(day))[0] != Printed(other)[0];
    }
  }

  /** The line that provider entry i turns into: a header for a marker, a report for any other entry. */
  function LineOf(e: seq<Entry>, i: nat, legend: Legend): Line
    requires ExtractsUpTo(e, |e|) && i < |e|
  {
    if i % 8 == 0 then Header(BlockDate(e, i / 8)) else Report(SlotAt(e, i), legend)
  }

  /** The lines of the first n provider entries, one each, in input order. */
  function EntryLines(e: seq<Entry>, n: nat, legend: Legend): (r: seq<Line>)
    requires ExtractsUpTo(e, |e|) && n <= |e|
    ensures |r| == n
  {
    seq(n, i requires 0 <= i < n => LineOf(e, i, legend))
  }

  /** The marker of block k prints as the header of the block's date. */
  lemma MarkerLine(e: seq<Entry>, k: nat, legend: Legend)
    requires ExtractsUpTo(e, |e|) && 8 * k < |e|
    ensures LineOf(e, 8 * k, legend) == Header(BlockDate(e, k))
  {
    assert (8 * k) % 8 == 0 && (8 * k) / 8 == k;
  }

  /** Any other entry i of block k prints as the report at position i - 8k of the block's lines. */
  lemma ReportLine(e: seq<Entry>, k: nat, i: nat, legend: Legend)
    requires ExtractsUpTo(e, |e|) && 8 * k < i < BlockEnd(k, |e|)
    ensures 8 * k < |e| && i - 8 * k < |DayLines(BlockDate(e, k), BlockSlots(e, k, |e|), legend)|
    ensures DayLines(BlockDate(e, k), BlockSlots(e, k, |e|), legend)[i - 8 * k] == LineOf(e, i, legend)
  {
    BlockEntries(e, k);
    var w := BlockSlots(e, k, |e|);
    assert w[i - 8 * k - 1] == [SlotAt(e, i)];
  }

  /** Block k of the provider list prints as one line per entry of the block. */
  lemma BlockLines(e: seq<Entry>, k: nat, legend: Legend)
    requires ExtractsUpTo(e, |e|) && 8 * k < |e|
    ensures EntryLines(e, BlockEnd(k, |e|), legend) ==
      EntryLines(e, 8 * k, legend) + DayLines(BlockDate(e, k), BlockSlots(e, k, |e|), legend)
  {
    var block := DayLines(BlockDate(e, k), BlockSlots(e, k, |e|), legend);
    var all, prev := EntryLines(e, BlockEnd(k, |e|), legend), EntryLines(e, 8 * k, legend);
    BlockEntries(e, k);
    MarkerLine(e, k, legend);
    forall i | 0 <= i < |all| ensures all[i] == (prev + block)[i] {
      if i > 8 * k {
        ReportLine(e, k, i, legend);
      }
    }
  }

  /** The dict organize_data builds can always be printed. */
  lemma OrganizedPrintable(e: seq<Entry>)
    requires ExtractsUpTo(e, |e|)
    ensures Printable(Organized(e, |e|).days, Organized(e, |e|).slots)
  {
    OrganizedShape(e);
  }

  /** The first m days print as the first m - 1 days followed by day m. */
  lemma DaysLinesPrefix(days: seq<string>, slots: map<string, DayList>, m: nat, legend: Legend)
    requires Printable(days, slots) && 0 < m <= |days|
    ensures Printable(days[..m], slots) && Printable(days[..m - 1], slots)
    ensures DaysLines(days[..m], slots, legend) ==
      DaysLines(days[..m - 1], slots, legend) + DayLines(days[m - 1], slots[days[m - 1]], legend)
  {
    assert days[..m][..m - 1] == days[..m - 1];
  }

  /**
   * With distinct marker dates, the first m days of the organized dict print
   * as the lines of the first min(8m, n) provider entries.
   */
  lemma {:induction false} DaysPrefixLines(e: seq<Entry>, m: nat, legend: Legend)
    requires ExtractsUpTo(e, |e|) && Distinct(MarkerDates(e, |e|)) && m <= Blocks(|e|)
    ensures var f := Organized(e, |e|);
      m <= |f.days| && Printable(f.days[..m], f.slots) &&
      DaysLines(f.days[..m], f.slots, legend) == EntryLines(e, if 8 * m < |e| then 8 * m else |e|, legend)
  {
    var f := Organized(e, |e|);
    DistinctMarkersKeys(e);
    OrganizedPrintable(e);
    if m == 0 {
      assert f.days[..0] == [];
    } else {
      var c := m - 1;
      DaysPrefixLines(e, c, legend);
      DaysLinesPrefix(f.days, f.slots, m, legend);
      BlockStart(c, |e|);
      BlockLines(e, c, legend);
    }
  }

  /**
   * End to end, with distinct marker dates: printing the organized dict
   * gives the banner and then exactly one line per provider entry, in input
   * order — the header of its date for a marker, the report of its time,
   * description, temperature and wind for any other entry.
   */
  lemma DisplayOrganized(e: seq<Entry>, unit: string, city: string, state: string)
    requires ExtractsUpTo(e, |e|) && Distinct(MarkerDates(e, |e|))
    ensures Printable(Organized(e, |e|).days, Organized(e, |e|).slots)
    ensures Render(Organized(e, |e|), unit, city, state) == [Banner] + EntryLines(e, |e|, LegendFor(unit, city, state))
  {
    var f := Organized(e, |e|);
    DistinctMarkersKeys(e);
    DaysPrefixLines(e, Blocks(|e|), LegendFor(unit, city, state));
    assert f.days[..Blocks(|e|)] == f.days;
  }
}
