/**
 * organize_data (weather_forecast.py:100-126): the provider's flat list of
 * 3-hour entries is walked by index; every index divisible by 8 is a day
 * marker that opens an empty list under its date (its own weather data is
 * dropped), every other index appends a one-element record
 * [[time, temp, description, wind]] to the most recently opened day.
 */
module Organizer {
  import opened Base
  import opened Seqs
  import opened Timestamp

  /** A provider number (temperature, wind speed), carried as the text Python prints for it. */
  datatype Reading = Reading(text: string)

  /** One provider entry: `dt_txt`, `main.temp`, `weather[0].description`, `wind.speed`. */
  datatype Entry = Entry(dtTxt: string, temp: Reading, description: string, wind: Reading)

  /** The record [formatted_time, temp, description, wind] built for a non-marker entry. */
  datatype Slot = Slot(time: string, temp: Reading, description: string, wind: Reading)

  /** A day's value: a list of one-element lists, each holding one Slot. */
  type DayList = seq<seq<Slot>>

  /** The result dict: its keys in insertion order, and the key-to-value map. */
  datatype Forecast = Forecast(days: seq<string>, slots: map<string, DayList>)

  /** organize_data either returns the dict or raises where a regex search found no match. */
  datatype Outcome = Done(forecast: Forecast) | NoMatch(index: nat)

  /** A well-formed dict: keys listed once each, and listed exactly when mapped. */
  predicate Valid(f: Forecast) {
    Distinct(f.days) && (forall d :: d in f.days ==> d in f.slots) && (forall d :: d in f.slots ==> d in f.days)
  }

  /**
   * dict.update({day: list}): the value is replaced; a key already present
   * keeps its position and a new key goes after all existing ones.
   */
  function Update(f: Forecast, day: string, list: DayList): (r: Forecast)
    ensures r.slots == f.slots[day := list]
    ensures Valid(f) ==> Valid(r) && |f.days| <= |r.days| && r.days[..|f.days|] == f.days
    ensures Valid(f) ==> forall d :: d in r.days <==> d in f.days || d == day
  {
    if day in f.slots then Forecast(f.days, f.slots[day := list])
    else Forecast(f.days + [day], f.slots[day := list])
  }

  /** The search the source runs on entry i finds its match: the date at a marker, the time elsewhere. */
  predicate ExtractsAt(e: seq<Entry>, i: nat)
    requires i < |e|
  {
    if i % 8 == 0 then FindDate(e[i].dtTxt).Some? else FindTime(e[i].dtTxt).Some?
  }

  predicate ExtractsUpTo(e: seq<Entry>, n: nat)
    requires n <= |e|
  {
    forall i :: 0 <= i < n ==> ExtractsAt(e, i)
  }

  /** Number of day markers among the first n indices: ceil(n / 8). */
  function Blocks(n: nat): nat {
    (n + 7) / 8
  }

  /** One past the last index of block k among the first n entries. */
  function BlockEnd(k: nat, n: nat): nat {
    if 8 * k + 8 <= n then 8 * k + 8 else n
  }

  lemma BlockStart(k: nat, n: nat)
    requires k < Blocks(n)
    ensures 8 * k < n
  {
  }

  lemma BlockArith(n: nat)
    ensures n % 8 == 0 ==> 8 * Blocks(n) == n && Blocks(n + 1) == Blocks(n) + 1
    ensures n % 8 != 0 ==> Blocks(n + 1) == Blocks(n) == n / 8 + 1 && 8 * (n / 8) < n < 8 * (n / 8) + 8
  {
  }

  lemma InsideBlock(k: nat, i: nat)
    requires 8 * k < i < 8 * k + 8
    ensures i % 8 != 0 && i / 8 == k
  {
  }

  /** The date of the marker that opens block k. */
  function BlockDate(e: seq<Entry>, k: nat): string
    requires 8 * k < |e| && ExtractsAt(e, 8 * k)
  {
    FindDate(e[8 * k].dtTxt).value
  }

  /** The record the source builds for entry i: an HH:MM:SS time found in dt_txt, the rest verbatim. */
  function SlotAt(e: seq<Entry>, i: nat): (r: Slot)
    requires i < |e| && i % 8 != 0 && ExtractsAt(e, i)
    ensures |r.time| == 8 && MatchesAt(TimePattern, r.time, 0)
    ensures r.temp == e[i].temp && r.description == e[i].description && r.wind == e[i].wind
  {
    Slot(FindTime(e[i].dtTxt).value, e[i].temp, e[i].description, e[i].wind)
  }

  /** The wrapped records of entries from .. to-1. */
  function Slots(e: seq<Entry>, from: nat, to: nat): (r: DayList)
    requires from <= to <= |e|
    requires forall i :: from <= i < to ==> i % 8 != 0 && ExtractsAt(e, i)
    ensures |r| == to - from
  {
    seq(to - from, j requires 0 <= j < to - from => [SlotAt(e, from + j)])
  }

  lemma SlotsSnoc(e: seq<Entry>, from: nat, to: nat)
    requires from <= to < |e|
    requires forall i :: from <= i <= to ==> i % 8 != 0 && ExtractsAt(e, i)
    ensures Slots(e, from, to + 1) == Slots(e, from, to) + [[SlotAt(e, to)]]
  {
  }

  lemma BlockReady(e: seq<Entry>, k: nat, n: nat)
    requires 8 * k < n <= |e| && ExtractsUpTo(e, n)
    ensures ExtractsAt(e, 8 * k)
    ensures forall i :: 8 * k + 1 <= i < BlockEnd(k, n) ==> i % 8 != 0 && ExtractsAt(e, i)
  {
    forall i | 8 * k + 1 <= i < BlockEnd(k, n) ensures i % 8 != 0 && ExtractsAt(e, i) {
      InsideBlock(k, i);
    }
  }

  /** What a block contributes: the records of its entries after the marker, among the first n. */
  function BlockSlots(e: seq<Entry>, k: nat, n: nat): (r: DayList)
    requires 8 * k < n <= |e| && ExtractsUpTo(e, n)
  {
    Slots(e, 8 * k + 1, BlockEnd(k, n))
  }

  /** The marker dates of the first n entries, block by block. */
  function MarkerDates(e: seq<Entry>, n: nat): (r: seq<string>)
    requires n <= |e| && ExtractsUpTo(e, n)
    ensures |r| == Blocks(n)
  {
    seq(Blocks(n), k requires 0 <= k < Blocks(n) => BlockDate(e, k))
  }

  /** The list each block contributes among the first n entries, block by block. */
  function BlockLists(e: seq<Entry>, n: nat): (r: seq<DayList>)
    requires n <= |e| && ExtractsUpTo(e, n)
    ensures |r| == Blocks(n)
  {
    seq(Blocks(n), k requires 0 <= k < Blocks(n) => BlockSlots(e, k, n))
  }

  /** The dict reached from {} by calling dict.update with each key/value pair in turn. */
  function Build(keys: seq<string>, values: seq<DayList>): Forecast
    requires |keys| == |values|
    decreases |keys|
  {
    if keys == [] then Forecast([], map[])
    else Update(Build(keys[..|keys| - 1], values[..|values| - 1]), keys[|keys| - 1], values[|values| - 1])
  }

  lemma BuildSnoc(keys: seq<string>, values: seq<DayList>, x: string, v: DayList)
    requires |keys| == |values|
    ensures Build(keys + [x], values + [v]) == Update(Build(keys, values), x, v)
  {
    assert (keys + [x])[..|keys|] == keys;
    assert (values + [v])[..|values|] == values;
  }

  /** A second update of the same key undoes the first one's value and keeps its position. */
  lemma UpdateTwice(f: Forecast, x: string, v: DayList, w: DayList)
    ensures Update(Update(f, x, v), x, w) == Update(f, x, w)
  {
  }

  /** Replacing the value paired with the last key is one more dict.update of that key. */
  lemma BuildSetLast(keys: seq<string>, values: seq<DayList>, v: DayList)
    requires |keys| == |values| > 0
    ensures Build(keys, values[|values| - 1 := v]) == Update(Build(keys, values), keys[|keys| - 1], v)
  {
    var n := |keys| - 1;
    assert values[n := v][..n] == values[..n];
    UpdateTwice(Build(keys[..n], values[..n]), keys[n], values[n], v);
  }

  /**
   * Closed form of the dict built by successive updates: each distinct key
   * once, in order of its FIRST appearance, mapped to the value paired with
   * its LAST appearance.
   */
  lemma {:induction false} BuildClosedForm(keys: seq<string>, values: seq<DayList>)
    requires |keys| == |values|
    ensures Build(keys, values).days == Dedup(keys)
    ensures forall d :: d in Build(keys, values).slots <==> d in keys
    ensures forall d :: d in keys ==> Build(keys, values).slots[d] == values[LastIndex(keys, d)]
    decreases |keys|
  {
    if keys != [] {
      var n := |keys| - 1;
      var k0, v0, x := keys[..n], values[..n], keys[n];
      BuildClosedForm(k0, v0);
      assert keys == k0 + [x];
      DedupSnoc(k0, x);
      forall d | d in keys ensures Build(keys, values).slots[d] == values[LastIndex(keys, d)] {
        LastIndexSnoc(k0, x, d);
      }
    }
  }

  /**
   * The dict organize_data holds after its first n iterations, stated block
   * by block: one key per distinct marker date, in order of first
   * appearance, mapped to the records of the LAST block carrying that date.
   */
  function Organized(e: seq<Entry>, n: nat): Forecast
    requires n <= |e| && ExtractsUpTo(e, n)
  {
    Build(MarkerDates(e, n), BlockLists(e, n))
  }

  /** The first index whose search finds nothing, at or after i. */
  function FirstNoMatch(e: seq<Entry>, i: nat): (k: nat)
    requires i <= |e| && ExtractsUpTo(e, i) && !ExtractsUpTo(e, |e|)
    ensures i <= k < |e| && ExtractsUpTo(e, k) && !ExtractsAt(e, k)
    decreases |e| - i
  {
    if !ExtractsAt(e, i) then i else FirstNoMatch(e, i + 1)
  }

  /** What organize_data does with the provider list e. */
  function Organize(e: seq<Entry>): (r: Outcome)
    ensures r.Done? <==> ExtractsUpTo(e, |e|)
    ensures r.NoMatch? ==> r.index < |e| && ExtractsUpTo(e, r.index) && !ExtractsAt(e, r.index)
  {
    if ExtractsUpTo(e, |e|) then Done(Organized(e, |e|)) else NoMatch(FirstNoMatch(e, 0))
  }

  /** A block that is complete among the first n entries contributes the same list among more. */
  lemma BlockSlotsStable(e: seq<Entry>, k: nat, n: nat, n': nat)
    requires 8 * k + 8 <= n <= n' <= |e| && ExtractsUpTo(e, n')
    ensures ExtractsUpTo(e, n) && BlockSlots(e, k, n) == BlockSlots(e, k, n')
  {
  }

  /** Iteration i at a marker: one more key, and an empty list for it. */
  lemma MarkerGrow(e: seq<Entry>, i: nat)
    requires i < |e| && ExtractsUpTo(e, i + 1) && i % 8 == 0
    ensures ExtractsUpTo(e, i) && 8 * (i / 8) < i + 1
    ensures MarkerDates(e, i + 1) == MarkerDates(e, i) + [BlockDate(e, i / 8)]
    ensures BlockLists(e, i + 1) == BlockLists(e, i) + [[]]
    ensures BlockSlots(e, i / 8, i + 1) == []
  {
    BlockArith(i);
    var l0, l1 := BlockLists(e, i), BlockLists(e, i + 1);
    forall k | 0 <= k < |l0| ensures l1[k] == l0[k] {
      BlockStart(k, i);
      BlockSlotsStable(e, k, i, i + 1);
    }
  }

  /** Iteration i elsewhere: the same keys, and the last list grows by entry i's record. */
  lemma SlotGrow(e: seq<Entry>, i: nat)
    requires i < |e| && ExtractsUpTo(e, i + 1) && i % 8 != 0
    ensures ExtractsUpTo(e, i) && 8 * (i / 8) < i && Blocks(i) == i / 8 + 1
    ensures MarkerDates(e, i + 1) == MarkerDates(e, i)
    ensures BlockSlots(e, i / 8, i + 1) == BlockSlots(e, i / 8, i) + [[SlotAt(e, i)]]
    ensures BlockLists(e, i + 1) == BlockLists(e, i)[i / 8 := BlockSlots(e, i / 8, i + 1)]
  {
    BlockArith(i);
    var c := i / 8;
    assert BlockSlots(e, c, i + 1) == BlockSlots(e, c, i) + [[SlotAt(e, i)]] by {
      BlockReady(e, c, i + 1);
      SlotsSnoc(e, 8 * c + 1, i);
    }
    var l0, l1 := BlockLists(e, i), BlockLists(e, i + 1);
    forall k | 0 <= k < c ensures l1[k] == l0[k] {
      BlockSlotsStable(e, k, i, i + 1);
    }
  }

  /** When every search before entry i succeeds and entry i's fails, organize_data fails at i. */
  lemma FailsAt(e: seq<Entry>, i: nat)
    requires i < |e| && ExtractsUpTo(e, i)
    requires if i % 8 == 0 then FindDate(e[i].dtTxt).None? else FindTime(e[i].dtTxt).None?
    ensures Organize(e) == NoMatch(i)
  {
    assert !ExtractsAt(e, i);
  }

  /**
   * The state of organize_data's loop after i iterations: the dict is the
   * reference dict of the first i entries, and after the first iteration the
   * current day and list are the last block's date and list.
   */
  predicate LoopState(e: seq<Entry>, i: nat, forecast: Forecast, day: string, info: DayList)
    requires i <= |e|
  {
    ExtractsUpTo(e, i) && forecast == Organized(e, i) &&
    (0 < i ==> 0 < Blocks(i) && day == MarkerDates(e, i)[Blocks(i) - 1] && info == BlockLists(e, i)[Blocks(i) - 1])
  }

  /** Before the first iteration the dict is empty. */
  lemma LoopStart(e: seq<Entry>)
    ensures LoopState(e, 0, Forecast([], map[]), "", [])
  {
    assert MarkerDates(e, 0) == [] && BlockLists(e, 0) == [];
  }

  /** After the last iteration the dict is the reference dict of the whole list. */
  lemma LoopEnd(e: seq<Entry>, forecast: Forecast, day: string, info: DayList)
    requires LoopState(e, |e|, forecast, day, info)
    ensures Organize(e) == Done(forecast)
  {
  }

  /** A marker iteration that finds its date keeps the loop state. */
  lemma MarkerIteration(e: seq<Entry>, i: nat, forecast: Forecast, day: string, info: DayList, date: string)
    requires i < |e| && LoopState(e, i, forecast, day, info)
    requires i % 8 == 0 && FindDate(e[i].dtTxt) == Some(date)
    ensures LoopState(e, i + 1, Update(forecast, date, []), date, [])
  {
    assert ExtractsAt(e, i) && ExtractsUpTo(e, i + 1);
    MarkerGrow(e, i);
    assert BlockDate(e, i / 8) == date;
    BuildSnoc(MarkerDates(e, i), BlockLists(e, i), date, []);
  }

  /** Any other iteration that finds its time keeps the loop state. */
  lemma SlotIteration(e: seq<Entry>, i: nat, forecast: Forecast, day: string, info: DayList, time: string)
    requires i < |e| && LoopState(e, i, forecast, day, info)
    requires i % 8 != 0 && FindTime(e[i].dtTxt) == Some(time)
    ensures var info' := info + [[Slot(time, e[i].temp, e[i].description, e[i].wind)]];
      LoopState(e, i + 1, Update(forecast, day, info'), day, info')
  {
    assert ExtractsAt(e, i);
    SlotGrow(e, i);
    var info' := info + [[Slot(time, e[i].temp, e[i].description, e[i].wind)]];
    BuildSetLast(MarkerDates(e, i), BlockLists(e, i), info');
  }

  /**
   * The loop of organize_data. The dict, the current day and the current
   * list are locals; a regex search that finds nothing ends the run.
   */
  method OrganizeData(e: seq<Entry>) returns (r: Outcome)
    ensures r == Organize(e)
  {
    var forecast := Forecast([], map[]);
    var day: string := "";
    var info: DayList := [];
    var i := 0;
    LoopStart(e);
    while i < |e|
      invariant i <= |e| && LoopState(e, i, forecast, day, info)
    {
      if i % 8 == 0 {
        var found := FindDate(e[i].dtTxt);
        if found.None? {
          FailsAt(e, i);
          return NoMatch(i);
        }
        MarkerIteration(e, i, forecast, day, info, found.value);
        info := [];
        day := found.value;
        forecast := Update(forecast, day, info);
      } else {
        var found := FindTime(e[i].dtTxt);
        if found.None? {
          FailsAt(e, i);
          return NoMatch(i);
        }
        SlotIteration(e, i, forecast, day, info, found.value);
        var slot := Slot(found.value, e[i].temp, e[i].description, e[i].wind);
        info := info + [[slot]];
        forecast := Update(forecast, day, info);
      }
      i := i + 1;
    }
    LoopEnd(e, forecast, day, info);
    return Done(forecast);
  }

  /** An empty provider list gives an empty dict. */
  lemma OrganizeEmpty()
    ensures Organize([]) == Done(Forecast([], map[]))
  {
    assert MarkerDates([], 0) == [];
  }

  /**
   * Whatever the dates, the result is a well-formed dict whose values are
   * lists of one-element lists.
   */
  lemma OrganizedShape(e: seq<Entry>)
    requires ExtractsUpTo(e, |e|)
    ensures Valid(Organized(e, |e|))
    ensures forall d :: d in Organized(e, |e|).slots ==> forall j :: 0 <= j < |Organized(e, |e|).slots[d]| ==> |Organized(e, |e|).slots[d][j]| == 1
  {
    var dates, lists := MarkerDates(e, |e|), BlockLists(e, |e|);
    BuildClosedForm(dates, lists);
  }

  /**
   * With distinct marker dates: ceil(n/8) keys, the k-th being the date of
   * the marker at index 8k, mapped to the list block k produced.
   */
  lemma {:induction false} DistinctMarkersKeys(e: seq<Entry>)
    requires ExtractsUpTo(e, |e|) && Distinct(MarkerDates(e, |e|))
    ensures Organize(e).Done?
    ensures |Organize(e).forecast.days| == (|e| + 7) / 8
    ensures forall k :: 0 <= k < (|e| + 7) / 8 ==>
      8 * k < |e| &&
      Organize(e).forecast.days[k] == BlockDate(e, k) &&
      Organize(e).forecast.days[k] in Organize(e).forecast.slots &&
      Organize(e).forecast.slots[Organize(e).forecast.days[k]] == BlockSlots(e, k, |e|)
  {
    var dates, lists := MarkerDates(e, |e|), BlockLists(e, |e|);
    assert Organize(e) == Done(Build(dates, lists));
    BuildClosedForm(dates, lists);
    DedupOfDistinct(dates);
    forall k | 0 <= k < |dates| ensures 8 * k < |e| && LastIndex(dates, dates[k]) == k {
      BlockStart(k, |e|);
      LastIndexOfDistinct(dates, k);
    }
  }

  /**
   * Block sizes: a complete block of 8 entries yields 7 records (its marker
   * is dropped); a trailing block of r = n mod 8 > 0 entries yields r - 1.
   */
  lemma BlockSizes(e: seq<Entry>, k: nat)
    requires ExtractsUpTo(e, |e|) && 8 * k < |e|
    ensures 8 * k + 8 <= |e| ==> |BlockSlots(e, k, |e|)| == 7
    ensures 8 * k + 8 > |e| ==> k == |e| / 8 && |e| % 8 > 0 && |BlockSlots(e, k, |e|)| == |e| % 8 - 1
  {
  }

  /** Entry i of block k (a non-marker index) sits at position i - 8k - 1 of the block's list. */
  lemma BlockEntries(e: seq<Entry>, k: nat)
    requires ExtractsUpTo(e, |e|) && 8 * k < |e|
    ensures |BlockSlots(e, k, |e|)| == BlockEnd(k, |e|) - 8 * k - 1
    ensures forall i :: 8 * k < i < BlockEnd(k, |e|) ==>
      i % 8 != 0 && ExtractsAt(e, i) && BlockSlots(e, k, |e|)[i - 8 * k - 1] == [SlotAt(e, i)]
  {
    BlockReady(e, k, |e|);
  }

  /** The key of a block that no later block repeats holds exactly that block's list. */
  lemma LastBlockValue(e: seq<Entry>, k: nat)
    requires ExtractsUpTo(e, |e|) && 8 * k < |e|
    requires forall k' :: k < k' && 8 * k' < |e| ==> BlockDate(e, k') != BlockDate(e, k)
    ensures BlockDate(e, k) in Organized(e, |e|).slots
    ensures Organized(e, |e|).slots[BlockDate(e, k)] == BlockSlots(e, k, |e|)
  {
    var dates, lists := MarkerDates(e, |e|), BlockLists(e, |e|);
    BuildClosedForm(dates, lists);
    assert dates[k] == BlockDate(e, k);
    forall k' | k < k' < |dates| ensures dates[k'] != dates[k] {
      BlockStart(k', |e|);
    }
    assert LastIndex(dates, dates[k]) == k;
  }

  /**
   * The entry at a non-marker index i lands, wrapped as [[time, temp,
   * description, wind]], at position i mod 8 - 1 of the list keyed by the
   * date of the marker at 8 * (i div 8), provided no later block repeats that date.
   */
  lemma EntryPlacement(e: seq<Entry>, i: nat)
    requires ExtractsUpTo(e, |e|) && i < |e| && i % 8 != 0
    requires forall k' :: i / 8 < k' && 8 * k' < |e| ==> BlockDate(e, k') != BlockDate(e, i / 8)
    ensures BlockDate(e, i / 8) in Organized(e, |e|).slots
    ensures var list := Organized(e, |e|).slots[BlockDate(e, i / 8)];
      i % 8 - 1 < |list| && list[i % 8 - 1] == [SlotAt(e, i)]
  {
    var c := i / 8;
    LastBlockValue(e, c);
    BlockEntries(e, c);
    assert i < BlockEnd(c, |e|);
  }

  /**
   * The value under a key d is the list of the last block whose marker is
   * dated d: only the records of that block's non-marker entries (see
   * BlockEntries), so no marker's own data is ever stored.
   */
  lemma KeyValue(e: seq<Entry>, d: string)
    requires ExtractsUpTo(e, |e|) && d in Organized(e, |e|).slots
    ensures d in MarkerDates(e, |e|)
    ensures var k := LastIndex(MarkerDates(e, |e|), d);
      8 * k < |e| && d == BlockDate(e, k) && Organized(e, |e|).slots[d] == BlockSlots(e, k, |e|)
  {
    var dates, lists := MarkerDates(e, |e|), BlockLists(e, |e|);
    BuildClosedForm(dates, lists);
    BlockStart(LastIndex(dates, d), |e|);
  }

  /**
   * Keys are ordered by the first marker carrying each date: x precedes y
   * in the result exactly when x's first marker precedes y's.
   */
  lemma KeyOrder(e: seq<Entry>, x: string, y: string)
    requires ExtractsUpTo(e, |e|)
    requires x in MarkerDates(e, |e|) && y in MarkerDates(e, |e|)
    ensures x in Organized(e, |e|).days && y in Organized(e, |e|).days
    ensures FirstIndex(Organized(e, |e|).days, x) < FirstIndex(Organized(e, |e|).days, y)
        <==> FirstIndex(MarkerDates(e, |e|), x) < FirstIndex(MarkerDates(e, |e|), y)
  {
    var dates, lists := MarkerDates(e, |e|), BlockLists(e, |e|);
    BuildClosedForm(dates, lists);
    DedupOrder(dates, x, y);
  }

  /**
   * The repeated-date quirk: when blocks a < b carry the same date, block
   * b's marker adds no key and moves none, so the key stays where block a
   * put it, but its list is that of a block at or after b and block a's
   * records are lost.
   */
  lemma RepeatedDateOverwrites(e: seq<Entry>, a: nat, b: nat)
    requires ExtractsUpTo(e, |e|) && a < b && 8 * b < |e| && BlockDate(e, a) == BlockDate(e, b)
    ensures var f, dates := Organized(e, |e|), MarkerDates(e, |e|);
      a < |dates| && dates[a] == BlockDate(e, a) &&
      BlockDate(e, a) in f.slots &&
      b <= LastIndex(dates, BlockDate(e, a)) &&
      f.slots[BlockDate(e, a)] == BlockSlots(e, LastIndex(dates, BlockDate(e, a)), |e|)
    ensures ExtractsUpTo(e, 8 * b) && Organized(e, 8 * b + 1).days == Organized(e, 8 * b).days
  {
    var dates, lists := MarkerDates(e, |e|), BlockLists(e, |e|);
    BuildClosedForm(dates, lists);
    assert dates[a] == BlockDate(e, a) && dates[b] == BlockDate(e, b);
    MarkerKeepsKeys(e, a, b);
  }

  /** The marker of block b, repeating block a's date, adds no key and moves none. */
  lemma MarkerKeepsKeys(e: seq<Entry>, a: nat, b: nat)
    requires ExtractsUpTo(e, |e|) && a < b && 8 * b < |e| && BlockDate(e, a) == BlockDate(e, b)
    ensures ExtractsUpTo(e, 8 * b) && Organized(e, 8 * b + 1).days == Organized(e, 8 * b).days
  {
    var m := 8 * b;
    assert ExtractsUpTo(e, m + 1);
    MarkerGrow(e, m);
    var before, lists := MarkerDates(e, m), BlockLists(e, m);
    BuildClosedForm(before, lists);
    BlockArith(m);
    assert before[a] == BlockDate(e, a);
    assert BlockDate(e, m / 8) == BlockDate(e, b);
    BuildSnoc(before, lists, BlockDate(e, b), []);
  }

  /**
   * Two blocks sharing one date: the dict has that single key, holding only
   * the second block's records; the first block's seven are gone.
   */
  lemma TwoBlocksOneDate(e: seq<Entry>)
    requires ExtractsUpTo(e, |e|) && 9 <= |e| <= 16 && BlockDate(e, 0) == BlockDate(e, 1)
    ensures Organize(e) == Done(Forecast([BlockDate(e, 0)], map[BlockDate(e, 0) := BlockSlots(e, 1, |e|)]))
    ensures |BlockSlots(e, 1, |e|)| == |e| - 9
  {
    var x := BlockDate(e, 0);
    var dates, lists := MarkerDates(e, |e|), BlockLists(e, |e|);
    assert dates == [x] + [x];
    assert lists == [lists[0]] + [lists[1]];
    BuildSnoc([], [], x, lists[0]);
    BuildSnoc([x], [lists[0]], x, lists[1]);
    UpdateTwice(Forecast([], map[]), x, lists[0], lists[1]);
    assert lists[1] == BlockSlots(e, 1, |e|);
  }

  /**
   * For provider data (well-formed timestamps) the run never fails, the key
   * of block k is the first 10 characters of its marker's dt_txt and each
   * record's time is characters 11 to 19 of its entry's dt_txt.
   */
  lemma WellFormedInput(e: seq<Entry>)
    requires forall i :: 0 <= i < |e| ==> WellFormedStamp(e[i].dtTxt)
    ensures ExtractsUpTo(e, |e|) && Organize(e).Done?
    ensures forall k :: 0 <= k && 8 * k < |e| ==> WellFormedStamp(e[8 * k].dtTxt) && BlockDate(e, k) == e[8 * k].dtTxt[..10]
    ensures forall i :: 0 <= i < |e| && i % 8 != 0 ==> WellFormedStamp(e[i].dtTxt) && SlotAt(e, i).time == e[i].dtTxt[11..19]
  {
    forall i | 0 <= i < |e| ensures ExtractsAt(e, i) && FindDate(e[i].dtTxt) == Some(e[i].dtTxt[..10])
      && FindTime(e[i].dtTxt) == Some(e[i].dtTxt[11..19])
    {
      WellFormedSlices(e[i].dtTxt);
    }
  }
}
