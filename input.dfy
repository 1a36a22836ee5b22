/**
 * The checks and normalisation that get_location and get_unit apply to
 * what the user types. Each prompt is modelled as a single attempt on one
 * typed line: the result is the value stored, or the rejection after which
 * the script asks again. A value passed in as an argument skips its prompt.
 */
module Input {
  import opened Base
  import opened Text

  /** The units the provider understands, in the order the script lists them. */
  const Units: seq<string> := ["standard", "metric", "imperial"]

  /**
   * One answer to the city prompt: the stripped line is accepted when it is
   * at least two characters long and all letters, and is stored lower-cased;
   * otherwise the prompt is repeated (None).
   */
  function CityAttempt(line: string): (r: Option<string>)
    ensures r.Some? <==> |Strip(line)| >= 2 && IsAlpha(Strip(line))
    ensures r.Some? ==> |r.value| >= 2 && IsLowerWord(r.value) && r.value == Lower(Strip(line))
  {
    var city := Strip(line);
    if |city| <= 1 || !IsAlpha(city) then None else Some(Lower(city))
  }

  /**
   * One answer to the country-code prompt: accepted when the stripped line is
   * exactly two letters, stored lower-cased; otherwise asked again.
   */
  function CountryAttempt(line: string): (r: Option<string>)
    ensures r.Some? <==> |Strip(line)| == 2 && IsAlpha(Strip(line))
    ensures r.Some? ==> |r.value| == 2 && IsLowerWord(r.value) && r.value == Lower(Strip(line))
  {
    var state := Strip(line);
    if |state| != 2 || !IsAlpha(state) then None else Some(Lower(state))
  }

  /**
   * get_location: a city or state given as an argument is kept as it is;
   * a missing one is read from its typed line. None means a typed value was
   * rejected, so the script would prompt for it again.
   */
  function Location(cityArg: Option<string>, stateArg: Option<string>, cityLine: string, stateLine: string)
    : (r: Option<(string, string)>)
    ensures cityArg.Some? && stateArg.Some? ==> r == Some((cityArg.value, stateArg.value))
    ensures r.None? <==>
      (cityArg.None? && CityAttempt(cityLine).None?) || (stateArg.None? && CountryAttempt(stateLine).None?)
    ensures r.Some? ==>
      r.value.0 == (if cityArg.Some? then cityArg.value else Lower(Strip(cityLine))) &&
      r.value.1 == (if stateArg.Some? then stateArg.value else Lower(Strip(stateLine)))
  {
    var city := if cityArg.Some? then cityArg else CityAttempt(cityLine);
    if city.None? then None
    else
      var state := if stateArg.Some? then stateArg else CountryAttempt(stateLine);
      if state.None? then None else Some((city.value, state.value))
  }

  /**
   * One answer to the unit prompt. The rejection message echoes the first
   * three characters of the user's own stripped answer, so a rejected answer
   * shorter than three characters ends in an IndexError instead of a re-prompt.
   */
  datatype UnitOutcome = Accepted(unit: string) | AskAgain(shown: string) | IndexError

  function UnitAttempt(line: string): (r: UnitOutcome)
    ensures r.Accepted? <==> Lower(Strip(line)) in Units
    ensures r.Accepted? ==> r.unit == Lower(Strip(line)) && r.unit in Units
    ensures r.IndexError? <==> Lower(Strip(line)) !in Units && |Strip(line)| < 3
    ensures r.AskAgain? ==> |Strip(line)| >= 3 && r.shown == Strip(line)[..3]
  {
    var unit := Strip(line);
    if Lower(unit) !in Units then
      if |unit| < 3 then IndexError else AskAgain(unit[..3])
    else
      Accepted(Lower(unit))
  }

  /** get_unit: a unit passed as an argument is returned unchecked; otherwise one typed answer decides. */
  function Unit(unitArg: Option<string>, line: string): (r: UnitOutcome)
    ensures unitArg.Some? ==> r == Accepted(unitArg.value)
    ensures unitArg.None? ==> r == UnitAttempt(line)
    ensures unitArg.None? && r.Accepted? ==> r.unit in Units && Lower(Strip(line)) == r.unit
  {
    if unitArg.Some? then Accepted(unitArg.value) else UnitAttempt(line)
  }

  /** Typing back an accepted city stores the very same value: normalisation is idempotent. */
  lemma CityIdempotent(line: string)
    requires CityAttempt(line).Some?
    ensures CityAttempt(CityAttempt(line).value) == CityAttempt(line)
  {
    var c := CityAttempt(line).value;
    StripUnchanged(c);
    LowerIdempotent(Strip(line));
    assert IsAlpha(c);
  }

  /** Typing back an accepted country code stores the very same value. */
  lemma CountryIdempotent(line: string)
    requires CountryAttempt(line).Some?
    ensures CountryAttempt(CountryAttempt(line).value) == CountryAttempt(line)
  {
    var c := CountryAttempt(line).value;
    StripUnchanged(c);
    LowerIdempotent(Strip(line));
    assert IsAlpha(c);
  }

  /** Each listed unit is accepted as typed, and an accepted answer typed back is accepted unchanged. */
  lemma UnitIdempotent(line: string)
    ensures forall u :: u in Units ==> UnitAttempt(u) == Accepted(u)
    ensures UnitAttempt(line).Accepted? ==> UnitAttempt(UnitAttempt(line).unit) == UnitAttempt(line)
  {
    forall u | u in Units
      ensures UnitAttempt(u) == Accepted(u)
    {
      StripUnchanged(u);
      assert Lower(u) == u;
    }
  }

  /** The accepted city and country code are exactly the lower-case words of the right length. */
  lemma AcceptedExactly(c: string)
    ensures CityAttempt(c) == Some(c) <==> |c| >= 2 && IsLowerWord(c)
    ensures CountryAttempt(c) == Some(c) <==> |c| == 2 && IsLowerWord(c)
  {
    if IsLowerWord(c) {
      StripUnchanged(c);
      assert IsAlpha(c);
      assert Lower(c) == c;
    }
  }

  /** Sample answers to the city prompt: too short, a space inside, capitals. */
  lemma SampleCities()
    ensures CityAttempt("a") == None && CityAttempt("new york") == None
    ensures CityAttempt("Paris") == Some("paris")
  {
    StripUnchanged("a");
    StripUnchanged("new york");
    assert !IsLetter("new york"[3]);
    StripUnchanged("Paris");
    assert IsAlpha("Paris") && Lower("Paris") == "paris";
  }

  /** Sample answers to the country-code prompt: a wrong length, a digit, capitals. */
  lemma SampleCountries()
    ensures CountryAttempt("usa") == None && CountryAttempt("u1") == None
    ensures CountryAttempt("US") == Some("us")
  {
    StripUnchanged("usa");
    StripUnchanged("u1");
    assert !IsLetter("u1"[1]);
    StripUnchanged("US");
    assert IsAlpha("US") && Lower("US") == "us";
  }

  /** Sample answers to the unit prompt: capitals, an unknown unit, a short unknown one. */
  lemma SampleUnits()
    ensures UnitAttempt("METRIC") == Accepted("metric")
    ensures UnitAttempt("kelvin") == AskAgain("kel")
    ensures UnitAttempt("ab") == IndexError
  {
    StripUnchanged("METRIC");
    assert Lower("METRIC") == "metric";
    StripUnchanged("kelvin");
    assert Lower("kelvin") == "kelvin";
    StripUnchanged("ab");
    assert Lower("ab") == "ab";
  }
}
