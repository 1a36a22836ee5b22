/**
 * The two regular-expression searches organize_data applies to a provider
 * timestamp: `\d{4}-\d{2}-\d{2}` for the date and `\d{2}:\d{2}:\d{2}` for the
 * time of day. Each pattern is a fixed-width template in which 'd' stands for
 * one decimal digit and every other character for itself; re.search returns
 * the leftmost match.
 */
module Timestamp {
  import opened Base

  const DatePattern := "dddd-dd-dd"
  const TimePattern := "dd:dd:dd"

  /** The provider's timestamp layout, "YYYY-MM-DD HH:MM:SS". */
  const StampPattern := "dddd-dd-dd dd:dd:dd"

  predicate IsDigit(c: char) { '0' <= c <= '9' }

  /** Character c is matched by template character t. */
  predicate Fits(t: char, c: char) {
    if t == 'd' then IsDigit(c) else c == t
  }

  /** The template matches s at offset k. */
  predicate MatchesAt(pattern: string, s: string, k: nat) {
    k + |pattern| <= |s| && forall j :: 0 <= j < |pattern| ==> Fits(pattern[j], s[k + j])
  }

  /** The template matches s somewhere. */
  ghost predicate Occurs(pattern: string, s: string) {
    exists k :: MatchesAt(pattern, s, k)
  }

  /** A well-formed provider timestamp. */
  predicate WellFormedStamp(s: string) {
    |s| == 19 && MatchesAt(StampPattern, s, 0)
  }

  /** Leftmost offset at or after k where the template matches, if any. */
  function SearchFrom(pattern: string, s: string, k: nat): (r: Option<nat>)
    decreases |s| - k
    ensures r.Some? ==> k <= r.value && r.value + |pattern| <= |s|
  {
    if k + |pattern| > |s| then None
    else if MatchesAt(pattern, s, k) then Some(k)
    else SearchFrom(pattern, s, k + 1)
  }

  /** re.search(pattern, s).group(0), or None where re.search finds nothing. */
  function Search(pattern: string, s: string): Option<string> {
    match SearchFrom(pattern, s, 0)
    case None => None
    case Some(k) => Some(s[k..k + |pattern|])
  }

  /** SearchFrom finds the leftmost match at or after k, and finds nothing only when there is none. */
  lemma {:induction false} SearchFromLeftmost(pattern: string, s: string, k: nat)
    decreases |s| - k
    ensures SearchFrom(pattern, s, k).Some? ==>
      var m := SearchFrom(pattern, s, k).value;
      k <= m && MatchesAt(pattern, s, m) && forall j :: k <= j < m ==> !MatchesAt(pattern, s, j)
    ensures SearchFrom(pattern, s, k).None? ==> forall j :: k <= j ==> !MatchesAt(pattern, s, j)
  {
    if k + |pattern| <= |s| && !MatchesAt(pattern, s, k) {
      SearchFromLeftmost(pattern, s, k + 1);
    }
  }

  /**
   * re.search semantics: a result exactly when the template matches somewhere,
   * and then the text of the leftmost match.
   */
  lemma SearchLeftmost(pattern: string, s: string)
    ensures Search(pattern, s).Some? <==> exists k :: MatchesAt(pattern, s, k)
    ensures Search(pattern, s).Some? ==>
      exists k: nat :: (MatchesAt(pattern, s, k) && Search(pattern, s).value == s[k..k + |pattern|]
                        && forall j :: 0 <= j < k ==> !MatchesAt(pattern, s, j))
  {
    SearchFromLeftmost(pattern, s, 0);
  }

  /** What a search returns is itself a full match of the template. */
  lemma FoundText(pattern: string, s: string)
    ensures Search(pattern, s).Some? ==>
      |Search(pattern, s).value| == |pattern| && MatchesAt(pattern, Search(pattern, s).value, 0)
  {
    SearchFromLeftmost(pattern, s, 0);
    if SearchFrom(pattern, s, 0).Some? {
      var k := SearchFrom(pattern, s, 0).value;
      var t := s[k..k + |pattern|];
      assert forall j :: 0 <= j < |pattern| ==> t[j] == s[k + j];
    }
  }

  /**
   * The date part the source extracts from a timestamp (weather_forecast.py:111):
   * found exactly when some ten characters read YYYY-MM-DD, and then those.
   */
  function FindDate(s: string): (r: Option<string>)
    ensures r.Some? <==> Occurs(DatePattern, s)
    ensures r.Some? ==> |r.value| == 10 && MatchesAt(DatePattern, r.value, 0)
  {
    SearchLeftmost(DatePattern, s);
    FoundText(DatePattern, s);
    Search(DatePattern, s)
  }

  /**
   * The time part the source extracts from a timestamp (weather_forecast.py:118):
   * found exactly when some eight characters read HH:MM:SS, and then those.
   */
  function FindTime(s: string): (r: Option<string>)
    ensures r.Some? <==> Occurs(TimePattern, s)
    ensures r.Some? ==> |r.value| == 8 && MatchesAt(TimePattern, r.value, 0)
  {
    SearchLeftmost(TimePattern, s);
    FoundText(TimePattern, s);
    Search(TimePattern, s)
  }

  /** The layout of a well-formed timestamp, position by position. */
  lemma StampLayout(s: string)
    requires WellFormedStamp(s)
    ensures |s| == 19
    ensures forall j :: j in {0, 1, 2, 3, 5, 6, 8, 9, 11, 12, 14, 15, 17, 18} ==> IsDigit(s[j])
    ensures s[4] == '-' && s[7] == '-' && s[10] == ' ' && s[13] == ':' && s[16] == ':'
  {
    var p := StampPattern;
    assert p[0] == p[1] == p[2] == p[3] == p[5] == p[6] == p[8] == p[9] == 'd';
    assert p[11] == p[12] == p[14] == p[15] == p[17] == p[18] == 'd';
    assert p[4] == p[7] == '-' && p[10] == ' ' && p[13] == p[16] == ':';
    assert forall j :: 0 <= j < 19 ==> Fits(p[j], s[j]);
  }

  /**
   * On a well-formed timestamp the two searches are fixed-width slices:
   * the date is s[0..10] and the time is s[11..19].
   */
  lemma WellFormedSlices(s: string)
    requires WellFormedStamp(s)
    ensures FindDate(s) == Some(s[..10])
    ensures FindTime(s) == Some(s[11..19])
  {
    StampLayout(s);
    var dp, tp := DatePattern, TimePattern;
    assert dp[0] == dp[1] == dp[2] == dp[3] == dp[5] == dp[6] == dp[8] == dp[9] == 'd';
    assert dp[4] == dp[7] == '-';
    assert MatchesAt(dp, s, 0);
    assert SearchFrom(dp, s, 0) == Some(0);
    assert tp[0] == tp[1] == tp[3] == tp[4] == tp[6] == tp[7] == 'd' && tp[2] == tp[5] == ':';
    assert MatchesAt(tp, s, 11) by {
      assert forall j :: 0 <= j < 8 ==> Fits(tp[j], s[11 + j]);
    }
    forall k | 0 <= k < 11 ensures !MatchesAt(tp, s, k) {
      // the template's first ':' would sit at s[k + 2], and s[2..13] holds none
      assert !Fits(tp[2], s[k + 2]);
    }
    SkipTo(tp, s, 0, 11);
  }

  /** When nothing matches before m, searching from k finds what searching from m finds. */
  lemma {:induction false} SkipTo(pattern: string, s: string, k: nat, m: nat)
    requires k <= m
    requires forall j :: k <= j < m ==> !MatchesAt(pattern, s, j)
    requires MatchesAt(pattern, s, m)
    ensures SearchFrom(pattern, s, k) == Some(m)
    decreases m - k
  {
    if k < m {
      SkipTo(pattern, s, k + 1, m);
    }
  }
}
