/**
 * The regular expressions of the message extractor, each written as a
 * scanner that tries to match at one index and returns the capture groups.
 * Scanners run over the lower-cased message; since every letter in these
 * patterns is lower case and the source applies them with the `i` flag,
 * that gives the same matches for ASCII text. `Search` gives
 * `String.prototype.match` semantics for a pattern without the `g` flag:
 * the match at the leftmost index where the pattern matches.
 *
 * Backtracking is resolved by hand. Every `\d{1,2}` group is followed by a
 * token that cannot begin with a digit, so the greedy run of at most two
 * digits is the only candidate; every `\s+` or `\s*` is followed by a token
 * that cannot begin with white space, so the longest run is the only
 * candidate; and the alternatives `july|jul`, `pm|am`, `to|at`, `to|until|-`
 * differ in their first letters or only in a trailing `y` (see each scanner).
 */
module Patterns {
  import opened Wrappers
  import opened Text

  /** The match of `matchAt` at the leftmost index `j >= i` where it matches. */
  function Search<T>(matchAt: (string, nat) -> Option<T>, s: string, i: nat): Option<T>
    decreases |s| + 1 - i
  {
    if i > |s| then None
    else if matchAt(s, i).Some? then matchAt(s, i)
    else Search(matchAt, s, i + 1)
  }

  /** `s.match(re)` where `matchAt` scans for `re` at one index. */
  function Find<T>(matchAt: (string, nat) -> Option<T>, s: string): Option<T>
  {
    Search(matchAt, s, 0)
  }

  /** A search answers with the match at the leftmost matching index, and fails only when no index matches. */
  lemma {:induction false} SearchIsLeftmost<T>(matchAt: (string, nat) -> Option<T>, s: string, i: nat)
    ensures Search(matchAt, s, i).Some? ==>
      exists j :: i <= j <= |s| && matchAt(s, j) == Search(matchAt, s, i)
        && forall k :: i <= k < j ==> matchAt(s, k).None?
    ensures Search(matchAt, s, i).None? <==> forall k :: i <= k <= |s| ==> matchAt(s, k).None?
    decreases |s| + 1 - i
  {
    if i <= |s| && matchAt(s, i).None? {
      SearchIsLeftmost(matchAt, s, i + 1);
      forall k | i <= k <= |s| && Search(matchAt, s, i).None?
        ensures matchAt(s, k).None?
      {
        if k > i {
          assert i + 1 <= k;
        }
      }
    }
  }

  /** A search may skip indices where the scanner does not match. */
  lemma {:induction false} SearchSkips<T>(matchAt: (string, nat) -> Option<T>, s: string, i: nat, j: nat)
    requires i <= j && forall k :: i <= k < j ==> matchAt(s, k).None?
    ensures Search(matchAt, s, i) == Search(matchAt, s, j)
    decreases j - i
  {
    if i < j {
      SearchSkips(matchAt, s, i + 1, j);
    }
  }

  // ---------------------------------------------------------------- dates

  /** A capture of `(\d{1,2})`: one or two decimal digits. */
  predicate IsDayDigits(c: string)
  {
    1 <= |c| <= 2 && forall k :: 0 <= k < |c| ==> IsDigit(c[k])
  }

  /** The digits of `(\d{1,2})` at `j`, if a digit stands there. */
  function DigitsAt(s: string, j: nat): (r: Option<string>)
    ensures r.Some? ==> IsDayDigits(r.value)
  {
    var n := DigitRun(s, j);
    if n == 0 then None else Some(s[j..j + n])
  }

  /** `\s+(\d{1,2})` at `j`. */
  function SpacedDigitsAt(s: string, j: nat): (r: Option<string>)
    ensures r.Some? ==> IsDayDigits(r.value)
  {
    var k := SkipSpaces(s, j);
    if k == j then None else DigitsAt(s, k)
  }

  /**
   * `(?:july|jul)\s+(\d{1,2})` at `i`, read deterministically: the whole run
   * of blanks, then the greedy digits. When "july" stands at `i` the
   * alternative "jul" is followed by `y`, which `\s+` rejects, so only the
   * longer word can lead to a match.
   */
  function MonthDayAt(s: string, i: nat): (r: Option<string>)
    ensures r.Some? ==> IsDayDigits(r.value)
  {
    if At(s, i, "july") then SpacedDigitsAt(s, i + 4)
    else if At(s, i, "jul") then SpacedDigitsAt(s, i + 3)
    else None
  }

  /** `(?:st|nd|rd|th)?` at `j`: the index past the suffix. The group is optional, so it never fails. */
  function OrdinalSuffixEnd(s: string, j: nat): (e: nat)
    ensures e == j || e == j + 2
  {
    if At(s, j, "st") || At(s, j, "nd") || At(s, j, "rd") || At(s, j, "th") then j + 2 else j
  }

  /**
   * `(\d{1,2})(?:st|nd|rd|th)?` at `j`, in the order the regex engine tries
   * it: two digits first, then one. Gives the capture and the index past the
   * match.
   */
  function DayOrdinalAt(s: string, j: nat): (r: Option<(string, nat)>)
    ensures r.Some? ==> IsDayDigits(r.value.0)
  {
    if j + 2 <= |s| && IsDigit(s[j]) && IsDigit(s[j + 1]) then Some((s[j..j + 2], OrdinalSuffixEnd(s, j + 2)))
    else if j + 1 <= |s| && IsDigit(s[j]) then Some((s[j..j + 1], OrdinalSuffixEnd(s, j + 1)))
    else None
  }

  /**
   * `\s+` followed by `DayOrdinalAt`, with backtracking: `\s+` first takes
   * `m` blanks, then gives them back one at a time down to one.
   */
  function BlanksThenDayAt(s: string, j: nat, m: nat): (r: Option<(string, nat)>)
    ensures r.Some? ==> IsDayDigits(r.value.0)
    decreases m
  {
    if m == 0 then None
    else
      match DayOrdinalAt(s, j + m)
      case Some(r) => Some(r)
      case None => BlanksThenDayAt(s, j, m - 1)
  }

  /**
   * `(?:july|jul)\s+(\d{1,2})(?:st|nd|rd|th)?` at `i`: "july" is tried
   * before "jul", and `\s+` starts from the whole run of blanks. Gives the
   * capture and the index past the match.
   */
  function MonthDayOrdinalMatch(s: string, i: nat): (r: Option<(string, nat)>)
    ensures r.Some? ==> IsDayDigits(r.value.0)
  {
    var viaJuly := if At(s, i, "july") then BlanksThenDayAt(s, i + 4, SkipSpaces(s, i + 4) - (i + 4)) else None;
    if viaJuly.Some? then viaJuly
    else if At(s, i, "jul") then BlanksThenDayAt(s, i + 3, SkipSpaces(s, i + 3) - (i + 3))
    else None
  }

  /** The capture of pattern one at `i`. */
  function MonthDayOrdinalAt(s: string, i: nat): (r: Option<string>)
    ensures r.Some? ==> IsDayDigits(r.value)
  {
    match MonthDayOrdinalMatch(s, i)
    case Some((d, _)) => Some(d)
    case None => None
  }

  /**
   * Giving back blanks puts a blank where the digits must start, so only the
   * whole run of blanks can lead to a match.
   */
  lemma {:induction false} BlanksThenDayTakesRun(s: string, j: nat, m: nat)
    requires j + m <= SkipSpaces(s, j)
    ensures BlanksThenDayAt(s, j, m) == if 0 < m && j + m == SkipSpaces(s, j) then DayOrdinalAt(s, j + m) else None
    decreases m
  {
    if 0 < m {
      if j + m < SkipSpaces(s, j) {
        assert IsSpace(s[j + m]);
      }
      BlanksThenDayTakesRun(s, j, m - 1);
    }
  }

  /**
   * Pattern one agrees with pattern six at every index. The optional suffix
   * always succeeds, so the greedy digits are never given back. Giving back
   * blanks only puts a blank where a digit must stand. And after "july" the
   * alternative "jul" is followed by `y`, not a blank.
   */
  lemma MonthDayScannersAgree(s: string, i: nat)
    ensures MonthDayOrdinalAt(s, i) == MonthDayAt(s, i)
  {
    if At(s, i, "july") {
      PrefixAtChar(s, i, "july", 0, 3);
      assert SkipSpaces(s, i + 3) == i + 3;
      SpacedDayAgrees(s, i + 4);
    } else {
      SpacedDayAgrees(s, i + 3);
    }
  }

  /** After the month word, the backtracking reading and `SpacedDigitsAt` find the same day. */
  lemma SpacedDayAgrees(s: string, j: nat)
    ensures BlanksThenDayAt(s, j, SkipSpaces(s, j) - j).Some? <==> SpacedDigitsAt(s, j).Some?
    ensures BlanksThenDayAt(s, j, SkipSpaces(s, j) - j).Some? ==>
      BlanksThenDayAt(s, j, SkipSpaces(s, j) - j).value.0 == SpacedDigitsAt(s, j).value
  {
    BlanksThenDayTakesRun(s, j, SkipSpaces(s, j) - j);
  }

  /** `(\d{1,2})-(?:july|jul)` at `i`: "july" begins with "jul", so "-jul" decides. */
  function DayDashMonthAt(s: string, i: nat): (r: Option<string>)
    ensures r.Some? ==> IsDayDigits(r.value)
  {
    match DigitsAt(s, i)
    case Some(d) => if At(s, i + |d|, "-jul") then Some(d) else None
    case None => None
  }

  /** `07\/(\d{1,2})` at `i`. */
  function MonthSlashDayAt(s: string, i: nat): (r: Option<string>)
    ensures r.Some? ==> IsDayDigits(r.value)
  {
    if At(s, i, "07/") then DigitsAt(s, i + 3) else None
  }

  /** `\w` stands at index `j`. */
  predicate WordCharAt(s: string, j: nat)
  {
    j < |s| && IsWordChar(s[j])
  }

  /** `(\d{1,2})(?:july|jul)(?!\w)` at `i`: either month word, then no word character. */
  function DayMonthJoinedAt(s: string, i: nat): (r: Option<string>)
    ensures r.Some? ==> IsDayDigits(r.value)
  {
    match DigitsAt(s, i)
    case Some(d) =>
      var j := i + |d|;
      if (At(s, j, "july") && !WordCharAt(s, j + 4)) || (At(s, j, "jul") && !WordCharAt(s, j + 3))
      then Some(d) else None
    case None => None
  }

  /** `(\d{1,2})[-\/](?:july|jul)` at `i`. */
  function DaySeparatorMonthAt(s: string, i: nat): (r: Option<string>)
    ensures r.Some? ==> IsDayDigits(r.value)
  {
    match DigitsAt(s, i)
    case Some(d) =>
      var j := i + |d|;
      if (At(s, j, "-") || At(s, j, "/")) && At(s, j + 1, "jul") then Some(d) else None
    case None => None
  }

  /** `(\d{1,2})\s+(?:july|jul)` at `i`. */
  function DaySpaceMonthAt(s: string, i: nat): (r: Option<string>)
    ensures r.Some? ==> IsDayDigits(r.value)
  {
    match DigitsAt(s, i)
    case Some(d) =>
      var j := i + |d|;
      var k := SkipSpaces(s, j);
      if k > j && At(s, k, "jul") then Some(d) else None
    case None => None
  }

  /** The seven date patterns, in the order the extractor tries them. */
  datatype DatePattern =
    | MonthDayOrdinal     // (?:july|jul)\s+(\d{1,2})(?:st|nd|rd|th)?
    | DayDashMonth        // (\d{1,2})-(?:july|jul)
    | MonthSlashDay       // 07\/(\d{1,2})
    | DayMonthJoined      // (\d{1,2})(?:july|jul)(?!\w)
    | DaySeparatorMonth   // (\d{1,2})[-\/](?:july|jul)
    | MonthDay            // (?:july|jul)\s+(\d{1,2})
    | DaySpaceMonth       // (\d{1,2})\s+(?:july|jul)

  const DatePatterns: seq<DatePattern> :=
    [MonthDayOrdinal, DayDashMonth, MonthSlashDay, DayMonthJoined, DaySeparatorMonth, MonthDay, DaySpaceMonth]

  /** The one-index scanner of a date pattern. */
  function DateScanner(p: DatePattern): (string, nat) -> Option<string>
  {
    match p
    case MonthDayOrdinal => MonthDayOrdinalAt
    case DayDashMonth => DayDashMonthAt
    case MonthSlashDay => MonthSlashDayAt
    case DayMonthJoined => DayMonthJoinedAt
    case DaySeparatorMonth => DaySeparatorMonthAt
    case MonthDay => MonthDayAt
    case DaySpaceMonth => DaySpaceMonthAt
  }

  /** `s.match(p)` for a date pattern: the day digits of the leftmost match. */
  function MatchDate(p: DatePattern, s: string): (r: Option<string>)
    ensures r.Some? ==> IsDayDigits(r.value)
  {
    SearchIsLeftmost(DateScanner(p), s, 0);
    Find(DateScanner(p), s)
  }

  /** Two scanners that agree at every index from `i` on give the same search. */
  lemma {:induction false} SearchAgrees<T>(m1: (string, nat) -> Option<T>, m2: (string, nat) -> Option<T>, s: string, i: nat)
    requires forall k :: i <= k <= |s| ==> m1(s, k) == m2(s, k)
    ensures Search(m1, s, i) == Search(m2, s, i)
    decreases |s| + 1 - i
  {
    if i <= |s| {
      SearchAgrees(m1, m2, s, i + 1);
    }
  }

  /** Pattern six accepts exactly what pattern one accepts, so it never decides a date. */
  lemma MonthDayNeverDecides(s: string)
    ensures MatchDate(MonthDay, s) == MatchDate(MonthDayOrdinal, s)
    ensures MatchDate(MonthDayOrdinal, s) == Search(MonthDayAt, s, 0)
  {
    forall k | 0 <= k <= |s| ensures MonthDayOrdinalAt(s, k) == MonthDayAt(s, k) {
      MonthDayScannersAgree(s, k);
    }
    SearchAgrees(MonthDayOrdinalAt, MonthDayAt, s, 0);
  }

  // ---------------------------------------------------------------- times

  /** The captures of one clock reading: hour digits, optional minute digits, and "am" or "pm". */
  datatype Clock12 = Clock12(hour: string, minute: Option<string>, meridiem: string)

  predicate IsClock12(c: Clock12)
  {
    IsDayDigits(c.hour)
    && (c.minute.Some? ==> |c.minute.value| == 2 && forall k :: 0 <= k < 2 ==> IsDigit(c.minute.value[k]))
    && (c.meridiem == "am" || c.meridiem == "pm")
  }

  /** `(pm|am)` at `j`. */
  function MeridiemAt(s: string, j: nat): Option<string>
  {
    if At(s, j, "pm") then Some("pm") else if At(s, j, "am") then Some("am") else None
  }

  /**
   * `(\d{1,2})(?::(\d{2}))?\s*(pm|am)` at `j` when `withMinutes`, else
   * `(\d{1,2})\s*(pm|am)`; also returns the index just past the match. If the
   * optional minute group matches but what follows fails, skipping the group
   * leaves ":" where `\s*(pm|am)` must start, which fails too.
   */
  function ClockAt(s: string, j: nat, withMinutes: bool): (r: Option<(Clock12, nat)>)
    ensures r.Some? ==> IsClock12(r.value.0) && (!withMinutes ==> r.value.0.minute.None?)
  {
    match DigitsAt(s, j)
    case None => None
    case Some(h) =>
      var afterHour := j + |h|;
      var minute :=
        if withMinutes && At(s, afterHour, ":") && DigitRun(s, afterHour + 1) == 2
        then Some(s[afterHour + 1..afterHour + 3]) else None;
      var afterMinute := if minute.Some? then afterHour + 3 else afterHour;
      var k := SkipSpaces(s, afterMinute);
      match MeridiemAt(s, k)
      case Some(m) => Some((Clock12(h, minute, m), k + 2))
      case None => None
  }

  /** `from\s+(\d{1,2})(?::(\d{2}))?\s*(pm|am)\s+to\s+(\d{1,2})(?::(\d{2}))?\s*(pm|am)` at `i`. */
  function UpdateRangeAt(s: string, i: nat): (r: Option<(Clock12, Clock12)>)
    ensures r.Some? ==> IsClock12(r.value.0) && IsClock12(r.value.1)
  {
    if !At(s, i, "from") then None
    else
      var k1 := SkipSpaces(s, i + 4);
      if k1 == i + 4 then None
      else
        match ClockAt(s, k1, true)
        case None => None
        case Some((first, e1)) =>
          var k2 := SkipSpaces(s, e1);
          if k2 == e1 || !At(s, k2, "to") then None
          else
            var k3 := SkipSpaces(s, k2 + 2);
            if k3 == k2 + 2 then None
            else
              match ClockAt(s, k3, true)
              case None => None
              case Some((second, _)) => Some((first, second))
  }

  /** `(?:to|at)\s+(\d{1,2})\s*(pm|am)` at `i`. */
  function UpdateTargetAt(s: string, i: nat): (r: Option<Clock12>)
    ensures r.Some? ==> IsClock12(r.value) && r.value.minute.None?
  {
    if !At(s, i, "to") && !At(s, i, "at") then None
    else
      var k := SkipSpaces(s, i + 2);
      if k == i + 2 then None
      else
        match ClockAt(s, k, false)
        case None => None
        case Some((c, _)) => Some(c)
  }

  /** The length of `(?:to|until|-)` at `j`, or 0 when none stands there. */
  function RangeSeparatorAt(s: string, j: nat): nat
  {
    if At(s, j, "to") then 2 else if At(s, j, "until") then 5 else if At(s, j, "-") then 1 else 0
  }

  /** `(\d{1,2})\s*(pm|am)\s+(?:to|until|-)\s+(\d{1,2})\s*(pm|am)` at `i`. */
  function TimeRangeAt(s: string, i: nat): (r: Option<(Clock12, Clock12)>)
    ensures r.Some? ==> IsClock12(r.value.0) && IsClock12(r.value.1)
    ensures r.Some? ==> r.value.0.minute.None? && r.value.1.minute.None?
  {
    match ClockAt(s, i, false)
    case None => None
    case Some((first, e1)) =>
      var k1 := SkipSpaces(s, e1);
      var sep := RangeSeparatorAt(s, k1);
      if k1 == e1 || sep == 0 then None
      else
        var k2 := SkipSpaces(s, k1 + sep);
        if k2 == k1 + sep then None
        else
          match ClockAt(s, k2, false)
          case None => None
          case Some((second, _)) => Some((first, second))
  }

  /** `(\d{1,2})\s*(am|pm)` at `i`. */
  function SingleTimeAt(s: string, i: nat): (r: Option<Clock12>)
    ensures r.Some? ==> IsClock12(r.value) && r.value.minute.None?
  {
    match ClockAt(s, i, false)
    case None => None
    case Some((c, _)) => Some(c)
  }

  /**
   * Each pattern can match only where its first character stands: a digit
   * for the patterns that open with `(\d{1,2})`, and the first letter of
   * "jul", "07/" or "from" for the others.
   */
  lemma LeadCharacters(s: string, k: nat)
    ensures (k >= |s| || !IsDigit(s[k])) ==>
      DigitsAt(s, k).None? && DayDashMonthAt(s, k).None? && DayMonthJoinedAt(s, k).None?
      && DaySeparatorMonthAt(s, k).None? && DaySpaceMonthAt(s, k).None?
      && TimeRangeAt(s, k).None? && SingleTimeAt(s, k).None?
    ensures (k >= |s| || s[k] != 'j') ==> MonthDayAt(s, k).None?
    ensures (k >= |s| || s[k] != '0') ==> MonthSlashDayAt(s, k).None?
    ensures (k >= |s| || s[k] != 'f') ==> UpdateRangeAt(s, k).None?
  {
    PrefixAtChar(s, k, "july", 0, 0);
    PrefixAtChar(s, k, "jul", 0, 0);
    PrefixAtChar(s, k, "07/", 0, 0);
    PrefixAtChar(s, k, "from", 0, 0);
  }

  /** `s.match(updateTimePattern)`: the "from" and "to" readings of the leftmost match. */
  function MatchUpdateRange(s: string): (r: Option<(Clock12, Clock12)>)
    ensures r.Some? ==> IsClock12(r.value.0) && IsClock12(r.value.1)
  {
    SearchIsLeftmost(UpdateRangeAt, s, 0);
    Find(UpdateRangeAt, s)
  }

  /** `s.match(simpleUpdatePattern)`: the reading of the leftmost match. */
  function MatchUpdateTarget(s: string): (r: Option<Clock12>)
    ensures r.Some? ==> IsClock12(r.value) && r.value.minute.None?
  {
    SearchIsLeftmost(UpdateTargetAt, s, 0);
    Find(UpdateTargetAt, s)
  }

  /** `s.match(timeRangePattern)`: the start and end readings of the leftmost match. */
  function MatchTimeRange(s: string): (r: Option<(Clock12, Clock12)>)
    ensures r.Some? ==> IsClock12(r.value.0) && IsClock12(r.value.1)
    ensures r.Some? ==> r.value.0.minute.None? && r.value.1.minute.None?
  {
    SearchIsLeftmost(TimeRangeAt, s, 0);
    Find(TimeRangeAt, s)
  }

  /** `s.match(singleTimePattern)`: the reading of the leftmost match. */
  function MatchSingleTime(s: string): (r: Option<Clock12>)
    ensures r.Some? ==> IsClock12(r.value) && r.value.minute.None?
  {
    SearchIsLeftmost(SingleTimeAt, s, 0);
    Find(SingleTimeAt, s)
  }
}
