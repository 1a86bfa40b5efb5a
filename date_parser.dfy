/**
 * The extractor of the test utility, and the message cases its Jest suite
 * checks.
 *
 * The utility's `extractInformationFromMessage` repeats the chat route's
 * extractor statement for statement (same keyword lists, date patterns,
 * time patterns and confidence bonuses, same fixed current date), so both
 * are modelled by `Extraction.Extract` and computed by
 * `ChatRoute.ExtractInformationFromMessage`. This module works out what
 * that function gives on the messages of the suite's CRUD cases and on one
 * case of its format table.
 *
 * Each case is split into small lemmas about the lowered message: the
 * keyword groups that do not occur (a three-character window of each
 * keyword that never occurs in the message), the first keyword that does,
 * each date pattern in the order it is tried, and the time pattern.
 */
module DateParser {
  import opened Wrappers
  import opened Text
  import opened Calendar
  import opened Patterns
  import opened Extraction

  // --------------------------------------------------------------- helpers

  /** The fields the cases examine, read through the lowered message. */
  lemma ExtractReads(message: string, lower: string)
    requires Lower(message) == lower
    ensures Extract(message).intent == IntentOf(lower).0
    ensures Extract(message).date == DateOf(message, lower).0
    ensures Extract(message).time == TimeOf(IntentOf(lower).0, lower).time
    ensures Extract(message).endTime == TimeOf(IntentOf(lower).0, lower).endTime
    ensures Extract(message).duration == TimeOf(IntentOf(lower).0, lower).duration
  {
  }

  /** Without "today" or "tomorrow", a pattern's day digits make a July 2025 date. */
  lemma PatternDate(message: string, lower: string, d: string)
    requires !Contains(lower, "today") && !Contains(lower, "tomorrow")
    requires FirstDateFrom(lower, 0) == Some(d)
    ensures DateOf(message, lower).0 == Some(NewDate(2025, 6, ParseDigits(d), 0, 0, 0))
  {
    YearIsAlways2025(message);
  }

  /**
   * A message in which neither "tod" nor "tom" occurs mentions neither
   * "today" nor "tomorrow", so its date comes from the patterns.
   */
  lemma NoRelativeWord(s: string)
    requires forall k :: 0 <= k && k + 5 <= |s| ==> !(s[k] == 't' && s[k + 1] == 'o' && s[k + 2] == 'd')
    requires forall k :: 0 <= k && k + 8 <= |s| ==> !(s[k] == 't' && s[k + 1] == 'o' && s[k + 2] == 'm')
    ensures !Contains(s, "today") && !Contains(s, "tomorrow")
  {
    AbsentByTrigram(s, "today", 0, 0);
    AbsentByTrigram(s, "tomorrow", 0, 0);
  }

  // ------------------------------------------------- per-message lemmas

  lemma DeleteMessageNoConfirmation(s: string)
    requires s == "delete all sessions 13-jul"
    ensures !Mentions(s, ConfirmationKeywords)
  {
    assert forall k :: 0 <= k < |s| ==> s[k] != 'y' && s[k] != 'c' && s[k] != 'r' && s[k] != 'b' && s[k] != 'g' && s[k] != 'p';
    AbsentByChar(s, "yes", 0, 0);
    AbsentByChar(s, "yeah", 0, 0);
    AbsentByChar(s, "yep", 0, 0);
    AbsentByChar(s, "confirm", 0, 0);
    AbsentByChar(s, "correct", 0, 0);
    AbsentByChar(s, "right", 0, 0);
    AbsentByChar(s, "book it", 0, 0);
    AbsentByChar(s, "go ahead", 0, 0);
    AbsentByChar(s, "proceed", 0, 0);
  }

  lemma DeleteMessageMentionsDelete(s: string)
    requires s == "delete all sessions 13-jul"
    ensures Mentions(s, DeleteKeywords)
  {
    AtByChars(s, 0, "delete", 0);
    PresentAt(s, "delete", 0, 0);
    assert Contains(s, DeleteKeywords[0]);
  }

  /** Delete words outrank the query word "sessions". */
  lemma DeleteMessageIntent(s: string)
    requires s == "delete all sessions 13-jul"
    ensures IntentOf(s) == (Delete, 70)
  {
    DeleteMessageNoConfirmation(s);
    DeleteMessageMentionsDelete(s);
  }

  lemma DeleteMessageNoOrdinalAt23(s: string)
    requires s == "delete all sessions 13-jul"
    ensures MonthDayAt(s, 23).None?
  {
    PrefixAtChar(s, 23, "july", 0, 3);
    AtByChars(s, 23, "jul", 0);
    assert SkipSpaces(s, 26) == 26;
  }

  lemma DeleteMessageNoOrdinalSkip0(s: string)
    requires s == "delete all sessions 13-jul"
    ensures Search(MonthDayAt, s, 0) == Search(MonthDayAt, s, 23)
  {
    assert forall k :: 0 <= k < 23 ==> s[k] != 'j';
    forall k | 0 <= k < 23 ensures MonthDayAt(s, k).None? {
      LeadCharacters(s, k);
    }
    SearchSkips(MonthDayAt, s, 0, 23);
  }

  lemma DeleteMessageNoOrdinalSkip23(s: string)
    requires s == "delete all sessions 13-jul"
    ensures Search(MonthDayAt, s, 23) == Search(MonthDayAt, s, 24)
  {
    DeleteMessageNoOrdinalAt23(s);
    SearchSkips(MonthDayAt, s, 23, 24);
  }

  lemma DeleteMessageNoOrdinalSkip24(s: string)
    requires s == "delete all sessions 13-jul"
    ensures Search(MonthDayAt, s, 24) == Search(MonthDayAt, s, |s| + 1)
  {
    assert forall k :: 24 <= k < |s| ==> s[k] != 'j';
    forall k | 24 <= k < |s| + 1 ensures MonthDayAt(s, k).None? {
      LeadCharacters(s, k);
    }
    SearchSkips(MonthDayAt, s, 24, |s| + 1);
  }

  lemma DeleteMessageNoOrdinal(s: string)
    requires s == "delete all sessions 13-jul"
    ensures MatchDate(MonthDayOrdinal, s) == None
  {
    MonthDayNeverDecides(s);
    DeleteMessageNoOrdinalSkip0(s);
    DeleteMessageNoOrdinalSkip23(s);
    DeleteMessageNoOrdinalSkip24(s);
  }

  lemma DeleteMessageDashAt20(s: string)
    requires s == "delete all sessions 13-jul"
    ensures DayDashMonthAt(s, 20) == Some("13")
  {
    assert DigitRun(s, 20) == 2 && s[20..22] == "13";
    assert DigitsAt(s, 20) == Some("13");
    AtByChars(s, 22, "-jul", 0);
  }

  lemma DeleteMessageDashSkip0(s: string)
    requires s == "delete all sessions 13-jul"
    ensures Search(DayDashMonthAt, s, 0) == Search(DayDashMonthAt, s, 20)
  {
    assert forall k :: 0 <= k < 20 ==> !IsDigit(s[k]);
    forall k | 0 <= k < 20 ensures DayDashMonthAt(s, k).None? {
      LeadCharacters(s, k);
    }
    SearchSkips(DayDashMonthAt, s, 0, 20);
  }

  lemma DeleteMessageDash(s: string)
    requires s == "delete all sessions 13-jul"
    ensures MatchDate(DayDashMonth, s) == Some("13")
  {
    DeleteMessageDashAt20(s);
    DeleteMessageDashSkip0(s);
  }

  /** The day comes from the second pattern. */
  lemma DeleteMessageDate(s: string)
    requires s == "delete all sessions 13-jul"
    ensures !Contains(s, "today") && !Contains(s, "tomorrow")
    ensures FirstDateFrom(s, 0) == Some("13")
  {
    NoRelativeWord(s);
    DeleteMessageNoOrdinal(s);
    DeleteMessageDash(s);
  }

  lemma BookMessageNoConfirmationTrigrams(s: string)
    requires s == "book training jul 13th 2 pm to 3 pm"
    ensures !Contains(s, "right") && !Contains(s, "book it")
  {
    AbsentByTrigram(s, "right", 0, 0);
    AbsentByTrigram(s, "book it", 3, 0);
  }

  lemma BookMessageNoConfirmation(s: string)
    requires s == "book training jul 13th 2 pm to 3 pm"
    ensures !Mentions(s, ConfirmationKeywords)
  {
    assert forall k :: 0 <= k < |s| ==> s[k] != 'y' && s[k] != 'c' && s[k] != 'e';
    AbsentByChar(s, "yes", 0, 0);
    AbsentByChar(s, "yeah", 0, 0);
    AbsentByChar(s, "yep", 0, 0);
    AbsentByChar(s, "confirm", 0, 0);
    AbsentByChar(s, "correct", 0, 0);
    BookMessageNoConfirmationTrigrams(s);
    AbsentByChar(s, "go ahead", 5, 0);
    AbsentByChar(s, "proceed", 3, 0);
  }

  lemma BookMessageNoDelete(s: string)
    requires s == "book training jul 13th 2 pm to 3 pm"
    ensures !Mentions(s, DeleteKeywords)
  {
    assert forall k :: 0 <= k < |s| ==> s[k] != 'd' && s[k] != 'e' && s[k] != 'c';
    AbsentByChar(s, "delete", 0, 0);
    AbsentByChar(s, "remove", 1, 0);
    AbsentByChar(s, "cancel", 0, 0);
    AbsentByChar(s, "clear", 0, 0);
    AbsentByChar(s, "cancel appointment", 0, 0);
    AbsentByChar(s, "cancel meeting", 0, 0);
    AbsentByChar(s, "clear calendar", 0, 0);
    AbsentByChar(s, "remove booking", 1, 0);
  }

  lemma BookMessageNoUpdate(s: string)
    requires s == "book training jul 13th 2 pm to 3 pm"
    ensures !Mentions(s, UpdateKeywords)
  {
    assert forall k :: 0 <= k < |s| ==> s[k] != 'd' && s[k] != 'c' && s[k] != 'e' && s[k] != 'v' && s[k] != 's';
    AbsentByChar(s, "update", 2, 0);
    AbsentByChar(s, "change", 0, 0);
    AbsentByChar(s, "modify", 2, 0);
    AbsentByChar(s, "edit", 0, 0);
    AbsentByChar(s, "reschedule", 1, 0);
    AbsentByChar(s, "move", 2, 0);
    AbsentByChar(s, "shift", 0, 0);
    AbsentByChar(s, "adjust", 1, 0);
    AbsentByChar(s, "change time", 0, 0);
    AbsentByChar(s, "move to", 2, 0);
  }

  lemma BookMessageNoQueryWords(s: string)
    requires s == "book training jul 13th 2 pm to 3 pm"
    ensures forall i :: 0 <= i < 8 ==> !Contains(s, QueryKeywords[i])
  {
    assert forall k :: 0 <= k < |s| ==> s[k] != 's' && s[k] != 'w' && s[k] != 'c';
    AbsentByChar(s, "show", 0, 0);
    AbsentByChar(s, "what", 0, 0);
    AbsentByChar(s, "when", 0, 0);
    AbsentByChar(s, "which", 0, 0);
    AbsentByChar(s, "sessions", 0, 0);
    AbsentByChar(s, "bookings", 7, 0);
    AbsentByChar(s, "check", 0, 0);
    AbsentByChar(s, "see", 0, 0);
  }

  lemma BookMessageNoQueryPhrases(s: string)
    requires s == "book training jul 13th 2 pm to 3 pm"
    ensures !Contains(s, "display") && !Contains(s, "tell me") && !Contains(s, "find")
  {
    assert forall k :: 0 <= k < |s| ==> s[k] != 'd' && s[k] != 'e';
    AbsentByChar(s, "display", 0, 0);
    AbsentByChar(s, "tell me", 1, 0);
    AbsentByChar(s, "find", 0, 0);
  }

  lemma BookMessageNoQueryTail(s: string)
    requires s == "book training jul 13th 2 pm to 3 pm"
    ensures !Contains(s, "have") && !Contains(s, "do i have") && !Contains(s, "list") && !Contains(s, "view")
  {
    assert forall k :: 0 <= k < |s| ==> s[k] != 'd' && s[k] != 'v' && s[k] != 's';
    AbsentByChar(s, "have", 2, 0);
    AbsentByChar(s, "do i have", 0, 0);
    AbsentByChar(s, "list", 2, 0);
    AbsentByChar(s, "view", 0, 0);
  }

  lemma BookMessageNoQuery(s: string)
    requires s == "book training jul 13th 2 pm to 3 pm"
    ensures !Mentions(s, QueryKeywords)
  {
    BookMessageNoQueryWords(s);
    BookMessageNoQueryPhrases(s);
    BookMessageNoQueryTail(s);
  }

  lemma BookMessageMentionsBooking(s: string)
    requires s == "book training jul 13th 2 pm to 3 pm"
    ensures Mentions(s, BookingKeywords)
  {
    AtByChars(s, 0, "book", 0);
    PresentAt(s, "book", 0, 0);
    assert Contains(s, BookingKeywords[0]);
  }

  /** "book it" is absent, so the booking word "book" decides. */
  lemma BookMessageIntent(s: string)
    requires s == "book training jul 13th 2 pm to 3 pm"
    ensures IntentOf(s) == (Book, 50)
  {
    BookMessageNoConfirmation(s);
    BookMessageNoDelete(s);
    BookMessageNoUpdate(s);
    BookMessageNoQuery(s);
    BookMessageMentionsBooking(s);
  }

  lemma BookMessageOrdinalAt14(s: string)
    requires s == "book training jul 13th 2 pm to 3 pm"
    ensures MonthDayAt(s, 14) == Some("13")
  {
    PrefixAtChar(s, 14, "july", 0, 3);
    AtByChars(s, 14, "jul", 0);
    assert SkipSpaces(s, 17) == 18;
    assert DigitRun(s, 18) == 2 && s[18..20] == "13";
    assert DigitsAt(s, 18) == Some("13");
    assert SpacedDigitsAt(s, 17) == Some("13");
  }

  lemma BookMessageOrdinalSkip0(s: string)
    requires s == "book training jul 13th 2 pm to 3 pm"
    ensures Search(MonthDayAt, s, 0) == Search(MonthDayAt, s, 14)
  {
    assert forall k :: 0 <= k < 14 ==> s[k] != 'j';
    forall k | 0 <= k < 14 ensures MonthDayAt(s, k).None? {
      LeadCharacters(s, k);
    }
    SearchSkips(MonthDayAt, s, 0, 14);
  }

  lemma BookMessageOrdinal(s: string)
    requires s == "book training jul 13th 2 pm to 3 pm"
    ensures MatchDate(MonthDayOrdinal, s) == Some("13")
  {
    MonthDayNeverDecides(s);
    BookMessageOrdinalAt14(s);
    BookMessageOrdinalSkip0(s);
  }

  /** The day comes from the first pattern. */
  lemma BookMessageDate(s: string)
    requires s == "book training jul 13th 2 pm to 3 pm"
    ensures !Contains(s, "today") && !Contains(s, "tomorrow")
    ensures FirstDateFrom(s, 0) == Some("13")
  {
    NoRelativeWord(s);
    BookMessageOrdinal(s);
  }

  lemma BookMessageNoRangeAt18(s: string)
    requires s == "book training jul 13th 2 pm to 3 pm"
    ensures TimeRangeAt(s, 18).None?
  {
    assert DigitRun(s, 18) == 2 && s[18..20] == "13";
    assert DigitsAt(s, 18) == Some("13");
    assert SkipSpaces(s, 20) == 20;
    PrefixAtChar(s, 20, "pm", 0, 0);
    PrefixAtChar(s, 20, "am", 0, 0);
    assert MeridiemAt(s, 20) == None;
  }

  lemma BookMessageNoMeridiemAt20(s: string)
    requires s == "book training jul 13th 2 pm to 3 pm"
    ensures SkipSpaces(s, 20) == 20 && MeridiemAt(s, 20) == None
  {
    assert s[20] == 't';
    PrefixAtChar(s, 20, "pm", 0, 0);
    PrefixAtChar(s, 20, "am", 0, 0);
  }

  lemma BookMessageNoRangeAt19(s: string)
    requires s == "book training jul 13th 2 pm to 3 pm"
    ensures TimeRangeAt(s, 19).None?
  {
    assert s[19] == '3' && s[20] == 't';
    assert DigitRun(s, 19) == 1 && s[19..20] == "3";
    assert DigitsAt(s, 19) == Some("3");
    BookMessageNoMeridiemAt20(s);
  }

  lemma BookMessageClockAt23(s: string)
    requires s == "book training jul 13th 2 pm to 3 pm"
    ensures ClockAt(s, 23, false) == Some((Clock12("2", None, "pm"), 27))
  {
    assert s[23] == '2' && s[24] == ' ' && s[25] == 'p' && s[26] == 'm';
    assert DigitRun(s, 23) == 1 && s[23..24] == "2";
    assert DigitsAt(s, 23) == Some("2");
    assert SkipSpaces(s, 25) == 25;
    assert SkipSpaces(s, 24) == 25;
    AtByChars(s, 25, "pm", 0);
    assert MeridiemAt(s, 25) == Some("pm");
  }

  lemma BookMessageClockAt31(s: string)
    requires s == "book training jul 13th 2 pm to 3 pm"
    ensures ClockAt(s, 31, false) == Some((Clock12("3", None, "pm"), 35))
  {
    assert DigitRun(s, 31) == 1 && s[31..32] == "3";
    assert DigitsAt(s, 31) == Some("3");
    assert SkipSpaces(s, 32) == 33;
    AtByChars(s, 33, "pm", 0);
    assert MeridiemAt(s, 33) == Some("pm");
  }

  lemma BookMessageSeparatorAt28(s: string)
    requires s == "book training jul 13th 2 pm to 3 pm"
    ensures SkipSpaces(s, 27) == 28 && RangeSeparatorAt(s, 28) == 2 && SkipSpaces(s, 30) == 31
  {
    assert SkipSpaces(s, 27) == 28;
    AtByChars(s, 28, "to", 0);
    assert SkipSpaces(s, 30) == 31;
  }

  lemma BookMessageRangeSkip0(s: string)
    requires s == "book training jul 13th 2 pm to 3 pm"
    ensures Search(TimeRangeAt, s, 0) == Search(TimeRangeAt, s, 18)
  {
    assert forall k :: 0 <= k < 18 ==> !IsDigit(s[k]);
    forall k | 0 <= k < 18 ensures TimeRangeAt(s, k).None? {
      LeadCharacters(s, k);
    }
    SearchSkips(TimeRangeAt, s, 0, 18);
  }

  lemma BookMessageRangeSkip18(s: string)
    requires s == "book training jul 13th 2 pm to 3 pm"
    ensures Search(TimeRangeAt, s, 18) == Search(TimeRangeAt, s, 20)
  {
    BookMessageNoRangeAt18(s);
    BookMessageNoRangeAt19(s);
    forall k | 18 <= k < 20 ensures TimeRangeAt(s, k).None? {
      assert k == 18 || k == 19;
    }
    SearchSkips(TimeRangeAt, s, 18, 20);
  }

  lemma BookMessageRangeSkip20(s: string)
    requires s == "book training jul 13th 2 pm to 3 pm"
    ensures Search(TimeRangeAt, s, 20) == Search(TimeRangeAt, s, 23)
  {
    assert forall k :: 20 <= k < 23 ==> !IsDigit(s[k]);
    forall k | 20 <= k < 23 ensures TimeRangeAt(s, k).None? {
      LeadCharacters(s, k);
    }
    SearchSkips(TimeRangeAt, s, 20, 23);
  }

  lemma BookMessageRangeAt23(s: string)
    requires s == "book training jul 13th 2 pm to 3 pm"
    ensures TimeRangeAt(s, 23) == Some((Clock12("2", None, "pm"), Clock12("3", None, "pm")))
  {
    BookMessageClockAt23(s);
    BookMessageClockAt31(s);
    BookMessageSeparatorAt28(s);
  }

  /** The range "2 pm to 3 pm"; the digits of "13th" are followed by no meridiem. */
  lemma BookMessageRange(s: string)
    requires s == "book training jul 13th 2 pm to 3 pm"
    ensures MatchTimeRange(s) == Some((Clock12("2", None, "pm"), Clock12("3", None, "pm")))
  {
    BookMessageRangeAt23(s);
    BookMessageRangeSkip0(s);
    BookMessageRangeSkip18(s);
    BookMessageRangeSkip20(s);
  }

  /** The range in 24-hour time, one hour long. */
  lemma BookMessageTime(s: string)
    requires s == "book training jul 13th 2 pm to 3 pm"
    ensures TimeOf(Book, s) == TimeFields(Some(ClockTime(14, 0)), Some(ClockTime(15, 0)), Some(1), 30)
  {
    BookMessageRange(s);
    assert ParseDigits("2") == 2 && ParseDigits("3") == 3;
  }

  lemma UpdateMessageNoConfirmation(s: string)
    requires s == "update session 07/13 from 2 pm to 3 pm"
    ensures !Mentions(s, ConfirmationKeywords)
  {
    assert forall k :: 0 <= k < |s| ==> s[k] != 'y' && s[k] != 'c' && s[k] != 'g' && s[k] != 'b';
    AbsentByChar(s, "yes", 0, 0);
    AbsentByChar(s, "yeah", 0, 0);
    AbsentByChar(s, "yep", 0, 0);
    AbsentByChar(s, "confirm", 0, 0);
    AbsentByChar(s, "correct", 0, 0);
    AbsentByChar(s, "right", 2, 0);
    AbsentByChar(s, "book it", 0, 0);
    AbsentByChar(s, "go ahead", 0, 0);
    AbsentByChar(s, "proceed", 3, 0);
  }

  lemma UpdateMessageNoDelete(s: string)
    requires s == "update session 07/13 from 2 pm to 3 pm"
    ensures !Mentions(s, DeleteKeywords)
  {
    assert forall k :: 0 <= k < |s| ==> s[k] != 'l' && s[k] != 'v' && s[k] != 'c';
    AbsentByChar(s, "delete", 2, 0);
    AbsentByChar(s, "remove", 4, 0);
    AbsentByChar(s, "cancel", 0, 0);
    AbsentByChar(s, "clear", 0, 0);
    AbsentByChar(s, "cancel appointment", 0, 0);
    AbsentByChar(s, "cancel meeting", 0, 0);
    AbsentByChar(s, "clear calendar", 0, 0);
    AbsentByChar(s, "remove booking", 4, 0);
  }

  lemma UpdateMessageMentionsUpdate(s: string)
    requires s == "update session 07/13 from 2 pm to 3 pm"
    ensures Mentions(s, UpdateKeywords)
  {
    AtByChars(s, 0, "update", 0);
    PresentAt(s, "update", 0, 0);
    assert Contains(s, UpdateKeywords[0]);
  }

  /** No confirmation or delete word, and "update" opens the message. */
  lemma UpdateMessageIntent(s: string)
    requires s == "update session 07/13 from 2 pm to 3 pm"
    ensures IntentOf(s) == (Update, 60)
  {
    UpdateMessageNoConfirmation(s);
    UpdateMessageNoDelete(s);
    UpdateMessageMentionsUpdate(s);
  }

  lemma UpdateMessageNoOrdinalSkip0(s: string)
    requires s == "update session 07/13 from 2 pm to 3 pm"
    ensures Search(MonthDayAt, s, 0) == Search(MonthDayAt, s, 19)
  {
    assert forall k :: 0 <= k < 19 ==> s[k] != 'j';
    forall k | 0 <= k < 19 ensures MonthDayAt(s, k).None? {
      LeadCharacters(s, k);
    }
    SearchSkips(MonthDayAt, s, 0, 19);
  }

  lemma UpdateMessageNoOrdinalSkip19(s: string)
    requires s == "update session 07/13 from 2 pm to 3 pm"
    ensures Search(MonthDayAt, s, 19) == Search(MonthDayAt, s, |s| + 1)
  {
    assert forall k :: 19 <= k < |s| ==> s[k] != 'j';
    forall k | 19 <= k < |s| + 1 ensures MonthDayAt(s, k).None? {
      LeadCharacters(s, k);
    }
    SearchSkips(MonthDayAt, s, 19, |s| + 1);
  }

  lemma UpdateMessageNoOrdinal(s: string)
    requires s == "update session 07/13 from 2 pm to 3 pm"
    ensures MatchDate(MonthDayOrdinal, s) == None
  {
    MonthDayNeverDecides(s);
    UpdateMessageNoOrdinalSkip0(s);
    UpdateMessageNoOrdinalSkip19(s);
  }

  lemma UpdateMessageNoDashAt15(s: string)
    requires s == "update session 07/13 from 2 pm to 3 pm"
    ensures DayDashMonthAt(s, 15).None?
  {
    assert s[15] == '0' && s[16] == '7' && s[17] == '/';
    assert DigitRun(s, 15) == 2 && s[15..17] == "07";
    assert DigitsAt(s, 15) == Some("07");
    PrefixAtChar(s, 17, "-jul", 0, 0);
  }

  lemma UpdateMessageNoDashAt16(s: string)
    requires s == "update session 07/13 from 2 pm to 3 pm"
    ensures DayDashMonthAt(s, 16).None?
  {
    assert DigitRun(s, 16) == 1 && s[16..17] == "7";
    assert DigitsAt(s, 16) == Some("7");
    PrefixAtChar(s, 17, "-jul", 0, 0);
  }

  lemma UpdateMessageNoDashAt18(s: string)
    requires s == "update session 07/13 from 2 pm to 3 pm"
    ensures DayDashMonthAt(s, 18).None?
  {
    assert DigitRun(s, 18) == 2 && s[18..20] == "13";
    assert DigitsAt(s, 18) == Some("13");
    PrefixAtChar(s, 20, "-jul", 0, 0);
  }

  lemma UpdateMessageNoDashAt19(s: string)
    requires s == "update session 07/13 from 2 pm to 3 pm"
    ensures DayDashMonthAt(s, 19).None?
  {
    assert DigitRun(s, 19) == 1 && s[19..20] == "3";
    assert DigitsAt(s, 19) == Some("3");
    PrefixAtChar(s, 20, "-jul", 0, 0);
  }

  lemma UpdateMessageNoDashAt26(s: string)
    requires s == "update session 07/13 from 2 pm to 3 pm"
    ensures DayDashMonthAt(s, 26).None?
  {
    assert DigitRun(s, 26) == 1 && s[26..27] == "2";
    assert DigitsAt(s, 26) == Some("2");
    PrefixAtChar(s, 27, "-jul", 0, 0);
  }

  lemma UpdateMessageNoDashAt34(s: string)
    requires s == "update session 07/13 from 2 pm to 3 pm"
    ensures DayDashMonthAt(s, 34).None?
  {
    assert DigitRun(s, 34) == 1 && s[34..35] == "3";
    assert DigitsAt(s, 34) == Some("3");
    PrefixAtChar(s, 35, "-jul", 0, 0);
  }

  lemma UpdateMessageNoDashSkip0(s: string)
    requires s == "update session 07/13 from 2 pm to 3 pm"
    ensures Search(DayDashMonthAt, s, 0) == Search(DayDashMonthAt, s, 15)
  {
    assert forall k :: 0 <= k < 15 ==> !IsDigit(s[k]);
    forall k | 0 <= k < 15 ensures DayDashMonthAt(s, k).None? {
      LeadCharacters(s, k);
    }
    SearchSkips(DayDashMonthAt, s, 0, 15);
  }

  lemma UpdateMessageNoDashSkip15(s: string)
    requires s == "update session 07/13 from 2 pm to 3 pm"
    ensures Search(DayDashMonthAt, s, 15) == Search(DayDashMonthAt, s, 16)
  {
    UpdateMessageNoDashAt15(s);
    SearchSkips(DayDashMonthAt, s, 15, 16);
  }

  lemma UpdateMessageNoDashSkip16(s: string)
    requires s == "update session 07/13 from 2 pm to 3 pm"
    ensures Search(DayDashMonthAt, s, 16) == Search(DayDashMonthAt, s, 17)
  {
    UpdateMessageNoDashAt16(s);
    SearchSkips(DayDashMonthAt, s, 16, 17);
  }

  lemma UpdateMessageNoDashSkip17(s: string)
    requires s == "update session 07/13 from 2 pm to 3 pm"
    ensures Search(DayDashMonthAt, s, 17) == Search(DayDashMonthAt, s, 18)
  {
    assert forall k :: 17 <= k < 18 ==> !IsDigit(s[k]);
    forall k | 17 <= k < 18 ensures DayDashMonthAt(s, k).None? {
      LeadCharacters(s, k);
    }
    SearchSkips(DayDashMonthAt, s, 17, 18);
  }

  lemma UpdateMessageNoDashSkip18(s: string)
    requires s == "update session 07/13 from 2 pm to 3 pm"
    ensures Search(DayDashMonthAt, s, 18) == Search(DayDashMonthAt, s, 19)
  {
    UpdateMessageNoDashAt18(s);
    SearchSkips(DayDashMonthAt, s, 18, 19);
  }

  lemma UpdateMessageNoDashSkip19(s: string)
    requires s == "update session 07/13 from 2 pm to 3 pm"
    ensures Search(DayDashMonthAt, s, 19) == Search(DayDashMonthAt, s, 20)
  {
    UpdateMessageNoDashAt19(s);
    SearchSkips(DayDashMonthAt, s, 19, 20);
  }

  lemma UpdateMessageNoDashSkip20(s: string)
    requires s == "update session 07/13 from 2 pm to 3 pm"
    ensures Search(DayDashMonthAt, s, 20) == Search(DayDashMonthAt, s, 26)
  {
    assert forall k :: 20 <= k < 26 ==> !IsDigit(s[k]);
    forall k | 20 <= k < 26 ensures DayDashMonthAt(s, k).None? {
      LeadCharacters(s, k);
    }
    SearchSkips(DayDashMonthAt, s, 20, 26);
  }

  lemma UpdateMessageNoDashSkip26(s: string)
    requires s == "update session 07/13 from 2 pm to 3 pm"
    ensures Search(DayDashMonthAt, s, 26) == Search(DayDashMonthAt, s, 27)
  {
    UpdateMessageNoDashAt26(s);
    SearchSkips(DayDashMonthAt, s, 26, 27);
  }

  lemma UpdateMessageNoDashSkip27(s: string)
    requires s == "update session 07/13 from 2 pm to 3 pm"
    ensures Search(DayDashMonthAt, s, 27) == Search(DayDashMonthAt, s, 34)
  {
    assert forall k :: 27 <= k < 34 ==> !IsDigit(s[k]);
    forall k | 27 <= k < 34 ensures DayDashMonthAt(s, k).None? {
      LeadCharacters(s, k);
    }
    SearchSkips(DayDashMonthAt, s, 27, 34);
  }

  lemma UpdateMessageNoDashSkip34(s: string)
    requires s == "update session 07/13 from 2 pm to 3 pm"
    ensures Search(DayDashMonthAt, s, 34) == Search(DayDashMonthAt, s, 35)
  {
    UpdateMessageNoDashAt34(s);
    SearchSkips(DayDashMonthAt, s, 34, 35);
  }

  lemma UpdateMessageNoDashSkip35(s: string)
    requires s == "update session 07/13 from 2 pm to 3 pm"
    ensures Search(DayDashMonthAt, s, 35) == Search(DayDashMonthAt, s, |s| + 1)
  {
    assert forall k :: 35 <= k < |s| ==> !IsDigit(s[k]);
    forall k | 35 <= k < |s| + 1 ensures DayDashMonthAt(s, k).None? {
      LeadCharacters(s, k);
    }
    SearchSkips(DayDashMonthAt, s, 35, |s| + 1);
  }

  lemma UpdateMessageNoDash(s: string)
    requires s == "update session 07/13 from 2 pm to 3 pm"
    ensures MatchDate(DayDashMonth, s) == None
  {
    UpdateMessageNoDashSkip0(s);
    UpdateMessageNoDashSkip15(s);
    UpdateMessageNoDashSkip16(s);
    UpdateMessageNoDashSkip17(s);
    UpdateMessageNoDashSkip18(s);
    UpdateMessageNoDashSkip19(s);
    UpdateMessageNoDashSkip20(s);
    UpdateMessageNoDashSkip26(s);
    UpdateMessageNoDashSkip27(s);
    UpdateMessageNoDashSkip34(s);
    UpdateMessageNoDashSkip35(s);
  }

  lemma UpdateMessageSlashAt15(s: string)
    requires s == "update session 07/13 from 2 pm to 3 pm"
    ensures MonthSlashDayAt(s, 15) == Some("13")
  {
    AtByChars(s, 15, "07/", 0);
    assert DigitRun(s, 18) == 2 && s[18..20] == "13";
    assert DigitsAt(s, 18) == Some("13");
  }

  lemma UpdateMessageSlashSkip0(s: string)
    requires s == "update session 07/13 from 2 pm to 3 pm"
    ensures Search(MonthSlashDayAt, s, 0) == Search(MonthSlashDayAt, s, 15)
  {
    assert forall k :: 0 <= k < 15 ==> s[k] != '0';
    forall k | 0 <= k < 15 ensures MonthSlashDayAt(s, k).None? {
      LeadCharacters(s, k);
    }
    SearchSkips(MonthSlashDayAt, s, 0, 15);
  }

  lemma UpdateMessageSlash(s: string)
    requires s == "update session 07/13 from 2 pm to 3 pm"
    ensures MatchDate(MonthSlashDay, s) == Some("13")
  {
    UpdateMessageSlashAt15(s);
    UpdateMessageSlashSkip0(s);
  }

  /** The day comes from the third pattern. */
  lemma UpdateMessageDate(s: string)
    requires s == "update session 07/13 from 2 pm to 3 pm"
    ensures !Contains(s, "today") && !Contains(s, "tomorrow")
    ensures FirstDateFrom(s, 0) == Some("13")
  {
    NoRelativeWord(s);
    UpdateMessageNoOrdinal(s);
    UpdateMessageNoDash(s);
    UpdateMessageSlash(s);
  }

  lemma UpdateMessageFromAt21(s: string)
    requires s == "update session 07/13 from 2 pm to 3 pm"
    ensures At(s, 21, "from") && SkipSpaces(s, 25) == 26
  {
    AtByChars(s, 21, "from", 0);
    assert SkipSpaces(s, 25) == 26;
  }

  lemma UpdateMessageClockAt26(s: string)
    requires s == "update session 07/13 from 2 pm to 3 pm"
    ensures ClockAt(s, 26, true) == Some((Clock12("2", None, "pm"), 30))
  {
    assert DigitRun(s, 26) == 1 && s[26..27] == "2";
    assert DigitsAt(s, 26) == Some("2");
    PrefixAtChar(s, 27, ":", 0, 0);
    assert SkipSpaces(s, 27) == 28;
    AtByChars(s, 28, "pm", 0);
    assert MeridiemAt(s, 28) == Some("pm");
  }

  lemma UpdateMessageToAt31(s: string)
    requires s == "update session 07/13 from 2 pm to 3 pm"
    ensures SkipSpaces(s, 30) == 31 && At(s, 31, "to") && SkipSpaces(s, 33) == 34
  {
    assert SkipSpaces(s, 30) == 31;
    AtByChars(s, 31, "to", 0);
    assert SkipSpaces(s, 33) == 34;
  }

  lemma UpdateMessageClockAt34(s: string)
    requires s == "update session 07/13 from 2 pm to 3 pm"
    ensures ClockAt(s, 34, true) == Some((Clock12("3", None, "pm"), 38))
  {
    assert DigitRun(s, 34) == 1 && s[34..35] == "3";
    assert DigitsAt(s, 34) == Some("3");
    PrefixAtChar(s, 35, ":", 0, 0);
    assert SkipSpaces(s, 35) == 36;
    AtByChars(s, 36, "pm", 0);
    assert MeridiemAt(s, 36) == Some("pm");
  }

  lemma UpdateMessageRangeSkip0(s: string)
    requires s == "update session 07/13 from 2 pm to 3 pm"
    ensures Search(UpdateRangeAt, s, 0) == Search(UpdateRangeAt, s, 21)
  {
    assert forall k :: 0 <= k < 21 ==> s[k] != 'f';
    forall k | 0 <= k < 21 ensures UpdateRangeAt(s, k).None? {
      LeadCharacters(s, k);
    }
    SearchSkips(UpdateRangeAt, s, 0, 21);
  }

  lemma UpdateMessageRangeAt21(s: string)
    requires s == "update session 07/13 from 2 pm to 3 pm"
    ensures UpdateRangeAt(s, 21) == Some((Clock12("2", None, "pm"), Clock12("3", None, "pm")))
  {
    UpdateMessageFromAt21(s);
    UpdateMessageClockAt26(s);
    UpdateMessageToAt31(s);
    UpdateMessageClockAt34(s);
  }

  /** The "from 2 pm to 3 pm" clause. */
  lemma UpdateMessageRange(s: string)
    requires s == "update session 07/13 from 2 pm to 3 pm"
    ensures MatchUpdateRange(s) == Some((Clock12("2", None, "pm"), Clock12("3", None, "pm")))
  {
    UpdateMessageRangeAt21(s);
    UpdateMessageRangeSkip0(s);
  }

  /** The new time is the "to" reading, in 24-hour time. */
  lemma UpdateMessageTime(s: string)
    requires s == "update session 07/13 from 2 pm to 3 pm"
    ensures TimeOf(Update, s) == TimeFields(Some(ClockTime(15, 0)), None, None, 40)
  {
    UpdateMessageRange(s);
    assert ParseDigits("3") == 3;
  }

  lemma QueryMessageNoConfirmation(s: string)
    requires s == "show me sessions 13jul"
    ensures !Mentions(s, ConfirmationKeywords)
  {
    assert forall k :: 0 <= k < |s| ==> s[k] != 'y' && s[k] != 'c' && s[k] != 'r' && s[k] != 'b' && s[k] != 'g' && s[k] != 'p';
    AbsentByChar(s, "yes", 0, 0);
    AbsentByChar(s, "yeah", 0, 0);
    AbsentByChar(s, "yep", 0, 0);
    AbsentByChar(s, "confirm", 0, 0);
    AbsentByChar(s, "correct", 0, 0);
    AbsentByChar(s, "right", 0, 0);
    AbsentByChar(s, "book it", 0, 0);
    AbsentByChar(s, "go ahead", 0, 0);
    AbsentByChar(s, "proceed", 0, 0);
  }

  lemma QueryMessageNoDelete(s: string)
    requires s == "show me sessions 13jul"
    ensures !Mentions(s, DeleteKeywords)
  {
    assert forall k :: 0 <= k < |s| ==> s[k] != 'd' && s[k] != 'r' && s[k] != 'c';
    AbsentByChar(s, "delete", 0, 0);
    AbsentByChar(s, "remove", 0, 0);
    AbsentByChar(s, "cancel", 0, 0);
    AbsentByChar(s, "clear", 0, 0);
    AbsentByChar(s, "cancel appointment", 0, 0);
    AbsentByChar(s, "cancel meeting", 0, 0);
    AbsentByChar(s, "clear calendar", 0, 0);
    AbsentByChar(s, "remove booking", 0, 0);
  }

  lemma QueryMessageNoUpdate(s: string)
    requires s == "show me sessions 13jul"
    ensures !Mentions(s, UpdateKeywords)
  {
    assert forall k :: 0 <= k < |s| ==> s[k] != 'p' && s[k] != 'c' && s[k] != 'd' && s[k] != 'r' && s[k] != 'v' && s[k] != 'f' && s[k] != 'a';
    AbsentByChar(s, "update", 1, 0);
    AbsentByChar(s, "change", 0, 0);
    AbsentByChar(s, "modify", 2, 0);
    AbsentByChar(s, "edit", 1, 0);
    AbsentByChar(s, "reschedule", 0, 0);
    AbsentByChar(s, "move", 2, 0);
    AbsentByChar(s, "shift", 3, 0);
    AbsentByChar(s, "adjust", 0, 0);
    AbsentByChar(s, "change time", 0, 0);
    AbsentByChar(s, "move to", 2, 0);
  }

  lemma QueryMessageMentionsQuery(s: string)
    requires s == "show me sessions 13jul"
    ensures Mentions(s, QueryKeywords)
  {
    AtByChars(s, 0, "show", 0);
    PresentAt(s, "show", 0, 0);
    assert Contains(s, QueryKeywords[0]);
  }

  /** Only query words occur: "show" and "sessions". */
  lemma QueryMessageIntent(s: string)
    requires s == "show me sessions 13jul"
    ensures IntentOf(s) == (Query, 60)
  {
    QueryMessageNoConfirmation(s);
    QueryMessageNoDelete(s);
    QueryMessageNoUpdate(s);
    QueryMessageMentionsQuery(s);
  }

  lemma QueryMessageNoOrdinalAt19(s: string)
    requires s == "show me sessions 13jul"
    ensures MonthDayAt(s, 19).None?
  {
    PrefixAtChar(s, 19, "july", 0, 3);
    AtByChars(s, 19, "jul", 0);
    assert SkipSpaces(s, 22) == 22;
  }

  lemma QueryMessageNoOrdinalSkip0(s: string)
    requires s == "show me sessions 13jul"
    ensures Search(MonthDayAt, s, 0) == Search(MonthDayAt, s, 19)
  {
    assert forall k :: 0 <= k < 19 ==> s[k] != 'j';
    forall k | 0 <= k < 19 ensures MonthDayAt(s, k).None? {
      LeadCharacters(s, k);
    }
    SearchSkips(MonthDayAt, s, 0, 19);
  }

  lemma QueryMessageNoOrdinalSkip19(s: string)
    requires s == "show me sessions 13jul"
    ensures Search(MonthDayAt, s, 19) == Search(MonthDayAt, s, 20)
  {
    QueryMessageNoOrdinalAt19(s);
    SearchSkips(MonthDayAt, s, 19, 20);
  }

  lemma QueryMessageNoOrdinalSkip20(s: string)
    requires s == "show me sessions 13jul"
    ensures Search(MonthDayAt, s, 20) == Search(MonthDayAt, s, |s| + 1)
  {
    assert forall k :: 20 <= k < |s| ==> s[k] != 'j';
    forall k | 20 <= k < |s| + 1 ensures MonthDayAt(s, k).None? {
      LeadCharacters(s, k);
    }
    SearchSkips(MonthDayAt, s, 20, |s| + 1);
  }

  lemma QueryMessageNoOrdinal(s: string)
    requires s == "show me sessions 13jul"
    ensures MatchDate(MonthDayOrdinal, s) == None
  {
    MonthDayNeverDecides(s);
    QueryMessageNoOrdinalSkip0(s);
    QueryMessageNoOrdinalSkip19(s);
    QueryMessageNoOrdinalSkip20(s);
  }

  lemma QueryMessageNoDashAt17(s: string)
    requires s == "show me sessions 13jul"
    ensures DayDashMonthAt(s, 17).None?
  {
    assert DigitRun(s, 17) == 2 && s[17..19] == "13";
    assert DigitsAt(s, 17) == Some("13");
    PrefixAtChar(s, 19, "-jul", 0, 0);
  }

  lemma QueryMessageNoDashAt18(s: string)
    requires s == "show me sessions 13jul"
    ensures DayDashMonthAt(s, 18).None?
  {
    assert DigitRun(s, 18) == 1 && s[18..19] == "3";
    assert DigitsAt(s, 18) == Some("3");
    PrefixAtChar(s, 19, "-jul", 0, 0);
  }

  lemma QueryMessageNoDashSkip0(s: string)
    requires s == "show me sessions 13jul"
    ensures Search(DayDashMonthAt, s, 0) == Search(DayDashMonthAt, s, 17)
  {
    assert forall k :: 0 <= k < 17 ==> !IsDigit(s[k]);
    forall k | 0 <= k < 17 ensures DayDashMonthAt(s, k).None? {
      LeadCharacters(s, k);
    }
    SearchSkips(DayDashMonthAt, s, 0, 17);
  }

  lemma QueryMessageNoDashSkip17(s: string)
    requires s == "show me sessions 13jul"
    ensures Search(DayDashMonthAt, s, 17) == Search(DayDashMonthAt, s, 18)
  {
    QueryMessageNoDashAt17(s);
    SearchSkips(DayDashMonthAt, s, 17, 18);
  }

  lemma QueryMessageNoDashSkip18(s: string)
    requires s == "show me sessions 13jul"
    ensures Search(DayDashMonthAt, s, 18) == Search(DayDashMonthAt, s, 19)
  {
    QueryMessageNoDashAt18(s);
    SearchSkips(DayDashMonthAt, s, 18, 19);
  }

  lemma QueryMessageNoDashSkip19(s: string)
    requires s == "show me sessions 13jul"
    ensures Search(DayDashMonthAt, s, 19) == Search(DayDashMonthAt, s, |s| + 1)
  {
    assert forall k :: 19 <= k < |s| ==> !IsDigit(s[k]);
    forall k | 19 <= k < |s| + 1 ensures DayDashMonthAt(s, k).None? {
      LeadCharacters(s, k);
    }
    SearchSkips(DayDashMonthAt, s, 19, |s| + 1);
  }

  lemma QueryMessageNoDash(s: string)
    requires s == "show me sessions 13jul"
    ensures MatchDate(DayDashMonth, s) == None
  {
    QueryMessageNoDashSkip0(s);
    QueryMessageNoDashSkip17(s);
    QueryMessageNoDashSkip18(s);
    QueryMessageNoDashSkip19(s);
  }

  lemma QueryMessageNoSlashSkip0(s: string)
    requires s == "show me sessions 13jul"
    ensures Search(MonthSlashDayAt, s, 0) == Search(MonthSlashDayAt, s, |s| + 1)
  {
    assert forall k :: 0 <= k < |s| ==> s[k] != '0';
    forall k | 0 <= k < |s| + 1 ensures MonthSlashDayAt(s, k).None? {
      LeadCharacters(s, k);
    }
    SearchSkips(MonthSlashDayAt, s, 0, |s| + 1);
  }

  lemma QueryMessageNoSlash(s: string)
    requires s == "show me sessions 13jul"
    ensures MatchDate(MonthSlashDay, s) == None
  {
    QueryMessageNoSlashSkip0(s);
  }

  lemma QueryMessageJoinedAt17(s: string)
    requires s == "show me sessions 13jul"
    ensures DayMonthJoinedAt(s, 17) == Some("13")
  {
    assert DigitRun(s, 17) == 2 && s[17..19] == "13";
    assert DigitsAt(s, 17) == Some("13");
    PrefixAtChar(s, 19, "july", 0, 3);
    AtByChars(s, 19, "jul", 0);
    assert !WordCharAt(s, 22);
  }

  lemma QueryMessageJoinedSkip0(s: string)
    requires s == "show me sessions 13jul"
    ensures Search(DayMonthJoinedAt, s, 0) == Search(DayMonthJoinedAt, s, 17)
  {
    assert forall k :: 0 <= k < 17 ==> !IsDigit(s[k]);
    forall k | 0 <= k < 17 ensures DayMonthJoinedAt(s, k).None? {
      LeadCharacters(s, k);
    }
    SearchSkips(DayMonthJoinedAt, s, 0, 17);
  }

  lemma QueryMessageJoined(s: string)
    requires s == "show me sessions 13jul"
    ensures MatchDate(DayMonthJoined, s) == Some("13")
  {
    QueryMessageJoinedAt17(s);
    QueryMessageJoinedSkip0(s);
  }

  /** The day comes from the fourth pattern. */
  lemma QueryMessageDate(s: string)
    requires s == "show me sessions 13jul"
    ensures !Contains(s, "today") && !Contains(s, "tomorrow")
    ensures FirstDateFrom(s, 0) == Some("13")
  {
    NoRelativeWord(s);
    QueryMessageNoOrdinal(s);
    QueryMessageNoDash(s);
    QueryMessageNoSlash(s);
    QueryMessageJoined(s);
  }

  /** The characters of the plain booking messages: none starts a keyword of another intent. */
  predicate IsPlainChar(c: char)
  {
    c == ' ' || c == '-' || '0' <= c <= '9' || 'a' <= c <= 'b' || c == 'g' || 'i' <= c <= 'p' || c == 'r' || 't' <= c <= 'u' || c == 'y'
  }

  /**
   * A message that starts with "book", has none of the characters c, d, e,
   * f, h, s, v, w, and no "i" after a blank: no keyword of another intent
   * can occur in it.
   */
  predicate OnlyBookingWord(s: string)
  {
    4 <= |s| && s[0] == 'b' && s[1] == 'o' && s[2] == 'o' && s[3] == 'k'
    && (forall k :: 0 <= k < |s| ==> IsPlainChar(s[k]))
    && (forall k :: 0 < k < |s| && s[k] == 'i' ==> s[k - 1] != ' ')
  }

  lemma OnlyBookingWordNoConfirmation(s: string)
    requires OnlyBookingWord(s)
    ensures !Mentions(s, ConfirmationKeywords)
  {
    assert forall k :: 0 <= k < |s| ==> s[k] != 'c' && s[k] != 'd' && s[k] != 'e' && s[k] != 'f';
    assert forall k :: 0 <= k < |s| ==> s[k] != 'h' && s[k] != 's' && s[k] != 'v' && s[k] != 'w';
    AbsentByChar(s, "yes", 1, 0);
    AbsentByChar(s, "yeah", 1, 0);
    AbsentByChar(s, "yep", 1, 0);
    AbsentByChar(s, "confirm", 0, 0);
    AbsentByChar(s, "correct", 0, 0);
    AbsentByChar(s, "right", 3, 0);
    var w := "book it";
    forall k | 3 <= k && k + |w| - 3 <= |s| ensures !(s[k] == w[3] && s[k + 1] == w[4] && s[k + 2] == w[5]) {
      assert s[k + 1] == 'i' ==> s[k] != ' ';
    }
    AbsentByTrigram(s, w, 3, 0);
    AbsentByChar(s, "go ahead", 4, 0);
    AbsentByChar(s, "proceed", 3, 0);
  }

  lemma OnlyBookingWordNoDelete(s: string)
    requires OnlyBookingWord(s)
    ensures !Mentions(s, DeleteKeywords)
  {
    assert forall k :: 0 <= k < |s| ==> s[k] != 'c' && s[k] != 'd' && s[k] != 'e' && s[k] != 'f';
    assert forall k :: 0 <= k < |s| ==> s[k] != 'h' && s[k] != 's' && s[k] != 'v' && s[k] != 'w';
    AbsentByChar(s, "delete", 0, 0);
    AbsentByChar(s, "remove", 1, 0);
    AbsentByChar(s, "cancel", 0, 0);
    AbsentByChar(s, "clear", 0, 0);
    AbsentByChar(s, "cancel appointment", 0, 0);
    AbsentByChar(s, "cancel meeting", 0, 0);
    AbsentByChar(s, "clear calendar", 0, 0);
    AbsentByChar(s, "remove booking", 1, 0);
  }

  lemma OnlyBookingWordNoUpdate(s: string)
    requires OnlyBookingWord(s)
    ensures !Mentions(s, UpdateKeywords)
  {
    assert forall k :: 0 <= k < |s| ==> s[k] != 'c' && s[k] != 'd' && s[k] != 'e' && s[k] != 'f';
    assert forall k :: 0 <= k < |s| ==> s[k] != 'h' && s[k] != 's' && s[k] != 'v' && s[k] != 'w';
    AbsentByChar(s, "update", 2, 0);
    AbsentByChar(s, "change", 0, 0);
    AbsentByChar(s, "modify", 2, 0);
    AbsentByChar(s, "edit", 0, 0);
    AbsentByChar(s, "reschedule", 1, 0);
    AbsentByChar(s, "move", 2, 0);
    AbsentByChar(s, "shift", 0, 0);
    AbsentByChar(s, "adjust", 1, 0);
    AbsentByChar(s, "change time", 0, 0);
    AbsentByChar(s, "move to", 2, 0);
  }

  lemma OnlyBookingWordNoQuery(s: string)
    requires OnlyBookingWord(s)
    ensures !Mentions(s, QueryKeywords)
  {
    assert forall k :: 0 <= k < |s| ==> s[k] != 'c' && s[k] != 'd' && s[k] != 'e' && s[k] != 'f';
    assert forall k :: 0 <= k < |s| ==> s[k] != 'h' && s[k] != 's' && s[k] != 'v' && s[k] != 'w';
    AbsentByChar(s, "show", 0, 0);
    AbsentByChar(s, "what", 0, 0);
    AbsentByChar(s, "when", 0, 0);
    AbsentByChar(s, "which", 0, 0);
    AbsentByChar(s, "sessions", 0, 0);
    AbsentByChar(s, "bookings", 7, 0);
    AbsentByChar(s, "check", 0, 0);
    AbsentByChar(s, "see", 0, 0);
    AbsentByChar(s, "display", 0, 0);
    AbsentByChar(s, "tell me", 1, 0);
    AbsentByChar(s, "find", 0, 0);
    AbsentByChar(s, "have", 0, 0);
    AbsentByChar(s, "do i have", 0, 0);
    AbsentByChar(s, "list", 2, 0);
    AbsentByChar(s, "view", 0, 0);
  }

  /** Such a message is a booking: "book" decides, with the bonus of 50. */
  lemma OnlyBookingWordIntent(s: string)
    requires OnlyBookingWord(s)
    ensures IntentOf(s) == (Book, 50)
  {
    OnlyBookingWordNoConfirmation(s);
    OnlyBookingWordNoDelete(s);
    OnlyBookingWordNoUpdate(s);
    OnlyBookingWordNoQuery(s);
    AtByChars(s, 0, "book", 0);
    PresentAt(s, "book", 0, 0);
    assert Contains(s, BookingKeywords[0]);
  }

  lemma HourAfterMonthOrdinalAt17(s: string)
    requires s == "book training 13-jul 2 pm to 3 pm"
    ensures MonthDayAt(s, 17) == Some("2")
  {
    PrefixAtChar(s, 17, "july", 0, 3);
    AtByChars(s, 17, "jul", 0);
    assert SkipSpaces(s, 20) == 21;
    assert DigitRun(s, 21) == 1 && s[21..22] == "2";
    assert DigitsAt(s, 21) == Some("2");
    assert SpacedDigitsAt(s, 20) == Some("2");
  }

  lemma HourAfterMonthOrdinalSkip0(s: string)
    requires s == "book training 13-jul 2 pm to 3 pm"
    ensures Search(MonthDayAt, s, 0) == Search(MonthDayAt, s, 17)
  {
    assert forall k :: 0 <= k < 17 ==> s[k] != 'j';
    forall k | 0 <= k < 17 ensures MonthDayAt(s, k).None? {
      LeadCharacters(s, k);
    }
    SearchSkips(MonthDayAt, s, 0, 17);
  }

  lemma HourAfterMonthOrdinal(s: string)
    requires s == "book training 13-jul 2 pm to 3 pm"
    ensures MatchDate(MonthDayOrdinal, s) == Some("2")
  {
    MonthDayNeverDecides(s);
    HourAfterMonthOrdinalAt17(s);
    HourAfterMonthOrdinalSkip0(s);
  }

  lemma HourAfterMonthOnlyBookingWord(s: string)
    requires s == "book training 13-jul 2 pm to 3 pm"
    ensures OnlyBookingWord(s)
  {
  }

  /** The first pattern takes the hour that follows "jul". */
  lemma HourAfterMonthDate(s: string)
    requires s == "book training 13-jul 2 pm to 3 pm"
    ensures !Contains(s, "today") && !Contains(s, "tomorrow")
    ensures FirstDateFrom(s, 0) == Some("2")
  {
    NoRelativeWord(s);
    HourAfterMonthOrdinal(s);
  }

  lemma HourAfterJoinedMonthOrdinalAt16(s: string)
    requires s == "book training 13jul 2 pm to 3 pm"
    ensures MonthDayAt(s, 16) == Some("2")
  {
    PrefixAtChar(s, 16, "july", 0, 3);
    AtByChars(s, 16, "jul", 0);
    assert SkipSpaces(s, 19) == 20;
    assert DigitRun(s, 20) == 1 && s[20..21] == "2";
    assert DigitsAt(s, 20) == Some("2");
    assert SpacedDigitsAt(s, 19) == Some("2");
  }

  lemma HourAfterJoinedMonthOrdinalSkip0(s: string)
    requires s == "book training 13jul 2 pm to 3 pm"
    ensures Search(MonthDayAt, s, 0) == Search(MonthDayAt, s, 16)
  {
    assert forall k :: 0 <= k < 16 ==> s[k] != 'j';
    forall k | 0 <= k < 16 ensures MonthDayAt(s, k).None? {
      LeadCharacters(s, k);
    }
    SearchSkips(MonthDayAt, s, 0, 16);
  }

  lemma HourAfterJoinedMonthOrdinal(s: string)
    requires s == "book training 13jul 2 pm to 3 pm"
    ensures MatchDate(MonthDayOrdinal, s) == Some("2")
  {
    MonthDayNeverDecides(s);
    HourAfterJoinedMonthOrdinalAt16(s);
    HourAfterJoinedMonthOrdinalSkip0(s);
  }

  lemma HourAfterJoinedMonthOnlyBookingWord(s: string)
    requires s == "book training 13jul 2 pm to 3 pm"
    ensures OnlyBookingWord(s)
  {
  }

  /** The first pattern also takes the hour after a "jul" joined to the day. */
  lemma HourAfterJoinedMonthDate(s: string)
    requires s == "book training 13jul 2 pm to 3 pm"
    ensures !Contains(s, "today") && !Contains(s, "tomorrow")
    ensures FirstDateFrom(s, 0) == Some("2")
  {
    NoRelativeWord(s);
    HourAfterJoinedMonthOrdinal(s);
  }

  lemma HourAfterMonthNameOrdinalAt17(s: string)
    requires s == "book training 13 july 2 pm to 3 pm"
    ensures MonthDayAt(s, 17) == Some("2")
  {
    AtByChars(s, 17, "july", 0);
    assert SkipSpaces(s, 21) == 22;
    assert DigitRun(s, 22) == 1 && s[22..23] == "2";
    assert DigitsAt(s, 22) == Some("2");
    assert SpacedDigitsAt(s, 21) == Some("2");
  }

  lemma HourAfterMonthNameOrdinalSkip0(s: string)
    requires s == "book training 13 july 2 pm to 3 pm"
    ensures Search(MonthDayAt, s, 0) == Search(MonthDayAt, s, 17)
  {
    assert forall k :: 0 <= k < 17 ==> s[k] != 'j';
    forall k | 0 <= k < 17 ensures MonthDayAt(s, k).None? {
      LeadCharacters(s, k);
    }
    SearchSkips(MonthDayAt, s, 0, 17);
  }

  lemma HourAfterMonthNameOrdinal(s: string)
    requires s == "book training 13 july 2 pm to 3 pm"
    ensures MatchDate(MonthDayOrdinal, s) == Some("2")
  {
    MonthDayNeverDecides(s);
    HourAfterMonthNameOrdinalAt17(s);
    HourAfterMonthNameOrdinalSkip0(s);
  }

  lemma HourAfterMonthNameOnlyBookingWord(s: string)
    requires s == "book training 13 july 2 pm to 3 pm"
    ensures OnlyBookingWord(s)
  {
  }

  /** The first pattern takes the hour after "july" written out after the day. */
  lemma HourAfterMonthNameDate(s: string)
    requires s == "book training 13 july 2 pm to 3 pm"
    ensures !Contains(s, "today") && !Contains(s, "tomorrow")
    ensures FirstDateFrom(s, 0) == Some("2")
  {
    NoRelativeWord(s);
    HourAfterMonthNameOrdinal(s);
  }

  // ------------------------------------------------------------ the cases

  /** The fields of the DELETE message, from the lemmas about its lowered text. */
  lemma DeleteMessageFields(m: string, s: string)
    requires s == "delete all sessions 13-jul" && Lower(m) == s
    ensures Extract(m).intent == Delete
    ensures Extract(m).date == Some(NewDate(2025, 6, 13, 0, 0, 0))
  {
    ExtractReads(m, s);
    DeleteMessageIntent(s);
    DeleteMessageDate(s);
    PatternDate(m, s, "13");
    assert ParseDigits("13") == 13;
  }

  /** "DELETE with 13-Jul format": a delete, dated 13 July 2025. */
  lemma DeleteWithDayDashMonth()
    ensures Extract("delete all sessions 13-Jul").intent == Delete
    ensures Extract("delete all sessions 13-Jul").date == Some(NewDate(2025, 6, 13, 0, 0, 0))
  {
    LowerIs("delete all sessions 13-Jul", "delete all sessions 13-jul");
    DeleteMessageFields("delete all sessions 13-Jul", "delete all sessions 13-jul");
  }

  /** The fields of the CREATE message, from the lemmas about its lowered text. */
  lemma BookMessageFields(m: string, s: string)
    requires s == "book training jul 13th 2 pm to 3 pm" && Lower(m) == s
    ensures Extract(m).intent == Book
    ensures Extract(m).date == Some(NewDate(2025, 6, 13, 0, 0, 0))
    ensures Extract(m).time == Some(ClockTime(14, 0))
    ensures Extract(m).endTime == Some(ClockTime(15, 0))
    ensures Extract(m).duration == Some(1)
  {
    ExtractReads(m, s);
    BookMessageIntent(s);
    BookMessageDate(s);
    PatternDate(m, s, "13");
    assert ParseDigits("13") == 13;
    BookMessageTime(s);
  }

  /** "CREATE with Jul 13th format": a booking on 13 July 2025 from 14:00 to 15:00. */
  lemma CreateWithMonthDayOrdinal()
    ensures Extract("book training Jul 13th 2 PM to 3 PM").intent == Book
    ensures Extract("book training Jul 13th 2 PM to 3 PM").date == Some(NewDate(2025, 6, 13, 0, 0, 0))
    ensures Extract("book training Jul 13th 2 PM to 3 PM").time == Some(ClockTime(14, 0))
    ensures Extract("book training Jul 13th 2 PM to 3 PM").endTime == Some(ClockTime(15, 0))
    ensures Extract("book training Jul 13th 2 PM to 3 PM").duration == Some(1)
  {
    LowerIs("book training Jul 13th 2 PM to 3 PM", "book training jul 13th 2 pm to 3 pm");
    BookMessageFields("book training Jul 13th 2 PM to 3 PM", "book training jul 13th 2 pm to 3 pm");
  }

  /** The fields of the UPDATE message, from the lemmas about its lowered text. */
  lemma UpdateMessageFields(m: string, s: string)
    requires s == "update session 07/13 from 2 pm to 3 pm" && Lower(m) == s
    ensures Extract(m).intent == Update
    ensures Extract(m).date == Some(NewDate(2025, 6, 13, 0, 0, 0))
    ensures Extract(m).time == Some(ClockTime(15, 0))
    ensures Extract(m).endTime == None
    ensures Extract(m).duration == None
  {
    ExtractReads(m, s);
    UpdateMessageIntent(s);
    UpdateMessageDate(s);
    PatternDate(m, s, "13");
    assert ParseDigits("13") == 13;
    UpdateMessageTime(s);
  }

  /** "UPDATE with 07/13 format": an update dated 13 July 2025 whose new time is 15:00. */
  lemma UpdateWithMonthSlashDay()
    ensures Extract("update session 07/13 from 2 PM to 3 PM").intent == Update
    ensures Extract("update session 07/13 from 2 PM to 3 PM").date == Some(NewDate(2025, 6, 13, 0, 0, 0))
    ensures Extract("update session 07/13 from 2 PM to 3 PM").time == Some(ClockTime(15, 0))
    ensures Extract("update session 07/13 from 2 PM to 3 PM").endTime == None
    ensures Extract("update session 07/13 from 2 PM to 3 PM").duration == None
  {
    LowerIs("update session 07/13 from 2 PM to 3 PM", "update session 07/13 from 2 pm to 3 pm");
    UpdateMessageFields("update session 07/13 from 2 PM to 3 PM", "update session 07/13 from 2 pm to 3 pm");
  }

  /** The fields of the QUERY message, from the lemmas about its lowered text. */
  lemma QueryMessageFields(m: string, s: string)
    requires s == "show me sessions 13jul" && Lower(m) == s
    ensures Extract(m).intent == Query
    ensures Extract(m).date == Some(NewDate(2025, 6, 13, 0, 0, 0))
  {
    ExtractReads(m, s);
    QueryMessageIntent(s);
    QueryMessageDate(s);
    PatternDate(m, s, "13");
    assert ParseDigits("13") == 13;
  }

  /** "QUERY with 13jul format": a query dated 13 July 2025. */
  lemma QueryWithDayMonthJoined()
    ensures Extract("show me sessions 13jul").intent == Query
    ensures Extract("show me sessions 13jul").date == Some(NewDate(2025, 6, 13, 0, 0, 0))
  {
    LowerIs("show me sessions 13jul", "show me sessions 13jul");
    QueryMessageFields("show me sessions 13jul", "show me sessions 13jul");
  }

  /** A booking message whose first date pattern yields "2" is dated 2 July 2025. */
  lemma HourAsDayFields(m: string, s: string)
    requires Lower(m) == s && OnlyBookingWord(s)
    requires !Contains(s, "today") && !Contains(s, "tomorrow") && FirstDateFrom(s, 0) == Some("2")
    ensures Extract(m).intent == Book
    ensures Extract(m).date == Some(NewDate(2025, 6, 2, 0, 0, 0))
    ensures Extract(m).date != Some(NewDate(2025, 6, 13, 0, 0, 0))
  {
    ExtractReads(m, s);
    OnlyBookingWordIntent(s);
    PatternDate(m, s, "2");
    assert ParseDigits("2") == 2;
  }

  /**
   * The format-table case "book training 13-Jul 2 PM to 3 PM": the first
   * pattern, `(?:july|jul)\s+(\d{1,2})`, already matches "jul 2", so the
   * date is 2 July 2025, not the 13 July the suite expects.
   */
  lemma HourAfterMonthIsTakenAsDay()
    ensures Extract("book training 13-Jul 2 PM to 3 PM").intent == Book
    ensures Extract("book training 13-Jul 2 PM to 3 PM").date == Some(NewDate(2025, 6, 2, 0, 0, 0))
    ensures Extract("book training 13-Jul 2 PM to 3 PM").date != Some(NewDate(2025, 6, 13, 0, 0, 0))
  {
    LowerIs("book training 13-Jul 2 PM to 3 PM", "book training 13-jul 2 pm to 3 pm");
    HourAfterMonthDate("book training 13-jul 2 pm to 3 pm");
    HourAfterMonthOnlyBookingWord("book training 13-jul 2 pm to 3 pm");
    HourAsDayFields("book training 13-Jul 2 PM to 3 PM", "book training 13-jul 2 pm to 3 pm");
  }

  /** The format-table case "book training 13jul 2 PM to 3 PM": "jul 2" matches first, so 2 July 2025. */
  lemma HourAfterJoinedMonthIsTakenAsDay()
    ensures Extract("book training 13jul 2 PM to 3 PM").intent == Book
    ensures Extract("book training 13jul 2 PM to 3 PM").date == Some(NewDate(2025, 6, 2, 0, 0, 0))
    ensures Extract("book training 13jul 2 PM to 3 PM").date != Some(NewDate(2025, 6, 13, 0, 0, 0))
  {
    LowerIs("book training 13jul 2 PM to 3 PM", "book training 13jul 2 pm to 3 pm");
    HourAfterJoinedMonthDate("book training 13jul 2 pm to 3 pm");
    HourAfterJoinedMonthOnlyBookingWord("book training 13jul 2 pm to 3 pm");
    HourAsDayFields("book training 13jul 2 PM to 3 PM", "book training 13jul 2 pm to 3 pm");
  }

  /** The format-table case "book training 13 July 2 PM to 3 PM": "july 2" matches first, so 2 July 2025. */
  lemma HourAfterMonthNameIsTakenAsDay()
    ensures Extract("book training 13 July 2 PM to 3 PM").intent == Book
    ensures Extract("book training 13 July 2 PM to 3 PM").date == Some(NewDate(2025, 6, 2, 0, 0, 0))
    ensures Extract("book training 13 July 2 PM to 3 PM").date != Some(NewDate(2025, 6, 13, 0, 0, 0))
  {
    LowerIs("book training 13 July 2 PM to 3 PM", "book training 13 july 2 pm to 3 pm");
    HourAfterMonthNameDate("book training 13 july 2 pm to 3 pm");
    HourAfterMonthNameOnlyBookingWord("book training 13 july 2 pm to 3 pm");
    HourAsDayFields("book training 13 July 2 PM to 3 PM", "book training 13 july 2 pm to 3 pm");
  }

}
