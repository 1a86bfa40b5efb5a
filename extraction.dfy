/**
 * What the chat extractor computes from one message, as a specification
 * function: intent by keyword priority, a date, a time or time range read
 * according to the intent, a category, and an additive confidence score.
 * The step-by-step implementation is `ChatRoute.ExtractInformationFromMessage`.
 */
module Extraction {
  import opened Wrappers
  import opened Text
  import opened Calendar
  import opened Patterns

  datatype Intent = Book | Query | Delete | Update | General

  /** A time of day in 24-hour form. */
  datatype ClockTime = ClockTime(hour: nat, minute: nat)

  /** The extractor's result; `None` stands for a field left `undefined`. */
  datatype ExtractedInfo = ExtractedInfo(
    intent: Intent,
    date: Option<Instant>,
    time: Option<ClockTime>,
    endTime: Option<ClockTime>,
    duration: Option<int>,
    category: Option<string>,
    confidence: int)

  const BookingKeywords: seq<string> :=
    ["book", "schedule", "create", "add", "set up", "arrange", "plan", "reserve"]
  const QueryKeywords: seq<string> :=
    ["show", "what", "when", "which", "sessions", "bookings", "check", "see", "display",
     "tell me", "find", "have", "do i have", "list", "view"]
  const DeleteKeywords: seq<string> :=
    ["delete", "remove", "cancel", "clear", "cancel appointment", "cancel meeting",
     "clear calendar", "remove booking"]
  const UpdateKeywords: seq<string> :=
    ["update", "change", "modify", "edit", "reschedule", "move", "shift", "adjust",
     "change time", "move to"]
  const ConfirmationKeywords: seq<string> :=
    ["yes", "yeah", "yep", "confirm", "correct", "right", "book it", "go ahead", "proceed"]

  /** Category keywords and labels, in the order they are tried. */
  const CategoryKeywords: seq<(string, string)> :=
    [("training", "Training"), ("meeting", "Meeting"), ("azure", "Azure"), ("python", "Python")]

  /** `keywords.filter(keyword => s.includes(keyword))`. */
  function MatchingKeywords(s: string, keywords: seq<string>): (r: seq<string>)
    ensures forall w :: w in r <==> w in keywords && Contains(s, w)
    ensures |r| <= |keywords|
  {
    if keywords == [] then []
    else if Contains(s, keywords[0]) then [keywords[0]] + MatchingKeywords(s, keywords[1..])
    else MatchingKeywords(s, keywords[1..])
  }

  /** Some keyword of the group occurs in `s`. */
  predicate Mentions(s: string, keywords: seq<string>)
  {
    exists k :: 0 <= k < |keywords| && Contains(s, keywords[k])
  }

  /** A keyword group's filtered list is non-empty exactly when the message mentions the group. */
  lemma MatchingNonEmptyIffMentions(s: string, keywords: seq<string>)
    ensures |MatchingKeywords(s, keywords)| > 0 <==> Mentions(s, keywords)
  {
    var r := MatchingKeywords(s, keywords);
    if |r| > 0 {
      assert r[0] in r;
      var k :| 0 <= k < |keywords| && keywords[k] == r[0];
    }
    if Mentions(s, keywords) {
      var k :| 0 <= k < |keywords| && Contains(s, keywords[k]);
      assert keywords[k] in r;
    }
  }

  /** The intent and its confidence bonus: the first mentioned group in priority order. */
  function IntentOf(lower: string): (Intent, nat)
  {
    if Mentions(lower, ConfirmationKeywords) then (Book, 80)
    else if Mentions(lower, DeleteKeywords) then (Delete, 70)
    else if Mentions(lower, UpdateKeywords) then (Update, 60)
    else if Mentions(lower, QueryKeywords) then (Query, 60)
    else if Mentions(lower, BookingKeywords) then (Book, 50)
    else (General, 0)
  }

  /** The year used for a parsed date: 2025 when the message says so, else the anchor's year. */
  function YearOf(message: string): int
  {
    if Contains(message, "2025") then 2025 else AnchorYear
  }

  /** The day digits of the first date pattern, from index `k` on, that matches. */
  function FirstDateFrom(lower: string, k: nat): (r: Option<string>)
    ensures r.Some? ==> IsDayDigits(r.value)
    decreases |DatePatterns| - k
  {
    if k >= |DatePatterns| then None
    else if MatchDate(DatePatterns[k], lower).Some? then MatchDate(DatePatterns[k], lower)
    else FirstDateFrom(lower, k + 1)
  }

  /** The date and its confidence bonus. */
  function DateOf(message: string, lower: string): (Option<Instant>, nat)
  {
    if Contains(lower, "today") then (Some(CurrentDate), 25)
    else if Contains(lower, "tomorrow") then (Some(CurrentDate + MsPerDay), 25)
    else
      match FirstDateFrom(lower, 0)
      case Some(d) => (Some(NewDate(YearOf(message), 6, ParseDigits(d), 0, 0, 0)), 25)
      case None => (None, 0)
  }

  /** 12-hour to 24-hour conversion, as the two consecutive `if`s of the source. */
  function To24(hour: nat, meridiem: string): nat
  {
    var h := if meridiem == "pm" && hour != 12 then hour + 12 else hour;
    if meridiem == "am" && h == 12 then 0 else h
  }

  /** `parseInt` of the captured hour (converted) and minute (0 when not captured). */
  function ClockTimeOf(c: Clock12): ClockTime
    requires IsClock12(c)
  {
    ClockTime(To24(ParseDigits(c.hour), c.meridiem),
              if c.minute.Some? then ParseDigits(c.minute.value) else 0)
  }

  datatype TimeFields = TimeFields(time: Option<ClockTime>, endTime: Option<ClockTime>, duration: Option<int>, bonus: nat)

  /** The time fields and their confidence bonus, read according to the intent. */
  function TimeOf(intent: Intent, lower: string): TimeFields
  {
    if intent == Update then
      match MatchUpdateRange(lower)
      case Some((_, target)) => TimeFields(Some(ClockTimeOf(target)), None, None, 40)
      case None =>
        match MatchUpdateTarget(lower)
        case Some(c) => TimeFields(Some(ClockTimeOf(c)), None, None, 30)
        case None => TimeFields(None, None, None, 0)
    else
      match MatchTimeRange(lower)
      case Some((a, b)) =>
        var start := ClockTimeOf(a);
        var end := ClockTimeOf(b);
        TimeFields(Some(start), Some(end), Some(end.hour - start.hour), 30)
      case None =>
        match MatchSingleTime(lower)
        case Some(c) => TimeFields(Some(ClockTimeOf(c)), None, Some(1), 20)
        case None => TimeFields(None, None, None, 0)
  }

  /** The label of the first category keyword, from index `k` on, that occurs, and its bonus. */
  function CategoryFrom(lower: string, k: nat): (Option<string>, nat)
    decreases |CategoryKeywords| - k
  {
    if k >= |CategoryKeywords| then (None, 0)
    else if Contains(lower, CategoryKeywords[k].0) then (Some(CategoryKeywords[k].1), 10)
    else CategoryFrom(lower, k + 1)
  }

  /** `extractInformationFromMessage(message)`. */
  function Extract(message: string): ExtractedInfo
  {
    var lower := Lower(message);
    var (intent, intentBonus) := IntentOf(lower);
    var (date, dateBonus) := DateOf(message, lower);
    var t := TimeOf(intent, lower);
    var (category, categoryBonus) := CategoryFrom(lower, 0);
    ExtractedInfo(intent, date, t.time, t.endTime, t.duration, category,
                  intentBonus + dateBonus + t.bonus + categoryBonus)
  }

  // ------------------------------------------------------------- properties

  /**
   * Intent priority: confirmation words win over everything, then delete,
   * update, query and booking words in that order; the message is "general"
   * exactly when it mentions no group. The bonus follows the winning group.
   */
  lemma IntentPriority(lower: string)
    ensures Mentions(lower, ConfirmationKeywords) ==> IntentOf(lower) == (Book, 80)
    ensures !Mentions(lower, ConfirmationKeywords) && Mentions(lower, DeleteKeywords) ==> IntentOf(lower) == (Delete, 70)
    ensures IntentOf(lower).0 == Delete <==> !Mentions(lower, ConfirmationKeywords) && Mentions(lower, DeleteKeywords)
    ensures IntentOf(lower).0 == Update <==>
      !Mentions(lower, ConfirmationKeywords) && !Mentions(lower, DeleteKeywords) && Mentions(lower, UpdateKeywords)
    ensures IntentOf(lower).0 == Query <==>
      !Mentions(lower, ConfirmationKeywords) && !Mentions(lower, DeleteKeywords) && !Mentions(lower, UpdateKeywords)
      && Mentions(lower, QueryKeywords)
    ensures IntentOf(lower).0 == General <==>
      !Mentions(lower, ConfirmationKeywords) && !Mentions(lower, DeleteKeywords) && !Mentions(lower, UpdateKeywords)
      && !Mentions(lower, QueryKeywords) && !Mentions(lower, BookingKeywords)
    ensures IntentOf(lower).0 == Update ==> IntentOf(lower).1 == 60
    ensures IntentOf(lower).0 == Query ==> IntentOf(lower).1 == 60
    ensures (!Mentions(lower, ConfirmationKeywords) && !Mentions(lower, DeleteKeywords) && !Mentions(lower, UpdateKeywords)
             && !Mentions(lower, QueryKeywords) && Mentions(lower, BookingKeywords))
      ==> IntentOf(lower) == (Book, 50)
    ensures IntentOf(lower).0 == Book <==>
      (Mentions(lower, ConfirmationKeywords)
       || (!Mentions(lower, DeleteKeywords) && !Mentions(lower, UpdateKeywords)
           && !Mentions(lower, QueryKeywords) && Mentions(lower, BookingKeywords)))
    ensures IntentOf(lower).1 == 0 <==> IntentOf(lower).0 == General
  {
  }

  /** A message with a delete word and no confirmation word is a delete, whatever query or update words it also holds. */
  lemma DeleteOutranksQueryAndUpdate(lower: string, k: nat)
    requires k < |DeleteKeywords| && Contains(lower, DeleteKeywords[k])
    requires !Mentions(lower, ConfirmationKeywords)
    ensures IntentOf(lower) == (Delete, 70)
  {
  }

  /**
   * For the hours 1 to 12 the conversion gives an hour of the day: "am"
   * gives the morning hours, "pm" the afternoon, and the hour modulo 12 is
   * kept; distinct readings give distinct hours.
   */
  lemma To24Bounds(hour: nat, meridiem: string)
    requires 1 <= hour <= 12 && (meridiem == "am" || meridiem == "pm")
    ensures To24(hour, meridiem) < 24
    ensures To24(hour, meridiem) < 12 <==> meridiem == "am"
    ensures To24(hour, meridiem) % 12 == hour % 12
  {
  }

  lemma To24Injective(h1: nat, m1: string, h2: nat, m2: string)
    requires 1 <= h1 <= 12 && (m1 == "am" || m1 == "pm")
    requires 1 <= h2 <= 12 && (m2 == "am" || m2 == "pm")
    requires To24(h1, m1) == To24(h2, m2)
    ensures h1 == h2 && m1 == m2
  {
    To24Bounds(h1, m1);
    To24Bounds(h2, m2);
  }

  /** An hour above 12 is not rejected: "pm" adds twelve to it, "am" keeps it. */
  lemma To24PassesLargeHours(hour: nat)
    requires 12 < hour
    ensures To24(hour, "pm") == hour + 12 && To24(hour, "am") == hour
  {
  }

  /** The date patterns are tried in order: the first that matches gives the day digits. */
  lemma {:induction false} FirstDateFromIsFirst(lower: string, k: nat)
    ensures FirstDateFrom(lower, k).Some? ==>
      exists j :: k <= j < |DatePatterns| && MatchDate(DatePatterns[j], lower) == FirstDateFrom(lower, k)
        && forall i :: k <= i < j ==> MatchDate(DatePatterns[i], lower).None?
    ensures FirstDateFrom(lower, k).None? <==>
      forall i :: k <= i < |DatePatterns| ==> MatchDate(DatePatterns[i], lower).None?
    decreases |DatePatterns| - k
  {
    if k < |DatePatterns| && MatchDate(DatePatterns[k], lower).None? {
      FirstDateFromIsFirst(lower, k + 1);
      if FirstDateFrom(lower, k).Some? {
        var j :| k + 1 <= j < |DatePatterns| && MatchDate(DatePatterns[j], lower) == FirstDateFrom(lower, k)
          && forall i :: k + 1 <= i < j ==> MatchDate(DatePatterns[i], lower).None?;
        assert forall i :: k <= i < j ==> MatchDate(DatePatterns[i], lower).None?;
      }
    }
  }

  /** "today" gives the anchor instant itself, "tomorrow" the same time on the next day. */
  lemma RelativeDates(message: string)
    ensures var lower := Lower(message);
      Contains(lower, "today") ==> DateOf(message, lower) == (Some(CurrentDate), 25) && Day(CurrentDate) == AnchorDay
    ensures var lower := Lower(message);
      !Contains(lower, "today") && Contains(lower, "tomorrow") ==>
        DateOf(message, lower).0.Some? && Day(DateOf(message, lower).0.value) == AnchorDay + 1
        && TimeOfDay(DateOf(message, lower).0.value) == TimeOfDay(CurrentDate)
  {
    AnchorIsJulyFifth();
  }

  /**
   * A date read from a pattern is midnight of day `d` of July 2025 (the year
   * is 2025 whether or not the message says so); `JulyDayNumbers` says where
   * a day beyond the month, or day 0, lands.
   */
  lemma PatternDateIsJuly(message: string, d: string)
    requires !Contains(Lower(message), "today") && !Contains(Lower(message), "tomorrow")
    requires FirstDateFrom(Lower(message), 0) == Some(d)
    ensures DateOf(message, Lower(message)) == (Some(DayStart(DaysFromCivil(2025, 7, ParseDigits(d)))), 25)
  {
  }

  /** The only years the extractor can produce are 2025, whether or not the message says so. */
  lemma YearIsAlways2025(message: string)
    ensures YearOf(message) == 2025
  {
  }

  /** A date is present exactly when it earned its 25 points. */
  lemma DateBonus(message: string, lower: string)
    ensures DateOf(message, lower).0.Some? <==> DateOf(message, lower).1 == 25
    ensures DateOf(message, lower).0.None? <==> DateOf(message, lower).1 == 0
  {
  }

  /**
   * The shape of the time fields. An update yields at most a new start
   * time, never an end time or a duration; otherwise a range yields start,
   * end and their hour difference as duration, and a single time a duration
   * of 1; minutes are read only in the update range form. No time means no
   * end time, no duration and no bonus.
   */
  lemma TimeFieldsShape(intent: Intent, lower: string)
    ensures var t := TimeOf(intent, lower);
      intent == Update ==> t.endTime.None? && t.duration.None?
    ensures var t := TimeOf(intent, lower);
      intent != Update && t.endTime.Some? ==>
        t.time.Some? && t.duration == Some(t.endTime.value.hour - t.time.value.hour)
        && t.time.value.minute == 0 && t.endTime.value.minute == 0 && t.bonus == 30
    ensures var t := TimeOf(intent, lower);
      intent != Update && t.time.Some? && t.endTime.None? ==> t.duration == Some(1) && t.time.value.minute == 0
    ensures var t := TimeOf(intent, lower);
      t.time.None? <==> t.bonus == 0
    ensures var t := TimeOf(intent, lower);
      t.time.None? ==> t.endTime.None? && t.duration.None?
  {
  }

  /** An update range ("from X to Y") moves the start to its second reading, Y. */
  lemma UpdateRangeTakesTarget(lower: string, from: Clock12, target: Clock12)
    requires MatchUpdateRange(lower) == Some((from, target))
    ensures TimeOf(Update, lower).time == Some(ClockTimeOf(target))
    ensures TimeOf(Update, lower).bonus == 40
  {
  }

  /**
   * The category is the label of the first keyword, in the order training,
   * meeting, azure, python, that the message contains; it carries 10 points.
   */
  lemma {:induction false} CategoryFromIsFirst(lower: string, k: nat)
    ensures CategoryFrom(lower, k).0.Some? ==>
      exists j :: k <= j < |CategoryKeywords| && Contains(lower, CategoryKeywords[j].0)
        && CategoryFrom(lower, k).0.value == CategoryKeywords[j].1
        && forall i :: k <= i < j ==> !Contains(lower, CategoryKeywords[i].0)
    ensures CategoryFrom(lower, k).0.None? <==>
      forall i :: k <= i < |CategoryKeywords| ==> !Contains(lower, CategoryKeywords[i].0)
    ensures CategoryFrom(lower, k).1 == (if CategoryFrom(lower, k).0.Some? then 10 else 0)
    decreases |CategoryKeywords| - k
  {
    if k < |CategoryKeywords| && !Contains(lower, CategoryKeywords[k].0) {
      CategoryFromIsFirst(lower, k + 1);
      if CategoryFrom(lower, k).0.Some? {
        var j :| k + 1 <= j < |CategoryKeywords| && Contains(lower, CategoryKeywords[j].0)
          && CategoryFrom(lower, k).0.value == CategoryKeywords[j].1
          && forall i :: k + 1 <= i < j ==> !Contains(lower, CategoryKeywords[i].0);
        assert forall i :: k <= i < j ==> !Contains(lower, CategoryKeywords[i].0);
      }
    }
  }

  /**
   * The confidence is between 0 and 145 (80 + 25 + 30 + 10, the update path
   * reaching at most 60 + 25 + 40 + 10 = 135), and it is 0 exactly when the
   * extractor recognised nothing at all.
   */
  lemma ConfidenceBounds(message: string)
    ensures 0 <= Extract(message).confidence <= 145
    ensures Extract(message).intent == Update ==> Extract(message).confidence <= 135
    ensures Extract(message).confidence == 0 <==>
      var e := Extract(message);
      e.intent == General && e.date.None? && e.time.None? && e.category.None?
  {
    var lower := Lower(message);
    IntentPriority(lower);
    DateBonus(message, lower);
    TimeFieldsShape(IntentOf(lower).0, lower);
    CategoryFromIsFirst(lower, 0);
  }
}
