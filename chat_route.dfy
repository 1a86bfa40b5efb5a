/**
 * The chat route's pipeline after extraction: the past-date gate, the
 * default resolver, the create/delete/update executors against the booking
 * table, the range query, the session map, and the step-by-step extractor
 * itself, proved equal to `Extraction.Extract`.
 */
module ChatRoute {
  import opened Wrappers
  import opened Text
  import opened Calendar
  import opened Patterns
  import opened Extraction
  import opened BookingStore

  // ------------------------------------------------------------ extractor

  /** The two statements that turn every captured 12-hour reading into a 24-hour one. */
  method ConvertHour(hour: nat, meridiem: string) returns (h: nat)
    ensures h == To24(hour, meridiem)
  {
    h := hour;
    if meridiem == "pm" && h != 12 {
      h := h + 12;
    }
    if meridiem == "am" && h == 12 {
      h := 0;
    }
  }

  /** Step 1 of the extractor: the keyword filters and the priority chain that sets the intent and its bonus. */
  method DetectIntent(lowerMessage: string) returns (intent: Intent, bonus: nat)
    ensures (intent, bonus) == IntentOf(lowerMessage)
  {
    var confirmationMatches := MatchingKeywords(lowerMessage, ConfirmationKeywords);
    var deleteMatches := MatchingKeywords(lowerMessage, DeleteKeywords);
    var updateMatches := MatchingKeywords(lowerMessage, UpdateKeywords);
    var queryMatches := MatchingKeywords(lowerMessage, QueryKeywords);
    var bookingMatches := MatchingKeywords(lowerMessage, BookingKeywords);
    MatchingNonEmptyIffMentions(lowerMessage, ConfirmationKeywords);
    MatchingNonEmptyIffMentions(lowerMessage, DeleteKeywords);
    MatchingNonEmptyIffMentions(lowerMessage, UpdateKeywords);
    MatchingNonEmptyIffMentions(lowerMessage, QueryKeywords);
    MatchingNonEmptyIffMentions(lowerMessage, BookingKeywords);
    intent, bonus := General, 0;
    if |confirmationMatches| > 0 {
      intent, bonus := Book, 80;
    } else if |deleteMatches| > 0 {
      intent, bonus := Delete, 70;
    } else if |updateMatches| > 0 {
      intent, bonus := Update, 60;
    } else if |queryMatches| > 0 {
      intent, bonus := Query, 60;
    } else if |bookingMatches| > 0 {
      intent, bonus := Book, 50;
    }
  }

  /** Step 2: "today", "tomorrow", else the pattern loop that stops at the first match. */
  method DetectDate(message: string, lowerMessage: string) returns (date: Option<Instant>, bonus: nat)
    ensures (date, bonus) == DateOf(message, lowerMessage)
  {
    date, bonus := None, 0;
    if Contains(lowerMessage, "today") {
      date, bonus := Some(CurrentDate), 25;
    } else if Contains(lowerMessage, "tomorrow") {
      var d := CurrentDate;
      d := d + MsPerDay;
      date, bonus := Some(d), 25;
    }
    if date.None? {
      for i := 0 to |DatePatterns|
        invariant date.None? && bonus == 0
        invariant FirstDateFrom(lowerMessage, i) == FirstDateFrom(lowerMessage, 0)
      {
        var dateMatch := MatchDate(DatePatterns[i], lowerMessage);
        if dateMatch.Some? {
          var day := ParseDigits(dateMatch.value);
          var month := AnchorMonthIndex;
          var year := if Contains(message, "2025") then 2025 else AnchorYear;
          date, bonus := Some(NewDate(year, month, day, 0, 0, 0)), 25;
          break;
        }
      }
    }
  }

  /** Step 3: the time fields, read as a new start time for an update and as a time or range otherwise. */
  method DetectTime(intent: Intent, lowerMessage: string) returns (t: TimeFields)
    ensures t == TimeOf(intent, lowerMessage)
  {
    var time: Option<ClockTime> := None;
    var endTime: Option<ClockTime> := None;
    var duration: Option<int> := None;
    var bonus := 0;
    if intent == Update {
      var updateTimeMatch := MatchUpdateRange(lowerMessage);
      if updateTimeMatch.Some? {
        var target := updateTimeMatch.value.1;
        var newStartHour := ConvertHour(ParseDigits(target.hour), target.meridiem);
        var newStartMinute := if target.minute.Some? then ParseDigits(target.minute.value) else 0;
        time := Some(ClockTime(newStartHour, newStartMinute));
        bonus := 40;
        assert time == Some(ClockTimeOf(target));
      } else {
        var simpleUpdateMatch := MatchUpdateTarget(lowerMessage);
        if simpleUpdateMatch.Some? {
          var newHour := ConvertHour(ParseDigits(simpleUpdateMatch.value.hour), simpleUpdateMatch.value.meridiem);
          time := Some(ClockTime(newHour, 0));
          bonus := 30;
          assert time == Some(ClockTimeOf(simpleUpdateMatch.value));
        }
      }
    } else {
      var timeRangeMatch := MatchTimeRange(lowerMessage);
      if timeRangeMatch.Some? {
        var startHour := ConvertHour(ParseDigits(timeRangeMatch.value.0.hour), timeRangeMatch.value.0.meridiem);
        var endHour := ConvertHour(ParseDigits(timeRangeMatch.value.1.hour), timeRangeMatch.value.1.meridiem);
        time := Some(ClockTime(startHour, 0));
        endTime := Some(ClockTime(endHour, 0));
        duration := Some(endHour as int - startHour as int);
        bonus := 30;
        assert time == Some(ClockTimeOf(timeRangeMatch.value.0)) && endTime == Some(ClockTimeOf(timeRangeMatch.value.1));
      } else {
        var singleTimeMatch := MatchSingleTime(lowerMessage);
        if singleTimeMatch.Some? {
          var hour := ConvertHour(ParseDigits(singleTimeMatch.value.hour), singleTimeMatch.value.meridiem);
          time := Some(ClockTime(hour, 0));
          duration := Some(1);
          bonus := 20;
          assert time == Some(ClockTimeOf(singleTimeMatch.value));
        }
      }
    }
    t := TimeFields(time, endTime, duration, bonus);
  }

  /** Step 4: the category loop that stops at the first keyword contained. */
  method DetectCategory(lowerMessage: string) returns (category: Option<string>, bonus: nat)
    ensures (category, bonus) == CategoryFrom(lowerMessage, 0)
  {
    category, bonus := None, 0;
    for k := 0 to |CategoryKeywords|
      invariant category.None? && bonus == 0
      invariant CategoryFrom(lowerMessage, k) == CategoryFrom(lowerMessage, 0)
    {
      var (keyword, cat) := CategoryKeywords[k];
      if Contains(lowerMessage, keyword) {
        category, bonus := Some(cat), 10;
        break;
      }
    }
  }

  /**
   * `extractInformationFromMessage`: runs the four steps in order on the
   * lower-cased message, adding each step's bonus to the confidence.
   */
  method ExtractInformationFromMessage(message: string) returns (info: ExtractedInfo)
    ensures info == Extract(message)
  {
    var lowerMessage := Lower(message);
    var confidence := 0;
    var intent, intentBonus := DetectIntent(lowerMessage);
    confidence := confidence + intentBonus;
    var date, dateBonus := DetectDate(message, lowerMessage);
    confidence := confidence + dateBonus;
    var t := DetectTime(intent, lowerMessage);
    confidence := confidence + t.bonus;
    var category, categoryBonus := DetectCategory(lowerMessage);
    confidence := confidence + categoryBonus;
    info := ExtractedInfo(intent, date, t.time, t.endTime, t.duration, category, confidence);
  }

  // ------------------------------------------------------------ date gate

  datatype Operation = CreateOp | UpdateOp | DeleteOp

  /** `operation.toLowerCase()`. */
  function OperationName(op: Operation): string
  {
    match op
    case CreateOp => "create"
    case UpdateOp => "update"
    case DeleteOp => "delete"
  }

  /** The operation names `validateDateForOperation` is called with. */
  function OperationConstant(op: Operation): string
  {
    match op
    case CreateOp => "CREATE"
    case UpdateOp => "UPDATE"
    case DeleteOp => "DELETE"
  }

  /** The name in the date errors is the lowered operation constant, and the three differ. */
  lemma OperationNameIsLowered(op: Operation, other: Operation)
    ensures OperationName(op) == Lower(OperationConstant(op))
    ensures OperationName(op) == OperationName(other) ==> op == other
  {
    match op
    case CreateOp => LowerIs("CREATE", "create");
    case UpdateOp => LowerIs("UPDATE", "update");
    case DeleteOp => LowerIs("DELETE", "delete");
  }

  /** The errors the route reports to the user. */
  datatype ChatError =
    | MissingDate(op: Operation)
    | PastDate(op: Operation)
    | MissingTimeInformation
    | EndNotAfterStart
    | TimeSlotConflict
    | NoBookingsToDelete
    | NoBookingsToUpdate
    | MissingNewTime

  /** The text of each error. */
  function Message(e: ChatError): string
  {
    match e
    case MissingDate(op) => "Please specify a date for the " + OperationName(op) + " operation."
    case PastDate(op) => "Cannot " + OperationName(op) + " sessions for past dates." + " Please choose a current or future date."
    case MissingTimeInformation => "Missing required time information"
    case EndNotAfterStart => "End time must be after start time"
    case TimeSlotConflict => "Time slot conflicts with existing booking"
    case NoBookingsToDelete => "No bookings found to delete for the specified date"
    case NoBookingsToUpdate => "No bookings found to update on the specified date"
    case MissingNewTime => "Please specify a new time for the update"
  }

  /**
   * The length of an error text and one character of it: where the
   * operation's name starts in the two date errors, the last one otherwise.
   * Together they tell the texts apart.
   */
  function TextKey(t: string): (int, char)
  {
    (|t|, if |t| == 47 then t[30] else if |t| == 78 then t[7] else if 0 < |t| then t[|t| - 1] else ' ')
  }

  function ErrorKey(e: ChatError): (int, char)
  {
    match e
    case MissingDate(op) => (47, OperationName(op)[0])
    case PastDate(op) => (78, OperationName(op)[0])
    case MissingTimeInformation => (33, 'n')
    case EndNotAfterStart => (33, 'e')
    case TimeSlotConflict => (41, 'g')
    case NoBookingsToDelete => (50, 'e')
    case NoBookingsToUpdate => (49, 'e')
    case MissingNewTime => (40, 'e')
  }

  lemma MissingDateKey(op: Operation)
    ensures TextKey(Message(MissingDate(op))) == ErrorKey(MissingDate(op))
  {
    var t := "Please specify a date for the ";
    assert |t| == 30 && |OperationName(op)| == 6;
    assert Message(MissingDate(op)) == t + OperationName(op) + " operation.";
  }

  lemma PastDateKey(op: Operation)
    ensures TextKey(Message(PastDate(op))) == ErrorKey(PastDate(op))
  {
    var t, u, v := "Cannot ", " sessions for past dates.", " Please choose a current or future date.";
    assert |t| == 7 && |OperationName(op)| == 6 && |u| == 25 && |v| == 40;
    assert Message(PastDate(op)) == t + OperationName(op) + u + v;
  }

  lemma MessageKey(e: ChatError)
    ensures TextKey(Message(e)) == ErrorKey(e)
  {
    match e
    case MissingDate(op) => MissingDateKey(op);
    case PastDate(op) => PastDateKey(op);
    case _ =>
  }

  lemma ErrorKeyIdentifies(e: ChatError, other: ChatError)
    ensures ErrorKey(e) == ErrorKey(other) ==> e == other
  {
    if ErrorKey(e) == ErrorKey(other) {
      match e
      case MissingDate(op) =>
        OperationNameIsLowered(op, other.op);
      case PastDate(op) =>
        OperationNameIsLowered(op, other.op);
      case _ =>
    }
  }

  /** Each error has its own text: the user can tell from the text which check failed. */
  lemma MessagesIdentifyError(e: ChatError, other: ChatError)
    ensures Message(e) == Message(other) ==> e == other
  {
    MessageKey(e);
    MessageKey(other);
    ErrorKeyIdentifies(e, other);
  }

  /** `setHours(0, 0, 0, 0)`: midnight at the start of the instant's day. */
  function StartOfDay(t: Instant): (r: Instant)
    ensures r == DayStart(Day(t)) && Day(r) == Day(t) && r <= t
  {
    DayBlock(t, Day(t));
    SetHours(t, 0, 0)
  }

  /** `setHours(23, 59, 59, 999)`: the last millisecond of the instant's day. */
  function EndOfDay(t: Instant): (r: Instant)
    ensures r == DayEnd(Day(t)) && Day(r) == Day(t) && t <= r
  {
    DayBlock(t, Day(t));
    DayBlock(DayEnd(Day(t)), Day(t));
    SetHours(t, 23, 59) + 59 * MsPerSecond + 999
  }

  /**
   * `isDateInPast`: compares the two instants at midnight, so a date is in
   * the past exactly when its day comes before the anchor's day; any time
   * on the anchor day itself is not in the past.
   */
  function IsDateInPast(date: Instant): (past: bool)
    ensures past <==> Day(date) < AnchorDay
    ensures past <==> date < DayStart(AnchorDay)
  {
    DayBlock(date, Day(date));
    StartOfDay(date) < StartOfDay(CurrentDate)
  }

  datatype Validation = Validation(isValid: bool, error: Option<ChatError>)

  /**
   * `validateDateForOperation`: valid exactly when a date is given and its
   * day is not before the anchor's; otherwise the error says which check failed.
   */
  function ValidateDateForOperation(date: Option<Instant>, op: Operation): (v: Validation)
    ensures v.isValid <==> date.Some? && AnchorDay <= Day(date.value)
    ensures v.isValid <==> v.error.None?
    ensures date.None? ==> v.error == Some(MissingDate(op))
    ensures date.Some? && !v.isValid ==> v.error == Some(PastDate(op))
  {
    if date.None? then Validation(false, Some(MissingDate(op)))
    else if IsDateInPast(date.value) then Validation(false, Some(PastDate(op)))
    else Validation(true, None)
  }

  // -------------------------------------------------------------- defaults

  /** The complete booking request the defaults produce. */
  datatype Draft = Draft(startTime: Option<Instant>, endTime: Option<Instant>, category: string, clientName: string, title: string)

  /** A category that is present and not the empty string (JavaScript truthiness). */
  predicate HasCategory(e: ExtractedInfo)
  {
    e.category.Some? && e.category.value != ""
  }

  /** What `applySmartDefaults` builds from an extraction. */
  function Defaults(e: ExtractedInfo): Draft
  {
    var workingDate := if e.date.Some? then e.date.value else CurrentDate + MsPerDay;
    var hour := if e.time.Some? then e.time.value.hour else 10;
    var minute := if e.time.Some? then e.time.value.minute else 0;
    var start := SetHours(workingDate, hour, minute);
    var end :=
      if e.endTime.Some? then SetHours(start, e.endTime.value.hour, e.endTime.value.minute)
      else start + (if e.duration.Some? then e.duration.value else 1) * MsPerHour;
    Draft(Some(start), Some(end),
          if HasCategory(e) then e.category.value else "Training",
          "Client",
          if HasCategory(e) then e.category.value + " Training" else "Training Session")
  }

  /** `applySmartDefaults`: fills a missing date, time and duration and derives category, client and title. */
  method ApplySmartDefaults(e: ExtractedInfo) returns (d: Draft)
    ensures d == Defaults(e)
  {
    var workingDate := e.date;
    if workingDate.None? {
      var tomorrow := CurrentDate;
      tomorrow := tomorrow + MsPerDay;
      workingDate := Some(tomorrow);
    }
    var hour := if e.time.Some? then e.time.value.hour else 10;
    var minute := if e.time.Some? then e.time.value.minute else 0;
    var startTime := workingDate.value;
    startTime := SetHours(startTime, hour, minute);
    var endTime := startTime;
    if e.endTime.Some? {
      endTime := SetHours(endTime, e.endTime.value.hour, e.endTime.value.minute);
    } else {
      var duration := if e.duration.Some? then e.duration.value else 1;
      endTime := startTime + duration * MsPerHour;
    }
    var category := if HasCategory(e) then e.category.value else "Training";
    var title := if HasCategory(e) then e.category.value + " Training" else "Training Session";
    d := Draft(Some(startTime), Some(endTime), category, "Client", title);
  }

  /**
   * The defaults: the start falls on the extracted day, else the day after
   * the anchor, at the extracted time, else 10:00; the end is the explicit
   * end time on the start's day, else the start plus the duration, else plus
   * one hour; the category defaults to "Training", the client is "Client",
   * and the title is "<category> Training" or "Training Session".
   */
  lemma DefaultsMeaning(e: ExtractedInfo)
    ensures Defaults(e).startTime.Some? && Defaults(e).endTime.Some?
    ensures var start := Defaults(e).startTime.value;
      var hour := if e.time.Some? then e.time.value.hour else 10;
      var minute := if e.time.Some? then e.time.value.minute else 0;
      hour * 60 + minute < 1440 ==>
        Day(start) == (if e.date.Some? then Day(e.date.value) else AnchorDay + 1)
        && TimeOfDay(start) == hour * MsPerHour + minute * MsPerMinute
    ensures e.endTime.Some? && e.endTime.value.hour * 60 + e.endTime.value.minute < 1440 ==>
      var d := Defaults(e);
      Day(d.endTime.value) == Day(d.startTime.value)
      && TimeOfDay(d.endTime.value) == e.endTime.value.hour * MsPerHour + e.endTime.value.minute * MsPerMinute
    ensures e.endTime.None? ==>
      var d := Defaults(e);
      d.endTime.value - d.startTime.value == (if e.duration.Some? then e.duration.value else 1) * MsPerHour
    ensures Defaults(e).clientName == "Client"
    ensures HasCategory(e) ==>
      (Defaults(e).category == e.category.value && Defaults(e).title == e.category.value + " Training")
    ensures !HasCategory(e) ==> Defaults(e).category == "Training" && Defaults(e).title == "Training Session"
  {
    AnchorIsJulyFifth();
    var workingDate := if e.date.Some? then e.date.value else CurrentDate + MsPerDay;
    var hour := if e.time.Some? then e.time.value.hour else 10;
    var minute := if e.time.Some? then e.time.value.minute else 0;
    if hour * 60 + minute < 1440 {
      SetHoursKeepsDay(workingDate, hour, minute);
      if e.date.None? {
        DayBlock(CurrentDate + MsPerDay, AnchorDay + 1);
      }
    }
    var start := SetHours(workingDate, hour, minute);
    if e.endTime.Some? && e.endTime.value.hour * 60 + e.endTime.value.minute < 1440 {
      SetHoursKeepsDay(start, e.endTime.value.hour, e.endTime.value.minute);
    }
  }

  // -------------------------------------------------------------- queries

  /** `getBookingsForDateRange`: the bookings starting in [lo, hi], ascending by start. */
  function GetBookingsForDateRange(store: Store, lo: Instant, hi: Instant): (r: seq<Booking>)
    reads store
    ensures SortedByStart(r)
    ensures forall b :: b in r <==> b in store.records && lo <= b.startTime <= hi
    ensures multiset(r) == multiset(StartingIn(store.records, lo, hi))
    ensures DistinctIds(store.records) ==> DistinctIds(r)
  {
    RangeQueryKeepsDistinctIds(store.records, lo, hi);
    FindByStartRange(store.records, lo, hi)
  }

  /** The bookings starting on the calendar day of `date`, ascending by start. */
  function DayBookings(records: seq<Booking>, date: Instant): (r: seq<Booking>)
    ensures SortedByStart(r)
    ensures forall b :: b in r <==> b in records && Day(b.startTime) == Day(date)
    ensures DistinctIds(records) ==> DistinctIds(r)
  {
    RangeQueryKeepsDistinctIds(records, StartOfDay(date), EndOfDay(date));
    var r := FindByStartRange(records, StartOfDay(date), EndOfDay(date));
    assert forall b :: b in r ==> DayStart(Day(date)) <= b.startTime <= DayEnd(Day(date));
    assert forall b :: b in records ==> (DayStart(Day(date)) <= b.startTime <= DayEnd(Day(date)) <==> Day(b.startTime) == Day(date)) by {
      forall b | b in records
        ensures DayStart(Day(date)) <= b.startTime <= DayEnd(Day(date)) <==> Day(b.startTime) == Day(date)
      {
        DayBlock(b.startTime, Day(date));
      }
    }
    r
  }

  /**
   * The range a query reads: the extracted day from midnight to its last
   * millisecond, or, without a date, `new Date(2025, 6, 1)` to
   * `new Date(2025, 7, 0, 23, 59, 59)`.
   */
  function QueryRange(date: Option<Instant>): (Instant, Instant)
  {
    if date.Some? then (StartOfDay(date.value), EndOfDay(date.value))
    else (NewDate(AnchorYear, AnchorMonthIndex, 1, 0, 0, 0),
          NewDate(AnchorYear, AnchorMonthIndex + 1, 0, 23, 59, 59))
  }

  /**
   * A query reads either one whole day, or July 2025 from 1 July 00:00:00
   * to 31 July 23:59:59, which leaves out the last 999 ms of the month.
   */
  lemma QueryRangeIsDayOrJuly(date: Option<Instant>)
    ensures date.Some? ==> QueryRange(date) == (DayStart(Day(date.value)), DayEnd(Day(date.value)))
    ensures date.None? ==> QueryRange(date) == (DayStart(DaysFromCivil(2025, 7, 1)), DayEnd(DaysFromCivil(2025, 7, 31)) - 999)
    ensures date.None? ==> forall t :: QueryRange(date).0 <= t <= QueryRange(date).1 ==>
      DaysFromCivil(2025, 7, 1) <= Day(t) <= DaysFromCivil(2025, 7, 31)
  {
    if date.None? {
      JulyRange();
      forall t | QueryRange(date).0 <= t <= QueryRange(date).1
        ensures DaysFromCivil(2025, 7, 1) <= Day(t) <= DaysFromCivil(2025, 7, 31)
      {
        DayBlock(t, Day(t));
      }
    }
  }

  /** The month-long range, in day numbers: 1 July is day 20270 and 31 July day 20300. */
  lemma JulyRange()
    ensures DaysFromCivil(2025, 7, 1) == 20270 && DaysFromCivil(2025, 7, 31) == 20300
    ensures QueryRange(None) == (DayStart(20270), DayEnd(20300) - 999)
  {
    JulyDayNumbers(1);
    JulyDayNumbers(31);
    assert DaysFromCivil(2025, 8, 1) == 20301;
  }

  // ------------------------------------------------------------- executors

  /** What the table's invariant under the route's writes is: no two bookings overlap. */
  lemma AppendKeepsDisjoint(records: seq<Booking>, b: Booking)
    requires Disjoint(records) && !HasConflict(records, b.startTime, b.endTime, None)
    ensures Disjoint(records + [b])
  {
    var r := records + [b];
    forall i, j | 0 <= i < |r| && 0 <= j < |r| && i != j
      ensures !Overlaps(r[i], r[j].startTime, r[j].endTime)
    {
      if j == |records| {
        assert !Overlaps(records[i], b.startTime, b.endTime);
      } else if i == |records| {
        assert !Overlaps(records[j], b.startTime, b.endTime);
      }
    }
  }

  lemma ReplaceKeepsDisjoint(records: seq<Booking>, b: Booking)
    requires Disjoint(records) && DistinctIds(records) && !HasConflict(records, b.startTime, b.endTime, Some(b.id))
    ensures Disjoint(Replace(records, b))
  {
    var r := Replace(records, b);
    forall i, j | 0 <= i < |r| && 0 <= j < |r| && i != j
      ensures !Overlaps(r[i], r[j].startTime, r[j].endTime)
    {
      if records[j].id == b.id && records[i].id != b.id {
        assert !Overlaps(records[i], b.startTime, b.endTime);
      } else if records[i].id == b.id && records[j].id != b.id {
        assert !Overlaps(records[j], b.startTime, b.endTime);
      }
    }
  }

  lemma {:induction false} WithoutKeepsDisjoint(records: seq<Booking>, ids: set<nat>)
    requires Disjoint(records)
    ensures Disjoint(Without(records, ids))
    decreases |records|
  {
    if records != [] {
      var init := records[..|records| - 1];
      var last := records[|records| - 1];
      assert Disjoint(init);
      WithoutKeepsDisjoint(init, ids);
      var w := Without(init, ids);
      if last.id !in ids {
        forall i, j | 0 <= i < |w + [last]| && 0 <= j < |w + [last]| && i != j
          ensures !Overlaps((w + [last])[i], (w + [last])[j].startTime, (w + [last])[j].endTime)
        {
          if i == |w| || j == |w| {
            var other := if i == |w| then w[j] else w[i];
            assert other in init;
            var k :| 0 <= k < |init| && init[k] == other;
            assert records[k] == other && records[|records| - 1] == last;
          }
        }
      }
    }
  }

  datatype BookingOutcome = Booked(booking: Booking) | BookingFailed(error: ChatError)

  /** The description every booking created by the chat carries. */
  const ChatDescription: string := "Session scheduled via Schedula AI"

  /** `clientName || null`. */
  function ClientOrNull(name: string): (r: Option<string>)
    ensures r.None? <==> name == ""
    ensures r.Some? ==> r.value == name
  {
    if name == "" then None else Some(name)
  }

  /**
   * `executeBooking`: the gates run in order (times present, date not past,
   * end after start, no overlapping booking); a rejection leaves the table
   * as it was, a success appends exactly one booking that overlaps none.
   */
  method ExecuteBooking(store: Store, d: Draft) returns (r: BookingOutcome)
    requires store.Valid()
    modifies store
    ensures store.Valid()
    ensures r.BookingFailed? ==> store.records == old(store.records) && store.nextId == old(store.nextId)
    ensures d.startTime.None? || d.endTime.None? ==> r == BookingFailed(MissingTimeInformation)
    ensures d.startTime.Some? && d.endTime.Some? ==>
      var start := d.startTime.value;
      var end := d.endTime.value;
      if IsDateInPast(start) then r == BookingFailed(PastDate(CreateOp))
      else if end <= start then r == BookingFailed(EndNotAfterStart)
      else if HasConflict(old(store.records), start, end, None) then r == BookingFailed(TimeSlotConflict)
      else (r == Booked(Booking(old(store.nextId), d.title, ChatDescription, d.category, start, end, ClientOrNull(d.clientName)))
            && store.records == old(store.records) + [r.booking])
    ensures Disjoint(old(store.records)) ==> Disjoint(store.records)
  {
    if d.startTime.None? || d.endTime.None? {
      return BookingFailed(MissingTimeInformation);
    }
    var dateValidation := ValidateDateForOperation(d.startTime, CreateOp);
    if !dateValidation.isValid {
      return BookingFailed(dateValidation.error.value);
    }
    var startTime := d.startTime.value;
    var endTime := d.endTime.value;
    if endTime <= startTime {
      return BookingFailed(EndNotAfterStart);
    }
    if HasConflict(store.records, startTime, endTime, None) {
      return BookingFailed(TimeSlotConflict);
    }
    if Disjoint(store.records) {
      AppendKeepsDisjoint(store.records, Booking(store.nextId, d.title, ChatDescription, d.category, startTime, endTime, ClientOrNull(d.clientName)));
    }
    var booking := store.Create(d.title, ChatDescription, d.category, startTime, endTime, ClientOrNull(d.clientName));
    r := Booked(booking);
  }

  /** The bookings of `targets` whose delete does not fail, in order. */
  function Deletable(targets: seq<Booking>, failing: set<nat>): (r: seq<Booking>)
    ensures forall b :: b in r <==> b in targets && b.id !in failing
    ensures |r| <= |targets|
  {
    if targets == [] then []
    else
      var init := targets[..|targets| - 1];
      var last := targets[|targets| - 1];
      assert targets == init + [last];
      Deletable(init, failing) + (if last.id in failing then [] else [last])
  }

  /** Skipping failed deletes keeps the targets' start order and their distinct ids. */
  lemma {:induction false} DeletableKeepsOrder(targets: seq<Booking>, failing: set<nat>)
    ensures SortedByStart(targets) ==> SortedByStart(Deletable(targets, failing))
    ensures DistinctIds(targets) ==> DistinctIds(Deletable(targets, failing))
    decreases |targets|
  {
    if targets != [] {
      var init, last := targets[..|targets| - 1], targets[|targets| - 1];
      assert targets == init + [last];
      var r := Deletable(init, failing);
      DeletableKeepsOrder(init, failing);
      if SortedByStart(targets) {
        InitKeepsSorted(init, last);
        SnocKeepsSorted(init, last, r);
      }
      if DistinctIds(targets) {
        InitKeepsDistinctIds(init, last);
        SnocKeepsDistinctIds(init, last, r);
      }
      assert r + [] == r;
    }
  }

  datatype DeleteOutcome = DeleteOutcome(success: bool, deletedCount: nat, deletedBookings: seq<Booking>, error: Option<ChatError>)

  /**
   * `executeDelete`: after the date gate, deletes the bookings of that day
   * one by one in ascending start order; a delete that fails (the ids in
   * `failing`) is skipped. The count is the number of bookings deleted.
   */
  method ExecuteDelete(store: Store, e: ExtractedInfo, failing: set<nat>) returns (r: DeleteOutcome)
    requires store.Valid()
    modifies store
    ensures store.Valid() && store.nextId == old(store.nextId)
    ensures !ValidateDateForOperation(e.date, DeleteOp).isValid ==>
      r == DeleteOutcome(false, 0, [], ValidateDateForOperation(e.date, DeleteOp).error)
      && store.records == old(store.records)
    ensures ValidateDateForOperation(e.date, DeleteOp).isValid ==>
      var targets := DayBookings(old(store.records), e.date.value);
      r.success && r.deletedBookings == Deletable(targets, failing) && r.deletedCount == |r.deletedBookings|
      && r.error == (if targets == [] then Some(NoBookingsToDelete) else None)
      && store.records == Without(old(store.records), Ids(r.deletedBookings))
    ensures Disjoint(old(store.records)) ==> Disjoint(store.records)
  {
    var dateValidation := ValidateDateForOperation(e.date, DeleteOp);
    if !dateValidation.isValid {
      return DeleteOutcome(false, 0, [], dateValidation.error);
    }
    var startOfDay := StartOfDay(e.date.value);
    var endOfDay := EndOfDay(e.date.value);
    var bookingsToDelete := GetBookingsForDateRange(store, startOfDay, endOfDay);
    assert bookingsToDelete == DayBookings(old(store.records), e.date.value);
    if |bookingsToDelete| == 0 {
      WithoutNothing(store.records);
      assert Ids([]) == {};
      return DeleteOutcome(true, 0, [], Some(NoBookingsToDelete));
    }
    var deletedCount, deletedBookings := DeleteEach(store, bookingsToDelete, failing);
    if Disjoint(old(store.records)) {
      WithoutKeepsDisjoint(old(store.records), Ids(deletedBookings));
    }
    r := DeleteOutcome(true, deletedCount, deletedBookings, None);
  }

  /**
   * The delete loop of `executeDelete`: deletes each booking of `targets` in
   * order, skipping those whose delete fails, and counts the deletions.
   */
  method DeleteEach(store: Store, targets: seq<Booking>, failing: set<nat>)
    returns (deletedCount: nat, deletedBookings: seq<Booking>)
    requires store.Valid() && DistinctIds(targets)
    requires forall b :: b in targets ==> b in store.records
    modifies store
    ensures store.Valid() && store.nextId == old(store.nextId)
    ensures deletedBookings == Deletable(targets, failing) && deletedCount == |deletedBookings|
    ensures store.records == Without(old(store.records), Ids(deletedBookings))
  {
    deletedCount := 0;
    deletedBookings := [];
    ghost var records0, gone := store.records, {};
    WithoutNothing(records0);
    assert Ids(deletedBookings) == {};
    for i := 0 to |targets|
      invariant store.Valid() && store.nextId == old(store.nextId)
      invariant deletedBookings == Deletable(targets[..i], failing)
      invariant deletedCount == |deletedBookings|
      invariant gone == Ids(deletedBookings)
      invariant store.records == Without(records0, gone)
    {
      var booking := targets[i];
      DeletableStep(targets, i, failing);
      if booking.id !in failing {
        NotYetDeleted(records0, targets, i, failing);
        WithoutTwice(records0, gone, {booking.id});
        IdsAppend(deletedBookings, booking);
        var found := store.Delete(booking.id);
        if found {
          deletedCount := deletedCount + 1;
          deletedBookings := deletedBookings + [booking];
          gone := gone + {booking.id};
        }
      }
    }
    assert targets[..|targets|] == targets;
  }

  lemma DeletableStep(targets: seq<Booking>, i: nat, failing: set<nat>)
    requires i < |targets|
    ensures Deletable(targets[..i + 1], failing)
      == Deletable(targets[..i], failing) + (if targets[i].id in failing then [] else [targets[i]])
  {
    assert targets[..i + 1][..i] == targets[..i];
  }

  lemma {:induction false} WithoutNothing(records: seq<Booking>)
    ensures Without(records, {}) == records
    decreases |records|
  {
    if records != [] {
      var init, last := records[..|records| - 1], records[|records| - 1];
      assert records == init + [last];
      WithoutNothing(init);
      WithoutSnoc(init, last, {});
    }
  }

  /** The `i`-th booking of a day's list is still in the table while the loop has deleted only earlier ones. */
  lemma NotYetDeleted(records: seq<Booking>, targets: seq<Booking>, i: nat, failing: set<nat>)
    requires DistinctIds(targets) && i < |targets|
    requires forall b :: b in targets ==> b in records
    ensures targets[i] in Without(records, Ids(Deletable(targets[..i], failing)))
  {
    forall b | b in Deletable(targets[..i], failing) ensures b.id != targets[i].id {
      var k :| 0 <= k < i && targets[k] == b;
    }
  }

  /** Bookings that do not start on the deleted day are all still in the table after a delete. */
  lemma DeleteKeepsOtherDays(records: seq<Booking>, date: Instant, failing: set<nat>, b: Booking)
    requires DistinctIds(records) && b in records && Day(b.startTime) != Day(date)
    ensures b in Without(records, Ids(Deletable(DayBookings(records, date), failing)))
  {
    var deleted := Deletable(DayBookings(records, date), failing);
    forall c | c in deleted ensures c.id != b.id {
      if c.id == b.id {
        IdIdentifiesRecord(records, b, c);
      }
    }
  }

  /** The bookings whose delete fails stay in the table. */
  lemma DeleteKeepsFailures(records: seq<Booking>, date: Instant, failing: set<nat>, b: Booking)
    requires DistinctIds(records) && b in records && b.id in failing
    ensures b in Without(records, Ids(Deletable(DayBookings(records, date), failing)))
  {
  }

  datatype UpdateOutcome = Updated(original: Booking, updated: Booking) | UpdateFailed(error: ChatError)

  /**
   * The booking `executeUpdate` writes: same id, title and description; the
   * new time on the original start's day; the end at the explicit end time,
   * else start plus the extracted duration when it is non-zero, else plus
   * the original length; the extracted category when non-empty.
   */
  function Rescheduled(original: Booking, e: ExtractedInfo): Booking
    requires e.time.Some?
  {
    var start := SetHours(original.startTime, e.time.value.hour, e.time.value.minute);
    var end :=
      if e.endTime.Some? then SetHours(original.startTime, e.endTime.value.hour, e.endTime.value.minute)
      else if e.duration.Some? && e.duration.value != 0 then start + e.duration.value * MsPerHour
      else start + (original.endTime - original.startTime);
    Booking(original.id, original.title, original.description,
            if HasCategory(e) then e.category.value else original.category,
            start, end,
            if original.clientName == Some("") then None else original.clientName)
  }

  /** The rescheduled booking stays on its day, and keeps its length unless the extraction gives a new one. */
  lemma RescheduledMeaning(original: Booking, e: ExtractedInfo)
    requires e.time.Some?
    ensures var b := Rescheduled(original, e);
      b.id == original.id && b.title == original.title && b.description == original.description
    ensures e.time.value.hour * 60 + e.time.value.minute < 1440 ==>
      Day(Rescheduled(original, e).startTime) == Day(original.startTime)
      && TimeOfDay(Rescheduled(original, e).startTime) == e.time.value.hour * MsPerHour + e.time.value.minute * MsPerMinute
    ensures e.endTime.None? && (e.duration.None? || e.duration == Some(0)) ==>
      Rescheduled(original, e).endTime - Rescheduled(original, e).startTime == original.endTime - original.startTime
    ensures Rescheduled(original, e).category == if HasCategory(e) then e.category.value else original.category
  {
    if e.time.value.hour * 60 + e.time.value.minute < 1440 {
      SetHoursKeepsDay(original.startTime, e.time.value.hour, e.time.value.minute);
    }
  }

  /**
   * `executeUpdate`: after the date gate, reschedules the earliest booking of
   * that day; the gates run in order (a booking on the day, a new time, end
   * after start, no overlap with any other booking), and only that booking changes.
   */
  method ExecuteUpdate(store: Store, e: ExtractedInfo) returns (r: UpdateOutcome)
    requires store.Valid()
    modifies store
    ensures store.Valid() && store.nextId == old(store.nextId)
    ensures r.UpdateFailed? ==> store.records == old(store.records)
    ensures !ValidateDateForOperation(e.date, UpdateOp).isValid ==>
      r == UpdateFailed(ValidateDateForOperation(e.date, UpdateOp).error.value)
    ensures ValidateDateForOperation(e.date, UpdateOp).isValid ==>
      var targets := DayBookings(old(store.records), e.date.value);
      if targets == [] then r == UpdateFailed(NoBookingsToUpdate)
      else if e.time.None? then r == UpdateFailed(MissingNewTime)
      else
        var b := Rescheduled(targets[0], e);
        if b.endTime <= b.startTime then r == UpdateFailed(EndNotAfterStart)
        else if HasConflict(old(store.records), b.startTime, b.endTime, Some(b.id)) then r == UpdateFailed(TimeSlotConflict)
        else (r == Updated(targets[0], b) && store.records == Replace(old(store.records), b))
    ensures Disjoint(old(store.records)) ==> Disjoint(store.records)
  {
    var dateValidation := ValidateDateForOperation(e.date, UpdateOp);
    if !dateValidation.isValid {
      return UpdateFailed(dateValidation.error.value);
    }
    var bookings := GetBookingsForDateRange(store, StartOfDay(e.date.value), EndOfDay(e.date.value));
    assert bookings == DayBookings(store.records, e.date.value);
    if |bookings| == 0 {
      return UpdateFailed(NoBookingsToUpdate);
    }
    var bookingToUpdate := bookings[0];
    if e.time.None? {
      return UpdateFailed(MissingNewTime);
    }
    var newStartTime := bookingToUpdate.startTime;
    newStartTime := SetHours(newStartTime, e.time.value.hour, e.time.value.minute);
    var newEndTime;
    if e.endTime.Some? {
      newEndTime := bookingToUpdate.startTime;
      newEndTime := SetHours(newEndTime, e.endTime.value.hour, e.endTime.value.minute);
    } else {
      var originalDuration := bookingToUpdate.endTime - bookingToUpdate.startTime;
      newEndTime := if e.duration.Some? && e.duration.value != 0 then newStartTime + e.duration.value * MsPerHour
                    else newStartTime + originalDuration;
    }
    var category := if HasCategory(e) then e.category.value else bookingToUpdate.category;
    ghost var b := Rescheduled(bookingToUpdate, e);
    assert newStartTime == b.startTime && newEndTime == b.endTime && b.id == bookingToUpdate.id;
    if newEndTime <= newStartTime {
      return UpdateFailed(EndNotAfterStart);
    }
    if HasConflict(store.records, newStartTime, newEndTime, Some(bookingToUpdate.id)) {
      return UpdateFailed(TimeSlotConflict);
    }
    var updated := Booking(bookingToUpdate.id, bookingToUpdate.title, bookingToUpdate.description, category,
                           newStartTime, newEndTime,
                           if bookingToUpdate.clientName == Some("") then None else bookingToUpdate.clientName);
    assert updated == b;
    assert bookingToUpdate in store.records;
    if Disjoint(store.records) {
      ReplaceKeepsDisjoint(store.records, updated);
    }
    store.Update(updated);
    r := Updated(bookingToUpdate, updated);
  }

  /**
   * An update changes only the rescheduled booking: the table afterwards
   * holds the other bookings and the new value (when its id was present),
   * the set of ids is the same, and ids stay distinct.
   */
  lemma UpdateTouchesOnlyTarget(records: seq<Booking>, b: Booking)
    ensures forall x :: x in Replace(records, b) <==>
      (x in records && x.id != b.id) || (x == b && b.id in Ids(records))
    ensures Ids(Replace(records, b)) == Ids(records)
    ensures DistinctIds(records) ==> DistinctIds(Replace(records, b))
  {
    ReplaceMembers(records, b);
    SameIdsPointwise(records, Replace(records, b));
  }


  // ---------------------------------------------------------- session map

  datatype PartialBooking = PartialBooking(
    date: Option<Instant>, time: Option<ClockTime>, duration: Option<int>,
    category: Option<string>, clientName: Option<string>, title: Option<string>)

  datatype ConversationState = ConversationState(sessionId: string, lastIntent: Option<Intent>, partialBookingInfo: PartialBooking)

  /** `getSessionId()`: every request shares one session. */
  const SimpleSession: string := "simple_session"

  /** The state a session starts with. */
  const FreshState: ConversationState :=
    ConversationState(SimpleSession, None, PartialBooking(None, None, None, None, None, None))

  /** The `conversationStates` map. */
  class ConversationStates {
    var states: map<string, ConversationState>

    constructor ()
      ensures states == map[]
    {
      states := map[];
    }

    /** `getConversationState`: inserts the fresh state on first access, then returns the stored one. */
    method GetConversationState() returns (st: ConversationState)
      modifies this
      ensures SimpleSession in states && st == states[SimpleSession]
      ensures SimpleSession in old(states) ==> states == old(states)
      ensures SimpleSession !in old(states) ==> states == old(states)[SimpleSession := FreshState]
    {
      var sessionId := SimpleSession;
      if sessionId !in states {
        states := states[sessionId := FreshState];
      }
      st := states[sessionId];
    }
  }
}
