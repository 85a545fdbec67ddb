/**
 * Helpers of the landing page: the dash-inserting phone formatter, the
 * quantity counters, the business-day customer counter, the chat-hours
 * window, the sample-video selector, the schedule and consultation forms and
 * the customer's side of the chat widget.
 *
 * The landing page carries its own copy of the appointment calendar
 * (`isWeekday`, `isHoliday`, `generateCalendar`); it is the same code as the
 * estimate wizard's and is modelled once, in `BusinessCalendar`.
 */
module Landing {
  import opened Common
  import opened BusinessCalendar
  import SheetsMirror

  // ---------------------------------------------------------------------
  // Phone formatting
  // ---------------------------------------------------------------------

  function Min(a: int, b: int): int { if a <= b then a else b }

  /** `formatPhoneNumber`: at most 11 digits, dashes after the 3rd and the 7th. */
  function FormatPhoneNumber(value: string): (r: string)
    ensures forall i :: 0 <= i < |r| ==> IsDigit(r[i]) || r[i] == '-'
    ensures |r| <= 13
  {
    var n := Digits(value);
    if |n| <= 3 then n
    else if |n| <= 7 then n[..3] + "-" + n[3..]
    else n[..3] + "-" + n[3..7] + "-" + n[7..Min(|n|, 11)]
  }

  /** The formatter keeps exactly the first eleven digits of the input, in order. */
  lemma FormatPhoneNumberDigits(value: string)
    ensures Digits(FormatPhoneNumber(value)) == Digits(value)[..Min(|Digits(value)|, 11)]
  {
    var n := Digits(value);
    if |n| <= 3 {
      assert n[..|n|] == n;
    } else if |n| <= 7 {
      assert n[..|n|] == n == n[..3] + n[3..];
      DigitsJoin(n[..3], n[3..]);
    } else {
      var k := Min(|n|, 11);
      assert n[..k] == n[..3] + n[3..7] + n[7..k];
      DigitsJoin3(n[..3], n[3..7], n[7..k]);
    }
  }

  /**
   * Dashes sit after the third digit, and after the seventh when there are
   * more than seven; every other character is a digit.
   */
  lemma FormatPhoneNumberDashes(value: string)
    ensures |Digits(value)| > 3 ==> FormatPhoneNumber(value)[3] == '-'
    ensures |Digits(value)| > 7 ==> FormatPhoneNumber(value)[8] == '-'
    ensures |Digits(value)| <= 3 ==> FormatPhoneNumber(value) == Digits(value)
    ensures forall i :: 0 <= i < |FormatPhoneNumber(value)| && i != 3 && i != 8 ==> IsDigit(FormatPhoneNumber(value)[i])
  {
    var n := Digits(value);
    var r := FormatPhoneNumber(value);
    if |n| > 7 {
      assert r == n[..3] + "-" + n[3..7] + "-" + n[7..Min(|n|, 11)];
      forall i | 0 <= i < |r| && i != 3 && i != 8 ensures IsDigit(r[i]) {
        if i < 3 { assert r[i] == n[i]; }
        else if i < 8 { assert r[i] == n[i - 1]; }
        else { assert r[i] == n[i - 2]; }
      }
    } else if |n| > 3 {
      assert r == n[..3] + "-" + n[3..];
      forall i | 0 <= i < |r| && i != 3 ensures IsDigit(r[i]) {
        if i < 3 { assert r[i] == n[i]; } else { assert r[i] == n[i - 1]; }
      }
    }
  }

  /** Formatting an already formatted number changes nothing. */
  lemma FormatPhoneNumberIdempotent(value: string)
    ensures FormatPhoneNumber(FormatPhoneNumber(value)) == FormatPhoneNumber(value)
  {
    var n := Digits(value);
    var k := Min(|n|, 11);
    FormatPhoneNumberDigits(value);
    var t := n[..k];
    assert Digits(FormatPhoneNumber(value)) == t;
    if |n| <= 7 {
      assert t == n;
    } else {
      assert t[..3] == n[..3] && t[3..7] == n[3..7] && t[7..Min(|t|, 11)] == n[7..k];
    }
  }

  // ---------------------------------------------------------------------
  // Quantity counters
  // ---------------------------------------------------------------------

  /** `Math.max(0, count + delta)` of `handleQuantityChange`. */
  function AdjustCount(count: nat, delta: int): (r: nat)
    ensures count + delta >= 0 ==> r == count + delta
    ensures count + delta < 0 ==> r == 0
  {
    if count + delta > 0 then count + delta else 0
  }

  /** A `+` followed by a `-` restores the count; a `-` at zero stays at zero. */
  lemma AdjustCountUndo(count: nat, delta: nat)
    ensures AdjustCount(AdjustCount(count, delta), 0 - delta) == count
    ensures AdjustCount(0, 0 - delta) == 0
  {
  }

  // ---------------------------------------------------------------------
  // Customer counter
  // ---------------------------------------------------------------------

  /** The first day the counter counts. */
  const CounterStart: CivilDate := Date(2024, 1, 1)
  const StartingCount: nat := 10800
  const DailyIncrease: nat := 7

  /** Weekdays among the `k` days starting at `d`. */
  function WeekdayCount(d: CivilDate, k: nat): (n: nat)
    ensures n <= k
  {
    if k == 0 then 0
    else WeekdayCount(d, k - 1) + (if IsWeekday(Advance(d, k - 1)) then 1 else 0)
  }

  lemma WeekdayCountStep(d: CivilDate, i: nat, b: bool)
    requires b == IsWeekday(Advance(d, i))
    ensures WeekdayCount(d, i + 1) == WeekdayCount(d, i) + (if b then 1 else 0)
  {
  }

  /** 2024-01-01 is day 19723 after 1970-01-01, a Monday. */
  lemma CounterStartNumber()
    ensures DayNumber(CounterStart) == 19723 && Weekday(CounterStart) == 1
  {
    assert LeapYearsBefore(2024) - LeapYearsBefore(1970) == 13;
  }

  lemma {:induction false} WeekdayCountMonotone(d: CivilDate, j: nat, k: nat)
    requires j <= k
    ensures WeekdayCount(d, j) <= WeekdayCount(d, k)
  {
    if j < k {
      WeekdayCountMonotone(d, j, k - 1);
    }
  }

  /** Days from `CounterStart` through `last`, inclusive; none before the start. */
  function DaysThrough(last: CivilDate): nat
  {
    var n := DayNumber(last) - DayNumber(CounterStart) + 1;
    if n > 0 then n else 0
  }

  /** The count shown when the last day the loop reaches is `last`. */
  function CustomerCount(last: CivilDate): (c: nat)
    ensures StartingCount <= c <= StartingCount + DailyIncrease * DaysThrough(last)
  {
    StartingCount + DailyIncrease * WeekdayCount(CounterStart, DaysThrough(last))
  }

  /** The counter never goes down as the days pass. */
  lemma CustomerCountMonotone(a: CivilDate, b: CivilDate)
    requires DayNumber(a) <= DayNumber(b)
    ensures CustomerCount(a) <= CustomerCount(b)
  {
    WeekdayCountMonotone(CounterStart, DaysThrough(a), DaysThrough(b));
  }

  /**
   * `calculateCustomerCount`: walk day by day from 2024-01-01 through `last`
   * and add 7 per weekday to 10800. Which day is the last one the loop
   * reaches depends on the clock; it is the parameter.
   */
  method CalculateCustomerCount(last: CivilDate) returns (count: nat)
    ensures count == CustomerCount(last)
  {
    var d: CivilDate := CounterStart;
    var businessDays: nat := 0;
    ghost var i: nat := 0;
    CounterStartNumber();
    while DayNumber(d) <= DayNumber(last)
      invariant d == Advance(CounterStart, i) && DayNumber(d) == DayNumber(CounterStart) + i
      invariant i <= DaysThrough(last)
      invariant businessDays == WeekdayCount(CounterStart, i)
      decreases DayNumber(last) - DayNumber(d)
    {
      var weekday := IsWeekday(d);
      if weekday {
        businessDays := businessDays + 1;
      }
      WeekdayCountStep(CounterStart, i, weekday);
      NextDayNumber(d);
      d := NextDay(d);
      i := i + 1;
    }
    count := StartingCount + businessDays * DailyIncrease;
  }

  // ---------------------------------------------------------------------
  // Chat hours
  // ---------------------------------------------------------------------

  const LocalHosts: set<string> := {"localhost", "127.0.0.1", "0.0.0.0"}

  /**
   * `isWithinChatHours`, with the Seoul weekday (0 = Sunday), hour and
   * minute as parameters.
   */
  function IsWithinChatHours(hostname: string, day: int, hour: int, minute: int): (r: bool)
    ensures hostname in LocalHosts ==> r
    ensures hostname !in LocalHosts && 0 <= hour < 24 && 0 <= minute < 60 ==>
              (r <==> 1 <= day <= 5 && 10 <= hour < 17)
  {
    if hostname in LocalHosts then true
    else
      var totalMinutes := hour * 60 + minute;
      1 <= day <= 5 && totalMinutes >= 600 && totalMinutes < 1020
  }

  // ---------------------------------------------------------------------
  // Video selector
  // ---------------------------------------------------------------------

  /** An object literal: its keys in insertion order with their values. */
  type Table<V> = seq<(string, V)>

  function Keys<V>(t: Table<V>): (r: seq<string>)
    ensures |r| == |t| && forall i :: 0 <= i < |t| ==> r[i] == t[i].0
  {
    seq(|t|, i requires 0 <= i < |t| => t[i].0)
  }

  /** `t[k]`: the value of the first entry with key `k`. */
  function Find<V>(t: Table<V>, k: string): (r: Option<V>)
    ensures r.Some? <==> k in Keys(t)
    ensures r.Some? ==> exists i :: 0 <= i < |t| && t[i] == (k, r.value)
  {
    if t == [] then None
    else if t[0].0 == k then Some(t[0].1)
    else
      var r := Find(t[1..], k);
      assert r.Some? ==> exists i :: 0 <= i < |t[1..]| && t[1..][i] == (k, r.value);
      assert Keys(t) == [t[0].0] + Keys(t[1..]);
      r
  }

  const VideoData: Table<Table<Table<string>>> :=
    [("500만화소", [("헬스장", [("낮", "ypYZr1a4Mwk"), ("밤", "Dx-fb4bTFeU")]),
                   ("주택", [("낮", "-3GbjSR5n_M"), ("밤", "g7VMVCY1WfQ")])]),
     ("210만화소", [("카페", [("낮", "5VqmzfruI7Y"), ("밤", "3VG3Dg9GDfE")]),
                   ("주택", [("낮", "6nbWMGtOjKQ"), ("밤", "R1bx48Kht0U")]),
                   ("매장", [("낮", "mdsZIbqVAe4")]),
                   ("공장", [("낮", "rU-4jML8goE")]),
                   ("키즈카페", [("밤", "9m3CiqjQ8OE")])])]

  const FallbackVideo := "ypYZr1a4Mwk"
  const DefaultTime := "낮"

  /** `getLocations` for a resolution. */
  function Locations(resolution: string): seq<string>
  {
    match Find(VideoData, resolution)
    case Some(locations) => Keys(locations)
    case None => []
  }

  /** `getTimes` for a resolution and a location. */
  function Times(resolution: string, location: string): seq<string>
  {
    match Find(VideoData, resolution)
    case Some(locations) =>
      (match Find(locations, location)
       case Some(times) => Keys(times)
       case None => [])
    case None => []
  }

  function VideoLookup(resolution: string, location: string, time: string): Option<string>
  {
    match Find(VideoData, resolution)
    case Some(locations) =>
      (match Find(locations, location)
       case Some(times) => Find(times, time)
       case None => None)
    case None => None
  }

  /** A time has a video exactly when it is one of the location's times. */
  lemma LookupIffTime(resolution: string, location: string, time: string)
    ensures VideoLookup(resolution, location, time).Some? <==> time in Times(resolution, location)
  {
  }

  /** `getCurrentVideoId`: the table entry, or the default clip. */
  function CurrentVideoId(resolution: string, location: string, time: string): (id: string)
    ensures VideoLookup(resolution, location, time).Some? ==> id == VideoLookup(resolution, location, time).value
    ensures VideoLookup(resolution, location, time).None? ==> id == FallbackVideo
  {
    match VideoLookup(resolution, location, time)
    case Some(v) => v
    case None => FallbackVideo
  }

  /** The fallback clip is itself a table entry, so every id shown is one. */
  lemma FallbackIsAnEntry()
    ensures VideoLookup("500만화소", "헬스장", "낮") == Some(FallbackVideo)
  {
  }

  /** The first element, or `otherwise` for an empty list (`xs[0] || otherwise`). */
  function FirstOr(xs: seq<string>, otherwise: string): string
  {
    if xs == [] || xs[0] == "" then otherwise else xs[0]
  }

  /** The location and time `handleResolutionChange` selects for `resolution`. */
  function ResolutionDefaults(resolution: string): (string, string)
  {
    var location := FirstOr(Locations(resolution), "");
    (location, FirstOr(Times(resolution, location), DefaultTime))
  }

  /** The time `handleLocationChange` keeps or picks for `location`. */
  function TimeForLocation(resolution: string, location: string, time: string): (t: string)
    ensures time in Times(resolution, location) ==> t == time
  {
    if time in Times(resolution, location) then time else FirstOr(Times(resolution, location), DefaultTime)
  }

  /** Every location of every resolution lists a time, and the first time key is not empty. */
  ghost predicate EveryLocationTimed(data: Table<Table<Table<string>>>)
  {
    forall i, j :: 0 <= i < |data| && 0 <= j < |data[i].1| ==>
      data[i].1[j].1 != [] && data[i].1[j].1[0].0 != ""
  }

  lemma VideoDataTimed()
    ensures EveryLocationTimed(VideoData)
  {
  }

  lemma EveryLocationHasTimes(resolution: string, location: string)
    requires location in Locations(resolution)
    ensures Times(resolution, location) != [] && Times(resolution, location)[0] != ""
  {
    VideoDataTimed();
    var locations := Find(VideoData, resolution).value;
    var times := Find(locations, location).value;
    assert exists j :: 0 <= j < |locations| && locations[j] == (location, times);
  }

  /** After a resolution change the selection names an existing clip. */
  lemma ResolutionChangeNamesEntry(resolution: string)
    requires resolution in Keys(VideoData)
    ensures VideoLookup(resolution, ResolutionDefaults(resolution).0, ResolutionDefaults(resolution).1).Some?
  {
    assert Keys(VideoData) == ["500만화소", "210만화소"];
    var location := ResolutionDefaults(resolution).0;
    assert location in Locations(resolution);
    EveryLocationHasTimes(resolution, location);
    LookupIffTime(resolution, location, ResolutionDefaults(resolution).1);
  }

  /** After a location change the selection names an existing clip. */
  lemma LocationChangeNamesEntry(resolution: string, location: string, time: string)
    requires resolution in Keys(VideoData) && location in Locations(resolution)
    ensures VideoLookup(resolution, location, TimeForLocation(resolution, location, time)).Some?
  {
    EveryLocationHasTimes(resolution, location);
    LookupIffTime(resolution, location, TimeForLocation(resolution, location, time));
  }

  /** The resolution, location and time-of-day buttons above the sample video. */
  class VideoSelector {
    var resolution: string
    var location: string
    var timeOfDay: string

    /** The selection always names a clip of the table. */
    ghost predicate Valid()
      reads this
    {
      resolution in Keys(VideoData) && VideoLookup(resolution, location, timeOfDay).Some?
    }

    constructor()
      ensures resolution == "500만화소" && location == "헬스장" && timeOfDay == "낮"
      ensures Valid()
    {
      resolution, location, timeOfDay := "500만화소", "헬스장", "낮";
      assert Keys(VideoData) == ["500만화소", "210만화소"];
    }

    /** `handleResolutionChange`. */
    method ChangeResolution(r: string)
      modifies this
      requires r in Keys(VideoData)
      ensures resolution == r
      ensures (location, timeOfDay) == ResolutionDefaults(r)
      ensures Valid()
    {
      resolution := r;
      var locations := Locations(r);
      location := FirstOr(locations, "");
      timeOfDay := FirstOr(Times(r, location), DefaultTime);
      ResolutionChangeNamesEntry(r);
    }

    /** `handleLocationChange`. */
    method ChangeLocation(l: string)
      modifies this
      requires Valid() && l in Locations(resolution)
      ensures resolution == old(resolution) && location == l
      ensures timeOfDay == TimeForLocation(old(resolution), l, old(timeOfDay))
      ensures Valid()
    {
      location := l;
      var times := Times(resolution, l);
      if timeOfDay !in times {
        timeOfDay := FirstOr(times, DefaultTime);
      }
      LocationChangeNamesEntry(resolution, l, old(timeOfDay));
    }

    /** A time-of-day button; only the location's times are offered. */
    method ChangeTimeOfDay(t: string)
      modifies this
      requires Valid() && t in Times(resolution, location)
      ensures resolution == old(resolution) && location == old(location) && timeOfDay == t
      ensures Valid()
    {
      timeOfDay := t;
      LookupIffTime(resolution, location, t);
    }

    /** The clip shown: never the fallback while the selection is valid. */
    method CurrentVideo() returns (id: string)
      requires Valid()
      ensures id == CurrentVideoId(resolution, location, timeOfDay)
      ensures Some(id) == VideoLookup(resolution, location, timeOfDay)
    {
      id := CurrentVideoId(resolution, location, timeOfDay);
    }
  }

  // ---------------------------------------------------------------------
  // Schedule and consultation forms
  // ---------------------------------------------------------------------

  datatype CountField = IndoorCount | OutdoorCount

  datatype ScheduleForm = ScheduleForm(phoneNumber: string, address: string, indoorCount: nat,
                                       outdoorCount: nat, privacyConsent: bool)

  const EmptyScheduleForm := ScheduleForm("", "", 0, 0, false)

  /** The body posted by the schedule modal (`scheduleOnly`). */
  datatype ScheduleRequest = ScheduleRequest(date: CivilDate, time: string, phoneNumber: string,
                                             address: string, indoorCount: nat, outdoorCount: nat)

  /** What `handleScheduleSubmit` demands before posting. */
  predicate ScheduleReady(date: Option<CivilDate>, time: string, f: ScheduleForm)
  {
    date.Some? && time != "" && f.phoneNumber != "" && f.address != ""
    && !(f.indoorCount == 0 && f.outdoorCount == 0) && f.privacyConsent
  }

  function WithCount(f: ScheduleForm, field: CountField, delta: int): ScheduleForm
  {
    match field
    case IndoorCount => f.(indoorCount := AdjustCount(f.indoorCount, delta))
    case OutdoorCount => f.(outdoorCount := AdjustCount(f.outdoorCount, delta))
  }

  /** The schedule modal: its form, the chosen day and time, and whether it is open. */
  class ScheduleModal {
    var isOpen: bool
    var form: ScheduleForm
    var selectedDate: Option<CivilDate>
    var selectedTime: string

    constructor()
      ensures !isOpen && form == EmptyScheduleForm && selectedDate == None && selectedTime == ""
    {
      isOpen, form, selectedDate, selectedTime := false, EmptyScheduleForm, None, "";
    }

    /** The header's booking button opens the modal, keeping what was entered. */
    method Open()
      modifies this
      ensures isOpen
      ensures form == old(form) && selectedDate == old(selectedDate) && selectedTime == old(selectedTime)
    {
      isOpen := true;
    }

    /** `handlePhoneChange`. */
    method ChangePhone(value: string)
      modifies this
      ensures form == old(form).(phoneNumber := FormatPhoneNumber(value))
      ensures isOpen == old(isOpen) && selectedDate == old(selectedDate) && selectedTime == old(selectedTime)
    {
      form := form.(phoneNumber := FormatPhoneNumber(value));
    }

    /** `handleInputChange` on the address field. */
    method ChangeAddress(value: string)
      modifies this
      ensures form == old(form).(address := value)
      ensures isOpen == old(isOpen) && selectedDate == old(selectedDate) && selectedTime == old(selectedTime)
    {
      form := form.(address := value);
    }

    /** `handleInputChange` on the consent checkbox. */
    method ChangePrivacyConsent(checked: bool)
      modifies this
      ensures form == old(form).(privacyConsent := checked)
      ensures isOpen == old(isOpen) && selectedDate == old(selectedDate) && selectedTime == old(selectedTime)
    {
      form := form.(privacyConsent := checked);
    }

    /** `handleQuantityChange`. */
    method ChangeQuantity(field: CountField, delta: int)
      modifies this
      ensures form == WithCount(old(form), field, delta)
      ensures isOpen == old(isOpen) && selectedDate == old(selectedDate) && selectedTime == old(selectedTime)
    {
      form := WithCount(form, field, delta);
    }

    /**
     * A click on day `k` of (`year`, `month`) in a grid built on `today`,
     * whose earliest bookable date is `minDate`.
     */
    method SelectDay(today: CivilDate, minDate: CivilDate, year: int, month: int, k: int)
      modifies this
      requires 1 <= month <= 12
      requires IsMinimumDate(today, minDate)
      ensures var cell := CellAt(year, month, DayNumber(minDate), k);
        selectedDate == (if cell.Some? && cell.value.isAvailable then Some(cell.value.date) else old(selectedDate))
      ensures selectedDate.Some? && selectedDate != old(selectedDate) ==>
        IsBusinessDay(selectedDate.value) && DayNumber(selectedDate.value) > DayNumber(today)
      ensures isOpen == old(isOpen) && form == old(form) && selectedTime == old(selectedTime)
    {
      MinimumDateAfterToday(today, minDate);
      var cell := CellAt(year, month, DayNumber(minDate), k);
      if cell.Some? && cell.value.isAvailable {
        selectedDate := Some(cell.value.date);
      }
    }

    method SelectTime(time: string)
      modifies this
      ensures selectedTime == time
      ensures isOpen == old(isOpen) && form == old(form) && selectedDate == old(selectedDate)
    {
      selectedTime := time;
    }

    /**
     * `handleScheduleSubmit`: nothing is posted unless every required field
     * is set and some camera is counted; `ok` is whether the server accepted
     * the post, and only then is the modal closed and cleared.
     */
    method Submit(ok: bool) returns (sent: Option<ScheduleRequest>)
      modifies this
      ensures sent.Some? <==> ScheduleReady(old(selectedDate), old(selectedTime), old(form))
      ensures sent.Some? ==> sent.value == ScheduleRequest(old(selectedDate).value, old(selectedTime),
                                                          old(form).phoneNumber, old(form).address,
                                                          old(form).indoorCount, old(form).outdoorCount)
      ensures sent.Some? ==> sent.value.indoorCount + sent.value.outdoorCount > 0
      ensures sent.Some? && ok ==>
        !isOpen && form == EmptyScheduleForm && selectedDate == None && selectedTime == ""
      ensures sent.None? || !ok ==>
        isOpen == old(isOpen) && form == old(form) && selectedDate == old(selectedDate) && selectedTime == old(selectedTime)
    {
      if selectedDate.None? || selectedTime == "" || form.phoneNumber == "" || form.address == ""
         || (form.indoorCount == 0 && form.outdoorCount == 0) || !form.privacyConsent {
        return None;
      }
      sent := Some(ScheduleRequest(selectedDate.value, selectedTime, form.phoneNumber, form.address,
                                   form.indoorCount, form.outdoorCount));
      if ok {
        isOpen := false;
        selectedDate := None;
        selectedTime := "";
        form := EmptyScheduleForm;
      }
    }
  }

  datatype ConsultationForm = ConsultationForm(phoneNumber: string, address: string, indoorCount: nat,
                                               outdoorCount: nat, locationType: string, hasInternet: string,
                                               privacyConsent: bool)

  const EmptyConsultationForm := ConsultationForm("", "", 0, 0, "", "", false)

  /** What `handleConsultationSubmit` demands before posting. */
  predicate ConsultationReady(f: ConsultationForm)
  {
    f.phoneNumber != "" && f.address != "" && !(f.indoorCount == 0 && f.outdoorCount == 0)
    && f.locationType != "" && f.hasInternet != "" && f.privacyConsent
  }

  /** The body posted by the consultation form (`consultationRequest`). */
  datatype ConsultationRequest = ConsultationRequest(phoneNumber: string, address: string, locationType: string,
                                                     hasInternet: string, indoorCount: nat, outdoorCount: nat)

  /**
   * The consultation body as the estimate handler receives it, `time`
   * being its formatted `submittedAt`: a `contactInfo` and a
   * `currentSelection` holding only the counts, and no `appointment`
   * object at all, so the sheet mirror cannot build its row.
   */
  function ConsultationSubmission(r: ConsultationRequest, time: string): (s: SheetsMirror.Submission)
    ensures !SheetsMirror.Mirrorable(s) && !s.hasAppointment
    ensures s.phoneNumber == Some(r.phoneNumber) && s.address == Some(r.address)
    ensures s.locationType == Some(r.locationType) && s.hasInternet == Some(r.hasInternet)
    ensures s.indoorCount == Some(r.indoorCount) && s.outdoorCount == Some(r.outdoorCount)
  {
    SheetsMirror.Submission(None, time, true, true, false, None, None, Some(r.indoorCount), Some(r.outdoorCount),
                            None, None, false, Some(r.phoneNumber), Some(r.address), Some(r.locationType),
                            Some(r.hasInternet), None, None)
  }

  /**
   * The schedule body as the estimate handler receives it, with `dateText`
   * the formatted appointment date: all three objects are present.
   */
  function ScheduleSubmission(r: ScheduleRequest, time: string, dateText: string): (s: SheetsMirror.Submission)
    ensures SheetsMirror.Mirrorable(s)
    ensures s.phoneNumber == Some(r.phoneNumber) && s.address == Some(r.address)
    ensures s.appointmentDate == Some(dateText) && s.appointmentTime == Some(r.time)
    ensures s.indoorCount == Some(r.indoorCount) && s.outdoorCount == Some(r.outdoorCount)
  {
    SheetsMirror.Submission(None, time, true, true, true, None, None, Some(r.indoorCount), Some(r.outdoorCount),
                            None, None, false, Some(r.phoneNumber), Some(r.address), None, None,
                            Some(dateText), Some(r.time))
  }

  /** The inline consultation form and whether it is shown. */
  class ConsultationPanel {
    var isShown: bool
    var form: ConsultationForm

    constructor()
      ensures !isShown && form == EmptyConsultationForm
    {
      isShown, form := false, EmptyConsultationForm;
    }

    /** `handleConsultationClick`. */
    method Show()
      modifies this
      ensures isShown && form == old(form)
    {
      isShown := true;
    }

    /** `handleConsultationFormChange` on the phone field. */
    method ChangePhone(value: string)
      modifies this
      ensures form == old(form).(phoneNumber := FormatPhoneNumber(value)) && isShown == old(isShown)
    {
      form := form.(phoneNumber := FormatPhoneNumber(value));
    }

    /** `handleConsultationFormChange` on the other fields. */
    method ChangeFields(address: string, locationType: string, hasInternet: string, privacyConsent: bool)
      modifies this
      ensures form == old(form).(address := address, locationType := locationType,
                                 hasInternet := hasInternet, privacyConsent := privacyConsent)
      ensures isShown == old(isShown)
    {
      form := form.(address := address, locationType := locationType,
                    hasInternet := hasInternet, privacyConsent := privacyConsent);
    }

    /** `handleConsultationQuantityChange`. */
    method ChangeQuantity(field: CountField, delta: int)
      modifies this
      ensures form == (match field
                       case IndoorCount => old(form).(indoorCount := AdjustCount(old(form).indoorCount, delta))
                       case OutdoorCount => old(form).(outdoorCount := AdjustCount(old(form).outdoorCount, delta)))
      ensures isShown == old(isShown)
    {
      match field
      case IndoorCount => form := form.(indoorCount := AdjustCount(form.indoorCount, delta));
      case OutdoorCount => form := form.(outdoorCount := AdjustCount(form.outdoorCount, delta));
    }

    /** `handleConsultationSubmit`; `ok` is whether the server accepted the post. */
    method Submit(ok: bool) returns (sent: Option<ConsultationRequest>)
      modifies this
      ensures sent.Some? <==> ConsultationReady(old(form))
      ensures sent.Some? ==> sent.value == ConsultationRequest(old(form).phoneNumber, old(form).address,
                                                              old(form).locationType, old(form).hasInternet,
                                                              old(form).indoorCount, old(form).outdoorCount)
      ensures sent.Some? ==> sent.value.indoorCount + sent.value.outdoorCount > 0
      ensures sent.Some? && ok ==> !isShown && form == EmptyConsultationForm
      ensures sent.None? || !ok ==> isShown == old(isShown) && form == old(form)
    {
      if form.phoneNumber == "" || form.address == "" || (form.indoorCount == 0 && form.outdoorCount == 0)
         || form.locationType == "" || form.hasInternet == "" || !form.privacyConsent {
        return None;
      }
      sent := Some(ConsultationRequest(form.phoneNumber, form.address, form.locationType, form.hasInternet,
                                       form.indoorCount, form.outdoorCount));
      if ok {
        isShown := false;
        form := EmptyConsultationForm;
      }
    }
  }

  // ---------------------------------------------------------------------
  // Chat widget (customer side)
  // ---------------------------------------------------------------------

  datatype ChatPhase = Pending | Active | Ended

  /** A message as the widget shows it. */
  datatype ChatLine = ChatLine(text: string, sender: string)

  /** The first index of `c` in `s`. */
  function IndexOf(s: string, c: char): (r: Option<nat>)
    ensures r.Some? <==> c in s
    ensures r.Some? ==> r.value < |s| && s[r.value] == c && c !in s[..r.value]
  {
    if s == [] then None
    else if s[0] == c then Some(0)
    else match IndexOf(s[1..], c)
      case Some(i) =>
        assert s[..i + 1] == [s[0]] + s[1..][..i];
        Some(i + 1)
      case None => None
  }

  /** `s.split('-')[1]`: the text between the first and the second dash, absent without a dash. */
  function SecondSegment(s: string): (r: Option<string>)
    ensures r.Some? <==> '-' in s
    ensures r.Some? ==> '-' !in r.value
  {
    match IndexOf(s, '-')
    case None => None
    case Some(i) =>
      var rest := s[i + 1..];
      match IndexOf(rest, '-')
      case None => Some(rest)
      case Some(j) => Some(rest[..j])
  }

  /** `'고객 ' + sessionId.split('-')[1].substr(0, 4)`; absent where the source would throw. */
  function CustomerName(sessionId: string): (r: Option<string>)
    ensures r.Some? <==> '-' in sessionId
    ensures r.Some? ==> 3 <= |r.value| <= 7 && r.value[..3] == "고객 "
  {
    match SecondSegment(sessionId)
    case None => None
    case Some(seg) => Some("고객 " + seg[..Min(|seg|, 4)])
  }

  /**
   * A session id made as `customer-<milliseconds>-<random>` names the
   * customer by the first four digits of the time.
   */
  lemma GeneratedName(stamp: string, tag: string)
    requires AllDigits(stamp) && |stamp| >= 4 && '-' !in tag
    ensures CustomerName("customer-" + stamp + "-" + tag) == Some("고객 " + stamp[..4])
  {
    var s := "customer-" + stamp + "-" + tag;
    assert IndexOf(s, '-') == Some(8) by {
      assert s[8] == '-' && s[..8] == "customer";
    }
    var rest := s[9..];
    assert rest == stamp + "-" + tag;
    assert '-' !in stamp by {
      forall i | 0 <= i < |stamp| ensures stamp[i] != '-' {
        assert IsDigit(stamp[i]);
      }
    }
    assert IndexOf(rest, '-') == Some(|stamp|) by {
      assert rest[|stamp|] == '-' && rest[..|stamp|] == stamp;
    }
    assert rest[..|stamp|] == stamp;
    assert SecondSegment(s) == Some(rest[..|stamp|]);
    assert Min(|stamp|, 4) == 4;
  }

  /** The chat state the customer's widget keeps. */
  class ChatWidget {
    var sessionId: Option<string>
    var status: Option<ChatPhase>
    var isOpen: bool
    var showMenu: bool
    var messages: seq<ChatLine>
    var input: string

    constructor(sessionId: Option<string>)
      ensures this.sessionId == sessionId && status == None && !isOpen && !showMenu
      ensures messages == [] && input == ""
    {
      this.sessionId := sessionId;
      status, isOpen, showMenu, messages, input := None, false, false, [], "";
    }

    /**
     * The chat button (`handleStartChatRequest` when `isWithinChatHours`
     * holds): posts the session id and the derived customer name; `created`
     * is whether the answer carried a chat. Returns the request posted.
     */
    method StartChatRequest(withinHours: bool, created: bool) returns (request: Option<(string, string)>)
      modifies this
      ensures request.Some? <==>
        withinHours && old(sessionId).Some? && CustomerName(old(sessionId).value).Some?
      ensures request.Some? ==> request.value == (old(sessionId).value, CustomerName(old(sessionId).value).value)
      ensures request.Some? && created ==>
        status == Some(Pending) && isOpen && !showMenu
        && sessionId == old(sessionId) && messages == old(messages) && input == old(input)
      ensures request.None? || !created ==>
        sessionId == old(sessionId) && status == old(status) && isOpen == old(isOpen)
        && showMenu == old(showMenu) && messages == old(messages) && input == old(input)
    {
      if !withinHours || sessionId.None? {
        return None;
      }
      var name := CustomerName(sessionId.value);
      if name.None? {
        return None;
      }
      request := Some((sessionId.value, name.value));
      if created {
        status := Some(Pending);
        showMenu := false;
        isOpen := true;
      }
    }

    /**
     * `handleCloseChatFromCustomer`: closes the window; a pending request is
     * also cancelled on the server and forgotten. Returns whether the delete
     * was requested.
     */
    method CloseFromCustomer() returns (deleteRequested: bool)
      modifies this
      ensures deleteRequested <==> old(status) == Some(Pending)
      ensures !isOpen && sessionId == old(sessionId) && showMenu == old(showMenu) && input == old(input)
      ensures deleteRequested ==> status == None && messages == []
      ensures !deleteRequested ==> status == old(status) && messages == old(messages)
    {
      isOpen := false;
      deleteRequested := status == Some(Pending);
      if deleteRequested {
        status := None;
        messages := [];
      }
    }

    /**
     * `handleChatSend`: only a non-blank input in an active chat is sent.
     * The message is shown at once and the input cleared; `reply` is the
     * server's message list when the answer carried the chat.
     */
    method Send(reply: Option<seq<ChatLine>>) returns (sent: Option<string>)
      modifies this
      ensures sent.Some? <==> Trim(old(input)) != "" && old(sessionId).Some? && old(status) == Some(Active)
      ensures sent.Some? ==> sent.value == old(input) && input == ""
      ensures sent.Some? ==> messages == (if reply.Some? then reply.value
                                         else old(messages) + [ChatLine(old(input), "user")])
      ensures sent.None? ==> input == old(input) && messages == old(messages)
      ensures sessionId == old(sessionId) && status == old(status) && isOpen == old(isOpen)
      ensures showMenu == old(showMenu)
    {
      if Trim(input) == "" || sessionId.None? || status != Some(Active) {
        return None;
      }
      sent := Some(input);
      messages := messages + [ChatLine(input, "user")];
      input := "";
      if reply.Some? {
        messages := reply.value;
      }
    }

    method TypeInput(text: string)
      modifies this
      ensures input == text
      ensures sessionId == old(sessionId) && status == old(status) && isOpen == old(isOpen)
      ensures showMenu == old(showMenu) && messages == old(messages)
    {
      input := text;
    }
  }
}
