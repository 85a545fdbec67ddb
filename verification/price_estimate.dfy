/**
 * The four-step price estimate wizard of the landing page: camera selection
 * (step 1), price display (step 2), contact form (step 3) and appointment
 * (step 4). The React state hooks become the fields of `Wizard`; the pure
 * helpers (price table, option toggling, phone normalisation) are functions.
 */
module EstimateWizard {
  import opened Common
  import opened BusinessCalendar

  // ---------------------------------------------------------------------
  // Price table
  // ---------------------------------------------------------------------

  /** The price table for 2.1-megapixel cameras, keyed by total camera count. */
  const PriceTable: seq<(int, nat)> :=
    [(2, 22000), (3, 26000), (4, 30000), (5, 36000), (6, 40000), (7, 44000), (8, 48000),
     (9, 60000), (10, 64000), (11, 68000), (12, 72000), (13, 76000), (14, 80000),
     (15, 84000), (16, 88000)]

  /** `calculatePrice`: `priceMap[total] || 0`. */
  function PriceFor(totalCameras: int): (p: nat)
    ensures p > 0 <==> 2 <= totalCameras <= 16
    ensures p == 0 || 22000 <= p <= 88000
  {
    match totalCameras
    case 2 => 22000
    case 3 => 26000
    case 4 => 30000
    case 5 => 36000
    case 6 => 40000
    case 7 => 44000
    case 8 => 48000
    case 9 => 60000
    case 10 => 64000
    case 11 => 68000
    case 12 => 72000
    case 13 => 76000
    case 14 => 80000
    case 15 => 84000
    case 16 => 88000
    case _ => 0
  }

  /** The lookup agrees with the table entry for every listed count, and lists no other. */
  lemma PriceMatchesTable(n: int)
    ensures forall i :: 0 <= i < |PriceTable| && PriceTable[i].0 == n ==> PriceFor(n) == PriceTable[i].1
    ensures PriceFor(n) > 0 <==> exists i :: 0 <= i < |PriceTable| && PriceTable[i].0 == n
  {
    if 2 <= n <= 16 {
      assert PriceTable[n - 2].0 == n;
    }
  }

  /** More cameras never cost less within the table. */
  lemma PriceIncreasing(a: int, b: int)
    requires 2 <= a < b <= 16
    ensures PriceFor(a) < PriceFor(b)
  {
  }

  // ---------------------------------------------------------------------
  // Option toggling
  // ---------------------------------------------------------------------

  /** `toggleIotOption` / `toggleSpecialOption`: remove every `id` if present, else append it. */
  function Toggle(ids: seq<string>, id: string): (r: seq<string>)
    ensures id in r <==> id !in ids
    ensures forall x :: x != id ==> (x in r <==> x in ids)
    ensures id !in ids ==> r == ids + [id]
  {
    if id in ids then
      WithoutKeepsOthersAll(ids, id);
      Without(ids, id)
    else ids + [id]
  }

  lemma WithoutKeepsOthersAll(s: seq<string>, c: string)
    ensures forall x :: x != c ==> (x in Without(s, c) <==> x in s)
  {
    forall x | x != c ensures x in Without(s, c) <==> x in s {
      WithoutKeepsOthers(s, c, x);
    }
  }

  /** The other ids keep their relative order: removing `id` from both sides gives the same list. */
  lemma ToggleKeepsOrder(ids: seq<string>, id: string)
    ensures Without(Toggle(ids, id), id) == Without(ids, id)
  {
    if id in ids {
      WithoutTwice(ids, id);
    } else {
      WithoutAppend(ids, [id], id);
      assert Without([id], id) == [];
      assert Without(ids, id) + [] == Without(ids, id);
    }
  }

  lemma WithoutTwice<T>(s: seq<T>, c: T)
    ensures Without(Without(s, c), c) == Without(s, c)
  {
    WithoutAbsent(Without(s, c), c);
  }

  /** Toggling an absent id twice restores the list. */
  lemma ToggleTwiceRestores(ids: seq<string>, id: string)
    requires id !in ids
    ensures Toggle(Toggle(ids, id), id) == ids
  {
    var t := ids + [id];
    WithoutAppend(ids, [id], id);
    WithoutAbsent(ids, id);
    assert Without([id], id) == [];
    assert Without(t, id) == ids + [];
  }

  // ---------------------------------------------------------------------
  // Phone normalisation
  // ---------------------------------------------------------------------

  predicate StartsWith010(v: string) { |v| >= 3 && v[..3] == "010" }

  /** The digits of the input with the first three forced to `010`. */
  function ForcedDigits(input: string): (v: string)
    ensures AllDigits(v) && StartsWith010(v)
    ensures |Digits(input)| > 3 ==> |v| == |Digits(input)|
    ensures |Digits(input)| <= 3 ==> |v| == 3
    ensures StartsWith010(Digits(input)) ==> v == Digits(input)
    ensures |Digits(input)| > 3 ==> v[3..] == Digits(input)[3..]
  {
    var d := Digits(input);
    if StartsWith010(d) then d
    else "010" + (if |d| > 3 then d[3..] else "")
  }

  /** The display form of at most 11 digits starting with `010`. */
  function FormatPhone(v: string): (r: string)
    requires AllDigits(v) && StartsWith010(v) && |v| <= 11
    ensures PhoneShape(r)
  {
    if |v| <= 3 then "010-"
    else if |v| <= 7 then "010-" + v[3..] + "-"
    else "010-" + v[3..7] + "-" + v[7..]
  }

  /** Starts with `010-` and holds only digits and dashes. */
  predicate PhoneShape(p: string)
  {
    |p| >= 4 && p[..4] == "010-" && forall i :: 0 <= i < |p| ==> IsDigit(p[i]) || p[i] == '-'
  }

  lemma InitialPhoneShape()
    ensures PhoneShape("010-")
  {
    assert "010-"[..4] == "010-";
  }

  /** `handlePhoneChange`: the new phone field for typed text `input`. */
  function PhoneChange(current: string, input: string): (r: string)
    ensures |ForcedDigits(input)| <= 11 ==> PhoneShape(r)
    ensures |Digits(input)| > 11 ==> r == current
    ensures PhoneShape(current) ==> PhoneShape(r)
  {
    var v := ForcedDigits(input);
    if |v| <= 11 then FormatPhone(v) else current
  }

  /** Removing every non-digit from the formatted phone gives back its digits. */
  lemma FormatPhoneDigits(v: string)
    requires AllDigits(v) && StartsWith010(v) && |v| <= 11
    ensures Digits(FormatPhone(v)) == v
  {
    var a := "010";
    assert v == a + v[3..];
    if |v| <= 3 {
      assert FormatPhone(v) == a + "-" + "";
      DigitsJoin(a, "");
    } else if |v| <= 7 {
      assert FormatPhone(v) == a + "-" + v[3..] + "-" + "";
      DigitsJoin3(a, v[3..], "");
    } else {
      assert v == a + v[3..7] + v[7..];
      assert FormatPhone(v) == a + "-" + v[3..7] + "-" + v[7..];
      DigitsJoin3(a, v[3..7], v[7..]);
    }
  }

  /** Removing the dashes from the formatted phone, as the contact check does, gives back its digits. */
  lemma FormatPhoneDashes(v: string)
    requires AllDigits(v) && StartsWith010(v) && |v| <= 11
    ensures Without(FormatPhone(v), '-') == v
  {
    var a := "010";
    assert v == a + v[3..];
    assert Without("-", '-') == [];
    WithoutAbsent(a, '-');
    if |v| <= 3 {
      assert v == a;
      assert FormatPhone(v) == a + "-";
      WithoutAppend(a, "-", '-');
    } else if |v| <= 7 {
      var m := v[3..];
      assert FormatPhone(v) == a + "-" + m + "-";
      WithoutAbsent(m, '-');
      WithoutAppend(a, "-", '-');
      WithoutAppend(a + "-", m, '-');
      WithoutAppend(a + "-" + m, "-", '-');
    } else {
      var m := v[3..7];
      var e := v[7..];
      assert v == a + m + e;
      assert FormatPhone(v) == a + "-" + m + "-" + e;
      WithoutAbsent(m, '-');
      WithoutAbsent(e, '-');
      WithoutAppend(a, "-", '-');
      WithoutAppend(a + "-", m, '-');
      WithoutAppend(a + "-" + m, "-", '-');
      WithoutAppend(a + "-" + m + "-", e, '-');
    }
  }

  /** Feeding the field's own value back through the handler changes nothing. */
  lemma PhoneChangeIdempotent(current: string, input: string)
    requires |Digits(input)| <= 11
    ensures PhoneChange(PhoneChange(current, input), PhoneChange(current, input)) == PhoneChange(current, input)
  {
    FormatPhoneDigits(ForcedDigits(input));
  }

  /** The contact step's 11-digit check passes exactly when 11 digits were typed after the forced prefix. */
  lemma PhoneCheckIffElevenDigits(current: string, input: string)
    requires |Digits(input)| <= 11
    ensures |Without(PhoneChange(current, input), '-')| == 11 <==> |ForcedDigits(input)| == 11
  {
    FormatPhoneDashes(ForcedDigits(input));
  }

  // ---------------------------------------------------------------------
  // Calendar month navigation
  // ---------------------------------------------------------------------

  /** `new Date(y, m + 1, 1)`: the month after (`y`, `m`), rolling into the next year. */
  function NextMonth(y: int, m: int): (r: (int, int))
    requires 1 <= m <= 12
    ensures 1 <= r.1 <= 12
    ensures r.0 * 12 + r.1 == y * 12 + m + 1
  {
    if m == 12 then (y + 1, 1) else (y, m + 1)
  }

  /** `new Date(y, m - 1, 1)`: the month before (`y`, `m`). */
  function PreviousMonth(y: int, m: int): (r: (int, int))
    requires 1 <= m <= 12
    ensures 1 <= r.1 <= 12
    ensures r.0 * 12 + r.1 == y * 12 + m - 1
  {
    if m == 1 then (y - 1, 12) else (y, m - 1)
  }

  lemma MonthNavigationInverse(y: int, m: int)
    requires 1 <= m <= 12
    ensures PreviousMonth(NextMonth(y, m).0, NextMonth(y, m).1) == (y, m)
    ensures NextMonth(PreviousMonth(y, m).0, PreviousMonth(y, m).1) == (y, m)
  {
  }

  // ---------------------------------------------------------------------
  // The wizard
  // ---------------------------------------------------------------------

  datatype Step = SelectCameras | ShowPrice | ContactForm | PickAppointment

  /** The camera choice, as saved in `initialSelection`. */
  datatype Selection = Selection(cameraType: string, indoorCount: nat, outdoorCount: nat,
                                 iotOptions: seq<string>, specialOptions: seq<string>)

  datatype Contact = Contact(phoneNumber: string, address: string, locationType: string, hasInternet: string)

  /**
   * The body posted by the final submit and by restart. `submittedAt` is
   * the client's clock, which the sheet mirror shows as the row's time;
   * `converted` is present only on the quick copy the final submit sends
   * after success.
   */
  datatype EstimateForm = EstimateForm(initialSelection: Option<Selection>, currentSelection: Selection,
                                       contactInfo: Contact, date: Option<CivilDate>, time: string, price: nat,
                                       submittedAt: int, converted: Option<bool>)

  const IotOptionsList: seq<(string, string)> :=
    [("fingerprint", "지문형 출입통제"), ("card", "카드형 출입통제"), ("door", "문열림 감지센서"),
     ("motion", "움직임 감지센서"), ("fire", "화재 경보 센서"), ("temp", "온도 감지 센서")]

  const SpecialOptionsList: seq<(string, string)> :=
    [("height", "층고 4m 이상"), ("elevator", "엘리베이터 공사"), ("pipe", "특수 배관 공사"),
     ("pole", "폴대 (SUS)"), ("sky", "탑차 (스카이차, 탑차)")]

  const TimeSlots: seq<string> :=
    ["8am", "8:30am", "9am", "9:30am", "10am", "10:30am", "11am", "11:30am",
     "12pm", "12:30pm", "1pm", "1:30pm", "2pm", "2:30pm", "3pm", "3:30pm", "4pm", "4:30pm", "5pm", "5:30pm"]

  /**
   * `list.find(opt => opt.id === id)?.name || id`: the name of the first
   * option with that id, falling back to the id itself when there is no
   * such option or its name is empty.
   */
  function DisplayName(list: seq<(string, string)>, id: string): (r: string)
    ensures (forall i :: 0 <= i < |list| ==> list[i].0 != id) ==> r == id
    ensures forall k :: 0 <= k < |list| && list[k].0 == id && (forall j :: 0 <= j < k ==> list[j].0 != id) ==>
      r == (if list[k].1 != "" then list[k].1 else id)
  {
    if list == [] then id
    else if list[0].0 == id then (if list[0].1 != "" then list[0].1 else id)
    else
      var r := DisplayName(list[1..], id);
      assert forall k :: 1 <= k < |list| && list[k].0 == id && (forall j :: 0 <= j < k ==> list[j].0 != id) ==>
        list[1..][k - 1].0 == id && (forall j :: 0 <= j < k - 1 ==> list[1..][j].0 != id);
      r
  }

  /**
   * Each id in order mapped to its display name: one name per id, and an id
   * with no option of its own is shown as itself.
   */
  function DisplayNames(list: seq<(string, string)>, ids: seq<string>): (r: seq<string>)
    ensures |r| == |ids|
    ensures forall i :: 0 <= i < |ids| && (forall k :: 0 <= k < |list| ==> list[k].0 != ids[i]) ==> r[i] == ids[i]
  {
    seq(|ids|, i requires 0 <= i < |ids| => DisplayName(list, ids[i]))
  }

  function Total(s: Selection): nat { s.indoorCount + s.outdoorCount }

  /** The selection as posted: option ids replaced by their display names. */
  function Named(s: Selection): Selection
  {
    s.(iotOptions := DisplayNames(IotOptionsList, s.iotOptions),
       specialOptions := DisplayNames(SpecialOptionsList, s.specialOptions))
  }

  /** `Math.max(0, n - 1)`. */
  function Decrement(n: nat): nat
  {
    if n > 0 then n - 1 else 0
  }

  /** What `handleFormSubmit` demands before the appointment step. */
  predicate ContactComplete(c: Contact, privacyConsent: bool)
  {
    c.phoneNumber != "" && |Without(c.phoneNumber, '-')| == 11
    && c.address != "" && c.locationType != "" && c.hasInternet != "" && privacyConsent
  }

  const InitialSelection := Selection("210만", 0, 0, [], [])
  const EmptyContact := Contact("010-", "", "", "")

  /** The whole component state, for stating what each handler changes. */
  datatype WizardState = WizardState(
    step: Step, selection: Selection, contact: Contact, privacyConsent: bool,
    selectedDate: Option<CivilDate>, selectedTime: string, initialSelection: Option<Selection>,
    viewYear: int, viewMonth: int)

  /**
   * The component's state hooks, grouped as the source groups them: the
   * step, the step-1 selection, the step-3 form, the step-4 date and time,
   * the saved initial selection and the displayed calendar month.
   */
  class Wizard {
    var step: Step
    var selection: Selection
    var contact: Contact
    var privacyConsent: bool
    var selectedDate: Option<CivilDate>
    var selectedTime: string
    var initialSelection: Option<Selection>
    var viewYear: int
    var viewMonth: int

    function State(): WizardState
      reads this
    {
      WizardState(step, selection, contact, privacyConsent, selectedDate, selectedTime,
                  initialSelection, viewYear, viewMonth)
    }

    /**
     * The facts every reachable state keeps: the phone field is normalised,
     * a saved selection of at least two cameras exists past step 1, the
     * appointment step is reached only with a complete contact form, and a
     * selected date is a business day.
     */
    ghost predicate Valid()
      reads this
    {
      PhoneShape(contact.phoneNumber)
      && (step != SelectCameras ==>
            initialSelection.Some? && Total(initialSelection.value) >= 2)
      && (step == PickAppointment ==> ContactComplete(contact, privacyConsent))
      && (selectedDate.Some? ==> IsBusinessDay(selectedDate.value))
      && 1 <= viewMonth <= 12
    }

    /** The state `resetForm` produces; the displayed month is kept. */
    ghost predicate IsReset(y: int, m: int)
      reads this
    {
      State() == WizardState(SelectCameras, InitialSelection, EmptyContact, false, None, "", None, y, m)
    }

    /** The component as first rendered in month (`year`, `month`) of today. */
    constructor(year: int, month: int)
      requires 1 <= month <= 12
      ensures IsReset(year, month) && Valid()
    {
      step := SelectCameras;
      selection := InitialSelection;
      contact := EmptyContact;
      privacyConsent := false;
      selectedDate := None;
      selectedTime := "";
      initialSelection := None;
      viewYear, viewMonth := year, month;
      InitialPhoneShape();
    }

    /** `resetForm`. */
    method ResetForm()
      modifies this
      requires 1 <= viewMonth <= 12
      ensures IsReset(old(viewYear), old(viewMonth)) && Valid()
    {
      step := SelectCameras;
      selection := InitialSelection;
      contact := EmptyContact;
      privacyConsent := false;
      selectedDate := None;
      selectedTime := "";
      initialSelection := None;
      InitialPhoneShape();
    }

    /** The indoor `-` button: never below zero. */
    method DecrementIndoor()
      modifies this
      requires Valid()
      ensures Valid()
      ensures State() == old(State()).(selection := old(selection).(indoorCount := Decrement(old(selection.indoorCount))))
    {
      selection := selection.(indoorCount := Decrement(selection.indoorCount));
    }

    method IncrementIndoor()
      modifies this
      requires Valid()
      ensures Valid()
      ensures State() == old(State()).(selection := old(selection).(indoorCount := old(selection.indoorCount) + 1))
    {
      selection := selection.(indoorCount := selection.indoorCount + 1);
    }

    /** The outdoor `-` button: never below zero. */
    method DecrementOutdoor()
      modifies this
      requires Valid()
      ensures Valid()
      ensures State() == old(State()).(selection := old(selection).(outdoorCount := Decrement(old(selection.outdoorCount))))
    {
      selection := selection.(outdoorCount := Decrement(selection.outdoorCount));
    }

    method IncrementOutdoor()
      modifies this
      requires Valid()
      ensures Valid()
      ensures State() == old(State()).(selection := old(selection).(outdoorCount := old(selection.outdoorCount) + 1))
    {
      selection := selection.(outdoorCount := selection.outdoorCount + 1);
    }

    method ToggleIotOption(id: string)
      modifies this
      requires Valid()
      ensures Valid()
      ensures State() == old(State()).(selection := old(selection).(iotOptions := Toggle(old(selection.iotOptions), id)))
    {
      selection := selection.(iotOptions := Toggle(selection.iotOptions, id));
    }

    method ToggleSpecialOption(id: string)
      modifies this
      requires Valid()
      ensures Valid()
      ensures State() == old(State()).(selection := old(selection).(specialOptions := Toggle(old(selection.specialOptions), id)))
    {
      selection := selection.(specialOptions := Toggle(selection.specialOptions, id));
    }

    /**
     * The estimate button of step 1, which calls `handleSubmit`: disabled
     * below two cameras; otherwise it saves a copy of the selection and
     * shows the price.
     */
    method RequestEstimate()
      modifies this
      requires Valid() && step == SelectCameras
      ensures Valid()
      ensures Total(old(selection)) < 2 ==> State() == old(State())
      ensures Total(old(selection)) >= 2 ==>
        State() == old(State()).(step := ShowPrice, initialSelection := Some(old(selection)))
    {
      if Total(selection) >= 2 {
        initialSelection := Some(selection);
        step := ShowPrice;
      }
    }

    /** The consultation button of step 2. */
    method StartConsultation()
      modifies this
      requires Valid() && step == ShowPrice
      ensures Valid()
      ensures State() == old(State()).(step := ContactForm)
    {
      step := ContactForm;
    }

    /**
     * `handleRestart`: posts the current selection as a quick estimate with
     * an empty contact block, stamped with the client's clock `now`, then
     * resets whatever the answer.
     */
    method Restart(now: int) returns (sent: EstimateForm)
      modifies this
      requires Valid() && step == ShowPrice
      ensures sent == EstimateForm(old(initialSelection), Named(old(selection)),
                                   Contact("", "", "", ""), None, "", PriceFor(Total(old(selection))), now, None)
      ensures IsReset(old(viewYear), old(viewMonth)) && Valid()
    {
      sent := EstimateForm(initialSelection, Named(selection), Contact("", "", "", ""), None, "",
                           PriceFor(Total(selection)), now, None);
      ResetForm();
    }

    /** The edit button of step 3: back to the selection, keeping the saved copy. */
    method EditSelection()
      modifies this
      requires Valid() && step == ContactForm
      ensures Valid()
      ensures State() == old(State()).(step := SelectCameras)
    {
      step := SelectCameras;
    }

    method ChangePhone(input: string)
      modifies this
      requires Valid() && step == ContactForm
      ensures Valid()
      ensures State() == old(State()).(contact := old(contact).(phoneNumber := PhoneChange(old(contact.phoneNumber), input)))
    {
      contact := contact.(phoneNumber := PhoneChange(contact.phoneNumber, input));
    }

    method SetAddress(value: string)
      modifies this
      requires Valid() && step == ContactForm
      ensures Valid()
      ensures State() == old(State()).(contact := old(contact).(address := value))
    {
      contact := contact.(address := value);
    }

    method SetLocationType(value: string)
      modifies this
      requires Valid() && step == ContactForm
      ensures Valid()
      ensures State() == old(State()).(contact := old(contact).(locationType := value))
    {
      contact := contact.(locationType := value);
    }

    method SetHasInternet(value: string)
      modifies this
      requires Valid() && step == ContactForm
      ensures Valid()
      ensures State() == old(State()).(contact := old(contact).(hasInternet := value))
    {
      contact := contact.(hasInternet := value);
    }

    method SetPrivacyConsent(value: bool)
      modifies this
      requires Valid() && step == ContactForm
      ensures Valid()
      ensures State() == old(State()).(privacyConsent := value)
    {
      privacyConsent := value;
    }

    /** `handleFormSubmit`: on to the appointment step only with every required field. */
    method SubmitContactForm()
      modifies this
      requires Valid() && step == ContactForm
      ensures Valid()
      ensures State() == old(State()).(step := if ContactComplete(old(contact), old(privacyConsent))
                                               then PickAppointment else ContactForm)
    {
      if contact.phoneNumber == "" || |Without(contact.phoneNumber, '-')| != 11 || contact.address == ""
         || contact.locationType == "" || contact.hasInternet == "" || !privacyConsent {
        return;
      }
      step := PickAppointment;
    }

    method ShowPreviousMonth()
      modifies this
      requires Valid()
      ensures Valid()
      ensures State() == old(State()).(viewYear := PreviousMonth(old(viewYear), old(viewMonth)).0,
                                       viewMonth := PreviousMonth(old(viewYear), old(viewMonth)).1)
    {
      var prev := PreviousMonth(viewYear, viewMonth);
      viewYear, viewMonth := prev.0, prev.1;
    }

    method ShowNextMonth()
      modifies this
      requires Valid()
      ensures Valid()
      ensures State() == old(State()).(viewYear := NextMonth(old(viewYear), old(viewMonth)).0,
                                       viewMonth := NextMonth(old(viewYear), old(viewMonth)).1)
    {
      var next := NextMonth(viewYear, viewMonth);
      viewYear, viewMonth := next.0, next.1;
    }

    /**
     * A click on day `k` of the displayed month in a grid built on `today`,
     * whose earliest bookable date is `minDate`: only an available day is
     * taken, and it lies after today.
     */
    method SelectDay(today: CivilDate, minDate: CivilDate, k: int)
      modifies this
      requires Valid() && step == PickAppointment
      requires IsMinimumDate(today, minDate)
      ensures Valid()
      ensures match CellAt(old(viewYear), old(viewMonth), DayNumber(minDate), k)
              case Some(cell) =>
                if cell.isAvailable then State() == old(State()).(selectedDate := Some(cell.date))
                else State() == old(State())
              case None => State() == old(State())
      ensures selectedDate != old(selectedDate) ==>
        selectedDate.Some? && IsBusinessDay(selectedDate.value) && DayNumber(selectedDate.value) > DayNumber(today)
    {
      MinimumDateAfterToday(today, minDate);
      var cell := CellAt(viewYear, viewMonth, DayNumber(minDate), k);
      if cell.Some? && cell.value.isAvailable {
        selectedDate := Some(cell.value.date);
      }
    }

    method SelectTime(time: string)
      modifies this
      requires Valid() && step == PickAppointment && time in TimeSlots
      ensures Valid()
      ensures State() == old(State()).(selectedTime := time)
    {
      selectedTime := time;
    }

    /** The back button of step 4. */
    method BackToContactForm()
      modifies this
      requires Valid() && step == PickAppointment
      ensures Valid()
      ensures State() == old(State()).(step := ContactForm)
    {
      step := ContactForm;
    }

    /**
     * `handleFinalSubmit` behind a button disabled until a date and a time
     * are chosen, stamped with the client's clock `now`. `ok` is whether
     * the server accepted the full post: only then is the same body
     * posted again to the quick route with `converted: true`
     * (`companion`), and the form reset.
     */
    method FinalSubmit(now: int, ok: bool) returns (sent: Option<EstimateForm>, companion: Option<EstimateForm>)
      modifies this
      requires Valid() && step == PickAppointment
      ensures Valid()
      ensures sent.Some? <==> old(selectedDate).Some? && old(selectedTime) != ""
      ensures sent.Some? ==> sent.value == EstimateForm(old(initialSelection), Named(old(selection)),
                                                        old(contact), old(selectedDate), old(selectedTime),
                                                        PriceFor(Total(old(selection))), now, None)
      ensures companion.Some? <==> sent.Some? && ok
      ensures companion.Some? ==> companion.value == sent.value.(converted := Some(true))
      ensures sent.Some? && ok ==> IsReset(old(viewYear), old(viewMonth))
      ensures sent.None? || !ok ==> State() == old(State())
    {
      companion := None;
      if selectedDate.None? || selectedTime == "" {
        return None, None;
      }
      var body := EstimateForm(initialSelection, Named(selection), contact, selectedDate, selectedTime,
                               PriceFor(Total(selection)), now, None);
      sent := Some(body);
      if ok {
        companion := Some(body.(converted := Some(true)));
        ResetForm();
      }
    }
  }
}
