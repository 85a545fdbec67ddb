/**
 * The spreadsheet mirror: submissions and customer questions are copied
 * into sheets whose first row is a header. A sheet is the grid of its
 * rows, each row the list of its cells as strings; the Sheets API that
 * reads and writes them is replaced by these in-memory grids. A read of
 * the range `A2:O1000` sees data rows up to sheet row 1000, and a row the
 * API returns is cut after its last non-empty cell, so a missing cell
 * reads as the empty string.
 */
module SheetsMirror {
  import opened Common
  import opened BusinessCalendar

  type Row = seq<string>

  type Sheet = seq<Row>

  const QuickSheet := "간편견적"
  const SaltSheet := "SALT 상담신청"
  const KtSheet := "KT 상담신청"
  const QuestionSheet := "고객 질문"

  /** The last sheet row the reading ranges include. */
  const LastReadRow := 1000

  /** `row[k]`, with a missing cell read as the empty string. */
  function Cell(row: Row, k: nat): string
  {
    if k < |row| then row[k] else ""
  }

  /** The data rows a read of `A2:…1000` returns, in order; data row `i` is sheet row `i + 2`. */
  function DataRows(sheet: Sheet): (rows: seq<Row>)
    ensures |rows| <= LastReadRow - 1
    ensures |sheet| <= LastReadRow ==> |rows| == if sheet == [] then 0 else |sheet| - 1
    ensures forall i :: 0 <= i < |rows| ==> rows[i] == sheet[i + 1]
  {
    if |sheet| <= 1 then [] else sheet[1..if |sheet| < LastReadRow then |sheet| else LastReadRow]
  }

  // ---------------------------------------------------------------------
  // Duplicate scan
  // ---------------------------------------------------------------------

  /** The column holding the phone number: I on the quick sheet, D on the consultation sheets. */
  function PhoneColumn(sheetName: string): (k: nat)
    ensures k == 8 || k == 3
  {
    if sheetName == QuickSheet then 8 else 3
  }

  /** Column A equals the IP; an empty value on either side never matches. */
  predicate IpMatches(row: Row, ip: string)
  {
    Cell(row, 0) != "" && ip != "" && Cell(row, 0) == ip
  }

  predicate PhoneMatches(row: Row, column: nat, phone: string)
  {
    Cell(row, column) != "" && phone != "" && Cell(row, column) == phone
  }

  predicate RowMatches(row: Row, column: nat, ip: string, phone: string)
  {
    IpMatches(row, ip) || PhoneMatches(row, column, phone)
  }

  /** Which test found a duplicate, and at which data row. */
  datatype Duplicate = SameIp(index: nat) | SamePhone(index: nat)

  /**
   * The first data row at or after `from` that repeats the IP or the
   * phone; within a row the IP is compared first.
   */
  function FirstDuplicate(rows: seq<Row>, column: nat, ip: string, phone: string, from: nat): (d: Option<Duplicate>)
    requires from <= |rows|
    decreases |rows| - from
    ensures d.None? <==> forall j :: from <= j < |rows| ==> !RowMatches(rows[j], column, ip, phone)
    ensures d.Some? ==> (from <= d.value.index < |rows|
                          && (forall j :: from <= j < d.value.index ==> !RowMatches(rows[j], column, ip, phone))
                          && (d.value.SameIp? <==> IpMatches(rows[d.value.index], ip))
                          && (d.value.SamePhone? ==> PhoneMatches(rows[d.value.index], column, phone)))
  {
    if from == |rows| then None
    else if IpMatches(rows[from], ip) then Some(SameIp(from))
    else if PhoneMatches(rows[from], column, phone) then Some(SamePhone(from))
    else FirstDuplicate(rows, column, ip, phone, from + 1)
  }

  /** The memo cell text for a scan result; it cites the sheet row number. */
  function Memo(d: Option<Duplicate>): (memo: string)
    ensures memo == "" <==> d.None?
  {
    match d
    case None => ""
    case Some(SameIp(i)) => "중복 IP (" + NatToString(i + 2) + "번째 줄)"
    case Some(SamePhone(i)) => "중복 연락처 (" + NatToString(i + 2) + "번째 줄)"
  }

  /**
   * `checkDuplicate`: scans the data rows in order and stops at the first
   * row whose IP or phone repeats the submission's.
   */
  method CheckDuplicate(sheetName: string, sheet: Sheet, ip: string, phone: string) returns (memo: string)
    ensures memo == Memo(FirstDuplicate(DataRows(sheet), PhoneColumn(sheetName), ip, phone, 0))
  {
    var rows := DataRows(sheet);
    var column := PhoneColumn(sheetName);
    var memos: seq<string> := [];
    var i := 0;
    while i < |rows|
      invariant 0 <= i <= |rows|
      invariant memos == []
      invariant FirstDuplicate(rows, column, ip, phone, 0) == FirstDuplicate(rows, column, ip, phone, i)
      decreases |rows| - i
    {
      var row := rows[i];
      var existingIp := Cell(row, 0);
      var existingPhone := Cell(row, column);
      if existingIp != "" && ip != "" && existingIp == ip {
        memos := memos + ["중복 IP (" + NatToString(i + 2) + "번째 줄)"];
        break;
      }
      if existingPhone != "" && phone != "" && existingPhone == phone {
        memos := memos + ["중복 연락처 (" + NatToString(i + 2) + "번째 줄)"];
        break;
      }
      i := i + 1;
    }
    memo := if |memos| > 0 then memos[0] else "";
  }

  // ---------------------------------------------------------------------
  // Estimate rows
  // ---------------------------------------------------------------------

  /**
   * What the mirror receives for an estimate; `time` and `appointmentDate`
   * are the already formatted date strings, and absent fields are `None`.
   * The three flags say whether the body held a `currentSelection`, a
   * `contactInfo` and an `appointment` object at all; the fields of a
   * missing object are `None`.
   */
  datatype Submission = Submission(
    ipAddress: Option<string>, time: string,
    hasCurrentSelection: bool, hasContactInfo: bool, hasAppointment: bool,
    cameraType: Option<string>, initialCameraType: Option<string>,
    indoorCount: Option<nat>, outdoorCount: Option<nat>,
    iotOptions: Option<seq<string>>, specialOptions: Option<seq<string>>,
    converted: bool,
    phoneNumber: Option<string>, address: Option<string>, locationType: Option<string>, hasInternet: Option<string>,
    appointmentDate: Option<string>, appointmentTime: Option<string>)

  /**
   * Both row builders read `contactInfo.phoneNumber`,
   * `currentSelection.cameraType` and `appointment.date` without a guard:
   * a body missing any of the three objects throws before anything is
   * written, and the handler only reports the error by e-mail.
   */
  predicate Mirrorable(s: Submission)
  {
    s.hasCurrentSelection && s.hasContactInfo && s.hasAppointment
  }

  function Str(value: Option<string>): (r: string)
    ensures value.None? ==> r == ""
  {
    OrDefault(value, "")
  }

  /** `list.join(sep)`. */
  function Join(list: seq<string>, sep: string): string
  {
    if list == [] then "" else if |list| == 1 then list[0] else list[0] + sep + Join(list[1..], sep)
  }

  function ListCell(list: Option<seq<string>>): string
  {
    match list
    case None => ""
    case Some(l) => Join(l, ", ")
  }

  /** `count || 0`, written as its decimal digits. */
  function CountCell(count: Option<nat>): (r: string)
    ensures r != ""
  {
    match count
    case None => NatToString(0)
    case Some(n) => NatToString(n)
  }

  /** The current camera type, else the initial one, else empty. */
  function CameraCell(s: Submission): string
  {
    if Str(s.cameraType) != "" then Str(s.cameraType) else Str(s.initialCameraType)
  }

  /** The 15-cell row of the quick-estimate sheet (A to O). */
  function QuickRow(s: Submission, memo: string): (row: Row)
    ensures |row| == 15 && row[14] == memo
    ensures row[7] == (if s.converted then "O" else "X")
  {
    [Str(s.ipAddress), s.time, CameraCell(s), CountCell(s.indoorCount), CountCell(s.outdoorCount),
     ListCell(s.iotOptions), ListCell(s.specialOptions), if s.converted then "O" else "X",
     Str(s.phoneNumber), Str(s.address), Str(s.locationType), Str(s.hasInternet),
     Str(s.appointmentDate), Str(s.appointmentTime), memo]
  }

  /** The 14-cell row of the consultation sheets (A to N). */
  function ConsultationRow(s: Submission, memo: string): (row: Row)
    ensures |row| == 14 && row[13] == memo
  {
    [Str(s.ipAddress), s.time, CameraCell(s), Str(s.phoneNumber), Str(s.address), Str(s.locationType),
     CountCell(s.indoorCount), CountCell(s.outdoorCount), ListCell(s.iotOptions), ListCell(s.specialOptions),
     Str(s.hasInternet), Str(s.appointmentDate), Str(s.appointmentTime), memo]
  }

  /** The duplicate scan reads the phone where the builders write it. */
  lemma PhoneColumnMatchesBuilders(s: Submission, memo: string)
    ensures Cell(QuickRow(s, memo), PhoneColumn(QuickSheet)) == Str(s.phoneNumber)
    ensures Cell(ConsultationRow(s, memo), PhoneColumn(SaltSheet)) == Str(s.phoneNumber)
    ensures Cell(ConsultationRow(s, memo), PhoneColumn(KtSheet)) == Str(s.phoneNumber)
    ensures Cell(QuickRow(s, memo), 0) == Cell(ConsultationRow(s, memo), 0) == Str(s.ipAddress)
  {
  }

  /**
   * The row `addPriceEstimate` writes for `s` into the sheet `sheetName`:
   * the quick layout on the quick sheet, the consultation layout elsewhere,
   * with the duplicate memo of the current data rows in the last cell.
   */
  function MirroredRow(sheetName: string, sheet: Sheet, s: Submission): (row: Row)
    ensures |row| == (if sheetName == QuickSheet then 15 else 14)
    ensures row[|row| - 1] == Memo(FirstDuplicate(DataRows(sheet), PhoneColumn(sheetName), Str(s.ipAddress), Str(s.phoneNumber), 0))
  {
    var memo := Memo(FirstDuplicate(DataRows(sheet), PhoneColumn(sheetName), Str(s.ipAddress), Str(s.phoneNumber), 0));
    if sheetName == QuickSheet then QuickRow(s, memo) else ConsultationRow(s, memo)
  }

  /** The new row goes right under the header; the old data rows follow in order. */
  function InsertAtTop(sheet: Sheet, row: Row): (r: Sheet)
    requires |sheet| >= 1
    ensures |r| == |sheet| + 1 && r[0] == sheet[0] && r[1] == row
    ensures forall i :: 1 <= i < |sheet| ==> r[i + 1] == sheet[i]
  {
    [sheet[0], row] + sheet[1..]
  }

  // ---------------------------------------------------------------------
  // Parsing the sheets back for the dashboard
  // ---------------------------------------------------------------------

  predicate IsIdChar(c: char)
  {
    IsAsciiLetter(c) || IsDigit(c) || c == '-'
  }

  /** `s.replace(/[^a-zA-Z0-9-]/g, '_')`. */
  function Sanitize(s: string): (r: string)
    ensures |r| == |s|
    ensures forall i :: 0 <= i < |s| ==> r[i] == if IsIdChar(s[i]) then s[i] else '_'
  {
    if s == [] then [] else [if IsIdChar(s[0]) then s[0] else '_'] + Sanitize(s[1..])
  }

  /** The dashboard id of a sheet row: prefix, phone and timestamp joined by dashes, sanitised. */
  function StableId(prefix: string, phone: string, timestamp: string): (id: string)
    ensures |id| == |prefix| + |phone| + |timestamp| + 2
    ensures forall i :: 0 <= i < |id| ==> IsIdChar(id[i]) || id[i] == '_'
  {
    Sanitize(prefix + "-" + phone + "-" + timestamp)
  }

  /** Sanitising a sanitised id changes nothing. */
  lemma SanitizeIdempotent(s: string)
    ensures Sanitize(Sanitize(s)) == Sanitize(s)
  {
  }

  /** Phone numbers that differ only in characters outside the id alphabet share an id. */
  lemma StableIdCollides()
    ensures StableId("quick", "010 1234", "t") == StableId("quick", "010.1234", "t")
  {
    assert "quick-010 1234-t"[9] == ' ';
    assert "quick-010.1234-t"[9] == '.';
  }

  /** A row of the dashboard listing. `converted` exists only on quick rows. */
  datatype SheetEstimate = SheetEstimate(
    id: string, kind: string, ipAddress: string, submittedAt: string, cameraType: string,
    indoorCount: string, outdoorCount: string, iotOptions: string, specialOptions: string,
    converted: Option<bool>, phoneNumber: string, address: string, locationType: string,
    hasInternet: string, appointmentDate: string, appointmentTime: string, memo: string)

  /** `row[k] || 0` for the count columns. */
  function CountAt(row: Row, k: nat): (r: string)
    ensures r != ""
  {
    if Cell(row, k) == "" then "0" else Cell(row, k)
  }

  function ParseQuickRow(row: Row): SheetEstimate
  {
    SheetEstimate(StableId("quick", Cell(row, 8), Cell(row, 1)), "quick", Cell(row, 0), Cell(row, 1), Cell(row, 2),
                  CountAt(row, 3), CountAt(row, 4), Cell(row, 5), Cell(row, 6), Some(Cell(row, 7) == "O"),
                  Cell(row, 8), Cell(row, 9), Cell(row, 10), Cell(row, 11), Cell(row, 12), Cell(row, 13), Cell(row, 14))
  }

  function ParseConsultationRow(row: Row, prefix: string): SheetEstimate
  {
    SheetEstimate(StableId(prefix, Cell(row, 3), Cell(row, 1)), "consultation", Cell(row, 0), Cell(row, 1), Cell(row, 2),
                  CountAt(row, 6), CountAt(row, 7), Cell(row, 8), Cell(row, 9), None,
                  Cell(row, 3), Cell(row, 4), Cell(row, 5), Cell(row, 10), Cell(row, 11), Cell(row, 12), Cell(row, 13))
  }

  function HasTimestamp(row: Row): bool
  {
    Cell(row, 1) != ""
  }

  /** The quick-estimate listing: every data row with a timestamp, in sheet order. */
  function ParseQuickSheet(sheet: Sheet): (r: seq<SheetEstimate>)
    ensures |r| <= |DataRows(sheet)|
  {
    var kept := Filter(DataRows(sheet), HasTimestamp);
    seq(|kept|, i requires 0 <= i < |kept| => ParseQuickRow(kept[i]))
  }

  function ParseConsultationSheet(sheet: Sheet, prefix: string): (r: seq<SheetEstimate>)
    ensures |r| <= |DataRows(sheet)|
  {
    var kept := Filter(DataRows(sheet), HasTimestamp);
    seq(|kept|, i requires 0 <= i < |kept| => ParseConsultationRow(kept[i], prefix))
  }

  /** Parsing a built quick row gives back every field the builder wrote. */
  lemma QuickRoundTrip(s: Submission, memo: string)
    ensures var e := ParseQuickRow(QuickRow(s, memo));
      e.ipAddress == Str(s.ipAddress) && e.submittedAt == s.time && e.cameraType == CameraCell(s)
      && e.indoorCount == CountCell(s.indoorCount) && e.outdoorCount == CountCell(s.outdoorCount)
      && e.iotOptions == ListCell(s.iotOptions) && e.specialOptions == ListCell(s.specialOptions)
      && e.converted == Some(s.converted)
      && e.phoneNumber == Str(s.phoneNumber) && e.address == Str(s.address)
      && e.locationType == Str(s.locationType) && e.hasInternet == Str(s.hasInternet)
      && e.appointmentDate == Str(s.appointmentDate) && e.appointmentTime == Str(s.appointmentTime)
      && e.memo == memo && e.id == StableId("quick", Str(s.phoneNumber), s.time)
  {
  }

  /** Parsing a built consultation row gives back every field the builder wrote. */
  lemma ConsultationRoundTrip(s: Submission, memo: string, prefix: string)
    ensures var e := ParseConsultationRow(ConsultationRow(s, memo), prefix);
      e.ipAddress == Str(s.ipAddress) && e.submittedAt == s.time && e.cameraType == CameraCell(s)
      && e.indoorCount == CountCell(s.indoorCount) && e.outdoorCount == CountCell(s.outdoorCount)
      && e.iotOptions == ListCell(s.iotOptions) && e.specialOptions == ListCell(s.specialOptions)
      && e.converted == None
      && e.phoneNumber == Str(s.phoneNumber) && e.address == Str(s.address)
      && e.locationType == Str(s.locationType) && e.hasInternet == Str(s.hasInternet)
      && e.appointmentDate == Str(s.appointmentDate) && e.appointmentTime == Str(s.appointmentTime)
      && e.memo == memo && e.id == StableId(prefix, Str(s.phoneNumber), s.time)
  {
  }

  /** Rows without a timestamp are not listed. */
  lemma UntimedRowsDropped(sheet: Sheet, row: Row)
    requires !HasTimestamp(row)
    requires |sheet| >= 1 && |sheet| < LastReadRow
    ensures ParseQuickSheet(InsertAtTop(sheet, row)) == ParseQuickSheet(sheet)
  {
    var after := InsertAtTop(sheet, row);
    assert DataRows(after) == [row] + DataRows(sheet) by {
      assert DataRows(after) == after[1..];
    }
    assert Filter(DataRows(after), HasTimestamp) == Filter(DataRows(sheet), HasTimestamp) by {
      assert ([row] + DataRows(sheet))[1..] == DataRows(sheet);
    }
  }

  /** A timestamped row inserted at the top is the first estimate listed. */
  lemma InsertedRowListedFirst(sheet: Sheet, s: Submission, memo: string)
    requires s.time != ""
    requires |sheet| >= 1
    ensures ParseQuickSheet(InsertAtTop(sheet, QuickRow(s, memo))) != []
    ensures ParseQuickSheet(InsertAtTop(sheet, QuickRow(s, memo)))[0] == ParseQuickRow(QuickRow(s, memo))
  {
    var row := QuickRow(s, memo);
    var after := InsertAtTop(sheet, row);
    var rows := DataRows(after);
    assert rows[0] == row;
    assert HasTimestamp(row);
    assert Filter(rows, HasTimestamp) == [row] + Filter(rows[1..], HasTimestamp);
  }

  // ---------------------------------------------------------------------
  // Question rows
  // ---------------------------------------------------------------------

  /** ID / time / phone / question / read (O or X) / IP. */
  function QuestionRow(id: Option<string>, time: string, phone: Option<string>, question: Option<string>,
                       ip: Option<string>): (row: Row)
    ensures |row| == 6 && row[4] == "X"
    ensures row[0] == Str(id) && row[2] == Str(phone) && row[3] == Str(question) && row[5] == Str(ip)
  {
    [Str(id), time, Str(phone), Str(question), "X", Str(ip)]
  }

  const QuestionHeader: Row := ["ID", "시간", "연락처", "질문", "읽음", "IP주소"]

  /** `rows.findIndex(row => row[0] === id)`: the first row whose column A is the id. */
  function FindRow(rows: seq<Row>, id: string): (r: Option<nat>)
    ensures r.None? <==> forall j :: 0 <= j < |rows| ==> !(|rows[j]| > 0 && rows[j][0] == id)
    ensures r.Some? ==> (r.value < |rows| && |rows[r.value]| > 0 && rows[r.value][0] == id
                         && forall j :: 0 <= j < r.value ==> !(|rows[j]| > 0 && rows[j][0] == id))
  {
    if rows == [] then None
    else if |rows[0]| > 0 && rows[0][0] == id then Some(0)
    else match FindRow(rows[1..], id)
      case None => None
      case Some(k) => Some(k + 1)
  }

  /** Writing cell `k` of a row, which grows the row when it was shorter. */
  function SetCell(row: Row, k: nat, v: string): (r: Row)
    ensures |r| == if k < |row| then |row| else k + 1
    ensures Cell(r, k) == v
    ensures forall j :: j != k ==> Cell(r, j) == Cell(row, j)
  {
    if k < |row| then row[k := v] else row + seq(k - |row|, _ => "") + [v]
  }

  function ReadMark(read: bool): string
  {
    if read then "O" else "X"
  }

  /** The question sheet after adding `row`: created with its header when absent, else `row` on top. */
  function WithQuestion(questions: Option<Sheet>, row: Row): (r: Option<Sheet>)
    requires questions.Some? ==> |questions.value| >= 1
    ensures r.Some? && |r.value| >= 2 && r.value[1] == row
  {
    if questions.None? then Some([QuestionHeader, row]) else Some(InsertAtTop(questions.value, row))
  }

  /** The question sheet after marking the first row with `id`; unchanged without one. */
  function WithReadStatus(questions: Option<Sheet>, id: string, read: bool): (r: Option<Sheet>)
    requires questions.Some? ==> |questions.value| >= 1
    ensures r.Some? <==> questions.Some?
    ensures r.Some? ==> |r.value| == |questions.value|
  {
    if questions.None? then None
    else
      var sheet := questions.value;
      match FindRow(DataRows(sheet), id)
      case None => questions
      case Some(i) => Some(sheet[i + 1 := SetCell(sheet[i + 1], 4, ReadMark(read))])
  }

  /** The question sheet after removing the first row with `id`; unchanged without one. */
  function WithoutQuestion(questions: Option<Sheet>, id: string): (r: Option<Sheet>)
    requires questions.Some? ==> |questions.value| >= 1
    ensures r.Some? <==> questions.Some?
    ensures r.Some? ==> |r.value| >= 1
  {
    if questions.None? then None
    else
      var sheet := questions.value;
      match FindRow(DataRows(sheet), id)
      case None => questions
      case Some(i) => Some(sheet[..i + 1] + sheet[i + 2..])
  }

  /** Whether the question sheet exists and has a row with `id`. */
  predicate HasQuestionRow(questions: Option<Sheet>, id: string)
  {
    questions.Some? && FindRow(DataRows(questions.value), id).Some?
  }

  /** The row just added for a question is the first one its id finds. */
  lemma AddedQuestionFoundFirst(questions: Option<Sheet>, row: Row)
    requires questions.Some? ==> |questions.value| >= 1
    requires |row| > 0
    ensures FindRow(DataRows(WithQuestion(questions, row).value), row[0]) == Some(0)
  {
    var rows := DataRows(WithQuestion(questions, row).value);
    assert rows[0] == row;
  }

  // ---------------------------------------------------------------------
  // Week range of the daily report
  // ---------------------------------------------------------------------

  /** Days from `weekday` back to the Monday on or before it (0 is Sunday). */
  function MondayOffset(weekday: int): (offset: int)
    requires 0 <= weekday < 7
    ensures -6 <= offset <= 0
    ensures (weekday + offset + 7) % 7 == 1
  {
    if weekday == 0 then -6 else -(weekday - 1)
  }

  /** The day numbers of the Monday and the Sunday of the week of `today`. */
  function WeekRange(today: CivilDate): (r: (int, int))
    ensures r.1 == r.0 + 6
    ensures r.0 <= DayNumber(today) <= r.1
    ensures (r.0 + 4) % 7 == 1
  {
    var n := DayNumber(today);
    MondayOnOrBefore(n);
    var start := n + MondayOffset((n + 4) % 7);
    (start, start + 6)
  }

  lemma MondayOnOrBefore(n: int)
    ensures (n + MondayOffset((n + 4) % 7) + 4) % 7 == 1
  {
    var w := (n + 4) % 7;
    var q := (n + 4) / 7;
    assert n + 4 == 7 * q + w;
    var o := MondayOffset(w);
    assert (w + o + 7) % 7 == 1;
    assert n + o + 4 == 7 * q + (w + o + 7) - 7;
  }

  // ---------------------------------------------------------------------
  // The mirrored sheets
  // ---------------------------------------------------------------------

  class Spreadsheet {
    var quick: Sheet
    var salt: Sheet
    var kt: Sheet
    /** The question sheet is created on first use. */
    var questions: Option<Sheet>

    /** Every sheet keeps its header row. */
    ghost predicate Valid()
      reads this
    {
      |quick| >= 1 && |salt| >= 1 && |kt| >= 1 && (questions.Some? ==> |questions.value| >= 1)
    }

    constructor(quickHeader: Row, consultationHeader: Row)
      ensures quick == [quickHeader] && salt == [consultationHeader] && kt == [consultationHeader]
      ensures questions == None
      ensures Valid()
    {
      quick, salt, kt := [quickHeader], [consultationHeader], [consultationHeader];
      questions := None;
    }

    /**
     * `addPriceEstimate`: a quick estimate goes to the quick sheet, any other
     * type to the SALT consultation sheet, with the duplicate memo in its
     * last cell, as the new first data row. A body the builders cannot read
     * writes nothing; `reported` is whether the error e-mail goes out.
     */
    method AddPriceEstimate(isQuick: bool, s: Submission) returns (reported: bool)
      modifies this
      requires Valid()
      ensures Valid() && kt == old(kt) && questions == old(questions)
      ensures reported <==> !Mirrorable(s)
      ensures !Mirrorable(s) ==> quick == old(quick) && salt == old(salt)
      ensures Mirrorable(s) && isQuick ==>
        salt == old(salt) && quick == InsertAtTop(old(quick), MirroredRow(QuickSheet, old(quick), s))
      ensures Mirrorable(s) && !isQuick ==>
        quick == old(quick) && salt == InsertAtTop(old(salt), MirroredRow(SaltSheet, old(salt), s))
    {
      if !Mirrorable(s) {
        return true;
      }
      reported := false;
      if isQuick {
        var memo := CheckDuplicate(QuickSheet, quick, Str(s.ipAddress), Str(s.phoneNumber));
        quick := InsertAtTop(quick, QuickRow(s, memo));
      } else {
        var memo := CheckDuplicate(SaltSheet, salt, Str(s.ipAddress), Str(s.phoneNumber));
        salt := InsertAtTop(salt, ConsultationRow(s, memo));
      }
    }

    /** `addCustomerQuestion`: the question becomes the first data row, creating the sheet if needed. */
    method AddCustomerQuestion(id: Option<string>, time: string, phone: Option<string>, question: Option<string>,
                               ip: Option<string>) returns (ok: bool)
      modifies this
      requires Valid()
      ensures Valid() && ok && quick == old(quick) && salt == old(salt) && kt == old(kt)
      ensures questions == WithQuestion(old(questions), QuestionRow(id, time, phone, question, ip))
      ensures old(questions).None? ==> questions.value == [QuestionHeader, QuestionRow(id, time, phone, question, ip)]
      ensures questions.value[1] == QuestionRow(id, time, phone, question, ip)
    {
      var row := QuestionRow(id, time, phone, question, ip);
      if questions.None? {
        questions := Some([QuestionHeader, row]);
      } else {
        questions := Some(InsertAtTop(questions.value, row));
      }
      ok := true;
    }

    /**
     * `updateQuestionReadStatus`: writes O or X into column E of the first
     * row with the id; false, with nothing written, when there is none.
     */
    method UpdateQuestionReadStatus(id: string, read: bool) returns (ok: bool)
      modifies this
      requires Valid()
      ensures Valid() && quick == old(quick) && salt == old(salt) && kt == old(kt)
      ensures ok <==> HasQuestionRow(old(questions), id)
      ensures questions == WithReadStatus(old(questions), id, read)
    {
      if questions.None? {
        return false;
      }
      var sheet := questions.value;
      var rowIndex := FindRow(DataRows(sheet), id);
      if rowIndex.None? {
        return false;
      }
      var i := rowIndex.value;
      questions := Some(sheet[i + 1 := SetCell(sheet[i + 1], 4, ReadMark(read))]);
      ok := true;
    }

    /** `deleteCustomerQuestion`: removes the first row with the id and no other. */
    method DeleteCustomerQuestion(id: string) returns (ok: bool)
      modifies this
      requires Valid()
      ensures Valid() && quick == old(quick) && salt == old(salt) && kt == old(kt)
      ensures ok <==> HasQuestionRow(old(questions), id)
      ensures questions == WithoutQuestion(old(questions), id)
    {
      if questions.None? {
        return false;
      }
      var sheet := questions.value;
      var rowIndex := FindRow(DataRows(sheet), id);
      if rowIndex.None? {
        return false;
      }
      var i := rowIndex.value;
      questions := Some(sheet[..i + 1] + sheet[i + 2..]);
      ok := true;
    }
  }

  /** The read update touches only column E of the one matching row. */
  lemma ReadUpdateTouchesOneCell(sheet: Sheet, id: string, read: bool)
    requires |sheet| >= 1
    requires FindRow(DataRows(sheet), id).Some?
    ensures var i := FindRow(DataRows(sheet), id).value;
      var after := sheet[i + 1 := SetCell(sheet[i + 1], 4, ReadMark(read))];
      |after| == |sheet|
      && (forall j :: 0 <= j < |sheet| && j != i + 1 ==> after[j] == sheet[j])
      && Cell(after[i + 1], 4) == ReadMark(read)
      && after[i + 1] == SetCell(sheet[i + 1], 4, ReadMark(read))
      && Cell(after[i + 1], 0) == id
  {
  }

  /** Deleting removes exactly the matching row and shifts the later rows up by one. */
  lemma DeleteRemovesOneRow(sheet: Sheet, id: string)
    requires |sheet| >= 1
    requires FindRow(DataRows(sheet), id).Some?
    ensures var i := FindRow(DataRows(sheet), id).value;
      var after := sheet[..i + 1] + sheet[i + 2..];
      |after| == |sheet| - 1
      && (forall j :: 0 <= j <= i ==> after[j] == sheet[j])
      && (forall j :: i + 1 <= j < |after| ==> after[j] == sheet[j + 1])
  {
  }
}
