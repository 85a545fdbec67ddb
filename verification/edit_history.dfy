/**
 * The edit history that service requests and contact forms keep: an
 * employee's update with a note appends one entry recording who edited,
 * when, the note, and the status before and after. Entries are never
 * changed or removed. Also the `if (value)` conventions that the update and
 * listing handlers apply to request bodies and query strings.
 */
module EditHistory {
  import opened Common

  datatype EditEntry = EditEntry(editedBy: nat, editedAt: int, note: string, previousStatus: string, newStatus: string)

  /** `if (value)` for an optional string from a request body. */
  predicate Given(value: Option<string>)
  {
    value.Some? && value.value != ""
  }

  /** `if (value) field = value`, for an enumerated field: `None` when the value names no member. */
  function SetIfGiven<E>(value: Option<string>, parse: string -> Option<E>, current: E): (r: Option<E>)
    ensures !Given(value) ==> r == Some(current)
    ensures Given(value) ==> r == parse(value.value)
  {
    if Given(value) then parse(value.value) else Some(current)
  }

  /** A query-string filter; an empty value is no filter. */
  predicate FilterAdmits(filter: Option<string>, value: string)
  {
    Given(filter) ==> value == filter.value
  }

  /**
   * The history after an update by `editor`: one entry more when a note was
   * given, otherwise the same history, even when the status changes.
   */
  function Record(history: seq<EditEntry>, editor: nat, note: Option<string>, previousStatus: string,
                  status: Option<string>, now: int): (h: seq<EditEntry>)
    ensures |h| == |history| + (if Given(note) then 1 else 0)
    ensures h[..|history|] == history
    ensures Given(note) ==> h[|history|] == EditEntry(editor, now, note.value, previousStatus,
                                                       if Given(status) then status.value else previousStatus)
  {
    if Given(note) then
      history + [EditEntry(editor, now, note.value, previousStatus, OrDefault(status, previousStatus))]
    else
      history
  }

  /** Every entry ever recorded stays where it was. */
  lemma {:induction false} RecordsAppendOnly(history: seq<EditEntry>, updates: seq<(nat, Option<string>, string, Option<string>, int)>)
    ensures var h := Replay(history, updates); |h| >= |history| && h[..|history|] == history
    decreases |updates|
  {
    if updates != [] {
      var u := updates[0];
      var next := Record(history, u.0, u.1, u.2, u.3, u.4);
      RecordsAppendOnly(next, updates[1..]);
      var h := Replay(next, updates[1..]);
      assert h[..|history|] == h[..|next|][..|history|];
    }
  }

  /** The history after a sequence of updates (editor, note, previous status, status, time). */
  function Replay(history: seq<EditEntry>, updates: seq<(nat, Option<string>, string, Option<string>, int)>): seq<EditEntry>
    decreases |updates|
  {
    if updates == [] then history
    else
      var u := updates[0];
      Replay(Record(history, u.0, u.1, u.2, u.3, u.4), updates[1..])
  }

  /** The number of entries is the number of updates that carried a note. */
  lemma {:induction false} ReplayCountsNotes(history: seq<EditEntry>, updates: seq<(nat, Option<string>, string, Option<string>, int)>)
    ensures |Replay(history, updates)| == |history| + NotesGiven(updates)
    decreases |updates|
  {
    if updates != [] {
      var u := updates[0];
      ReplayCountsNotes(Record(history, u.0, u.1, u.2, u.3, u.4), updates[1..]);
    }
  }

  function NotesGiven(updates: seq<(nat, Option<string>, string, Option<string>, int)>): nat
  {
    if updates == [] then 0 else (if Given(updates[0].1) then 1 else 0) + NotesGiven(updates[1..])
  }
}
