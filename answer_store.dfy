/** The answer store: an append-only CSV file of `id, question, answer`
    records. The file is either absent or a sequence of already-parsed lines;
    its first line is the header that the reading side uses to name columns. */
module AnswerStore {
  import opened Wrappers

  /** One parsed CSV line: its fields in order. */
  type Record = seq<string>

  /** The column names the writer uses, and the header it writes. */
  const FIELDNAMES: Record := ["id", "question", "answer"]

  /** The contents of the store file, or None when the file does not exist. */
  type StoreFile = Option<seq<Record>>

  /** One call of the writer: the values it is given. */
  datatype Answered = Answered(id: string, question: string, answer: string)

  /** The line the writer appends for one call, in column order. */
  function RowOf(w: Answered): Record
  {
    [w.id, w.question, w.answer]
  }

  /** The column of the last occurrence of `key` in `header`. */
  function LastIndexOf(header: Record, key: string): (r: Option<nat>)
    ensures r.Some? ==> r.value < |header| && header[r.value] == key
    ensures r.Some? ==> forall j :: r.value < j < |header| ==> header[j] != key
    ensures r.None? <==> key !in header
  {
    if |header| == 0 then None
    else if header[|header| - 1] == key then Some(|header| - 1)
    else LastIndexOf(header[..|header| - 1], key)
  }

  /** `row.get(key)` on a row read as a dictionary: the field under the last
      header column named `key`; None when the header has no such column or
      the line is too short to reach it. */
  function Field(header: Record, line: Record, key: string): (r: Option<string>)
    ensures r.Some? ==> key in header && r.value in line
    ensures key !in header ==> r == None
  {
    match LastIndexOf(header, key)
    case None => None
    case Some(j) => if j < |line| then Some(line[j]) else None
  }

  /** Whether data line `line` carries identifier `id`. */
  predicate HasId(header: Record, line: Record, id: string)
    ensures HasId(header, line, id) ==> "id" in header && id in line
  {
    Field(header, line, "id") == Some(id)
  }

  /** The position of the first data line carrying `id`, scanning in file order. */
  function FirstMatch(header: Record, rows: seq<Record>, id: string): (r: Option<nat>)
    ensures r.Some? ==> r.value < |rows| && HasId(header, rows[r.value], id)
    ensures r.Some? ==> forall j :: 0 <= j < r.value ==> !HasId(header, rows[j], id)
    ensures r.None? <==> forall j :: 0 <= j < |rows| ==> !HasId(header, rows[j], id)
  {
    if |rows| == 0 then None
    else if HasId(header, rows[0], id) then Some(0)
    else match FirstMatch(header, rows[1..], id)
      case None => None
      case Some(k) => Some(k + 1)
  }

  /** The answer `get_stored_answer` returns for `id`. */
  function Lookup(file: StoreFile, id: string): (r: Option<string>)
    ensures file.None? ==> r == None
    ensures r.Some? ==> file.Some?
    ensures r.Some? ==>
      exists k :: 1 <= k < |file.value| &&
        HasId(file.value[0], file.value[k], id) &&
        Field(file.value[0], file.value[k], "answer") == r &&
        forall j :: 1 <= j < k ==> !HasId(file.value[0], file.value[j], id)
    ensures file.Some? ==>
      forall k | 1 <= k < |file.value| && HasId(file.value[0], file.value[k], id) &&
                 (forall j :: 1 <= j < k ==> !HasId(file.value[0], file.value[j], id)) ::
        r == Field(file.value[0], file.value[k], "answer")
    ensures file.Some? && (forall k :: 1 <= k < |file.value| ==> !HasId(file.value[0], file.value[k], id)) ==>
      r == None
  {
    if file.None? || |file.value| == 0 then None
    else
      var header, rows := file.value[0], file.value[1..];
      assert forall j :: 1 <= j < |file.value| ==> file.value[j] == rows[j - 1];
      match FirstMatch(header, rows, id)
      case None => None
      case Some(k) =>
        assert rows[k] == file.value[k + 1];
        Field(header, rows[k], "answer")
  }

  /** Whether some data line of the file already carries `id`. */
  predicate Recorded(file: StoreFile, id: string)
  {
    file.Some? && |file.value| > 0 && FirstMatch(file.value[0], file.value[1..], id).Some?
  }

  /** A file the writer can have produced: absent, or headed by FIELDNAMES. */
  predicate Conformant(file: StoreFile)
  {
    file.None? || (|file.value| > 0 && file.value[0] == FIELDNAMES)
  }

  /** The file after one `store_answer` call: a new file gets the header and
      the row, an existing one gets the row appended. */
  function Stored(file: StoreFile, w: Answered): (r: StoreFile)
    ensures r.Some? && |r.value| >= 1 && r.value[|r.value| - 1] == RowOf(w)
    ensures file.None? ==> r.value[0] == FIELDNAMES && |r.value| == 2
    ensures file.Some? ==> |r.value| == |file.value| + 1 && r.value[..|file.value|] == file.value
  {
    if file.None? then Some([FIELDNAMES, RowOf(w)])
    else Some(file.value + [RowOf(w)])
  }

  /** The file after a sequence of `store_answer` calls, in call order. */
  function StoredAll(file: StoreFile, ws: seq<Answered>): (r: StoreFile)
    ensures |ws| > 0 ==> r.Some?
    ensures file.Some? ==> r.Some? && |r.value| == |file.value| + |ws| && r.value[..|file.value|] == file.value
    decreases |ws|
  {
    if |ws| == 0 then file else StoredAll(Stored(file, ws[0]), ws[1..])
  }

  /** Under the writer's header, a written row reads back as what was written. */
  lemma RowReadsBack(w: Answered)
    ensures Field(FIELDNAMES, RowOf(w), "id") == Some(w.id)
    ensures Field(FIELDNAMES, RowOf(w), "question") == Some(w.question)
    ensures Field(FIELDNAMES, RowOf(w), "answer") == Some(w.answer)
  {
    assert LastIndexOf(FIELDNAMES, "id") == Some(0);
    assert LastIndexOf(FIELDNAMES, "question") == Some(1);
    assert LastIndexOf(FIELDNAMES, "answer") == Some(2);
  }

  /** Storing keeps a conformant file conformant. */
  lemma StoredConformant(file: StoreFile, w: Answered)
    requires Conformant(file)
    ensures Conformant(Stored(file, w))
  {
  }

  /** Storing never changes the answer of an id that is already recorded,
      whatever id is stored: the first answer wins and is not overwritten. */
  lemma {:induction false} StoreKeepsRecorded(file: StoreFile, w: Answered, id: string)
    requires Recorded(file, id)
    ensures Recorded(Stored(file, w), id)
    ensures Lookup(Stored(file, w), id) == Lookup(file, id)
  {
    var lines := file.value;
    var lines' := Stored(file, w).value;
    assert lines'[0] == lines[0];
    assert lines'[1..] == lines[1..] + [RowOf(w)];
    var k := FirstMatch(lines[0], lines[1..], id).value;
    assert lines'[1..][k] == lines[1..][k];
    assert forall j :: 0 <= j < k ==> lines'[1..][j] == lines[1..][j];
    assert FirstMatch(lines'[0], lines'[1..], id) == Some(k);
  }

  /** Storing into a conformant file where `id` is not yet recorded: the
      stored id now has the stored answer, every other id stays unrecorded. */
  lemma {:induction false} StoreUnrecorded(file: StoreFile, w: Answered, id: string)
    requires Conformant(file) && !Recorded(file, id)
    ensures Recorded(Stored(file, w), id) <==> w.id == id
    ensures Lookup(Stored(file, w), id) == if w.id == id then Some(w.answer) else None
  {
    RowReadsBack(w);
    var lines' := Stored(file, w).value;
    var rows' := lines'[1..];
    assert lines'[0] == FIELDNAMES;
    if file.None? {
      assert rows' == [RowOf(w)];
    } else {
      var rows := file.value[1..];
      assert rows' == rows + [RowOf(w)];
      assert forall j :: 0 <= j < |rows| ==> rows'[j] == rows[j];
    }
    assert rows'[|rows'| - 1] == RowOf(w);
    if w.id == id {
      assert FirstMatch(FIELDNAMES, rows', id) == Some(|rows'| - 1);
    } else {
      assert FirstMatch(FIELDNAMES, rows', id).None?;
    }
  }

  /** Once recorded, an id keeps its answer through any later stores. */
  lemma {:induction false} StoredAllKeepsRecorded(file: StoreFile, ws: seq<Answered>, id: string)
    requires Recorded(file, id)
    ensures Recorded(StoredAll(file, ws), id)
    ensures Lookup(StoredAll(file, ws), id) == Lookup(file, id)
    decreases |ws|
  {
    if |ws| > 0 {
      StoreKeepsRecorded(file, ws[0], id);
      StoredAllKeepsRecorded(Stored(file, ws[0]), ws[1..], id);
    }
  }

  /** After a series of stores into a conformant file that had no answer for
      `id`, looking up `id` gives the answer of the earliest store with that
      id, or None when no store used it. */
  lemma {:induction false} FirstStoredAnswerWins(file: StoreFile, ws: seq<Answered>, id: string)
    requires Conformant(file) && !Recorded(file, id)
    ensures Lookup(StoredAll(file, ws), id) ==
      if exists k :: 0 <= k < |ws| && ws[k].id == id
      then Some(ws[FirstStoreOf(ws, id)].answer) else None
    decreases |ws|
  {
    if |ws| > 0 {
      StoreUnrecorded(file, ws[0], id);
      StoredConformant(file, ws[0]);
      if ws[0].id == id {
        StoredAllKeepsRecorded(Stored(file, ws[0]), ws[1..], id);
      } else {
        FirstStoredAnswerWins(Stored(file, ws[0]), ws[1..], id);
        assert (exists k :: 0 <= k < |ws| && ws[k].id == id) <==>
               (exists k :: 0 <= k < |ws[1..]| && ws[1..][k].id == id) by {
          forall k | 0 < k < |ws| ensures ws[k] == ws[1..][k - 1] { }
        }
      }
    }
  }

  /** The index of the first call in `ws` that stores under `id`. */
  function FirstStoreOf(ws: seq<Answered>, id: string): (k: nat)
    requires exists k :: 0 <= k < |ws| && ws[k].id == id
    ensures k < |ws| && ws[k].id == id
    ensures forall j :: 0 <= j < k ==> ws[j].id != id
  {
    if ws[0].id == id then 0
    else
      assert exists k :: 0 <= k < |ws[1..]| && ws[1..][k].id == id by {
        var k :| 0 <= k < |ws| && ws[k].id == id;
        assert ws[1..][k - 1] == ws[k];
      }
      1 + FirstStoreOf(ws[1..], id)
  }

  /** A file that exists but is empty gets no header on the first store, so
      the stored row is read as the header and its answer is never found. */
  lemma EmptyFileLosesFirstRow(w: Answered)
    ensures Lookup(Stored(Some([]), w), w.id) == None
  {
  }

  /** The store file, updated in place by the writer. */
  class AnswerFile {
    var file: StoreFile

    constructor (initial: StoreFile)
      ensures file == initial
    {
      file := initial;
    }

    /** `get_stored_answer`: scan the data lines in order and return the
        answer of the first one whose id matches. */
    method GetStoredAnswer(questionId: string) returns (answer: Option<string>)
      ensures answer == Lookup(file, questionId)
    {
      if file.None? {
        return None;
      }
      var lines := file.value;
      if |lines| == 0 {
        return None;
      }
      var header := lines[0];
      var i := 1;
      while i < |lines|
        invariant 1 <= i <= |lines|
        invariant forall j :: 1 <= j < i ==> !HasId(header, lines[j], questionId)
      {
        if Field(header, lines[i], "id") == Some(questionId) {
          assert lines[1..][i - 1] == lines[i];
          assert forall j :: 0 <= j < i - 1 ==> lines[1..][j] == lines[j + 1];
          assert FirstMatch(header, lines[1..], questionId) == Some(i - 1);
          return Field(header, lines[i], "answer");
        }
        i := i + 1;
      }
      assert forall j :: 0 <= j < |lines| - 1 ==> lines[1..][j] == lines[j + 1];
      return None;
    }

    /** `store_answer`: write the header first when the file did not exist,
        then append exactly one row; earlier lines are left as they were. */
    method StoreAnswer(questionId: string, question: string, answer: string)
      modifies this
      ensures file == Stored(old(file), Answered(questionId, question, answer))
      ensures file.Some?
      ensures old(file).None? ==> file.value == [FIELDNAMES, [questionId, question, answer]]
      ensures old(file).Some? ==> file.value == old(file).value + [[questionId, question, answer]]
    {
      var fileExists := file.Some?;
      var lines := if fileExists then file.value else [];
      if !fileExists {
        lines := lines + [FIELDNAMES];
      }
      lines := lines + [[questionId, question, answer]];
      assert !fileExists ==> lines == [FIELDNAMES, [questionId, question, answer]];
      file := Some(lines);
    }
  }
}
