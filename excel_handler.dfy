/**
 * Reading and writing invoice fields in the template's worksheet. The
 * worksheet is a map from cell reference to cell value; a cell that was
 * never written reads as empty, as in a spreadsheet.
 */
module Excel {
  import opened Wrappers
  import opened Text
  import opened Seqs
  import opened Config

  /**
   * A cell value: empty, a string, an integer, a float with its `str()`
   * rendering, a boolean, or a date, time or datetime, which is kept only
   * as its `str()` rendering.
   */
  datatype Value = Null | Str(s: string) | Int(i: int) | Float(x: real, repr: string) | Bool(b: bool) | Moment(repr: string)

  /** What the caller hands to `set_cell_value`: one value, or a list of values. */
  datatype Datum = Scalar(value: Value) | Items(values: seq<Value>)

  type Sheet = map<Coord, Value>

  /** A workbook: its sheets by title, in order. */
  type Workbook = seq<(string, Sheet)>

  datatype HandlerError = TemplateNotFound | NoSheets | NotLoaded | CannotStore

  const OUTPUT_FOLDER: string := "./generated_invoices/"

  /** The value of a cell; a cell never written is empty. */
  function Get(sheet: Sheet, c: Coord): Value
  {
    if c in sheet then sheet[c] else Null
  }

  /** Python's `str(v)`. */
  function PyStr(v: Value): string
  {
    match v
    case Null => "None"
    case Str(s) => s
    case Int(i) => IntToString(i)
    case Float(_, repr) => repr
    case Bool(b) => if b then "True" else "False"
    case Moment(repr) => repr
  }

  /** Python truthiness of a cell value. */
  predicate Truthy(v: Value)
  {
    match v
    case Null => false
    case Str(s) => s != []
    case Int(i) => i != 0
    case Float(x, _) => x != 0.0
    case Bool(b) => b
    case Moment(_) => true
  }

  /** How one cell of a multi-cell field reads: empty cells read as `''`. */
  function CellText(v: Value): string
  {
    if v.Null? then "" else PyStr(v)
  }

  /** The texts of the listed cells, in order. */
  function CellTexts(sheet: Sheet, cs: seq<Coord>): (r: seq<string>)
    ensures |r| == |cs|
    ensures forall k :: 0 <= k < |cs| ==> r[k] == CellText(Get(sheet, cs[k]))
  {
    if cs == [] then []
    else CellTexts(sheet, cs[..|cs| - 1]) + [CellText(Get(sheet, cs[|cs| - 1]))]
  }

  /** `get_cell_value`: the raw value of one cell, or the trimmed newline-join of several. */
  function ReadField(sheet: Sheet, ref: CellRef): Value
  {
    match ref
    case Single(c) => Get(sheet, c)
    case Multi(cs) => Str(Strip(Join(CellTexts(sheet, cs), '\n')))
  }

  /** The values `set_cell_value` distributes over the cells of a multi-cell field. */
  function WriteParts(d: Datum): (parts: seq<Value>)
    ensures d.Scalar? && d.value.Str? && '\n' in d.value.s ==>
      |parts| == |SplitLines(d.value.s)| && forall k :: 0 <= k < |parts| ==> parts[k] == Str(SplitLines(d.value.s)[k])
    ensures d.Items? ==>
      |parts| == |d.values| && forall k :: 0 <= k < |parts| ==> parts[k] == Str(PyStr(d.values[k]))
    ensures d.Scalar? && !(d.value.Str? && '\n' in d.value.s) ==> parts == [d.value]
  {
    match d
    case Scalar(v) =>
      if v.Str? && '\n' in v.s then seq(|SplitLines(v.s)|, k requires 0 <= k < |SplitLines(v.s)| => Str(SplitLines(v.s)[k]))
      else [v]
    case Items(vs) => seq(|vs|, k requires 0 <= k < |vs| => Str(PyStr(vs[k])))
  }

  /** The value cell `k` receives: the `k`-th part, or `''` past the last part. */
  function PartAt(parts: seq<Value>, k: nat): Value
  {
    if k < |parts| then parts[k] else Str("")
  }

  /** The longest string openpyxl keeps in a cell; a longer one is cut to this length. */
  const MAX_CELL_TEXT: nat := 32767

  /** The control characters openpyxl refuses in a cell string; tab, newline and carriage return are allowed. */
  predicate IllegalChar(c: char)
  {
    c <= '\U{8}' || '\U{b}' <= c <= '\U{c}' || '\U{e}' <= c <= '\U{1f}'
  }

  /** A string openpyxl stores as it is: short enough and free of illegal control characters. */
  predicate Fits(s: string)
  {
    |s| <= MAX_CELL_TEXT && forall k :: 0 <= k < |s| ==> !IllegalChar(s[k])
  }

  /**
   * openpyxl's check on a string assigned to a cell: the string is cut to
   * `MAX_CELL_TEXT` characters, and refused when what is left holds an
   * illegal control character.
   */
  function CellString(s: string): (r: Option<string>)
    ensures r.Some? <==> forall k :: 0 <= k < |s| && k < MAX_CELL_TEXT ==> !IllegalChar(s[k])
    ensures r.Some? ==> |r.value| == (if |s| <= MAX_CELL_TEXT then |s| else MAX_CELL_TEXT) && r.value == s[..|r.value|]
  {
    var t := if |s| <= MAX_CELL_TEXT then s else s[..MAX_CELL_TEXT];
    if exists k :: 0 <= k < |t| && IllegalChar(t[k]) then None else Some(t)
  }

  /** What a cell holds once `v` is assigned to it, or `None` when openpyxl refuses the value. */
  function Stored(v: Value): Option<Value>
  {
    if v.Str? then
      match CellString(v.s)
      case None => None
      case Some(t) => Some(Str(t))
    else Some(v)
  }

  /** A value is stored unchanged exactly when it is not a string or it is a string that fits. */
  lemma StoredUnchanged(v: Value)
    ensures Stored(v) == Some(v) <==> !v.Str? || Fits(v.s)
  {
    if v.Str? && Stored(v) == Some(v) {
      assert |CellString(v.s).value| == |v.s|;
    }
  }

  /** A description holding the control character U+0001 is refused, so writing it to a single cell fails. */
  lemma ControlCharRefused(sheet: Sheet, c: Coord)
    ensures Stored(Str("a\U{1}b")).None?
    ensures !WriteField(sheet, Single(c), Scalar(Str("a\U{1}b"))).ok
  {
    assert IllegalChar("a\U{1}b"[1]);
  }

  /** The sheet after a run of writes, and whether every write succeeded. */
  datatype Written = Written(sheet: Sheet, ok: bool)

  /** `cell.value = v` within a run of writes: nothing once a write has failed, and a refused value fails. */
  function Assign(w: Written, c: Coord, v: Value): Written
  {
    if !w.ok then w
    else match Stored(v)
      case None => Written(w.sheet, false)
      case Some(x) => Written(w.sheet[c := x], true)
  }

  /** Writes `PartAt(parts, k)` into `cs[k]` for each `k` in order, stopping at the first refused part. */
  function Place(sheet: Sheet, cs: seq<Coord>, parts: seq<Value>): Written
  {
    if cs == [] then Written(sheet, true)
    else Assign(Place(sheet, cs[..|cs| - 1], parts), cs[|cs| - 1], PartAt(parts, |cs| - 1))
  }

  /**
   * `set_cell_value`: the sheet after the write and whether it succeeded.
   * A list cannot go into a single cell, and a string openpyxl refuses
   * fails the write; in a multi-cell field the cells before the refused
   * part have been written by then.
   */
  function WriteField(sheet: Sheet, ref: CellRef, d: Datum): Written
  {
    match ref
    case Single(c) => if d.Items? then Written(sheet, false) else Assign(Written(sheet, true), c, d.value)
    case Multi(cs) => Place(sheet, cs, WriteParts(d))
  }

  /** A placement succeeds exactly when every part it writes is accepted. */
  lemma {:induction false} PlaceOk(sheet: Sheet, cs: seq<Coord>, parts: seq<Value>)
    ensures Place(sheet, cs, parts).ok <==> forall k :: 0 <= k < |cs| ==> Stored(PartAt(parts, k)).Some?
  {
    if cs != [] {
      var n := |cs| - 1;
      PlaceOk(sheet, cs[..n], parts);
    }
  }

  /** Once a prefix of the placement has failed, the rest of the cells change nothing. */
  lemma {:induction false} PlaceStopped(sheet: Sheet, cs: seq<Coord>, parts: seq<Value>, i: nat)
    requires i <= |cs| && !Place(sheet, cs[..i], parts).ok
    ensures Place(sheet, cs, parts) == Place(sheet, cs[..i], parts)
    decreases |cs|
  {
    if i < |cs| {
      var n := |cs| - 1;
      assert cs[..n][..i] == cs[..i];
      PlaceStopped(sheet, cs[..n], parts, i);
    } else {
      assert cs[..i] == cs;
    }
  }

  /** The loop of `set_cell_value` over a multi-cell field; a refused value ends it. */
  method PlaceCells(sheet: Sheet, cs: seq<Coord>, parts: seq<Value>) returns (w: Written)
    ensures w == Place(sheet, cs, parts)
  {
    var cur := sheet;
    var i := 0;
    while i < |cs|
      invariant 0 <= i <= |cs|
      invariant Place(sheet, cs[..i], parts) == Written(cur, true)
    {
      assert cs[..i + 1][..i] == cs[..i];
      var v := Stored(PartAt(parts, i));
      if v.None? {
        PlaceStopped(sheet, cs, parts, i + 1);
        return Written(cur, false);
      }
      cur := cur[cs[i] := v.value];
      i := i + 1;
    }
    assert cs[..i] == cs;
    w := Written(cur, true);
  }

  /** After a successful placement, cell `cs[k]` holds the `k`-th part or `''`, as openpyxl stores it. */
  lemma {:induction false} PlaceAt(sheet: Sheet, cs: seq<Coord>, parts: seq<Value>, k: nat)
    requires NoDup(cs) && k < |cs| && Place(sheet, cs, parts).ok
    ensures Some(Get(Place(sheet, cs, parts).sheet, cs[k])) == Stored(PartAt(parts, k))
  {
    var n := |cs| - 1;
    if k < n {
      PlaceAt(sheet, cs[..n], parts, k);
      assert cs[k] != cs[n];
    }
  }

  /**
   * After a failed placement, the cells before the first refused part hold
   * their parts and that cell and the ones after it are unchanged.
   */
  lemma {:induction false} PlaceFailed(sheet: Sheet, cs: seq<Coord>, parts: seq<Value>, k: nat)
    requires NoDup(cs) && k < |cs| && !Place(sheet, cs, parts).ok
    ensures exists i ::
      && 0 <= i < |cs| && Stored(PartAt(parts, i)).None?
      && (forall j :: 0 <= j < i ==> Stored(PartAt(parts, j)).Some?)
      && (k < i ==> Some(Get(Place(sheet, cs, parts).sheet, cs[k])) == Stored(PartAt(parts, k)))
      && (k >= i ==> Get(Place(sheet, cs, parts).sheet, cs[k]) == Get(sheet, cs[k]))
  {
    PlaceOk(sheet, cs, parts);
    var i := FirstRefused(parts, |cs|);
    FailedAt(sheet, cs, parts, i);
    if k < i {
      PrefixCell(sheet, cs, parts, i, k);
    } else {
      SuffixCell(sheet, cs, parts, i, k);
    }
  }

  /** A placement that first refuses part `i` is the successful placement of the cells before it. */
  lemma FailedAt(sheet: Sheet, cs: seq<Coord>, parts: seq<Value>, i: nat)
    requires i < |cs| && Stored(PartAt(parts, i)).None? && forall j :: 0 <= j < i ==> Stored(PartAt(parts, j)).Some?
    ensures Place(sheet, cs[..i], parts).ok
    ensures Place(sheet, cs, parts) == Place(sheet, cs[..i], parts).(ok := false)
  {
    PlaceOk(sheet, cs[..i], parts);
    assert cs[..i + 1][..i] == cs[..i];
    PlaceStopped(sheet, cs, parts, i + 1);
  }

  lemma PrefixCell(sheet: Sheet, cs: seq<Coord>, parts: seq<Value>, i: nat, k: nat)
    requires NoDup(cs) && k < i < |cs| && Place(sheet, cs[..i], parts).ok
    ensures Some(Get(Place(sheet, cs[..i], parts).sheet, cs[k])) == Stored(PartAt(parts, k))
  {
    assert cs[..i][k] == cs[k];
    PlaceAt(sheet, cs[..i], parts, k);
  }

  lemma SuffixCell(sheet: Sheet, cs: seq<Coord>, parts: seq<Value>, i: nat, k: nat)
    requires NoDup(cs) && i <= k < |cs|
    ensures Get(Place(sheet, cs[..i], parts).sheet, cs[k]) == Get(sheet, cs[k])
  {
    assert cs[k] !in cs[..i];
    PlaceFrame(sheet, cs[..i], parts, cs[k]);
  }

  /** Among the first `n` parts, if one is refused, the first refused one. */
  lemma {:induction false} FirstRefused(parts: seq<Value>, n: nat) returns (i: nat)
    requires exists k :: 0 <= k < n && Stored(PartAt(parts, k)).None?
    ensures i < n && Stored(PartAt(parts, i)).None? && forall j :: 0 <= j < i ==> Stored(PartAt(parts, j)).Some?
  {
    if forall j :: 0 <= j < n - 1 ==> Stored(PartAt(parts, j)).Some? {
      i := n - 1;
    } else {
      i := FirstRefused(parts, n - 1);
    }
  }

  /** A placement, failed or not, leaves every other cell as it was. */
  lemma {:induction false} PlaceFrame(sheet: Sheet, cs: seq<Coord>, parts: seq<Value>, c: Coord)
    requires c !in cs
    ensures Get(Place(sheet, cs, parts).sheet, c) == Get(sheet, c)
  {
    if cs != [] {
      assert c != cs[|cs| - 1];
      PlaceFrame(sheet, cs[..|cs| - 1], parts, c);
    }
  }

  /**
   * Writing to a multi-cell field: a newline-containing string goes line by
   * line, a list element by element (stringified), anything else into the
   * first cell only; cells past the parts get `''`, parts past the cells are
   * dropped, and no other cell changes. The write succeeds exactly when
   * openpyxl accepts every value it assigns, and each cell then holds its
   * value as openpyxl stores it.
   */
  lemma MultiWriteCells(sheet: Sheet, cs: seq<Coord>, d: Datum, k: nat, c: Coord)
    requires NoDup(cs) && k < |cs|
    ensures var w := WriteField(sheet, Multi(cs), d);
      && (w.ok <==> forall j :: 0 <= j < |cs| ==> Stored(PartAt(WriteParts(d), j)).Some?)
      && (w.ok && d.Scalar? && d.value.Str? && '\n' in d.value.s ==>
            Some(Get(w.sheet, cs[k])) == Stored(if k < |SplitLines(d.value.s)| then Str(SplitLines(d.value.s)[k]) else Str("")))
      && (w.ok && d.Items? ==>
            Some(Get(w.sheet, cs[k])) == Stored(if k < |d.values| then Str(PyStr(d.values[k])) else Str("")))
      && (w.ok && d.Scalar? && !(d.value.Str? && '\n' in d.value.s) ==>
            Some(Get(w.sheet, cs[k])) == Stored(if k == 0 then d.value else Str("")))
      && (c !in cs ==> Get(w.sheet, c) == Get(sheet, c))
  {
    PlaceOk(sheet, cs, WriteParts(d));
    if WriteField(sheet, Multi(cs), d).ok {
      PlaceAt(sheet, cs, WriteParts(d), k);
    }
    if c !in cs {
      PlaceFrame(sheet, cs, WriteParts(d), c);
    }
  }

  /**
   * A value written to a single-cell field reads back unchanged when it is
   * not a string or is a string that fits; a list, or a string openpyxl
   * refuses, fails the write and changes nothing.
   */
  lemma SingleRoundTrip(sheet: Sheet, c: Coord, d: Datum)
    ensures var w := WriteField(sheet, Single(c), d);
      && (!w.ok <==> d.Items? || Stored(d.value).None?)
      && (!w.ok ==> w.sheet == sheet)
      && (w.ok ==> Some(ReadField(w.sheet, Single(c))) == Stored(d.value))
      && (d.Scalar? && (!d.value.Str? || Fits(d.value.s)) ==> w.ok && ReadField(w.sheet, Single(c)) == d.value)
  {
    if d.Scalar? {
      StoredUnchanged(d.value);
    }
  }

  function Blanks(m: nat): (r: seq<string>)
  {
    seq(m, _ => "")
  }

  function Newlines(m: nat): (r: string)
  {
    seq(m, _ => '\n')
  }

  /** Joining trailing empty strings only adds separators. */
  lemma {:induction false} JoinBlanks(xs: seq<string>, m: nat)
    requires |xs| >= 1
    ensures Join(xs + Blanks(m), '\n') == Join(xs, '\n') + Newlines(m)
  {
    if m == 0 {
      assert xs + Blanks(0) == xs;
      assert Join(xs, '\n') + Newlines(0) == Join(xs, '\n');
    } else {
      JoinBlanks(xs, m - 1);
      assert xs + Blanks(m) == (xs + Blanks(m - 1)) + [""];
      JoinAppendEmpty(xs + Blanks(m - 1), '\n');
      assert Newlines(m) == Newlines(m - 1) + ['\n'];
    }
  }

  /**
   * Writing a multi-line string to a multi-cell field and reading the field
   * back gives the string again, provided it has no more lines than the
   * field has cells, breaks lines only with `\n`, does not end with one, and
   * has no surrounding whitespace, and fits in a cell.
   */
  lemma MultiRoundTrip(sheet: Sheet, cs: seq<Coord>, s: string)
    requires NoDup(cs) && Fits(s)
    requires '\n' in s && s[|s| - 1] != '\n' && Trimmed(s)
    requires forall k :: 0 <= k < |s| && IsLineBreak(s[k]) ==> s[k] == '\n'
    requires |Split(s, '\n')| <= |cs|
    ensures WriteField(sheet, Multi(cs), Scalar(Str(s))).ok
    ensures ReadField(WriteField(sheet, Multi(cs), Scalar(Str(s))).sheet, Multi(cs)) == Str(s)
  {
    var lines := Split(s, '\n');
    var m := |cs| - |lines|;
    MultiLineCells(sheet, cs, s);
    JoinBlanks(lines, m);
    JoinSplit(s, '\n');
    NewlinesSpace(m);
    StripAppendSpace(s, Newlines(m));
  }

  /** The cells of the field hold the lines of the string, then empty strings. */
  lemma MultiLineCells(sheet: Sheet, cs: seq<Coord>, s: string)
    requires NoDup(cs) && Fits(s)
    requires '\n' in s && s[|s| - 1] != '\n'
    requires forall k :: 0 <= k < |s| && IsLineBreak(s[k]) ==> s[k] == '\n'
    requires |Split(s, '\n')| <= |cs|
    ensures WriteField(sheet, Multi(cs), Scalar(Str(s))).ok
    ensures CellTexts(WriteField(sheet, Multi(cs), Scalar(Str(s))).sheet, cs)
      == Split(s, '\n') + Blanks(|cs| - |Split(s, '\n')|)
  {
    var lines := Split(s, '\n');
    var parts := WriteParts(Scalar(Str(s)));
    SplitLinesAsSplit(s);
    LinesFit(s, parts, |cs|);
    PlaceOk(sheet, cs, parts);
    var texts := CellTexts(Place(sheet, cs, parts).sheet, cs);
    var want := lines + Blanks(|cs| - |lines|);
    forall k | 0 <= k < |cs| ensures texts[k] == want[k] {
      LineCell(sheet, cs, parts, lines, k);
    }
    assert texts == want;
  }

  /** Every line of a string that fits in a cell fits too, and so every part is stored as it is. */
  lemma LinesFit(s: string, parts: seq<Value>, n: nat)
    requires Fits(s) && |parts| == |Split(s, '\n')|
    requires forall j :: 0 <= j < |parts| ==> parts[j] == Str(Split(s, '\n')[j])
    ensures forall j :: 0 <= j < n ==> Stored(PartAt(parts, j)) == Some(PartAt(parts, j))
  {
    SplitPieces(s, '\n');
    forall j | 0 <= j < n ensures Stored(PartAt(parts, j)) == Some(PartAt(parts, j)) {
      StoredUnchanged(PartAt(parts, j));
      if j < |parts| {
        var line := Split(s, '\n')[j];
        assert Fits(line) by {
          forall m | 0 <= m < |line| ensures !IllegalChar(line[m]) {
            assert line[m] in line;
          }
        }
      }
    }
  }

  /** Cell `k` of a successful line-by-line placement holds line `k`, or `''` past the last line. */
  lemma LineCell(sheet: Sheet, cs: seq<Coord>, parts: seq<Value>, lines: seq<string>, k: nat)
    requires NoDup(cs) && k < |cs| && |lines| <= |cs| && Place(sheet, cs, parts).ok
    requires |parts| == |lines| && forall j :: 0 <= j < |parts| ==> parts[j] == Str(lines[j])
    requires forall j :: 0 <= j < |cs| ==> Stored(PartAt(parts, j)) == Some(PartAt(parts, j))
    ensures CellText(Get(Place(sheet, cs, parts).sheet, cs[k])) == (lines + Blanks(|cs| - |lines|))[k]
  {
    PlaceAt(sheet, cs, parts, k);
    if k >= |lines| {
      assert (lines + Blanks(|cs| - |lines|))[k] == Blanks(|cs| - |lines|)[k - |lines|];
    }
  }

  lemma NewlinesSpace(m: nat)
    ensures AllSpace(Newlines(m))
  {
    forall k | 0 <= k < m ensures IsSpace(Newlines(m)[k]) {
    }
  }

  /** Whether `update_invoice` writes a key: it is in the field table and not read-only. */
  predicate Writable(key: string)
  {
    Lookup(key).Some? && !Lookup(key).value.readOnly
  }

  /**
   * `update_invoice` over the entries of the data dictionary in order: keys
   * that are unknown or read-only are skipped, and the first write that
   * fails stops the run with the earlier writes in place.
   */
  function Update(sheet: Sheet, entries: seq<(string, Datum)>): Written
  {
    if entries == [] then Written(sheet, true)
    else
      var w := Update(sheet, entries[..|entries| - 1]);
      UpdateStep(w, entries[|entries| - 1])
  }

  function UpdateStep(w: Written, e: (string, Datum)): Written
  {
    if !w.ok || !Writable(e.0) then w
    else WriteField(w.sheet, Lookup(e.0).value.cell, e.1)
  }

  /** A cell that no written entry maps to keeps its value. */
  lemma {:induction false} UpdateFrame(sheet: Sheet, entries: seq<(string, Datum)>, c: Coord)
    requires forall k :: 0 <= k < |entries| && Writable(entries[k].0) ==> c !in FieldCellsOf(entries[k].0)
    ensures Get(Update(sheet, entries).sheet, c) == Get(sheet, c)
  {
    if entries != [] {
      var n := |entries| - 1;
      UpdateFrame(sheet, entries[..n], c);
      var w := Update(sheet, entries[..n]);
      var e := entries[n];
      if w.ok && Writable(e.0) {
        match Lookup(e.0).value.cell
        case Single(x) =>
          assert FieldCellsOf(e.0) == [x];
        case Multi(cs) =>
          PlaceFrame(w.sheet, cs, WriteParts(e.1), c);
      }
    }
  }

  /** Entries whose keys are unknown or read-only change nothing. */
  lemma {:induction false} UpdateSkips(sheet: Sheet, entries: seq<(string, Datum)>)
    requires forall k :: 0 <= k < |entries| ==> !Writable(entries[k].0)
    ensures Update(sheet, entries) == Written(sheet, true)
  {
    if entries != [] {
      UpdateSkips(sheet, entries[..|entries| - 1]);
    }
  }

  /** Whatever the data, `update_invoice` never writes the total-amount cell. */
  lemma TotalNeverWritten(sheet: Sheet, entries: seq<(string, Datum)>)
    ensures Get(Update(sheet, entries).sheet, Coord('F', 27)) == Get(sheet, Coord('F', 27))
  {
    forall k | 0 <= k < |entries| && Writable(entries[k].0)
      ensures Coord('F', 27) !in FieldCellsOf(entries[k].0)
    {
      var key := entries[k].0;
      OnlyTotalReadOnly(key);
      TotalCellOwned(key);
    }
    UpdateFrame(sheet, entries, Coord('F', 27));
  }

  /** The total-amount cell belongs to no other field. */
  lemma TotalCellOwned(key: string)
    requires key != "total_amount"
    ensures Coord('F', 27) !in FieldCellsOf(key)
  {
    assert FieldCellsOf("total_amount")[0] == Coord('F', 27);
    forall a | 0 <= a < |FieldCellsOf(key)| ensures FieldCellsOf(key)[a] != Coord('F', 27) {
      CellsAreDisjoint(key, "total_amount", a, 0);
    }
  }

  /** `load_template`'s sheet choice: the sheet titled "Invoice" if there is one, else the first. */
  function ChooseSheet(names: seq<string>): (r: Option<nat>)
    ensures r.None? <==> names == []
    ensures r.Some? ==> r.value < |names|
    ensures "Invoice" in names ==> r.Some? && names[r.value] == "Invoice" && "Invoice" !in names[..r.value]
    ensures "Invoice" !in names && names != [] ==> r == Some(0)
  {
    if "Invoice" in names then Some(FirstIndex(names, "Invoice"))
    else if names == [] then None
    else Some(0)
  }

  function Titles(book: Workbook): (r: seq<string>)
    ensures |r| == |book| && forall k :: 0 <= k < |book| ==> r[k] == book[k].0
  {
    seq(|book|, k requires 0 <= k < |book| => book[k].0)
  }

  /** The backslash-newline pair the default filename replaces. */
  const BACKSLASH_NEWLINE: string := ['\\', '\n']

  /**
   * The name `save_invoice` picks when none is given: the invoice-number
   * value, trimmed, with `/` turned into `-` and each backslash-newline pair
   * into `_`; when that value is empty, a timestamped name.
   */
  function DefaultFilename(inv: Value, timestamp: string): (r: string)
  {
    if Truthy(inv) then Replace(ReplaceChar(Strip(PyStr(inv)), '/', '-'), BACKSLASH_NEWLINE, "_") + ".xlsx"
    else "Invoice_" + timestamp + ".xlsx"
  }

  /** `Replace` keeps out any character that is in neither the subject nor the replacement. */
  lemma {:induction false} ReplaceKeepsOut(s: string, pat: string, rep: string, c: char)
    requires pat != [] && c !in s && c !in rep
    ensures c !in Replace(s, pat, rep)
    decreases |s|
  {
    if |s| >= |pat| {
      if s[..|pat|] == pat {
        ReplaceKeepsOut(s[|pat|..], pat, rep, c);
      } else {
        ReplaceKeepsOut(s[1..], pat, rep, c);
      }
    }
  }

  /**
   * The default filename ends in `.xlsx`; a non-empty invoice number gives a
   * name without `/`, which is the trimmed number with `/` turned into `-`
   * when it holds no backslash-newline pair; an empty one gives the
   * timestamped name.
   */
  lemma DefaultFilenameShape(inv: Value, timestamp: string)
    ensures var r := DefaultFilename(inv, timestamp);
      && |r| >= 5 && r[|r| - 5..] == ".xlsx"
      && (Truthy(inv) ==> '/' !in r[..|r| - 5])
      && (Truthy(inv) && !Contains(Strip(PyStr(inv)), BACKSLASH_NEWLINE) ==>
            r == ReplaceChar(Strip(PyStr(inv)), '/', '-') + ".xlsx")
      && (!Truthy(inv) ==> r == "Invoice_" + timestamp + ".xlsx")
  {
    if Truthy(inv) {
      var t := Strip(PyStr(inv));
      StemNoSlash(t);
      WithExtension(Replace(ReplaceChar(t, '/', '-'), BACKSLASH_NEWLINE, "_"));
      if !Contains(t, BACKSLASH_NEWLINE) {
        SlashSwapKeepsAbsent(t);
        ReplaceAbsent(ReplaceChar(t, '/', '-'), BACKSLASH_NEWLINE, "_");
      }
    } else {
      WithExtension("Invoice_" + timestamp);
    }
  }

  /** The stem of a default filename holds no `/`. */
  lemma StemNoSlash(t: string)
    ensures '/' !in Replace(ReplaceChar(t, '/', '-'), BACKSLASH_NEWLINE, "_")
  {
    var u := ReplaceChar(t, '/', '-');
    assert '/' !in u by {
      forall k | 0 <= k < |u| ensures u[k] != '/' { }
    }
    ReplaceKeepsOut(u, BACKSLASH_NEWLINE, "_", '/');
  }

  /** A stem with `.xlsx` appended ends in `.xlsx` and starts with the stem. */
  lemma WithExtension(stem: string)
    ensures var r := stem + ".xlsx"; |r| >= 5 && r[|r| - 5..] == ".xlsx" && r[..|r| - 5] == stem
  {
  }

  /** Turning `/` into `-` creates no backslash-newline pair. */
  lemma SlashSwapKeepsAbsent(t: string)
    requires !Contains(t, BACKSLASH_NEWLINE)
    ensures !Contains(ReplaceChar(t, '/', '-'), BACKSLASH_NEWLINE)
  {
    var u := ReplaceChar(t, '/', '-');
    forall i | 0 <= i <= |u| ensures !OccursAt(u, BACKSLASH_NEWLINE, i) {
      PairAt(t, i);
      PairAt(u, i);
    }
  }

  /** The two-character pattern occurs at `i` exactly when its two characters are there. */
  lemma PairAt(s: string, i: nat)
    ensures OccursAt(s, BACKSLASH_NEWLINE, i) <==> i + 2 <= |s| && s[i] == '\\' && s[i + 1] == '\n'
  {
    if i + 2 <= |s| {
      assert s[i..i + 2] == [s[i], s[i + 1]];
    }
  }

  /** `os.path.join(OUTPUT_FOLDER, name)`: an absolute name replaces the folder. */
  function OutputPath(name: string): (r: string)
    ensures name != [] && name[0] == '/' ==> r == name
    ensures !(name != [] && name[0] == '/') ==> r == OUTPUT_FOLDER + name && r[|OUTPUT_FOLDER|..] == name
  {
    if name != [] && name[0] == '/' then name else OUTPUT_FOLDER + name
  }

  class ExcelHandler {
    var templatePath: string
    /** The sheet the handler works on, once a template is loaded. */
    var worksheet: Option<Sheet>

    constructor (path: string)
      ensures templatePath == path && worksheet == None
    {
      templatePath := path;
      worksheet := None;
    }

    /**
     * `load_template`, given the template file (absent when it does not
     * exist): selects the "Invoice" sheet, or else the first one.
     */
    method LoadTemplate(file: Option<Workbook>) returns (r: Result<bool, HandlerError>)
      modifies this`worksheet
      ensures file.None? ==> r == Err(TemplateNotFound) && worksheet == old(worksheet)
      ensures file.Some? && file.value == [] ==> r == Err(NoSheets) && worksheet == old(worksheet)
      ensures file.Some? && file.value != [] ==>
        r == Ok(true) && worksheet == Some(file.value[ChooseSheet(Titles(file.value)).value].1)
    {
      if file.None? {
        return Err(TemplateNotFound);
      }
      var book := file.value;
      var choice := ChooseSheet(Titles(book));
      if choice.None? {
        return Err(NoSheets);
      }
      worksheet := Some(book[choice.value].1);
      r := Ok(true);
    }

    /** `get_cell_value`. */
    method GetCellValue(ref: CellRef) returns (r: Result<Value, HandlerError>)
      ensures worksheet.None? ==> r == Err(NotLoaded)
      ensures worksheet.Some? ==> r == Ok(ReadField(worksheet.value, ref))
    {
      if worksheet.None? {
        return Err(NotLoaded);
      }
      var sheet := worksheet.value;
      match ref {
        case Single(c) =>
          r := Ok(Get(sheet, c));
        case Multi(cs) =>
          var texts := [];
          var i := 0;
          while i < |cs|
            invariant 0 <= i <= |cs|
            invariant texts == CellTexts(sheet, cs[..i])
          {
            assert cs[..i + 1][..i] == cs[..i];
            texts := texts + [CellText(Get(sheet, cs[i]))];
            i := i + 1;
          }
          assert cs[..i] == cs;
          r := Ok(Str(Strip(Join(texts, '\n'))));
      }
    }

    /** `set_cell_value`. */
    method SetCellValue(ref: CellRef, d: Datum) returns (r: Result<bool, HandlerError>)
      modifies this`worksheet
      ensures old(worksheet).None? ==> r == Err(NotLoaded) && worksheet == old(worksheet)
      ensures old(worksheet).Some? ==> var w := WriteField(old(worksheet).value, ref, d);
        worksheet == Some(w.sheet) && r == if w.ok then Ok(true) else Err(CannotStore)
    {
      if worksheet.None? {
        return Err(NotLoaded);
      }
      var sheet := worksheet.value;
      match ref {
        case Single(c) =>
          if d.Items? {
            return Err(CannotStore);
          }
          var v := Stored(d.value);
          if v.None? {
            return Err(CannotStore);
          }
          worksheet := Some(sheet[c := v.value]);
        case Multi(cs) =>
          var w := PlaceCells(sheet, cs, WriteParts(d));
          worksheet := Some(w.sheet);
          if !w.ok {
            return Err(CannotStore);
          }
      }
      r := Ok(true);
    }

    /** `update_invoice`: writes each writable entry in order, stopping at the first failure. */
    method UpdateInvoice(entries: seq<(string, Datum)>) returns (r: Result<bool, HandlerError>)
      modifies this`worksheet
      ensures old(worksheet).None? ==> worksheet == old(worksheet) && (r.Err? <==> exists k :: 0 <= k < |entries| && Writable(entries[k].0))
      ensures old(worksheet).Some? ==> var w := Update(old(worksheet).value, entries);
        worksheet == Some(w.sheet) && (r.Ok? <==> w.ok)
    {
      var i := 0;
      while i < |entries|
        invariant 0 <= i <= |entries|
        invariant old(worksheet).None? ==> worksheet == old(worksheet) && forall k :: 0 <= k < i ==> !Writable(entries[k].0)
        invariant old(worksheet).Some? ==>
          worksheet == Some(Update(old(worksheet).value, entries[..i]).sheet) && Update(old(worksheet).value, entries[..i]).ok
      {
        assert entries[..i + 1][..i] == entries[..i];
        var (key, d) := entries[i];
        if Writable(key) {
          var res := SetCellValue(Lookup(key).value.cell, d);
          if res.Err? {
            r := Err(res.error);
            if old(worksheet).Some? {
              assert Update(old(worksheet).value, entries[..i + 1]) ==
                UpdateStep(Update(old(worksheet).value, entries[..i]), entries[i]);
              UpdateStopped(old(worksheet).value, entries, i + 1);
            }
            return;
          }
        }
        i := i + 1;
      }
      assert entries[..i] == entries;
      r := Ok(true);
    }

    /**
     * `get_all_template_values`: every configured field read from its cells;
     * without a loaded sheet every read fails and each field reads as `''`.
     */
    method GetAllTemplateValues() returns (values: map<string, Value>)
      ensures values.Keys == set k | k in FIELD_KEYS
      ensures forall k :: k in values ==>
        Lookup(k).Some? && values[k] == (if worksheet.None? then Str("") else ReadField(worksheet.value, Lookup(k).value.cell))
    {
      values := map[];
      var i := 0;
      while i < |FIELD_KEYS|
        invariant 0 <= i <= |FIELD_KEYS|
        invariant forall k :: k in values <==> k in FIELD_KEYS[..i]
        invariant forall k :: k in values ==>
          Lookup(k).Some? && values[k] == (if worksheet.None? then Str("") else ReadField(worksheet.value, Lookup(k).value.cell))
      {
        var key := FIELD_KEYS[i];
        FieldKeysExact(key);
        var v := GetCellValue(Lookup(key).value.cell);
        values := values[key := if v.Ok? then v.value else Str("")];
        assert FIELD_KEYS[..i + 1] == FIELD_KEYS[..i] + [key];
        i := i + 1;
      }
      assert FIELD_KEYS[..i] == FIELD_KEYS;
    }

    /**
     * `save_invoice`: the path the workbook is written to. Without a name,
     * the name comes from the invoice-number cell (the timestamped one when
     * the cell is empty or cannot be read).
     */
    method SaveInvoice(name: Option<string>, timestamp: string) returns (r: Result<string, HandlerError>)
      ensures worksheet.None? ==> r == Err(NotLoaded)
      ensures worksheet.Some? ==> r == Ok(OutputPath(
        if name.Some? then name.value else DefaultFilename(Get(worksheet.value, Coord('F', 11)), timestamp)))
    {
      var filename: string;
      if name.Some? {
        filename := name.value;
      } else {
        var inv := GetCellValue(Lookup("invoice_no").value.cell);
        filename := DefaultFilename(if inv.Ok? then inv.value else Null, timestamp);
      }
      if worksheet.None? {
        return Err(NotLoaded);
      }
      r := Ok(OutputPath(filename));
    }
  }

  /** A run that failed at entry `n - 1` ends there: later entries are never applied. */
  lemma {:induction false} UpdateStopped(sheet: Sheet, entries: seq<(string, Datum)>, n: nat)
    requires 1 <= n <= |entries|
    requires Update(sheet, entries[..n - 1]).ok && !Update(sheet, entries[..n]).ok
    ensures Update(sheet, entries) == Update(sheet, entries[..n])
    decreases |entries| - n
  {
    assert entries[..n][..n - 1] == entries[..n - 1];
    if n < |entries| {
      assert entries[..|entries| - 1][..n] == entries[..n];
      assert entries[..|entries| - 1][..n - 1] == entries[..n - 1];
      UpdateStopped(sheet, entries[..|entries| - 1], n);
    }
  }
}
