/**
 * The static configuration of the invoice template: which worksheet cells
 * each invoice field occupies, and the numeric validation rules.
 */
module Config {
  import opened Wrappers

  /** An A1-style cell reference: column letter and row number (`F11`). */
  datatype Coord = Coord(column: char, row: nat)

  /** A field lives in one cell, or in an ordered list of cells (one line each). */
  datatype CellRef = Single(cell: Coord) | Multi(cells: seq<Coord>)

  datatype FieldKind = StringField | DateField | NumericField

  datatype Field = Field(title: string, sheet: string, cell: CellRef, kind: FieldKind, readOnly: bool)

  /** The cells a field reference names, in order. */
  function Cells(ref: CellRef): seq<Coord>
  {
    match ref
    case Single(c) => [c]
    case Multi(cs) => cs
  }

  /** The keys of the invoice field table, in declaration order. */
  const FIELD_KEYS: seq<string> := [
    "invoice_no", "client_name", "client_address", "client_trn", "date", "due_date", "bo_no",
    "delivery_month", "quantity", "rate", "budget", "vat_rate", "vat_amount", "total_amount"
  ]

  /** `INVOICE_FIELDS.get(key)`: the invoice field table. */
  function Lookup(key: string): Option<Field>
  {
    if key == "invoice_no" then Some(Field("Invoice No.", "Invoice", Single(Coord('F', 11)), StringField, false))
    else if key == "client_name" then Some(Field("Client Name", "Invoice", Single(Coord('C', 12)), StringField, false))
    else if key == "client_address" then Some(Field("Client Address", "Invoice", Multi([Coord('C', 13), Coord('C', 14), Coord('C', 15)]), StringField, false))
    else if key == "client_trn" then Some(Field("Client TRN No.", "Invoice", Single(Coord('C', 16)), StringField, false))
    else if key == "date" then Some(Field("Date", "Invoice", Single(Coord('F', 12)), DateField, false))
    else if key == "due_date" then Some(Field("Due Date", "Invoice", Single(Coord('F', 13)), DateField, false))
    else if key == "bo_no" then Some(Field("BO No.", "Invoice", Single(Coord('F', 15)), StringField, false))
    else if key == "delivery_month" then Some(Field("Delivery Month", "Invoice", Single(Coord('F', 16)), StringField, false))
    else if key == "quantity" then Some(Field("Quantity", "Invoice", Single(Coord('D', 21)), NumericField, false))
    else if key == "rate" then Some(Field("Rate", "Invoice", Single(Coord('E', 21)), NumericField, false))
    else if key == "budget" then Some(Field("Budget", "Invoice", Multi([Coord('F', 21), Coord('F', 25)]), NumericField, false))
    else if key == "vat_rate" then Some(Field("VAT Rate (%)", "Invoice", Single(Coord('E', 26)), NumericField, false))
    else if key == "vat_amount" then Some(Field("VAT Amount", "Invoice", Single(Coord('F', 26)), NumericField, false))
    else if key == "total_amount" then Some(Field("Total Amount", "Invoice", Single(Coord('F', 27)), NumericField, true))
    else None
  }

  /** The cells of a configured field. */
  function FieldCellsOf(key: string): seq<Coord>
  {
    if Lookup(key).Some? then Cells(Lookup(key).value.cell) else []
  }

  /** The table has exactly the listed keys, each once. */
  lemma FieldKeysExact(key: string)
    ensures Lookup(key).Some? <==> key in FIELD_KEYS
    ensures forall i, j :: 0 <= i < j < |FIELD_KEYS| ==> FIELD_KEYS[i] != FIELD_KEYS[j]
  {
  }

  /** Every field maps to at least one cell; the two multi-cell fields list theirs in this order. */
  lemma FieldCells(key: string)
    ensures Lookup(key).Some? ==> |Cells(Lookup(key).value.cell)| >= 1
    ensures Lookup(key).Some? && Lookup(key).value.cell.Multi? <==> key == "client_address" || key == "budget"
    ensures Lookup("client_address").Some? && Lookup("client_address").value.cell == Multi([Coord('C', 13), Coord('C', 14), Coord('C', 15)])
    ensures Lookup("budget").Some? && Lookup("budget").value.cell == Multi([Coord('F', 21), Coord('F', 25)])
  {
  }

  /** `total_amount` is the only read-only field. */
  lemma OnlyTotalReadOnly(key: string)
    ensures (Lookup(key).Some? && Lookup(key).value.readOnly) <==> key == "total_amount"
  {
  }

  /** The inverse of the table: which field, and which of its cells, a cell reference is. */
  function Owner(cell: Coord): Option<(string, nat)>
  {
    if cell == Coord('F', 11) then Some(("invoice_no", 0))
    else if cell == Coord('C', 12) then Some(("client_name", 0))
    else if cell == Coord('C', 13) then Some(("client_address", 0))
    else if cell == Coord('C', 14) then Some(("client_address", 1))
    else if cell == Coord('C', 15) then Some(("client_address", 2))
    else if cell == Coord('C', 16) then Some(("client_trn", 0))
    else if cell == Coord('F', 12) then Some(("date", 0))
    else if cell == Coord('F', 13) then Some(("due_date", 0))
    else if cell == Coord('F', 15) then Some(("bo_no", 0))
    else if cell == Coord('F', 16) then Some(("delivery_month", 0))
    else if cell == Coord('D', 21) then Some(("quantity", 0))
    else if cell == Coord('E', 21) then Some(("rate", 0))
    else if cell == Coord('F', 21) then Some(("budget", 0))
    else if cell == Coord('F', 25) then Some(("budget", 1))
    else if cell == Coord('E', 26) then Some(("vat_rate", 0))
    else if cell == Coord('F', 26) then Some(("vat_amount", 0))
    else if cell == Coord('F', 27) then Some(("total_amount", 0))
    else None
  }

  /** Every configured cell has exactly one owner: the field and position that list it. */
  lemma OwnerInverts(key: string, a: nat)
    requires a < |FieldCellsOf(key)|
    ensures Owner(FieldCellsOf(key)[a]) == Some((key, a))
  {
    if key == "invoice_no" {
      assert FieldCellsOf(key) == [Coord('F', 11)];
    } else if key == "client_name" {
      assert FieldCellsOf(key) == [Coord('C', 12)];
    } else if key == "client_address" {
      assert FieldCellsOf(key) == [Coord('C', 13), Coord('C', 14), Coord('C', 15)];
    } else if key == "client_trn" {
      assert FieldCellsOf(key) == [Coord('C', 16)];
    } else if key == "date" {
      assert FieldCellsOf(key) == [Coord('F', 12)];
    } else if key == "due_date" {
      assert FieldCellsOf(key) == [Coord('F', 13)];
    } else if key == "bo_no" {
      assert FieldCellsOf(key) == [Coord('F', 15)];
    } else if key == "delivery_month" {
      assert FieldCellsOf(key) == [Coord('F', 16)];
    } else if key == "quantity" {
      assert FieldCellsOf(key) == [Coord('D', 21)];
    } else if key == "rate" {
      assert FieldCellsOf(key) == [Coord('E', 21)];
    } else if key == "budget" {
      assert FieldCellsOf(key) == [Coord('F', 21), Coord('F', 25)];
    } else if key == "vat_rate" {
      assert FieldCellsOf(key) == [Coord('E', 26)];
    } else if key == "vat_amount" {
      assert FieldCellsOf(key) == [Coord('F', 26)];
    } else if key == "total_amount" {
      assert FieldCellsOf(key) == [Coord('F', 27)];
    }
  }

  /** No cell reference is claimed by two fields, nor twice by one field. */
  lemma CellsAreDisjoint(k1: string, k2: string, a: nat, b: nat)
    requires a < |FieldCellsOf(k1)| && b < |FieldCellsOf(k2)|
    requires k1 != k2 || a != b
    ensures FieldCellsOf(k1)[a] != FieldCellsOf(k2)[b]
  {
    OwnerInverts(k1, a);
    OwnerInverts(k2, b);
  }

  /** The computed `total_in_words` value has no cell, so it is never written. */
  lemma NoTotalInWordsField()
    ensures Lookup("total_in_words") == None
  {
  }

  /** A validation rule: an inclusive lower bound with an optional upper bound, or a closed list. */
  datatype Rule = Range(min: int, max: Option<int>) | AllowedValues(values: seq<int>)

  const VALIDATION_RULES: map<string, Rule> := map[
    "quantity" := Range(0, None),
    "rate" := Range(0, None),
    "budget" := Range(0, None),
    "vat_rate" := AllowedValues([0, 5])
  ]

  /** Whether an integer value satisfies a rule. */
  predicate Satisfies(rule: Rule, v: int)
  {
    match rule
    case Range(lo, hi) => lo <= v && (hi.None? || v <= hi.value)
    case AllowedValues(vs) => v in vs
  }

  /** VAT is 0 or 5 and nothing else; the three amounts are non-negative and unbounded. */
  lemma ValidationRuleShapes(v: int)
    ensures Satisfies(VALIDATION_RULES["vat_rate"], v) <==> v == 0 || v == 5
    ensures Satisfies(VALIDATION_RULES["quantity"], v) <==> v >= 0
    ensures Satisfies(VALIDATION_RULES["rate"], v) <==> v >= 0
    ensures Satisfies(VALIDATION_RULES["budget"], v) <==> v >= 0
    ensures VALIDATION_RULES.Keys == {"quantity", "rate", "budget", "vat_rate"}
  {
  }
}
