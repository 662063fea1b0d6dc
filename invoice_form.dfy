/**
 * The logic of the invoice form that is not widget plumbing: filling the
 * form from an uploaded order (a CSV/Excel table or a parsed PDF), the
 * invoice-number prefix, the VAT choice and its cell text, and the name the
 * invoice is saved under.
 */
module InvoiceForm {
  import opened Wrappers
  import opened Text
  import opened Config
  import opened BoPdfParser

  // ---------------------------------------------------------------------
  // Filling the form from a CSV or Excel order
  // ---------------------------------------------------------------------

  /** Form fields, each with the column names that may carry it, most preferred first. */
  type Mapping = seq<(string, seq<string>)>

  /** The mapping the order upload uses. */
  const BO_MAPPING: Mapping := [
    ("client_name", ["Client Name", "client", "customer", "company"]),
    ("client_address", ["Address", "client_address", "address"]),
    ("client_trn", ["TRN", "trn", "tax_id", "vat"]),
    ("bo_no", ["BO Number", "bo_no", "order_no", "order_number", "po_no"]),
    ("description", ["Description", "item", "product", "details"]),
    ("quantity", ["Quantity", "qty", "units", "volume"]),
    ("rate", ["Rate", "unit_price", "price", "unit_cost", "amount"]),
    ("delivery_month", ["Delivery Month", "delivery", "month"])
  ]

  /** No form field is listed twice. */
  predicate FieldsDistinct(mapping: Mapping) {
    forall i, j :: 0 <= i < j < |mapping| ==> mapping[i].0 != mapping[j].0
  }

  /** The mapping has eight distinct fields. */
  lemma MappingFieldsDistinct()
    ensures |BO_MAPPING| == 8 && FieldsDistinct(BO_MAPPING)
  {
  }

  /** The position of the first candidate that is a column of the table, if any. */
  function FirstPresent(candidates: seq<string>, columns: seq<string>): (r: Option<nat>)
    ensures r.Some? ==> r.value < |candidates| && candidates[r.value] in columns
    ensures r.Some? ==> forall j :: 0 <= j < r.value ==> candidates[j] !in columns
    ensures r.None? <==> forall j :: 0 <= j < |candidates| ==> candidates[j] !in columns
  {
    if candidates == [] then None
    else if candidates[0] in columns then Some(0)
    else
      match FirstPresent(candidates[1..], columns)
      case None => None
      case Some(k) => Some(k + 1)
  }

  /** The first candidate found by a scan from the front is the one `FirstPresent` names. */
  lemma FirstPresentAt(candidates: seq<string>, columns: seq<string>, j: nat)
    requires j < |candidates| && candidates[j] in columns
    requires forall k :: 0 <= k < j ==> candidates[k] !in columns
    ensures FirstPresent(candidates, columns) == Some(j)
  {
    var f := FirstPresent(candidates, columns);
    assert !(f.value < j) && !(j < f.value);
  }

  /** A table row holds a value for every column. */
  predicate RowCovers<V>(columns: seq<string>, row: map<string, V>) {
    forall c :: c in columns ==> c in row
  }

  /** The values the first `n` fields of the mapping take from a table's first row. */
  function MappedPrefix<V>(mapping: Mapping, columns: seq<string>, row: map<string, V>, n: nat): map<string, V>
    requires RowCovers(columns, row) && n <= |mapping|
  {
    if n == 0 then map[]
    else
      var m := MappedPrefix(mapping, columns, row, n - 1);
      var candidates := mapping[n - 1].1;
      match FirstPresent(candidates, columns)
      case None => m
      case Some(k) => m[mapping[n - 1].0 := row[candidates[k]]]
  }

  function Mapped<V>(mapping: Mapping, columns: seq<string>, row: map<string, V>): map<string, V>
    requires RowCovers(columns, row)
  {
    MappedPrefix(mapping, columns, row, |mapping|)
  }

  /** No field of the mapping has a column in the table. */
  predicate NothingMatches(mapping: Mapping, columns: seq<string>) {
    forall i :: 0 <= i < |mapping| ==> FirstPresent(mapping[i].1, columns).None?
  }

  /** Why reading an order table fails: a column matched but the table has no rows. */
  datatype MappingError = NoRows

  /**
   * A field is filled exactly when one of its column names is a column of
   * the table; it then takes the first row's value in the first such
   * column, in the order the mapping lists them; no other key is filled.
   */
  lemma {:induction false} MappedPrefixMeaning<V>(mapping: Mapping, columns: seq<string>, row: map<string, V>, n: nat)
    requires FieldsDistinct(mapping) && RowCovers(columns, row) && n <= |mapping|
    ensures forall i :: 0 <= i < n ==>
      var f := FirstPresent(mapping[i].1, columns);
      (mapping[i].0 in MappedPrefix(mapping, columns, row, n) <==> f.Some?) &&
      (f.Some? ==> MappedPrefix(mapping, columns, row, n)[mapping[i].0] == row[mapping[i].1[f.value]])
    ensures forall key :: key in MappedPrefix(mapping, columns, row, n) ==> exists i :: 0 <= i < n && mapping[i].0 == key
  {
    if n > 0 {
      MappedPrefixMeaning(mapping, columns, row, n - 1);
    }
  }

  /** What the order upload fills in, field by field. */
  lemma MappedMeaning<V>(columns: seq<string>, row: map<string, V>)
    requires RowCovers(columns, row)
    ensures forall i :: 0 <= i < |BO_MAPPING| ==>
      var f := FirstPresent(BO_MAPPING[i].1, columns);
      (BO_MAPPING[i].0 in Mapped(BO_MAPPING, columns, row) <==> f.Some?) &&
      (f.Some? ==> Mapped(BO_MAPPING, columns, row)[BO_MAPPING[i].0] == row[BO_MAPPING[i].1[f.value]])
    ensures forall key :: key in Mapped(BO_MAPPING, columns, row) ==>
      exists i :: 0 <= i < |BO_MAPPING| && BO_MAPPING[i].0 == key
  {
    MappingFieldsDistinct();
    MappedPrefixMeaning(BO_MAPPING, columns, row, |BO_MAPPING|);
  }

  /**
   * The column mapping of an uploaded table: each field in turn takes the
   * first row's value in its first present column, and is marked as filled
   * from the order. A table without rows fails at the first matching column,
   * before anything is marked; a table that matches nothing yields nothing.
   */
  method MapColumns<V>(mapping: Mapping, columns: seq<string>, firstRow: Option<map<string, V>>)
    returns (r: Result<map<string, V>, MappingError>, populated: set<string>)
    requires firstRow.Some? ==> RowCovers(columns, firstRow.value)
    ensures firstRow.Some? ==> r == Ok(Mapped(mapping, columns, firstRow.value)) && populated == r.value.Keys
    ensures firstRow.None? && NothingMatches(mapping, columns) ==> r == Ok(map[]) && populated == {}
    ensures firstRow.None? && !NothingMatches(mapping, columns) ==> r == Err(NoRows) && populated == {}
  {
    var values: map<string, V> := map[];
    populated := {};
    var i := 0;
    while i < |mapping|
      invariant 0 <= i <= |mapping|
      invariant firstRow.Some? ==> values == MappedPrefix(mapping, columns, firstRow.value, i) && populated == values.Keys
      invariant firstRow.None? ==> values == map[] && populated == {}
      invariant firstRow.None? ==> forall k :: 0 <= k < i ==> FirstPresent(mapping[k].1, columns).None?
    {
      var field, candidates := mapping[i].0, mapping[i].1;
      var found := FindColumn(candidates, columns);
      if found.Some? {
        if firstRow.None? {
          return Err(NoRows), {};
        }
        values := values[field := firstRow.value[candidates[found.value]]];
        populated := populated + {field};
      }
      i := i + 1;
    }
    r := Ok(values);
  }

  /** The scan over one field's column names that stops at the first column of the table. */
  method FindColumn(candidates: seq<string>, columns: seq<string>) returns (found: Option<nat>)
    ensures found == FirstPresent(candidates, columns)
  {
    var j := 0;
    while j < |candidates| && candidates[j] !in columns
      invariant 0 <= j <= |candidates|
      invariant forall k :: 0 <= k < j ==> candidates[k] !in columns
    {
      j := j + 1;
    }
    if j < |candidates| {
      FirstPresentAt(candidates, columns, j);
      found := Some(j);
    } else {
      found := None;
    }
  }

  // ---------------------------------------------------------------------
  // Filling the form from a parsed PDF order
  // ---------------------------------------------------------------------

  /** A value the form is pre-filled with. */
  datatype FormValue = Text(s: string) | Number(x: real)

  /** Python truthiness of an optional extracted string. */
  predicate Present(v: Option<string>) {
    v.Some? && v.value != []
  }

  /**
   * The pre-fill from a parsed PDF: the order number, client name and TRN
   * when found; when descriptions were found, the line items and, from the
   * first of them, its description (when non-empty), quantity and rate (when
   * present). Every filled field is marked as filled from the order. The
   * line items are replaced only when there are descriptions.
   */
  method PdfPrefill(data: BoData) returns (values: map<string, FormValue>, items: Option<seq<LineItem>>, populated: set<string>)
    ensures populated == values.Keys
    ensures values.Keys <= {"bo_no", "client_name", "client_trn", "description", "quantity", "rate"}
    ensures ("bo_no" in values <==> Present(data.boNo)) && ("bo_no" in values ==> values["bo_no"] == Text(data.boNo.value))
    ensures ("client_name" in values <==> Present(data.clientName))
      && ("client_name" in values ==> values["client_name"] == Text(data.clientName.value))
    ensures ("client_trn" in values <==> Present(data.clientTrn))
      && ("client_trn" in values ==> values["client_trn"] == Text(data.clientTrn.value))
    ensures items.Some? <==> data.descriptions != []
    ensures items.Some? ==> |items.value| == Max3(|data.descriptions|, |data.quantities|, |data.rates|)
    ensures items.Some? ==> forall i :: 0 <= i < |items.value| ==>
      items.value[i] == LineItem(
        if i < |data.descriptions| then data.descriptions[i] else "",
        if i < |data.quantities| then Some(data.quantities[i]) else None,
        if i < |data.rates| then Some(data.rates[i]) else None)
    ensures ("description" in values <==> data.descriptions != [] && data.descriptions[0] != [])
      && ("description" in values ==> values["description"] == Text(data.descriptions[0]))
    ensures ("quantity" in values <==> data.descriptions != [] && data.quantities != [])
      && ("quantity" in values ==> values["quantity"] == Number(data.quantities[0]))
    ensures ("rate" in values <==> data.descriptions != [] && data.rates != [])
      && ("rate" in values ==> values["rate"] == Number(data.rates[0]))
  {
    values := HeaderPrefill(data);
    items := None;
    if data.descriptions != [] {
      var lineItems := PairLineItems(data.descriptions, data.quantities, data.rates);
      items := Some(lineItems);
      if lineItems != [] {
        var first := lineItems[0];
        if first.description != [] {
          values := values["description" := Text(first.description)];
        }
        if first.quantity.Some? {
          values := values["quantity" := Number(first.quantity.value)];
        }
        if first.rate.Some? {
          values := values["rate" := Number(first.rate.value)];
        }
      }
    }
    populated := values.Keys;
  }

  /** The first half of the pre-fill: the order number, client name and TRN, each when found. */
  method HeaderPrefill(data: BoData) returns (values: map<string, FormValue>)
    ensures values.Keys <= {"bo_no", "client_name", "client_trn"}
    ensures ("bo_no" in values <==> Present(data.boNo)) && ("bo_no" in values ==> values["bo_no"] == Text(data.boNo.value))
    ensures ("client_name" in values <==> Present(data.clientName))
      && ("client_name" in values ==> values["client_name"] == Text(data.clientName.value))
    ensures ("client_trn" in values <==> Present(data.clientTrn))
      && ("client_trn" in values ==> values["client_trn"] == Text(data.clientTrn.value))
  {
    values := map[];
    if Present(data.boNo) {
      values := values["bo_no" := Text(data.boNo.value)];
    }
    if Present(data.clientName) {
      values := values["client_name" := Text(data.clientName.value)];
    }
    if Present(data.clientTrn) {
      values := values["client_trn" := Text(data.clientTrn.value)];
    }
  }

  // ---------------------------------------------------------------------
  // The invoice number
  // ---------------------------------------------------------------------

  const INVOICE_PREFIX: string := "INV-FY2526-"

  /** The stored invoice number: the prefix and the entered number, or nothing for a blank entry. */
  function InvoiceNumber(entered: string): (r: string)
    ensures r == [] <==> AllSpace(entered)
    ensures r != [] ==>
      |r| == |INVOICE_PREFIX| + |entered| && r[..|INVOICE_PREFIX|] == INVOICE_PREFIX && r[|INVOICE_PREFIX|..] == entered
  {
    if Strip(entered) != [] then INVOICE_PREFIX + entered else ""
  }

  /**
   * The form shows a stored number without its prefix: deleting the prefix
   * gives back the entered number, unless that number itself holds the prefix.
   */
  lemma InvoiceNumberPlaceholder(entered: string)
    requires !AllSpace(entered) && !Contains(entered, INVOICE_PREFIX)
    ensures Replace(InvoiceNumber(entered), INVOICE_PREFIX, "") == entered
  {
    ReplaceLeading(INVOICE_PREFIX, entered, "");
    ReplaceAbsent(entered, INVOICE_PREFIX, "");
  }

  // ---------------------------------------------------------------------
  // VAT
  // ---------------------------------------------------------------------

  /** The two choices the VAT selector offers. */
  const VAT_OPTIONS: seq<string> := ["non-GCC (0%)", "GCC (5%)"]

  /** The VAT percentage of a choice: none outside the GCC, five within it. */
  function VatPercent(option: string): (p: int)
    ensures p == 0 <==> Contains(option, "non-GCC")
    ensures p == 0 || p == 5
  {
    if Contains(option, "non-GCC") then 0 else 5
  }

  /** The two choices give 0 and 5, and every choice passes the `vat_rate` validation rule. */
  lemma VatChoices(option: string)
    ensures VatPercent(VAT_OPTIONS[0]) == 0 && VatPercent(VAT_OPTIONS[1]) == 5
    ensures Satisfies(VALIDATION_RULES["vat_rate"], VatPercent(option))
  {
    assert OccursAt(VAT_OPTIONS[0], "non-GCC", 0);
    forall i | 0 <= i <= |VAT_OPTIONS[1]| ensures !OccursAt(VAT_OPTIONS[1], "non-GCC", i) {
      if i + 7 <= 8 {
        assert VAT_OPTIONS[1][i..i + 7][0] != 'n';
      }
    }
    ValidationRuleShapes(VatPercent(option));
  }

  /** The text written to the VAT cell. */
  function VatCellText(p: int): (r: string)
    ensures |r| >= 7 && r[..4] == "VAT(" && r[|r| - 2..] == "%)"
  {
    "VAT(" + IntToString(p) + "%)"
  }

  /** The cell text says which choice was made: "VAT(0%)" or "VAT(5%)". */
  lemma VatCellChoice(option: string)
    ensures Contains(option, "non-GCC") ==> VatCellText(VatPercent(option)) == "VAT(0%)"
    ensures !Contains(option, "non-GCC") ==> VatCellText(VatPercent(option)) == "VAT(5%)"
  {
    assert IntToString(0) == "0" && IntToString(5) == "5";
  }

  /** Distinct integers are written differently. */
  lemma IntToStringInjective(p: int, q: int)
    requires IntToString(p) == IntToString(q)
    ensures p == q
  {
    if p >= 0 && q >= 0 {
      assert DigitsValue(NatToString(p)) == DigitsValue(NatToString(q));
    } else if p < 0 && q < 0 {
      assert NatToString(-p) == IntToString(p)[1..];
      assert NatToString(-q) == IntToString(q)[1..];
      assert DigitsValue(NatToString(-p)) == DigitsValue(NatToString(-q));
    } else {
      assert false;
    }
  }

  /** The cell text determines the percentage it was written from. */
  lemma VatCellReadsBack(p: int, q: int)
    requires VatCellText(p) == VatCellText(q)
    ensures p == q
  {
    var a, b := VatCellText(p), VatCellText(q);
    assert a[4..|a| - 2] == IntToString(p);
    assert b[4..|b| - 2] == IntToString(q);
    IntToStringInjective(p, q);
  }

  // ---------------------------------------------------------------------
  // The saved file's name
  // ---------------------------------------------------------------------

  /** How a character of the invoice number appears in the file name. */
  function SafeChar(c: char): char {
    if c == '/' then '-' else if c == '\n' then '_' else c
  }

  /**
   * The file name the form saves under: the trimmed invoice number (or
   * "Invoice" when there is none) with `/` turned into `-` and newlines
   * into `_`, then `.xlsx`.
   */
  function SaveFilename(invoiceNo: string): (r: string)
  {
    var name := if invoiceNo == [] then "Invoice" else invoiceNo;
    ReplaceChar(ReplaceChar(Strip(name), '/', '-'), '\n', '_') + ".xlsx"
  }

  /**
   * The name is the trimmed number character by character, with each `/`
   * and newline made safe, followed by `.xlsx`; it holds neither `/` nor a
   * newline.
   */
  lemma SaveFilenameShape(invoiceNo: string)
    ensures var t := Strip(if invoiceNo == [] then "Invoice" else invoiceNo);
      var r := SaveFilename(invoiceNo);
      |r| == |t| + 5 && r[|t|..] == ".xlsx" &&
      (forall k :: 0 <= k < |t| ==> r[k] == SafeChar(t[k])) &&
      '/' !in r && '\n' !in r
  {
    var t := Strip(if invoiceNo == [] then "Invoice" else invoiceNo);
    SafeStem(t);
    SafeExtension(ReplaceChar(ReplaceChar(t, '/', '-'), '\n', '_'));
  }

  /** Making the characters safe maps each one by `SafeChar` and leaves no `/` or newline. */
  lemma SafeStem(t: string)
    ensures var stem := ReplaceChar(ReplaceChar(t, '/', '-'), '\n', '_');
      |stem| == |t| && (forall k :: 0 <= k < |t| ==> stem[k] == SafeChar(t[k])) &&
      '/' !in stem && '\n' !in stem
  {
    var stem := ReplaceChar(ReplaceChar(t, '/', '-'), '\n', '_');
    assert forall k :: 0 <= k < |t| ==> stem[k] == SafeChar(t[k]);
  }

  /** Appending `.xlsx` adds no `/` or newline. */
  lemma SafeExtension(stem: string)
    requires '/' !in stem && '\n' !in stem
    ensures var r := stem + ".xlsx";
      |r| == |stem| + 5 && r[..|stem|] == stem && r[|stem|..] == ".xlsx" && '/' !in r && '\n' !in r
  {
    var r := stem + ".xlsx";
    forall k | 0 <= k < |r| ensures r[k] != '/' && r[k] != '\n' {
      if k >= |stem| {
        assert r[k] == ".xlsx"[k - |stem|];
      }
    }
  }

  /** Trimming a text that starts with a non-blank prefix keeps the prefix, when the rest is not blank. */
  lemma StripKeepsPrefix(p: string, e: string)
    requires p != [] && !IsSpace(p[0]) && !AllSpace(e)
    ensures |Strip(p + e)| >= |p| && Strip(p + e)[..|p|] == p
  {
    var s := p + e;
    assert LeadingSpace(s) == 0 by { assert s[0] == p[0]; }
    var j := TrailingSpace(s);
    if j > |e| {
      forall k | 0 <= k < |e| ensures IsSpace(e[k]) {
        assert e[k] == s[|p| + k] == s[|s| - j..][|p| + k - (|s| - j)];
      }
      assert false;
    }
    assert s[0..] == s;
    assert Strip(s) == s[..|s| - j];
  }

  /** A blank entry is saved as "Invoice.xlsx". */
  lemma BlankInvoiceFilename(entered: string)
    requires AllSpace(entered)
    ensures SaveFilename(InvoiceNumber(entered)) == "Invoice.xlsx"
  {
    assert InvoiceNumber(entered) == [];
    DefaultStem();
    ReplaceCharAbsent("Invoice", '/', '-');
    ReplaceCharAbsent("Invoice", '\n', '_');
  }

  lemma DefaultStem()
    ensures Strip("Invoice") == "Invoice" && '/' !in "Invoice" && '\n' !in "Invoice"
    ensures "Invoice" + ".xlsx" == "Invoice.xlsx"
  {
    StripTrimmed("Invoice");
  }

  /** Any other entry is saved under a name that starts with the invoice prefix. */
  lemma PrefixedInvoiceFilename(entered: string)
    requires !AllSpace(entered)
    ensures var r := SaveFilename(InvoiceNumber(entered));
      |r| >= |INVOICE_PREFIX| && r[..|INVOICE_PREFIX|] == INVOICE_PREFIX
  {
    var n := InvoiceNumber(entered);
    assert n == INVOICE_PREFIX + entered && n != [];
    StripKeepsPrefix(INVOICE_PREFIX, entered);
    SaveFilenameShape(n);
    PrefixIsSafe();
    SafePrefixKept(INVOICE_PREFIX, Strip(n), SaveFilename(n));
  }

  /** Replacing characters one by one keeps a prefix that has none to replace. */
  lemma SafePrefixKept(p: string, t: string, r: string)
    requires |p| <= |t| <= |r| && t[..|p|] == p
    requires forall k :: 0 <= k < |p| ==> SafeChar(p[k]) == p[k]
    requires forall k :: 0 <= k < |t| ==> r[k] == SafeChar(t[k])
    ensures r[..|p|] == p
  {
    forall k | 0 <= k < |p| ensures r[k] == p[k] {
      assert t[k] == p[k];
    }
  }

  /** The invoice prefix has nothing the file name replaces. */
  lemma PrefixIsSafe()
    ensures forall k :: 0 <= k < |INVOICE_PREFIX| ==> SafeChar(INVOICE_PREFIX[k]) == INVOICE_PREFIX[k]
  {
  }
}
