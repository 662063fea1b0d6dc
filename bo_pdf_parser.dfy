/**
 * Extraction of invoice data from the text of a Business Order PDF.
 *
 * Every `re.search` of the parser is represented by the first capture of its
 * first match (or `None`), and every `re.findall` by its list of captures;
 * these arrive together in a `Scan`. The one pattern whose result is used
 * whole, the compact order number `(?:PD|PO|BO|Schedule)\d{2}\|?\d+\|?\d+`,
 * is matched here directly against the text. Everything the parser does with
 * the captures (trimming, cleaning, filtering, deduplicating, capping,
 * pairing) is modelled.
 */
module BoPdfParser {
  import opened Wrappers
  import opened Text
  import opened Seqs

  /** What the parser's regular expressions report for one text. */
  datatype Scan = Scan(
    // group(1) of the first match of each key-value order-number pattern, in pattern order
    orderCaptures: seq<Option<string>>,
    // group(1) of the first match of each client-name pattern, in pattern order
    clientCaptures: seq<Option<string>>,
    // group(1) of the first match of each TRN pattern, in pattern order
    trnCaptures: seq<Option<string>>,
    // all matches of the two description keyword patterns, the first pattern's first
    keywordMatches: seq<string>,
    // group(1) of the first match of the "Details" pattern
    detailsBlock: Option<string>,
    // captures of the labelled quantity pattern
    labelledQuantities: seq<string>,
    // captures of the bare-integer pattern, line by line
    lineNumbers: seq<string>,
    // captures of the labelled rate pattern
    labelledRates: seq<string>,
    // captures of the `$` pattern, then of the `USD` pattern
    currencyAmounts: seq<string>)

  /** `str.split('\n')` of the text, as the parser keeps it in `self.lines`. */
  function Lines(text: string): (r: seq<string>)
    ensures Join(r, '\n') == text
  {
    JoinSplit(text, '\n');
    Split(text, '\n')
  }

  // ---------------------------------------------------------------------
  // Order number
  // ---------------------------------------------------------------------

  /**
   * Case folding as `re.IGNORECASE` applies it to the letters of the order
   * keywords: ASCII upper case, and the long s (U+017F), which Python's
   * regular expressions also match against `s`.
   */
  function Lower(c: char): char {
    if 'A' <= c <= 'Z' then c - 'A' + 'a'
    else if c == '\U{017F}' then 's'
    else c
  }

  /** The lower-case word `w` occurs at position `i`, ignoring case. */
  predicate WordAt(t: string, i: nat, w: string) {
    i + |w| <= |t| && forall k :: 0 <= k < |w| ==> Lower(t[i + k]) == w[k]
  }

  /** The length of the run of digits starting at `i`. */
  function DigitRun(t: string, i: nat): (n: nat)
    requires i <= |t|
    ensures i + n <= |t|
    ensures forall k :: i <= k < i + n ==> IsDigit(t[k])
    ensures i + n == |t| || !IsDigit(t[i + n])
    decreases |t| - i
  {
    if i < |t| && IsDigit(t[i]) then 1 + DigitRun(t, i + 1) else 0
  }

  /** `s` splits after its first `j` characters into `\d+` and `\|?\d+`. */
  predicate GroupsSplit(s: string, j: nat) {
    1 <= j < |s| && (forall k :: 0 <= k < j ==> IsDigit(s[k])) &&
    ((forall k :: j <= k < |s| ==> IsDigit(s[k])) ||
     (s[j] == '|' && j + 1 < |s| && forall k :: j + 1 <= k < |s| ==> IsDigit(s[k])))
  }

  /** Membership of `s` in `\d+\|?\d+`. */
  predicate DigitGroups(s: string) {
    exists j :: 0 <= j < |s| && GroupsSplit(s, j)
  }

  /** Membership of `s` in `\d{2}\|?\d+\|?\d+`, what follows the keyword. */
  predicate CompactTail(s: string) {
    |s| >= 2 && IsDigit(s[0]) && IsDigit(s[1]) &&
    (DigitGroups(s[2..]) || (|s| > 2 && s[2] == '|' && DigitGroups(s[3..])))
  }

  /** Membership of `s` in `w\d{2}\|?\d+\|?\d+`, the word `w` matched ignoring case. */
  predicate Tagged(s: string, w: string) {
    |s| >= |w| && WordAt(s, 0, w) && CompactTail(s[|w|..])
  }

  /** Membership of `s` in the compact order-number pattern. */
  predicate CompactToken(s: string) {
    Tagged(s, "pd") || Tagged(s, "po") || Tagged(s, "bo") || Tagged(s, "schedule")
  }

  /** Where the alternation `(?:PD|PO|BO|Schedule)` ends when it matches at `i`. */
  function KeywordEnd(t: string, i: nat): (k: Option<nat>)
    ensures k.Some? ==> k.value <= |t|
  {
    if WordAt(t, i, "pd") || WordAt(t, i, "po") || WordAt(t, i, "bo") then Some(i + 2)
    else if WordAt(t, i, "schedule") then Some(i + 8)
    else None
  }

  /**
   * Where `\d+\|?\d+` ends when matched at `q` by a backtracking matcher: the
   * greedy first run followed by a pipe and a second run if there is one,
   * otherwise the first run split before its last digit.
   */
  function DigitGroupsEnd(t: string, q: nat): (e: Option<nat>)
    requires q <= |t|
    ensures e.Some? ==> q < e.value <= |t|
  {
    var n := DigitRun(t, q);
    if n == 0 then None
    else if q + n < |t| && t[q + n] == '|' && DigitRun(t, q + n + 1) > 0 then Some(q + n + 1 + DigitRun(t, q + n + 1))
    else if n >= 2 then Some(q + n)
    else None
  }

  /** Where `\d{2}\|?\d+\|?\d+` ends when matched at `k`. */
  function TailEnd(t: string, k: nat): (e: Option<nat>)
    requires k <= |t|
    ensures e.Some? ==> k < e.value <= |t|
  {
    if k + 2 <= |t| && IsDigit(t[k]) && IsDigit(t[k + 1]) then
      if k + 2 < |t| && t[k + 2] == '|' then DigitGroupsEnd(t, k + 3) else DigitGroupsEnd(t, k + 2)
    else None
  }

  /** Where the compact pattern ends when matched at `i`. */
  function CompactEnd(t: string, i: nat): (e: Option<nat>)
    ensures e.Some? ==> i < e.value <= |t|
  {
    match KeywordEnd(t, i)
    case None => None
    case Some(k) => TailEnd(t, k)
  }

  /** A digit run is at least as long as any stretch of digits it starts. */
  lemma {:induction false} DigitRunCovers(t: string, i: nat, m: nat)
    requires i + m <= |t| && forall k :: i <= k < i + m ==> IsDigit(t[k])
    ensures DigitRun(t, i) >= m
    decreases m
  {
    if m > 0 {
      DigitRunCovers(t, i + 1, m - 1);
    }
  }

  /** A member of `\d+\|?\d+` starts and ends with a digit. */
  lemma DigitGroupsEdges(s: string)
    ensures DigitGroups(s) ==> |s| >= 2 && IsDigit(s[0]) && IsDigit(s[|s| - 1])
  {
    if DigitGroups(s) {
      var j :| 0 <= j < |s| && GroupsSplit(s, j);
    }
  }

  /** What the matcher finds is in the language of `\d+\|?\d+`. */
  lemma DigitGroupsSound(t: string, q: nat)
    requires q <= |t| && DigitGroupsEnd(t, q).Some?
    ensures DigitGroups(t[q..DigitGroupsEnd(t, q).value])
  {
    var n := DigitRun(t, q);
    var e := DigitGroupsEnd(t, q).value;
    var s := t[q..e];
    assert forall k :: 0 <= k < |s| ==> s[k] == t[q + k];
    if q + n < |t| && t[q + n] == '|' && DigitRun(t, q + n + 1) > 0 {
      assert GroupsSplit(s, n);
    } else {
      assert GroupsSplit(s, n - 1);
    }
  }

  /** Whatever is in the language of `\d+\|?\d+` at `q`, the matcher finds a match there. */
  lemma DigitGroupsComplete(t: string, q: nat, e: nat)
    requires q <= e <= |t| && DigitGroups(t[q..e])
    ensures DigitGroupsEnd(t, q).Some?
  {
    var s := t[q..e];
    var j :| 0 <= j < |s| && GroupsSplit(s, j);
    forall k | q <= k < q + j ensures IsDigit(t[k]) {
      assert s[k - q] == t[k];
    }
    if forall k :: j <= k < |s| ==> IsDigit(s[k]) {
      forall k | q <= k < e ensures IsDigit(t[k]) {
        assert s[k - q] == t[k];
      }
      DigitRunCovers(t, q, e - q);
    } else {
      assert t[q + j] == s[j] == '|';
      DigitRunCovers(t, q, j);
      assert DigitRun(t, q) == j;
      assert t[q + j + 1] == s[j + 1];
      DigitRunCovers(t, q + j + 1, 1);
    }
  }

  /** A match of `\d{2}\|?\d+\|?\d+` is in its language. */
  lemma TailSound(t: string, k: nat)
    requires k <= |t| && TailEnd(t, k).Some?
    ensures CompactTail(t[k..TailEnd(t, k).value])
  {
    var e := TailEnd(t, k).value;
    var s := t[k..e];
    assert s[0] == t[k] && s[1] == t[k + 1];
    if k + 2 < |t| && t[k + 2] == '|' {
      DigitGroupsSound(t, k + 3);
      assert s[2] == '|';
      assert s[3..] == t[k + 3..e];
    } else {
      DigitGroupsSound(t, k + 2);
      assert s[2..] == t[k + 2..e];
    }
  }

  /** Whatever is in the language of `\d{2}\|?\d+\|?\d+` at `k`, the matcher finds a match there. */
  lemma TailComplete(t: string, k: nat, e: nat)
    requires k <= e <= |t| && CompactTail(t[k..e])
    ensures TailEnd(t, k).Some?
  {
    var s := t[k..e];
    assert s[0] == t[k] && s[1] == t[k + 1];
    if k + 2 < e && t[k + 2] == '|' {
      assert s[2] == '|';
      DigitGroupsEdges(s[2..]);
      assert s[3..] == t[k + 3..e];
      DigitGroupsComplete(t, k + 3, e);
    } else {
      assert s[2..] == t[k + 2..e];
      DigitGroupsComplete(t, k + 2, e);
    }
  }

  /** The keyword at `i` and the tail after it make a tagged token of `t[i..e]`. */
  lemma TaggedFrom(t: string, i: nat, e: nat, w: string)
    requires i + |w| <= e <= |t| && WordAt(t, i, w) && CompactTail(t[i + |w|..e])
    ensures Tagged(t[i..e], w)
  {
    var s := t[i..e];
    forall m | 0 <= m < |w| ensures Lower(s[m]) == w[m] {
      assert s[m] == t[i + m];
    }
    assert s[|w|..] == t[i + |w|..e];
  }

  /** A tagged token of `t[i..e]` is the keyword at `i` followed by the tail. */
  lemma TaggedAt(t: string, i: nat, e: nat, w: string)
    requires i <= e <= |t| && Tagged(t[i..e], w)
    ensures i + |w| <= e && WordAt(t, i, w) && CompactTail(t[i + |w|..e])
  {
    var s := t[i..e];
    forall m | 0 <= m < |w| ensures Lower(t[i + m]) == w[m] {
      assert s[m] == t[i + m];
    }
    assert s[|w|..] == t[i + |w|..e];
  }

  /** A match of the compact pattern is a compact order-number token. */
  lemma CompactSound(t: string, i: nat)
    requires CompactEnd(t, i).Some?
    ensures CompactToken(t[i..CompactEnd(t, i).value])
  {
    var e := CompactEnd(t, i).value;
    var k := KeywordEnd(t, i).value;
    TailSound(t, k);
    if WordAt(t, i, "pd") {
      TaggedFrom(t, i, e, "pd");
    } else if WordAt(t, i, "po") {
      TaggedFrom(t, i, e, "po");
    } else if WordAt(t, i, "bo") {
      TaggedFrom(t, i, e, "bo");
    } else {
      TaggedFrom(t, i, e, "schedule");
    }
  }

  /** Wherever a compact order-number token starts, the matcher finds a match. */
  lemma CompactComplete(t: string, i: nat, e: nat)
    requires i <= e <= |t| && CompactToken(t[i..e])
    ensures CompactEnd(t, i).Some?
  {
    var s := t[i..e];
    if Tagged(s, "pd") {
      TaggedAt(t, i, e, "pd");
      TailComplete(t, i + 2, e);
    } else if Tagged(s, "po") {
      TaggedAt(t, i, e, "po");
      TailComplete(t, i + 2, e);
    } else if Tagged(s, "bo") {
      TaggedAt(t, i, e, "bo");
      TailComplete(t, i + 2, e);
    } else {
      TaggedAt(t, i, e, "schedule");
      assert Lower(t[i + 0]) == "schedule"[0] == 's';
      assert !WordAt(t, i, "pd") && !WordAt(t, i, "po") && !WordAt(t, i, "bo") by {
        assert "pd"[0] == 'p' && "po"[0] == 'p' && "bo"[0] == 'b';
      }
      TailComplete(t, i + 8, e);
    }
  }

  /** The tail of a compact token ends with a digit. */
  lemma CompactTailLast(u: string)
    ensures CompactTail(u) ==> IsDigit(u[|u| - 1])
  {
    if |u| >= 2 {
      DigitGroupsEdges(u[2..]);
      if |u| > 2 {
        DigitGroupsEdges(u[3..]);
      }
    }
  }

  /** A tagged token starts with its keyword's first letter and ends with a digit. */
  lemma TaggedTrimmed(s: string, w: string)
    requires Tagged(s, w) && w != [] && 'a' <= w[0] <= 'z'
    ensures Trimmed(s)
  {
    assert Lower(s[0]) == w[0];
    CompactTailLast(s[|w|..]);
    assert s[|s| - 1] == s[|w|..][|s| - |w| - 1];
  }

  /** A compact token has no surrounding whitespace. */
  lemma CompactTrimmed(s: string)
    requires CompactToken(s)
    ensures Trimmed(s)
  {
    if Tagged(s, "pd") {
      TaggedTrimmed(s, "pd");
    } else if Tagged(s, "po") {
      TaggedTrimmed(s, "po");
    } else if Tagged(s, "bo") {
      TaggedTrimmed(s, "bo");
    } else {
      TaggedTrimmed(s, "schedule");
    }
  }

  /** The first position at or after `from` holding a value: a leftmost search. */
  function FirstSome<T>(xs: seq<Option<T>>, from: nat): (r: Option<nat>)
    requires from <= |xs|
    ensures r.Some? ==> from <= r.value < |xs| && xs[r.value].Some?
    ensures r.Some? ==> forall j :: from <= j < r.value ==> xs[j].None?
    ensures r.None? ==> forall j :: from <= j < |xs| ==> xs[j].None?
    decreases |xs| - from
  {
    if from == |xs| then None
    else if xs[from].Some? then Some(from)
    else FirstSome(xs, from + 1)
  }

  /** Where the compact pattern ends when matched at each position of the text. */
  function CompactEnds(t: string): (r: seq<Option<nat>>)
    ensures |r| == |t| && forall i :: 0 <= i < |t| ==> r[i] == CompactEnd(t, i)
  {
    seq(|t|, i requires 0 <= i < |t| => CompactEnd(t, i))
  }

  /**
   * The position of the first pattern whose capture `accepted` admits, or
   * the number of patterns if there is none: the `for pattern in patterns`
   * loops that return on the first usable match.
   */
  function FirstAccepted(caps: seq<Option<string>>, accepted: Option<string> -> bool): (k: nat)
    ensures k <= |caps|
    ensures forall j :: 0 <= j < k ==> !accepted(caps[j])
    ensures k < |caps| ==> accepted(caps[k])
  {
    if caps == [] then 0
    else if accepted(caps[0]) then 0
    else
      var k := 1 + FirstAccepted(caps[1..], accepted);
      assert forall j :: 1 <= j < |caps| ==> caps[j] == caps[1..][j - 1];
      k
  }

  predicate Matched(c: Option<string>) {
    c.Some?
  }

  /** The stripped capture of the first pattern that matches. */
  function FirstCapture(caps: seq<Option<string>>): (r: Option<string>)
    ensures r.Some? <==> exists k :: 0 <= k < |caps| && caps[k].Some?
    ensures r.Some? ==> exists k :: 0 <= k < |caps| && caps[k].Some? && r.value == Strip(caps[k].value)
                                 && (forall j :: 0 <= j < k ==> caps[j].None?)
  {
    var k := FirstAccepted(caps, Matched);
    if k < |caps| then Some(Strip(caps[k].value)) else None
  }

  /**
   * `extract_bo_number`: the compact token leftmost in the text if there is
   * one, otherwise the trimmed capture of the first key-value pattern that matches.
   */
  function ExtractBoNumber(text: string, orderCaptures: seq<Option<string>>): (r: Option<string>)
    ensures (exists i :: 0 <= i < |text| && CompactEnd(text, i).Some?) ==>
      r.Some? && CompactToken(r.value) && Contains(text, r.value)
    ensures (forall i :: 0 <= i < |text| ==> CompactEnd(text, i).None?) ==> r == FirstCapture(orderCaptures)
  {
    var ends := CompactEnds(text);
    match FirstSome(ends, 0)
    case Some(i) =>
      var e := ends[i].value;
      CompactMatch(text, i, e);
      Some(Strip(text[i..e]))
    case None => FirstCapture(orderCaptures)
  }

  /** The order number is the leftmost compact match, exactly as it stands in the text. */
  lemma BoNumberLeftmost(text: string, orderCaptures: seq<Option<string>>, i: nat)
    requires i < |text| && CompactEnd(text, i).Some?
    requires forall j :: 0 <= j < i ==> CompactEnd(text, j).None?
    ensures ExtractBoNumber(text, orderCaptures) == Some(text[i..CompactEnd(text, i).value])
  {
    var ends := CompactEnds(text);
    var f := FirstSome(ends, 0);
    assert ends[i].Some?;
    assert f.Some?;
    assert f.value == i;
    CompactMatch(text, i, CompactEnd(text, i).value);
  }

  /** A compact match is a compact token, already trimmed, found in the text. */
  lemma CompactMatch(text: string, i: nat, e: nat)
    requires i < e <= |text| && CompactEnd(text, i) == Some(e)
    ensures Strip(text[i..e]) == text[i..e]
    ensures CompactToken(Strip(text[i..e])) && Contains(text, Strip(text[i..e]))
  {
    var token := text[i..e];
    CompactSound(text, i);
    CompactTrimmed(token);
    StripTrimmed(token);
    assert OccursAt(text, token, i);
  }

  /** The order number of the sample booking order is a compact token, in either case. */
  lemma CompactExample()
    ensures CompactToken("PD25|2041|4") && CompactToken("pd25|2041|4")
  {
    SampleTagged("PD25|2041|4");
    SampleTagged("pd25|2041|4");
  }

  /** Either spelling of the keyword, then the sample's digits. */
  lemma SampleTagged(s: string)
    requires s == "PD25|2041|4" || s == "pd25|2041|4"
    ensures Tagged(s, "pd")
  {
    SampleTail();
    assert Lower(s[0]) == 'p' && Lower(s[1]) == 'd';
    assert s[2..] == "25|2041|4";
  }

  /** What follows the keyword in the sample order number. */
  lemma SampleTail()
    ensures CompactTail("25|2041|4")
  {
    assert "25|2041|4"[3..] == "2041|4";
    assert GroupsSplit("2041|4", 4);
  }

  /** The long s matches the `S` of `Schedule`, as Python's case-insensitive matching has it. */
  lemma LongSExample()
    ensures CompactToken("\U{017F}chedule25|2041|4")
  {
    var t := "\U{017F}chedule25|2041|4";
    assert WordAt(t, 0, "schedule") by {
      assert Lower(t[0]) == 's';
      assert t[1..8] == "chedule";
    }
    SampleTail();
    assert t[8..] == "25|2041|4";
  }

  /** One digit after the keyword is too few. */
  lemma ShortYearRejected()
    ensures !CompactToken("PD2|2041|4")
  {
    var t := "PD2|2041|4";
    assert Lower(t[0]) == 'p' && Lower(t[1]) == 'd';
    assert !CompactTail(t[2..]) by { assert t[2..][1] == '|'; }
  }

  // ---------------------------------------------------------------------
  // Client name
  // ---------------------------------------------------------------------

  /** No two whitespace characters are adjacent. */
  predicate SingleSpaced(s: string) {
    forall k :: 0 <= k < |s| - 1 ==> !(IsSpace(s[k]) && IsSpace(s[k + 1]))
  }

  /** `re.sub(r'\s{2,}', ' ', s)`: every run of two or more whitespace characters becomes one space. */
  function Collapse(s: string): (r: string)
    ensures |r| <= |s|
    ensures r == [] <==> s == []
    ensures s != [] ==> (IsSpace(r[0]) <==> IsSpace(s[0]))
    ensures s != [] && !IsSpace(s[|s| - 1]) ==> r[|r| - 1] == s[|s| - 1]
    ensures SingleSpaced(r)
    decreases |s|
  {
    if s == [] then []
    else
      var n := LeadingSpace(s);
      var c := if n >= 2 then ' ' else s[0];
      var rest := if n >= 2 then s[n..] else s[1..];
      var tail := Collapse(rest);
      assert rest != [] ==> rest[0] == s[|s| - |rest|] && rest[|rest| - 1] == s[|s| - 1];
      SingleSpacedCons(c, tail);
      [c] + tail
  }

  /** Putting a character in front keeps single spacing unless it makes a pair of spaces. */
  lemma SingleSpacedCons(c: char, tail: string)
    requires SingleSpaced(tail) && (tail == [] || !(IsSpace(c) && IsSpace(tail[0])))
    ensures SingleSpaced([c] + tail)
  {
    var r := [c] + tail;
    forall k | 0 <= k < |r| - 1 ensures !(IsSpace(r[k]) && IsSpace(r[k + 1])) {
      if k > 0 {
        assert r[k] == tail[k - 1] && r[k + 1] == tail[k];
      }
    }
  }

  /** The cleaning applied to a client-name capture: strip, then collapse whitespace runs. */
  function CleanName(capture: string): (r: string)
    ensures Trimmed(r) && SingleSpaced(r)
    ensures r == [] <==> AllSpace(capture)
  {
    Collapse(Strip(capture))
  }

  /** The capture of a client-name pattern yields an acceptable name. */
  predicate NameAccepted(c: Option<string>) {
    c.Some? && CleanName(c.value) != [] && |CleanName(c.value)| < 150
  }

  /**
   * `extract_client_name`: the cleaned capture of the first pattern whose
   * cleaned capture is non-empty and shorter than 150 characters.
   */
  function ExtractClientName(caps: seq<Option<string>>): (r: Option<string>)
    ensures r.Some? ==> r.value != [] && |r.value| < 150 && Trimmed(r.value) && SingleSpaced(r.value)
    ensures r.Some? <==> exists k :: 0 <= k < |caps| && NameAccepted(caps[k])
    ensures r.Some? ==> exists k :: 0 <= k < |caps| && NameAccepted(caps[k]) && r.value == CleanName(caps[k].value)
                                 && (forall j :: 0 <= j < k ==> !NameAccepted(caps[j]))
  {
    var k := FirstAccepted(caps, NameAccepted);
    if k < |caps| then Some(CleanName(caps[k].value)) else None
  }

  // ---------------------------------------------------------------------
  // TRN
  // ---------------------------------------------------------------------

  /** `re.sub(r'\D', '', s)`: the digits of `s`, in order. */
  function DigitsOf(s: string): (r: string)
    ensures AllDigits(r) && |r| <= |s|
    ensures AllDigits(s) ==> r == s
  {
    if s == [] then []
    else if IsDigit(s[0]) then [s[0]] + DigitsOf(s[1..])
    else DigitsOf(s[1..])
  }

  /** Keeping the digits distributes over concatenation. */
  lemma {:induction false} DigitsOfAppend(s: string, t: string)
    ensures DigitsOf(s + t) == DigitsOf(s) + DigitsOf(t)
  {
    if s != [] {
      assert (s + t)[1..] == s[1..] + t;
      DigitsOfAppend(s[1..], t);
    } else {
      assert s + t == t;
    }
  }

  /** Whitespace holds no digits. */
  lemma {:induction false} DigitsOfSpace(s: string)
    requires AllSpace(s)
    ensures DigitsOf(s) == []
  {
    if s != [] {
      DigitsOfSpace(s[1..]);
    }
  }

  /** Stripping a TRN capture before keeping its digits makes no difference. */
  lemma DigitsOfStrip(s: string)
    ensures DigitsOf(Strip(s)) == DigitsOf(s)
  {
    var i := LeadingSpace(s);
    var l := s[i..];
    var j := TrailingSpace(l);
    StripIs(s, i, l, j);
    DigitsOfSplit(s, i);
    DigitsOfSplit(l, |l| - j);
    DigitsOfSpace(s[..i]);
    DigitsOfSpace(l[|l| - j..]);
  }

  /** Keeping the digits of the two halves of a string. */
  lemma DigitsOfSplit(s: string, k: nat)
    requires k <= |s|
    ensures DigitsOf(s) == DigitsOf(s[..k]) + DigitsOf(s[k..])
  {
    assert s == s[..k] + s[k..];
    DigitsOfAppend(s[..k], s[k..]);
  }

  /** The capture of a TRN pattern holds at least eight digits. */
  predicate TrnAccepted(c: Option<string>) {
    c.Some? && |DigitsOf(Strip(c.value))| >= 8
  }

  /**
   * `extract_trn_number`: the digits of the first capture that holds at
   * least eight of them.
   */
  function ExtractTrn(caps: seq<Option<string>>): (r: Option<string>)
    ensures r.Some? ==> AllDigits(r.value) && |r.value| >= 8
    ensures r.Some? <==> exists k :: 0 <= k < |caps| && TrnAccepted(caps[k])
    ensures r.Some? ==> exists k :: 0 <= k < |caps| && TrnAccepted(caps[k]) && r.value == DigitsOf(caps[k].value)
                                 && (forall j :: 0 <= j < k ==> !TrnAccepted(caps[j]))
  {
    var k := FirstAccepted(caps, TrnAccepted);
    if k < |caps| then
      DigitsOfStrip(caps[k].value);
      Some(DigitsOf(Strip(caps[k].value)))
    else None
  }

  // ---------------------------------------------------------------------
  // Descriptions
  // ---------------------------------------------------------------------

  /** The first layer's verdict on one keyword match: stripped, if non-empty and under 200 characters. */
  function KeywordStep(m: string): (r: seq<string>)
    ensures |r| <= 1
    ensures forall k :: 0 <= k < |r| ==> r[k] == Strip(m) && r[k] != [] && |r[k]| < 200
  {
    var d := Strip(m);
    if d != [] && |d| < 200 then [d] else []
  }

  /** The first layer over all keyword matches, in order. */
  function KeywordCandidates(ms: seq<string>): (r: seq<string>)
    ensures forall k :: 0 <= k < |r| ==> r[k] != [] && |r[k]| < 200 && Trimmed(r[k])
    ensures |r| <= |ms|
    decreases |ms|
  {
    if ms == [] then [] else KeywordCandidates(ms[..|ms| - 1]) + KeywordStep(ms[|ms| - 1])
  }

  /** `[line.strip() for line in lines if line.strip()]`. */
  function NonBlankLines(lines: seq<string>): (r: seq<string>)
    ensures forall k :: 0 <= k < |r| ==> r[k] != [] && Trimmed(r[k])
    decreases |lines|
  {
    if lines == [] then []
    else
      var d := Strip(lines[|lines| - 1]);
      NonBlankLines(lines[..|lines| - 1]) + if d != [] then [d] else []
  }

  /** The second layer's verdict on one "Details" line: kept if longer than five characters. */
  function DetailStep(line: string): (r: seq<string>)
    ensures |r| <= 1
    ensures forall k :: 0 <= k < |r| ==> r[k] == line && |r[k]| > 5
  {
    if line != [] && |line| > 5 then [line] else []
  }

  /** The second layer over the given lines, in order. */
  function LongLines(lines: seq<string>): (r: seq<string>)
    ensures forall k :: 0 <= k < |r| ==> |r[k]| > 5 && r[k] in lines
    ensures |r| <= |lines|
    decreases |lines|
  {
    if lines == [] then [] else LongLines(lines[..|lines| - 1]) + DetailStep(lines[|lines| - 1])
  }

  /** The second layer: up to five non-blank lines of the "Details" block, kept if longer than five. */
  function DetailCandidates(block: Option<string>): (r: seq<string>)
    ensures |r| <= 5
    ensures forall k :: 0 <= k < |r| ==> |r[k]| > 5 && Trimmed(r[k])
  {
    if block.None? then []
    else
      var ls := Take(NonBlankLines(Split(block.value, '\n')), 5);
      assert forall d :: d in ls ==> Trimmed(d);
      LongLines(ls)
  }

  /** Lines that hold a digit and are longer than 20 characters: possible table rows. */
  function NumberedLines(lines: seq<string>): (r: seq<string>)
    ensures forall k :: 0 <= k < |r| ==> HasDigit(r[k]) && |r[k]| > 20
    decreases |lines|
  {
    if lines == [] then []
    else
      var l := lines[|lines| - 1];
      NumberedLines(lines[..|lines| - 1]) + if HasDigit(l) && |l| > 20 then [l] else []
  }

  /** The length of the leading run of digits, `-` and `|`. */
  function MarkerRun(s: string): (n: nat)
    ensures n <= |s|
    ensures forall k :: 0 <= k < n ==> IsDigit(s[k]) || s[k] == '-' || s[k] == '|'
    ensures n == |s| || !(IsDigit(s[n]) || s[n] == '-' || s[n] == '|')
  {
    if s != [] && (IsDigit(s[0]) || s[0] == '-' || s[0] == '|') then 1 + MarkerRun(s[1..]) else 0
  }

  /** `re.sub(r'^[\d\-\|]+\s*', '', line)`: drops a leading row number and the whitespace after it. */
  function StripRowMarker(line: string): (r: string)
    ensures |r| <= |line|
    ensures MarkerRun(line) == 0 ==> r == line
    ensures r == line[|line| - |r|..]
    ensures MarkerRun(line) > 0 ==> |r| < |line| && (r == [] || !IsSpace(r[0]))
    ensures forall k :: MarkerRun(line) <= k < |line| - |r| ==> IsSpace(line[k])
  {
    var n := MarkerRun(line);
    if n == 0 then line
    else
      var rest := line[n..];
      SkipSpaces(line, n);
      rest[LeadingSpace(rest)..]
  }

  /** Skipping the whitespace that starts at `n` leaves a suffix that does not start with whitespace. */
  lemma SkipSpaces(line: string, n: nat)
    requires n <= |line|
    ensures var rest := line[n..]; var r := rest[LeadingSpace(rest)..];
      r == line[|line| - |r|..] && (r == [] || !IsSpace(r[0])) &&
      forall k :: n <= k < |line| - |r| ==> IsSpace(line[k])
  {
    var rest := line[n..];
    var m := LeadingSpace(rest);
    assert rest[m..] == line[n + m..];
    forall k | n <= k < n + m ensures IsSpace(line[k]) {
      assert line[k] == rest[..m][k - n];
    }
  }

  /** The third layer's verdict on one candidate row: its cleaned, stripped text, if usable. */
  function RowCandidate(row: string): (r: seq<string>)
    ensures |r| <= 1
    ensures forall k :: 0 <= k < |r| ==> |r[k]| < 200 && Trimmed(r[k]) && r[k] != []
  {
    var c := StripRowMarker(row);
    if c != [] && |c| > 10 && HasLetter(c) && |Strip(c)| < 200 then
      LetterNotSpace(c);
      [Strip(c)]
    else []
  }

  /** A string holding a letter is not all whitespace. */
  lemma LetterNotSpace(c: string)
    requires HasLetter(c)
    ensures !AllSpace(c)
  {
    var k :| 0 <= k < |c| && IsLetter(c[k]);
  }

  /** The third layer over all candidate rows, in order. */
  function RowCandidates(rows: seq<string>): (r: seq<string>)
    ensures forall k :: 0 <= k < |r| ==> |r[k]| < 200 && Trimmed(r[k]) && r[k] != []
    ensures |r| <= |rows|
    decreases |rows|
  {
    if rows == [] then [] else RowCandidates(rows[..|rows| - 1]) + RowCandidate(rows[|rows| - 1])
  }

  /** Every candidate of every layer, in the order the parser considers them. */
  function AllCandidates(text: string, scan: Scan): seq<string>
  {
    KeywordCandidates(scan.keywordMatches) + DetailCandidates(scan.detailsBlock)
      + RowCandidates(NumberedLines(Lines(text)))
  }

  /** Every candidate is non-empty and trimmed. */
  lemma CandidatesTrimmed(text: string, scan: Scan)
    ensures forall c :: c in AllCandidates(text, scan) ==> c != [] && Trimmed(c)
  {
    var a := KeywordCandidates(scan.keywordMatches);
    var b := DetailCandidates(scan.detailsBlock);
    var c := RowCandidates(NumberedLines(Lines(text)));
    NonBlankConcat(a, b);
    NonBlankConcat(a + b, c);
  }

  /** Two lists of non-empty trimmed strings concatenate to one. */
  lemma NonBlankConcat(a: seq<string>, b: seq<string>)
    requires forall k :: 0 <= k < |a| ==> a[k] != [] && Trimmed(a[k])
    requires forall k :: 0 <= k < |b| ==> b[k] != [] && Trimmed(b[k])
    ensures forall k :: 0 <= k < |a + b| ==> (a + b)[k] != [] && Trimmed((a + b)[k])
    ensures forall x :: x in a + b ==> x != [] && Trimmed(x)
  {
    forall k | 0 <= k < |a + b| ensures (a + b)[k] != [] && Trimmed((a + b)[k]) {
      if k >= |a| {
        assert (a + b)[k] == b[k - |a|];
      }
    }
  }

  /** `extract_descriptions`: the first five distinct candidates, in order of discovery. */
  function Descriptions(text: string, scan: Scan): seq<string>
  {
    Take(AppendAll([], AllCandidates(text, scan)), 5)
  }

  /**
   * What `extract_descriptions` promises: at most five descriptions, no
   * repeats, each a trimmed, non-empty candidate, in order of first
   * discovery, and every candidate is kept unless five earlier ones filled
   * the list.
   */
  lemma DescriptionsShape(text: string, scan: Scan)
    ensures var ds := Descriptions(text, scan);
      var cs := AllCandidates(text, scan);
      |ds| <= 5 && NoDup(ds) &&
      (forall k :: 0 <= k < |ds| ==> ds[k] in cs && ds[k] != [] && Trimmed(ds[k])) &&
      (|ds| < 5 ==> forall c :: c in cs ==> c in ds) &&
      (forall i, j :: 0 <= i < j < |ds| ==> FirstIndex(cs, ds[i]) < FirstIndex(cs, ds[j]))
  {
    CandidatesTrimmed(text, scan);
    FirstFiveShape(AllCandidates(text, scan));
  }

  /** The first five distinct members of a list of trimmed, non-empty strings. */
  lemma FirstFiveShape(cs: seq<string>)
    requires forall c :: c in cs ==> c != [] && Trimmed(c)
    ensures var ds := Take(AppendAll([], cs), 5);
      |ds| <= 5 && NoDup(ds) &&
      (forall k :: 0 <= k < |ds| ==> ds[k] in cs && ds[k] != [] && Trimmed(ds[k])) &&
      (|ds| < 5 ==> forall c :: c in cs ==> c in ds) &&
      (forall i, j :: 0 <= i < j < |ds| ==> FirstIndex(cs, ds[i]) < FirstIndex(cs, ds[j]))
  {
    DedupPrefix(cs, 5);
  }

  /** Folding a list of at most one value is at most one `AppendNew`. */
  lemma AppendAllOne<T(!new)>(acc: seq<T>, xs: seq<T>)
    requires |xs| <= 1
    ensures AppendAll(acc, xs) == if xs == [] then acc else AppendNew(acc, xs[0])
  {
    if xs != [] {
      assert xs[..0] == [];
    }
  }

  /** One more keyword match: its stripped text is appended when usable and new. */
  lemma KeywordLayerStep(ds: seq<string>, ms: seq<string>, i: nat)
    requires i < |ms| && ds == AppendAll([], KeywordCandidates(ms[..i]))
    ensures var d := Strip(ms[i]);
      AppendAll([], KeywordCandidates(ms[..i + 1])) == if d != [] && |d| < 200 && d !in ds then ds + [d] else ds
  {
    var cur := ms[..i + 1];
    assert cur[..|cur| - 1] == ms[..i] && cur[|cur| - 1] == ms[i];
    AppendAllConcat([], KeywordCandidates(ms[..i]), KeywordStep(ms[i]));
    AppendAllOne(ds, KeywordStep(ms[i]));
  }

  /** One more "Details" line: it is appended when long enough and new. */
  lemma DetailLayerStep(ds0: seq<string>, ds: seq<string>, ls: seq<string>, i: nat)
    requires i < |ls| && ds == AppendAll(ds0, LongLines(ls[..i]))
    ensures var line := ls[i];
      AppendAll(ds0, LongLines(ls[..i + 1])) == if line != [] && |line| > 5 && line !in ds then ds + [line] else ds
  {
    var cur := ls[..i + 1];
    assert cur[..|cur| - 1] == ls[..i] && cur[|cur| - 1] == ls[i];
    AppendAllConcat(ds0, LongLines(ls[..i]), DetailStep(ls[i]));
    AppendAllOne(ds, DetailStep(ls[i]));
  }

  /** One more candidate row: its cleaned text is appended when usable and new. */
  lemma RowLayerStep(ds0: seq<string>, ds: seq<string>, rows: seq<string>, i: nat)
    requires i < |rows| && ds == AppendAll(ds0, RowCandidates(rows[..i]))
    ensures var c := StripRowMarker(rows[i]);
      AppendAll(ds0, RowCandidates(rows[..i + 1])) ==
        if c != [] && |c| > 10 && HasLetter(c) && Strip(c) !in ds && |Strip(c)| < 200 then ds + [Strip(c)] else ds
  {
    RowCandidatesSnoc(rows, i);
    AppendAllConcat(ds0, RowCandidates(rows[..i]), RowCandidate(rows[i]));
    RowCandidateShape(rows[i]);
    AppendAllOne(ds, RowCandidate(rows[i]));
  }

  lemma RowCandidatesSnoc(rows: seq<string>, i: nat)
    requires i < |rows|
    ensures RowCandidates(rows[..i + 1]) == RowCandidates(rows[..i]) + RowCandidate(rows[i])
  {
    var cur := rows[..i + 1];
    assert cur[..|cur| - 1] == rows[..i] && cur[|cur| - 1] == rows[i];
  }

  lemma RowCandidateShape(row: string)
    ensures var c := StripRowMarker(row);
      RowCandidate(row) == if c != [] && |c| > 10 && HasLetter(c) && |Strip(c)| < 200 then [Strip(c)] else []
  {
  }

  /** One more line: it is kept as a possible table row when it holds a digit and is long. */
  lemma NumberedStep(lines: seq<string>, k: nat)
    requires k < |lines|
    ensures NumberedLines(lines[..k + 1]) ==
      NumberedLines(lines[..k]) + if HasDigit(lines[k]) && |lines[k]| > 20 then [lines[k]] else []
  {
    assert lines[..k + 1][..k] == lines[..k];
  }

  /** The keyword loop of `extract_descriptions`, starting from the empty list. */
  method KeywordLayer(ms: seq<string>) returns (ds: seq<string>)
    ensures ds == AppendAll([], KeywordCandidates(ms))
  {
    ds := [];
    var i := 0;
    assert ms[..0] == [];
    while i < |ms|
      invariant 0 <= i <= |ms|
      invariant ds == AppendAll([], KeywordCandidates(ms[..i]))
    {
      KeywordLayerStep(ds, ms, i);
      var d := Strip(ms[i]);
      if d != [] && |d| < 200 {
        if d !in ds {
          ds := ds + [d];
        }
      }
      i := i + 1;
    }
    assert ms[..i] == ms;
  }

  /** The "Details" step of `extract_descriptions`, extending the list `ds0`. */
  method DetailLayer(ds0: seq<string>, block: Option<string>) returns (ds: seq<string>)
    ensures ds == AppendAll(ds0, DetailCandidates(block))
  {
    ds := ds0;
    if block.Some? {
      var lines := NonBlankLines(Split(block.value, '\n'));
      var details := Take(lines, 5);
      var j := 0;
      assert details[..0] == [];
      while j < |details|
        invariant 0 <= j <= |details|
        invariant ds == AppendAll(ds0, LongLines(details[..j]))
      {
        DetailLayerStep(ds0, ds, details, j);
        var line := details[j];
        if line != [] && |line| > 5 && line !in ds {
          ds := ds + [line];
        }
        j := j + 1;
      }
      assert details[..j] == details;
    }
  }

  /** The loop collecting lines that may be table rows. */
  method NumberedRows(lines: seq<string>) returns (numbered: seq<string>)
    ensures numbered == NumberedLines(lines)
  {
    numbered := [];
    var k := 0;
    assert lines[..0] == [];
    while k < |lines|
      invariant 0 <= k <= |lines|
      invariant numbered == NumberedLines(lines[..k])
    {
      NumberedStep(lines, k);
      if HasDigit(lines[k]) && |lines[k]| > 20 {
        numbered := numbered + [lines[k]];
      }
      k := k + 1;
    }
    assert lines[..k] == lines;
  }

  /** The table-row step of `extract_descriptions`, extending the list `ds0`. */
  method RowLayer(ds0: seq<string>, lines: seq<string>) returns (ds: seq<string>)
    ensures ds == AppendAll(ds0, RowCandidates(NumberedLines(lines)))
  {
    ds := ds0;
    var numbered := NumberedRows(lines);
    var m := 0;
    assert numbered[..0] == [];
    while m < |numbered|
      invariant 0 <= m <= |numbered|
      invariant ds == AppendAll(ds0, RowCandidates(numbered[..m]))
    {
      RowLayerStep(ds0, ds, numbered, m);
      var cleaned := StripRowMarker(numbered[m]);
      if cleaned != [] && |cleaned| > 10 && HasLetter(cleaned) {
        cleaned := Strip(cleaned);
        if cleaned !in ds && |cleaned| < 200 {
          ds := ds + [cleaned];
        }
      }
      m := m + 1;
    }
    assert numbered[..m] == numbered;
  }

  /**
   * `extract_descriptions` as the parser runs it: the three layers in turn,
   * each appending what the list does not hold yet, then the first five.
   */
  method ExtractDescriptions(text: string, scan: Scan) returns (ds: seq<string>)
    ensures ds == Descriptions(text, scan)
  {
    ds := KeywordLayer(scan.keywordMatches);
    ds := DetailLayer(ds, scan.detailsBlock);
    ds := RowLayer(ds, Lines(text));
    DescriptionsByLayer(text, scan);
    if |ds| > 5 {
      ds := ds[..5];
    }
  }

  /** Folding over all candidates is folding over each layer's candidates in turn. */
  lemma DescriptionsByLayer(text: string, scan: Scan)
    ensures Descriptions(text, scan) == Take(AppendAll(AppendAll(AppendAll([],
      KeywordCandidates(scan.keywordMatches)), DetailCandidates(scan.detailsBlock)),
      RowCandidates(NumberedLines(Lines(text)))), 5)
  {
    var a := KeywordCandidates(scan.keywordMatches);
    var b := DetailCandidates(scan.detailsBlock);
    var c := RowCandidates(NumberedLines(Lines(text)));
    AppendAllConcat([], a, b);
    AppendAllConcat([], a + b, c);
  }

  // ---------------------------------------------------------------------
  // Quantities and rates
  // ---------------------------------------------------------------------

  function Pow10(n: nat): (r: nat)
    ensures r >= 1
  {
    if n == 0 then 1 else 10 * Pow10(n - 1)
  }

  /** `s.replace(',', '')`. */
  function RemoveCommas(s: string): (r: string)
    ensures ',' !in r
    ensures ',' !in s ==> r == s
  {
    if s == [] then []
    else if s[0] == ',' then RemoveCommas(s[1..])
    else
      var tail := RemoveCommas(s[1..]);
      assert s == [s[0]] + s[1..];
      [s[0]] + tail
  }

  /**
   * `float(s)` for the unsigned decimal forms the number patterns capture:
   * digits with an optional fractional part; anything else is a `ValueError`.
   */
  function ParseDecimal(s: string): (r: Option<real>)
    ensures r.Some? ==> r.value >= 0.0
    ensures s != [] && AllDigits(s) ==> r == Some(DigitsValue(s) as real)
  {
    var parts := Split(s, '.');
    assert AllDigits(s) ==> parts == [s] by {
      if AllDigits(s) {
        SplitWithout(s, '.');
      }
    }
    if |parts| == 1 then
      if s != [] && AllDigits(s) then Some(DigitsValue(s) as real) else None
    else if |parts| == 2 && AllDigits(parts[0]) && AllDigits(parts[1]) && (parts[0] != [] || parts[1] != []) then
      Some(DigitsValue(parts[0]) as real + DigitsValue(parts[1]) as real / Pow10(|parts[1]|) as real)
    else None
  }

  /** Splitting a string that does not hold the separator gives the string itself. */
  lemma {:induction false} SplitWithout(s: string, sep: char)
    requires sep !in s
    ensures Split(s, sep) == [s]
  {
    if s != [] {
      SplitWithout(s[1..], sep);
      assert [s[0]] + s[1..] == s;
    }
  }

  /** `float(str(n))` is `n`: the decimal parser inverts integer rendering. */
  lemma ParseRendered(n: nat)
    ensures ParseDecimal(NatToString(n)) == Some(n as real)
  {
  }

  /** A number capture as the parser converts it: commas removed, then `float`. */
  function ParseAmount(s: string): Option<real>
  {
    ParseDecimal(RemoveCommas(s))
  }

  /** The labelled captures that convert to a positive number, in order, repeats kept. */
  function Positives(ms: seq<string>): (r: seq<real>)
    ensures forall k :: 0 <= k < |r| ==> r[k] > 0.0
    decreases |ms|
  {
    if ms == [] then []
    else
      var v := ParseAmount(ms[|ms| - 1]);
      Positives(ms[..|ms| - 1]) + if v.Some? && v.value > 0.0 then [v.value] else []
  }

  /** The fallback captures that convert to a number in `[1, hi]`, in order. */
  function InRange(ms: seq<string>, hi: real): (r: seq<real>)
    ensures forall k :: 0 <= k < |r| ==> 1.0 <= r[k] <= hi
    decreases |ms|
  {
    if ms == [] then []
    else
      var v := ParseAmount(ms[|ms| - 1]);
      InRange(ms[..|ms| - 1], hi) + if v.Some? && 1.0 <= v.value <= hi then [v.value] else []
  }

  /**
   * The amounts list of `extract_quantities` and `extract_rates`: every
   * positive labelled value, then each fallback value in `[1, hi]` that is
   * not in the list yet; the first ten.
   */
  function Amounts(labelled: seq<string>, fallback: seq<string>, hi: real): seq<real>
  {
    Take(AppendAll(Positives(labelled), InRange(fallback, hi)), 10)
  }

  /**
   * At most ten amounts, all positive: the labelled values lead in order,
   * and each later value is a new fallback value within `[1, hi]`.
   */
  lemma AmountsShape(labelled: seq<string>, fallback: seq<string>, hi: real)
    ensures var r := Amounts(labelled, fallback, hi);
      var p := Positives(labelled);
      |r| <= 10 &&
      (forall k :: 0 <= k < |r| ==> r[k] > 0.0) &&
      Take(p, 10) == r[..|Take(p, 10)|] &&
      (forall k :: |p| <= k < |r| ==> 1.0 <= r[k] <= hi && r[k] in InRange(fallback, hi) && r[k] !in r[..k])
  {
    TenAmountsShape(Positives(labelled), InRange(fallback, hi), hi);
  }

  /** The first ten of positive leading values followed by new values in `[1, hi]`. */
  lemma TenAmountsShape(p: seq<real>, f: seq<real>, hi: real)
    requires forall k :: 0 <= k < |p| ==> p[k] > 0.0
    requires forall k :: 0 <= k < |f| ==> 1.0 <= f[k] <= hi
    ensures var r := Take(AppendAll(p, f), 10);
      |r| <= 10 &&
      (forall k :: 0 <= k < |r| ==> r[k] > 0.0) &&
      Take(p, 10) == r[..|Take(p, 10)|] &&
      (forall k :: |p| <= k < |r| ==> 1.0 <= r[k] <= hi && r[k] in f && r[k] !in r[..k])
  {
    var all := AppendAll(p, f);
    AppendAllFacts(p, f);
    var r := Take(all, 10);
    forall k | |p| <= k < |r| ensures r[k] in f && r[k] !in r[..k] && 1.0 <= r[k] <= hi {
      assert r[k] == all[k];
      assert r[..k] == all[..k];
      var m :| 0 <= m < |f| && f[m] == all[k];
    }
    forall k | 0 <= k < |r| && k < |p| ensures r[k] == p[k] {
      assert all[..|p|][k] == p[k];
    }
  }

  /** `extract_quantities`: labelled volumes, then bare integers of at most 100000. */
  function Quantities(scan: Scan): seq<real>
  {
    Amounts(scan.labelledQuantities, scan.lineNumbers, 100000.0)
  }

  /** `extract_rates`: labelled rates, then currency amounts of at most 1000000. */
  function Rates(scan: Scan): seq<real>
  {
    Amounts(scan.labelledRates, scan.currencyAmounts, 1000000.0)
  }

  /** One more labelled capture adds its value if it is positive. */
  lemma PositivesStep(ms: seq<string>, i: nat)
    requires i < |ms|
    ensures var v := ParseAmount(ms[i]);
      Positives(ms[..i + 1]) == Positives(ms[..i]) + if v.Some? && v.value > 0.0 then [v.value] else []
  {
    assert ms[..i + 1][..i] == ms[..i];
  }

  /** One more fallback capture adds its value if it is in range and new. */
  lemma FallbackStep(base: seq<real>, ms: seq<string>, j: nat, hi: real)
    requires j < |ms|
    ensures var v := ParseAmount(ms[j]);
      AppendAll(base, InRange(ms[..j + 1], hi)) ==
        if v.Some? && 1.0 <= v.value <= hi then AppendNew(AppendAll(base, InRange(ms[..j], hi)), v.value)
        else AppendAll(base, InRange(ms[..j], hi))
  {
    var v := ParseAmount(ms[j]);
    var pre := ms[..j];
    var cur := ms[..j + 1];
    assert cur[..|cur| - 1] == pre && cur[|cur| - 1] == ms[j];
    var ir := InRange(pre, hi);
    if v.Some? && 1.0 <= v.value <= hi {
      assert InRange(cur, hi) == ir + [v.value];
      AppendAllSnoc(base, ir, v.value);
    } else {
      assert InRange(cur, hi) == ir;
    }
  }

  /**
   * The two loops shared by `extract_quantities` and `extract_rates`:
   * collect the positive labelled values, add each new fallback value in
   * range, keep the first ten.
   */
  method CollectAmounts(labelled: seq<string>, fallback: seq<string>, hi: real) returns (vals: seq<real>)
    ensures vals == Amounts(labelled, fallback, hi)
  {
    var base := CollectPositives(labelled);
    vals := AddFallback(base, fallback, hi);
    if |vals| > 10 {
      vals := vals[..10];
    }
  }

  /** The first loop: every labelled capture that converts to a positive number, in order. */
  method CollectPositives(labelled: seq<string>) returns (vals: seq<real>)
    ensures vals == Positives(labelled)
  {
    vals := [];
    var i := 0;
    while i < |labelled|
      invariant 0 <= i <= |labelled|
      invariant vals == Positives(labelled[..i])
    {
      var v := ParseAmount(labelled[i]);
      PositivesStep(labelled, i);
      if v.Some? && v.value > 0.0 {
        vals := vals + [v.value];
      }
      i := i + 1;
    }
    assert labelled[..i] == labelled;
  }

  /** The second loop: each fallback value in `[1, hi]` is appended unless already present. */
  method AddFallback(base: seq<real>, fallback: seq<string>, hi: real) returns (vals: seq<real>)
    ensures vals == AppendAll(base, InRange(fallback, hi))
  {
    vals := base;
    var j := 0;
    while j < |fallback|
      invariant 0 <= j <= |fallback|
      invariant vals == AppendAll(base, InRange(fallback[..j], hi))
    {
      var v := ParseAmount(fallback[j]);
      FallbackStep(base, fallback, j, hi);
      if v.Some? && 1.0 <= v.value <= hi {
        if v.value !in vals {
          vals := vals + [v.value];
        }
      }
      j := j + 1;
    }
    assert fallback[..j] == fallback;
  }

  // ---------------------------------------------------------------------
  // Line items and the whole record
  // ---------------------------------------------------------------------

  datatype LineItem = LineItem(description: string, quantity: Option<real>, rate: Option<real>)

  function Max3(a: nat, b: nat, c: nat): (m: nat)
    ensures m >= a && m >= b && m >= c && (m == a || m == b || m == c)
  {
    if a >= b && a >= c then a else if b >= c then b else c
  }

  /**
   * The pairing of `extract_line_items`: as many items as the longest list;
   * item `i` takes the `i`-th entry of each list, `''` or `None` where that
   * list is shorter.
   */
  method PairLineItems(ds: seq<string>, qs: seq<real>, rs: seq<real>) returns (items: seq<LineItem>)
    ensures |items| == Max3(|ds|, |qs|, |rs|)
    ensures forall i :: 0 <= i < |items| ==> (i < |ds| ==> items[i].description == ds[i]) && (i >= |ds| ==> items[i].description == "")
    ensures forall i :: 0 <= i < |items| ==> (i < |qs| <==> items[i].quantity.Some?) && (i < |qs| ==> items[i].quantity.value == qs[i])
    ensures forall i :: 0 <= i < |items| ==> (i < |rs| <==> items[i].rate.Some?) && (i < |rs| ==> items[i].rate.value == rs[i])
    ensures forall i :: 0 <= i < |items| ==> items[i] == LineItem(if i < |ds| then ds[i] else "",
      if i < |qs| then Some(qs[i]) else None, if i < |rs| then Some(rs[i]) else None)
  {
    var n := Max3(|ds|, |qs|, |rs|);
    items := [];
    var i := 0;
    while i < n
      invariant 0 <= i <= n && |items| == i
      invariant forall k :: 0 <= k < i ==> items[k] == LineItem(if k < |ds| then ds[k] else "",
        if k < |qs| then Some(qs[k]) else None, if k < |rs| then Some(rs[k]) else None)
    {
      var item := LineItem(if i < |ds| then ds[i] else "",
        if i < |qs| then Some(qs[i]) else None, if i < |rs| then Some(rs[i]) else None);
      items := items + [item];
      i := i + 1;
    }
  }

  /** `extract_line_items`: descriptions, quantities and rates, paired by position. */
  method ExtractLineItems(text: string, scan: Scan) returns (items: seq<LineItem>)
    ensures |items| <= 10
    ensures |items| == Max3(|Descriptions(text, scan)|, |Quantities(scan)|, |Rates(scan)|)
    ensures forall i :: 0 <= i < |Descriptions(text, scan)| ==> items[i].description == Descriptions(text, scan)[i]
    ensures forall i :: 0 <= i < |items| ==> (i < |Quantities(scan)| <==> items[i].quantity.Some?)
    ensures forall i :: 0 <= i < |items| ==> (i < |Rates(scan)| <==> items[i].rate.Some?)
    ensures var ds, qs, rs := Descriptions(text, scan), Quantities(scan), Rates(scan);
      forall i :: 0 <= i < |items| ==> items[i] == LineItem(if i < |ds| then ds[i] else "",
        if i < |qs| then Some(qs[i]) else None, if i < |rs| then Some(rs[i]) else None)
  {
    var ds := ExtractDescriptions(text, scan);
    var qs := CollectAmounts(scan.labelledQuantities, scan.lineNumbers, 100000.0);
    var rs := CollectAmounts(scan.labelledRates, scan.currencyAmounts, 1000000.0);
    DescriptionsShape(text, scan);
    items := PairLineItems(ds, qs, rs);
  }

  /** The record `extract_all_data` returns. */
  datatype BoData = BoData(
    boNo: Option<string>, clientName: Option<string>, clientTrn: Option<string>,
    descriptions: seq<string>, quantities: seq<real>, rates: seq<real>, rawText: string)

  /** `extract_all_data`: every extractor's result, and the text itself. */
  method ExtractAllData(text: string, scan: Scan) returns (data: BoData)
    ensures data.rawText == text
    ensures data.boNo == ExtractBoNumber(text, scan.orderCaptures)
    ensures data.clientName == ExtractClientName(scan.clientCaptures)
    ensures data.clientTrn == ExtractTrn(scan.trnCaptures)
    ensures data.descriptions == Descriptions(text, scan)
    ensures |data.quantities| <= 10 && data.quantities == Quantities(scan)
    ensures |data.rates| <= 10 && data.rates == Rates(scan)
  {
    var ds := ExtractDescriptions(text, scan);
    var qs := CollectAmounts(scan.labelledQuantities, scan.lineNumbers, 100000.0);
    var rs := CollectAmounts(scan.labelledRates, scan.currencyAmounts, 1000000.0);
    data := BoData(ExtractBoNumber(text, scan.orderCaptures), ExtractClientName(scan.clientCaptures),
      ExtractTrn(scan.trnCaptures), ds, qs, rs, text);
  }
}
