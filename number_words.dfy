/**
 * The English number speller of the invoice form and the "... DOLLARS AND
 * ... CENTS" line built from it. `Words` is the speller as written, on
 * strings; `Tokens` is the same spelling as a sequence of words, and
 * `Evaluate` reads such a sequence back to a number, which shows the
 * spelling names the number it was given.
 */
module NumberWords {
  import opened Text
  import opened Wrappers
  import opened Seqs

  const TO19: seq<string> := [
    "Zero", "One", "Two", "Three", "Four", "Five", "Six", "Seven", "Eight", "Nine", "Ten",
    "Eleven", "Twelve", "Thirteen", "Fourteen", "Fifteen", "Sixteen", "Seventeen", "Eighteen", "Nineteen"
  ]

  const TENS: seq<string> := ["", "", "Twenty", "Thirty", "Forty", "Fifty", "Sixty", "Seventy", "Eighty", "Ninety"]

  /**
   * `words(num)`: the table entry below 20; tens and unit below 100;
   * hundreds below 1000; otherwise the largest of billion, million and
   * thousand that fits, with a zero remainder left unsaid at every level.
   */
  function Words(n: nat): string
    decreases n
  {
    if n < 20 then TO19[n]
    else if n < 100 then TENS[n / 10] + (if n % 10 == 0 then "" else " " + TO19[n % 10])
    else if n < 1000 then TO19[n / 100] + " Hundred" + (if n % 100 == 0 then "" else " " + Words(n % 100))
    else if n >= 1000000000 then
      Words(n / 1000000000) + " Billion" + (if n % 1000000000 == 0 then "" else " " + Words(n % 1000000000))
    else if n >= 1000000 then
      Words(n / 1000000) + " Million" + (if n % 1000000 == 0 then "" else " " + Words(n % 1000000))
    else if n >= 1000 then
      Words(n / 1000) + " Thousand" + (if n % 1000 == 0 then "" else " " + Words(n % 1000))
    else
      // the final `return ''` of the speller: every n reaching it is at least 1000
      assert false; ""
  }

  /** One word of a spelled number or amount. */
  datatype Word = Unit(k: nat) | Ten(k: nat) | Hundred | Thousand | Million | Billion | Dollars | And | Cents

  function Spell(w: Word): string
  {
    match w
    case Unit(k) => if k < 20 then TO19[k] else ""
    case Ten(k) => if k < 10 then TENS[k] else ""
    case Hundred => "Hundred"
    case Thousand => "Thousand"
    case Million => "Million"
    case Billion => "Billion"
    case Dollars => "Dollars"
    case And => "and"
    case Cents => "Cents"
  }

  /** The words separated by single spaces. */
  function Spelled(ws: seq<Word>): string
    requires ws != []
  {
    if |ws| == 1 then Spell(ws[0]) else Spell(ws[0]) + " " + Spelled(ws[1..])
  }

  lemma {:induction false} SpelledConcat(a: seq<Word>, b: seq<Word>)
    requires a != [] && b != []
    ensures Spelled(a + b) == Spelled(a) + " " + Spelled(b)
    decreases |a|
  {
    var ab := a + b;
    assert ab[0] == a[0];
    if |a| == 1 {
      assert ab[1..] == b;
      assert Spelled(ab) == Spell(a[0]) + " " + Spelled(b);
    } else {
      assert ab[1..] == a[1..] + b;
      SpelledConcat(a[1..], b);
      assert Spelled(ab) == Spell(a[0]) + " " + Spelled(a[1..] + b);
      assert Spelled(a) == Spell(a[0]) + " " + Spelled(a[1..]);
    }
  }

  /** The spelling of `n` word by word, following the speller's cases. */
  function Tokens(n: nat): (ws: seq<Word>)
    ensures ws != []
    decreases n
  {
    if n < 20 then [Unit(n)]
    else if n < 100 then [Ten(n / 10)] + (if n % 10 == 0 then [] else [Unit(n % 10)])
    else if n < 1000 then [Unit(n / 100), Hundred] + (if n % 100 == 0 then [] else Tokens(n % 100))
    else if n >= 1000000000 then
      Tokens(n / 1000000000) + [Billion] + (if n % 1000000000 == 0 then [] else Tokens(n % 1000000000))
    else if n >= 1000000 then
      Tokens(n / 1000000) + [Million] + (if n % 1000000 == 0 then [] else Tokens(n % 1000000))
    else
      Tokens(n / 1000) + [Thousand] + (if n % 1000 == 0 then [] else Tokens(n % 1000))
  }

  /** The spelling of three runs of words is theirs, space-separated; the last run may be empty. */
  lemma SpelledThree(front: seq<Word>, mid: seq<Word>, rest: seq<Word>)
    requires front != [] && mid != []
    ensures Spelled(front + mid + rest) == Spelled(front) + " " + Spelled(mid) + (if rest == [] then "" else " " + Spelled(rest))
  {
    SpelledConcat(front, mid);
    var fm := front + mid;
    if rest == [] {
      assert fm + rest == fm;
    } else {
      SpelledConcat(fm, rest);
    }
  }

  /** Below one hundred: a table word, or a tens word and a unit word. */
  lemma WordsSpelledBelow100(n: nat)
    requires n < 100
    ensures Words(n) == Spelled(Tokens(n))
  {
    if 20 <= n && n % 10 != 0 {
      assert Tokens(n) == [Ten(n / 10), Unit(n % 10)];
      assert Spelled([Ten(n / 10), Unit(n % 10)]) == TENS[n / 10] + " " + TO19[n % 10];
    }
  }

  /** The speller's hundreds case, with the word "Hundred" set apart. */
  lemma WordsAtHundreds(n: nat)
    requires 100 <= n < 1000
    ensures Words(n) == TO19[n / 100] + " " + "Hundred" + (if n % 100 == 0 then "" else " " + Words(n % 100))
  {
    assert " Hundred" == " " + "Hundred";
  }

  /** Hundreds: the hundreds digit, "Hundred", and the spelled remainder when it is not zero. */
  lemma WordsSpelledHundreds(n: nat)
    requires 100 <= n < 1000
    requires n % 100 != 0 ==> Words(n % 100) == Spelled(Tokens(n % 100))
    ensures Words(n) == Spelled(Tokens(n))
  {
    var rest := if n % 100 == 0 then [] else Tokens(n % 100);
    assert Tokens(n) == [Unit(n / 100)] + [Hundred] + rest;
    WordsAtHundreds(n);
    SpelledThree([Unit(n / 100)], [Hundred], rest);
    assert Spelled([Unit(n / 100)]) == TO19[n / 100];
    assert Spelled([Hundred]) == "Hundred";
  }

  /** The scale the speller uses for a number of at least one thousand. */
  function ScaleOf(n: nat): (p: nat)
    ensures p in {1000, 1000000, 1000000000}
  {
    if n >= 1000000000 then 1000000000 else if n >= 1000000 then 1000000 else 1000
  }

  /** The scale word the speller uses for a number of at least one thousand. */
  function ScaleWord(n: nat): Word
  {
    if n >= 1000000000 then Billion else if n >= 1000000 then Million else Thousand
  }

  /** The scale name the speller writes for a number of at least one thousand. */
  function ScaleName(n: nat): string
  {
    if n >= 1000000000 then "Billion" else if n >= 1000000 then "Million" else "Thousand"
  }

  /** The speller's scale case, with the scale named. */
  lemma WordsAtScale(n: nat)
    requires n >= 1000
    ensures var p := ScaleOf(n);
      Words(n) == Words(n / p) + " " + ScaleName(n) + (if n % p == 0 then "" else " " + Words(n % p))
  {
    if n >= 1000000000 {
      ScaleCase(n, 1000000000, " Billion", "Billion");
    } else if n >= 1000000 {
      ScaleCase(n, 1000000, " Million", "Million");
    } else {
      ScaleCase(n, 1000, " Thousand", "Thousand");
    }
  }

  /** One scale case of the speller, with the scale name split from its leading space. */
  lemma ScaleCase(n: nat, p: nat, spaced: string, name: string)
    requires p > 0 && spaced == " " + name
    requires Words(n) == Words(n / p) + spaced + (if n % p == 0 then "" else " " + Words(n % p))
    ensures Words(n) == Words(n / p) + " " + name + (if n % p == 0 then "" else " " + Words(n % p))
  {
  }

  /** The scale word is spelled as the speller names the scale. */
  lemma ScaleSpelled(n: nat)
    ensures Spelled([ScaleWord(n)]) == ScaleName(n)
  {
  }

  /** The word form's scale case. */
  lemma TokensAtScale(n: nat)
    requires n >= 1000
    ensures var p := ScaleOf(n);
      Tokens(n) == Tokens(n / p) + [ScaleWord(n)] + (if n % p == 0 then [] else Tokens(n % p))
  {
  }

  /** The scale cases, given the spelling of the quotient and of the remainder. */
  lemma WordsSpelledScaled(n: nat)
    requires n >= 1000
    requires Words(n / ScaleOf(n)) == Spelled(Tokens(n / ScaleOf(n)))
    requires n % ScaleOf(n) != 0 ==> Words(n % ScaleOf(n)) == Spelled(Tokens(n % ScaleOf(n)))
    ensures Words(n) == Spelled(Tokens(n))
  {
    var p := ScaleOf(n);
    WordsAtScale(n);
    TokensAtScale(n);
    ScaleSpelled(n);
    SpelledThree(Tokens(n / p), [ScaleWord(n)], if n % p == 0 then [] else Tokens(n % p));
  }

  /** The speller's string is exactly its words joined by single spaces. */
  lemma {:induction false} WordsSpelled(n: nat)
    ensures Words(n) == Spelled(Tokens(n))
    decreases n
  {
    if n < 100 {
      WordsSpelledBelow100(n);
    } else if n < 1000 {
      if n % 100 != 0 {
        WordsSpelled(n % 100);
      }
      WordsSpelledHundreds(n);
    } else {
      var p := ScaleOf(n);
      WordsSpelled(n / p);
      if n % p != 0 {
        WordsSpelled(n % p);
      }
      WordsSpelledScaled(n);
    }
  }

  /** The words that can occur in the spelling of a positive number. */
  predicate NumberWord(w: Word)
  {
    (w.Unit? && 1 <= w.k < 20) || (w.Ten? && 2 <= w.k < 10)
    || w == Hundred || w == Thousand || w == Million || w == Billion
  }

  /**
   * A positive number is spelled with number words only: never "Zero"
   * (zero remainders are left out at every level), and never one of the
   * amount words.
   */
  lemma {:induction false} TokensVocabulary(n: nat)
    requires n >= 1
    ensures forall k :: 0 <= k < |Tokens(n)| ==> NumberWord(Tokens(n)[k])
    decreases n
  {
    if n < 100 {
    } else if n < 1000 {
      if n % 100 != 0 {
        TokensVocabulary(n % 100);
      }
    } else {
      var p: nat := if n >= 1000000000 then 1000000000 else if n >= 1000000 then 1000000 else 1000;
      TokensVocabulary(n / p);
      if n % p != 0 {
        TokensVocabulary(n % p);
      }
    }
  }

  /** The reading state: completed groups and the group being read. */
  datatype Tally = Tally(total: nat, current: nat)

  /** How a reader takes in one word of a number. */
  function Take1(t: Tally, w: Word): Tally
  {
    match w
    case Unit(k) => Tally(t.total, t.current + k)
    case Ten(k) => Tally(t.total, t.current + 10 * k)
    case Hundred => Tally(t.total, t.current * 100)
    case Thousand => Tally(t.total + t.current * 1000, 0)
    case Million => Tally(t.total + t.current * 1000000, 0)
    case Billion => Tally(t.total + t.current * 1000000000, 0)
    case _ => t
  }

  function Run(t: Tally, ws: seq<Word>): Tally
    decreases |ws|
  {
    if ws == [] then t else Run(Take1(t, ws[0]), ws[1..])
  }

  /** The number a sequence of number words names. */
  function Evaluate(ws: seq<Word>): nat
  {
    var t := Run(Tally(0, 0), ws);
    t.total + t.current
  }

  lemma {:induction false} RunConcat(t: Tally, a: seq<Word>, b: seq<Word>)
    ensures Run(t, a + b) == Run(Run(t, a), b)
    decreases |a|
  {
    if a == [] {
      assert a + b == b;
    } else {
      assert (a + b)[1..] == a[1..] + b;
      RunConcat(Take1(t, a[0]), a[1..], b);
    }
  }

  /** Below one hundred the words add up in the current group. */
  lemma Below100(n: nat, t: Tally)
    requires n < 100
    ensures Run(t, Tokens(n)) == Tally(t.total, t.current + n)
  {
    if 20 <= n && n % 10 != 0 {
      assert Tokens(n) == [Ten(n / 10), Unit(n % 10)];
      assert Run(t, Tokens(n)) == Run(Tally(t.total, t.current + 10 * (n / 10)), [Unit(n % 10)]);
    } else if 20 <= n {
      assert Run(t, Tokens(n)) == Run(Tally(t.total, t.current + 10 * (n / 10)), []);
    }
  }

  /** Below one thousand the words build the current group from an empty one. */
  lemma Below1000(n: nat, total: nat)
    requires n < 1000
    ensures Run(Tally(total, 0), Tokens(n)) == Tally(total, n)
  {
    if n >= 100 {
      var rest := if n % 100 == 0 then [] else Tokens(n % 100);
      assert Tokens(n) == [Unit(n / 100), Hundred] + rest;
      RunConcat(Tally(total, 0), [Unit(n / 100), Hundred], rest);
      var h := n / 100;
      assert [Unit(h), Hundred][1..] == [Hundred] && [Hundred][1..] == [];
      assert Run(Tally(total, 0), [Unit(h), Hundred]) == Run(Tally(total, h), [Hundred]);
      assert Run(Tally(total, h), [Hundred]) == Tally(total, h * 100);
      if n % 100 != 0 {
        Below100(n % 100, Tally(total, n / 100 * 100));
      }
    } else {
      Below100(n, Tally(total, 0));
    }
  }

  /** Reading the spelling of any number below a trillion gives that number back. */
  lemma {:induction false} ReadBack(n: nat, total: nat)
    requires n < 1000000000000
    ensures var t := Run(Tally(total, 0), Tokens(n)); t.total + t.current == total + n
    decreases n
  {
    if n < 1000 {
      Below1000(n, total);
    } else {
      var p: nat := if n >= 1000000000 then 1000000000 else if n >= 1000000 then 1000000 else 1000;
      var scale := if n >= 1000000000 then Billion else if n >= 1000000 then Million else Thousand;
      var q := n / p;
      assert q < 1000;
      var rest := if n % p == 0 then [] else Tokens(n % p);
      assert Tokens(n) == Tokens(q) + [scale] + rest;
      Below1000(q, total);
      RunConcat(Tally(total, 0), Tokens(q), [scale]);
      RunConcat(Tally(total, 0), Tokens(q) + [scale], rest);
      assert Run(Tally(total, 0), Tokens(q) + [scale]) == Tally(total + q * p, 0);
      if n % p != 0 {
        ReadBack(n % p, total + q * p);
      }
    }
  }

  /** The spelling names the number: `Evaluate` inverts `Tokens` below a trillion. */
  lemma SpellingRoundTrip(n: nat)
    requires n < 1000000000000
    ensures Evaluate(Tokens(n)) == n
  {
    ReadBack(n, 0);
  }

  /** The words of an amount: dollars, then the cents clause when there are cents. */
  function AmountTokens(dollars: nat, cents: nat): (ws: seq<Word>)
  {
    Tokens(dollars) + [Dollars] + (if cents > 0 then [And] + Tokens(cents) + [Cents] else [])
  }

  /**
   * The total in words: "Zero Dollars" or the spelled dollars and
   * "Dollars", then "and ... Cents" only when there are cents, all upper case.
   */
  function AmountInWords(dollars: nat, cents: nat): string
  {
    var first := if dollars == 0 then "Zero Dollars" else Words(dollars) + " Dollars";
    var parts := [first] + (if cents > 0 then ["and " + Words(cents) + " Cents"] else []);
    Upper(Join(parts, ' '))
  }

  /** The dollars part of the amount line is the spelling of its words. */
  lemma DollarsPart(dollars: nat)
    ensures (if dollars == 0 then "Zero Dollars" else Words(dollars) + " Dollars") == Spelled(Tokens(dollars) + [Dollars])
  {
    WordsSpelled(dollars);
    SpelledConcat(Tokens(dollars), [Dollars]);
    assert Spelled([Dollars]) == "Dollars";
    assert " Dollars" == " " + "Dollars";
    if dollars == 0 {
      assert Words(0) == "Zero";
      assert "Zero Dollars" == "Zero" + " " + "Dollars";
    }
  }

  /** The cents clause of the amount line is the spelling of its words. */
  lemma CentsPart(cents: nat)
    requires cents > 0
    ensures "and " + Words(cents) + " Cents" == Spelled([And] + Tokens(cents) + [Cents])
  {
    WordsSpelled(cents);
    SpelledThree([And], Tokens(cents), [Cents]);
    assert Spelled([And]) == "and";
    assert Spelled([Cents]) == "Cents";
    assert "and " == "and" + " ";
    assert " Cents" == " " + "Cents";
  }

  /** The amount line is the upper-cased spelling of the amount's words. */
  lemma AmountSpelled(dollars: nat, cents: nat)
    ensures AmountInWords(dollars, cents) == Upper(Spelled(AmountTokens(dollars, cents)))
  {
    DollarsPart(dollars);
    var first := if dollars == 0 then "Zero Dollars" else Words(dollars) + " Dollars";
    var ws := Tokens(dollars) + [Dollars];
    if cents > 0 {
      CentsPart(cents);
      var second := "and " + Words(cents) + " Cents";
      var cs := [And] + Tokens(cents) + [Cents];
      SpelledConcat(ws, cs);
      assert AmountTokens(dollars, cents) == ws + cs;
      assert Join([first, second], ' ') == first + " " + second;
    } else {
      assert AmountTokens(dollars, cents) == ws;
      assert Join([first], ' ') == first;
    }
  }

  /** Reads an amount line's words back into dollars and cents. */
  function ReadAmount(ws: seq<Word>): Option<(nat, nat)>
  {
    if Dollars !in ws then None
    else
      var i := FirstIndex(ws, Dollars);
      var rest := ws[i + 1..];
      if rest == [] then Some((Evaluate(ws[..i]), 0))
      else if |rest| >= 2 && rest[0] == And && rest[|rest| - 1] == Cents then
        Some((Evaluate(ws[..i]), Evaluate(rest[1..|rest| - 1])))
      else None
  }

  /** No amount word occurs in a spelled number, and "Zero" only in the spelling of zero. */
  lemma NoAmountWords(n: nat)
    ensures Dollars !in Tokens(n) && And !in Tokens(n) && Cents !in Tokens(n)
    ensures Unit(0) in Tokens(n) <==> n == 0
  {
    if n >= 1 {
      TokensVocabulary(n);
    }
  }

  /** Reading an amount line splits it at its first "Dollars". */
  lemma ReadAmountSplit(d: seq<Word>, tail: seq<Word>)
    requires Dollars !in d
    ensures ReadAmount(d + [Dollars] + tail) ==
      if tail == [] then Some((Evaluate(d), 0))
      else if |tail| >= 2 && tail[0] == And && tail[|tail| - 1] == Cents then Some((Evaluate(d), Evaluate(tail[1..|tail| - 1])))
      else None
  {
    var ws := d + [Dollars] + tail;
    assert ws[|d|] == Dollars && ws[..|d|] == d;
    assert FirstIndex(ws, Dollars) == |d|;
    assert ws[|d| + 1..] == tail;
  }

  /**
   * The amount line says exactly the amount: read back, it gives the
   * dollars and cents; "Zero" appears only for zero dollars and the cents
   * clause only for a non-zero number of cents.
   */
  lemma AmountRoundTrip(dollars: nat, cents: nat)
    requires dollars < 1000000000000 && cents < 1000000000000
    ensures ReadAmount(AmountTokens(dollars, cents)) == Some((dollars, cents))
    ensures Unit(0) in AmountTokens(dollars, cents) <==> dollars == 0
    ensures Cents in AmountTokens(dollars, cents) <==> cents > 0
  {
    var d := Tokens(dollars);
    var tail := CentsTail(cents);
    assert AmountTokens(dollars, cents) == d + [Dollars] + tail;
    NoAmountWords(dollars);
    ReadAmountSplit(d, tail);
    SpellingRoundTrip(dollars);
    CentsTailReads(cents);
  }

  /** The words after "Dollars": "and", the cents and "Cents", when there are cents. */
  function CentsTail(cents: nat): seq<Word>
  {
    if cents > 0 then [And] + Tokens(cents) + [Cents] else []
  }

  /** The cents clause is read back as the cents, and is the only place "Cents" appears. */
  lemma CentsTailReads(cents: nat)
    requires cents < 1000000000000
    ensures var tail := CentsTail(cents);
      (tail == [] <==> cents == 0) &&
      (cents > 0 ==> |tail| >= 2 && tail[0] == And && tail[|tail| - 1] == Cents && Evaluate(tail[1..|tail| - 1]) == cents) &&
      (Cents in tail <==> cents > 0) && Unit(0) !in tail
  {
    if cents > 0 {
      var tail := CentsTail(cents);
      NoAmountWords(cents);
      SpellingRoundTrip(cents);
      assert tail[1..|tail| - 1] == Tokens(cents);
    }
  }

  /** Worked example: no dollars and no cents. */
  lemma ZeroAmountExample()
    ensures AmountInWords(0, 0) == "ZERO DOLLARS"
  {
    assert Join(["Zero Dollars"], ' ') == "Zero Dollars";
  }

  /** Worked example: seventy-three dollars and fifty cents. */
  lemma AmountExample()
    ensures AmountInWords(73, 50) == "SEVENTY THREE DOLLARS AND FIFTY CENTS"
  {
    ExampleLine();
    ExampleUpper();
    assert AmountInWords(73, 50) == Upper("Seventy Three Dollars and Fifty Cents");
  }

  /** The example's line before upper-casing. */
  lemma ExampleLine()
    ensures Join([Words(73) + " Dollars", "and " + Words(50) + " Cents"], ' ') == "Seventy Three Dollars and Fifty Cents"
  {
    ExampleWords();
    var a, b := "Seventy Three Dollars", "and Fifty Cents";
    ExamplePieces();
    JoinTwo(a, b);
  }

  lemma ExampleWords()
    ensures Words(73) == "Seventy Three" && Words(50) == "Fifty"
  {
  }

  lemma ExamplePieces()
    ensures "Seventy Three" + " Dollars" == "Seventy Three Dollars"
    ensures "and " + "Fifty" + " Cents" == "and Fifty Cents"
    ensures "Seventy Three Dollars" + " " + "and Fifty Cents" == "Seventy Three Dollars and Fifty Cents"
  {
  }

  lemma JoinTwo(a: string, b: string)
    ensures Join([a, b], ' ') == a + " " + b
  {
  }

  /** The example's upper-casing, taken in two pieces. */
  lemma ExampleUpper()
    ensures Upper("Seventy Three Dollars and Fifty Cents") == "SEVENTY THREE DOLLARS AND FIFTY CENTS"
  {
    ExampleHalves();
    UpperFront();
    UpperBack();
    UpperAppend("Seventy Three ", "Dollars and Fifty Cents");
  }

  lemma ExampleHalves()
    ensures "Seventy Three " + "Dollars and Fifty Cents" == "Seventy Three Dollars and Fifty Cents"
    ensures "SEVENTY THREE " + "DOLLARS AND FIFTY CENTS" == "SEVENTY THREE DOLLARS AND FIFTY CENTS"
  {
  }

  lemma UpperFront()
    ensures Upper("Seventy Three ") == "SEVENTY THREE "
  {
  }

  lemma UpperBack()
    ensures Upper("Dollars and Fifty Cents") == "DOLLARS AND FIFTY CENTS"
  {
  }
}
