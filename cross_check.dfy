/** The two converters side by side: they spell 0..999 alike and cut an
    amount into the same pieces, and they print the same sentence below a
    thousand dollars; above it Go separates the ranges with ", " and always
    speaks the dollars ("one thousand, zero dollars"), and on a negative
    amount Go prints "zero dollars" where Python raises. */
module CrossCheck {
  import opened Results
  import opened Text
  import opened Numerals
  import opened Arith
  import PyWordify
  import GoWordify

  /** The Go maps hold the Python tables' words. */
  lemma TablesAgree(d: int)
    ensures 1 <= d <= 9 ==> GoWordify.Single(d) == PyWordify.SinglesWord(d)
    ensures 0 <= d <= 9 ==> GoWordify.Single(10 + d) == PyWordify.TeensWord(d)
    ensures 2 <= d <= 9 ==> GoWordify.Ten(d) == PyWordify.TensWord(d)
  {
    if 1 <= d <= 9 { SinglesAgree(d); }
    if 0 <= d <= 9 { TeensAgree(d); }
    if 2 <= d <= 9 { TensAgree(d); }
  }

  lemma SinglesAgree(d: int)
    requires 1 <= d <= 9
    ensures GoWordify.Single(d) == PyWordify.SinglesWord(d)
  {
  }

  lemma TeensAgree(d: int)
    requires 0 <= d <= 9
    ensures GoWordify.Single(10 + d) == PyWordify.TeensWord(d)
  {
  }

  lemma TensAgree(d: int)
    requires 2 <= d <= 9
    ensures GoWordify.Ten(d) == PyWordify.TensWord(d)
  {
  }

  /** Below a hundred the two spell alike. */
  lemma BelowHundredAgree(r: int)
    requires 1 <= r <= 99
    ensures GoWordify.BelowHundred(r) == PyWordify.BelowHundred(r / 10, r % 10)
  {
    if r > 19 {
      TensAgree(r / 10);
      if r % 10 > 0 {
        SinglesAgree(r % 10);
      }
    } else if r >= 10 {
      assert r / 10 == 1 && r == 10 + r % 10;
      TeensAgree(r % 10);
    } else {
      assert r / 10 == 0 && r % 10 == r;
      SinglesAgree(r);
    }
  }

  /** Python's words from three digits are Go's hundreds and the Go words
      below a hundred. */
  lemma SpelledGo(h: int, r: int)
    requires 0 <= h <= 9 && 0 <= r <= 99 && (h > 0 || r > 0)
    ensures PyWordify.Spelled(h, r / 10, r % 10)
            == (if h > 0 then GoWordify.Single(h) + " hundred" + (if r > 0 then " " else "") else "")
               + GoWordify.BelowHundred(r)
  {
    var b := GoWordify.BelowHundred(r);
    if r > 0 {
      BelowHundredAgree(r);
    }
    if h > 0 {
      SinglesAgree(h);
      var u := GoWordify.Single(h);
      AppendAssoc(u, " ", "hundred", "");
      assert PyWordify.HundredsWords(h) == u + " hundred";
      if r == 0 {
        EmptyAppend(u + " hundred");
        EmptyAppend(u + " hundred" + "");
      }
    } else {
      EmptyAppend(b);
    }
  }

  /** `getWordsFromInt` and `intToWord` spell every number 0..999 alike. */
  lemma SpellersAgree(n: int)
    requires 0 <= n <= 999
    ensures PyWordify.IntToWord(n) == Ok(GoWordify.GoSpell(n))
  {
    if n > 0 {
      PyWordify.IntToWordSpelled(n);
      PyWordify.DecimalDigits(n);
      DivModNested(n, 10, 10);
      SpelledGo(n / 100, n % 100);
    }
  }

  /** The Go greedy split of an amount Python accepts gives, range by range,
      the pieces Python reads with its `upper` and `lower` bounds, and the
      billion range nothing. */
  lemma PiecesAgree(num: Decimal)
    requires 0 <= num.mantissa < Pow10(9) * Pow10(num.scale) && num.scale <= 2
    ensures GoWordify.WholeCents(num) == PyWordify.Cents(num)
    ensures GoWordify.Value(GoWordify.Units(num), num.scale, 0) == 0
    ensures GoWordify.Value(GoWordify.Units(num), num.scale, 1) == PyWordify.Piece(PyWordify.Cents(num), 0)
    ensures GoWordify.Value(GoWordify.Units(num), num.scale, 2) == PyWordify.Piece(PyWordify.Cents(num), 1)
    ensures GoWordify.Value(GoWordify.Units(num), num.scale, 3) == PyWordify.Piece(PyWordify.Cents(num), 2)
    ensures GoWordify.Value(GoWordify.Units(num), num.scale, 4) == PyWordify.Piece(PyWordify.Cents(num), 3)
  {
    var c := PyWordify.Cents(num);
    DivModUnique(num.mantissa * 100, Pow10(num.scale), c, 0);
    PhraseDigits(c);
    GoWordify.GreedyBillion(num);
    GoWordify.GreedyMillion(num);
    GoWordify.GreedyThousand(num);
    GoWordify.GreedyDollar(num);
    GoWordify.GreedyCent(num);
  }

  /** The digits `GoPhrase` reads off whole cents are Python's pieces. */
  lemma PhraseDigits(c: nat)
    requires c < PyWordify.CentsLimit
    ensures c / Pow10(8) == PyWordify.Piece(c, 0)
    ensures (c / Pow10(5)) % 1000 == PyWordify.Piece(c, 1)
    ensures (c / 100) % 1000 == PyWordify.Piece(c, 2)
    ensures c % 100 == PyWordify.Piece(c, 3)
  {
    GoWordify.Pow10Table();
    SmallDivMod(c, 100_000_000_000);
    DivModNested(c, 1000, 100_000);
    DivModNested(c, 1000, 100);
    DivModUnique(c % 100, 1, c % 100, 0);
  }

  /** On text whose cleaning needs no trimming, Python accepts exactly the
      amounts Go accepts that are not negative and have at most two written
      fractional digits. */
  lemma Acceptance(text: string)
    requires PyWordify.Clean(text) == GoWordify.Cleaned(text)
    ensures PyWordify.WordsForAmount(text).Ok? <==>
              (GoWordify.CleanInput(text).Ok? && GoWordify.CleanInput(text).value.mantissa >= 0
               && GoWordify.CleanInput(text).value.scale <= 2)
  {
  }

  /** On a negative amount Go prints "zero dollars" where Python raises. */
  lemma NegativeDiffers(text: string, num: Decimal)
    requires PyWordify.Clean(text) == GoWordify.Cleaned(text)
    requires ParseNumeral(GoWordify.Cleaned(text)) == Some(num) && num.mantissa < 0
    ensures PyWordify.WordsForAmount(text) == Err(PyWordify.ValueError(PyWordify.Negative))
    ensures GoWordify.GoWordsFor(text) == Ok("zero dollars")
  {
    GoWordify.GoWordsNegative(text, num);
  }

  /** The sentence both print below a thousand dollars, from the dollar
      and cent pieces. */
  function DollarsAndCents(d: int, p: int): string {
    GoWordify.Segment(d, GoWordify.Plural("dollar", d))
    + (if p > 0 then " and " + GoWordify.Segment(p, GoWordify.Plural("cent", p)) else "")
  }

  /** Below a thousand dollars the million and thousand pieces are 0. */
  lemma SmallPieces(c: nat)
    requires c < 100_000
    ensures PyWordify.Piece(c, 0) == 0 && PyWordify.Piece(c, 1) == 0
  {
    SmallDivMod(c, 100_000_000_000);
    SmallDivMod(c, 100_000_000);
    SmallDivMod(c, 100_000);
  }

  /** Python's items below a thousand dollars: the dollars, then "and" and
      the cents when there are any. */
  lemma PyItemsBelowThousand(c: nat)
    requires c < 100_000
    ensures var d, p := PyWordify.Piece(c, 2), PyWordify.Piece(c, 3);
            PyWordify.PyItems(c)
            == [PyWordify.Number(d), PyWordify.Name(PyWordify.Plural("dollar", d))]
               + (if p > 0 then [PyWordify.And, PyWordify.Number(p), PyWordify.Name(PyWordify.Plural("cent", p))] else [])
  {
    SmallPieces(c);
    assert PyWordify.Plural("dollar", 0) == "dollars";
  }

  /** A plural name of solid text is solid text. */
  lemma PluralSolid(name: string, n: nat)
    requires Solid(name)
    ensures Solid(PyWordify.Plural(name, n))
  {
    var w := name + "s";
    assert w[0] == name[0] && w[|w| - 1] == 's';
  }

  /** The text of a number with its plural name. */
  lemma RenderedCounted(n: nat, name: string)
    requires n <= 999 && Solid(name)
    ensures PyWordify.WellFormed([PyWordify.Number(n), PyWordify.Name(PyWordify.Plural(name, n))])
    ensures PyWordify.Rendered([PyWordify.Number(n), PyWordify.Name(PyWordify.Plural(name, n))])
            == [GoWordify.GoSpell(n), GoWordify.Plural(name, n)]
  {
    PluralSolid(name, n);
    PyWordify.RenderedTwo(PyWordify.Number(n), PyWordify.Name(PyWordify.Plural(name, n)));
    SpellersAgree(n);
  }

  /** The text of those items: the spelled numbers and the names. */
  lemma RenderedBelowThousand(d: nat, p: nat)
    requires d <= 999 && p <= 99
    ensures var items := [PyWordify.Number(d), PyWordify.Name(PyWordify.Plural("dollar", d))]
                         + (if p > 0 then [PyWordify.And, PyWordify.Number(p), PyWordify.Name(PyWordify.Plural("cent", p))] else []);
            PyWordify.WellFormed(items)
            && PyWordify.Rendered(items)
               == [GoWordify.GoSpell(d), GoWordify.Plural("dollar", d)]
                  + (if p > 0 then ["and", GoWordify.GoSpell(p), GoWordify.Plural("cent", p)] else [])
  {
    assert Solid("dollar");
    RenderedCounted(d, "dollar");
    var dollars := [PyWordify.Number(d), PyWordify.Name(PyWordify.Plural("dollar", d))];
    if p > 0 {
      RenderedAndCents(p);
      var cents := [PyWordify.And, PyWordify.Number(p), PyWordify.Name(PyWordify.Plural("cent", p))];
      PyWordify.RenderedAppend(dollars, cents);
    } else {
      assert dollars + [] == dollars;
    }
  }

  /** The text of "and" and a number of cents. */
  lemma RenderedAndCents(p: nat)
    requires 1 <= p <= 99
    ensures PyWordify.WellFormed([PyWordify.And, PyWordify.Number(p), PyWordify.Name(PyWordify.Plural("cent", p))])
    ensures PyWordify.Rendered([PyWordify.And, PyWordify.Number(p), PyWordify.Name(PyWordify.Plural("cent", p))])
            == ["and", GoWordify.GoSpell(p), GoWordify.Plural("cent", p)]
  {
    assert Solid("cent");
    PluralSolid("cent", p);
    PyWordify.RenderedThree(PyWordify.And, PyWordify.Number(p), PyWordify.Name(PyWordify.Plural("cent", p)));
    SpellersAgree(p);
  }

  /** Joining those texts with spaces. */
  lemma JoinBelowThousand(a: string, b: string, p: int, x: string, y: string)
    ensures Join(" ", [a, b] + (if p > 0 then ["and", x, y] else []))
            == a + " " + b + (if p > 0 then " and " + (x + " " + y) else "")
  {
    JoinPair(" ", a, b);
    if p > 0 {
      JoinConcat(" ", [a, b], ["and", x, y]);
      JoinTriple(" ", "and", x, y);
    } else {
      assert [a, b] + [] == [a, b];
    }
  }

  /** Python's sentence below a thousand dollars. */
  lemma PyWordsBelowThousand(c: nat)
    requires c < 100_000
    ensures PyWordify.PyWords(c) == DollarsAndCents(PyWordify.Piece(c, 2), PyWordify.Piece(c, 3))
  {
    var d, p := PyWordify.Piece(c, 2), PyWordify.Piece(c, 3);
    PyWordify.PiecesExact(c);
    PyItemsBelowThousand(c);
    RenderedBelowThousand(d, p);
    var words := [GoWordify.GoSpell(d), GoWordify.Plural("dollar", d)]
                 + (if p > 0 then ["and", GoWordify.GoSpell(p), GoWordify.Plural("cent", p)] else []);
    assert PyWordify.Rendered(PyWordify.PyItems(c)) == words;
    assert PyWordify.PyWords(c) == Join(" ", words);
    JoinBelowThousand(GoWordify.GoSpell(d), GoWordify.Plural("dollar", d), p, GoWordify.GoSpell(p), GoWordify.Plural("cent", p));
  }

  /** Go's sentence below a thousand dollars. */
  lemma GoPhraseBelowThousand(c: nat)
    requires c < 100_000
    ensures GoWordify.GoPhrase(c) == DollarsAndCents(PyWordify.Piece(c, 2), PyWordify.Piece(c, 3))
  {
    PhraseDigits(c);
    SmallPieces(c);
    var d := PyWordify.Piece(c, 2);
    assert Join(", ", [GoWordify.Segment(d, GoWordify.Plural("dollar", d))]) == GoWordify.Segment(d, GoWordify.Plural("dollar", d));
  }

  /** Below a thousand dollars, on text that needs no trimming, the two
      converters print the same sentence. */
  lemma AgreeBelowThousand(text: string, num: Decimal)
    requires PyWordify.Clean(text) == GoWordify.Cleaned(text)
    requires ParseNumeral(GoWordify.Cleaned(text)) == Some(num)
    requires 0 <= num.mantissa < Pow10(9) * Pow10(num.scale) && num.scale <= 2
    requires PyWordify.Cents(num) < 100_000
    ensures PyWordify.WordsForAmount(text).Ok? && GoWordify.GoWordsFor(text).Ok?
    ensures PyWordify.WordsForAmount(text).value == GoWordify.GoWordsFor(text).value
  {
    var c := PyWordify.Cents(num);
    PyWordify.WordsOfAccepted(text, num);
    GoWordify.GoWordsPhrase(text, num);
    PiecesAgree(num);
    PyWordsBelowThousand(c);
    GoPhraseBelowThousand(c);
  }

  /** The pieces of a whole number of thousands of dollars. */
  lemma ThousandPieces(t: nat)
    requires 1 <= t <= 999
    ensures t * 100_000 < PyWordify.CentsLimit
    ensures PyWordify.Piece(t * 100_000, 0) == 0 && PyWordify.Piece(t * 100_000, 1) == t
    ensures PyWordify.Piece(t * 100_000, 2) == 0 && PyWordify.Piece(t * 100_000, 3) == 0
  {
    var c := t * 100_000;
    DivModUnique(c, 100_000, t, 0);
    DivModUnique(c, 100, t * 1000, 0);
    SmallDivMod(c, 100_000_000);
    SmallDivMod(c, 100_000_000_000);
  }

  /** Python on a whole number of thousands of dollars: "<t> thousand
      dollars". */
  lemma PyWholeThousands(t: nat)
    requires 1 <= t <= 999
    ensures PyWordify.PyWords(t * 100_000) == GoWordify.GoSpell(t) + " thousand dollars"
  {
    ThousandItems(t);
    RenderedNumberNames(t, "thousand", "dollars");
    JoinTriple(" ", GoWordify.GoSpell(t), "thousand", "dollars");
    ThousandDollarsText(GoWordify.GoSpell(t));
  }

  /** Python's items for a whole number of thousands of dollars. */
  lemma ThousandItems(t: nat)
    requires 1 <= t <= 999
    ensures t * 100_000 < PyWordify.CentsLimit
    ensures PyWordify.PyItems(t * 100_000) == [PyWordify.Number(t), PyWordify.Name("thousand"), PyWordify.Name("dollars")]
  {
    ThousandPieces(t);
  }

  /** The text of a number followed by two names. */
  lemma RenderedNumberNames(n: nat, a: string, b: string)
    requires n <= 999 && Solid(a) && Solid(b)
    ensures PyWordify.WellFormed([PyWordify.Number(n), PyWordify.Name(a), PyWordify.Name(b)])
    ensures PyWordify.Rendered([PyWordify.Number(n), PyWordify.Name(a), PyWordify.Name(b)]) == [GoWordify.GoSpell(n), a, b]
  {
    PyWordify.RenderedThree(PyWordify.Number(n), PyWordify.Name(a), PyWordify.Name(b));
    SpellersAgree(n);
  }

  lemma ThousandDollarsText(a: string)
    ensures a + " " + "thousand" + " " + "dollars" == a + " thousand dollars"
    ensures a + " " + "thousand" + ", " + ("zero" + " " + "dollars") == a + " thousand, zero dollars"
  {
  }

  /** Go on a whole number of thousands of dollars: "<t> thousand, zero
      dollars", since the dollar range is spoken even at zero. */
  lemma GoWholeThousands(t: nat)
    requires 1 <= t <= 999
    ensures GoWordify.GoPhrase(t * 100_000) == GoWordify.GoSpell(t) + " thousand, zero dollars"
  {
    var c := t * 100_000;
    ThousandPieces(t);
    PhraseDigits(c);
    var thousands, dollars := GoWordify.Segment(t, "thousand"), GoWordify.Segment(0, GoWordify.Plural("dollar", 0));
    assert GoWordify.Plural("dollar", 0) == "dollars";
    assert GoWordify.GoSpell(0) == "zero";
    assert c / Pow10(8) == 0 && (c / Pow10(5)) % 1000 == t && (c / 100) % 1000 == 0 && c % 100 == 0;
    var segments: seq<string> := [] + [thousands] + [dollars];
    assert segments == [thousands, dollars];
    assert GoWordify.GoPhrase(c) == Join(", ", segments) + "";
    JoinPair(", ", thousands, dollars);
    ThousandDollarsText(GoWordify.GoSpell(t));
  }
}
