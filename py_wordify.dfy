/** The Python converter of test_wordify.py: `intToWord` spells 0..999,
    `wordify` cleans and validates a currency numeral, cuts it into million,
    thousand, dollar and cent pieces with the `ranges` table and joins their
    words. A validated amount is carried as a natural number of cents.

    Both converters add a plural "s", each in its own way (Python on a
    piece, Go on a record's value), so this module and `GoWordify` each keep
    their own `Label` and `Plural`; `CrossCheck` proves the sentences they
    build agree where the programs do. */
module PyWordify {
  import opened Results
  import opened Text
  import opened Numerals
  import opened Arith

  /** Why a `ValueError` was raised. */
  datatype Rejection = OutOfRange | TooLarge | Negative | TooPrecise

  /** The exceptions `wordify` lets escape: `decimal.InvalidOperation` for
      text that is not a numeral, `ValueError` for the rejections above. */
  datatype PyError = InvalidOperation | ValueError(why: Rejection)

  // ---------------------------------------------------------------------
  // words_dicts

  /** `words_dicts["singles"]`, indexed by the digit 0..9. */
  const Singles: seq<string> := ["zero", "one", "two", "three", "four", "five", "six", "seven", "eight", "nine"]

  /** `words_dicts["tens"]`, keyed 2..9: entry `d - 2` is the word for `d`. */
  const Tens: seq<string> := ["twenty", "thirty", "forty", "fifty", "sixty", "seventy", "eighty", "ninety"]

  /** `words_dicts["teens"]`, indexed by the units digit 0..9. */
  const Teens: seq<string> := ["ten", "eleven", "twelve", "thirteen", "fourteen", "fifteen", "sixteen", "seventeen", "eighteen", "nineteen"]

  function SinglesWord(d: int): string
    requires 0 <= d <= 9
  {
    Singles[d]
  }

  function TensWord(d: int): string
    requires 2 <= d <= 9
  {
    Tens[d - 2]
  }

  function TeensWord(d: int): string
    requires 0 <= d <= 9
  {
    Teens[d]
  }

  // ---------------------------------------------------------------------
  // intToWord

  /** `intToWord(number)`: "zero" for 0, otherwise the words of its three
      digits joined and stripped of the leading space. */
  function IntToWord(number: int): (r: Result<string, PyError>)
    ensures r.Ok? <==> 0 <= number <= 999
    ensures r.Err? ==> r.error == ValueError(OutOfRange)
  {
    if number < 0 || number > 999 then Err(ValueError(OutOfRange))
    else if number == 0 then Ok(SinglesWord(number))
    else
      DecimalDigits(number);
      Ok(Strip(JoinedWords(number / 100, (number % 100) / 10, number % 10)))
  }

  /** The hundreds, tens and units digits of 0..999. */
  lemma DecimalDigits(n: int)
    requires 0 <= n <= 999
    ensures 0 <= n / 100 <= 9 && 0 <= (n % 100) / 10 <= 9 && 0 <= n % 10 <= 9
    ensures n == 100 * (n / 100) + 10 * ((n % 100) / 10) + n % 10
  {
    DivModNested(n, 10, 10);
    assert n % 100 == 10 * ((n % 100) / 10) + (n % 100) % 10;
  }

  /** Three decimal digits, not all zero. */
  predicate NonzeroDigits(hundreds: int, tens: int, singles: int) {
    0 <= hundreds <= 9 && 0 <= tens <= 9 && 0 <= singles <= 9 && (hundreds > 0 || tens > 0 || singles > 0)
  }

  /** The words before `strip()`: they start out empty, each part is added
      with `" ".join` (so with a space in front), and a unit after a tens
      word with `"-".join`. */
  function JoinedWords(hundreds: int, tens: int, singles: int): string
    requires NonzeroDigits(hundreds, tens, singles)
  {
    JoinTens(JoinHundreds(hundreds), tens, singles)
  }

  /** The words once the hundreds digit is handled. */
  function JoinHundreds(hundreds: int): string
    requires 0 <= hundreds <= 9
  {
    if hundreds > 0 then Join(" ", ["", SinglesWord(hundreds), "hundred"]) else ""
  }

  /** The words once the tens and units digits are handled. */
  function JoinTens(words: string, tens: int, singles: int): string
    requires 0 <= tens <= 9 && 0 <= singles <= 9
  {
    if tens == 1 then Join(" ", [words, TeensWord(singles)])
    else if tens > 1 then
      var t := Join(" ", [words, TensWord(tens)]);
      if singles > 0 then Join("-", [t, SinglesWord(singles)]) else t
    else if singles > 0 then Join(" ", [words, SinglesWord(singles)])
    else words
  }

  /** The words below one hundred from its two digits (not both zero): a
      teen word, or a tens word with a hyphenated nonzero unit, or a unit
      word. */
  function BelowHundred(tens: int, singles: int): string
    requires 0 <= tens <= 9 && 0 <= singles <= 9 && (tens > 0 || singles > 0)
  {
    if tens == 1 then TeensWord(singles)
    else if tens > 1 then TensWord(tens) + (if singles > 0 then "-" + SinglesWord(singles) else "")
    else SinglesWord(singles)
  }

  /** English short-scale words from three digits: "<digit> hundred" if the
      hundreds digit is not zero, then the words below one hundred if any,
      separated by single spaces. */
  function Spelled(hundreds: int, tens: int, singles: int): string
    requires NonzeroDigits(hundreds, tens, singles)
  {
    if tens == 0 && singles == 0 then HundredsWords(hundreds)
    else if hundreds == 0 then BelowHundred(tens, singles)
    else HundredsWords(hundreds) + " " + BelowHundred(tens, singles)
  }

  function HundredsWords(d: int): string
    requires 1 <= d <= 9
  {
    SinglesWord(d) + " " + "hundred"
  }

  /** Every word of the tables but "zero" is free of the letter z, and none
      is empty or starts or ends with whitespace. */
  lemma TablesWithoutZ(d: int)
    ensures 1 <= d <= 9 ==> 'z' !in SinglesWord(d)
    ensures 2 <= d <= 9 ==> 'z' !in TensWord(d)
    ensures 0 <= d <= 9 ==> 'z' !in TeensWord(d)
    ensures 0 <= d <= 9 ==> |SinglesWord(d)| > 0 && Trimmed(SinglesWord(d)) && |TeensWord(d)| > 0 && Trimmed(TeensWord(d))
    ensures 2 <= d <= 9 ==> |TensWord(d)| > 0 && Trimmed(TensWord(d))
  {
    if 0 <= d <= 9 {
      SinglesShape(d);
      TeensShape(d);
    }
    if 2 <= d <= 9 {
      TensShape(d);
    }
  }

  lemma SinglesShape(d: int)
    requires 0 <= d <= 9
    ensures d > 0 ==> 'z' !in SinglesWord(d)
    ensures |SinglesWord(d)| > 0 && Trimmed(SinglesWord(d))
  {
  }

  lemma TeensShape(d: int)
    requires 0 <= d <= 9
    ensures 'z' !in TeensWord(d) && |TeensWord(d)| > 0 && Trimmed(TeensWord(d))
  {
  }

  lemma TensShape(d: int)
    requires 2 <= d <= 9
    ensures 'z' !in TensWord(d) && |TensWord(d)| > 0 && Trimmed(TensWord(d))
  {
  }

  lemma BelowHundredShape(tens: int, singles: int)
    requires 0 <= tens <= 9 && 0 <= singles <= 9 && (tens > 0 || singles > 0)
    ensures |BelowHundred(tens, singles)| > 0 && Trimmed(BelowHundred(tens, singles))
    ensures 'z' !in BelowHundred(tens, singles)
  {
    TablesWithoutZ(tens);
    TablesWithoutZ(singles);
    var w := BelowHundred(tens, singles);
    if tens > 1 && singles > 0 {
      var u := SinglesWord(singles);
      assert w == TensWord(tens) + "-" + u;
      assert w[|w| - 1] == u[|u| - 1];
    }
  }

  lemma HundredsWordsShape(d: int)
    requires 1 <= d <= 9
    ensures |HundredsWords(d)| > 0 && Trimmed(HundredsWords(d))
    ensures 'z' !in HundredsWords(d)
  {
    TablesWithoutZ(d);
    var u := SinglesWord(d);
    var w := HundredsWords(d);
    assert w == u + (" " + "hundred");
    assert w[0] == u[0] && w[|w| - 1] == 'd';
  }

  lemma SpelledShape(hundreds: int, tens: int, singles: int)
    requires NonzeroDigits(hundreds, tens, singles)
    ensures |Spelled(hundreds, tens, singles)| > 0 && Trimmed(Spelled(hundreds, tens, singles))
    ensures 'z' !in Spelled(hundreds, tens, singles)
  {
    if tens == 0 && singles == 0 {
      HundredsWordsShape(hundreds);
    } else if hundreds == 0 {
      BelowHundredShape(tens, singles);
    } else {
      HundredsWordsShape(hundreds);
      BelowHundredShape(tens, singles);
      var h, b := HundredsWords(hundreds), BelowHundred(tens, singles);
      var w := h + " " + b;
      assert w == Spelled(hundreds, tens, singles);
      assert w[0] == h[0] && w[|w| - 1] == b[|b| - 1];
      assert 'z' !in h + " ";
    }
  }

  /** Before the strip, the joined words are the short-scale words with one
      space in front. */
  lemma JoinedWordsPadded(hundreds: int, tens: int, singles: int)
    requires NonzeroDigits(hundreds, tens, singles)
    ensures JoinedWords(hundreds, tens, singles) == " " + Spelled(hundreds, tens, singles)
  {
    if tens == 0 && singles == 0 {
      JoinHundredsPadded(hundreds);
    } else if hundreds == 0 {
      JoinTensPadded("", tens, singles);
      EmptyAppend(" ");
    } else {
      JoinedWordsBoth(hundreds, tens, singles);
      var h, b := HundredsWords(hundreds), BelowHundred(tens, singles);
      AppendAssoc(" ", h, " ", b);
      AppendAssoc(h, " ", b, "");
    }
  }

  lemma JoinedWordsBoth(hundreds: int, tens: int, singles: int)
    requires 1 <= hundreds <= 9 && 0 <= tens <= 9 && 0 <= singles <= 9 && (tens > 0 || singles > 0)
    ensures JoinedWords(hundreds, tens, singles) == " " + HundredsWords(hundreds) + " " + BelowHundred(tens, singles)
  {
    JoinHundredsPadded(hundreds);
    JoinTensPadded(JoinHundreds(hundreds), tens, singles);
  }

  lemma JoinHundredsPadded(hundreds: int)
    requires 1 <= hundreds <= 9
    ensures JoinHundreds(hundreds) == " " + HundredsWords(hundreds)
  {
    JoinTriple(" ", "", SinglesWord(hundreds), "hundred");
  }

  /** Joining the tens and units onto the words so far adds a space and the
      words below one hundred. */
  lemma JoinTensPadded(words: string, tens: int, singles: int)
    requires 0 <= tens <= 9 && 0 <= singles <= 9 && (tens > 0 || singles > 0)
    ensures JoinTens(words, tens, singles) == words + " " + BelowHundred(tens, singles)
  {
    if tens == 1 {
      JoinPair(" ", words, TeensWord(singles));
    } else if tens > 1 && singles > 0 {
      JoinHyphenated(words, TensWord(tens), SinglesWord(singles));
    } else if tens > 1 {
      JoinPair(" ", words, TensWord(tens));
    } else {
      JoinPair(" ", words, SinglesWord(singles));
    }
  }

  lemma JoinHyphenated(words: string, t: string, u: string)
    ensures Join("-", [Join(" ", [words, t]), u]) == words + " " + (t + ("-" + u))
  {
    JoinPair(" ", words, t);
    JoinPair("-", words + " " + t, u);
  }

  /** `intToWord` gives, for 1..999, the short-scale words of its digits. */
  lemma IntToWordSpelled(n: int)
    requires 1 <= n <= 999
    ensures NonzeroDigits(n / 100, (n % 100) / 10, n % 10)
    ensures IntToWord(n) == Ok(Spelled(n / 100, (n % 100) / 10, n % 10))
  {
    DecimalDigits(n);
    var hundreds, tens, singles := n / 100, (n % 100) / 10, n % 10;
    JoinedWordsPadded(hundreds, tens, singles);
    SpelledShape(hundreds, tens, singles);
    StripTrimmed(Spelled(hundreds, tens, singles));
  }

  /** For 1..999 the words are never empty, have no leading or trailing
      whitespace, and hold no "zero" (not even the letter z). */
  lemma IntToWordShape(n: int)
    requires 1 <= n <= 999
    ensures |IntToWord(n).value| > 0 && Trimmed(IntToWord(n).value)
    ensures 'z' !in IntToWord(n).value
  {
    IntToWordSpelled(n);
    SpelledShape(n / 100, (n % 100) / 10, n % 10);
  }

  /** 0 is the only number spelled "zero". */
  lemma IntToWordZero(n: int)
    requires 0 <= n <= 999
    ensures IntToWord(n) == Ok("zero") <==> n == 0
  {
    if n != 0 {
      IntToWordShape(n);
      assert 'z' in "zero";
    }
  }

  // ---------------------------------------------------------------------
  // ranges

  /** One entry of `ranges`, with its bounds written in cents: the Decimal
      bounds 1000000000, 1000000, 1000, 1 and 0.01 dollars are
      100000000000, 100000000, 100000, 100 and 1 cents. */
  datatype Range = Range(name: string, upper: Bound, lower: Bound, plural: bool, mandatory: bool)

  /** A range bound in cents: never zero, so both divisions are defined. */
  type Bound = n: nat | n >= 1 witness 1

  const Ranges: seq<Range> := [
    Range("million", 100_000_000_000, 100_000_000, false, false),
    Range("thousand", 100_000_000, 100_000, false, false),
    Range("dollar", 100_000, 100, true, true),
    Range("cent", 100, 1, true, false)
  ]

  /** The largest amount `wordify` accepts is below this many cents. */
  const CentsLimit: nat := 100_000_000_000

  /** `(num % r["upper"]) // r["lower"]` for the k-th range. */
  function Piece(c: nat, k: nat): nat
    requires k < |Ranges|
  {
    (c % Ranges[k].upper) / Ranges[k].lower
  }

  /** Each piece of an accepted amount is in 0..999 (the cent piece in
      0..99), and the pieces recombine to the amount:
      million * 10^6 + thousand * 10^3 + dollar + cent / 100 dollars. */
  lemma PiecesExact(c: nat)
    requires c < CentsLimit
    ensures Piece(c, 0) <= 999 && Piece(c, 1) <= 999 && Piece(c, 2) <= 999 && Piece(c, 3) <= 99
    ensures Piece(c, 0) * 100_000_000 + Piece(c, 1) * 100_000 + Piece(c, 2) * 100 + Piece(c, 3) == c
  {
    SmallDivMod(c, 100_000_000_000);
    DivModNested(c, 1000, 100_000);
    DivModNested(c, 1000, 100);
    DivModNested(c, 100, 1);
    var m, t, d, p := c / 100_000_000, c / 100_000 % 1000, c / 100 % 1000, c % 100;
    assert Piece(c, 0) == m && Piece(c, 1) == t && Piece(c, 2) == d && Piece(c, 3) == p;
    DivModNested(c, 1000, 100_000_000);
    assert c / 100_000_000_000 == 0;
    assert m < 1000;
    DivModNested(c / 100, 1000, 1000);
    DivModNested(c / 100_000, 1000, 1);
    assert c / 100_000 == c / 100 / 1000;
    assert c / 100_000_000 == c / 100_000 / 1000;
    assert c == 100 * (c / 100) + p;
    assert c / 100 == 1000 * (c / 100_000) + d;
    assert c / 100_000 == 1000 * m + t;
  }

  /** `intToWord` never raises inside `wordify`. */
  lemma PieceSpellable(c: nat, k: nat)
    requires c < CentsLimit && k < |Ranges|
    ensures IntToWord(Piece(c, k)).Ok?
  {
    PiecesExact(c);
  }

  /** The label of a range for a piece: the name, with an "s" for plural
      ranges whose piece is not 1. */
  function Label(r: Range, piece: nat): string {
    if r.plural then Plural(r.name, piece) else r.name
  }

  /** One pass of the `for r in ranges` loop of `wordify`, on the words built
      so far. */
  function Step(ws: string, c: nat, k: nat): string
    requires c < CentsLimit && k < |Ranges|
  {
    var r := Ranges[k];
    var piece := Piece(c, k);
    if !(piece != 0 || r.mandatory) then ws
    else
      var ws1 := if |ws| > 0 && c % r.lower == 0 && piece != 0 then Join(" ", [ws, "and"]) else ws;
      var pieceLabel := Label(r, piece);
      if piece != 0 || |ws1| < 1 then
        PieceSpellable(c, k);
        Strip(Join(" ", [ws1, IntToWord(piece).value, pieceLabel]))
      else Strip(Join(" ", [ws1, pieceLabel]))
  }

  /** The words after the first `k` passes of the loop. */
  function Fold(c: nat, k: nat): string
    requires c < CentsLimit && k <= |Ranges|
  {
    if k == 0 then "" else Step(Fold(c, k - 1), c, k - 1)
  }

  /** Clean-up before parsing: every '$' and ',' removed, then whitespace
      trimmed. */
  function Clean(text: string): (r: string)
    ensures '$' !in r && ',' !in r
    ensures Trimmed(r)
  {
    var s := RemoveAll(RemoveAll(text, '$'), ',');
    RemoveAllSpec(text, '$');
    RemoveAllSpec(RemoveAll(text, '$'), ',');
    assert '$' !in s && ',' !in s by {
      assert multiset(s)['$'] == 0 && multiset(s)[','] == 0;
    }
    StripSpec(s);
    Strip(s)
  }

  /** Clean-up keeps every character other than '$', ',' and whitespace, as
      often as it occurs. */
  lemma CleanKeeps(text: string)
    ensures forall x :: x != '$' && x != ',' && !IsSpace(x) ==> multiset(Clean(text))[x] == multiset(text)[x]
  {
    var once := RemoveAll(text, '$');
    StripCounts(RemoveAll(once, ','));
    RemoveAllSpec(text, '$');
    RemoveAllSpec(once, ',');
  }

  /** The three checks of `wordify`, in the order `test_wordify.py` makes
      them: too large, then negative, then more than two written fractional
      digits. An accepted amount is returned in cents. */
  function Validate(d: Decimal): (r: Result<nat, PyError>)
    ensures r.Ok? <==> 0 <= d.mantissa < Pow10(9) * Pow10(d.scale) && d.scale <= 2
    ensures r.Ok? ==> r.value < CentsLimit && r.value * Pow10(d.scale) == d.mantissa * 100
    ensures r == Err(ValueError(TooLarge)) <==> d.mantissa >= Pow10(9) * Pow10(d.scale)
    ensures r == Err(ValueError(Negative)) <==> d.mantissa < 0
    ensures r == Err(ValueError(TooPrecise)) <==> 0 <= d.mantissa < Pow10(9) * Pow10(d.scale) && d.scale > 2
  {
    if d.mantissa >= Pow10(9) * Pow10(d.scale) then Err(ValueError(TooLarge))
    else if d.mantissa < 0 then Err(ValueError(Negative))
    else if d.scale > 2 then Err(ValueError(TooPrecise))
    else Ok(Cents(d))
  }

  /** An accepted amount in cents. */
  function Cents(d: Decimal): (c: nat)
    requires 0 <= d.mantissa < Pow10(9) * Pow10(d.scale) && d.scale <= 2
    ensures c < CentsLimit && c * Pow10(d.scale) == d.mantissa * 100
  {
    Pow10Small();
    if d.scale == 0 then d.mantissa * 100
    else if d.scale == 1 then d.mantissa * 10
    else d.mantissa
  }

  /** What `wordify(numberstring)` returns or raises. */
  function WordsForAmount(text: string): Result<string, PyError> {
    match ParseNumeral(Clean(text))
    case None => Err(InvalidOperation)
    case Some(d) =>
      match Validate(d)
      case Err(e) => Err(e)
      case Ok(c) => Ok(Fold(c, |Ranges|))
  }

  /** Text holding an ASCII character that is neither a digit, '.', a sign,
      '$', ',', whitespace, nor one `Decimal` can read in an exponent, an
      underscore or the words "Infinity", "Inf", "NaN" and "sNaN" (in any
      case) is not a numeral: `Decimal` raises. Outside ASCII, `Decimal`
      also reads other scripts' digits, which this model does not. */
  lemma ForeignRefused(text: string, x: char)
    requires x in text && x < '\U{0080}' && !IsDigit(x) && x !in "$,.+-_eEiInNfFtTyYaAsS" && !IsSpace(x)
    ensures WordsForAmount(text) == Err(InvalidOperation)
  {
    RemoveAllKeeps(text, '$', x);
    RemoveAllKeeps(RemoveAll(text, '$'), ',', x);
    StripKeeps(RemoveAll(RemoveAll(text, '$'), ','), x);
    var s := Clean(text);
    ForeignChar(s, x);
  }

  /** `wordify(numberstring)`: the clean-up and the checks, then the loop
      over the four ranges. */
  method Wordify(numberstring: string) returns (r: Result<string, PyError>)
    ensures r == WordsForAmount(numberstring)
  {
    var s := RemoveAll(numberstring, '$');
    s := RemoveAll(s, ',');
    s := Strip(s);
    var parsed := ParseNumeral(s);
    if parsed.None? {
      return Err(InvalidOperation);
    }
    var num := parsed.value;
    if num.mantissa >= Pow10(9) * Pow10(num.scale) {
      return Err(ValueError(TooLarge));
    }
    if num.mantissa < 0 {
      return Err(ValueError(Negative));
    }
    if num.scale > 2 {
      return Err(ValueError(TooPrecise));
    }
    var cents := Cents(num);
    var wordstring := RangesLoop(cents);
    return Ok(wordstring);
  }

  /** The `for r in ranges` loop of `wordify` on an accepted amount of
      `cents`. */
  method RangesLoop(cents: nat) returns (wordstring: string)
    requires cents < CentsLimit
    ensures wordstring == Fold(cents, |Ranges|)
  {
    wordstring := "";
    for i := 0 to |Ranges|
      invariant wordstring == Fold(cents, i)
    {
      assert Fold(cents, i + 1) == Step(wordstring, cents, i);
      var rg := Ranges[i];
      var piece := (cents % rg.upper) / rg.lower;
      if !(piece != 0 || rg.mandatory) {
        continue;
      }
      if |wordstring| > 0 && cents % rg.lower == 0 && piece != 0 {
        wordstring := Join(" ", [wordstring, "and"]);
      }
      var pieceLabel := if rg.plural && piece != 1 then rg.name + "s" else rg.name;
      if piece != 0 || |wordstring| < 1 {
        PieceSpellable(cents, i);
        var words := IntToWord(piece).value;
        wordstring := Strip(Join(" ", [wordstring, words, pieceLabel]));
      } else {
        wordstring := Strip(Join(" ", [wordstring, pieceLabel]));
      }
    }
  }

  // ---------------------------------------------------------------------
  // the words of an amount, item by item

  /** What `wordify` writes, one item at a time: the words of a number
      0..999, the name of a range with its plural "s", or the "and". */
  datatype Item = Number(value: nat) | Name(name: string) | And

  /** Items that can be written: numbers in 0..999, names that are solid
      text. */
  predicate WellFormed(items: seq<Item>) {
    forall i :: 0 <= i < |items| ==> match items[i]
      case Number(n) => n <= 999
      case Name(u) => Solid(u)
      case And => true
  }

  function Render(item: Item): string
    requires item.Number? ==> item.value <= 999
  {
    match item
    case Number(n) => IntToWord(n).value
    case Name(u) => u
    case And => "and"
  }

  /** The text of each item, in order. */
  function Rendered(items: seq<Item>): (r: seq<string>)
    requires WellFormed(items)
  {
    seq(|items|, i requires 0 <= i < |items| => Render(items[i]))
  }

  /** The text of two items is the text of each. */
  lemma RenderedTwo(x: Item, y: Item)
    requires WellFormed([x, y])
    ensures var items := [x, y];
            Rendered(items) == [Render(items[0]), Render(items[1])]
  {
  }

  /** The text of three items is the text of each. */
  lemma RenderedThree(x: Item, y: Item, z: Item)
    requires WellFormed([x, y, z])
    ensures var items := [x, y, z];
            Rendered(items) == [Render(items[0]), Render(items[1]), Render(items[2])]
  {
  }

  /** Every written item is solid text. */
  lemma RenderedSolid(items: seq<Item>)
    requires WellFormed(items)
    ensures forall i :: 0 <= i < |items| ==> Solid(Rendered(items)[i])
  {
    forall i | 0 <= i < |items|
      ensures Solid(Rendered(items)[i])
    {
      match items[i]
      case Number(n) => NumberSolid(n);
      case Name(u) =>
      case And =>
    }
  }

  lemma NumberSolid(n: nat)
    requires n <= 999
    ensures Solid(IntToWord(n).value)
  {
    if n > 0 {
      IntToWordShape(n);
    }
  }

  /** The items one pass of the loop adds for range `k`, given whether
      anything was written before. */
  function StepItems(preceded: bool, c: nat, k: nat): (items: seq<Item>)
    requires c < CentsLimit && k < |Ranges|
  {
    var r := Ranges[k];
    var piece := Piece(c, k);
    if !(piece != 0 || r.mandatory) then []
    else
      (if preceded && c % r.lower == 0 && piece != 0 then [And] else [])
      + (if piece != 0 || !preceded then [Number(piece), Name(Label(r, piece))] else [Name(Label(r, piece))])
  }

  /** The items `wordify` writes for an accepted amount of `c` cents, read
      off its pieces range by range. */
  function PyItems(c: nat): (items: seq<Item>)
    requires c < CentsLimit
  {
    MillionItems(c) + ThousandItems(c) + DollarItems(c) + CentItems(c)
  }

  /** A nonzero million piece with its name; nothing precedes it, so never
      an "and". */
  function MillionItems(c: nat): seq<Item>
    requires c < CentsLimit
  {
    var m := Piece(c, 0);
    if m > 0 then Counted(false, m, "million") else []
  }

  /** A nonzero thousand piece with its name, after an "and" when a million
      piece precedes and the lower pieces are zero. */
  function ThousandItems(c: nat): seq<Item>
    requires c < CentsLimit
  {
    var m, t, d, p := Piece(c, 0), Piece(c, 1), Piece(c, 2), Piece(c, 3);
    if t > 0 then Counted(m > 0 && d == 0 && p == 0, t, "thousand") else []
  }

  /** The dollar piece, always: a nonzero piece with its plural name (after
      an "and" when something precedes and no cents follow); a zero piece as
      "dollars" alone when something precedes, and as "zero dollars" when
      nothing does. */
  function DollarItems(c: nat): seq<Item>
    requires c < CentsLimit
  {
    var m, t, d, p := Piece(c, 0), Piece(c, 1), Piece(c, 2), Piece(c, 3);
    if d > 0 then Counted((m > 0 || t > 0) && p == 0, d, Plural("dollar", d))
    else if m > 0 || t > 0 then [Name("dollars")]
    else Counted(false, 0, "dollars")
  }

  /** A nonzero cent piece with its plural name, always after an "and"
      (the dollars precede it). */
  function CentItems(c: nat): seq<Item>
    requires c < CentsLimit
  {
    var p := Piece(c, 3);
    if p > 0 then Counted(true, p, Plural("cent", p)) else []
  }

  /** A number with its range name, after an "and" if asked for. */
  function Counted(withAnd: bool, n: nat, name: string): seq<Item> {
    (if withAnd then [And] else []) + [Number(n), Name(name)]
  }

  /** A plural range name: an "s" unless the number is 1. */
  function Plural(name: string, n: nat): string {
    if n == 1 then name else name + "s"
  }


  /** A range's label is solid text. */
  lemma LabelSolid(k: nat, piece: nat)
    requires k < |Ranges|
    ensures Solid(Label(Ranges[k], piece))
  {
    var r := Ranges[k];
    assert Solid(r.name);
    var w := r.name + "s";
    assert w[0] == r.name[0] && w[|w| - 1] == 's';
  }

  lemma StepItemsWellFormed(preceded: bool, c: nat, k: nat)
    requires c < CentsLimit && k < |Ranges|
    ensures WellFormed(StepItems(preceded, c, k))
  {
    PiecesExact(c);
    LabelSolid(k, Piece(c, k));
  }

  lemma RenderedAppend(xs: seq<Item>, ys: seq<Item>)
    requires WellFormed(xs) && WellFormed(ys)
    ensures WellFormed(xs + ys)
    ensures Rendered(xs + ys) == Rendered(xs) + Rendered(ys)
  {
    assert WellFormed(xs + ys) by {
      forall i | 0 <= i < |xs + ys|
        ensures (xs + ys)[i] == if i < |xs| then xs[i] else ys[i - |xs|]
      {
      }
    }
  }

  /** A pass of the loop on words that are the rendering of some items
      renders those items followed by the pass's own items: the `strip()`
      calls only ever remove the space that joining onto empty words puts
      in front. */
  lemma StepAppend(xs: seq<Item>, c: nat, k: nat)
    requires c < CentsLimit && k < |Ranges| && WellFormed(xs)
    ensures WellFormed(xs + StepItems(xs != [], c, k))
    ensures Step(Join(" ", Rendered(xs)), c, k) == Join(" ", Rendered(xs + StepItems(xs != [], c, k)))
  {
    var ys := StepItems(xs != [], c, k);
    StepItemsWellFormed(xs != [], c, k);
    RenderedAppend(xs, ys);
    RenderedSolid(xs);
    RenderedSolid(ys);
    JoinSolid(Rendered(xs));
    if ys == [] {
      assert xs + ys == xs;
    } else if xs == [] {
      assert xs + ys == ys;
      StepFirst(c, k);
    } else {
      var ws, rs := Join(" ", Rendered(xs)), Rendered(ys);
      JoinConcat(" ", Rendered(xs), rs);
      StepMore(ws, c, k);
    }
  }

  /** The first pass that writes anything writes the piece's number and
      label. */
  lemma StepFirst(c: nat, k: nat)
    requires c < CentsLimit && k < |Ranges| && StepItems(false, c, k) != []
    ensures WellFormed(StepItems(false, c, k))
    ensures Step("", c, k) == Join(" ", Rendered(StepItems(false, c, k)))
  {
    StepItemsWellFormed(false, c, k);
    var piece := Piece(c, k);
    PieceSpellable(c, k);
    var w, l := IntToWord(piece).value, Label(Ranges[k], piece);
    NumberSolid(piece);
    LabelSolid(k, piece);
    assert Rendered(StepItems(false, c, k)) == [w, l];
    JoinPair(" ", w, l);
    StripJoinWords("", w, l);
    assert Step("", c, k) == Strip(Join(" ", ["", w, l]));
  }

  /** A later pass that writes anything adds a space and its items' words to
      the solid words so far. */
  lemma StepMore(ws: string, c: nat, k: nat)
    requires c < CentsLimit && k < |Ranges| && Solid(ws) && StepItems(true, c, k) != []
    ensures WellFormed(StepItems(true, c, k))
    ensures Step(ws, c, k) == ws + " " + Join(" ", Rendered(StepItems(true, c, k)))
  {
    StepItemsWellFormed(true, c, k);
    PiecesExact(c);
    LabelSolid(k, Piece(c, k));
    if c % Ranges[k].lower == 0 && Piece(c, k) != 0 {
      StepMoreAnd(ws, c, k);
    } else if Piece(c, k) != 0 {
      StepMoreNumber(ws, c, k);
    } else {
      var l := Label(Ranges[k], Piece(c, k));
      assert Rendered(StepItems(true, c, k)) == [l];
      StripJoinLabel(ws, l);
    }
  }

  lemma StepMoreAnd(ws: string, c: nat, k: nat)
    requires c < CentsLimit && k < |Ranges| && Solid(ws)
    requires c % Ranges[k].lower == 0 && Piece(c, k) != 0
    ensures WellFormed(StepItems(true, c, k))
    ensures Step(ws, c, k) == ws + " " + Join(" ", Rendered(StepItems(true, c, k)))
  {
    StepItemsWellFormed(true, c, k);
    var piece := Piece(c, k);
    PieceSpellable(c, k);
    var w, l := IntToWord(piece).value, Label(Ranges[k], piece);
    NumberSolid(piece);
    LabelSolid(k, piece);
    assert Rendered(StepItems(true, c, k)) == ["and", w, l];
    StripJoinAnd(ws, w, l);
    assert Step(ws, c, k) == Strip(Join(" ", [Join(" ", [ws, "and"]), w, l]));
  }

  /** Adding "and", then the words and the label, to solid words. */
  lemma StripJoinAnd(ws: string, w: string, l: string)
    requires Solid(ws) && Solid(w) && Solid(l)
    ensures Strip(Join(" ", [Join(" ", [ws, "and"]), w, l])) == ws + " " + Join(" ", ["and", w, l])
  {
    JoinTriple(" ", "and", w, l);
    JoinPair(" ", ws, "and");
    var ws1 := ws + " " + "and";
    assert Solid(ws1) by {
      assert ws1[0] == ws[0] && ws1[|ws1| - 1] == 'd';
    }
    StripJoinWords(ws1, w, l);
    assert ws1 + " " + w + " " + l == ws + " " + ("and" + " " + w + " " + l);
  }

  lemma StepMoreNumber(ws: string, c: nat, k: nat)
    requires c < CentsLimit && k < |Ranges| && Solid(ws)
    requires c % Ranges[k].lower != 0 && Piece(c, k) != 0
    ensures WellFormed(StepItems(true, c, k))
    ensures Step(ws, c, k) == ws + " " + Join(" ", Rendered(StepItems(true, c, k)))
  {
    StepItemsWellFormed(true, c, k);
    var piece := Piece(c, k);
    PieceSpellable(c, k);
    var w, l := IntToWord(piece).value, Label(Ranges[k], piece);
    NumberSolid(piece);
    LabelSolid(k, piece);
    StepNumberUnfold(ws, c, k);
    assert Rendered([Number(piece), Name(l)]) == [w, l];
    JoinPair(" ", w, l);
    StripJoinWords(ws, w, l);
    AppendAssoc(ws + " ", w, " ", l);
    AppendAssoc(w, " ", l, "");
  }

  /** A later pass on a piece whose lower pieces are not all zero writes the
      number and the label, without an "and". */
  lemma StepNumberUnfold(ws: string, c: nat, k: nat)
    requires c < CentsLimit && k < |Ranges| && Solid(ws)
    requires c % Ranges[k].lower != 0 && Piece(c, k) != 0
    ensures IntToWord(Piece(c, k)).Ok?
    ensures StepItems(true, c, k) == [Number(Piece(c, k)), Name(Label(Ranges[k], Piece(c, k)))]
    ensures Step(ws, c, k) == Strip(Join(" ", [ws, IntToWord(Piece(c, k)).value, Label(Ranges[k], Piece(c, k))]))
  {
    PieceSpellable(c, k);
  }

  /** `" ".join([ws, words, label]).strip()` on solid words and label. */
  lemma StripJoinWords(ws: string, w: string, l: string)
    requires ws == "" || Solid(ws)
    requires Solid(w) && Solid(l)
    ensures Strip(Join(" ", [ws, w, l])) == if ws == "" then w + " " + l else ws + " " + w + " " + l
  {
    JoinTriple(" ", ws, w, l);
    var t := w + " " + l;
    assert t[0] == w[0] && t[|t| - 1] == l[|l| - 1];
    if ws == "" {
      assert ws + " " + w + " " + l == " " + t;
      StripTrimmed(t);
    } else {
      var u := ws + " " + w + " " + l;
      assert u[0] == ws[0] && u[|u| - 1] == l[|l| - 1];
      StripTrimmed(u);
    }
  }

  /** `" ".join([ws, label]).strip()` on solid words and label. */
  lemma StripJoinLabel(ws: string, l: string)
    requires Solid(ws) && Solid(l)
    ensures Strip(Join(" ", [ws, l])) == ws + " " + l
  {
    JoinPair(" ", ws, l);
    var u := ws + " " + l;
    assert u[0] == ws[0] && u[|u| - 1] == l[|l| - 1];
    StripTrimmed(u);
  }

  /** A range's lower pieces are all zero exactly when the amount is a
      multiple of the range's lower bound. */
  lemma LowerPiecesZero(c: nat)
    requires c < CentsLimit
    ensures c % Ranges[1].lower == 0 <==> Piece(c, 2) == 0 && Piece(c, 3) == 0
    ensures c % Ranges[2].lower == 0 <==> Piece(c, 3) == 0
    ensures c % Ranges[3].lower == 0
  {
    DivModNested(c, 1000, 100);
    var x := c % 100_000;
    assert x == 100 * (x / 100) + x % 100;
  }

  /** The passes' items, one range after the other, are the items read off
      the pieces. */
  lemma StepItemsTogether(c: nat)
    requires c < CentsLimit
    ensures var s0 := StepItems(false, c, 0);
            var s1 := StepItems(s0 != [], c, 1);
            var s2 := StepItems(s0 + s1 != [], c, 2);
            var s3 := StepItems(s0 + s1 + s2 != [], c, 3);
            s0 + s1 + s2 + s3 == PyItems(c)
  {
    PiecesExact(c);
    LowerPiecesZero(c);
    var m, t, d, p := Piece(c, 0), Piece(c, 1), Piece(c, 2), Piece(c, 3);
    var s0 := StepItems(false, c, 0);
    var s1 := StepItems(s0 != [], c, 1);
    var s2 := StepItems(s0 + s1 != [], c, 2);
    var s3 := StepItems(s0 + s1 + s2 != [], c, 3);
    assert s0 == MillionItems(c);
    assert s0 != [] <==> m > 0;
    assert s1 == ThousandItems(c);
    assert s0 + s1 != [] <==> m > 0 || t > 0;
    assert Plural("dollar", 0) == "dollars";
    assert s2 == DollarItems(c);
    assert s2 != [];
    assert s3 == CentItems(c);
  }

  /** `wordify`'s loop writes exactly the items read off the pieces, each
      followed by a single space but the last. */
  lemma FoldRendersItems(c: nat)
    requires c < CentsLimit
    ensures WellFormed(PyItems(c))
    ensures Fold(c, |Ranges|) == Join(" ", Rendered(PyItems(c)))
  {
    var x0: seq<Item> := [];
    assert Join(" ", Rendered(x0)) == "";
    StepAppend(x0, c, 0);
    var x1 := x0 + StepItems(false, c, 0);
    assert Fold(c, 1) == Join(" ", Rendered(x1));
    StepAppend(x1, c, 1);
    var x2 := x1 + StepItems(x1 != [], c, 1);
    assert Fold(c, 2) == Join(" ", Rendered(x2));
    StepAppend(x2, c, 2);
    var x3 := x2 + StepItems(x2 != [], c, 2);
    assert Fold(c, 3) == Join(" ", Rendered(x3));
    StepAppend(x3, c, 3);
    var x4 := x3 + StepItems(x3 != [], c, 3);
    assert Fold(c, 4) == Join(" ", Rendered(x4));
    StepItemsTogether(c);
    assert x1 == StepItems(false, c, 0);
    assert x4 == PyItems(c);
  }

  // ---------------------------------------------------------------------
  // what the items say

  /** How many cents one unit of a written range name is worth. */
  function Scale(name: string): nat {
    if name == "million" then 100_000_000
    else if name == "thousand" then 100_000
    else if name == "dollar" || name == "dollars" then 100
    else if name == "cent" || name == "cents" then 1
    else 0
  }

  /** Reading items back: each number followed by a range name counts that
      many units of the range. */
  function ItemsValue(items: seq<Item>): nat {
    if |items| < 2 then 0
    else if items[0].Number? && items[1].Name? then items[0].value * Scale(items[1].name) + ItemsValue(items[2..])
    else ItemsValue(items[1..])
  }

  /** Items that do not end in a number can be read back on their own. */
  lemma {:induction false} ItemsValueAppend(a: seq<Item>, b: seq<Item>)
    requires a == [] || !a[|a| - 1].Number?
    ensures ItemsValue(a + b) == ItemsValue(a) + ItemsValue(b)
  {
    if a == [] {
      assert a + b == b;
    } else if |a| == 1 {
      if b != [] {
        assert (a + b)[1..] == b;
      }
    } else if a[0].Number? && a[1].Name? {
      assert (a + b)[2..] == a[2..] + b;
      ItemsValueAppend(a[2..], b);
    } else {
      assert (a + b)[1..] == a[1..] + b;
      ItemsValueAppend(a[1..], b);
    }
  }

  /** The words `wordify` writes for an amount read back to that amount: the
      million, thousand, dollar and cent numbers, each with its range name,
      add up to the number of cents. */
  lemma PyItemsValue(c: nat)
    requires c < CentsLimit
    ensures ItemsValue(PyItems(c)) == c
  {
    PiecesExact(c);
    var m, t, d, p := Piece(c, 0), Piece(c, 1), Piece(c, 2), Piece(c, 3);
    ItemsValueChunks(MillionItems(c), ThousandItems(c), DollarItems(c), CentItems(c));
    CountedValue(false, m, "million");
    CountedValue(m > 0 && d == 0 && p == 0, t, "thousand");
    CountedValue((m > 0 || t > 0) && p == 0, d, Plural("dollar", d));
    CountedValue(false, 0, "dollars");
    CountedValue(true, p, Plural("cent", p));
    assert Scale(Plural("dollar", d)) == 100;
    assert Scale(Plural("cent", p)) == 1;
  }

  lemma CountedValue(withAnd: bool, n: nat, name: string)
    ensures ItemsValue(Counted(withAnd, n, name)) == n * Scale(name)
  {
    var pair := [Number(n), Name(name)];
    assert pair[2..] == [];
    assert ItemsValue(pair) == n * Scale(name);
    if withAnd {
      assert Counted(withAnd, n, name)[1..] == pair;
    }
  }

  /** Items that end in a name, or are empty. */
  predicate EndsInName(a: seq<Item>) {
    a == [] || a[|a| - 1].Name?
  }

  lemma ItemsValueChunks(a0: seq<Item>, a1: seq<Item>, a2: seq<Item>, a3: seq<Item>)
    requires EndsInName(a0) && EndsInName(a1) && EndsInName(a2)
    ensures ItemsValue(a0 + a1 + a2 + a3) == ItemsValue(a0) + ItemsValue(a1) + ItemsValue(a2) + ItemsValue(a3)
  {
    ItemsValueAppend(a0, a1);
    assert EndsInName(a0 + a1);
    ItemsValueAppend(a0 + a1, a2);
    assert EndsInName(a0 + a1 + a2);
    ItemsValueAppend(a0 + a1 + a2, a3);
  }


  /** Whether the loop writes anything for range `k`: a nonzero piece, or a
      mandatory range. */
  predicate Emits(c: nat, k: nat)
    requires c < CentsLimit && k < |Ranges|
  {
    Piece(c, k) != 0 || Ranges[k].mandatory
  }

  /** Range `k` holds the lowest nonzero piece and some earlier range wrote
      something: the place the comment in `wordify` gives for the "and". */
  predicate AndBefore(c: nat, k: nat)
    requires c < CentsLimit && k < |Ranges|
  {
    Piece(c, k) != 0
    && (forall j :: k < j < |Ranges| ==> Piece(c, j) == 0)
    && (exists j :: 0 <= j < k && Emits(c, j))
  }

  lemma AndBeforeCases(c: nat)
    requires c < CentsLimit
    ensures !AndBefore(c, 0)
    ensures AndBefore(c, 1) <==> Piece(c, 0) > 0 && Piece(c, 1) > 0 && Piece(c, 2) == 0 && Piece(c, 3) == 0
    ensures AndBefore(c, 2) <==> (Piece(c, 0) > 0 || Piece(c, 1) > 0) && Piece(c, 2) > 0 && Piece(c, 3) == 0
    ensures AndBefore(c, 3) <==> Piece(c, 3) > 0
  {
    assert Emits(c, 2);
    if Piece(c, 0) > 0 {
      assert Emits(c, 0);
    }
    if Piece(c, 1) > 0 {
      assert Emits(c, 1);
    }
  }

  /** Some range holds the lowest nonzero piece after something was
      written exactly when one of the last three does. */
  lemma AndSomewhere(c: nat)
    requires c < CentsLimit
    ensures (exists k :: 0 <= k < |Ranges| && AndBefore(c, k)) <==> AndBefore(c, 1) || AndBefore(c, 2) || AndBefore(c, 3)
  {
    AndBeforeCases(c);
    if k :| 0 <= k < |Ranges| && AndBefore(c, k) {
      assert k == 1 || k == 2 || k == 3;
    }
  }

  /** Each range's items hold an "and" exactly when that range holds the
      lowest nonzero piece after something was written. */
  lemma ChunkAnds(c: nat)
    requires c < CentsLimit
    ensures multiset(MillionItems(c))[And] == 0
    ensures multiset(ThousandItems(c))[And] == if AndBefore(c, 1) then 1 else 0
    ensures multiset(DollarItems(c))[And] == if AndBefore(c, 2) then 1 else 0
    ensures multiset(CentItems(c))[And] == if AndBefore(c, 3) then 1 else 0
  {
    AndBeforeCases(c);
    var m, t, d, p := Piece(c, 0), Piece(c, 1), Piece(c, 2), Piece(c, 3);
    CountedAnds(false, m, "million");
    CountedAnds(m > 0 && d == 0 && p == 0, t, "thousand");
    CountedAnds((m > 0 || t > 0) && p == 0, d, Plural("dollar", d));
    CountedAnds(false, 0, "dollars");
    CountedAnds(true, p, Plural("cent", p));
  }

  lemma CountedAnds(withAnd: bool, n: nat, name: string)
    ensures multiset(Counted(withAnd, n, name))[And] == if withAnd then 1 else 0
  {
    assert multiset([Number(n), Name(name)])[And] == 0;
  }

  /** "and" is written at most once, and exactly when some range holds the
      lowest nonzero piece after something was written. */
  lemma PyAndOnce(c: nat)
    requires c < CentsLimit
    ensures multiset(PyItems(c))[And] == if exists k :: 0 <= k < |Ranges| && AndBefore(c, k) then 1 else 0
  {
    AndBeforeCases(c);
    AndSomewhere(c);
    ChunkAnds(c);
    var a0, a1, a2, a3 := MillionItems(c), ThousandItems(c), DollarItems(c), CentItems(c);
    assert multiset(PyItems(c)) == multiset(a0) + multiset(a1) + multiset(a2) + multiset(a3);
  }

  /** The "and" stands right in front of the number of the lowest nonzero
      piece. */
  lemma PyAndPlace(c: nat, k: nat)
    requires c < CentsLimit && k < |Ranges| && AndBefore(c, k)
    ensures exists i :: 0 <= i < |PyItems(c)| - 1 && PyItems(c)[i] == And && PyItems(c)[i + 1] == Number(Piece(c, k))
  {
    AndBeforeCases(c);
    var m, t, d, p := Piece(c, 0), Piece(c, 1), Piece(c, 2), Piece(c, 3);
    var a0, a1, a2, a3 := MillionItems(c), ThousandItems(c), DollarItems(c), CentItems(c);
    var before, chunk, after, n;
    if k == 1 {
      before, chunk, after, n := a0, a1, a2 + a3, t;
    } else if k == 2 {
      before, chunk, after, n := a0 + a1, a2, a3, d;
    } else {
      before, chunk, after, n := a0 + a1 + a2, a3, [], p;
    }
    assert PyItems(c) == before + chunk + after;
    AndAt(before, chunk, after, n);
    var i := |before|;
    assert PyItems(c)[i] == And && PyItems(c)[i + 1] == Number(Piece(c, k));
  }

  lemma AndAt(before: seq<Item>, chunk: seq<Item>, after: seq<Item>, n: nat)
    requires |chunk| >= 2 && chunk[0] == And && chunk[1] == Number(n)
    ensures var items := before + chunk + after;
      0 <= |before| < |items| - 1 && items[|before|] == And && items[|before| + 1] == Number(n)
  {
  }

  lemma CountedHas(withAnd: bool, n: nat, name: string, x: Item)
    ensures x in Counted(withAnd, n, name) <==> x == Number(n) || x == Name(name) || (withAnd && x == And)
  {
  }

  /** A number is written as "zero" exactly when the amount is below one
      dollar, and then the words start with "zero dollars". */
  lemma PyZero(c: nat)
    requires c < CentsLimit
    ensures Number(0) in PyItems(c) <==> c < 100
    ensures c < 100 ==> PyItems(c)[..2] == [Number(0), Name("dollars")]
  {
    PiecesExact(c);
    var m, t, d, p := Piece(c, 0), Piece(c, 1), Piece(c, 2), Piece(c, 3);
    var a0, a1, a2, a3 := MillionItems(c), ThousandItems(c), DollarItems(c), CentItems(c);
    CountedHas(false, m, "million", Number(0));
    CountedHas(m > 0 && d == 0 && p == 0, t, "thousand", Number(0));
    CountedHas((m > 0 || t > 0) && p == 0, d, Plural("dollar", d), Number(0));
    CountedHas(false, 0, "dollars", Number(0));
    CountedHas(true, p, Plural("cent", p), Number(0));
    assert Number(0) in PyItems(c) <==> Number(0) in a0 || Number(0) in a1 || Number(0) in a2 || Number(0) in a3;
    if c < 100 {
      assert PyItems(c) == a2 + a3;
    }
  }

  /** "million" and "thousand" are written for their nonzero pieces, and
      never with an "s". */
  lemma PyNamesLarge(c: nat)
    requires c < CentsLimit
    ensures Name("million") in PyItems(c) <==> Piece(c, 0) > 0
    ensures Name("thousand") in PyItems(c) <==> Piece(c, 1) > 0
    ensures Name("millions") !in PyItems(c) && Name("thousands") !in PyItems(c)
  {
    NameInItems(c, "million");
    NameInItems(c, "thousand");
    NameInItems(c, "millions");
    NameInItems(c, "thousands");
    PluralForms(Piece(c, 2));
    PluralForms(Piece(c, 3));
    assert "million"[0] != "dollars"[0] && "million" != "thousand";
  }

  lemma PluralForms(n: nat)
    ensures Plural("dollar", n) == "dollar" || Plural("dollar", n) == "dollars"
    ensures Plural("cent", n) == "cent" || Plural("cent", n) == "cents"
  {
  }

  /** "dollar" or "dollars" is always written, with the "s" exactly when the
      dollar piece is not 1; "cent" or "cents" for a nonzero cent piece,
      with the "s" exactly when it is not 1. */
  lemma PyNamesPlural(c: nat)
    requires c < CentsLimit
    ensures Name("dollar") in PyItems(c) <==> Piece(c, 2) == 1
    ensures Name("dollars") in PyItems(c) <==> Piece(c, 2) != 1
    ensures Name("cent") in PyItems(c) <==> Piece(c, 3) == 1
    ensures Name("cents") in PyItems(c) <==> Piece(c, 3) > 1
  {
    NameInItems(c, "dollar");
    NameInItems(c, "dollars");
    NameInItems(c, "cent");
    NameInItems(c, "cents");
    PluralForms(Piece(c, 2));
    PluralForms(Piece(c, 3));
    assert "dollars"[0] != "million"[0];
  }

  /** The range names written for an amount. */
  lemma NameInItems(c: nat, u: string)
    requires c < CentsLimit
    ensures Name(u) in PyItems(c) <==>
      (Piece(c, 0) > 0 && u == "million") || (Piece(c, 1) > 0 && u == "thousand")
      || u == Plural("dollar", Piece(c, 2)) || (Piece(c, 3) > 0 && u == Plural("cent", Piece(c, 3)))
  {
    NamesIn(c, u);
    var a0, a1, a2, a3 := MillionItems(c), ThousandItems(c), DollarItems(c), CentItems(c);
    assert Name(u) in PyItems(c) <==> Name(u) in a0 || Name(u) in a1 || Name(u) in a2 || Name(u) in a3;
  }

  /** The range names in each range's items. */
  lemma NamesIn(c: nat, u: string)
    requires c < CentsLimit
    ensures Name(u) in MillionItems(c) <==> Piece(c, 0) > 0 && u == "million"
    ensures Name(u) in ThousandItems(c) <==> Piece(c, 1) > 0 && u == "thousand"
    ensures Name(u) in DollarItems(c) <==> u == Plural("dollar", Piece(c, 2))
    ensures Name(u) in CentItems(c) <==> Piece(c, 3) > 0 && u == Plural("cent", Piece(c, 3))
  {
    PiecesExact(c);
    var m, t, d, p := Piece(c, 0), Piece(c, 1), Piece(c, 2), Piece(c, 3);
    CountedHas(false, m, "million", Name(u));
    CountedHas(m > 0 && d == 0 && p == 0, t, "thousand", Name(u));
    CountedHas((m > 0 || t > 0) && p == 0, d, Plural("dollar", d), Name(u));
    CountedHas(false, 0, "dollars", Name(u));
    CountedHas(true, p, Plural("cent", p), Name(u));
    assert Plural("dollar", 0) == "dollars";
  }

  /** The words read off the pieces of an amount of `c` cents. */
  function PyWords(c: nat): string
    requires c < CentsLimit
  {
    FoldRendersItems(c);
    Join(" ", Rendered(PyItems(c)))
  }

  /** For text that cleans to a numeral in range, with at most two written
      fractional digits, `wordify` returns the words of its items, and those
      items read back to exactly the amount written. */
  lemma WordsOfAccepted(text: string, d: Decimal)
    requires ParseNumeral(Clean(text)) == Some(d)
    requires 0 <= d.mantissa < Pow10(9) * Pow10(d.scale) && d.scale <= 2
    ensures Validate(d) == Ok(Cents(d))
    ensures WordsForAmount(text) == Ok(PyWords(Cents(d)))
    ensures ItemsValue(PyItems(Cents(d))) * Pow10(d.scale) == d.mantissa * 100
  {
    var c := Cents(d);
    assert Validate(d) == Ok(c);
    FoldRendersItems(c);
    PyItemsValue(c);
  }
}
