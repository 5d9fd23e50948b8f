/** The test cases of both converters as lemmas, each stated on the test's
    own text and ending in the sentence the test expects, written as the
    words (Python) or segments (Go) the converter joins, with the
    converter's own separators between them. */
module Examples {
  import opened Results
  import opened Text
  import opened Numerals
  import opened Arith
  import PyWordify
  import GoWordify
  import CrossCheck

  // ---------------------------------------------------------------------
  // Spelled numbers (both converters spell 0..999 the same way, by
  // `CrossCheck.SpellersAgree`)
  //
  // Each `SpellN` takes its number as a parameter equal to N rather than as
  // a literal, and each `Glued*` lemma states one concatenation of literals
  // on its own: with the literal inside a larger proof, Dafny unfolds every
  // function applied to it, and those proofs no longer fit the resource
  // limit. The `Split*` lemmas below are kept apart for the same reason.

  /** The unit words of the `singles` map. */
  lemma SingleWords()
    ensures GoWordify.Single(1) == "one"
    ensures GoWordify.Single(2) == "two"
    ensures GoWordify.Single(3) == "three"
    ensures GoWordify.Single(4) == "four"
    ensures GoWordify.Single(5) == "five"
    ensures GoWordify.Single(6) == "six"
    ensures GoWordify.Single(7) == "seven"
    ensures GoWordify.Single(8) == "eight"
    ensures GoWordify.Single(9) == "nine"
  {
  }

  /** The teen words of the `singles` map. */
  lemma TeenWords()
    ensures GoWordify.Single(10) == "ten"
    ensures GoWordify.Single(11) == "eleven"
    ensures GoWordify.Single(12) == "twelve"
    ensures GoWordify.Single(13) == "thirteen"
    ensures GoWordify.Single(14) == "fourteen"
    ensures GoWordify.Single(15) == "fifteen"
    ensures GoWordify.Single(16) == "sixteen"
    ensures GoWordify.Single(17) == "seventeen"
    ensures GoWordify.Single(18) == "eighteen"
    ensures GoWordify.Single(19) == "nineteen"
  {
  }

  /** The words of the `tens` map. */
  lemma TenWords()
    ensures GoWordify.Ten(2) == "twenty"
    ensures GoWordify.Ten(3) == "thirty"
    ensures GoWordify.Ten(4) == "forty"
    ensures GoWordify.Ten(5) == "fifty"
    ensures GoWordify.Ten(6) == "sixty"
    ensures GoWordify.Ten(7) == "seventy"
    ensures GoWordify.Ten(8) == "eighty"
    ensures GoWordify.Ten(9) == "ninety"
  {
  }

  lemma Spell1(n: int)
    requires n == 1
    ensures GoWordify.GoSpell(n) == "one"
  {
    assert n / 100 == 0 && n % 100 == 1;
    SingleWords();
  }

  lemma Spell9(n: int)
    requires n == 9
    ensures GoWordify.GoSpell(n) == "nine"
  {
    assert n / 100 == 0 && n % 100 == 9;
    SingleWords();
  }

  lemma Spell10(n: int)
    requires n == 10
    ensures GoWordify.GoSpell(n) == "ten"
  {
    assert n / 100 == 0 && n % 100 == 10;
    TeenWords();
  }

  lemma Spell11(n: int)
    requires n == 11
    ensures GoWordify.GoSpell(n) == "eleven"
  {
    assert n / 100 == 0 && n % 100 == 11;
    TeenWords();
  }

  lemma Spell15(n: int)
    requires n == 15
    ensures GoWordify.GoSpell(n) == "fifteen"
  {
    assert n / 100 == 0 && n % 100 == 15;
    TeenWords();
  }

  lemma Spell19(n: int)
    requires n == 19
    ensures GoWordify.GoSpell(n) == "nineteen"
  {
    assert n / 100 == 0 && n % 100 == 19;
    TeenWords();
  }

  lemma Spell33(n: int)
    requires n == 33
    ensures GoWordify.GoSpell(n) == "thirty-three"
  {
    assert n / 100 == 0 && n % 100 == 33 && 33 / 10 == 3 && 33 % 10 == 3;
    SingleWords();
    TenWords();
    Glued33();
  }

  /** The words of 33 put together. */
  lemma Glued33()
    ensures "" + ("thirty" + ("-" + "three")) == "thirty-three"
  {
  }

  lemma Spell56(n: int)
    requires n == 56
    ensures GoWordify.GoSpell(n) == "fifty-six"
  {
    assert n / 100 == 0 && n % 100 == 56 && 56 / 10 == 5 && 56 % 10 == 6;
    SingleWords();
    TenWords();
    Glued56();
  }

  /** The words of 56 put together. */
  lemma Glued56()
    ensures "" + ("fifty" + ("-" + "six")) == "fifty-six"
  {
  }

  lemma Spell99(n: int)
    requires n == 99
    ensures GoWordify.GoSpell(n) == "ninety-nine"
  {
    assert n / 100 == 0 && n % 100 == 99 && 99 / 10 == 9 && 99 % 10 == 9;
    SingleWords();
    TenWords();
    Glued99();
  }

  /** The words of 99 put together. */
  lemma Glued99()
    ensures "" + ("ninety" + ("-" + "nine")) == "ninety-nine"
  {
  }

  lemma Spell100(n: int)
    requires n == 100
    ensures GoWordify.GoSpell(n) == "one hundred"
  {
    assert n / 100 == 1 && n % 100 == 0;
    SingleWords();
    Glued100();
  }

  /** The words of 100 put together. */
  lemma Glued100()
    ensures "one" + " hundred" + "" + "" == "one hundred"
  {
  }

  lemma Spell175(n: int)
    requires n == 175
    ensures GoWordify.GoSpell(n) == "one hundred seventy-five"
  {
    assert n / 100 == 1 && n % 100 == 75 && 75 / 10 == 7 && 75 % 10 == 5;
    SingleWords();
    TenWords();
    Glued175();
  }

  /** The words of 175 put together. */
  lemma Glued175()
    ensures "one" + " hundred" + " " + ("seventy" + ("-" + "five")) == "one hundred seventy-five"
  {
  }

  lemma Spell234(n: int)
    requires n == 234
    ensures GoWordify.GoSpell(n) == "two hundred thirty-four"
  {
    assert n / 100 == 2 && n % 100 == 34 && 34 / 10 == 3 && 34 % 10 == 4;
    SingleWords();
    TenWords();
    Glued234();
  }

  /** The words of 234 put together. */
  lemma Glued234()
    ensures "two" + " hundred" + " " + ("thirty" + ("-" + "four")) == "two hundred thirty-four"
  {
  }

  lemma Spell505(n: int)
    requires n == 505
    ensures GoWordify.GoSpell(n) == "five hundred five"
  {
    assert n / 100 == 5 && n % 100 == 5;
    SingleWords();
    Glued505();
  }

  /** The words of 505 put together. */
  lemma Glued505()
    ensures "five" + " hundred" + " " + "five" == "five hundred five"
  {
  }

  lemma Spell520(n: int)
    requires n == 520
    ensures GoWordify.GoSpell(n) == "five hundred twenty"
  {
    assert n / 100 == 5 && n % 100 == 20 && 20 / 10 == 2 && 20 % 10 == 0;
    SingleWords();
    TenWords();
    Glued520();
  }

  /** The words of 520 put together. */
  lemma Glued520()
    ensures "five" + " hundred" + " " + ("twenty" + "") == "five hundred twenty"
  {
  }

  lemma Spell670(n: int)
    requires n == 670
    ensures GoWordify.GoSpell(n) == "six hundred seventy"
  {
    assert n / 100 == 6 && n % 100 == 70 && 70 / 10 == 7 && 70 % 10 == 0;
    SingleWords();
    TenWords();
    Glued670();
  }

  /** The words of 670 put together. */
  lemma Glued670()
    ensures "six" + " hundred" + " " + ("seventy" + "") == "six hundred seventy"
  {
  }

  // ---------------------------------------------------------------------
  // From items to words

  /** An item that is written as the given word: a number spelled as it,
      a name equal to it, or the "and". */
  predicate WrittenAs(item: PyWordify.Item, w: string) {
    match item
    case Number(n) => GoWordify.GoSpell(n) == w
    case Name(u) => u == w
    case And => w == "and"
  }

  /** Well-formed items each written as the word at its place render as
      those words. */
  lemma RenderedAs(items: seq<PyWordify.Item>, words: seq<string>)
    requires PyWordify.WellFormed(items) && |items| == |words|
    requires forall i :: 0 <= i < |items| ==> WrittenAs(items[i], words[i])
    ensures PyWordify.Rendered(items) == words
  {
    forall i | 0 <= i < |items| && items[i].Number?
      ensures PyWordify.IntToWord(items[i].value) == Ok(words[i])
    {
      CrossCheck.SpellersAgree(items[i].value);
    }
  }

  /** Python on text read as an accepted amount whose items are each
      written as the word at their place: those words joined by spaces. */
  lemma PyCase(text: string, d: Decimal, words: seq<string>)
    requires ParseNumeral(PyWordify.Clean(text)) == Some(d)
    requires 0 <= d.mantissa < Pow10(9) * Pow10(d.scale) && d.scale <= 2
    requires |PyWordify.PyItems(PyWordify.Cents(d))| == |words|
    requires forall i :: 0 <= i < |words| ==> WrittenAs(PyWordify.PyItems(PyWordify.Cents(d))[i], words[i])
    ensures PyWordify.WordsForAmount(text) == Ok(Join(" ", words))
  {
    PyWordify.WordsOfAccepted(text, d);
    PyWordify.FoldRendersItems(PyWordify.Cents(d));
    RenderedAs(PyWordify.PyItems(PyWordify.Cents(d)), words);
  }

  // ---------------------------------------------------------------------
  // How the tests' text is read

  /** A numeral's text is left as it is by both clean-ups and reads as the
      value of its digits, scaled by the digits after the dot. */
  lemma Reads(text: string, sign: string, ip: string, fp: string, mantissa: int)
    requires sign == "" || sign == "-"
    requires AllDigits(ip) && AllDigits(fp) && |ip| + |fp| >= 1
    requires text == sign + ip + "." + fp || (fp == "" && text == sign + ip)
    requires mantissa == Signed(sign == "-", DigitsValue(ip + fp))
    ensures ParseNumeral(PyWordify.Clean(text)) == Some(Decimal(mantissa, |fp|))
    ensures ParseNumeral(GoWordify.Cleaned(text)) == Some(Decimal(mantissa, |fp|))
  {
    if fp == "" && text == sign + ip {
      ParseNumeralText(sign, ip, false, fp);
    } else {
      var point := ip + ".";
      AppendAssoc(sign, ip, ".", "");
      AppendAssoc(sign, point, fp, "");
      assert text == NumeralText(sign, ip, true, fp);
      ParseNumeralText(sign, ip, true, fp);
    }
    NumeralClean(text);
  }

  /** Text read as a number holds no '$', ',' or whitespace, so both
      clean-ups leave it as it is. */
  lemma NumeralClean(text: string)
    requires ParseNumeral(text).Some?
    ensures PyWordify.Clean(text) == text && GoWordify.Cleaned(text) == text
  {
    NumeralPlain(text);
    RemoveAllSpec(text, '$');
    RemoveAllSpec(text, ',');
    StripTrimmed(text);
  }

  /** A numeral holds no '$' or ',', and neither starts nor ends with
      whitespace. */
  lemma NumeralPlain(text: string)
    requires ParseNumeral(text).Some?
    ensures '$' !in text && ',' !in text && Trimmed(text)
  {
    forall k | 0 <= k < |text|
      ensures text[k] != '$' && text[k] != ',' && !IsSpace(text[k])
    {
    }
  }


  /** A '$' or ',' anywhere in the text is dropped by both clean-ups. */
  lemma CleanDrops(a: string, x: char, b: string)
    requires x == '$' || x == ','
    ensures PyWordify.Clean(a + [x] + b) == PyWordify.Clean(a + b)
    ensures GoWordify.Cleaned(a + [x] + b) == GoWordify.Cleaned(a + b)
  {
    RemoveAllAppend(a + [x], b, '$');
    RemoveAllAppend(a, [x], '$');
    RemoveAllAppend(a, b, '$');
    var r1, rx, r2 := RemoveAll(a, '$'), RemoveAll([x], '$'), RemoveAll(b, '$');
    RemoveAllAppend(r1 + rx, r2, ',');
    RemoveAllAppend(r1, rx, ',');
    RemoveAllAppend(r1, r2, ',');
    assert RemoveAll(rx, ',') == [] by {
      if x == '$' {
        assert rx == [];
      } else {
        assert rx == [','];
      }
    }
    EmptyAppend(RemoveAll(r1, ','));
  }

  /** "0" reads as 0 in both versions. */
  lemma ReadsZero()
    ensures ParseNumeral(PyWordify.Clean("0")) == Some(Decimal(0, 0))
    ensures ParseNumeral(GoWordify.Cleaned("0")) == Some(Decimal(0, 0))
  {
    assert "0" == "" + "0";
    Pow10Small();
    DigitsValueAppend("0", "");
    Reads("0", "", "0", "", 0);
  }

  /** "$1,234.56" reads as 1234.56. */
  lemma Reads1()
    ensures ParseNumeral(PyWordify.Clean("$1,234.56")) == Some(Decimal(123456, 2))
  {
    Split1();
    CleanDrops("", '$', "1,234.56");
    CleanDrops("1", ',', "234.56");
    DigitsValueAppend("1", "234");
    Pow10Small();
    GoWordify.Pow10Table();
    DigitsValueAppend("1" + "234", "56");
    Reads("1" + "234.56", "", "1" + "234", "56", 123456);
  }

  /** How "$1,234.56" splits into the pieces it is read from. */
  lemma Split1()
    ensures "$1,234.56" == "" + ['$'] + "1,234.56"
    ensures "" + "1,234.56" == "1" + [','] + "234.56"
    ensures "1" + "234.56" == "" + ("1" + "234") + "." + "56"
  {
  }

  /** "0.33" reads as 0.33. */
  lemma Reads3()
    ensures ParseNumeral(PyWordify.Clean("0.33")) == Some(Decimal(33, 2))
  {
    Split3();
    Pow10Small();
    GoWordify.Pow10Table();
    DigitsValueAppend("0", "33");
    Reads("0.33", "", "0", "33", 33);
  }

  /** How "0.33" splits into the pieces it is read from. */
  lemma Split3()
    ensures "0.33" == "" + "0" + "." + "33"
  {
  }

  /** ".01" reads as 0.01. */
  lemma Reads4a()
    ensures ParseNumeral(PyWordify.Clean(".01")) == Some(Decimal(1, 2))
  {
    Split4a();
    Pow10Small();
    GoWordify.Pow10Table();
    DigitsValueAppend("", "01");
    Reads(".01", "", "", "01", 1);
  }

  /** How ".01" splits into the pieces it is read from. */
  lemma Split4a()
    ensures ".01" == "" + "" + "." + "01"
  {
  }

  /** "1.00" reads as 1.00, with two fractional digits. */
  lemma Reads4()
    ensures ParseNumeral(PyWordify.Clean("1.00")) == Some(Decimal(100, 2))
  {
    Split4();
    Pow10Small();
    GoWordify.Pow10Table();
    DigitsValueAppend("1", "00");
    Reads("1.00", "", "1", "00", 100);
  }

  /** How "1.00" splits into the pieces it is read from. */
  lemma Split4()
    ensures "1.00" == "" + "1" + "." + "00"
  {
  }

  /** "15" reads as 15. */
  lemma Reads5()
    ensures ParseNumeral(PyWordify.Clean("15")) == Some(Decimal(15, 0))
  {
    Split5();
    Pow10Small();
    GoWordify.Pow10Table();
    DigitsValueAppend("15", "");
    Reads("15", "", "15", "", 15);
  }

  /** How "15" splits into the pieces it is read from. */
  lemma Split5()
    ensures "15" == "" + "15"
  {
  }

  /** "9000000" reads as 9000000. */
  lemma Reads6()
    ensures ParseNumeral(PyWordify.Clean("9000000")) == Some(Decimal(9000000, 0))
  {
    Split6();
    DigitsValueAppend("9", "000");
    DigitsValueAppend("9" + "000", "000");
    Pow10Small();
    GoWordify.Pow10Table();
    DigitsValueAppend("9" + "000" + "000", "");
    Reads("9000000", "", "9" + "000" + "000", "", 9000000);
  }

  /** How "9000000" splits into the pieces it is read from. */
  lemma Split6()
    ensures "9000000" == "" + ("9" + "000" + "000")
  {
  }

  /** "1,000,000.01" reads as 1000000.01. */
  lemma Reads7()
    ensures ParseNumeral(PyWordify.Clean("1,000,000.01")) == Some(Decimal(100000001, 2))
  {
    Split7();
    CleanDrops("1", ',', "000,000.01");
    CleanDrops("1000", ',', "000.01");
    DigitsValueAppend("1", "000");
    DigitsValueAppend("1" + "000", "000");
    Pow10Small();
    GoWordify.Pow10Table();
    DigitsValueAppend("1" + "000" + "000", "01");
    Reads("1000" + "000.01", "", "1" + "000" + "000", "01", 100000001);
  }

  /** How "1,000,000.01" splits into the pieces it is read from. */
  lemma Split7()
    ensures "1,000,000.01" == "1" + [','] + "000,000.01"
    ensures "1" + "000,000.01" == "1000" + [','] + "000.01"
    ensures "1000" + "000.01" == "" + ("1" + "000" + "000") + "." + "01"
  {
  }

  /** "1.1" reads as 1.1, with one fractional digit. */
  lemma Reads8()
    ensures ParseNumeral(PyWordify.Clean("1.1")) == Some(Decimal(11, 1))
  {
    Split8();
    Pow10Small();
    GoWordify.Pow10Table();
    DigitsValueAppend("1", "1");
    Reads("1.1", "", "1", "1", 11);
  }

  /** How "1.1" splits into the pieces it is read from. */
  lemma Split8()
    ensures "1.1" == "" + "1" + "." + "1"
  {
  }

  /** "$520.19" reads as 520.19. */
  lemma Reads9()
    ensures ParseNumeral(PyWordify.Clean("$520.19")) == Some(Decimal(52019, 2))
  {
    Split9();
    CleanDrops("", '$', "520.19");
    Pow10Small();
    GoWordify.Pow10Table();
    DigitsValueAppend("520", "19");
    Reads("" + "520.19", "", "520", "19", 52019);
  }

  /** How "$520.19" splits into the pieces it is read from. */
  lemma Split9()
    ensures "$520.19" == "" + ['$'] + "520.19"
    ensures "" + "520.19" == "" + "520" + "." + "19"
  {
  }

  /** "-3" reads as -3. */
  lemma ReadsE1()
    ensures ParseNumeral(PyWordify.Clean("-3")) == Some(Decimal(-3, 0))
  {
    SplitE1();
    Pow10Small();
    GoWordify.Pow10Table();
    DigitsValueAppend("3", "");
    Reads("-3", "-", "3", "", -3);
  }

  /** How "-3" splits into the pieces it is read from. */
  lemma SplitE1()
    ensures "-3" == "-" + "3"
  {
  }

  /** "$1000000000" reads as a billion. */
  lemma ReadsE3()
    ensures ParseNumeral(PyWordify.Clean("$1000000000")) == Some(Decimal(1_000_000_000, 0))
  {
    SplitE3();
    CleanDrops("", '$', "1000000000");
    DigitsValueAppend("1", "000");
    DigitsValueAppend("1" + "000", "000");
    DigitsValueAppend("1" + "000" + "000", "000");
    Pow10Small();
    GoWordify.Pow10Table();
    DigitsValueAppend("1" + "000" + "000" + "000", "");
    Reads("" + "1000000000", "", "1" + "000" + "000" + "000", "", 1_000_000_000);
  }

  /** How "$1000000000" splits into the pieces it is read from. */
  lemma SplitE3()
    ensures "$1000000000" == "" + ['$'] + "1000000000"
    ensures "" + "1000000000" == "" + ("1" + "000" + "000" + "000")
  {
  }

  /** "10.123" reads as 10.123, with three fractional digits. */
  lemma ReadsE4()
    ensures ParseNumeral(PyWordify.Clean("10.123")) == Some(Decimal(10123, 3))
  {
    SplitE4();
    Pow10Small();
    GoWordify.Pow10Table();
    DigitsValueAppend("10", "123");
    Reads("10.123", "", "10", "123", 10123);
  }

  /** How "10.123" splits into the pieces it is read from. */
  lemma SplitE4()
    ensures "10.123" == "" + "10" + "." + "123"
  {
  }

  /** "100" reads as 100. */
  lemma ReadsBasic()
    ensures ParseNumeral(GoWordify.Cleaned("100")) == Some(Decimal(100, 0))
  {
    SplitBasic();
    Pow10Small();
    GoWordify.Pow10Table();
    DigitsValueAppend("100", "");
    Reads("100", "", "100", "", 100);
  }

  /** How "100" splits into the pieces it is read from. */
  lemma SplitBasic()
    ensures "100" == "" + "100"
  {
  }

  /** "10.15" reads as 10.15. */
  lemma ReadsCents()
    ensures ParseNumeral(GoWordify.Cleaned("10.15")) == Some(Decimal(1015, 2))
  {
    SplitCents();
    Pow10Small();
    GoWordify.Pow10Table();
    DigitsValueAppend("10", "15");
    Reads("10.15", "", "10", "15", 1015);
  }

  /** How "10.15" splits into the pieces it is read from. */
  lemma SplitCents()
    ensures "10.15" == "" + "10" + "." + "15"
  {
  }

  /** "1.01" reads as 1.01. */
  lemma ReadsSingles()
    ensures ParseNumeral(GoWordify.Cleaned("1.01")) == Some(Decimal(101, 2))
  {
    SplitSingles();
    Pow10Small();
    GoWordify.Pow10Table();
    DigitsValueAppend("1", "01");
    Reads("1.01", "", "1", "01", 101);
  }

  /** How "1.01" splits into the pieces it is read from. */
  lemma SplitSingles()
    ensures "1.01" == "" + "1" + "." + "01"
  {
  }

  /** ".11" reads as 0.11. */
  lemma ReadsCentsOnly()
    ensures ParseNumeral(GoWordify.Cleaned(".11")) == Some(Decimal(11, 2))
  {
    SplitCentsOnly();
    Pow10Small();
    GoWordify.Pow10Table();
    DigitsValueAppend("", "11");
    Reads(".11", "", "", "11", 11);
  }

  /** How ".11" splits into the pieces it is read from. */
  lemma SplitCentsOnly()
    ensures ".11" == "" + "" + "." + "11"
  {
  }

  /** "175505670.99" reads as 175505670.99. */
  lemma ReadsLarge()
    ensures ParseNumeral(GoWordify.Cleaned("175505670.99")) == Some(Decimal(17550567099, 2))
  {
    SplitLarge();
    DigitsValueAppend("175", "505");
    DigitsValueAppend("175" + "505", "670");
    Pow10Small();
    GoWordify.Pow10Table();
    DigitsValueAppend("175" + "505" + "670", "99");
    Reads("175505670.99", "", "175" + "505" + "670", "99", 17550567099);
  }

  /** How "175505670.99" splits into the pieces it is read from. */
  lemma SplitLarge()
    ensures "175505670.99" == "" + ("175" + "505" + "670") + "." + "99"
  {
  }

  // ---------------------------------------------------------------------
  // test_wordify.py

  /** The items of 123456 cents. */
  lemma Items1(c: nat)
    requires c == 123456
    ensures c < PyWordify.CentsLimit
    ensures PyWordify.PyItems(c) == [PyWordify.Number(1), PyWordify.Name("thousand"), PyWordify.Number(234), PyWordify.Name("dollars"), PyWordify.And, PyWordify.Number(56), PyWordify.Name("cents")]
  {
    assert PyWordify.Piece(c, 0) == 0 && PyWordify.Piece(c, 1) == 1;
    assert PyWordify.Piece(c, 2) == 234 && PyWordify.Piece(c, 3) == 56;
    assert PyWordify.Plural("dollar", 234) == "dollars" && PyWordify.Plural("cent", 56) == "cents";
  }

  /** The items of 123456 cents are written as the words of the test. */
  lemma Written1(items: seq<PyWordify.Item>, words: seq<string>)
    requires items == [PyWordify.Number(1), PyWordify.Name("thousand"), PyWordify.Number(234), PyWordify.Name("dollars"), PyWordify.And, PyWordify.Number(56), PyWordify.Name("cents")]
    requires words == ["one", "thousand", "two hundred thirty-four", "dollars", "and", "fifty-six", "cents"]
    ensures |items| == |words| && forall i :: 0 <= i < |words| ==> WrittenAs(items[i], words[i])
  {
    Spell1(1);
    Spell234(234);
    Spell56(56);
  }

  /** `wordify` on any text read as the amount of "$1,234.56". */
  lemma PyAmount1(text: string, d: Decimal)
    requires d == Decimal(123456, 2) && ParseNumeral(PyWordify.Clean(text)) == Some(d)
    ensures PyWordify.WordsForAmount(text) == Ok(Join(" ", ["one", "thousand", "two hundred thirty-four", "dollars", "and", "fifty-six", "cents"]))
  {
    Pow10Small();
    var c := PyWordify.Cents(d);
    assert c == 123456;
    Items1(c);
    Written1(PyWordify.PyItems(c), ["one", "thousand", "two hundred thirty-four", "dollars", "and", "fifty-six", "cents"]);
    PyCase(text, d, ["one", "thousand", "two hundred thirty-four", "dollars", "and", "fifty-six", "cents"]);
  }

  /** `wordify("$1,234.56")`. */
  lemma PyTest1()
    ensures PyWordify.WordsForAmount("$1,234.56") == Ok(Join(" ", ["one", "thousand", "two hundred thirty-four", "dollars", "and", "fifty-six", "cents"]))
  {
    Reads1();
    PyAmount1("$1,234.56", Decimal(123456, 2));
  }

  /** The items of 0 cents. */
  lemma Items2(c: nat)
    requires c == 0
    ensures c < PyWordify.CentsLimit
    ensures PyWordify.PyItems(c) == [PyWordify.Number(0), PyWordify.Name("dollars")]
  {
    assert PyWordify.Piece(c, 0) == 0 && PyWordify.Piece(c, 1) == 0;
    assert PyWordify.Piece(c, 2) == 0 && PyWordify.Piece(c, 3) == 0;
    assert PyWordify.Plural("dollar", 0) == "dollars";
  }

  /** The items of 0 cents are written as the words of the test. */
  lemma Written2(items: seq<PyWordify.Item>, words: seq<string>)
    requires items == [PyWordify.Number(0), PyWordify.Name("dollars")]
    requires words == ["zero", "dollars"]
    ensures |items| == |words| && forall i :: 0 <= i < |words| ==> WrittenAs(items[i], words[i])
  {
  }

  /** `wordify` on any text read as the amount of "0". */
  lemma PyAmount2(text: string, d: Decimal)
    requires d == Decimal(0, 0) && ParseNumeral(PyWordify.Clean(text)) == Some(d)
    ensures PyWordify.WordsForAmount(text) == Ok(Join(" ", ["zero", "dollars"]))
  {
    Pow10Small();
    var c := PyWordify.Cents(d);
    assert c == 0;
    Items2(c);
    Written2(PyWordify.PyItems(c), ["zero", "dollars"]);
    PyCase(text, d, ["zero", "dollars"]);
  }

  /** `wordify("0")`. */
  lemma PyTest2()
    ensures PyWordify.WordsForAmount("0") == Ok(Join(" ", ["zero", "dollars"]))
  {
    ReadsZero();
    PyAmount2("0", Decimal(0, 0));
  }

  /** The items of 33 cents. */
  lemma Items3(c: nat)
    requires c == 33
    ensures c < PyWordify.CentsLimit
    ensures PyWordify.PyItems(c) == [PyWordify.Number(0), PyWordify.Name("dollars"), PyWordify.And, PyWordify.Number(33), PyWordify.Name("cents")]
  {
    assert PyWordify.Piece(c, 0) == 0 && PyWordify.Piece(c, 1) == 0;
    assert PyWordify.Piece(c, 2) == 0 && PyWordify.Piece(c, 3) == 33;
    assert PyWordify.Plural("dollar", 0) == "dollars" && PyWordify.Plural("cent", 33) == "cents";
  }

  /** The items of 33 cents are written as the words of the test. */
  lemma Written3(items: seq<PyWordify.Item>, words: seq<string>)
    requires items == [PyWordify.Number(0), PyWordify.Name("dollars"), PyWordify.And, PyWordify.Number(33), PyWordify.Name("cents")]
    requires words == ["zero", "dollars", "and", "thirty-three", "cents"]
    ensures |items| == |words| && forall i :: 0 <= i < |words| ==> WrittenAs(items[i], words[i])
  {
    Spell33(33);
  }

  /** `wordify` on any text read as the amount of "0.33". */
  lemma PyAmount3(text: string, d: Decimal)
    requires d == Decimal(33, 2) && ParseNumeral(PyWordify.Clean(text)) == Some(d)
    ensures PyWordify.WordsForAmount(text) == Ok(Join(" ", ["zero", "dollars", "and", "thirty-three", "cents"]))
  {
    Pow10Small();
    var c := PyWordify.Cents(d);
    assert c == 33;
    Items3(c);
    Written3(PyWordify.PyItems(c), ["zero", "dollars", "and", "thirty-three", "cents"]);
    PyCase(text, d, ["zero", "dollars", "and", "thirty-three", "cents"]);
  }

  /** `wordify("0.33")`. */
  lemma PyTest3()
    ensures PyWordify.WordsForAmount("0.33") == Ok(Join(" ", ["zero", "dollars", "and", "thirty-three", "cents"]))
  {
    Reads3();
    PyAmount3("0.33", Decimal(33, 2));
  }

  /** The items of 1 cents. */
  lemma Items4a(c: nat)
    requires c == 1
    ensures c < PyWordify.CentsLimit
    ensures PyWordify.PyItems(c) == [PyWordify.Number(0), PyWordify.Name("dollars"), PyWordify.And, PyWordify.Number(1), PyWordify.Name("cent")]
  {
    assert PyWordify.Piece(c, 0) == 0 && PyWordify.Piece(c, 1) == 0;
    assert PyWordify.Piece(c, 2) == 0 && PyWordify.Piece(c, 3) == 1;
    assert PyWordify.Plural("dollar", 0) == "dollars" && PyWordify.Plural("cent", 1) == "cent";
  }

  /** The items of 1 cents are written as the words of the test. */
  lemma Written4a(items: seq<PyWordify.Item>, words: seq<string>)
    requires items == [PyWordify.Number(0), PyWordify.Name("dollars"), PyWordify.And, PyWordify.Number(1), PyWordify.Name("cent")]
    requires words == ["zero", "dollars", "and", "one", "cent"]
    ensures |items| == |words| && forall i :: 0 <= i < |words| ==> WrittenAs(items[i], words[i])
  {
    Spell1(1);
  }

  /** `wordify` on any text read as the amount of ".01". */
  lemma PyAmount4a(text: string, d: Decimal)
    requires d == Decimal(1, 2) && ParseNumeral(PyWordify.Clean(text)) == Some(d)
    ensures PyWordify.WordsForAmount(text) == Ok(Join(" ", ["zero", "dollars", "and", "one", "cent"]))
  {
    Pow10Small();
    var c := PyWordify.Cents(d);
    assert c == 1;
    Items4a(c);
    Written4a(PyWordify.PyItems(c), ["zero", "dollars", "and", "one", "cent"]);
    PyCase(text, d, ["zero", "dollars", "and", "one", "cent"]);
  }

  /** `wordify(".01")`. */
  lemma PyTest4a()
    ensures PyWordify.WordsForAmount(".01") == Ok(Join(" ", ["zero", "dollars", "and", "one", "cent"]))
  {
    Reads4a();
    PyAmount4a(".01", Decimal(1, 2));
  }

  /** The items of 100 cents. */
  lemma Items4(c: nat)
    requires c == 100
    ensures c < PyWordify.CentsLimit
    ensures PyWordify.PyItems(c) == [PyWordify.Number(1), PyWordify.Name("dollar")]
  {
    assert PyWordify.Piece(c, 0) == 0 && PyWordify.Piece(c, 1) == 0;
    assert PyWordify.Piece(c, 2) == 1 && PyWordify.Piece(c, 3) == 0;
    assert PyWordify.Plural("dollar", 1) == "dollar";
  }

  /** The items of 100 cents are written as the words of the test. */
  lemma Written4(items: seq<PyWordify.Item>, words: seq<string>)
    requires items == [PyWordify.Number(1), PyWordify.Name("dollar")]
    requires words == ["one", "dollar"]
    ensures |items| == |words| && forall i :: 0 <= i < |words| ==> WrittenAs(items[i], words[i])
  {
    Spell1(1);
  }

  /** `wordify` on any text read as the amount of "1.00". */
  lemma PyAmount4(text: string, d: Decimal)
    requires d == Decimal(100, 2) && ParseNumeral(PyWordify.Clean(text)) == Some(d)
    ensures PyWordify.WordsForAmount(text) == Ok(Join(" ", ["one", "dollar"]))
  {
    Pow10Small();
    var c := PyWordify.Cents(d);
    assert c == 100;
    Items4(c);
    Written4(PyWordify.PyItems(c), ["one", "dollar"]);
    PyCase(text, d, ["one", "dollar"]);
  }

  /** `wordify("1.00")`. */
  lemma PyTest4()
    ensures PyWordify.WordsForAmount("1.00") == Ok(Join(" ", ["one", "dollar"]))
  {
    Reads4();
    PyAmount4("1.00", Decimal(100, 2));
  }

  /** The items of 1500 cents. */
  lemma Items5(c: nat)
    requires c == 1500
    ensures c < PyWordify.CentsLimit
    ensures PyWordify.PyItems(c) == [PyWordify.Number(15), PyWordify.Name("dollars")]
  {
    assert PyWordify.Piece(c, 0) == 0 && PyWordify.Piece(c, 1) == 0;
    assert PyWordify.Piece(c, 2) == 15 && PyWordify.Piece(c, 3) == 0;
    assert PyWordify.Plural("dollar", 15) == "dollars";
  }

  /** The items of 1500 cents are written as the words of the test. */
  lemma Written5(items: seq<PyWordify.Item>, words: seq<string>)
    requires items == [PyWordify.Number(15), PyWordify.Name("dollars")]
    requires words == ["fifteen", "dollars"]
    ensures |items| == |words| && forall i :: 0 <= i < |words| ==> WrittenAs(items[i], words[i])
  {
    Spell15(15);
  }

  /** `wordify` on any text read as the amount of "15". */
  lemma PyAmount5(text: string, d: Decimal)
    requires d == Decimal(15, 0) && ParseNumeral(PyWordify.Clean(text)) == Some(d)
    ensures PyWordify.WordsForAmount(text) == Ok(Join(" ", ["fifteen", "dollars"]))
  {
    Pow10Small();
    var c := PyWordify.Cents(d);
    assert c == 1500;
    Items5(c);
    Written5(PyWordify.PyItems(c), ["fifteen", "dollars"]);
    PyCase(text, d, ["fifteen", "dollars"]);
  }

  /** `wordify("15")`. */
  lemma PyTest5()
    ensures PyWordify.WordsForAmount("15") == Ok(Join(" ", ["fifteen", "dollars"]))
  {
    Reads5();
    PyAmount5("15", Decimal(15, 0));
  }

  /** The items of 900000000 cents. */
  lemma Items6(c: nat)
    requires c == 900000000
    ensures c < PyWordify.CentsLimit
    ensures PyWordify.PyItems(c) == [PyWordify.Number(9), PyWordify.Name("million"), PyWordify.Name("dollars")]
  {
    assert PyWordify.Piece(c, 0) == 9 && PyWordify.Piece(c, 1) == 0;
    assert PyWordify.Piece(c, 2) == 0 && PyWordify.Piece(c, 3) == 0;
    assert PyWordify.Plural("dollar", 0) == "dollars";
  }

  /** The items of 900000000 cents are written as the words of the test. */
  lemma Written6(items: seq<PyWordify.Item>, words: seq<string>)
    requires items == [PyWordify.Number(9), PyWordify.Name("million"), PyWordify.Name("dollars")]
    requires words == ["nine", "million", "dollars"]
    ensures |items| == |words| && forall i :: 0 <= i < |words| ==> WrittenAs(items[i], words[i])
  {
    Spell9(9);
  }

  /** `wordify` on any text read as the amount of "9000000". */
  lemma PyAmount6(text: string, d: Decimal)
    requires d == Decimal(9000000, 0) && ParseNumeral(PyWordify.Clean(text)) == Some(d)
    ensures PyWordify.WordsForAmount(text) == Ok(Join(" ", ["nine", "million", "dollars"]))
  {
    Pow10Small();
    var c := PyWordify.Cents(d);
    assert c == 900000000;
    Items6(c);
    Written6(PyWordify.PyItems(c), ["nine", "million", "dollars"]);
    PyCase(text, d, ["nine", "million", "dollars"]);
  }

  /** `wordify("9000000")`. */
  lemma PyTest6()
    ensures PyWordify.WordsForAmount("9000000") == Ok(Join(" ", ["nine", "million", "dollars"]))
  {
    Reads6();
    PyAmount6("9000000", Decimal(9000000, 0));
  }

  /** The items of 100000001 cents. */
  lemma Items7(c: nat)
    requires c == 100000001
    ensures c < PyWordify.CentsLimit
    ensures PyWordify.PyItems(c) == [PyWordify.Number(1), PyWordify.Name("million"), PyWordify.Name("dollars"), PyWordify.And, PyWordify.Number(1), PyWordify.Name("cent")]
  {
    assert PyWordify.Piece(c, 0) == 1 && PyWordify.Piece(c, 1) == 0;
    assert PyWordify.Piece(c, 2) == 0 && PyWordify.Piece(c, 3) == 1;
    assert PyWordify.Plural("dollar", 0) == "dollars" && PyWordify.Plural("cent", 1) == "cent";
  }

  /** The items of 100000001 cents are written as the words of the test. */
  lemma Written7(items: seq<PyWordify.Item>, words: seq<string>)
    requires items == [PyWordify.Number(1), PyWordify.Name("million"), PyWordify.Name("dollars"), PyWordify.And, PyWordify.Number(1), PyWordify.Name("cent")]
    requires words == ["one", "million", "dollars", "and", "one", "cent"]
    ensures |items| == |words| && forall i :: 0 <= i < |words| ==> WrittenAs(items[i], words[i])
  {
    Spell1(1);
  }

  /** `wordify` on any text read as the amount of "1,000,000.01". */
  lemma PyAmount7(text: string, d: Decimal)
    requires d == Decimal(100000001, 2) && ParseNumeral(PyWordify.Clean(text)) == Some(d)
    ensures PyWordify.WordsForAmount(text) == Ok(Join(" ", ["one", "million", "dollars", "and", "one", "cent"]))
  {
    Pow10Small();
    var c := PyWordify.Cents(d);
    assert c == 100000001;
    Items7(c);
    Written7(PyWordify.PyItems(c), ["one", "million", "dollars", "and", "one", "cent"]);
    PyCase(text, d, ["one", "million", "dollars", "and", "one", "cent"]);
  }

  /** `wordify("1,000,000.01")`. */
  lemma PyTest7()
    ensures PyWordify.WordsForAmount("1,000,000.01") == Ok(Join(" ", ["one", "million", "dollars", "and", "one", "cent"]))
  {
    Reads7();
    PyAmount7("1,000,000.01", Decimal(100000001, 2));
  }

  /** The items of 110 cents. */
  lemma Items8(c: nat)
    requires c == 110
    ensures c < PyWordify.CentsLimit
    ensures PyWordify.PyItems(c) == [PyWordify.Number(1), PyWordify.Name("dollar"), PyWordify.And, PyWordify.Number(10), PyWordify.Name("cents")]
  {
    assert PyWordify.Piece(c, 0) == 0 && PyWordify.Piece(c, 1) == 0;
    assert PyWordify.Piece(c, 2) == 1 && PyWordify.Piece(c, 3) == 10;
    assert PyWordify.Plural("dollar", 1) == "dollar" && PyWordify.Plural("cent", 10) == "cents";
  }

  /** The items of 110 cents are written as the words of the test. */
  lemma Written8(items: seq<PyWordify.Item>, words: seq<string>)
    requires items == [PyWordify.Number(1), PyWordify.Name("dollar"), PyWordify.And, PyWordify.Number(10), PyWordify.Name("cents")]
    requires words == ["one", "dollar", "and", "ten", "cents"]
    ensures |items| == |words| && forall i :: 0 <= i < |words| ==> WrittenAs(items[i], words[i])
  {
    Spell1(1);
    Spell10(10);
  }

  /** `wordify` on any text read as the amount of "1.1". */
  lemma PyAmount8(text: string, d: Decimal)
    requires d == Decimal(11, 1) && ParseNumeral(PyWordify.Clean(text)) == Some(d)
    ensures PyWordify.WordsForAmount(text) == Ok(Join(" ", ["one", "dollar", "and", "ten", "cents"]))
  {
    Pow10Small();
    var c := PyWordify.Cents(d);
    assert c == 110;
    Items8(c);
    Written8(PyWordify.PyItems(c), ["one", "dollar", "and", "ten", "cents"]);
    PyCase(text, d, ["one", "dollar", "and", "ten", "cents"]);
  }

  /** `wordify("1.1")`. */
  lemma PyTest8()
    ensures PyWordify.WordsForAmount("1.1") == Ok(Join(" ", ["one", "dollar", "and", "ten", "cents"]))
  {
    Reads8();
    PyAmount8("1.1", Decimal(11, 1));
  }

  /** The items of 52019 cents. */
  lemma Items9(c: nat)
    requires c == 52019
    ensures c < PyWordify.CentsLimit
    ensures PyWordify.PyItems(c) == [PyWordify.Number(520), PyWordify.Name("dollars"), PyWordify.And, PyWordify.Number(19), PyWordify.Name("cents")]
  {
    assert PyWordify.Piece(c, 0) == 0 && PyWordify.Piece(c, 1) == 0;
    assert PyWordify.Piece(c, 2) == 520 && PyWordify.Piece(c, 3) == 19;
    assert PyWordify.Plural("dollar", 520) == "dollars" && PyWordify.Plural("cent", 19) == "cents";
  }

  /** The items of 52019 cents are written as the words of the test. */
  lemma Written9(items: seq<PyWordify.Item>, words: seq<string>)
    requires items == [PyWordify.Number(520), PyWordify.Name("dollars"), PyWordify.And, PyWordify.Number(19), PyWordify.Name("cents")]
    requires words == ["five hundred twenty", "dollars", "and", "nineteen", "cents"]
    ensures |items| == |words| && forall i :: 0 <= i < |words| ==> WrittenAs(items[i], words[i])
  {
    Spell520(520);
    Spell19(19);
  }

  /** `wordify` on any text read as the amount of "$520.19". */
  lemma PyAmount9(text: string, d: Decimal)
    requires d == Decimal(52019, 2) && ParseNumeral(PyWordify.Clean(text)) == Some(d)
    ensures PyWordify.WordsForAmount(text) == Ok(Join(" ", ["five hundred twenty", "dollars", "and", "nineteen", "cents"]))
  {
    Pow10Small();
    var c := PyWordify.Cents(d);
    assert c == 52019;
    Items9(c);
    Written9(PyWordify.PyItems(c), ["five hundred twenty", "dollars", "and", "nineteen", "cents"]);
    PyCase(text, d, ["five hundred twenty", "dollars", "and", "nineteen", "cents"]);
  }

  /** `wordify("$520.19")`. */
  lemma PyTest9()
    ensures PyWordify.WordsForAmount("$520.19") == Ok(Join(" ", ["five hundred twenty", "dollars", "and", "nineteen", "cents"]))
  {
    Reads9();
    PyAmount9("$520.19", Decimal(52019, 2));
  }

  /** Any text read as -3 is refused with the negative ValueError. */
  lemma PyAmountE1(text: string, d: Decimal)
    requires d == Decimal(-3, 0) && ParseNumeral(PyWordify.Clean(text)) == Some(d)
    ensures PyWordify.WordsForAmount(text) == Err(PyWordify.ValueError(PyWordify.Negative))
  {
    Pow10Small();
  }

  /** `wordify("-3")`: a negative amount is refused with a ValueError. */
  lemma PyTestE1()
    ensures PyWordify.WordsForAmount("-3") == Err(PyWordify.ValueError(PyWordify.Negative))
  {
    ReadsE1();
    PyAmountE1("-3", Decimal(-3, 0));
  }

  /** `wordify("3-fiddy")`: the letters make the text no number at all. */
  lemma PyTestE2()
    ensures PyWordify.WordsForAmount("3-fiddy") == Err(PyWordify.InvalidOperation)
  {
    var text := "3-fiddy";
    assert text[4] == 'd';
    PyWordify.ForeignRefused(text, 'd');
  }

  /** Any text read as a billion is refused as too large. */
  lemma PyAmountE3(text: string, d: Decimal)
    requires d == Decimal(1_000_000_000, 0) && ParseNumeral(PyWordify.Clean(text)) == Some(d)
    ensures PyWordify.WordsForAmount(text) == Err(PyWordify.ValueError(PyWordify.TooLarge))
  {
    Pow10Small();
  }

  /** `wordify("$1000000000")`: a billion dollars is refused as too large. */
  lemma PyTestE3()
    ensures PyWordify.WordsForAmount("$1000000000") == Err(PyWordify.ValueError(PyWordify.TooLarge))
  {
    ReadsE3();
    PyAmountE3("$1000000000", Decimal(1_000_000_000, 0));
  }

  /** Any text read as 10.123 is refused as too precise. */
  lemma PyAmountE4(text: string, d: Decimal)
    requires d == Decimal(10123, 3) && ParseNumeral(PyWordify.Clean(text)) == Some(d)
    ensures PyWordify.WordsForAmount(text) == Err(PyWordify.ValueError(PyWordify.TooPrecise))
  {
    GoWordify.Pow10Table();
  }

  /** `wordify("10.123")`: a fraction of a cent is refused as too precise. */
  lemma PyTestE4()
    ensures PyWordify.WordsForAmount("10.123") == Err(PyWordify.ValueError(PyWordify.TooPrecise))
  {
    ReadsE4();
    PyAmountE4("10.123", Decimal(10123, 3));
  }

  // ---------------------------------------------------------------------
  // go-wordify/wordify_test.go

  /** Go on text read as an amount it accepts that is not negative: the
      sentence of its whole cents. */
  lemma GoCase(input: string, num: Decimal)
    requires ParseNumeral(GoWordify.Cleaned(input)) == Some(num)
    requires 0 <= num.mantissa < GoWordify.Limit(num.scale)
    ensures GoWordify.GoWordsFor(input) == Ok(GoWordify.GoPhrase(GoWordify.WholeCents(num)))
  {
    GoWordify.GoWordsPhrase(input, num);
  }

  /** The sentence below a thousand dollars: the dollar segment, then the
      cent segment after " and " when there are cents. */
  lemma PhraseBelowThousand(c: int)
    requires 0 <= c < 100_000
    ensures var d, p := (c / 100) % 1000, c % 100;
            GoWordify.GoPhrase(c)
            == GoWordify.Segment(d, GoWordify.Plural("dollar", d))
               + (if p > 0 then " and " + GoWordify.Segment(p, GoWordify.Plural("cent", p)) else "")
  {
    GoWordify.Pow10Table();
    assert c / Pow10(8) == 0 && (c / Pow10(5)) % 1000 == 0;
    var d := (c / 100) % 1000;
    var e := GoWordify.Segment(d, GoWordify.Plural("dollar", d));
    var segments: seq<string> := [] + [] + [e];
    assert segments == [e];
  }

  /** The segment of 100 dollars. */
  lemma SegmentsBasic(d: int)
    requires d == 100
    ensures GoWordify.Segment(d, GoWordify.Plural("dollar", d)) == "one hundred dollars"
  {
    Spell100(d);
    GluedBasic();
  }

  lemma GluedBasic()
    ensures "one hundred" + " " + ("dollar" + "s") == "one hundred dollars"
  {
  }

  /** The sentence for 10000 whole cents. */
  lemma PhraseBasic(c: int)
    requires c == 10000
    ensures GoWordify.GoPhrase(c) == "one hundred dollars"
  {
    var d, p := (c / 100) % 1000, c % 100;
    assert d == 100 && p == 0;
    PhraseBelowThousand(c);
    SegmentsBasic(d);
  }

  /** `wordify` on any text read as the amount of "100". */
  lemma GoAmountBasic(input: string, num: Decimal)
    requires num == Decimal(100, 0) && ParseNumeral(GoWordify.Cleaned(input)) == Some(num)
    ensures GoWordify.GoWordsFor(input) == Ok("one hundred dollars")
  {
    GoWordify.Pow10Table();
    Pow10Small();
    var c := GoWordify.WholeCents(num);
    assert c == 10000;
    PhraseBasic(c);
    GoCase(input, num);
  }

  /** `wordify("100")`. */
  lemma GoTestBasic()
    ensures GoWordify.GoWordsFor("100") == Ok("one hundred dollars")
  {
    ReadsBasic();
    GoAmountBasic("100", Decimal(100, 0));
  }

  /** The segment of 0 dollars. */
  lemma SegmentsZero(d: int)
    requires d == 0
    ensures GoWordify.Segment(d, GoWordify.Plural("dollar", d)) == "zero dollars"
  {
  }

  /** The sentence for 0 whole cents. */
  lemma PhraseZero(c: int)
    requires c == 0
    ensures GoWordify.GoPhrase(c) == "zero dollars"
  {
    var d, p := (c / 100) % 1000, c % 100;
    assert d == 0 && p == 0;
    PhraseBelowThousand(c);
    SegmentsZero(d);
  }

  /** `wordify` on any text read as the amount of "0". */
  lemma GoAmountZero(input: string, num: Decimal)
    requires num == Decimal(0, 0) && ParseNumeral(GoWordify.Cleaned(input)) == Some(num)
    ensures GoWordify.GoWordsFor(input) == Ok("zero dollars")
  {
    GoWordify.Pow10Table();
    Pow10Small();
    var c := GoWordify.WholeCents(num);
    assert c == 0;
    PhraseZero(c);
    GoCase(input, num);
  }

  /** `wordify("0")`. */
  lemma GoTestZero()
    ensures GoWordify.GoWordsFor("0") == Ok("zero dollars")
  {
    ReadsZero();
    GoAmountZero("0", Decimal(0, 0));
  }

  /** The segments of 10.15 dollars. */
  lemma SegmentsCents(d: int, p: int)
    requires d == 10 && p == 15
    ensures GoWordify.Segment(d, GoWordify.Plural("dollar", d)) == "ten dollars"
    ensures GoWordify.Segment(p, GoWordify.Plural("cent", p)) == "fifteen cents"
  {
    Spell10(d);
    Spell15(p);
    GluedCents();
  }

  lemma GluedCents()
    ensures "ten" + " " + ("dollar" + "s") == "ten dollars"
    ensures "fifteen" + " " + ("cent" + "s") == "fifteen cents"
  {
  }

  /** The sentence for 1015 whole cents. */
  lemma PhraseCents(c: int)
    requires c == 1015
    ensures GoWordify.GoPhrase(c) == "ten dollars" + " and " + "fifteen cents"
  {
    var d, p := (c / 100) % 1000, c % 100;
    assert d == 10 && p == 15;
    PhraseBelowThousand(c);
    SegmentsCents(d, p);
  }

  /** `wordify` on any text read as the amount of "10.15". */
  lemma GoAmountCents(input: string, num: Decimal)
    requires num == Decimal(1015, 2) && ParseNumeral(GoWordify.Cleaned(input)) == Some(num)
    ensures GoWordify.GoWordsFor(input) == Ok("ten dollars" + " and " + "fifteen cents")
  {
    GoWordify.Pow10Table();
    Pow10Small();
    var c := GoWordify.WholeCents(num);
    assert c == 1015;
    PhraseCents(c);
    GoCase(input, num);
  }

  /** `wordify("10.15")`. */
  lemma GoTestCents()
    ensures GoWordify.GoWordsFor("10.15") == Ok("ten dollars" + " and " + "fifteen cents")
  {
    ReadsCents();
    GoAmountCents("10.15", Decimal(1015, 2));
  }

  /** The segments of 1.01 dollars. */
  lemma SegmentsSingles(d: int, p: int)
    requires d == 1 && p == 1
    ensures GoWordify.Segment(d, GoWordify.Plural("dollar", d)) == "one dollar"
    ensures GoWordify.Segment(p, GoWordify.Plural("cent", p)) == "one cent"
  {
    Spell1(d);
    Spell1(p);
    GluedSingles();
  }

  lemma GluedSingles()
    ensures "one" + " " + "dollar" == "one dollar"
    ensures "one" + " " + "cent" == "one cent"
  {
  }

  /** The sentence for 101 whole cents. */
  lemma PhraseSingles(c: int)
    requires c == 101
    ensures GoWordify.GoPhrase(c) == "one dollar" + " and " + "one cent"
  {
    var d, p := (c / 100) % 1000, c % 100;
    assert d == 1 && p == 1;
    PhraseBelowThousand(c);
    SegmentsSingles(d, p);
  }

  /** `wordify` on any text read as the amount of "1.01". */
  lemma GoAmountSingles(input: string, num: Decimal)
    requires num == Decimal(101, 2) && ParseNumeral(GoWordify.Cleaned(input)) == Some(num)
    ensures GoWordify.GoWordsFor(input) == Ok("one dollar" + " and " + "one cent")
  {
    GoWordify.Pow10Table();
    Pow10Small();
    var c := GoWordify.WholeCents(num);
    assert c == 101;
    PhraseSingles(c);
    GoCase(input, num);
  }

  /** `wordify("1.01")`. */
  lemma GoTestSingles()
    ensures GoWordify.GoWordsFor("1.01") == Ok("one dollar" + " and " + "one cent")
  {
    ReadsSingles();
    GoAmountSingles("1.01", Decimal(101, 2));
  }

  /** The segments of 0.11 dollars. */
  lemma SegmentsCentsOnly(d: int, p: int)
    requires d == 0 && p == 11
    ensures GoWordify.Segment(d, GoWordify.Plural("dollar", d)) == "zero dollars"
    ensures GoWordify.Segment(p, GoWordify.Plural("cent", p)) == "eleven cents"
  {
    Spell11(p);
    GluedCentsOnly();
  }

  lemma GluedCentsOnly()
    ensures "zero" + " " + ("dollar" + "s") == "zero dollars"
    ensures "eleven" + " " + ("cent" + "s") == "eleven cents"
  {
  }

  /** The sentence for 11 whole cents. */
  lemma PhraseCentsOnly(c: int)
    requires c == 11
    ensures GoWordify.GoPhrase(c) == "zero dollars" + " and " + "eleven cents"
  {
    var d, p := (c / 100) % 1000, c % 100;
    assert d == 0 && p == 11;
    PhraseBelowThousand(c);
    SegmentsCentsOnly(d, p);
  }

  /** `wordify` on any text read as the amount of ".11". */
  lemma GoAmountCentsOnly(input: string, num: Decimal)
    requires num == Decimal(11, 2) && ParseNumeral(GoWordify.Cleaned(input)) == Some(num)
    ensures GoWordify.GoWordsFor(input) == Ok("zero dollars" + " and " + "eleven cents")
  {
    GoWordify.Pow10Table();
    Pow10Small();
    var c := GoWordify.WholeCents(num);
    assert c == 11;
    PhraseCentsOnly(c);
    GoCase(input, num);
  }

  /** `wordify(".11")`. */
  lemma GoTestCentsOnly()
    ensures GoWordify.GoWordsFor(".11") == Ok("zero dollars" + " and " + "eleven cents")
  {
    ReadsCentsOnly();
    GoAmountCentsOnly(".11", Decimal(11, 2));
  }

  /** The segments of 175505670.99 dollars put together. */
  lemma GluedLarge()
    ensures "one hundred seventy-five" + " " + "million" == "one hundred seventy-five million"
    ensures "five hundred five" + " " + "thousand" == "five hundred five thousand"
    ensures "six hundred seventy" + " " + ("dollar" + "s") == "six hundred seventy dollars"
    ensures "ninety-nine" + " " + ("cent" + "s") == "ninety-nine cents"
  {
  }

  /** The segments of 175505670.99 dollars. */
  lemma SegmentsLarge(m: int, t: int, d: int, p: int)
    requires m == 175 && t == 505 && d == 670 && p == 99
    ensures GoWordify.Segment(m, "million") == "one hundred seventy-five million"
    ensures GoWordify.Segment(t, "thousand") == "five hundred five thousand"
    ensures GoWordify.Segment(d, GoWordify.Plural("dollar", d)) == "six hundred seventy dollars"
    ensures GoWordify.Segment(p, GoWordify.Plural("cent", p)) == "ninety-nine cents"
  {
    Spell175(m);
    Spell505(t);
    Spell670(d);
    Spell99(p);
    GluedLarge();
  }

  /** The sentence with every piece nonzero: millions, thousands and
      dollars joined with ", ", then " and " and the cents. */
  lemma PhraseOfFour(c: int, m: int, t: int, d: int, p: int)
    requires m == c / Pow10(8) && t == (c / Pow10(5)) % 1000 && d == (c / 100) % 1000 && p == c % 100
    requires m > 0 && t > 0 && p > 0
    ensures GoWordify.GoPhrase(c)
            == GoWordify.Segment(m, "million") + ", " + GoWordify.Segment(t, "thousand") + ", "
               + GoWordify.Segment(d, GoWordify.Plural("dollar", d)) + " and " + GoWordify.Segment(p, GoWordify.Plural("cent", p))
  {
    var a, b, e := GoWordify.Segment(m, "million"), GoWordify.Segment(t, "thousand"),
                   GoWordify.Segment(d, GoWordify.Plural("dollar", d));
    var f := GoWordify.Segment(p, GoWordify.Plural("cent", p));
    var segments: seq<string> := [a] + [b] + [e];
    assert segments == [a, b, e];
    assert GoWordify.GoPhrase(c) == Join(", ", segments) + (" and " + f);
    JoinTriple(", ", a, b, e);
    AppendAssoc(a + ", " + b + ", " + e, " and ", f, "");
  }

  /** The sentence for 175505670.99 dollars. */
  lemma PhraseLarge(c: int)
    requires c == 17550567099
    ensures GoWordify.GoPhrase(c)
            == "one hundred seventy-five million" + ", " + "five hundred five thousand" + ", "
               + "six hundred seventy dollars" + " and " + "ninety-nine cents"
  {
    GoWordify.Pow10Table();
    var m, t, d, p := c / Pow10(8), (c / Pow10(5)) % 1000, (c / 100) % 1000, c % 100;
    assert m == 175 && t == 505 && d == 670 && p == 99;
    SegmentsLarge(m, t, d, p);
    PhraseOfFour(c, m, t, d, p);
  }

  /** `wordify` on any text read as the amount of "175505670.99". */
  lemma GoAmountLarge(input: string, num: Decimal)
    requires num == Decimal(17550567099, 2) && ParseNumeral(GoWordify.Cleaned(input)) == Some(num)
    ensures GoWordify.GoWordsFor(input)
            == Ok("one hundred seventy-five million" + ", " + "five hundred five thousand" + ", "
                  + "six hundred seventy dollars" + " and " + "ninety-nine cents")
  {
    GoWordify.Pow10Table();
    Pow10Small();
    var c := GoWordify.WholeCents(num);
    assert c == 17550567099;
    PhraseLarge(c);
    GoCase(input, num);
  }

  /** `wordify("175505670.99")`. */
  lemma GoTestLarge()
    ensures GoWordify.GoWordsFor("175505670.99")
            == Ok("one hundred seventy-five million" + ", " + "five hundred five thousand" + ", "
                  + "six hundred seventy dollars" + " and " + "ninety-nine cents")
  {
    ReadsLarge();
    GoAmountLarge("175505670.99", Decimal(17550567099, 2));
  }
}
