/** The Go converter of go-wordify/wordify.go: `cleanInput` reads the amount,
    `getRanges` splits it greedily over five ranges (billion down to cent),
    `setWords` writes each range's words into its record in place, and
    `getWordString` joins the records' words with ", " and " and ".

    Decimal arithmetic is modelled exactly on integers: an amount
    `mantissa / 10^scale` is carried as `mantissa * 100`, a count of units of
    `10^-(scale + 2)`, so that every range's starting power, the cent
    included, is a whole number of units.

    `Label` and `Plural` follow `setWords` here rather than reuse the
    Python module's rule: Go decides the "s" from a record's `pluralized`
    flag and its `int` value. */
module GoWordify {
  import opened Results
  import opened Text
  import opened Numerals
  import opened Arith

  /** `cleanInput` ends the program with a message for text that is not a
      number and for an amount of a billion dollars or more; both exits are
      errors here. */
  datatype GoError = NotANumber | TooLarge

  /** One `dollarRange` record. */
  datatype DollarRange = DollarRange(
    description: string,
    startingPower: int,
    pluralized: bool,
    value: int,
    zero: bool,
    words: string)

  // ---------------------------------------------------------------------
  // cleanInput

  /** The text `cleanInput` hands to the decimal reader: every '$' and ','
      removed, nothing trimmed. */
  function Cleaned(input: string): string {
    RemoveAll(RemoveAll(input, '$'), ',')
  }

  /** `10^9` in units of `10^-scale`: the exclusive bound `cleanInput` puts
      on an amount with `scale` fractional digits. */
  function Limit(scale: nat): nat {
    Pow10(9) * Pow10(scale)
  }

  /** `cleanInput`: the cleaned text read as a decimal; text that is not a
      number and amounts of 10^9 or more are refused, anything else (negative
      amounts and fractions of a cent included) is accepted. */
  function CleanInput(input: string): (r: Result<Decimal, GoError>)
    ensures r == Err(NotANumber) <==> ParseNumeral(Cleaned(input)).None?
    ensures r.Ok? ==> ParseNumeral(Cleaned(input)) == Some(r.value) && r.value.mantissa < Limit(r.value.scale)
    ensures r == Err(TooLarge) <==>
              (ParseNumeral(Cleaned(input)).Some?
               && ParseNumeral(Cleaned(input)).value.mantissa >= Limit(ParseNumeral(Cleaned(input)).value.scale))
  {
    match ParseNumeral(Cleaned(input))
    case None => Err(NotANumber)
    case Some(num) =>
      if num.mantissa >= Limit(num.scale) then Err(TooLarge) else Ok(num)
  }

  /** Text holding a character that is neither a digit, '.', a sign, '$',
      ',' nor the 'e' or 'E' of an exponent is refused as not a number;
      whitespace included, since nothing is trimmed. */
  lemma ForeignRefused(input: string, x: char)
    requires x in input && !IsDigit(x) && x !in "$,.+-eE"
    ensures CleanInput(input) == Err(NotANumber)
  {
    RemoveAllKeeps(input, '$', x);
    RemoveAllKeeps(RemoveAll(input, '$'), ',', x);
    var s := Cleaned(input);
    ForeignChar(s, x);
  }

  // ---------------------------------------------------------------------
  // getWordsFromInt

  /** The `singles` map. */
  const Singles: map<int, string> := map[
    1 := "one",
    2 := "two",
    3 := "three",
    4 := "four",
    5 := "five",
    6 := "six",
    7 := "seven",
    8 := "eight",
    9 := "nine",
    10 := "ten",
    11 := "eleven",
    12 := "twelve",
    13 := "thirteen",
    14 := "fourteen",
    15 := "fifteen",
    16 := "sixteen",
    17 := "seventeen",
    18 := "eighteen",
    19 := "nineteen"
  ]

  /** The `tens` map. */
  const Tens: map<int, string> := map[
    2 := "twenty",
    3 := "thirty",
    4 := "forty",
    5 := "fifty",
    6 := "sixty",
    7 := "seventy",
    8 := "eighty",
    9 := "ninety"
  ]

  /** `singles[n]`: a Go map gives "" for a missing key. */
  function Single(n: int): string {
    if n in Singles then Singles[n] else ""
  }

  /** `tens[d]`, "" for a missing key. */
  function Ten(d: int): string {
    if d in Tens then Tens[d] else ""
  }

  /** What `getWordsFromInt` returns, by the digits of `n`: "" for a
      negative number, "zero" for 0; otherwise the hundreds, then the last
      two digits. */
  function GoSpell(n: int): string {
    if n < 0 then ""
    else if n == 0 then "zero"
    else HundredsText(n) + BelowHundred(n % 100)
  }

  /** The hundreds of `n` (`n / 100`, past the map above 1999) with
      " hundred" and a space when more follows; "" below 100. */
  function HundredsText(n: int): string {
    if n > 99 then Single(n / 100) + " hundred" + (if n % 100 > 0 then " " else "") else ""
  }

  /** The words for the last two digits, "" for 0. */
  function BelowHundred(r: int): string {
    if r > 19 then Ten(r / 10) + (if r % 10 > 0 then "-" + Single(r % 10) else "")
    else if r > 0 then Single(r)
    else ""
  }

  /** `getWordsFromInt(num)`: "zero" for 0, then the hundreds are written and
      taken off, then the tens, then what is left. */
  method GetWordsFromInt(num: int) returns (words: string)
    ensures words == GoSpell(num)
  {
    var n := num;
    words := "";
    if n == 0 {
      words := "zero";
    }
    if n > 99 {
      var hundredsDigit := n / 100;
      words := words + Single(hundredsDigit) + " hundred";
      SubQuotient(n, 100);
      n := n - hundredsDigit * 100;
      if n > 0 {
        words := words + " ";
      }
    }
    ghost var head, rest := words, n;
    HundredsSteps(num, head, rest);
    if n > 19 {
      var tensDigit := n / 10;
      words := words + Ten(tensDigit);
      SubQuotient(n, 10);
      n := n - tensDigit * 10;
      if n > 0 {
        words := words + "-";
      }
    }
    if n > 0 {
      words := words + Single(n);
    }
    TensSteps(head, rest);
  }

  /** After the hundreds are written: the words so far and what is left
      account for the whole of `GoSpell`. */
  lemma HundredsSteps(num: int, head: string, rest: int)
    requires num > 99 ==> rest == num % 100
    requires num > 99 ==> head == if rest > 0 then "" + Single(num / 100) + " hundred" + " "
                                  else "" + Single(num / 100) + " hundred"
    requires num <= 99 ==> rest == num && head == if num == 0 then "zero" else ""
    ensures rest < 100
    ensures GoSpell(num) == head + BelowHundred(rest)
  {
    if num > 99 {
      var u := Single(num / 100);
      EmptyAppend(u);
      EmptyAppend(u + " hundred");
      assert head == HundredsText(num);
    } else if num > 0 {
      SmallDivMod(num, 100);
      assert HundredsText(num) == "";
      EmptyAppend(BelowHundred(rest));
    } else {
      assert BelowHundred(rest) == "";
      EmptyAppend(head);
    }
  }

  /** The tens, a hyphen and the last digit, appended one by one, write
      `BelowHundred` of what was left. */
  lemma TensSteps(head: string, r: int)
    requires r < 100
    ensures var t := if r > 19 then r - (r / 10) * 10 else r;
            var w := if r > 19 && t > 0 then head + Ten(r / 10) + "-"
                     else if r > 19 then head + Ten(r / 10)
                     else head;
            (if t > 0 then w + Single(t) else w) == head + BelowHundred(r)
  {
    if r > 19 {
      SubQuotient(r, 10);
      var t := r % 10;
      if t > 0 {
        AppendAssoc(head, Ten(r / 10), "-", Single(t));
      } else {
        EmptyAppend(Ten(r / 10));
      }
    } else if r <= 0 {
      EmptyAppend(head);
    }
  }

  // ---------------------------------------------------------------------
  // setupRanges and getRanges

  /** The five records `setupRanges` appends, value 0 and no words yet. */
  const RangeTable: seq<DollarRange> := [
    DollarRange("billion", 9, false, 0, false, ""),
    DollarRange("million", 6, false, 0, false, ""),
    DollarRange("thousand", 3, false, 0, false, ""),
    DollarRange("dollar", 0, true, 0, true, ""),
    DollarRange("cent", -2, true, 0, false, "")
  ]

  /** `setupRanges`: a fresh array of the five records, largest first. */
  method SetupRanges() returns (ranges: array<DollarRange>)
    ensures fresh(ranges)
    ensures ranges[..] == RangeTable
  {
    ranges := new DollarRange[5];
    ranges[0] := DollarRange("billion", 9, false, 0, false, "");
    ranges[1] := DollarRange("million", 6, false, 0, false, "");
    ranges[2] := DollarRange("thousand", 3, false, 0, false, "");
    ranges[3] := DollarRange("dollar", 0, true, 0, true, "");
    ranges[4] := DollarRange("cent", -2, true, 0, false, "");
  }

  /** `10^power` counted in units of `10^-(scale + 2)`, the smallest step of
      an amount with `scale` fractional digits once it is multiplied by 100. */
  function Unit(scale: nat, power: int): (u: nat)
    requires power >= -2
    ensures u >= 1
  {
    Pow10((power + 2) as nat + scale)
  }

  /** The unit of range `k` for an amount with `scale` fractional digits. */
  function RangeUnit(scale: nat, k: nat): nat
    requires k < |RangeTable|
  {
    Unit(scale, RangeTable[k].startingPower)
  }

  /** What is left of the amount `n` (in units) before range `k`: each range
      whose bottom fits takes off as many whole units as fit. */
  function Remaining(n: int, scale: nat, k: nat): int
    requires k <= |RangeTable|
  {
    if k == 0 then n
    else
      var r, u := Remaining(n, scale, k - 1), RangeUnit(scale, k - 1);
      if r >= u then r - (r / u) * u else r
  }

  /** The value `getRanges` gives range `k`: the whole number of its units in
      what is left, or 0 when what is left is below its bottom. */
  function Value(n: int, scale: nat, k: nat): int
    requires k < |RangeTable|
  {
    var r, u := Remaining(n, scale, k), RangeUnit(scale, k);
    if r >= u then r / u else 0
  }

  /** Amount in units of `10^-(scale + 2)`. */
  function Units(num: Decimal): int {
    num.mantissa * 100
  }

  /** The records after `getRanges(num)`. */
  function RangesFor(num: Decimal): (rs: seq<DollarRange>)
    ensures |rs| == |RangeTable|
  {
    seq(|RangeTable|, k requires 0 <= k < |RangeTable| => RangeTable[k].(value := Value(Units(num), num.scale, k)))
  }

  /** `getRanges(num)`: each range, largest first, takes the whole number of
      its bottom that fits in what is left. */
  method GetRanges(num: Decimal) returns (ranges: array<DollarRange>)
    ensures fresh(ranges)
    ensures ranges[..] == RangesFor(num)
  {
    ranges := SetupRanges();
    ghost var settled := RangesFor(num);
    var rem := Units(num);
    for i := 0 to ranges.Length
      invariant ranges.Length == |RangeTable|
      invariant forall k :: 0 <= k < i ==> ranges[k] == settled[k]
      invariant forall k :: i <= k < ranges.Length ==> ranges[k] == RangeTable[k]
      invariant rem == Remaining(Units(num), num.scale, i)
    {
      var r := ranges[i];
      RangeSettled(num, i);
      var minInRange := Unit(num.scale, r.startingPower);
      if rem >= minInRange {
        var piece := rem / minInRange;
        ranges[i] := r.(value := piece);
        rem := rem - piece * minInRange;
      }
    }
    assert ranges[..] == settled;
  }

  /** Range `i` of `RangesFor` is the table's record with its value, which
      is the untouched record when nothing fits. */
  lemma RangeSettled(num: Decimal, i: nat)
    requires i < |RangeTable|
    ensures RangesFor(num)[i] == RangeTable[i].(value := Value(Units(num), num.scale, i))
    ensures Remaining(Units(num), num.scale, i) < RangeUnit(num.scale, i) ==> RangesFor(num)[i] == RangeTable[i]
  {
  }

  /** What is left of a non-negative amount stays non-negative. */
  lemma {:induction false} RemainingNonnegative(n: int, scale: nat, k: nat)
    requires n >= 0 && k <= |RangeTable|
    ensures Remaining(n, scale, k) >= 0
  {
    if k > 0 {
      RemainingNonnegative(n, scale, k - 1);
      SubQuotient(Remaining(n, scale, k - 1), RangeUnit(scale, k - 1));
    }
  }

  /** On a non-negative amount each range takes the quotient by its unit and
      leaves the remainder. */
  lemma RemainingStep(n: int, scale: nat, k: nat)
    requires n >= 0 && k < |RangeTable|
    ensures Value(n, scale, k) == Remaining(n, scale, k) / RangeUnit(scale, k)
    ensures Remaining(n, scale, k + 1) == Remaining(n, scale, k) % RangeUnit(scale, k)
  {
    RemainingNonnegative(n, scale, k);
    var r, u := Remaining(n, scale, k), RangeUnit(scale, k);
    if r < u {
      SmallDivMod(r, u);
    } else {
      SubQuotient(r, u);
    }
  }

  lemma Pow10Table()
    ensures Pow10(2) == 100 && Pow10(3) == 1000 && Pow10(5) == 100_000
    ensures Pow10(8) == 100_000_000 && Pow10(11) == 100_000_000_000
  {
    Pow10Small();
    Pow10Add(3, 2);
    Pow10Add(3, 5);
    Pow10Add(3, 8);
  }

  /** The range units, billion to cent, as powers of ten. */
  lemma RangeUnits(scale: nat)
    ensures RangeUnit(scale, 0) == Pow10(11 + scale) == Pow10(11) * Pow10(scale)
    ensures RangeUnit(scale, 1) == Pow10(8 + scale) == Pow10(8) * Pow10(scale)
    ensures RangeUnit(scale, 2) == Pow10(5 + scale) == Pow10(5) * Pow10(scale)
    ensures RangeUnit(scale, 3) == Pow10(2 + scale) == Pow10(2) * Pow10(scale)
    ensures RangeUnit(scale, 4) == Pow10(scale)
  {
    Pow10Add(11, scale);
    Pow10Add(8, scale);
    Pow10Add(5, scale);
    Pow10Add(2, scale);
  }

  /** The cents in a non-negative accepted amount, fractions of a cent
      dropped. */
  function WholeCents(num: Decimal): int {
    Units(num) / Pow10(num.scale)
  }

  /** Dividing the amount by a range's unit is dividing its whole cents by
      the range's size in cents. */
  lemma UnitsOverRange(n: int, e: nat, scale: nat)
    ensures n / (Pow10(e) * Pow10(scale)) == (n / Pow10(scale)) / Pow10(e)
  {
    DivModNested(n, Pow10(e), Pow10(scale));
  }

  /** Below a billion dollars the billion range takes nothing and leaves the
      whole amount. */
  lemma GreedyBillion(num: Decimal)
    requires 0 <= num.mantissa < Limit(num.scale)
    ensures Value(Units(num), num.scale, 0) == 0
    ensures Remaining(Units(num), num.scale, 1) == Units(num)
  {
    var n, s := Units(num), num.scale;
    Pow10Table();
    RangeUnits(s);
    assert n < Pow10(11) * Pow10(s) by {
      assert Pow10(11) * Pow10(s) == 100 * Limit(s);
    }
    RemainingStep(n, s, 0);
    SmallDivMod(n, RangeUnit(s, 0));
  }

  /** The million range takes the whole cents over 10^8 and leaves what is
      below a million dollars. */
  lemma GreedyMillion(num: Decimal)
    requires 0 <= num.mantissa < Limit(num.scale)
    ensures Value(Units(num), num.scale, 1) == WholeCents(num) / Pow10(8)
    ensures Remaining(Units(num), num.scale, 2) == Units(num) % Pow10(8 + num.scale)
  {
    var n, s := Units(num), num.scale;
    GreedyBillion(num);
    RangeUnits(s);
    RemainingStep(n, s, 1);
    UnitsOverRange(n, 8, s);
  }

  /** The thousand range takes the thousands of dollars below a million. */
  lemma GreedyThousand(num: Decimal)
    requires 0 <= num.mantissa < Limit(num.scale)
    ensures Value(Units(num), num.scale, 2) == (WholeCents(num) / Pow10(5)) % 1000
    ensures Remaining(Units(num), num.scale, 3) == Units(num) % Pow10(5 + num.scale)
  {
    var n, s := Units(num), num.scale;
    GreedyMillion(num);
    RangeUnits(s);
    Pow10Table();
    RemainingStep(n, s, 2);
    Pow10Add(3, 5 + s);
    DivModNested(n, 1000, Pow10(5 + s));
    UnitsOverRange(n, 5, s);
  }

  /** The dollar range takes the dollars below a thousand. */
  lemma GreedyDollar(num: Decimal)
    requires 0 <= num.mantissa < Limit(num.scale)
    ensures Value(Units(num), num.scale, 3) == (WholeCents(num) / 100) % 1000
    ensures Remaining(Units(num), num.scale, 4) == Units(num) % Pow10(2 + num.scale)
  {
    var n, s := Units(num), num.scale;
    GreedyThousand(num);
    RangeUnits(s);
    Pow10Table();
    RemainingStep(n, s, 3);
    Pow10Add(3, 2 + s);
    DivModNested(n, 1000, Pow10(2 + s));
    UnitsOverRange(n, 2, s);
  }

  /** The cent range takes the cents below a dollar and leaves only a
      fraction of a cent. */
  lemma GreedyCent(num: Decimal)
    requires 0 <= num.mantissa < Limit(num.scale)
    ensures Value(Units(num), num.scale, 4) == WholeCents(num) % 100
    ensures Remaining(Units(num), num.scale, 5) == Units(num) % Pow10(num.scale)
  {
    var n, s := Units(num), num.scale;
    GreedyDollar(num);
    RangeUnits(s);
    Pow10Table();
    RemainingStep(n, s, 4);
    DivModNested(n, 100, Pow10(s));
  }

  /** The greedy split of an accepted non-negative amount is exact: the
      billion range takes nothing, million, thousand and dollar take 0..999
      each and the cents 0..99; together they make up the whole cents, and
      what is left is less than one cent. */
  lemma GreedyExact(num: Decimal)
    requires 0 <= num.mantissa < Limit(num.scale)
    ensures var n, s := Units(num), num.scale;
            var m, t, d, p := Value(n, s, 1), Value(n, s, 2), Value(n, s, 3), Value(n, s, 4);
            && Value(n, s, 0) == 0
            && 0 <= m <= 999 && 0 <= t <= 999 && 0 <= d <= 999 && 0 <= p <= 99
            && m * 100_000_000 + t * 100_000 + d * 100 + p == WholeCents(num)
            && 0 <= Remaining(n, s, 5) < Pow10(s)
            && WholeCents(num) * Pow10(s) + Remaining(n, s, 5) == n
  {
    Pow10Table();
    GreedyBillion(num);
    GreedyMillion(num);
    GreedyThousand(num);
    GreedyDollar(num);
    GreedyCent(num);
    WholeCentsBelow(num);
    CentsDigits(WholeCents(num));
    SubQuotient(Units(num), Pow10(num.scale));
  }

  /** Cents below a billion dollars split into millions, thousands and
      dollars of at most three digits each and two digits of cents. */
  lemma CentsDigits(c: int)
    requires 0 <= c < 100_000_000_000
    ensures c / 100_000_000 <= 999
    ensures (c / 100_000_000) * 100_000_000 + ((c / 100_000) % 1000) * 100_000
            + ((c / 100) % 1000) * 100 + c % 100 == c
  {
    DivModNested(c, 1000, 100_000);
    DivModNested(c, 1000, 100);
  }

  /** The whole cents of an accepted non-negative amount are below 10^11,
      a billion dollars. */
  lemma WholeCentsBelow(num: Decimal)
    requires 0 <= num.mantissa < Limit(num.scale)
    ensures 0 <= WholeCents(num) < 100_000_000_000
  {
    var n, s := Units(num), num.scale;
    Pow10Table();
    assert n < Pow10(11) * Pow10(s) by {
      assert Pow10(11) * Pow10(s) == 100 * Limit(s);
    }
    SmallDivMod(n, Pow10(11) * Pow10(s));
    DivModNested(n, Pow10(11), Pow10(s));
  }

  /** On a negative amount no range's bottom fits: every value stays 0. */
  lemma {:induction false} GreedyNegative(n: int, scale: nat, k: nat)
    requires n < 0 && k <= |RangeTable|
    ensures Remaining(n, scale, k) == n
    ensures k < |RangeTable| ==> Value(n, scale, k) == 0
  {
    if k > 0 {
      GreedyNegative(n, scale, k - 1);
    }
  }

  // ---------------------------------------------------------------------
  // setWords

  /** The description with an "s" when the range is pluralized and its value
      is not 1. */
  function Label(r: DollarRange): string {
    if r.value != 1 && r.pluralized then r.description + "s" else r.description
  }

  /** A pluralized range's description for a value: an "s" unless it is 1. */
  function Plural(name: string, v: int): string {
    if v != 1 then name + "s" else name
  }

  /** A record after `setWords`: a range with a nonzero value, or one that
      is spoken even at zero, gets its number's words and its label; any
      other record is left as it was. */
  function WithWords(r: DollarRange): DollarRange {
    if r.value > 0 || r.zero then r.(words := GoSpell(r.value) + " " + Label(r)) else r
  }

  /** `setWords(ranges)`: each record's words are written in place. */
  method SetWords(ranges: array<DollarRange>)
    modifies ranges
    ensures forall k :: 0 <= k < ranges.Length ==> ranges[k] == WithWords(old(ranges[k]))
  {
    for i := 0 to ranges.Length
      invariant forall k :: 0 <= k < i ==> ranges[k] == WithWords(old(ranges[k]))
      invariant forall k :: i <= k < ranges.Length ==> ranges[k] == old(ranges[k])
    {
      var r := ranges[i];
      if r.value > 0 || r.zero {
        if ranges[i].value != 1 && r.pluralized {
          r := r.(description := r.description + "s");
        }
        var number := GetWordsFromInt(r.value);
        ranges[i] := ranges[i].(words := number + " " + r.description);
      }
    }
  }

  /** `setWords` changes nothing but the words, and gives a record words
      exactly when its value is positive or it is spoken at zero; the words
      end in the plural only for a pluralized range whose value is not 1. */
  lemma WithWordsSpec(r: DollarRange)
    requires r.words == ""
    ensures WithWords(r).(words := "") == r
    ensures |WithWords(r).words| > 0 <==> r.value > 0 || r.zero
    ensures |WithWords(r).words| > 0 ==>
              WithWords(r).words == GoSpell(r.value) + " " + r.description + (if r.pluralized && r.value != 1 then "s" else "")
  {
  }

  // ---------------------------------------------------------------------
  // getWordString

  /** `getWordString` over the records: each record with words is appended,
      preceded by " and " when its range is below a dollar, else by ", " when
      something came before. */
  function JoinSegments(rs: seq<DollarRange>): string {
    if rs == [] then ""
    else
      var ws, r := JoinSegments(rs[..|rs| - 1]), rs[|rs| - 1];
      if |r.words| > 0 then
        (if r.startingPower < 0 then ws + " and " else if |ws| > 0 then ws + ", " else ws) + r.words
      else ws
  }

  method GetWordString(ranges: array<DollarRange>) returns (ws: string)
    ensures ws == JoinSegments(ranges[..])
  {
    ws := "";
    for i := 0 to ranges.Length
      invariant ws == JoinSegments(ranges[..i])
    {
      assert ranges[..i + 1][..i] == ranges[..i];
      var r := ranges[i];
      if |r.words| > 0 {
        if r.startingPower < 0 {
          ws := ws + " and ";
        } else if |ws| > 0 {
          ws := ws + ", ";
        }
        ws := ws + r.words;
      }
    }
    assert ranges[..] == ranges[..ranges.Length];
  }

  // ---------------------------------------------------------------------
  // wordify

  /** The records of an accepted amount once their words are set. */
  function WordedRanges(num: Decimal): (rs: seq<DollarRange>)
    ensures |rs| == |RangeTable|
  {
    seq(|RangeTable|, k requires 0 <= k < |RangeTable| => WithWords(RangesFor(num)[k]))
  }

  /** What `wordify(input)` prints, or the reason `cleanInput` exits. */
  function GoWordsFor(input: string): Result<string, GoError> {
    match CleanInput(input)
    case Err(e) => Err(e)
    case Ok(num) => Ok(JoinSegments(WordedRanges(num)))
  }

  /** `wordify(inputNumber)`. */
  method Wordify(input: string) returns (r: Result<string, GoError>)
    ensures r == GoWordsFor(input)
  {
    var cleaned := CleanInput(input);
    if cleaned.Err? {
      return Err(cleaned.error);
    }
    var num := cleaned.value;
    var dollarRanges := GetRanges(num);
    SetWords(dollarRanges);
    assert dollarRanges[..] == WordedRanges(num);
    var ws := GetWordString(dollarRanges);
    r := Ok(ws);
  }

  // ---------------------------------------------------------------------
  // The sentence wordify prints

  /** The words of the records that have any, in order. */
  function Spoken(rs: seq<DollarRange>): seq<string> {
    if rs == [] then []
    else Spoken(rs[..|rs| - 1]) + (if |rs[|rs| - 1].words| > 0 then [rs[|rs| - 1].words] else [])
  }

  /** Over ranges of a dollar and up, `getWordString` joins the records'
      words with ", ", and has written something exactly when some record
      has words. */
  lemma {:induction false} JoinSegmentsCommas(rs: seq<DollarRange>)
    requires forall k :: 0 <= k < |rs| ==> rs[k].startingPower >= 0
    ensures JoinSegments(rs) == Join(", ", Spoken(rs))
    ensures |JoinSegments(rs)| > 0 <==> Spoken(rs) != []
  {
    if rs != [] {
      var front, r := rs[..|rs| - 1], rs[|rs| - 1];
      JoinSegmentsCommas(front);
      if |r.words| > 0 {
        assert Spoken(rs) == Spoken(front) + [r.words];
        if Spoken(front) != [] {
          JoinSnoc(", ", Spoken(front), r.words);
        } else {
          assert Spoken(rs) == [r.words];
        }
      } else {
        assert Spoken(rs) == Spoken(front);
      }
    }
  }

  /** Over the five records: the words of billion to dollar joined with
      ", ", then " and " and the cents' words when the cents have any. */
  lemma JoinSegmentsCents(rs: seq<DollarRange>)
    requires |rs| == 5
    requires forall k :: 0 <= k < 4 ==> rs[k].startingPower >= 0
    requires rs[4].startingPower < 0
    ensures JoinSegments(rs) == Join(", ", Spoken(rs[..4])) + (if |rs[4].words| > 0 then " and " + rs[4].words else "")
  {
    JoinSegmentsCommas(rs[..4]);
  }

  /** A range's words: the number's words, a space, the label. */
  function Segment(v: int, name: string): (w: string)
    ensures |w| > 0
  {
    GoSpell(v) + " " + name
  }

  /** The sentence `wordify` prints for `c` whole cents below a billion
      dollars: millions, thousands and dollars (always, "zero dollars"
      included) joined with ", ", then " and " and the cents when there are
      any. */
  function GoPhrase(c: int): string {
    var m, t, d, p := c / Pow10(8), (c / Pow10(5)) % 1000, (c / 100) % 1000, c % 100;
    Join(", ", (if m > 0 then [Segment(m, "million")] else [])
               + (if t > 0 then [Segment(t, "thousand")] else [])
               + [Segment(d, Plural("dollar", d))])
    + (if p > 0 then " and " + Segment(p, Plural("cent", p)) else "")
  }

  /** The records' words for a non-negative accepted amount. */
  lemma WordedValues(num: Decimal)
    requires 0 <= num.mantissa < Limit(num.scale)
    ensures var c, rs := WholeCents(num), WordedRanges(num);
            var m, t, d, p := c / Pow10(8), (c / Pow10(5)) % 1000, (c / 100) % 1000, c % 100;
            && rs[0].words == ""
            && rs[1].words == (if m > 0 then Segment(m, "million") else "")
            && rs[2].words == (if t > 0 then Segment(t, "thousand") else "")
            && rs[3].words == Segment(d, Plural("dollar", d))
            && rs[4].words == (if p > 0 then Segment(p, Plural("cent", p)) else "")
  {
    GreedyBillion(num);
    GreedyMillion(num);
    GreedyThousand(num);
    GreedyDollar(num);
    GreedyCent(num);
  }

  /** The words of four records, the first silent and the last spoken. */
  lemma SpokenOfFour(rs: seq<DollarRange>)
    requires |rs| == 4 && rs[0].words == "" && |rs[3].words| > 0
    ensures Spoken(rs) == (if |rs[1].words| > 0 then [rs[1].words] else [])
                          + (if |rs[2].words| > 0 then [rs[2].words] else [])
                          + [rs[3].words]
  {
    var w1 := if |rs[1].words| > 0 then [rs[1].words] else [];
    var w2 := if |rs[2].words| > 0 then [rs[2].words] else [];
    assert rs[..1][..0] == [];
    assert Spoken(rs[..1]) == [];
    assert rs[..2][..1] == rs[..1];
    assert Spoken(rs[..2]) == w1;
    assert rs[..3][..2] == rs[..2];
    assert Spoken(rs[..3]) == w1 + w2;
    assert rs[..4] == rs;
  }

  /** The records after `setWords` keep the table's starting powers. */
  lemma WordedPowers(num: Decimal)
    ensures forall k :: 0 <= k < 4 ==> WordedRanges(num)[k].startingPower >= 0
    ensures WordedRanges(num)[4].startingPower < 0
  {
  }

  /** `wordify` on a non-negative amount it accepts prints `GoPhrase` of the
      amount's whole cents. */
  lemma GoWordsPhrase(input: string, num: Decimal)
    requires CleanInput(input) == Ok(num) && num.mantissa >= 0
    ensures GoWordsFor(input) == Ok(GoPhrase(WholeCents(num)))
  {
    var rs := WordedRanges(num);
    assert GoWordsFor(input) == Ok(JoinSegments(rs));
    WordedValues(num);
    WordedPowers(num);
    JoinSegmentsCents(rs);
    SpokenOfFour(rs[..4]);
    var c := WholeCents(num);
    var m, t, d, p := c / Pow10(8), (c / Pow10(5)) % 1000, (c / 100) % 1000, c % 100;
    assert Spoken(rs[..4]) == (if m > 0 then [Segment(m, "million")] else [])
               + (if t > 0 then [Segment(t, "thousand")] else [])
               + [Segment(d, Plural("dollar", d))];
  }

  /** On a negative amount the records keep value 0 and only the dollars
      have words. */
  lemma NegativeWords(num: Decimal)
    requires num.mantissa < 0
    ensures var rs := WordedRanges(num);
            rs[0].words == rs[1].words == rs[2].words == rs[4].words == "" && rs[3].words == "zero dollars"
  {
    forall k | 0 <= k < 5
      ensures RangesFor(num)[k].value == 0
    {
      GreedyNegative(Units(num), num.scale, k);
    }
    assert GoSpell(0) + " " + "dollars" == "zero dollars";
  }

  /** `wordify` on a negative amount: no range takes anything, and only the
      dollars, spoken at zero, are printed. */
  lemma GoWordsNegative(input: string, num: Decimal)
    requires CleanInput(input) == Ok(num) && num.mantissa < 0
    ensures GoWordsFor(input) == Ok("zero dollars")
  {
    var rs := WordedRanges(num);
    assert GoWordsFor(input) == Ok(JoinSegments(rs));
    NegativeWords(num);
    WordedPowers(num);
    JoinSegmentsCents(rs);
    SpokenOfFour(rs[..4]);
    assert Spoken(rs[..4]) == ["zero dollars"];
    assert Join(", ", ["zero dollars"]) == "zero dollars";
    assert JoinSegments(rs) == "zero dollars";
  }
}
