# Currency amounts in English words, in two versions

This project models the `wordify` exercise. The exercise turns a currency
amount written as text, such as `"$1,234.56"`, into English words:
"one thousand two hundred thirty-four dollars and fifty-six cents". It
exists in two versions, and each gets its own module.

- `PyWordify` models `test_wordify.py`:
  - `intToWord` spells 0..999 from three word tables.
  - `wordify` removes `$` and `,` and strips whitespace.
  - It reads the rest as a `Decimal` and refuses three kinds of amount, in
    this order: a billion or more, negative amounts, and more than two
    fractional digits.
  - It then walks the `ranges` table (million, thousand, dollar, cent) in a
    loop. Each pass cuts out a piece and appends an optional "and", the
    piece's words and the range name.
- `GoWordify` models `go-wordify/wordify.go`:
  - `cleanInput` removes `$` and `,` and reads a `decimal.Decimal`. It
    refuses text that is not a number, and amounts of a billion or more.
  - `setupRanges` builds five records, for billion down to cent.
  - `getRanges` splits the amount greedily into the records' values.
  - `getWordsFromInt` spells 0..999.
  - `setWords` writes each record's words in place.
  - `getWordString` joins the segments with ", ", and puts " and " before
    the cents.

The project is built from these modules:

- `Numerals` reads decimal numerals into a `Decimal(mantissa, scale)`. The
  value is `mantissa / 10^scale`, and `scale` is the number of fractional
  digits written.
- `Text` holds the string operations the converters use: deleting a
  character, `strip`, and joining with a separator.
- `Arith` holds powers of ten and facts about division.
- `Results` holds `Option` and `Result`.

`wordify` and its one loop are imperative methods, proved against
specification functions:

- `PyWordify.Wordify` runs the clean-up and the checks, then the loop.
- `PyWordify.RangesLoop` is the `for r in ranges` loop.

`PyWordify` then proves what the words are:

- The loop's output is the list of items it emits (numbers, range names,
  "and") joined by single spaces.
- Reading the items back gives the amount.
- "and" appears at most once. It comes before the lowest nonzero piece
  exactly when words precede that piece, which is the "last piece"
  condition in the comment inside `wordify`.
- Only a number below one dollar is written with "zero".
- The plural forms follow the piece.

The Go functions that loop or change records are methods over an
`array<DollarRange>`:

- `GetWordsFromInt`, `SetupRanges`, `GetRanges`, `SetWords` and
  `GetWordString`.
- `Wordify` chains them.

Each method is proved against a function. With `Div` taken as exact
division, the greedy split is proved exact for any number of fractional
digits.

`CrossCheck` relates the two converters:

- They spell 0..999 alike.
- They cut an accepted amount into the same pieces.
- Python accepts a cleaned text exactly when Go accepts it with a
  non-negative amount of at most two fractional digits.
- Below a thousand dollars they produce the same sentence.
- They differ above that. For 5000 dollars, Python writes "five thousand
  dollars" and Go writes "five thousand, zero dollars".
- They differ on negative amounts. Python raises, and Go returns
  "zero dollars".

`Examples` restates each test case of both files as a lemma about the
test's own text and the sentence or error the test expects.

## Model

| member | source | states |
|---|---|---|
| PyWordify.IntToWord | test_wordify.py:89-91 | a number is spelled (no `ValueError`) exactly when it is in 0..999; outside that range the error is the out-of-range `ValueError` |
| PyWordify.DecimalDigits | test_wordify.py:98-101 | the hundreds, tens and units digits of 0..999 are each 0..9 and recombine to the number |
| PyWordify.TablesWithoutZ | test_wordify.py:49-84 | every table word except "zero" is free of the letter z |
| PyWordify.IntToWordSpelled | test_wordify.py:93-116 | for 1..999 the stripped words are the English short-scale words of the digits: "<digit> hundred" for a nonzero hundreds digit, then a teen word, or a tens word with a hyphenated nonzero unit, or a unit word, all separated by single spaces |
| PyWordify.IntToWordShape | test_wordify.py:98-116 | for 1..999 the words are nonempty, have no whitespace at either end, and contain no "zero" |
| PyWordify.IntToWordZero | test_wordify.py:95-96 | within 0..999, the result is "zero" exactly when the number is 0 |
| Text.RemoveAllSpec | test_wordify.py:129-130 | `replace(ch, '')` leaves no `ch`, keeps every other character as often as it occurred, and changes nothing in text without `ch` |
| Text.StripSpec | test_wordify.py:131 | `strip()` returns a contiguous part of the text that neither starts nor ends with whitespace, and only whitespace is dropped on either side |
| Text.StripTrimmed | test_wordify.py:170 | stripping words that are already trimmed, or those words after one leading space, gives back the words |
| PyWordify.Clean | test_wordify.py:128-131 | the cleaned text contains no '$' and no ',' and has no whitespace at either end |
| PyWordify.CleanKeeps | test_wordify.py:128-131 | clean-up keeps every character other than '$', ',' and whitespace exactly as often as it occurs in the input |
| Text.StripCounts | test_wordify.py:131 | `strip()` keeps every character that is not whitespace exactly as often as it occurs |
| Numerals.ParseNumeral | test_wordify.py:133 | a numeral is read only from digits, at most one '.' and a leading sign; its scale is less than the text's length, and a negative value means the text starts with '-' |
| Numerals.ParseNumeralText | test_wordify.py:133 | an optional sign, digits, an optional '.' and fraction digits (at least one digit in all) read as the signed value of all the digits, with as many fractional places as fraction digits were written |
| Numerals.ForeignChar | test_wordify.py:133 | text with a character that is not a digit, '.' or a sign is not a numeral |
| PyWordify.ForeignRefused | test_wordify.py:129-133 | an ASCII character that no decimal numeral can hold, and that clean-up does not remove, makes `wordify` raise `InvalidOperation` |
| PyWordify.Validate | test_wordify.py:134-139 | an amount is accepted exactly when it is non-negative, below a billion, and written with at most two fractional digits; it is then returned exactly in cents. "Too large" is raised exactly for a billion or more, then "negative" exactly for negative amounts, then "too precise" for the rest of the refused amounts |
| PyWordify.Cents | test_wordify.py:134-139 | an accepted amount in whole cents is below 10^11, and times 10^scale equals the mantissa times 100 |
| PyWordify.PiecesExact | test_wordify.py:17-46 | on an accepted amount the million, thousand and dollar pieces are each 0..999, the cent piece is 0..99, and million·10^6 + thousand·10^3 + dollar + cent/100 dollars is the amount |
| PyWordify.PieceSpellable | test_wordify.py:146-169 | the piece handed to `intToWord` inside the loop is always in 0..999, so it never raises there |
| PyWordify.Wordify | test_wordify.py:127-174 | the method returns exactly what the specification `WordsForAmount` gives. That is the clean-up, the parse, the three checks in order, then the loop |
| PyWordify.RangesLoop | test_wordify.py:141-174 | after the loop over all four ranges, the words equal the fold of the per-range step over the table |
| PyWordify.StepAppend | test_wordify.py:144-173 | one pass over words that render some items renders those items followed by the pass's own items; the `strip()` calls only ever remove the space that joining onto empty words adds in front |
| PyWordify.FoldRendersItems | test_wordify.py:141-174 | the words are the items `PyItems` emits (number words, range names, "and") rendered and joined with single spaces |
| PyWordify.PyItemsValue | test_wordify.py:144-174 | reading the items back, each number times the size of the range name after it, gives the amount in cents: the words say the amount |
| PyWordify.AndBeforeCases | test_wordify.py:152-157 | "and" is put before a range exactly when words precede it, its piece is nonzero, and every lower piece is zero. It is never put before millions, and it is always put before a nonzero cent piece |
| PyWordify.PyAndOnce | test_wordify.py:152-157 | the items contain "and" at most once: exactly once when some range gets an "and", and otherwise never |
| PyWordify.PyAndPlace | test_wordify.py:152-157 | when a range gets its "and", the "and" is immediately followed by that range's number |
| PyWordify.PyZero | test_wordify.py:165-173 | "zero" (the number 0) is written exactly when the amount is below one dollar, and then the words start "zero dollars" |
| PyWordify.PyNamesLarge | test_wordify.py:159-163 | "million" and "thousand" appear exactly when their piece is nonzero and never take a plural "s" |
| PyWordify.PyNamesPlural | test_wordify.py:159-163 | "dollar" appears exactly when the dollar piece is 1 and "dollars" otherwise; "cent" exactly when the cent piece is 1 and "cents" when it is above 1 |
| PyWordify.NameInItems | test_wordify.py:159-173 | the range names written are exactly "million" (nonzero millions), "thousand" (nonzero thousands), the dollar name with its plural, and the cent name with its plural (nonzero cents) |
| PyWordify.WordsOfAccepted | test_wordify.py:127-174 | for text that reads as an accepted amount, `wordify` returns the words of its items, and those items read back as the amount |
| GoWordify.CleanInput | go-wordify/wordify.go:27-41 | "not a number" exactly when the cleaned text is no numeral, and "too large" exactly when the value is a billion or more; anything else is accepted as the parsed value below a billion, negative amounts and any number of fractional digits included |
| GoWordify.ForeignRefused | go-wordify/wordify.go:28-34 | a character that no decimal numeral can hold (whitespace included), and that is neither '$' nor ',', makes the input "not a number" |
| GoWordify.GetWordsFromInt | go-wordify/wordify.go:94-153 | the method's words are `GoSpell(num)`: "zero" for 0, else the hundreds with " hundred", then the tens word with a hyphenated unit, or a single word below twenty |
| GoWordify.SetupRanges | go-wordify/wordify.go:43-76 | a fresh array holding the five records billion, million, thousand, dollar and cent, with their powers 9, 6, 3, 0 and -2, plural and zero flags, value 0 and no words |
| GoWordify.GetRanges | go-wordify/wordify.go:78-91 | a fresh array of the five records in which each value is the greedy quotient of what remains of the amount by the range's bottom |
| GoWordify.RangeSettled | go-wordify/wordify.go:80-88 | each record differs from the table only in its value; a range whose bottom is above what remains keeps value 0 |
| GoWordify.RemainingNonnegative | go-wordify/wordify.go:83-87 | on a non-negative amount what remains never becomes negative |
| GoWordify.RemainingStep | go-wordify/wordify.go:82-88 | each range takes the quotient of what remains by its bottom, and what remains after it is the remainder |
| GoWordify.WholeCentsBelow | go-wordify/wordify.go:35-39 | an accepted non-negative amount is below 10^11 whole cents |
| GoWordify.GreedyBillion | go-wordify/wordify.go:78-91 | on an accepted non-negative amount the billion range takes nothing |
| GoWordify.GreedyMillion | go-wordify/wordify.go:78-91 | the million value is the whole cents divided by 10^8 |
| GoWordify.GreedyThousand | go-wordify/wordify.go:78-91 | the thousand value is the whole cents divided by 10^5, mod 1000 |
| GoWordify.GreedyDollar | go-wordify/wordify.go:78-91 | the dollar value is the whole cents divided by 100, mod 1000 |
| GoWordify.GreedyCent | go-wordify/wordify.go:78-91 | the cent value is the whole cents mod 100, and what remains after it is the fraction of a cent |
| GoWordify.GreedyExact | go-wordify/wordify.go:78-91 | with `Div` as exact division, for any number of fractional digits the split is exact: billion 0, million, thousand and dollar 0..999, cents 0..99, together the whole cents, and what is left is less than one cent |
| GoWordify.CentsDigits | go-wordify/wordify.go:78-91 | cents below a billion dollars split into three-digit millions, thousands and dollars and two-digit cents that recombine to the cents |
| GoWordify.GreedyNegative | go-wordify/wordify.go:83 | on a negative amount no range's bottom is reached: every value stays 0 and nothing is taken off |
| GoWordify.SetWords | go-wordify/wordify.go:155-164 | every record is updated in place to its worded form and nothing else in the array changes |
| GoWordify.WithWordsSpec | go-wordify/wordify.go:157-161 | only the words change; a record gets words exactly when its value is positive or it is spoken at zero, and then they are the spelled value, a space, and the description with an "s" when pluralized and the value is not 1 |
| GoWordify.GetWordString | go-wordify/wordify.go:166-179 | the method's string is the segments joined by the getWordString rule over the whole array |
| GoWordify.JoinSegmentsCommas | go-wordify/wordify.go:168-176 | over ranges of a dollar and up, the segments are joined with ", ", and something is written exactly when some record has words |
| GoWordify.JoinSegmentsCents | go-wordify/wordify.go:166-179 | over the five records, the string is the dollar-and-up segments joined with ", ", then " and " and the cent segment if the cents have words |
| GoWordify.WordedValues | go-wordify/wordify.go:155-164 | for a non-negative accepted amount the billion record is silent; million, thousand and cents have words exactly when nonzero; dollars always do |
| GoWordify.NegativeWords | go-wordify/wordify.go:78-164 | for a negative amount only the dollar record has words, and they are "zero dollars" |
| GoWordify.Wordify | go-wordify/wordify.go:181-186 | the method returns exactly what the specification `GoWordsFor` gives: clean, split, word and join |
| GoWordify.GoWordsPhrase | go-wordify/wordify.go:181-186 | for an accepted non-negative amount the sentence is the million and thousand segments if nonzero, then the dollar segment, all joined with ", ", then " and " and the cent segment if the cents are nonzero, all read from the whole cents |
| GoWordify.GoWordsNegative | go-wordify/wordify.go:181-186 | every accepted negative amount gives "zero dollars" |
| CrossCheck.TablesAgree | go-wordify/wordify.go:96-127 | the Go `singles` and `tens` maps hold the Python `singles`, `teens` and `tens` words |
| CrossCheck.BelowHundredAgree | go-wordify/wordify.go:141-151 | Go's words for 1..99 are Python's words for the same two digits |
| CrossCheck.SpelledGo | test_wordify.py:103-113 | Python's short-scale words are Go's hundreds text followed by Go's words below one hundred |
| CrossCheck.SpellersAgree | test_wordify.py:89-116 | for every 0..999, `intToWord` succeeds with exactly `getWordsFromInt`'s words |
| CrossCheck.PhraseDigits | test_wordify.py:146 | the divisions Go's sentence is read from are the Python pieces |
| CrossCheck.PiecesAgree | go-wordify/wordify.go:78-91 | on an amount both accept, Go's whole cents are Python's cents, Go's billion value is 0, and Go's million, thousand, dollar and cent values are Python's four pieces |
| CrossCheck.Acceptance | test_wordify.py:127-139 | on text both clean the same way, Python accepts exactly when Go accepts a non-negative amount with at most two fractional digits |
| CrossCheck.NegativeDiffers | test_wordify.py:136-137 | a negative amount raises the negative `ValueError` in Python while Go returns "zero dollars" |
| CrossCheck.PyWordsBelowThousand | test_wordify.py:144-174 | below a thousand dollars Python writes the dollar segment, then " and " and the cent segment when there are cents |
| CrossCheck.GoPhraseBelowThousand | go-wordify/wordify.go:166-179 | below a thousand dollars Go writes the same dollar segment and cent segment |
| CrossCheck.AgreeBelowThousand | test_wordify.py:127-174 | text both accept, below a thousand dollars, gives the same sentence in both versions |
| CrossCheck.PyWholeThousands | test_wordify.py:159-173 | Python writes t thousand dollars (t in 1..999) as "<t> thousand dollars" |
| CrossCheck.GoWholeThousands | go-wordify/wordify.go:155-179 | Go writes the same amount as "<t> thousand, zero dollars" |
| Examples.PyTest1 | test_wordify.py:178-179 | "$1,234.56" gives "one thousand two hundred thirty-four dollars and fifty-six cents" |
| Examples.PyTest2 | test_wordify.py:180-181 | "0" gives "zero dollars" |
| Examples.PyTest3 | test_wordify.py:182-183 | "0.33" gives "zero dollars and thirty-three cents" |
| Examples.PyTest4a | test_wordify.py:184-185 | ".01" gives "zero dollars and one cent" |
| Examples.PyTest4 | test_wordify.py:186-187 | "1.00" gives "one dollar" |
| Examples.PyTest5 | test_wordify.py:188-189 | "15" gives "fifteen dollars" |
| Examples.PyTest6 | test_wordify.py:190-191 | "9000000" gives "nine million dollars" |
| Examples.PyTest7 | test_wordify.py:192-193 | "1,000,000.01" gives "one million dollars and one cent" |
| Examples.PyTest8 | test_wordify.py:194-195 | "1.1" gives "one dollar and ten cents" |
| Examples.PyTest9 | test_wordify.py:196-197 | "$520.19" gives "five hundred twenty dollars and nineteen cents" |
| Examples.PyTestE1 | test_wordify.py:199-201 | "-3" raises the negative `ValueError` |
| Examples.PyTestE2 | test_wordify.py:203-205 | "3-fiddy" raises `InvalidOperation` |
| Examples.PyTestE3 | test_wordify.py:207-209 | "$1000000000" raises the too-large `ValueError` |
| Examples.PyTestE4 | test_wordify.py:211-213 | "10.123" raises the too-precise `ValueError` |
| Examples.GoTestBasic | go-wordify/wordify_test.go:5-13 | "100" gives "one hundred dollars" |
| Examples.GoTestZero | go-wordify/wordify_test.go:15-23 | "0" gives "zero dollars" |
| Examples.GoTestCents | go-wordify/wordify_test.go:25-33 | "10.15" gives "ten dollars and fifteen cents" |
| Examples.GoTestLarge | go-wordify/wordify_test.go:35-43 | "175505670.99" gives "one hundred seventy-five million, five hundred five thousand, six hundred seventy dollars and ninety-nine cents" |
| Examples.GoTestSingles | go-wordify/wordify_test.go:45-53 | "1.01" gives "one dollar and one cent" |
| Examples.GoTestCentsOnly | go-wordify/wordify_test.go:55-63 | ".11" gives "zero dollars and eleven cents" |

## Left out

- `go-wordify/main.go` is not part of this model. It takes the amount from the first command-line argument, exits with "You need a number!" when there is none, and prints what `wordify` returns. `test_wordify.py` has no entry point besides its test functions, and the threading demonstration does not use `wordify` at all.
- Numerals.ParseNumeral: reads only an optional sign, digits and at most one '.'. Python's `Decimal` and Go's `decimal.NewFromString` also read exponents. Python also reads underscores, "Infinity", "NaN", and the digits of other scripts, such as '٣' or the fullwidth '３'. Go also reads a sign after the '.', so ".-5" is -0.05 and ".+5" is 0.05 there. Text using any of these is refused here.
- GoWordify.CleanInput: "not a number" is exact only for the numerals `ParseNumeral` reads, so it differs from Go on exponents and on a sign after the '.'. `GoWordify.ForeignRefused` excludes digits, '.', signs and the exponent letters, so it also holds for Go's full parser.
- PyWordify.ForeignRefused: stated only for ASCII characters, because Python's `Decimal` reads the digits of other scripts. It excludes the characters of exponents, underscores and the special values, so among ASCII characters it also holds for Python's full parser.
- Text.IsSpace: whitespace is the ASCII set `strip()` removes: space, tab, line feed, vertical tab, form feed, carriage return, and U+001C to U+001F. Python's `strip()` also removes Unicode whitespace such as U+0085 and U+00A0.
- GoWordify.CleanInput: the printed message and `os.Exit(1)` are modelled as the error values `NotANumber` and `TooLarge`.
- PyWordify.WordsForAmount: the raised exceptions are modelled as error values, without their messages.
- GoWordify.GetRanges: `math.Pow10` is a float converted with `NewFromFloat`. It is taken as the exact power of ten, which it is for the powers 9, 6, 3, 0 and -2.
- GoWordify.GetRanges: `Div` is modelled as exact division. The library rounds a quotient to 16 fractional digits. Dividing an amount with `scale` fractional digits by 10^p leaves scale + p of them, so the rounding can carry into the whole part once scale + p exceeds 16. That is from 11 fractional digits for the million range, 14 for thousands, 17 for dollars and 19 for cents; the billion range never divides, because an accepted amount is below its bottom. For example, on "1999999.99999999999" Go's million quotient rounds up to 2 and Go writes "two million, zero dollars", while the model splits it into 1 million, 999 thousand, 999 dollars and 99 cents. On "999999999.99999999999" the million quotient rounds up to 1000, and Go writes "ten hundred million, zero dollars"; on "999999.99999999999999" the thousand quotient does, giving "ten hundred thousand, zero dollars".
- GoWordify.GetRanges: `int(piece.IntPart())` is an unbounded integer here. The values are at most 1000 (999 under exact division), so 64 bits never overflow.
- `test_wordify.py` defines `test_4` twice, so Python runs only the second one ("1.00"). The shadowed '.01' case is kept as `Examples.PyTest4a`.
