# A verified model of the Vietnamese money parser

This project models three modules of `vietnamese_nlp` in Dafny and proves what they do on every text:

* `money.py`, the amount parser. Its lexer turns a text into number, word and other tokens; `find_amounts` then
  walks over the tokens with two nested loops, a record of about a dozen accumulators and flags, a look at the next
  two tokens and at the next characters of the text, and a verdict that refuses an amount rather than guess it.
* `kinship.py`, which removes the titles in front of a name ("anh chị Nam") from the head of an utterance.
* `synonyms.py`, which rewrites the phrases of a fixed dictionary to intent labels.

## How it is built

A text is a sequence of characters that carry their class (`Text`). A word is classified once by the word lists of
the program, which are all there, in their real spelling (`Vocabulary`). Each program loop is a method with its loop
invariants, proved equal to a recursive function; the laws are lemmas about those functions, and so hold of the
loops:

| program | methods (the loops) | functions they are proved to compute |
|---|---|---|
| `_tokenize` | `Lexer.Tokenize` | `Lexer.Tokens` |
| `find_amounts` | `FindAmounts.Find`, `ReadRun`, `ReadNum`, `CountNum`, `ReadOnes`, `ReadWord` | `Machine.Amounts`, `Scan`, `Judge`, `Run`, `Step` |
| `strip_kinship` | `Kinship.StripKinship`, `FindTitles`, `Splice` | `Kinship.Strip`, `Removed`, `CutOut` |
| `map_synonyms` | `Synonyms.MapSynonyms`, `FindPhrases`, `SpliceLabels` | `Synonyms.MapWith`, `FoundFrom`, `Spliced` |

Amounts are exact (`real` for `Decimal`). The laws of the amount parser are about texts, not about token lists: the
lexer is proved to be local (`Lexing`), so that a text with a space or a punctuation mark in it has the tokens of its
two halves; runs are proved to look no further than they do (`Composition`, `Barrier`); and the values are proved not
to depend on where the tokens stand (`Placement`), so that the round trips hold for every spacing (`Spacing`,
`Layouts`). A count is any numeral that the number pattern matches: "5", "05", "1.500", "0,5".

## What the proofs show about the program

The program says that a wrong amount is worse than none. Beside the laws that hold without exception, the proofs fix
where it does otherwise, or where a law needs a condition:

* **Spoken hundreds behind a large scale.** "một triệu hai trăm ba mươi nghìn" (1 230 000) is read as 201 030 000
  (`Limits.HundredsMisheard`). `Spoken.SpokenRoundTrip` says what is heard for every spoken amount of every length,
  and `Spoken.SpokenAmountRight` that the amount is right if and only if no coefficient of the form "x trăm …", other
  than a round hundred or one that goes on with "mười", stands behind a scale which the branch of `money.py:523-535`
  or of `money.py:536-542` accepts (a scale of one thousand does no harm). It is never too small. The branch for
  "năm trăm" does not look at the size of the scale at all.
* **Zero in front of a scale counts as one** ("5 triệu 0 nghìn" is 5 001 000). `DigitGroups.DigitRoundTrip` gives the
  amount for all numerals, decimal, grouped and zero ones among them, and `DigitGroups.SumRight` says that it is the
  rounded sum if and only if no numeral is zero. If all of them are, nothing is found.
* **Words in front of a number.** Exactly the numerals 0..9, "nửa" and the plain words that announce no identifier
  leave the amounts behind them as they are (`LeadingWords.HarmlessWords`). "Mười 500 ngàn" is 510 000, "trăm 500 ngàn"
  is 600 000, and "mười 2024" is 2034 although "2024" alone is taken for a year (`LeadingWords.LedGroup`, `LedNumber`).
  Several harmless words in a row may still have a price of their own, as in "Hai đồng": `Names.NamesDoNotInterfere`
  says exactly when. An identifier word takes away exactly a first amount that rests on its digits alone: "mã 5000", but
  neither "mã 5 triệu" nor "mã 5000đ" (`Announced.PlainInFront`).
* **An amount can be 0**: "0.4đ", "0.0001". `Rounding.ZeroAmounts` says that this is so if and only if the exact total
  is below one half, and that then a number between zero and one half stands in the amount, with its point or comma.
* **A refused run may leave its tail**: "2 triệu 500" yields nothing, but "2 triệu 5000" yields 5000
  (`Tails.TrailingNumber` gives every case). In a row of plain numbers the one before a single last number is lost:
  "230000 5000" yields 5000 only (`Rows.NumbersInARow` gives every row).
* **Plain words separate** (`WordBarrier.WordBetween`), but they are no end of the text: "2 triệu 5 bao" and "320 nghìn
  một bao" keep the amount in front (`Followers.CountBehindGroups`), which "2 triệu 5" reads differently and "320 nghìn
  một" refuses.
* **Broken forms are refused as a whole**: "2tr50", "2tr5k", "2024năm" (`Refusals`).
* **A mark takes a tail away**: "2 triệu 5" is 2 500 000, "2 triệu 5," is nothing (`Limits.CommaRefuses`). Nothing else
  is lost to a mark (`OpenTail.PunctuationBarrier`), and `TailShape.ShorthandExactly` says which texts lose it, from the
  tokens of their last amount.
* **The guard against phone numbers sees only digits in one piece.** A run of digits by itself is an amount if and only
  if it has four digits, is not zero, and has the shape of neither a phone number nor a year
  (`NumberForms.PlainDigits`), and no amount of any text has the shape of a phone number
  (`Guarantees.EveryAmountGuarded`). With anything else in the amount, or with the number cut in parts, the guard does
  not apply: in groups, "0912 345 678" is 912 345 678 (`Limits.PhoneInGroups`; `Rows.NumbersInARow` for every way to
  cut a number by blanks); behind a ten, "trăm", a filler or "rưỡi", and behind no other word, "mười 0912345678" is
  912 345 688 (`LeadingWords.PhoneBehindWord`); in front of a scale word it is a count like any other
  (`DigitGroups.DigitRoundTrip`); and of "0912-345-678" the first part is the amount 912 (`Limits.PhoneWithDashes`,
  `Rows.NumberBeforeMark`).
* **`strip_kinship` is not idempotent.** It is so if and only if no title survives at the head: the first surviving word
  is a title in front of a name, and of what stood between the titles no more than one character is left before it
  (`KinshipAgain.StripAgain`, for every utterance). A wide gap does that, "Anh  chị Nam" (`KinshipTwice.WideGapTwice`),
  and so does a bracket, "anh (chị Nam" (`KinshipAgain.BracketTwice`). A title glued behind one digit, "1anh Nam", is
  removed (`KinshipTwice.GluedTitleGoes`, `Kinship.OnlyTheHead`), but then a second pass finds nothing.

The comment on phone numbers (`money.py:37`) speaks of "0" and 9 to 11 digits; the code counts the 0 among them, and
so does the model.

## Model

| member | source | states |
|---|---|---|
| Lexer.Tokenize | src/vietnamese_nlp/money.py:258-287 | The tokenizing loop yields exactly the tokens of the recursive lexer: shorthand, number glued to a scale word, number, word, other, in this priority and with the lookarounds of the pattern. |
| Lexing.NumeralReadable | src/vietnamese_nlp/money.py:212-255 | Every text that the number pattern can match is one that `_parse_num_text` can read; `Decimal` never refuses it. |
| Lexing.TokensLossless | src/vietnamese_nlp/money.py:221-287 | The tokens of any text are slices of it, ordered and disjoint, readable, free of whitespace; every character outside them is whitespace, also where one match makes two tokens. |
| Lexing.TokensAcrossSpace | src/vietnamese_nlp/money.py:221-228 | The tokens of two texts with a space between them are the tokens of each, the second list shifted. |
| Lexing.TokensAcrossMark | src/vietnamese_nlp/money.py:221-228 | The same with a punctuation mark between them, unless it is a separator in front of a digit. |
| FindAmounts.Find | src/vietnamese_nlp/money.py:340-644 | The outer loop, with restarts behind refused runs, returns exactly the amounts of the pure scan; both loops terminate although a run may consume no token. |
| FindAmounts.ReadRun | src/vietnamese_nlp/money.py:359-599 | The inner loop, which moves by one or two tokens, ends in the state and at the token where folding the step function ends. |
| FindAmounts.ReadNum | src/vietnamese_nlp/money.py:390-496 | The number branch in the order of its tests does what the reading of the token (broken shorthand, hundreds, loose number, first number, next group) calls for. |
| FindAmounts.ReadOnes | src/vietnamese_nlp/money.py:498-558 | The numeral branch equals the numeral step; the last scale exists wherever it is divided by ten, also in the branch that does not test it. |
| Invariants.StepKeeps | src/vietnamese_nlp/money.py:359-384 | Every step keeps: a big scale was seen iff the last scale is set, and it is one of four values; the nonzero flag is set iff a nonzero token was consumed; the digit count is bounded by the digits consumed; the end is the end of the last token; all parts are non-negative. |
| Invariants.StepGrows | src/vietnamese_nlp/money.py:390-597 | No step lowers total + section + current. |
| Invariants.RunKeeps | src/vietnamese_nlp/money.py:386-599 | The invariant and the monotony over whole runs, of any length. |
| Guarantees.EveryAmountHasEvidence | src/vietnamese_nlp/money.py:290-303 | Every amount of every text covers exactly the tokens of its run; one of them is not zero; there is a big scale or shorthand, or four digits, or a currency suffix right behind; and the value is the half-up rounding of a strictly positive exact total. |
| Guarantees.SpanDiscipline | src/vietnamese_nlp/money.py:601-644 | The amounts of every text are non-empty slices of it with the right raw text, ordered and disjoint, across double steps and restarts. |
| Guarantees.EveryAmountGuarded | src/vietnamese_nlp/money.py:306-337 | No amount of any text has the shape of a phone number; one of the shape of a year has a currency suffix; one right behind an identifier word has a suffix or a big scale; and behind one with a slang scale stands no object that the slang word could count. |
| Rounding.ZeroAmounts | src/vietnamese_nlp/money.py:631-640 | For every amount of every text: the value is 0 iff the exact total of its run is below 1/2, and then a number token between 0 and 1/2 stands in the run and a point or comma in the raw text; without one the value is at least 1. |
| Barrier.MarkSeparates | src/vietnamese_nlp/money.py:359-384 | No accumulator, flag or look-ahead crosses a punctuation mark (any symbol but ₫, and a dot or comma not in front of a digit): the amounts of "a, b" are those of "a," and then those of "b", shifted. |
| OpenTail.MarkRefusesTail | src/vietnamese_nlp/money.py:399-452 | Appending the mark changes nothing, except that a shorthand which needed the end of the text ("2 triệu 5") is now refused: exactly the last amount is lost. |
| TailShape.ShorthandExactly | src/vietnamese_nlp/money.py:399-442 | The texts that lose it, exactly: those whose last amount goes to the last token and consists of complete groups (behind fillers and "rưỡi" a ten, a hundred or a scale), with a last scale of a million or more and no slang scale, and one digit 1..9 or one of the eight numerals behind them. |
| TailShape.BarrierExactly | src/vietnamese_nlp/money.py:340-644 | The whole barrier with this condition on the last amount of "a". |
| OpenTail.ShorthandIsShort | src/vietnamese_nlp/money.py:427-435 | Such a text ends in a single digit other than zero or in one of the eight accepted numerals. |
| Tails.NumberOpensTail | src/vietnamese_nlp/money.py:427-442 | Behind groups, a numeral is such a tail iff it is one digit 1..9 and the groups end in a scale of a million or more without slang. |
| SpokenTails.NumeralOpensTail | src/vietnamese_nlp/money.py:523-535 | The same for a numeral word: iff it is one of the eight and the groups allow it. |
| Limits.CommaRefuses | src/vietnamese_nlp/money.py:426-442 | "2 triệu 5" is 2 500 000 and "2 triệu 5," is nothing. |
| OpenTail.PunctuationBarrier | src/vietnamese_nlp/money.py:340-644 | The whole barrier: the amounts of "a, b" from those of "a" and those of "b" alone. |
| Names.NamesDoNotInterfere | src/vietnamese_nlp/money.py:363-368 | Any number of numerals, "nửa" and plain words, the last no identifier word, in front of a text that starts with a number leave all of its amounts as they are, shifted, iff no currency word stands right behind an unbroken row of them that are not all "không". |
| LeadingWords.HarmlessWords | src/vietnamese_nlp/money.py:453-466 | A single word leaves the amounts of every text that starts with a number as they are iff it is a numeral 0..9, "nửa", or a plain word that announces no identifier. |
| LeadingWords.LedNumber | src/vietnamese_nlp/money.py:559-592 | A ten, "trăm", a filler or "rưỡi" in front of any numeral makes one amount with it iff the numeral has four digits (and is not zero behind a filler), be it of the shape of a year or of a phone number: "mười 2024" is 2034. |
| LeadingWords.LedGroup | src/vietnamese_nlp/money.py:559-592 | The same in front of a number with a scale: "mười 500 ngàn" is 510 000, "trăm 500 ngàn" is 600 000. |
| LeadingWords.LedByScale | src/vietnamese_nlp/money.py:571-582 | A scale word in front counts once by itself and joins the amount behind it, unless that is zero: then nothing is found. |
| LeadingWords.NumberBehindScale | src/vietnamese_nlp/money.py:399-452 | A numeral right behind a lone scale word: one digit may stand for its hundreds, any other is money only by itself. |
| LeadingWords.IdentifierGuards | src/vietnamese_nlp/money.py:328-330 | Behind an identifier word no numeral is an amount. |
| LeadingWords.PhoneBehindWord | src/vietnamese_nlp/money.py:319-321 | A phone number in one piece is no amount by itself; behind a word it is one iff the word is a ten, "trăm", "rưỡi", or a filler in front of digits that are not all zero. |
| DigitGroups.DigitRoundTrip | src/vietnamese_nlp/money.py:390-582 | Any list of numerals (plain, grouped, decimal, with leading zeros) with scale words, in any order, length and spelling, is one amount over the whole text: the sum of numeral times scale, rounded half up, in which a zero counts as one; if all numerals are zero nothing is found. |
| DigitGroups.SumRight | src/vietnamese_nlp/money.py:571-582 | Unless all numerals are zero, the amount is the rounded sum iff no numeral is zero, and too large otherwise. |
| DigitGroups.WholeRoundTrip | src/vietnamese_nlp/money.py:571-632 | With whole numerals, "1.500 nghìn" among them, nothing is rounded. |
| Placement.ValuesAlike | src/vietnamese_nlp/money.py:340-644 | Two texts with the same tokens in other places have the same values, if what stands right behind the tokens looks the same. |
| Spacing.GapsDoNotMatter | src/vietnamese_nlp/money.py:221-228 | Any whitespace in a text may be replaced by any other without changing a value. |
| Layouts.SpacingDoesNotMatter | src/vietnamese_nlp/money.py:221-228 | Words and numerals set out with any whitespace have the values they have with single blanks, so every round trip holds for any spacing. |
| Layouts.AnyLayout | src/vietnamese_nlp/money.py:221-287 | The digit round trip with any whitespace between groups, and any or none between a numeral and its scale, in the list of glued scales or not: "10tr 500k", "0,5tỷ", "5củ". |
| Tails.HalfTail | src/vietnamese_nlp/money.py:589-592 | A final "rưỡi" adds exactly half the last scale. |
| Tails.TrailingNumber | src/vietnamese_nlp/money.py:399-452 | What any numeral behind such a list, at the end of the text, does: one digit 1..9 gives tenths of a scale of a million or more without slang; otherwise the list is refused and the numeral is an amount only by itself. "500", "05", "1,5" leave nothing. |
| SpokenTails.TrailingNumeral | src/vietnamese_nlp/money.py:501-552 | The same for one numeral word: accepted for eight words, refused for "năm", "tư", "không" and the variants, and then nothing is left. |
| SpokenTails.NumberOfHundreds | src/vietnamese_nlp/money.py:415-442 | A numeral with "trăm" behind such a list means tenths of the last scale or plain hundreds, and when which. |
| SpokenTails.NumeralOfHundreds | src/vietnamese_nlp/money.py:501-542 | The same for a numeral word; "năm trăm" takes tenths of any scale. |
| ShortForms.ShorthandNumber | src/vietnamese_nlp/money.py:263-271 | "ntrd" and "nkd", n or d not zero, are one amount: n units and d tenths of the unit. |
| ShortForms.HundredsAgree | src/vietnamese_nlp/money.py:399-442 | For any groups that allow it, the digit, "d trăm", and the numeral word with or without "trăm" give the same amount; only a bare "năm" gives none. |
| ShortForms.ShorthandAgrees | src/vietnamese_nlp/money.py:263-271 | "ntrd" is "n triệu d", and "n triệu rưỡi" is "ntr5", for all n ≥ 1 and d in 1..9. |
| Spoken.SpokenRoundTrip | src/vietnamese_nlp/money.py:498-597 | The canonical spelling of any non-empty list of (coefficient 1..999, scale) is one amount over the whole text, with the value the context-dependent hearing gives. |
| Spoken.HeardRight | src/vietnamese_nlp/money.py:516-542 | What is heard is never less than what is meant, and equal to it iff no coefficient is taken as hundreds of a scale above a thousand. |
| Spoken.SpokenAmountRight | src/vietnamese_nlp/money.py:498-597 | The amount emitted for a spoken text is right iff that condition holds of its groups, and too large otherwise. |
| NumberForms.PlainDigits | src/vietnamese_nlp/money.py:290-326 | A run of digits, leading zeros or not, is an amount iff it has four digits, is not zero, and has the shape of neither a phone number nor a year. |
| NumberForms.PlainNumber | src/vietnamese_nlp/money.py:323-326 | In particular a canonical number is one iff it is at least 1000 and no year 1900..2099. |
| Accepting.PlainNumeral | src/vietnamese_nlp/money.py:290-326 | The same for every numeral, rounded half up. |
| Suffixes.SuffixSpeaks | src/vietnamese_nlp/money.py:207-210 | A currency word or ₫ behind any numeral, glued or not, makes it an amount of its rounded value, whatever its length and even as a year, unless it is zero or a phone number. |
| Suffixes.NumberOfDong | src/vietnamese_nlp/money.py:301-303 | Every n ≥ 1 with a currency suffix is the amount n. |
| Rows.NumbersInARow | src/vietnamese_nlp/money.py:453-466 | Any row of numerals: each maximal block of digits with groups of three, and each other numeral, is judged by itself, but the block before a single last numeral is refused. |
| Rows.NumberBeforeMark | src/vietnamese_nlp/money.py:599 | A mark behind a numeral cuts it off: each side is read by itself. |
| NumberForms.GroupedNumber | src/vietnamese_nlp/money.py:212-255 | n ≥ 1000 in groups of three digits with dots or commas is the amount n. |
| NumberForms.SpacedDigits | src/vietnamese_nlp/money.py:453-463 | Any digits followed by groups of three digits, leading zeros or not, are read as the one number they spell. |
| NumberForms.SpacedNumber | src/vietnamese_nlp/money.py:453-463 | n ≥ 1000 in groups separated by spaces is the amount n, for any number of groups. |
| NumberForms.DecimalNumber | src/vietnamese_nlp/money.py:244-255 | A number with a decimal part is an amount iff it has four digits and is not zero, rounded half up. |
| NumberForms.RenderingsAgree | src/vietnamese_nlp/money.py:212-326 | The three renderings of a number agree, but for the plain one of a year. |
| Announced.PlainInFront | src/vietnamese_nlp/money.py:328-330 | A plain word in front of any text leaves its amounts as they are, shifted; one that announces an identifier takes away exactly a first amount that starts with the text, has no scale in it and no currency suffix behind it. |
| WordBarrier.WordSeparates | src/vietnamese_nlp/money.py:386-599 | A plain word is a barrier in every text: the amounts of "a p b" are those of "a p", then those of "p b". |
| WordBarrier.WordBetween | src/vietnamese_nlp/money.py:340-644 | With the law on words in front: the amounts of "a p b" from those of "a p" and those of "b". |
| TokenEdges.TokensClear | src/vietnamese_nlp/money.py:221-228 | No number of any text starts behind a digit, a letter or an underscore or ends before a digit ("SP5000" holds none); words are whole runs of letters; a digit that belongs to no number stands behind a word character. |
| Refusals.BrokenShorthand | src/vietnamese_nlp/money.py:392-398 | A numeral, "k" or "tr" in any case, and two or more digits behind it are no amount at all: "2tr50". |
| Refusals.NoAmountCutsShorthand | src/vietnamese_nlp/money.py:392-398 | In every text, no number of an amount stands right before "k" or "tr" and a digit. |
| Refusals.ShorthandThenScale | src/vietnamese_nlp/money.py:467-473 | A word that multiplies behind a shorthand, glued to it or not, refuses both: "2tr5k", "1k5 nghìn". |
| Refusals.GluedWordRefused | src/vietnamese_nlp/money.py:474-486 | A number word other than a scale or "chục" written against any numeral refuses both: "2024năm", "2024rưỡi". |
| Refusals.GluedTen | src/vietnamese_nlp/money.py:126-133 | "chục" written against a numeral multiplies it by ten instead. |
| Clashes.ClashBehindGroups | src/vietnamese_nlp/money.py:467-486 | A number that clashes with a multiplying word behind it (a shorthand with a scale, digits with a glued ten or "trăm") refuses the groups in front of it too; the rest is read by itself. |
| Clashes.ClashBehindDigits | src/vietnamese_nlp/money.py:474-486 | Three digits with a number word written against them refuse the digits in front of them too: "1000 500năm". |
| Followers.GroupsThenText | src/vietnamese_nlp/money.py:443-452 | Groups before any text that does not go on with them: the text is read by itself, and the groups are an amount of their own iff the text does not begin with a thing that their slang scale counts, a broken shorthand, or a number or numeral with a mark behind it. |
| Followers.CountBehindGroups | src/vietnamese_nlp/money.py:543-552 | A number or numeral with a plain word behind it takes nothing from the groups in front: "320 nghìn một bao" is 320 000, "2 triệu 5 bao" 2 000 000. |
| Followers.WordBehindGroups | src/vietnamese_nlp/money.py:332-335 | With a plain word behind them groups are an amount iff it is no thing that one of their slang scales counts. |
| Suffixes.NumberThenText | src/vietnamese_nlp/money.py:601-644 | Any numeral before any text that stands apart and starts with a mark or a plain word: the text is read by itself, and the numeral is an amount iff it is more than zero, no phone number, and has a currency suffix behind it (after whitespace, a currency word or ₫ that no letter follows) or four digits and not the shape of a year. |
| Coefficients.CoefficientRead | src/vietnamese_nlp/money.py:555-588 | Any mixture of numerals, numeral words, "nửa", fillers, tens and hundreds before a scale word, alone or behind groups, is one amount: each ten or hundred multiplies the sum counted since the last one, or one; nothing is found iff nothing in it is more than zero. |
| PricedWords.WordsThenText | src/vietnamese_nlp/money.py:290-303 | Number words without a scale before any text that does not go on with them: an amount of what they count iff that is more than zero and a currency suffix stands right behind; "hai trăm đồng" is 200, "hai trăm" and "hai trăm bao" are nothing. |
| Coefficients.HalfOfScale | src/vietnamese_nlp/money.py:583-588 | "nửa" before a scale word is worth half of it, and adds to a numeral in front of it: "5 nửa triệu" is 5 500 000, "2 triệu nửa nghìn" 2 000 500. |
| Coefficients.HalfAlone | src/vietnamese_nlp/money.py:89-90 | "nửa" with a scale word is exactly half the scale: "nửa triệu" is 500 000. |
| Interrupted.FillerBetween | src/vietnamese_nlp/money.py:453-463 | A filler between digits and a group of three leaves them one number: "1 lẻ 500" is 1500. |
| Interrupted.NumeralBetween | src/vietnamese_nlp/money.py:464-466 | A numeral word or "nửa" between numbers keeps them apart: the number behind it is never a group of the first, and each side is read by itself. |
| NumberForms.PointAndComma | src/vietnamese_nlp/money.py:244-255 | Groups with a decimal part, "1.234,5" or "1,234.5", are the rounded decimal, for all numbers and all parts but those of three digits. |
| Spellings.NumberWithScale | src/vietnamese_nlp/money.py:93-109 | What each of the fifteen spellings of a scale makes of any numeral. |
| Spellings.WordWithScale | src/vietnamese_nlp/money.py:63-90 | What each spelling of a numeral, a ten, "trăm", a filler or "nửa" is worth before each spelling of a scale. |
| Spellings.NumeralBehindScale | src/vietnamese_nlp/money.py:498-552 | Which spellings of a numeral stand for hundreds behind which spellings of a scale, and what they add. |
| Spellings.HundredsBehindScale | src/vietnamese_nlp/money.py:516-542 | The same with "trăm" behind the numeral: hundreds of the scale for the eight where the scale allows it, and for "năm" (not "lăm") behind every scale; plain hundreds for the others. |
| Spellings.HalfBehindScale | src/vietnamese_nlp/money.py:86-87 | "rưỡi" adds half of the scale, for each of its spellings. |
| Spellings.ThingBehindScale | src/vietnamese_nlp/money.py:161-205 | With any plain word behind a numeral and a scale, the amount is lost iff the scale is "củ" and the word one of its twenty tubers, or "chai" and one of its thirteen bottles. |
| Spellings.RootsAndBottles | src/vietnamese_nlp/money.py:332-335 | "5 củ cải" and "2 chai nước" are no amounts, "5 củ nước" is one. |
| Spellings.NumberOfThing | src/vietnamese_nlp/money.py:141-157 | Behind each of the thirteen identifier words no numeral is an amount. |
| Spellings.NumberOfOther | src/vietnamese_nlp/money.py:135-157 | Every other plain word leaves all the amounts of any text behind it as they are: "mỗi đơn 5000". |
| Limits.SpokenInLetters | src/vietnamese_nlp/money.py:63-109 | The spoken round trip in the letters of the word lists, which read every canonical word back. |
| Limits.HundredsMisheard | src/vietnamese_nlp/money.py:516-535 | The round trip fails: "một triệu hai trăm ba mươi nghìn" is 201 030 000. |
| Limits.ZeroCountsAsOne | src/vietnamese_nlp/money.py:571-582 | Behind any groups that are not all zero, a zero numeral and a scale word add one full scale: an instance of the general law above. |
| Limits.TenInflates | src/vietnamese_nlp/money.py:561-570 | A ten or "trăm" in front of a number with a scale is added to the number: an instance of the law on leading words. |
| Limits.AmountOfZero | src/vietnamese_nlp/money.py:631-640 | "0.4đ" is an amount of 0. |
| Limits.DecimalOfZero | src/vietnamese_nlp/money.py:301-302 | "0.0001", without a suffix, is one too. |
| Limits.PhoneInGroups | src/vietnamese_nlp/money.py:319-321 | "0912 345 678" is an amount: the guard against phone numbers does not reach digits in groups. |
| Limits.PhoneWithDashes | src/vietnamese_nlp/money.py:319-321 | Of "0912-345-678" exactly the first part is an amount, 912. |
| Kinship.StripKinship | src/vietnamese_nlp/kinship.py:105-150 | The two loops compute the text without the removed titles, its whitespace collapsed and trimmed, and the titles. |
| Kinship.OnlyTheHead | src/vietnamese_nlp/kinship.py:123-137 | The scan of the whole utterance removes exactly the unbroken cluster of titles at its head; behind one digit glued to a letter, the cluster that starts at the second token. |
| KinshipText.OnlyTitlesGo | src/vietnamese_nlp/kinship.py:114-150 | The titles reported are a block of titles at the head (behind the digit, if one is glued to the first word), the last token survives, and the text given back holds exactly the other tokens in order. |
| KinshipTwice.SentenceStripped | src/vietnamese_nlp/kinship.py:114-150 | From words with any whitespace between them, the close titles in front of a name go, and the other words come back with their gaps narrowed. |
| KinshipTwice.PlainSentence | src/vietnamese_nlp/kinship.py:114-150 | With single gaps, one pass drops every leading title in front of a name and a second pass changes nothing, although the first word left may be a title. |
| KinshipTwice.StripTwice | src/vietnamese_nlp/kinship.py:123-149 | With any gaps, a second pass changes nothing iff no wide gap cuts the leading titles in two. |
| KinshipTwice.WideGapTwice | src/vietnamese_nlp/kinship.py:128-129 | "anh  chị Nam", with two blanks, loses "anh" in the first pass and "chị" in the second. |
| KinshipTwice.GluedSentence | src/vietnamese_nlp/kinship.py:123-149 | Behind a digit glued to its first word, a sentence loses its close titles just the same. |
| KinshipTwice.GluedTitleGoes | src/vietnamese_nlp/kinship.py:128-129 | "1anh Nam" becomes "1 Nam". |
| KinshipAgain.StripAgain | src/vietnamese_nlp/kinship.py:114-150 | For every utterance, a second pass changes nothing iff not: something was removed, no digit was glued in front, the first surviving token is a title and the next one a name and no number, and of the characters between the titles at most one is left before it. |
| KinshipAgain.BracketTwice | src/vietnamese_nlp/kinship.py:128-129 | "anh (chị Nam" has no wide gap, and the second pass changes it. |
| KinshipNames.TitleGoes | src/vietnamese_nlp/kinship.py:85-102 | At the head of any sentence a title goes iff the word behind it is a name, and else the sentence stays as it is. No names are the words of an amount other than numerals, "mười" and "linh"; "không"; and the particles and words of the trade. |
| KinshipNames.OneTitle | src/vietnamese_nlp/kinship.py:28-52 | Each of the 21 titles, in any case, goes before a last word that is a name, and only then. |
| KinshipNames.OnlySpokenTitles | src/vietnamese_nlp/kinship.py:124-125 | With any other first word a sentence stays as it is. |
| KinshipNames.AmountKeepsBa | src/vietnamese_nlp/kinship.py:10-13 | "ba trăm nghìn" and "ba mươi nghìn" keep their "ba". |
| KinshipNames.NamesOfAmounts | src/vietnamese_nlp/kinship.py:91-101 | "Con Linh" and "Thím Mười" lose the title. |
| KinshipNames.ParticlesAreNoNames | src/vietnamese_nlp/kinship.py:62-79 | "Cô ơi cho hỏi" and "ba ghi nợ" stay as they are. |
| Synonyms.FindPhrases | src/vietnamese_nlp/synonyms.py:149-159 | The search loop finds the leftmost phrases, jumps behind each, and looks the text of each match up in the dictionary; no match is skipped, and each gets the label of the phrase that matched. |
| Synonyms.MapSynonyms | src/vietnamese_nlp/synonyms.py:140-172 | The two loops compute the spliced text and the phrases found. |
| SynonymFacts.MapIsRewrite | src/vietnamese_nlp/synonyms.py:161-172 | Collecting the matches and splicing the labels in between is rewriting the text character by character. |
| SynonymFacts.Reflect | src/vietnamese_nlp/synonyms.py:132-137 | Rewriting makes no new phrase: one whose words are no labels stands in the rewritten text only where it stood before. |
| SynonymFacts.MapTwice | src/vietnamese_nlp/synonyms.py:140-172 | For every table in which a word that is a label means itself and stands alone, mapping the mapped text changes nothing. |
| SynonymTable.TableIsSound | src/vietnamese_nlp/synonyms.py:25-130 | The real dictionary is such a table, and its phrases stand longest first. |
| SynonymTable.MappingTwice | src/vietnamese_nlp/synonyms.py:125-172 | `map_synonyms` with the real dictionary is idempotent on every text. |
| SynonymTable.LongestWins | src/vietnamese_nlp/synonyms.py:129-137 | Where several phrases stand at the same place, the one taken is the longest, and every other is its beginning. |
| Phrases.LookupHits | src/vietnamese_nlp/synonyms.py:154-157 | The text of a match, in lower case and with its whitespace collapsed, is the phrase of the table. |
| Phrases.LookupFinds | src/vietnamese_nlp/synonyms.py:154-157 | The dictionary therefore gives the label of the phrase that matched, for every table: it never misses and never finds another phrase. |
| Occurrences.StandsExactly | src/vietnamese_nlp/synonyms.py:132-137 | The pattern of a phrase matches at a place iff letters and whitespace that stand there, in lower case and with whitespace collapsed, are the phrase, and no word character follows. |
| Occurrences.EveryOccurrence | src/vietnamese_nlp/synonyms.py:149-159 | No phrase that stands in a text is missed: a phrase found starts with it and is at least as long, or starts before it and covers its start. |
| Occurrences.OnlyOccurrences | src/vietnamese_nlp/synonyms.py:149-159 | What is found is a phrase of the table that stands there, behind no word character, with its label. |
| Occurrences.PhraseAlone | src/vietnamese_nlp/synonyms.py:140-172 | Every phrase of the dictionary by itself, in any case and with any whitespace between its words, becomes the label of its group, and is reported as it stands. |
| Occurrences.CaseDoesNotMatter | src/vietnamese_nlp/synonyms.py:136 | Changing the case of letters in a text changes nothing that is found in it. |
| Occurrences.TextInPieces | src/vietnamese_nlp/synonyms.py:161-172 | The phrases reported, with the text between them, are the text; with their labels in their places they are the text returned; each of them is a phrase of the table under its label. |
| Occurrences.LabelReads | src/vietnamese_nlp/synonyms.py:164-172 | A label takes its place letter for letter, in lower case and with its underscores. |
| SynonymGroups.TableIsGroups | src/vietnamese_nlp/synonyms.py:25-130 | The table that is searched holds exactly the phrases of the eleven groups, each under the label of its group. |
| SynonymGroups.OneMeaning | src/vietnamese_nlp/synonyms.py:121-127 | No phrase stands in two groups, so the dictionary is a function. |

## Left out

- Regular expressions: each pattern is a scanner over whole runs of characters. That backtracking finds nothing else
  is an argument in the comments of `Lexer`, not a theorem.
- Decimal context: amounts are exact reals; the 28 digits of `Decimal` and `InvalidOperation` (`money.py:633`) are not
  modelled.
- Unicode: lower-casing is one character to one character, there is no normalisation, a character that is a letter is
  one whether composed or not, and decimal digits of other scripts are not told apart from ASCII ones.
- FindAmounts.ReadRun: the locals of a run are kept in one record, and the body of the inner loop is split by the kind
  of token; the record is replaced where the program assigns single locals.
- Synonyms.MapSynonyms: takes the table as a parameter; the module constant is `TERMS`. The iteration over the matches
  of the pattern is the search loop itself.
- Spoken.SpokenRoundTrip: is about the canonical spelling ("mười", "mươi", "mốt", "lăm", "linh"); other fillers and
  spellings of the same number are covered by the word classes only as far as they fall in the same class.
- Names.NamesDoNotInterfere: rows of words that hold other number words than 0..9 and "nửa" are covered for single words
  only, by `LeadingWords`.
- `quantity.py`: the same number reader and one search, only easy members.
- `pipeline.py` and `result.py`: the order of the passes and plain records. No claim is made about running the whole
  pipeline twice.
- `cli.py`, the HTTP server, the customer query, and the clients: input and output.
