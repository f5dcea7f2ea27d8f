# 25-pair colour code

A model of the `color_coding` package: the 25-pair colour code, which maps a pair number 1..25
to a (major, minor) colour pair built from two fixed five-name lists, and back, plus the routine
that lists all 25 pairs as the reference manual.

Modules follow the package's files:

- `Constants` (`constants.dfy`): the major colours White, Red, Black, Yellow, Violet and the minor
  colours Blue, Orange, Green, Brown, Slate.
- `ColorUtils` (`color_utils.dfy`): the display string, number to pair, pair to number. The
  `ValueError`s of color_utils.py become the `Err` cases `MajorIndexOutOfRange` and `MinorIndexOutOfRange`
  of a `Result`. Python's `list.index` is `IndexOf`, which returns the first match or `None`.
  Python's list indexing is `PyIndex`: a negative index counts from the end, and an index further
  out gives `IndexError`.
- `Printer` (`printer.dfy`): `GenerateReferenceManual` builds the table with printer.py's nested
  loops. It is proved equal to the closed-form table `ReferenceManual`, and the lemmas beside
  that table state its order, its numbering and its agreement with both conversions.
- `SelfTests` (`tests.dfy`): the fixed cases of the package's self-test, written as lemmas.

The code does not reject numbers below 1. For such a number the major index is negative, so it
passes the `>=` check at main.py:24, and Python's negative indexing then wraps it. Numbers -24..0
therefore decode to a pair: 0 gives (Violet, Slate), the same pair as 25. Numbers from -25 down
raise `IndexError`. Dafny's `/` and `%` are Euclidean, so with the positive divisor 5 they agree
with Python's `//` and `%`, and the model takes the same path as the code.

The code raises `ValueError` with the texts "Major index out of range" and "Minor index out of
range" in both directions. The model has one `Err` case per text, plus `IndexError` for
Python's own list-index failure.

## Model

| member | source | states |
|---|---|---|
| `Constants.ColorListsWellFormed` | main.py:8-9 | both lists have five names, no name occurs twice in a list, and no name contains a space |
| `ColorUtils.ColorPairToString` | main.py:17-18 | the result is the major name, one space, then the minor name, with the matching length |
| `ColorUtils.ParseColorPairString` | main.py:17-18 | splitting at the first space fails exactly when the string holds no space; it is the inverse used below |
| `ColorUtils.ColorPairStringRoundTrip` | main.py:17-18 | when the major name has no space, the display string splits back into the same pair |
| `ColorUtils.PyIndex` | main.py:31 | Python's list indexing: it succeeds exactly for indices in -len..len-1, then gives the element at a non-negative index, or the element that many places from the end for a negative one, and otherwise fails with `IndexError`; `ColorFromPairNumber` uses it for both lookups, so its wrap and `IndexError` cases show up in that function's ensures |
| `ColorUtils.ConversionMessages` | main.py:22-43 | the errors the conversions return carry the texts "Major index out of range" (a number above 25, an unknown major colour) and "Minor index out of range" (a listed major with an unknown minor colour), via `Message` |
| `ColorUtils.IndexOf` | main.py:36-41 | the first position of an element in a list, or `None` exactly when the element is absent (Python's `list.index` and its `ValueError`) |
| `ColorUtils.ColorFromPairNumber` | main.py:21-31 | for 1..25 the pair is (major[(n-1) div 5], minor[(n-1) mod 5]); above 25 the major error; the minor error never occurs; -24..0 wrap through negative indexing; -25 and below give `IndexError`; success exactly on -24..25 |
| `ColorUtils.PairNumberFromColor` | main.py:34-45 | an unknown major colour gives the major error whatever the minor; a known major with an unknown minor gives the minor error; success exactly when both are listed; the number is majorIndex*5 + minorIndex + 1 and lies in 1..25 |
| `ColorUtils.PairAt` | main.py:21-45 | the pair at indices (i, j) encodes to i*5 + j + 1, and that number decodes to the same pair |
| `ColorUtils.NumberToPairToNumber` | main.py:21-45 | for every n in 1..25, decoding succeeds and encoding the decoded pair gives n back |
| `ColorUtils.PairToNumberToPair` | main.py:21-45 | for every listed major and minor colour, encoding succeeds and decoding the number gives the same pair back |
| `Printer.ReferenceManual` | color_coding/printer.py:9-14 | the table has 25 = 5 * 5 entries; entry k is (k+1, major[k div 5], minor[k mod 5]) |
| `Printer.GenerateReferenceManual` | color_coding/printer.py:5-14 | the nested loops over the major colours, then the minor colours, produce exactly the table `ReferenceManual` |
| `Printer.ReferenceManualEnds` | color_coding/printer.py:10-13 | the first entry is (1, White, Blue) and the last is (25, Violet, Slate) |
| `Printer.ReferenceManualAscending` | color_coding/printer.py:10-13 | pair numbers strictly ascend along the table, so they are pairwise distinct |
| `Printer.ReferenceManualNumbers` | color_coding/printer.py:10-13 | the set of pair numbers in the table is exactly {1..25} |
| `Printer.ReferenceManualCoversAllPairs` | color_coding/printer.py:10-11 | every combination of a listed major and a listed minor colour appears in the table |
| `Printer.ReferenceManualMatchesDecoder` | color_coding/printer.py:12 | every entry's number decodes to that entry's colours |
| `Printer.ReferenceManualMatchesEncoder` | color_coding/printer.py:12 | the lookup in the loop succeeds for every entry and gives that entry's number |
| `SelfTests.NumberToPairCases` | main.py:96-97 | 4 decodes to (White, Brown) and 5 to (White, Slate) |
| `SelfTests.PairToNumberCases` | main.py:98-100 | (Black, Orange) is 12, (Violet, Slate) is 25, (Red, Orange) is 7 |
| `SelfTests.UnknownColorCases` | main.py:35-43 | (Pink, Blue) and (Pink, Pink) give the major error; (White, Pink) gives the minor error |
| `SelfTests.BoundaryCases` | main.py:21-31 | 25 is (Violet, Slate); 26 gives the major error; 0 wraps to (Violet, Slate); -24 wraps to (White, Blue); -25 gives `IndexError` |
| `SelfTests.ColorPairStringCases` | main.py:17-18 | (White, Blue) is displayed as "White Blue", which reads back as that pair |

## Left out

- The shell scaffolding of `main.py` (`mkdir`, the heredocs that write the files, `touch`, `echo`): it only creates files.
- `print_reference_manual` (`color_coding/printer.py:17-27`, and its copy in `main.py`): console output with column padding; the order and values it prints are those of `GenerateReferenceManual`.
- The second copy of `printer.py` written by `main.py`: it is the same code, modelled once.
- The `__main__` entry point and the printing and `assert` harness of `run_tests`: their fixed inputs and outputs are the `SelfTests` lemmas.
- Exceptions are values: a raised error is an `Err` result, and its message text is given by `Message`; `IndexError`'s text is Python's own, and color_utils.py does not write it.
- Non-integer arguments to the conversions: the model types the pair number as an integer and the colours as strings.
