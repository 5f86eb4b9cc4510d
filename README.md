# Malaysia stock screening — verified model of the screening rule

The screener walks the 10000 Bursa Malaysia codes `0000.KL` … `9999.KL` in order. For each code it looks up the daily bars of the last year and takes the final EMA-25 and EMA-50 of the closes. It then sorts the code into four lists of the `Test` object:

- **above both EMAs**: the last open and close are both above EMA-25 and EMA-50.
- **between the EMAs**: the last open and close are both above EMA-25 and below EMA-50.
- **breakthrough EMA-25**: the last close is above EMA-25 and neither earlier branch matched.
- **high potential**: an independent flag made of seven comparisons on the last two bars.

Codes that are missing, have fewer than 50 bars, close below 0.3 or are not in an uptrend (EMA-25 not strictly above EMA-50) go in no list.

The model is split by concept:

- `stock_codes.dfy` (module `StockCodes`): the code generator, `f"{code:04d}.KL"` over `range(10000)`. It covers decimal formatting with zero padding and its reading back.
- `rule.dfy` (module `Rule`): bars, the per-code data, and the decision procedure for one code as a pure function `Classify`.
- `buckets.dfy` (module `Buckets`): the four lists as a value. `Screen` is a fold that appends one outcome at a time. `Selected` defines each list independently as a filter of the screened codes. The lemmas relate the two and prove what the filled lists mean.
- `screener.dfy` (module `Screener`): the class `Screener`, standing for `Test`, with four `seq<string>` fields. Method `ProcessStock` is the loop body. Method `ProcessAll` is the loop over a sequence of codes, and method `Test` runs it over the generated codes. Method `Run` constructs a screener and runs it.

Prices are `real`, volumes `int`. The rule only compares prices and never computes with them. The final EMA values are inputs: a `Series` carries the bars and the two final EMA values. As in the code, an EMA column only counts as present when the series has at least `span` bars.

What the proofs establish:

- **The between bucket is always empty.** Its condition `ema25 < open < ema50` implies `ema25 < ema50`. That contradicts the uptrend gate `ema25 > ema50`, which every kept code has passed.
- **Categories under the gate.** Once the gate holds, the three-way chain reduces to comparisons against EMA-25:
  - above both ⇔ the last open and close are both above EMA-25;
  - breakthrough EMA-25 ⇔ the open is at or below EMA-25 and the close is above it;
  - no category ⇔ the close is at or below EMA-25.
- **High potential.** A high-potential code passed the gate and satisfies all seven comparisons. It is in exactly one of the above-both and breakthrough lists.
- **A worked example.** EMA-25 110, EMA-50 100, open 105, close 115 is classified as breakthrough EMA-25 with the high-potential flag, not as above both: the open 105 is not above EMA-25. One could expect this example to be "above both EMAs". The model follows the code.

## Model

| member | source | states |
|---|---|---|
| `StockCodes.Decimal` | src/test.py:35 | the digits of `n` without padding: at least one digit, no leading zero unless the number is 0, and reading them back as a decimal number gives `n` |
| `StockCodes.LeadingZerosValue` | src/test.py:35 | prefixing zeros to a digit string leaves its decimal value unchanged |
| `StockCodes.DecimalLength` | src/test.py:35 | a number below 10^k has at most k digits |
| `StockCodes.Format04d` | src/test.py:35 | `{n:04d}`: all digits, at least four of them, exactly four when n < 10000, no leading zero when longer than four, and the decimal value is `n` |
| `StockCodes.StockCode` | src/test.py:35 | the code ends in ".KL"; the part before is the padded digit string whose value is `n`; the length is 7 for every n < 10000 |
| `StockCodes.StockCodeInjective` | src/test.py:35 | two numbers with the same code are equal |
| `StockCodes.AllCodesDistinct` | src/test.py:35 | `AllCodes` is the comprehension over `range(10000)`, the i-th entry being `StockCode(i)`; its 10000 codes are pairwise distinct |
| `StockCodes.FirstStockCode` | src/test.py:35 | 0 gives "0000.KL" |
| `StockCodes.TwoDigitStockCode` | src/test.py:35 | 42 gives "0042.KL" |
| `StockCodes.LastStockCode` | src/test.py:35 | 9999 gives "9999.KL" |
| `Rule.CategoryOf` | src/test.py:76-81 | the between-EMAs category requires EMA-25 below EMA-50. Under the uptrend gate it is never chosen, and the chain reduces to: above both ⇔ open and close above EMA-25; breakthrough ⇔ open ≤ EMA-25 < close; none ⇔ close ≤ EMA-25 |
| `Rule.Classify` | src/test.py:43-81 | uses `LastEma` (an EMA value is present only with at least `span` bars, lines 51-60), `PassesGate` (line 68) and `IsHighPotential` (lines 70-73). A code is kept iff its data is present, it has ≥ 50 bars, the last close ≥ 0.3 and EMA-25 > EMA-50. For a kept code: the high-potential flag is set iff all seven comparisons on the last two bars hold. The category is above both iff the last open and close are above EMA-25, breakthrough iff open ≤ EMA-25 < close, and none iff close ≤ EMA-25. It is never the between category, and a high-potential code always has one of the other two |
| `Rule.WorkedExample` | src/test.py:68-81 | EMA-25 110, EMA-50 100, open 105, close 115, previous bar 95/100 with half the volume: breakthrough EMA-25 with the high-potential flag set |
| `Rule.BelowFloorExample` | src/test.py:67-68 | a last close of 0.25 is excluded even though the series is in an uptrend, all seven high-potential comparisons hold and the above-both condition holds |
| `Buckets.ListOf` | src/test.py:76-81 | each category names one of the three category lists, the one a code of that category lands in |
| `Buckets.Put` | src/test.py:74-81 | an `append` on one list: that list gains the code at its end, the other three are unchanged |
| `Buckets.Record` | src/test.py:68-81 | one loop pass: every list either is unchanged or gains the code at its end, exactly when the outcome selects it |
| `Buckets.SelectedSnoc` | src/test.py:41 | screening one more code extends each filtered list by that code or by nothing |
| `Buckets.ScreenIsSelected` | src/test.py:41-81 | `Screen` is the loop's fold, `Selected` the per-list filter of the codes by `Lands`. After screening a sequence of codes, each list is its old contents followed by exactly the codes that belong in it, in screening order. This is append-only and order-preserving |
| `Buckets.SelectedMembership` | src/test.py:41-81 | a code is in a list iff it was screened and its outcome selects that list |
| `Buckets.SelectedDistinct` | src/test.py:35-41 | screening distinct codes gives lists without repeated codes |
| `Buckets.BetweenNeverFilled` | src/test.py:68-79 | the between-EMAs list never receives a code |
| `Buckets.CategoryListsPartition` | src/test.py:76-81 | the three category list sizes sum to the number of codes that received a category |
| `Buckets.CategoryListsDisjoint` | src/test.py:76-81 | no code is in two different category lists |
| `Buckets.ShortOrMissingInNoList` | src/test.py:43-46 | `Lookup` gives no data for a code absent from the download (the swallowed failing lookup); a code missing from the download, or with fewer than 50 bars, is in no list |
| `Buckets.BelowFloorInNoList` | src/test.py:68 | a code whose last close is below 0.3 is in no list |
| `Buckets.NoUptrendInNoList` | src/test.py:68 | a code whose EMA-25 is not strictly above its EMA-50 is in no list |
| `Buckets.HighPotentialMeaning` | src/test.py:68-81 | a code is in the high-potential list iff it was screened, has ≥ 50 bars, passes the floor and the gate, and satisfies all seven comparisons. Such a code is in exactly one of the above-both and breakthrough lists |
| `Buckets.CategoryListsMeaning` | src/test.py:76-81 | for a screened code with ≥ 50 bars that passes the floor and the gate: it is in the above-both list iff it opened and closed above EMA-25, and in the breakthrough list iff it opened at or below EMA-25 and closed above it |
| `Screener.Screener.constructor` | src/test.py:12-17 | all four lists start empty |
| `Screener.Screener.ProcessStock` | src/test.py:43-84 | the lists become `Record` of the old lists with this code's outcome: each list gains the code at its end or is unchanged |
| `Screener.Screener.Append` | src/test.py:74-81 | one list gains the code at its end, the others are unchanged |
| `Screener.Screener.ProcessAll` | src/test.py:41-84 | the loop over the given codes: the lists become the old lists screened over the codes in order. Each gains exactly its selected codes at its end. The between list is unchanged |
| `Screener.Screener.Test` | src/test.py:35-84 | generates the 10000 codes and screens them in generation order: each list gains exactly its selected generated codes at its end, and the between list is unchanged |
| `Screener.Run` | src/test.py:213-218 | on a fresh screener, each list is exactly the generated codes that belong in it, in generation order and without repetition. The between list is empty |
| `Screener.RunListsDistinct` | src/test.py:35-81 | no list filled from the 10000 generated codes holds a code twice |

## Left out

- Downloading: the bulk download and its network I/O are not modelled. The data arrives as a map from code to series. A code absent from the map stands for the failing lookup, whose exception the loop swallows.
- The EMA computation (pandas exponential smoothing, unadjusted): not modelled. Its final values are inputs carried by each series.
- Floating point: prices are exact reals. NaN values, with their comparison semantics, are not modelled. Neither is the binary approximation of the 0.3 floor.
- Other exceptions inside the loop body: with at least 50 bars, reading the last two rows cannot fail in the model, so missing data is the only error path modelled.
- The date window computed from the current date, and the elapsed-time measurement: wall-clock dependent.
- Logger suppression and the progress bar: process configuration and display only.
- Printing of the lists and their counts.
- `create_charts`, the chart rendering, directory creation, batch-file copy and HTML output: I/O and plotting-library calls only.
