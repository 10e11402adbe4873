# Strategic stock reconciliation, modelled in Dafny

The Strategic Stock app (`strategicstock.py`) reconciles a norm-sensing
workbook (the demand: one row per programme, style and colour, with
concluded norms and a `CF` factor) with an RM-macro workbook (material
consumption per length `l`, colour and process group). When the user
presses **Run**, lines 93-132 of the script:

1. keep the demand rows of the selected programs (line 93);
2. keep the macro rows whose `PROC_GRP` is `ELS` or `LAC` (line 99);
3. fill missing `l` cells with `"0"` and replace every `l` by the first
   run of decimal digits in its text, or `"0"` when there is none (102-103);
4. group the macro rows by `(l, GMT colour, PROC_GRP)` and average
   `CONSUMPTION` per group (106);
5. render the join keys `Style`, `GMT Color`, `l`, `GMT colour` as text
   and strip surrounding whitespace (109-113);
6. left-merge demand with grouped norms on
   `(Style, GMT Color) = (l, GMT colour)` (116);
7. add `No of Pieces = Concluded Norms / CF` and
   `Requirement = No of Pieces * CONSUMPTION` (131-132).

The model follows that order. Sheets are sequences of records
(`Table.DemandRow`, `Table.MacroRow`, `Table.NormRow`, `Table.MergedRow`);
key cells are `Str`, `Int` or `Null`; numeric cells are `Option<real>`.
Each stage is a pure function on sequences (`Filters`, `LengthKey`,
`Aggregate`, `Canonical`, `Join`, `Derived`), and the in-place column
rewrites of lines 102-103, 109-113 and 131-132 are methods over arrays
that are proved to compute those functions. `Pipeline.Reconcile` composes
the stages. `Pipeline.Run` performs them step by step and is proved equal
to it. `Scenarios` works small sheets through the whole pipeline.

The code and the usual description of this pipeline disagree in one
place, and the model follows the code. A demand row is usually said to
fan out to at most two merged rows, one per process group. But the script
strips whitespace from `GMT colour` *after* grouping (line 113), so
spellings such as `"Red"`, `"Red "` and `" Red"` form three groups that
all match the same demand row. `Scenarios.ColourSpellingsFanOutThree`
shows such a row becoming three merged rows. The bound of two is proved
(`Pipeline.ReconcileFanOutAtMostTwo`) only for macro sheets where stripping
merges no two colour spellings.

The demand-side `Style` is only stripped; the digit extraction of line 103
runs on the macro side alone. A style such as `"100A"` therefore never
matches a length key, and `Scenarios.MatchedAndUnmatchedOrders` shows it.

## Model

| member | source | states |
|---|---|---|
| Filters.SelectPrograms | strategicstock.py:93 | every kept demand row comes from the sheet and has a selected `Program` |
| Filters.SelectProgramsExact | strategicstock.py:93 | each demand row is kept exactly as often as it occurs when its program is selected, and never otherwise |
| Filters.SelectProgramsKeepsOrder | strategicstock.py:93 | selection distributes over concatenation, so kept rows keep their relative order and are unchanged |
| Table.Filter | strategicstock.py:93 | a boolean mask never adds rows, and every kept row comes from the sheet and satisfies the mask (`FilterCount` and `FilterAppend` fix counts and order) |
| Table.FilterCount | strategicstock.py:93 | a boolean mask keeps each row as often as it occurs if it satisfies the mask, else drops it |
| Table.FilterAppend | strategicstock.py:93 | a boolean mask applied to two halves is the concatenation of the halves' selections |
| Table.FilterKeepsAll | strategicstock.py:93 | a mask that holds on every row returns the whole sheet unchanged |
| Filters.KeepRelevantGroups | strategicstock.py:99 | every remaining macro row comes from the sheet and has `PROC_GRP` ELS or LAC |
| Filters.KeepRelevantGroupsExact | strategicstock.py:99 | a macro row survives exactly as often as it occurs iff its group is ELS or LAC |
| Table.CellText | strategicstock.py:103 | a text cell renders as itself; a missing cell as `"nan"`; a non-negative integer as its canonical decimal text (no leading zero unless it is `"0"`) that reads back as the integer; a negative one as `-` followed by the canonical decimal text of its magnitude |
| Strings.IntText | strategicstock.py:103 | a non-negative integer renders as canonical decimal text (non-empty digits, no leading zero unless it is `"0"`) that reads back as the integer; a negative one as `-` followed by the canonical text of its magnitude |
| Strings.DecimalText | strategicstock.py:103 | the rendering of a natural number is a non-empty digit string with no leading zero unless it is `"0"`, and starts with a non-zero digit when the number is positive |
| Strings.LeadingNonZeroIsPositive | strategicstock.py:103 | a digit string starting with a non-zero digit denotes a positive number |
| Strings.CanonicalDecimalIsRendering | strategicstock.py:103 | every canonical decimal text is the rendering of the number it denotes, so `str(n)` is the only canonical text for `n` |
| Strings.DecimalRoundTrip | strategicstock.py:103 | reading back the decimal rendering of `n` gives `n` |
| Strings.LeadingDigits | strategicstock.py:103 | the result is the longest digit prefix of the text |
| Strings.FirstDigitRun | strategicstock.py:103 | the search fails iff the text has no digit; a found run is a non-empty digit string |
| Strings.LeadingDigitsUnique | strategicstock.py:103 | a digit prefix that cannot be extended is the one the scan finds |
| Strings.FirstRunAtIsFound | strategicstock.py:103 | a maximal digit run with no digit before it is exactly what the search returns |
| Strings.FoundIsFirstRun | strategicstock.py:103 | what the search returns is a maximal digit run with no digit before it |
| LengthKey.FillZero | strategicstock.py:102 | a filled cell is never missing |
| LengthKey.ExtractDigits | strategicstock.py:103 | the extraction never fails and yields a non-empty digit string |
| LengthKey.LengthKey | strategicstock.py:102-103 | the normalised length is always a non-empty digit string |
| LengthKey.LengthKeyOfNull | strategicstock.py:102-103 | a missing length becomes `"0"` |
| LengthKey.LengthKeyWithoutDigits | strategicstock.py:103 | a length whose text holds no digit becomes `"0"` |
| LengthKey.LengthKeyIsFirstRun | strategicstock.py:103 | when the text holds a digit, the key is its first maximal digit run |
| LengthKey.LengthKeyIsFound | strategicstock.py:103 | conversely, the key of a text with a digit is a first maximal digit run of it |
| LengthKey.LengthKeyIdempotent | strategicstock.py:103 | normalising a non-empty digit string returns it unchanged |
| LengthKey.LengthKeyTwice | strategicstock.py:103 | normalising a normalised key changes nothing |
| LengthKey.LengthKeyOfInt | strategicstock.py:103 | an integer length becomes the digits of its magnitude (the sign is not a digit) |
| LengthKey.LengthKeyOfSuffixedText | strategicstock.py:103 | `"32L-Red"` becomes `"32"` |
| LengthKey.LengthKeyOfPrefixedText | strategicstock.py:103 | `"R0"` becomes `"0"` and `"L32"` becomes `"32"` |
| LengthKey.LengthKeyOfLetters | strategicstock.py:103 | `"abc"` becomes `"0"` |
| LengthKey.NormaliseLengths | strategicstock.py:102-103 | the normalised sheet has the same rows in the same order, each with only its `l` changed, to `LengthKey` of that row's own `l`: the first digit run of its text, or `"0"` when it is missing or has no digit |
| LengthKey.NormaliseLengthsShape | strategicstock.py:102-103 | each normalised row keeps its other columns and has a non-empty digit `l` |
| LengthKey.NormaliseLengthsOfDigits | strategicstock.py:102-103 | rows whose `l` is already a digit string are left unchanged |
| LengthKey.FillLengthColumn | strategicstock.py:102 | every `l` cell of the array is filled in place, nothing else changes |
| LengthKey.ExtractLengthColumn | strategicstock.py:103 | every `l` cell of the array is replaced by its digit extraction in place |
| LengthKey.NormaliseLengthColumn | strategicstock.py:102-103 | after both assignments the array holds the normalised rows of its old contents |
| Aggregate.GroupKeys | strategicstock.py:106 | the group keys are pairwise distinct and are exactly the keys present among rows with no missing key part |
| Aggregate.Mean | strategicstock.py:106 | the mean is missing iff no value is present, otherwise mean times count equals the sum of the present values |
| Aggregate.MeanOfSingleton | strategicstock.py:106 | a single value is its own mean |
| Aggregate.SumBounds | strategicstock.py:106 | values within `[lo, hi]` sum to between `lo·n` and `hi·n` |
| Aggregate.MeanWithinBounds | strategicstock.py:106 | the mean lies within any bounds of the values it averages |
| Aggregate.SumAppend | strategicstock.py:106 | the sum of a concatenation is the sum of the sums |
| Aggregate.SumPermutation | strategicstock.py:106 | the sum does not depend on the order of the values |
| Aggregate.PresentCount | strategicstock.py:106 | the present values are the non-missing cells, each as often as it occurs |
| Aggregate.MeanPermutation | strategicstock.py:106 | the mean does not depend on the order of the values |
| Aggregate.GroupValuesNonEmpty | strategicstock.py:106 | a key has values iff it is present among the grouped rows |
| Aggregate.GroupValuesAppend | strategicstock.py:106 | a group's values over two halves are the concatenation of each half's |
| Aggregate.GroupValuesPermutation | strategicstock.py:106 | reordering the macro rows only reorders each group's values |
| Aggregate.GroupValuesOfSingleton | strategicstock.py:106 | a group with a single member holds just that member's consumption |
| Aggregate.GroupMeans | strategicstock.py:106 | one grouped row per group key, in order of first appearance (the `GroupKeys` order) |
| Aggregate.GroupMeansKeysUnique | strategicstock.py:106 | no two grouped rows share a `(l, GMT colour, PROC_GRP)` key |
| Aggregate.GroupMeansCoversGroups | strategicstock.py:106 | the grouped rows' keys are exactly the keys present in the macro rows |
| Aggregate.GroupMeansMember | strategicstock.py:106 | a row is in the grouped frame iff its key is present and its consumption is the mean of that group |
| Aggregate.GroupMeansOfSingletonGroup | strategicstock.py:106 | a singleton group yields its own row's consumption |
| Aggregate.GroupMeansOrderIndependent | strategicstock.py:106 | the set of grouped rows does not depend on the order of the macro rows |
| Strings.Strip | strategicstock.py:109-113 | the stripped text has no whitespace at either end |
| Strings.TrimStartSpec | strategicstock.py:109-113 | left trimming drops exactly the leading whitespace |
| Strings.TrimEndSpec | strategicstock.py:109-113 | right trimming drops exactly the trailing whitespace |
| Strings.StripIsSliceBetweenSpaceMargins | strategicstock.py:109-113 | the stripped text is the slice of the input between whitespace-only margins |
| Strings.StripKeepsStripped | strategicstock.py:109-113 | text with no whitespace at its ends is left alone |
| Strings.StripIdempotent | strategicstock.py:109-113 | stripping twice is stripping once |
| Strings.StripKeepsDigits | strategicstock.py:112 | a digit string has no whitespace to lose |
| Canonical.CanonicalKey | strategicstock.py:109-113 | a canonical key is text with no whitespace at either end |
| Canonical.CanonicalKeyIsTrimmedText | strategicstock.py:109-113 | the canonical key is a slice of the cell's rendered text |
| Canonical.CanonicalKeyIdempotent | strategicstock.py:109-113 | canonicalising a canonical key changes nothing |
| Canonical.CanonicalKeyKeepsDigits | strategicstock.py:112 | a normalised length key is already canonical |
| Canonical.CanonicalDemands | strategicstock.py:109-110 | row for row, `Style` and `GMT Color` become `CanonicalKey` of that row's own cells (its text with the whitespace margins cut off) and every other column is kept |
| Canonical.CanonicalDemandsMembers | strategicstock.py:109-110 | the canonical sheet holds the canonical form of every row, and nothing else |
| Canonical.CanonicalDemandsSpec | strategicstock.py:109-110 | every demand row gets stripped `Style` and `GMT Color` and keeps its other columns; doing it twice changes nothing |
| Canonical.CanonicalDemandsFixed | strategicstock.py:109-110 | demand rows whose keys are already canonical are unchanged |
| Canonical.CanonicalNorms | strategicstock.py:112-113 | row for row, `l` and `GMT colour` become `CanonicalKey` of that row's own cells (its text with the whitespace margins cut off) and every other column is kept |
| Canonical.CanonicalNormsSpec | strategicstock.py:112-113 | every grouped row gets stripped `l` and `GMT colour` and keeps its other columns; doing it twice changes nothing |
| Canonical.CanonicaliseStyleColumn | strategicstock.py:109 | each `Style` cell of the array is canonicalised in place, nothing else changes |
| Canonical.CanonicaliseColorColumn | strategicstock.py:110 | each `GMT Color` cell of the array is canonicalised in place, nothing else changes |
| Canonical.CanonicaliseDemandKeys | strategicstock.py:109-110 | after both assignments the array holds the canonical demand rows of its old contents |
| Canonical.CanonicaliseLengthColumn | strategicstock.py:112 | each `l` cell of the array is canonicalised in place, nothing else changes |
| Canonical.CanonicaliseColourColumn | strategicstock.py:113 | each `GMT colour` cell of the array is canonicalised in place, nothing else changes |
| Canonical.CanonicaliseNormKeys | strategicstock.py:112-113 | after both assignments the array holds the canonical norm rows of its old contents |
| Join.MatchingNorms | strategicstock.py:116 | every found norm row comes from the grouped frame and matches on `(Style, GMT Color) = (l, GMT colour)` |
| Join.MatchingNormsAll | strategicstock.py:116 | when every norm row matches, all are found, in order |
| Join.MatchingNormsExact | strategicstock.py:116 | each matching norm row is found as often as it occurs, and no other |
| Join.JoinRow | strategicstock.py:116 | a demand row yields one output row per match, or a single row with missing norm columns when there is none; each carries the demand row unchanged |
| Join.LeftJoin | strategicstock.py:116 | every demand row yields at least one output row; `LeftJoinRows`, `LeftJoinCount` and `LeftJoinKeepsOrder` fix provenance, multiplicity and order |
| Join.LeftJoinRows | strategicstock.py:116 | every output row's demand part is an input row, its norm is missing iff that row has no match, and a present norm matches and comes from the grouped frame |
| Join.LeftJoinCount | strategicstock.py:116 | a demand row occurs in the output (its count in the input) × (its number of matches, or 1 when none) times |
| Join.LeftJoinKeepsEveryDemandRow | strategicstock.py:116 | no demand row is lost |
| Join.LeftJoinFindsMatch | strategicstock.py:116 | a demand row is paired in the join with every norm row whose keys equal its own |
| Join.LeftJoinKeepsOrder | strategicstock.py:116 | the join distributes over concatenation of the demand rows, so output follows demand order |
| Join.DemandsAppend | strategicstock.py:116 | the demand columns of a concatenation are the concatenation of the demand columns |
| Join.MatchesHaveDistinctGroups | strategicstock.py:106-116 | with unique grouped keys, a demand row's matches all have different process groups |
| Join.FanAtMostTwo | strategicstock.py:99-116 | with unique keys and only ELS and LAC groups, a demand row has at most two matches |
| Derived.NoOfPieces | strategicstock.py:131 | pieces are present iff norms and a non-zero `CF` are, and then pieces × `CF` = norms |
| Derived.RequirementOf | strategicstock.py:132 | the requirement is present iff pieces and consumption are |
| Derived.CalculatedRows | strategicstock.py:131-132 | same rows in the same order, demand and norm parts kept, and each row satisfies the relation between its demand, norm and calculated columns |
| Derived.CalculatedSpec | strategicstock.py:131-132 | `No of Pieces` does not depend on the match; `Requirement` = (norms / `CF`) × `CONSUMPTION` exactly when all three are present, and is missing on unmatched rows |
| Derived.CalculatedHolds | strategicstock.py:131-132 | a calculated row satisfies the relation between its demand, norm and calculated columns |
| Derived.CalculatedRowsHold | strategicstock.py:131-132 | every row of the calculated sheet satisfies that relation |
| Derived.CalculatedRowsKeepJoin | strategicstock.py:131-132 | the calculated columns leave every row's demand and norm columns unchanged |
| Derived.CalculatedRowsAppend | strategicstock.py:131-132 | each row's calculated values depend on that row alone |
| Derived.AddPiecesColumn | strategicstock.py:131 | each array row gets its `No of Pieces` in place, nothing else changes |
| Derived.AddRequirementColumn | strategicstock.py:132 | each array row gets its `Requirement` from the `No of Pieces` already there |
| Derived.AddCalculatedFields | strategicstock.py:131-132 | after both assignments the array holds the calculated rows of its old contents |
| Pipeline.DemandSide | strategicstock.py:93-110 | at most as many rows as the demand sheet, each of a selected program, with stripped `Style` and `GMT Color`; `SelectProgramsExact` fixes which rows and how often, `CanonicalDemands` each row's key values |
| Pipeline.GroupInput | strategicstock.py:99-103 | at most as many rows as the macro sheet, each ELS or LAC with a digit-string `l`; `KeepRelevantGroupsExact` fixes which rows and how often, `NormaliseLengths` each row's `l` value |
| Pipeline.NormSide | strategicstock.py:99-113 | one row per group key of the grouping input, each with stripped `l` and `GMT colour`; `CanonicalNorms` gives each row's key values, `CanonicalNormInNormSide` that every grouped row arrives with its canonical keys |
| Pipeline.Reconcile | strategicstock.py:93-132 | at least one result row per demand-side row, and every result row's calculated columns agree with its demand and norm columns (`ReconcileCount` gives the exact multiplicities) |
| Pipeline.PrepareDemand | strategicstock.py:93-110 | filtering then rewriting both key columns in place yields the demand side of the merge |
| Pipeline.PrepareNorms | strategicstock.py:99-113 | filtering, normalising `l`, grouping and rewriting both key columns yields the norm side of the merge |
| Pipeline.MergeAndCalculate | strategicstock.py:116-132 | merging then assigning both calculated columns yields the calculated join |
| Pipeline.Run | strategicstock.py:93-132 | the step-by-step run computes exactly `Reconcile` of the two sheets and the selection |
| Pipeline.DemandsOfCalculated | strategicstock.py:131-132 | the calculated columns do not change any row's demand part |
| Pipeline.ReconcileCount | strategicstock.py:93-132 | each selected demand row occurs in the result once per match, or once when it has none |
| Pipeline.DemandSideRows | strategicstock.py:93-110 | the demand side holds the canonical form of every selected row, and nothing else |
| Pipeline.JoinedDemandRows | strategicstock.py:116-132 | a demand row is in the calculated join iff it was given to the join |
| Pipeline.ReconcileDemandRows | strategicstock.py:93-132 | the result holds every selected demand row (with canonical keys) and nothing else |
| Pipeline.GroupInputShape | strategicstock.py:99-103 | every row reaching the grouping is ELS or LAC, has a digit-string `l` and a colour from the macro sheet |
| Pipeline.GroupMeansShape | strategicstock.py:99-106 | every grouped row is ELS or LAC, has a digit-string `l` and a colour from the macro sheet |
| Pipeline.NormSideShape | strategicstock.py:99-113 | every norm row on the right of the merge has a digit-string `l` and an ELS or LAC group |
| Pipeline.JoinedMatches | strategicstock.py:116 | a matched output row carries a norm row of the right side whose keys equal its own |
| Pipeline.ReconcileMatches | strategicstock.py:93-132 | a matched result row's norm comes from the grouped frame, has `l = Style` and `GMT colour = GMT Color`, a digit `l` and an ELS or LAC group |
| Pipeline.ReconcileFindsGroup | strategicstock.py:93-132 | conversely, a selected order is merged with every grouped norm row whose canonical `l` and `GMT colour` equal its canonical `Style` and `GMT Color`, and the norm row carries its canonical keys |
| Pipeline.CanonicalNormInNormSide | strategicstock.py:106-113 | every grouped row reaches the right side of the merge with its canonical keys |
| Pipeline.JoinedFindsMatch | strategicstock.py:116-132 | the calculated join pairs a demand row with every norm row that matches it |
| Pipeline.ReconcileCalculated | strategicstock.py:93-132 | every result row's calculated columns agree with its demand and norm columns |
| Pipeline.NormSideKeysUnique | strategicstock.py:106-113 | when stripping merges no colour spellings, the canonical norm rows keep unique keys |
| Pipeline.ReconcileFanOutAtMostTwo | strategicstock.py:99-132 | when stripping merges no colour spellings, each demand row becomes at most two result rows per occurrence |
| Scenarios.ColourSpellingsFanOutThree | strategicstock.py:106-116 | three spellings of one colour under ELS make one selected order become three merged rows |
| Scenarios.MatchedAndUnmatchedOrders | strategicstock.py:93-132 | an order matching two ELS rows (lengths `"32"` and `"32L-Red"`) gets their mean 3.0, 100 pieces and a requirement of 300; a `"100A"` style matches nothing and gets pieces but no requirement |

## Left out

- The Streamlit interface (page setup, CSS, uploaders, program picker, button, messages, display, download): presentation only. The two sheets and the selected programs are parameters of `Pipeline.Run`.
- Reading and writing Excel workbooks: file I/O through libraries outside the script. The model starts from sheets already read into rows.
- The date columns (lines 119-128): parsing and formatting dates is foreign library code. The script rewrites each date cell to `YYYY-MM-DD` text, or to missing when it cannot be parsed; the model does not, and leaves those cells as read. Every demand column other than `Program`, `Style`, `GMT Color`, `Concluded Norms - Post discussion` and `CF` is carried in `DemandRow.rest` without that reformatting.
- IEEE floating point: numbers are exact reals. A zero `CF` gives a missing `No of Pieces`, where pandas gives an infinity or NaN.
- Aggregate.GroupKeys: groups come out in order of first appearance, while pandas sorts them by key. `GroupMeansOrderIndependent` shows that the set of grouped rows does not depend on order. Only the row order of the grouped frame and of the merged fan-out differs.
- Aggregate.Grouped: rows with a missing key part are dropped from the grouping, as pandas does by default. Non-numeric `CONSUMPTION` cells are not modelled: a numeric cell is a number or missing.
- Key cells hold text, integers or nothing. Float key cells, and their rendering such as `"32.0"`, are not modelled.
- Strings.IsDigit: `\d` is modelled as the ASCII digits `0`-`9`. Python also matches other Unicode decimal digits.
- Text is a sequence of code points: there is no encoding, case folding or Unicode normalisation, which matches the script's exact key comparison.
- A missing column (pandas `KeyError`) is not modelled: rows always have every column.
- Pipeline.ReconcileFanOutAtMostTwo: the bound of two rows per demand row is proved only when stripping merges no two colour spellings of the macro sheet (`ColoursCanonicallyDistinct`). The script strips after grouping, so the bound does not hold in general. `Scenarios.ColourSpellingsFanOutThree` gives three.
