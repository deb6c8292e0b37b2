# Pre-flop range engine

A Dafny model of the range engine of a poker pre-flop training quiz. The
engine's parts:

- **Strategy table.** It maps a composite key `kind|hero|opener|hand` to the
  set of actions (raise, call, fold) that a hand may take in that scenario.
- **Parser.** It reads the table from a workbook with an `RFI` sheet and a
  `VsOpen` sheet. Each sheet holds titled 13×13 grids. A cell such as
  `R/C50` names the actions allowed for one of the 169 hand classes.
- **Quiz store.** It holds the loaded table, a study filter and the current
  question. It draws questions from the table and grades answers against it.
- **Aggregation.** It builds the 13×13 label matrices and the scenario
  summary sent with an advice request: per-label counts, the enter, raise
  and call percentages, the opener's raise share and the focus hand's label.
- **Display helpers.** They give the colour and caption of a grid cell, and
  the two cards drawn for a hand.

Modules, one per file:

- `Strings` (strings.dfy) models the JavaScript string built-ins the engine
  relies on:
  - `trim`, with the ECMAScript white-space set;
  - `toUpperCase`;
  - `split`, which keeps empty pieces;
  - `join`.
- `Types` (types.dfy) holds the ranks, actions, scenarios, the grid-to-hand
  mapping and the table key.
- `Labels` (labels.dfy) is the one spelling shared by the advice label
  (`R/C`), the grid key (`raise/call`) and the grid caption (`Raise/Call`).
  Each of them writes the words of the present actions in the order raise,
  call, fold, joined with "/".
- `ParseRanges` (parse_ranges.dfy) is the parser. Its loops are methods
  proved equal to recursive specification functions. The functions carry
  the well-formedness invariant of every parsed table.
- `Store` (store.dfy) is the quiz store. It is a class with the three fields
  the source mutates.
- `Advice` (advice.dfy) holds the matrices and the summary. Each is a method
  with loops, proved against a function, and the lemmas about those
  functions.
- `RangeGrid` (range_grid.dfy) holds the key, colour and caption of an action
  set.
- `HandCard` (hand_card.dfy) holds the cards of a hand.

Behaviour worth knowing, modelled as the code has it:

- Loading a table does not clear the current question (app/src/state/store.ts:23).
- A filter's kind and hero are compared only when they are non-empty strings (app/src/state/store.ts:40-41).
- `answer` reads a key that is absent from the table as the empty set, not as fold (app/src/state/store.ts:58).
- The summary counts cells only. No combination-weighted statistics exist in the code.

## Model

| member | source | states |
|---|---|---|
| Strings.TrimShape | app/src/lib/parseRanges.ts:9 | `trim` removes exactly the leading and trailing white space: the result is a slice of the input, has no white space at either end, and only white space was cut |
| Strings.ToUpperIdempotent | app/src/lib/parseRanges.ts:14 | upper-casing twice is upper-casing once |
| Strings.SplitJoin | app/src/state/store.ts:39 | splitting the "/"- or "\|"-joined pieces, none of which holds the separator, gives the pieces back |
| Strings.JoinSplit | app/src/state/store.ts:48 | joining the pieces of a split with the separator gives the string back |
| Types.RanksDistinct | app/src/lib/types.ts:15 | the ranks are 13 distinct symbols |
| Types.HandKeyFromIJ | app/src/lib/types.ts:17-23 | the diagonal is the rank written twice; off the diagonal the hand has 3 characters with the higher rank (smaller index) first, ends in "s" exactly above the diagonal and "o" exactly below it, and never holds "\|" |
| Types.HandKeyInjective | app/src/lib/types.ts:17-23 | different grid cells give different hands |
| Types.HandCount | app/src/lib/types.ts:17-23 | the grid yields exactly 169 distinct hands |
| Types.TopPairKeys | app/src/lib/types.ts:19 | "AA" and "KK" are the hands of cells (0,0) and (1,1) and of no other cell |
| Types.KeyOf | app/src/lib/types.ts:25-27 | the key is the scenario's prefix `kind\|hero\|opener\|` followed by the hand, the same string the parser composes from those fields |
| Types.ComposeKeyFields | app/src/lib/parseRanges.ts:50 | splitting a composed key on "\|" recovers kind, hero, opener and hand when none of them holds "\|" |
| Types.KeyOfFields | app/src/lib/types.ts:26 | splitting `keyOf(s, h)` recovers kind, hero, opener ("" when unopened) and hand |
| Types.FieldsCompose | app/src/state/store.ts:48 | a key with four fields is the composition of its fields |
| ParseRanges.HeaderRowShape | app/src/lib/parseRanges.ts:7-11 | a row is a header exactly when it has at least 14 cells and cells 1..13, trimmed, are the ranks in order |
| ParseRanges.TokenLetter | app/src/lib/parseRanges.ts:19-21 | a token that matches yields its first character, one of R, C, F |
| ParseRanges.NonEmpty | app/src/lib/parseRanges.ts:16 | `filter(Boolean)`: a piece is kept exactly when it is in the input and non-empty |
| ParseRanges.TokensActionsMember | app/src/lib/parseRanges.ts:18-25 | an action is in the set exactly when some token yields it |
| ParseRanges.CellActionsMember | app/src/lib/parseRanges.ts:13-27 | an action is in a cell's set exactly when the normalised cell is non-empty and one of its tokens names it |
| ParseRanges.NoCallWithoutAllowCall | app/src/lib/parseRanges.ts:23 | without `allowCall` no cell yields call |
| ParseRanges.BlankCell | app/src/lib/parseRanges.ts:14-15 | an empty or white-space cell yields the empty set |
| ParseRanges.CaseInsensitive | app/src/lib/parseRanges.ts:14 | a cell and its upper-cased form yield the same set |
| ParseRanges.CellExampleRC50 | app/src/lib/parseRanges.ts:13-27 | "R/C50" yields raise and call: the weight is ignored |
| ParseRanges.CellExampleLowerCase | app/src/lib/parseRanges.ts:14-23 | "r/c50" in a grid without call yields raise alone: letters are read without regard to case and call is dropped |
| ParseRanges.CellToActions | app/src/lib/parseRanges.ts:13-27 | the token loop's set is the cell's set |
| ParseRanges.PutCell | app/src/lib/parseRanges.ts:33-52 | `put` parses the cell and writes the table as `Put` specifies |
| ParseRanges.PutEffect | app/src/lib/parseRanges.ts:42-51 | only the cell's key changes; an empty set writes nothing; a non-empty set replaces the entry with the parsed set, which loses fold exactly on AA and KK |
| ParseRanges.NameAt | app/src/lib/parseRanges.ts:65 | an alternation match names one of the alternatives spelled at that position, ignoring case; no match means no alternative is spelled there |
| ParseRanges.TitleSearchFits | app/src/lib/parseRanges.ts:90 | a title found names an opening seat other than BB for RFI, and two of the six seats for VsOpen |
| ParseRanges.GridTitleFits | app/src/lib/parseRanges.ts:62-67 | every grid, titled or defaulted, is attributed to seats that fit its sheet |
| ParseRanges.FindTitle | app/src/lib/parseRanges.ts:87-92 | the title loop tries one row above and then two rows above, keeps the first match, and otherwise gives the default (UTG for RFI, HJ vs UTG for VsOpen) |
| ParseRanges.PutGrid | app/src/lib/parseRanges.ts:94-99 | the nested loops write the grid's 169 cells in row-major order, reading cell (i, j) from row r+1+i, column 1+j |
| ParseRanges.ScanSheet | app/src/lib/parseRanges.ts:58-76 | the sheet loop writes each grid whose header row it meets and resumes 14 rows after that header |
| ParseRanges.ParseWorkbook | app/src/lib/parseRanges.ts:29-105 | the table is the RFI sheet's grids written first, then the VsOpen sheet's grids over them |
| ParseRanges.PutKeepsWellFormed | app/src/lib/parseRanges.ts:42-51 | writing a cell keeps every entry well formed: a four-field key with a grid hand and seats that fit its kind, no call when unopened, no fold on AA or KK, and a non-empty set except on AA or KK |
| ParseRanges.PutCellKeepsWellFormed | app/src/lib/parseRanges.ts:72 | a cell of either sheet keeps the table well formed, since RFI grids never allow call |
| ParseRanges.GridCellsWellFormed | app/src/lib/parseRanges.ts:69-74 | writing a grid keeps the table well formed |
| ParseRanges.ScanWellFormed | app/src/lib/parseRanges.ts:83-101 | scanning a sheet keeps the table well formed |
| ParseRanges.ParsedTableWellFormed | app/src/lib/parseRanges.ts:29-105 | every parsed table is well formed: no unopened entry allows call, no AA or KK entry allows fold, and every key names a grid hand |
| ParseRanges.NoSheetsNoTable | app/src/lib/parseRanges.ts:104 | a workbook with neither sheet yields the empty table |
| Labels.SpellingRoundTrip | app/src/lib/advice.ts:76-82 | reading a spelling back recovers the action set |
| Labels.SpellingEmptyAndInjective | app/src/lib/advice.ts:76-82 | only the empty set is spelled "", and different sets are spelled differently |
| Labels.NonEmptySetsCover | app/src/components/poker/RangeGrid.tsx:15-27 | every non-empty action set is one of the seven sets the colour switch lists |
| Store.Candidates | app/src/state/store.ts:37-44 | the candidates are keys of the table |
| Store.DecodeKey | app/src/state/store.ts:48-49 | a key decodes to a raise to face exactly when its opener field exists and is non-empty |
| Store.QuizStore.constructor | app/src/state/store.ts:22-29 | no table, no filter, no question |
| Store.QuizStore.SetAllowed | app/src/state/store.ts:23 | replaces the table and keeps the filter and the current question |
| Store.QuizStore.SetStudyFilter | app/src/state/store.ts:27 | replaces the filter and nothing else |
| Store.QuizStore.NextQuestion | app/src/state/store.ts:30-51 | with no table, or no key passing the filter (the argument, else the stored filter), nothing changes; otherwise the question is the decoding of some candidate key; table and filter are kept |
| Store.QuizStore.Answer | app/src/state/store.ts:53-61 | no grade exactly when the table or the question is missing; otherwise the allowed set is the entry under `keyOf(question)` (empty when absent), and the answer is correct exactly when the action is in it |
| Store.CandidateFields | app/src/state/store.ts:37-44 | every candidate carries the filter's kind and hero when they are non-empty, and its opener whenever one is given |
| Store.UnfilteredCandidates | app/src/state/store.ts:38 | without a filter, or with one whose fields are absent or empty (opener absent), every key is a candidate |
| Store.EmptyOpenerFilter | app/src/state/store.ts:42 | an opener filter of "" keeps exactly the keys with an empty opener field |
| Store.DecodeParsedKey | app/src/state/store.ts:48-49 | a parsed key decodes to the question whose key it is, and to a raise to face exactly when its kind is vs_open |
| Store.DrawnQuestionGrade | app/src/state/store.ts:57-60 | a question drawn from a parsed table is graded against the very entry it was drawn from |
| Store.VsOpenFilterQuestion | app/src/state/store.ts:37-50 | filtering a parsed table on vs_open and a hero draws only questions where that hero faces a raise from one of the six seats |
| Store.AbsentKeyAllWrong | app/src/state/store.ts:58-59 | a question whose key is absent grades every action wrong |
| Store.SingleEntryDraw | app/src/state/store.ts:30-60 | a table holding only UTG's raise with AA, filtered on unopened pots for UTG, draws that question, and grades raise right and fold wrong |
| Advice.LabelFromActs | app/src/lib/advice.ts:76-82 | the pushes and the join build the R/C/F label of the set |
| Advice.LabelRoundTrip | app/src/lib/advice.ts:76-82 | the label names its set exactly, and it is "" only for the empty set |
| Advice.FoldLabel | app/src/lib/advice.ts:80 | fold alone is labelled "F" |
| Advice.BuildRangeMatrixForScenario | app/src/lib/advice.ts:41-58 | the loops build the scenario's matrix: cell (i, j) is the label of the entry for the hand of (i, j), with an absent entry read as fold |
| Advice.RangeCellMeaning | app/src/lib/advice.ts:47-53 | the matrix is 13×13; an absent hand shows "F"; a cell is "" exactly when its entry is present and empty; a present entry can be read back from its cell |
| Advice.BuildRfiMatrixForPos | app/src/lib/advice.ts:60-74 | the loops build the seat's RFI matrix |
| Advice.RfiCellMeaning | app/src/lib/advice.ts:62-69 | the matrix is 13×13, and a cell is "R" exactly when the seat's unopened entry for the hand allows raise, "-" otherwise |
| Advice.CountWith | app/src/lib/advice.ts:99-100 | at most one count per cell |
| Advice.CountEnter | app/src/lib/advice.ts:98 | at most one count per cell |
| Advice.RCountBound | app/src/lib/advice.ts:105-110 | there are no more "R" cells than cells |
| Advice.RfiPercentBounds | app/src/lib/advice.ts:112 | the opener's raise share lies between 0 and 100 |
| Advice.OpenerRfiPercent | app/src/lib/advice.ts:103-113 | the loops compute 100 × "R" cells ÷ cells, or 0 for a matrix with no cells |
| Advice.CountGrid | app/src/lib/advice.ts:86-102 | the loops visit 169 cells and produce the per-label counts and the enter, raise and call counts of the scenario's cell sets |
| Advice.CountRow | app/src/lib/advice.ts:90-101 | the inner loop adds the 13 cells of one row to the running counts |
| Advice.CountCell | app/src/lib/advice.ts:91-100 | one cell adds one count under its label ("F" for an empty set), and one enter, raise or call exactly as the cell holds raise or call |
| Advice.SummarizeScenario | app/src/lib/advice.ts:84-124 | the summary has 169 cells, the per-label tally, each percentage as its count over 169 times 100, an opener share only when an opener matrix is given, and the focus hand's label ("F" when empty) |
| Advice.CountLabelIn | app/src/lib/advice.ts:96 | every cell is counted under one of seven labels, an empty set under the label of fold |
| Advice.CountLabelsDistinct | app/src/lib/advice.ts:96-97 | the seven labels differ, so no count is shared |
| Advice.TallySum | app/src/lib/advice.ts:93-97 | the per-label counts add up to the number of cells |
| Advice.TallyKeys | app/src/lib/advice.ts:97 | the counts use no label other than the seven |
| Advice.EnterBounds | app/src/lib/advice.ts:98-100 | raise count ≤ enter count, call count ≤ enter count, and enter count ≤ raise count + call count |
| Advice.SummaryFacts | app/src/lib/advice.ts:118-120 | a summary's counts total 169, and its percentages keep the same order, with enter at most 100 |
| Advice.HandLabelMeaning | app/src/lib/advice.ts:114-122 | the focus hand's label is "F" when its key is absent or its set is empty, and otherwise names its set |
| RangeGrid.ActionsKeySpelling | app/src/components/poker/RangeGrid.tsx:10-13 | `actionsKey` spells the present actions in the order raise, call, fold, joined with "/" |
| RangeGrid.ActsKeyedSpelling | app/src/components/poker/RangeGrid.tsx:29-31 | `actsKeyed` spells the present actions in the order raise, call, fold, joined with "/" |
| RangeGrid.KeysAgree | app/src/components/poker/RangeGrid.tsx:10-31 | `actionsKey` and `actsKeyed` agree on every set: both spell the present actions in the order raise, call, fold, joined with "/" |
| RangeGrid.KeyTable | app/src/components/poker/RangeGrid.tsx:29-31 | the seven non-empty sets have the seven keys the colour switch lists |
| RangeGrid.SwitchTable | app/src/components/poker/RangeGrid.tsx:17-25 | the switch gives each of the seven keys its own colour |
| RangeGrid.ColorTable | app/src/components/poker/RangeGrid.tsx:15-27 | each of the seven non-empty sets gets its own palette colour |
| RangeGrid.ColorsDistinct | app/src/components/poker/RangeGrid.tsx:15-27 | different non-empty sets get different colours |
| RangeGrid.EmptyColor | app/src/components/poker/RangeGrid.tsx:22-25 | the empty set has the empty key and falls to the default #1e88e5, the colour of fold alone |
| RangeGrid.CaptionFacts | app/src/components/poker/RangeGrid.tsx:33-39 | the caption lists Raise, Call, Fold in that order for the present actions, is "" only for the empty set, and can be read back |
| HandCard.HandToCards | app/src/components/poker/HandCard.tsx:14-20 | a hand shorter than two characters gives "?" of spades and "?" of hearts; otherwise the ranks are the first two characters, the first card a heart, and the second a heart exactly when the third character is "s" |
| HandCard.GridHandCards | app/src/components/poker/HandCard.tsx:14-20 | for a grid hand the ranks come higher first, and the suits agree exactly on the suited hands above the diagonal |
| HandCard.GridHandCardsDiffer | app/src/components/poker/HandCard.tsx:14-20 | no grid hand shows the same card twice |

## Left out

- Reading the workbook (`XLSX.read`, `sheet_to_json`) is foreign code. A workbook is a map from sheet name to rows of cells, each cell already converted to text. A missing row or cell reads as "".
- The advice request (`fetchAdvice`) and the two advice relays are network calls to an external language model. They are not part of this model.
- The download of the default workbook fetches an xlsx file over the network. It is not part of this model.
- JSX rendering, styling, routing and the render bodies of the range grid and the hand card are not part of this model.
- The zustand `create`/`set`/`get` machinery is replaced by the class `Store.QuizStore` and its fields.
- Store.QuizStore.NextQuestion: `Math.random` becomes a nondeterministic choice among the candidates. The distribution is not modelled, and neither is the order of `Object.keys`; the candidates are a set.
- Advice.SummarizeScenario: the percentages are exact `real` quotients. Floating-point rounding is not modelled.
- Advice.SummarizeScenario: the summary's grid loop and its opener loop are separate helper methods, `CountGrid` (with `CountRow` and `CountCell`) and `OpenerRfiPercent`. The summary states what they compute.
- Strings.ToUpper maps ASCII letters only and keeps the length of its input. JavaScript's `toUpperCase` also maps other letters, some of them to several characters ("ß" to "SS", "ﬀ" to "FF", "ﬁ" to "FI"), so it can lengthen a string; neither is modelled. The parsed action sets do not depend on this: the token pattern (app/src/lib/parseRanges.ts:19) admits exactly one letter, R, C or F, at the start, followed only by white space, digits and a decimal point. No non-ASCII character upper-cases to a single R, C or F, to a digit, to white space, to "." or to "/", and an expansion to two or more letters never matches the pattern, so such a token is unmatched in JavaScript and in the model alike. The title matches do not depend on it either: outside unicode mode, the `i` flag never folds a non-ASCII character to an ASCII one.
- Combination-weighted percentages (6, 4 and 12 combinations out of 1326) do not exist in the code and are not modelled.
- HandCard.HandToCards: a Dafny `char` is a Unicode scalar value, while `hand[0]`, `hand[1]` and `hand[2]` in app/src/components/poker/HandCard.tsx:15-19 index UTF-16 code units. The two differ only for a hand holding a character outside the Basic Multilingual Plane, which no grid hand does.
- The diamond and club suits exist in the card type, but no hand is drawn with them.
