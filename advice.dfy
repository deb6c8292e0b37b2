/** What the advice request is built from: the short R/C/F label of an
    action set, the 13×13 label matrix of a scenario, the RFI matrix of a
    seat, and the counts and percentages that summarise a scenario. */
module Advice {
  import opened Strings
  import opened Types
  import opened Labels

  // ---------------------------------------------------------------------
  // The short label of an action set

  /** The letters of the advice label. */
  function Letters(): Words {
    Words("R", "C", "F")
  }

  /** The label `labelFromActs` builds: R, C, F for the present actions, joined with "/". */
  function ActsLabel(acts: set<Action>): string {
    Spelling(acts, Letters())
  }

  /** Reading a label back: the actions whose letters it lists. */
  function LabelActs(text: string): set<Action> {
    ReadSpelling(text, Letters())
  }

  /** `labelFromActs`: pushes the letter of each present action, then joins. */
  method LabelFromActs(acts: set<Action>) returns (text: string)
    ensures text == ActsLabel(acts)
  {
    var parts: seq<string> := [];
    if Raise in acts { parts := parts + ["R"]; }
    if Call in acts { parts := parts + ["C"]; }
    if Fold in acts { parts := parts + ["F"]; }
    assert parts == Spelled(acts, Letters());
    text := Join(parts, "/");
  }

  /** The label names its set exactly: reading it back gives the set again;
      only the empty set has the empty label. */
  lemma LabelRoundTrip(acts: set<Action>)
    ensures LabelActs(ActsLabel(acts)) == acts
    ensures ActsLabel(acts) == "" <==> acts == {}
  {
    SpellingRoundTrip(acts, Letters());
    SpellingEmptyAndInjective(acts, {}, Letters());
  }

  lemma FoldLabel()
    ensures ActsLabel({Fold}) == "F"
  {
    SpellingSingle(Fold, Letters());
  }

  // ---------------------------------------------------------------------
  // The two matrices

  /** Cell (i, j) of a scenario's matrix: the label of the hand's entry, an
      absent entry read as fold. */
  function RangeCell(m: AllowedMap, s: Scenario, i: nat, j: nat): string
    requires i < 13 && j < 13
  {
    ActsLabel(LookupOr(m, KeyOf(s, HandKeyFromIJ(i, j)), {Fold}))
  }

  /** Row `i` of a scenario's matrix. */
  function RangeRow(m: AllowedMap, s: Scenario, i: nat): (row: seq<string>)
    requires i < 13
    ensures |row| == 13
  {
    seq(13, j requires 0 <= j < 13 => RangeCell(m, s, i, j))
  }

  /** A scenario's matrix: 13 rows of 13 cells. */
  function RangeMatrix(m: AllowedMap, s: Scenario): seq<seq<string>> {
    seq(13, i requires 0 <= i < 13 => RangeRow(m, s, i))
  }

  /** `buildRangeMatrixForScenario`: pushes the cells row by row. */
  method BuildRangeMatrixForScenario(m: AllowedMap, s: Scenario) returns (out: seq<seq<string>>)
    ensures out == RangeMatrix(m, s)
  {
    var prefix := ScenarioPrefix(s);
    out := [];
    var i := 0;
    while i < 13
      invariant 0 <= i <= 13 && out == RangeMatrix(m, s)[..i]
    {
      var row: seq<string> := [];
      var j := 0;
      while j < 13
        invariant 0 <= j <= 13 && row == RangeRow(m, s, i)[..j]
      {
        var hand := HandKeyFromIJ(i, j);
        var acts := LookupOr(m, prefix + hand, {Fold});
        var text := LabelFromActs(acts);
        RangeCellKey(m, s, i, j);
        RangeRowStep(m, s, i, j, row);
        row := row + [text];
        j := j + 1;
      }
      RangeMatrixStep(m, s, i, out, row);
      out := out + [row];
      i := i + 1;
    }
  }

  /** The prefix of length j + 1 is the prefix of length j and element j. */
  lemma SnocSlice<T>(w: seq<T>, j: nat)
    requires j < |w|
    ensures w[..j + 1] == w[..j] + [w[j]]
  {
  }

  /** The cell reads the entry under the scenario's prefix followed by the hand. */
  lemma RangeCellKey(m: AllowedMap, s: Scenario, i: nat, j: nat)
    requires i < 13 && j < 13
    ensures RangeCell(m, s, i, j) == ActsLabel(LookupOr(m, ScenarioPrefix(s) + HandKeyFromIJ(i, j), {Fold}))
  {
    assert KeyOf(s, HandKeyFromIJ(i, j)) == ScenarioPrefix(s) + HandKeyFromIJ(i, j);
  }

  /** One more cell of row `i` of a scenario's matrix. */
  lemma RangeRowStep(m: AllowedMap, s: Scenario, i: nat, j: nat, row: seq<string>)
    requires i < 13 && j < 13
    requires row == RangeRow(m, s, i)[..j]
    ensures row + [RangeCell(m, s, i, j)] == RangeRow(m, s, i)[..j + 1]
  {
    var want := RangeRow(m, s, i);
    SnocSlice(want, j);
  }

  /** One more full row of a scenario's matrix. */
  lemma RangeMatrixStep(m: AllowedMap, s: Scenario, i: nat, out: seq<seq<string>>, row: seq<string>)
    requires i < 13 && out == RangeMatrix(m, s)[..i] && row == RangeRow(m, s, i)[..13]
    ensures out + [row] == RangeMatrix(m, s)[..i + 1]
  {
    var want := RangeMatrix(m, s);
    assert row == want[i];
    SnocSlice(want, i);
  }

  /** A hand the table does not list shows as "F"; the empty label appears
      only for a listed hand with no action (in a parsed table, the AA or
      KK cell that held only fold); otherwise the cell names the entry's actions. */
  lemma RangeCellMeaning(m: AllowedMap, s: Scenario, i: nat, j: nat)
    requires i < 13 && j < 13
    ensures |RangeMatrix(m, s)| == 13 && |RangeMatrix(m, s)[i]| == 13
    ensures var key, cell := KeyOf(s, HandKeyFromIJ(i, j)), RangeMatrix(m, s)[i][j];
      && (key !in m ==> cell == "F")
      && (cell == "" <==> key in m && m[key] == {})
      && (key in m ==> LabelActs(cell) == m[key])
  {
    var key := KeyOf(s, HandKeyFromIJ(i, j));
    var acts := LookupOr(m, key, {Fold});
    assert RangeMatrix(m, s)[i] == RangeRow(m, s, i);
    assert RangeMatrix(m, s)[i][j] == ActsLabel(acts);
    LabelRoundTrip(acts);
    SpellingEmptyAndInjective(acts, {}, Letters());
    FoldLabel();
  }

  /** The key `buildRfiMatrixForPos` reads for a seat and a hand. */
  function RfiKey(pos: string, hand: string): string {
    "unopened|" + pos + "||" + hand
  }

  /** Cell (i, j) of a seat's RFI matrix. */
  function RfiCell(m: AllowedMap, pos: string, i: nat, j: nat): string
    requires i < 13 && j < 13
  {
    if Raise in LookupOr(m, RfiKey(pos, HandKeyFromIJ(i, j)), {}) then "R" else "-"
  }

  /** Row `i` of a seat's RFI matrix. */
  function RfiRow(m: AllowedMap, pos: string, i: nat): (row: seq<string>)
    requires i < 13
    ensures |row| == 13
  {
    seq(13, j requires 0 <= j < 13 => RfiCell(m, pos, i, j))
  }

  /** A seat's RFI matrix: 13 rows of 13 cells. */
  function RfiMatrix(m: AllowedMap, pos: string): seq<seq<string>> {
    seq(13, i requires 0 <= i < 13 => RfiRow(m, pos, i))
  }

  /** `buildRfiMatrixForPos`: pushes "R" or "-" row by row. */
  method BuildRfiMatrixForPos(m: AllowedMap, pos: string) returns (out: seq<seq<string>>)
    ensures out == RfiMatrix(m, pos)
  {
    var prefix := "unopened|" + pos + "||";
    out := [];
    var i := 0;
    while i < 13
      invariant 0 <= i <= 13 && out == RfiMatrix(m, pos)[..i]
    {
      var row: seq<string> := [];
      var j := 0;
      while j < 13
        invariant 0 <= j <= 13 && row == RfiRow(m, pos, i)[..j]
      {
        var hand := HandKeyFromIJ(i, j);
        var acts := LookupOr(m, prefix + hand, {});
        var hasRaise := Raise in acts;
        RfiRowStep(m, pos, i, j, row);
        row := row + [if hasRaise then "R" else "-"];
        j := j + 1;
      }
      RfiMatrixStep(m, pos, i, out, row);
      out := out + [row];
      i := i + 1;
    }
  }

  lemma RfiRowStep(m: AllowedMap, pos: string, i: nat, j: nat, row: seq<string>)
    requires i < 13 && j < 13
    requires row == RfiRow(m, pos, i)[..j]
    ensures row + [RfiCell(m, pos, i, j)] == RfiRow(m, pos, i)[..j + 1]
  {
    var want := RfiRow(m, pos, i);
    SnocSlice(want, j);
  }

  lemma RfiMatrixStep(m: AllowedMap, pos: string, i: nat, out: seq<seq<string>>, row: seq<string>)
    requires i < 13 && out == RfiMatrix(m, pos)[..i] && row == RfiRow(m, pos, i)[..13]
    ensures out + [row] == RfiMatrix(m, pos)[..i + 1]
  {
    var want := RfiMatrix(m, pos);
    assert row == want[i];
    SnocSlice(want, i);
  }

  /** The RFI cell is "R" exactly when the seat's unopened entry for the
      hand, under the key `keyOf` builds, allows raise. */
  lemma RfiCellMeaning(m: AllowedMap, pos: string, i: nat, j: nat)
    requires i < 13 && j < 13
    ensures |RfiMatrix(m, pos)| == 13 && |RfiMatrix(m, pos)[i]| == 13
    ensures var key, cell := KeyOf(Unopened(pos), HandKeyFromIJ(i, j)), RfiMatrix(m, pos)[i][j];
      && (cell == "R" <==> key in m && Raise in m[key])
      && (cell != "R" ==> cell == "-")
  {
    var hand := HandKeyFromIJ(i, j);
    assert KeyOf(Unopened(pos), hand) == RfiKey(pos, hand);
    assert RfiMatrix(m, pos)[i] == RfiRow(m, pos, i);
    assert RfiMatrix(m, pos)[i][j] == RfiCell(m, pos, i, j);
  }

  // ---------------------------------------------------------------------
  // The summary of a scenario

  datatype Summary = Summary(
    totalCells: nat,
    counts: map<string, nat>,
    heroEnterPercent: real,
    heroRaisePercent: real,
    heroCallPercent: real,
    openerRfiPercent: Option<real>,
    handLabel: string)

  /** The action sets of the 169 cells, row by row, an absent entry read as fold. */
  function CellSets(m: AllowedMap, s: Scenario): seq<set<Action>> {
    seq(169, k requires 0 <= k < 169 => LookupOr(m, KeyOf(s, HandKeyFromIJ(k / 13, k % 13)), {Fold}))
  }

  /** The label a cell is counted under: its label, or "F" when that is empty. */
  function CountLabel(acts: set<Action>): string {
    if ActsLabel(acts) == "" then "F" else ActsLabel(acts)
  }

  /** How many of the sets hold `a`. */
  function CountWith(cs: seq<set<Action>>, a: Action): (n: nat)
    ensures n <= |cs|
  {
    if cs == [] then 0 else CountWith(cs[..|cs| - 1], a) + (if a in cs[|cs| - 1] then 1 else 0)
  }

  /** How many of the sets hold raise or call: the hands that enter the pot. */
  function CountEnter(cs: seq<set<Action>>): (n: nat)
    ensures n <= |cs|
  {
    if cs == [] then 0
    else CountEnter(cs[..|cs| - 1]) + (if Raise in cs[|cs| - 1] || Call in cs[|cs| - 1] then 1 else 0)
  }

  function Get(t: map<string, nat>, l: string): nat {
    if l in t then t[l] else 0
  }

  /** The per-label counts: one more under each set's count label. */
  function Tally(cs: seq<set<Action>>): map<string, nat> {
    if cs == [] then map[]
    else
      var t := Tally(cs[..|cs| - 1]);
      var l := CountLabel(cs[|cs| - 1]);
      t[l := Get(t, l) + 1]
  }

  /** `n` out of `total`, in percent. */
  function Percent(n: nat, total: nat): real
    requires total > 0
  {
    (n as real / total as real) * 100.0
  }

  /** Number of cells of a (possibly ragged) matrix. */
  function CellCount(mx: seq<seq<string>>): nat {
    if mx == [] then 0 else CellCount(mx[..|mx| - 1]) + |mx[|mx| - 1]|
  }

  function RowRCount(row: seq<string>): (n: nat)
    ensures n <= |row|
  {
    if row == [] then 0 else RowRCount(row[..|row| - 1]) + (if row[|row| - 1] == "R" then 1 else 0)
  }

  /** Number of "R" cells of a matrix. */
  function RCount(mx: seq<seq<string>>): nat {
    if mx == [] then 0 else RCount(mx[..|mx| - 1]) + RowRCount(mx[|mx| - 1])
  }

  /** The opener's raise share: 0 for a matrix with no cells. */
  function RfiPercent(mx: seq<seq<string>>): real {
    if CellCount(mx) == 0 then 0.0 else Percent(RCount(mx), CellCount(mx))
  }

  lemma {:induction false} RCountBound(mx: seq<seq<string>>)
    ensures RCount(mx) <= CellCount(mx)
  {
    if mx != [] {
      RCountBound(mx[..|mx| - 1]);
    }
  }

  /** The opener's share is a percentage. */
  lemma RfiPercentBounds(mx: seq<seq<string>>)
    ensures 0.0 <= RfiPercent(mx) <= 100.0
  {
    RCountBound(mx);
    if CellCount(mx) > 0 {
      var r, c := RCount(mx) as real, CellCount(mx) as real;
      assert r / c <= 1.0 by {
        assert r <= c;
        assert r == (r / c) * c;
      }
    }
  }

  /** The opener block of `summarizeScenario`: counts the cells and the "R"
      cells of the opener's matrix, row by row. */
  method OpenerRfiPercent(mx: seq<seq<string>>) returns (p: real)
    ensures p == RfiPercent(mx)
  {
    var rcells: nat, tot: nat := 0, 0;
    var r := 0;
    while r < |mx|
      invariant 0 <= r <= |mx|
      invariant tot == CellCount(mx[..r]) && rcells == RCount(mx[..r])
    {
      var c := 0;
      while c < |mx[r]|
        invariant 0 <= c <= |mx[r]|
        invariant tot == CellCount(mx[..r]) + c
        invariant rcells == RCount(mx[..r]) + RowRCount(mx[r][..c])
      {
        RowStep(mx[r], c);
        tot := tot + 1;
        if mx[r][c] == "R" { rcells := rcells + 1; }
        c := c + 1;
      }
      assert mx[r][..c] == mx[r];
      MatrixStep(mx, r);
      r := r + 1;
    }
    assert mx[..r] == mx;
    p := if tot != 0 then (rcells as real / tot as real) * 100.0 else 0.0;
  }

  /** The grid block of `summarizeScenario`: visits the 169 cells row by
      row, counting each under its label and counting the hands that enter,
      raise and call. */
  method CountGrid(m: AllowedMap, s: Scenario) returns (total: nat, counts: map<string, nat>, enter: nat, raise: nat, call: nat)
    ensures total == 169
    ensures counts == Tally(CellSets(m, s))
    ensures enter == CountEnter(CellSets(m, s))
    ensures raise == CountWith(CellSets(m, s), Raise) && call == CountWith(CellSets(m, s), Call)
  {
    ghost var cs := CellSets(m, s);
    total, counts := 0, map[];
    enter, raise, call := 0, 0, 0;
    var i := 0;
    while i < 13
      invariant 0 <= i <= 13 && total == 13 * i
      invariant Counted(cs, total, counts, enter, raise, call)
    {
      total, counts, enter, raise, call := CountRow(m, s, i, total, counts, enter, raise, call);
      i := i + 1;
    }
    assert cs[..total] == cs;
  }

  /** The inner loop of the grid block: the 13 cells of row `i`. */
  method CountRow(m: AllowedMap, s: Scenario, i: nat, total: nat, counts: map<string, nat>, enter: nat, raise: nat, call: nat)
    returns (total': nat, counts': map<string, nat>, enter': nat, raise': nat, call': nat)
    requires i < 13 && total == 13 * i && Counted(CellSets(m, s), total, counts, enter, raise, call)
    ensures total' == total + 13 && Counted(CellSets(m, s), total', counts', enter', raise', call')
  {
    var prefix := ScenarioPrefix(s);
    ghost var cs := CellSets(m, s);
    total', counts', enter', raise', call' := total, counts, enter, raise, call;
    var j := 0;
    while j < 13
      invariant 0 <= j <= 13 && total' == 13 * i + j
      invariant Counted(cs, total', counts', enter', raise', call')
    {
      CellSetAt(m, s, i, j);
      var hkey := HandKeyFromIJ(i, j);
      var acts := LookupOr(m, prefix + hkey, {Fold});
      CountedStep(cs, total', acts, counts', enter', raise', call');
      counts', enter', raise', call' := CountCell(acts, counts', enter', raise', call');
      total' := total' + 1;
      j := j + 1;
    }
  }

  /** The body of the grid loop: one more count under the cell's label, and
      one more enter, raise or call as the cell allows. */
  method CountCell(acts: set<Action>, counts: map<string, nat>, enter: nat, raise: nat, call: nat)
    returns (counts': map<string, nat>, enter': nat, raise': nat, call': nat)
    ensures counts' == counts[CountLabel(acts) := Get(counts, CountLabel(acts)) + 1]
    ensures enter' == enter + (if Raise in acts || Call in acts then 1 else 0)
    ensures raise' == raise + (if Raise in acts then 1 else 0)
    ensures call' == call + (if Call in acts then 1 else 0)
  {
    var hasR := Raise in acts;
    var hasC := Call in acts;
    var text := LabelFromActs(acts);
    if text == "" {
      text := "F";
    }
    counts' := counts[text := Get(counts, text) + 1];
    enter', raise', call' := enter, raise, call;
    if hasR || hasC { enter' := enter' + 1; }
    if hasR { raise' := raise' + 1; }
    if hasC { call' := call' + 1; }
  }

  /** `summarizeScenario`: the grid counts, the opener's raise share when
      the opener's matrix is given, and the label of the focus hand. */
  method SummarizeScenario(m: AllowedMap, s: Scenario, hand: string, openerRfi: Option<seq<seq<string>>>)
    returns (sum: Summary)
    ensures sum.totalCells == 169
    ensures sum.counts == Tally(CellSets(m, s))
    ensures sum.heroEnterPercent == Percent(CountEnter(CellSets(m, s)), 169)
    ensures sum.heroRaisePercent == Percent(CountWith(CellSets(m, s), Raise), 169)
    ensures sum.heroCallPercent == Percent(CountWith(CellSets(m, s), Call), 169)
    ensures openerRfi.None? ==> sum.openerRfiPercent.None?
    ensures openerRfi.Some? ==> sum.openerRfiPercent == Some(RfiPercent(openerRfi.value))
    ensures sum.handLabel == CountLabel(LookupOr(m, KeyOf(s, hand), {Fold}))
  {
    var prefix := ScenarioPrefix(s);
    var total, counts, enter, raise, call := CountGrid(m, s);
    var openerRfiPercent: Option<real> := None;
    if openerRfi.Some? {
      var p := OpenerRfiPercent(openerRfi.value);
      openerRfiPercent := Some(p);
    }
    var actsForHand := LookupOr(m, prefix + hand, {Fold});
    var handLabel := LabelFromActs(actsForHand);
    if handLabel == "" {
      handLabel := "F";
    }
    sum := Summary(total, counts,
      (enter as real / total as real) * 100.0,
      (raise as real / total as real) * 100.0,
      (call as real / total as real) * 100.0,
      openerRfiPercent, handLabel);
  }

  /** Cell (i, j) is the 13i+j-th of the scenario's cell sets. */
  lemma CellSetAt(m: AllowedMap, s: Scenario, i: nat, j: nat)
    requires i < 13 && j < 13
    ensures |CellSets(m, s)| == 169 && 13 * i + j < 169
    ensures CellSets(m, s)[13 * i + j] == LookupOr(m, ScenarioPrefix(s) + HandKeyFromIJ(i, j), {Fold})
  {
    var k := 13 * i + j;
    assert k / 13 == i && k % 13 == j;
  }

  /** The running counts of the first `n` cells. */
  ghost predicate Counted(cs: seq<set<Action>>, n: nat, counts: map<string, nat>, enter: nat, raise: nat, call: nat)
    requires n <= |cs|
  {
    && counts == Tally(cs[..n])
    && enter == CountEnter(cs[..n])
    && raise == CountWith(cs[..n], Raise) && call == CountWith(cs[..n], Call)
  }

  lemma CountedStep(cs: seq<set<Action>>, k: nat, acts: set<Action>, counts: map<string, nat>, enter: nat, raise: nat, call: nat)
    requires k < |cs| && acts == cs[k] && Counted(cs, k, counts, enter, raise, call)
    ensures Counted(cs, k + 1,
      counts[CountLabel(acts) := Get(counts, CountLabel(acts)) + 1],
      enter + (if Raise in acts || Call in acts then 1 else 0),
      raise + (if Raise in acts then 1 else 0),
      call + (if Call in acts then 1 else 0))
  {
    TallyStep(cs, k, counts, CountLabel(acts));
  }

  /** What one more cell adds to the running counts. */
  lemma TallyStep(cs: seq<set<Action>>, k: nat, t: map<string, nat>, l: string)
    requires k < |cs| && t == Tally(cs[..k]) && l == CountLabel(cs[k])
    ensures Tally(cs[..k + 1]) == t[l := Get(t, l) + 1]
    ensures CountEnter(cs[..k + 1]) == CountEnter(cs[..k]) + (if Raise in cs[k] || Call in cs[k] then 1 else 0)
    ensures CountWith(cs[..k + 1], Raise) == CountWith(cs[..k], Raise) + (if Raise in cs[k] then 1 else 0)
    ensures CountWith(cs[..k + 1], Call) == CountWith(cs[..k], Call) + (if Call in cs[k] then 1 else 0)
  {
    assert cs[..k + 1][..k] == cs[..k];
  }

  lemma RowStep(row: seq<string>, c: nat)
    requires c < |row|
    ensures RowRCount(row[..c + 1]) == RowRCount(row[..c]) + (if row[c] == "R" then 1 else 0)
  {
    assert row[..c + 1][..c] == row[..c];
  }

  lemma MatrixStep(mx: seq<seq<string>>, r: nat)
    requires r < |mx|
    ensures CellCount(mx[..r + 1]) == CellCount(mx[..r]) + |mx[r]|
    ensures RCount(mx[..r + 1]) == RCount(mx[..r]) + RowRCount(mx[r])
  {
    assert mx[..r + 1][..r] == mx[..r];
  }

  // ---------------------------------------------------------------------
  // Properties of the summary

  /** The seven labels a cell can be counted under. */
  function CountLabels(): seq<string> {
    seq(7, k requires 0 <= k < 7 => ActsLabel(NonEmptySets()[k]))
  }

  /** The sum of the counts under the given labels. */
  function SumOver(t: map<string, nat>, ls: seq<string>): nat {
    if ls == [] then 0 else Get(t, ls[0]) + SumOver(t, ls[1..])
  }

  /** Every cell is counted under one of seven distinct labels; an empty set
      is counted under "F", like fold alone. */
  lemma CountLabelIn(acts: set<Action>)
    ensures CountLabel(acts) in CountLabels()
    ensures acts == {} ==> CountLabel(acts) == ActsLabel({Fold})
  {
    SpellingEmptyAndInjective(acts, {}, Letters());
    FoldLabel();
    var shown := if acts == {} then {Fold} else acts;
    assert CountLabel(acts) == ActsLabel(shown);
    NonEmptySetsCover(shown);
    var k :| 0 <= k < 7 && NonEmptySets()[k] == shown;
    assert CountLabels()[k] == ActsLabel(shown);
  }

  lemma CountLabelsDistinct()
    ensures forall a, b :: 0 <= a < b < 7 ==> CountLabels()[a] != CountLabels()[b]
  {
    forall a, b | 0 <= a < b < 7 ensures CountLabels()[a] != CountLabels()[b] {
      SpellingEmptyAndInjective(NonEmptySets()[a], NonEmptySets()[b], Letters());
    }
  }

  lemma {:induction false} SumOverBump(t: map<string, nat>, ls: seq<string>, l: string)
    requires forall a, b :: 0 <= a < b < |ls| ==> ls[a] != ls[b]
    ensures SumOver(t[l := Get(t, l) + 1], ls) == SumOver(t, ls) + (if l in ls then 1 else 0)
  {
    if ls != [] {
      SumOverBump(t, ls[1..], l);
      if l == ls[0] {
        assert l !in ls[1..];
      }
    }
  }

  /** The per-label counts add up to the number of cells. */
  lemma {:induction false} TallySum(cs: seq<set<Action>>)
    ensures SumOver(Tally(cs), CountLabels()) == |cs|
  {
    if cs == [] {
      assert SumOver(map[], CountLabels()) == 0 by {
        EmptySum(CountLabels());
      }
    } else {
      var init, last := cs[..|cs| - 1], cs[|cs| - 1];
      var t, l := Tally(init), CountLabel(last);
      TallySum(init);
      CountLabelIn(last);
      BumpCountLabel(t, l);
    }
  }

  /** One more count under one of the seven labels adds one to their sum. */
  lemma BumpCountLabel(t: map<string, nat>, l: string)
    requires l in CountLabels()
    ensures SumOver(t[l := Get(t, l) + 1], CountLabels()) == SumOver(t, CountLabels()) + 1
  {
    CountLabelsDistinct();
    SumOverBump(t, CountLabels(), l);
  }

  lemma {:induction false} EmptySum(ls: seq<string>)
    ensures SumOver(map[], ls) == 0
  {
    if ls != [] { EmptySum(ls[1..]); }
  }

  /** The counts only use the seven labels. */
  lemma {:induction false} TallyKeys(cs: seq<set<Action>>)
    ensures forall l :: l in Tally(cs) ==> l in CountLabels()
  {
    if cs != [] {
      TallyKeys(cs[..|cs| - 1]);
      CountLabelIn(cs[|cs| - 1]);
    }
  }

  /** Raising and calling hands each enter; an entering hand raises or calls. */
  lemma {:induction false} EnterBounds(cs: seq<set<Action>>)
    ensures CountWith(cs, Raise) <= CountEnter(cs)
    ensures CountWith(cs, Call) <= CountEnter(cs)
    ensures CountEnter(cs) <= CountWith(cs, Raise) + CountWith(cs, Call)
  {
    if cs != [] {
      EnterBounds(cs[..|cs| - 1]);
    }
  }

  /** A summary's counts total 169 over the seven labels, and its
      percentages are ordered: raise and call each at most enter, enter at
      most raise plus call, and none above 100. */
  lemma SummaryFacts(m: AllowedMap, s: Scenario)
    ensures var cs := CellSets(m, s);
      && SumOver(Tally(cs), CountLabels()) == 169
      && Percent(CountWith(cs, Raise), 169) <= Percent(CountEnter(cs), 169) <= 100.0
      && Percent(CountWith(cs, Call), 169) <= Percent(CountEnter(cs), 169)
      && Percent(CountEnter(cs), 169) <= Percent(CountWith(cs, Raise), 169) + Percent(CountWith(cs, Call), 169)
  {
    var cs := CellSets(m, s);
    TallySum(cs);
    EnterBounds(cs);
  }

  /** The focus hand's label is "F" when its key is absent or its set is
      empty, and otherwise names its set. */
  lemma HandLabelMeaning(m: AllowedMap, s: Scenario, hand: string)
    ensures var key := KeyOf(s, hand);
      && (key !in m || m[key] == {} ==> CountLabel(LookupOr(m, key, {Fold})) == "F")
      && (key in m && m[key] != {} ==> LabelActs(CountLabel(m[key])) == m[key])
  {
    var key := KeyOf(s, hand);
    var acts := LookupOr(m, key, {Fold});
    SpellingEmptyAndInjective(acts, {}, Letters());
    LabelRoundTrip(acts);
    FoldLabel();
  }
}
