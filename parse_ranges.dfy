/** The range-sheet parser: a workbook with an "RFI" sheet and a "VsOpen"
    sheet, each holding titled 13×13 grids, becomes the strategy table.
    The spreadsheet library stays outside: a sheet arrives as its rows of
    cells, each cell already converted to text. */
module ParseRanges {
  import opened Strings
  import opened Types

  type Rows = seq<seq<string>>

  /** Sheet name to the rows of that sheet. */
  type Workbook = map<string, Rows>

  /** The text of cell (r, c); a missing row or a missing cell reads as "". */
  function Cell(rows: Rows, r: int, c: nat): string {
    if 0 <= r < |rows| && c < |rows[r]| then rows[r][c] else ""
  }

  /** The rank header as the sheet spells it: "A", "K", ..., "2". */
  function RankCells(): seq<string> {
    seq(13, k requires 0 <= k < 13 => [Ranks[k]])
  }

  function TrimAll(cells: seq<string>): seq<string> {
    seq(|cells|, k requires 0 <= k < |cells| => Trim(cells[k]))
  }

  // ---------------------------------------------------------------------
  // Header rows

  /** `row.slice(1, 14)`, trimmed cell by cell, equals the rank header. */
  predicate IsHeaderRow(row: seq<string>) {
    var lo := if |row| < 1 then |row| else 1;
    var hi := if |row| < 14 then |row| else 14;
    TrimAll(row[lo..hi]) == RankCells()
  }

  /** A header row has at least 14 cells and cells 1..13 trim to the ranks in
      order; a shorter row is never a header. */
  lemma HeaderRowShape(row: seq<string>)
    ensures IsHeaderRow(row) <==> |row| >= 14 && forall k :: 0 <= k < 13 ==> Trim(row[1 + k]) == [Ranks[k]]
  {
    var lo := if |row| < 1 then |row| else 1;
    var hi := if |row| < 14 then |row| else 14;
    if IsHeaderRow(row) {
      assert |TrimAll(row[lo..hi])| == 13;
      forall k | 0 <= k < 13 ensures Trim(row[1 + k]) == [Ranks[k]] {
        assert TrimAll(row[lo..hi])[k] == RankCells()[k];
      }
    }
    if |row| >= 14 && forall k :: 0 <= k < 13 ==> Trim(row[1 + k]) == [Ranks[k]] {
      assert TrimAll(row[lo..hi]) == RankCells();
    }
  }

  // ---------------------------------------------------------------------
  // Cells: "R/C50" and the like

  predicate AllDigits(s: string) {
    |s| > 0 && forall k :: 0 <= k < |s| ==> IsDigit(s[k])
  }

  /** The whole of `s` matches `\d+(\.\d+)?`. */
  predicate IsWeight(s: string) {
    AllDigits(s) || exists k :: 0 < k < |s| && s[k] == '.' && AllDigits(s[..k]) && AllDigits(s[k + 1..])
  }

  /** The letter of a token that matches `^([RCF])\s*(\d+(\.\d+)?)?$`. */
  function TokenLetter(t: string): (l: Option<char>)
    ensures l.Some? ==> |t| >= 1 && l.value == t[0] && t[0] in "RCF"
  {
    if |t| >= 1 && t[0] in "RCF" && (TrimStart(t[1..]) == [] || IsWeight(TrimStart(t[1..]))) then Some(t[0])
    else None
  }

  /** What one token adds to the cell's set of actions. */
  function TokenActions(t: string, allowCall: bool): set<Action> {
    match TokenLetter(t)
    case None => {}
    case Some(l) =>
      (if l == 'R' then {Raise} else {})
      + (if l == 'C' && allowCall then {Call} else {})
      + (if l == 'F' then {Fold} else {})
  }

  function NonEmpty(ts: seq<string>): (r: seq<string>)
    ensures forall t :: t in r <==> t in ts && t != []
  {
    if ts == [] then []
    else if ts[0] == [] then NonEmpty(ts[1..])
    else [ts[0]] + NonEmpty(ts[1..])
  }

  /** The non-empty trimmed pieces of an upper-cased, trimmed cell, split on "/". */
  function Tokens(s: string): seq<string> {
    NonEmpty(TrimAll(Split(s, '/')))
  }

  /** The cell text after `toUpperCase().trim()`. */
  function Normalize(cell: string): string {
    Trim(ToUpper(cell))
  }

  function TokensActions(ts: seq<string>, allowCall: bool): set<Action>
    decreases |ts|
  {
    if ts == [] then {}
    else TokensActions(ts[..|ts| - 1], allowCall) + TokenActions(ts[|ts| - 1], allowCall)
  }

  /** The set of actions a cell stands for. */
  function CellActions(cell: string, allowCall: bool): set<Action> {
    var s := Normalize(cell);
    if s == [] then {} else TokensActions(Tokens(s), allowCall)
  }

  /** An action is in the set exactly when some token yields it. */
  lemma {:induction false} TokensActionsMember(ts: seq<string>, allowCall: bool, a: Action)
    ensures a in TokensActions(ts, allowCall) <==> exists t :: t in ts && a in TokenActions(t, allowCall)
  {
    if ts != [] {
      var init := ts[..|ts| - 1];
      TokensActionsMember(init, allowCall, a);
      assert ts == init + [ts[|ts| - 1]];
      if a in TokensActions(ts, allowCall) {
        if a in TokensActions(init, allowCall) {
          var t :| t in init && a in TokenActions(t, allowCall);
          assert t in ts;
        }
      }
      if exists t :: t in ts && a in TokenActions(t, allowCall) {
        var t :| t in ts && a in TokenActions(t, allowCall);
        if t != ts[|ts| - 1] {
          assert t in init;
        }
      }
    }
  }

  /** An action is in a cell's set exactly when some token of the cell,
      read case-insensitively with its weight ignored, names it. */
  lemma CellActionsMember(cell: string, allowCall: bool, a: Action)
    ensures a in CellActions(cell, allowCall) <==>
      Normalize(cell) != [] && exists t :: t in Tokens(Normalize(cell)) && a in TokenActions(t, allowCall)
  {
    var s := Normalize(cell);
    if s != [] {
      TokensActionsMember(Tokens(s), allowCall, a);
    }
  }

  /** Without `allowCall` (every RFI grid) a cell never yields call. */
  lemma NoCallWithoutAllowCall(cell: string)
    ensures Call !in CellActions(cell, false)
  {
    CellActionsMember(cell, false, Call);
  }

  /** An empty or white-space cell yields the empty set. */
  lemma BlankCell(cell: string)
    requires forall k :: 0 <= k < |cell| ==> IsSpace(cell[k])
    ensures CellActions(cell, true) == {} && CellActions(cell, false) == {}
  {
    var u := ToUpper(cell);
    forall k | 0 <= k < |u| ensures IsSpace(u[k]) {
      ToUpperAt(cell, k);
    }
    TrimAllSpace(u);
  }

  lemma SplitRC50()
    ensures Split("R/C50", '/') == ["R", "C50"]
  {
    assert "R/C50" == "R" + ['/'] + "C50";
    SplitAtSeparator("R", '/', "C50");
    SplitNoSeparator("C50", '/');
  }

  lemma TokensRC50()
    ensures Tokens("R/C50") == ["R", "C50"]
  {
    SplitRC50();
    assert TrimAll(["R", "C50"]) == ["R", "C50"];
  }

  lemma TokenLetterC50()
    ensures TokenLetter("C50") == Some('C') && TokenLetter("R") == Some('R')
  {
    assert AllDigits("50");
  }

  /** Cells are read without regard to case. */
  lemma CaseInsensitive(cell: string, allowCall: bool)
    ensures CellActions(ToUpper(cell), allowCall) == CellActions(cell, allowCall)
  {
    ToUpperIdempotent(cell);
  }

  /** The tokens "R" and "C50" yield raise, and call where it is allowed. */
  lemma TokensActionsRC50(allowCall: bool)
    ensures TokensActions(["R", "C50"], allowCall) == {Raise} + (if allowCall then {Call} else {})
  {
    TokenLetterC50();
    var ts := ["R", "C50"];
    assert ts[..1] == ["R"];
    assert TokensActions(ts, allowCall) == TokensActions(["R"], allowCall) + TokenActions("C50", allowCall);
  }

  /** "R/C50" is raise or call: the weight is ignored. */
  lemma CellExampleRC50()
    ensures CellActions("R/C50", true) == {Raise, Call}
  {
    assert Normalize("R/C50") == "R/C50";
    TokensRC50();
    TokensActionsRC50(true);
  }

  /** "r/c50" in a grid without call is raise alone: the letters are read
      without regard to case, and call is dropped. */
  lemma CellExampleLowerCase()
    ensures CellActions("r/c50", false) == {Raise}
  {
    assert Normalize("R/C50") == "R/C50";
    TokensRC50();
    TokensActionsRC50(false);
    assert ToUpper("r/c50") == "R/C50";
    CaseInsensitive("r/c50", false);
  }

  /** `cellToActions`: reads the tokens of a cell one by one into a set. */
  method CellToActions(cell: string, allowCall: bool) returns (out: set<Action>)
    ensures out == CellActions(cell, allowCall)
  {
    var s := Normalize(cell);
    if s == [] {
      return {};
    }
    var tokens := Tokens(s);
    out := {};
    var n := 0;
    while n < |tokens|
      invariant 0 <= n <= |tokens|
      invariant out == TokensActions(tokens[..n], allowCall)
    {
      ghost var before := out;
      var letter := TokenLetter(tokens[n]);
      if letter == Some('R') { out := out + {Raise}; }
      if letter == Some('C') && allowCall { out := out + {Call}; }
      if letter == Some('F') { out := out + {Fold}; }
      assert out == before + TokenActions(tokens[n], allowCall);
      assert tokens[..n + 1][..n] == tokens[..n];
      n := n + 1;
    }
    assert tokens[..n] == tokens;
  }

  // ---------------------------------------------------------------------
  // Writing one cell into the table

  predicate IsTopPair(i: nat, j: nat) {
    (i == 0 && j == 0) || (i == 1 && j == 1)
  }

  /** `put`, given the parsed set of the cell (its first step): an empty set
      writes nothing; otherwise the set, without fold on AA and KK, is stored
      under `kind|hero|opener|hand`. */
  function Put(m: AllowedMap, kind: string, hero: string, opener: string, i: nat, j: nat, acts: set<Action>): AllowedMap
    requires i < 13 && j < 13
  {
    if acts == {} then m
    else
      var acts1 := if i == 0 && j == 0 then acts - {Fold} else acts;
      var acts2 := if i == 1 && j == 1 then acts1 - {Fold} else acts1;
      m[ComposeKey(kind, hero, opener, HandKeyFromIJ(i, j)) := acts2]
  }

  /** `put` itself: parses the cell, then writes the table as `Put` says. */
  method PutCell(m: AllowedMap, kind: string, hero: string, opener: string, i: nat, j: nat, cell: string, allowCall: bool)
    returns (r: AllowedMap)
    requires i < 13 && j < 13
    ensures r == Put(m, kind, hero, opener, i, j, CellActions(cell, allowCall))
  {
    var acts := CellToActions(cell, allowCall);
    r := Put(m, kind, hero, opener, i, j, acts);
  }

  /** What `put` does to the table: only the cell's key can change; an empty
      set leaves it alone; a non-empty set replaces the entry (a later grid
      overwrites an earlier one) by the parsed set, less fold exactly on AA and KK. */
  lemma PutEffect(m: AllowedMap, kind: string, hero: string, opener: string, i: nat, j: nat, acts: set<Action>)
    requires i < 13 && j < 13
    ensures var r := Put(m, kind, hero, opener, i, j, acts);
      var key := ComposeKey(kind, hero, opener, HandKeyFromIJ(i, j));
      && (forall k :: k != key ==> (k in r <==> k in m) && (k in m ==> r[k] == m[k]))
      && (key in r <==> key in m || acts != {})
      && (acts == {} && key in m ==> r[key] == m[key])
      && (acts != {} ==> r[key] <= acts && acts - r[key] <= {Fold})
      && (acts != {} ==> (Fold in r[key] <==> Fold in acts && !IsTopPair(i, j)))
  {
  }

  // ---------------------------------------------------------------------
  // Grid titles

  /** Does `t` spell `lit` at `p`, ASCII letters compared without case? */
  predicate MatchesAt(t: string, p: nat, lit: string) {
    p + |lit| <= |t| && forall k :: 0 <= k < |lit| ==> ToUpperChar(t[p + k]) == lit[k]
  }

  /** The first of `names` spelled at `p`: a regular-expression alternation. */
  function NameAt(t: string, p: nat, names: seq<string>): (r: Option<string>)
    ensures r.Some? ==> r.value in names && MatchesAt(t, p, r.value)
    ensures r.None? ==> forall n :: n in names ==> !MatchesAt(t, p, n)
  {
    if names == [] then None
    else if MatchesAt(t, p, names[0]) then Some(names[0])
    else NameAt(t, p, names[1..])
  }

  /** Where `\s*` starting at `p` stops. */
  function SkipSpaces(t: string, p: nat): (q: nat)
    requires p <= |t|
    ensures p <= q <= |t|
  {
    p + LeadingSpaces(t[p..])
  }

  /** The seats an RFI title may name. */
  const RfiHeroes: seq<string> := ["UTG", "HJ", "CO", "BTN", "SB"]

  /** The two kinds of grid: a sheet "RFI" of unopened pots, a sheet "VsOpen" of pots facing a raise. */
  datatype Grid = RfiGrid | VsOpenGrid

  function KindOf(g: Grid): string {
    if g == RfiGrid then "unopened" else "vs_open"
  }

  /** Call is structurally impossible in an unopened pot. */
  function AllowCall(g: Grid): bool {
    g == VsOpenGrid
  }

  /** The (hero, opener) a grid gets when no title names it. */
  function DefaultTitle(g: Grid): (string, string) {
    if g == RfiGrid then ("UTG", "") else ("HJ", "UTG")
  }

  /** `/RFI:\s*(UTG|HJ|CO|BTN|SB)/i` or
      `/VsOpen:\s*(POS)\s*vs\s*(POS)/i` tried at position `p`; the result is
      the upper-cased capture, with opener "" for an RFI title. Each
      alternation has at most one alternative that fits, so trying them in
      order and never backtracking is what the regular expression does. */
  function TitleAt(g: Grid, t: string, p: nat): Option<(string, string)>
    requires p <= |t|
  {
    if g == RfiGrid then
      if !MatchesAt(t, p, "RFI:") then None
      else match NameAt(t, SkipSpaces(t, p + 4), RfiHeroes)
        case None => None
        case Some(pos) => Some((pos, ""))
    else
      if !MatchesAt(t, p, "VSOPEN:") then None
      else
        var q := SkipSpaces(t, p + 7);
        match NameAt(t, q, Positions)
        case None => None
        case Some(hero) =>
          var q2 := SkipSpaces(t, q + |hero|);
          if !MatchesAt(t, q2, "VS") then None
          else match NameAt(t, SkipSpaces(t, q2 + 2), Positions)
            case None => None
            case Some(opener) => Some((hero, opener))
  }

  /** The leftmost match in `t` from position `p` on (an unanchored search). */
  function TitleSearch(g: Grid, t: string, p: nat): (r: Option<(string, string)>)
    requires p <= |t|
    decreases |t| - p
  {
    if TitleAt(g, t, p).Some? then TitleAt(g, t, p)
    else if p == |t| then None
    else TitleSearch(g, t, p + 1)
  }

  /** The hero and opener a title can name: RFI titles an opening seat other
      than BB and no opener, VsOpen titles two of the six seats. */
  predicate TitleFits(g: Grid, title: (string, string)) {
    if g == RfiGrid then title.0 in RfiHeroes && title.1 == ""
    else title.0 in Positions && title.1 in Positions
  }

  lemma {:induction false} TitleSearchFits(g: Grid, t: string, p: nat)
    requires p <= |t|
    ensures TitleSearch(g, t, p).Some? ==> TitleFits(g, TitleSearch(g, t, p).value)
    decreases |t| - p
  {
    if TitleAt(g, t, p).None? && p < |t| {
      TitleSearchFits(g, t, p + 1);
    }
  }

  /** The title of the grid whose header is row `r`: searched in column 0 one
      row above, then two rows above; the first match wins, else the default. */
  function GridTitle(g: Grid, rows: Rows, r: nat): (string, string) {
    var above1 := TitleSearch(g, Cell(rows, r - 1, 0), 0);
    var above2 := TitleSearch(g, Cell(rows, r - 2, 0), 0);
    if above1.Some? then above1.value
    else if above2.Some? then above2.value
    else DefaultTitle(g)
  }

  /** Every grid, titled or not, is attributed to seats that fit its sheet. */
  lemma GridTitleFits(g: Grid, rows: Rows, r: nat)
    ensures TitleFits(g, GridTitle(g, rows, r))
  {
    TitleSearchFits(g, Cell(rows, r - 1, 0), 0);
    TitleSearchFits(g, Cell(rows, r - 2, 0), 0);
  }

  /** The title loop: tries one row above, then two, and stops at the first match. */
  method FindTitle(g: Grid, rows: Rows, r: nat) returns (hero: string, opener: string)
    ensures (hero, opener) == GridTitle(g, rows, r)
  {
    hero, opener := DefaultTitle(g).0, DefaultTitle(g).1;
    var up := 1;
    while up <= 2
      invariant 1 <= up <= 3
      invariant (hero, opener) == DefaultTitle(g)
      invariant up > 1 ==> TitleSearch(g, Cell(rows, r - 1, 0), 0).None?
      invariant up > 2 ==> TitleSearch(g, Cell(rows, r - 2, 0), 0).None?
    {
      var m := TitleSearch(g, Cell(rows, r - up, 0), 0);
      if m.Some? {
        hero, opener := m.value.0, m.value.1;
        break;
      }
      up := up + 1;
    }
  }

  // ---------------------------------------------------------------------
  // Scanning a sheet

  /** The table after writing the cells of the grid headed by row `r` that
      come before cell (i, j) in row-major order. */
  function GridCells(rows: Rows, g: Grid, r: nat, title: (string, string), m: AllowedMap, i: nat, j: nat): AllowedMap
    requires i <= 13 && j <= 13 && (i == 13 ==> j == 0)
    decreases i, j
  {
    if j > 0 then
      Put(GridCells(rows, g, r, title, m, i, j - 1), KindOf(g), title.0, title.1, i, j - 1,
          CellActions(Cell(rows, r + 1 + i, j), AllowCall(g)))
    else if i > 0 then GridCells(rows, g, r, title, m, i - 1, 13)
    else m
  }

  /** The scan of a sheet from row `r`: each header row starts a grid whose
      169 cells are written, and the scan resumes 14 rows after the header. */
  function Scan(rows: Rows, g: Grid, r: nat, m: AllowedMap): AllowedMap
    decreases |rows| - r
  {
    if r >= |rows| then m
    else if IsHeaderRow(rows[r]) then
      Scan(rows, g, r + 14, GridCells(rows, g, r, GridTitle(g, rows, r), m, 13, 0))
    else Scan(rows, g, r + 1, m)
  }

  /** The table a workbook yields: RFI grids first, then VsOpen grids. */
  function ParsedTable(wb: Workbook): AllowedMap {
    var afterRfi := if "RFI" in wb then Scan(wb["RFI"], RfiGrid, 0, map[]) else map[];
    if "VsOpen" in wb then Scan(wb["VsOpen"], VsOpenGrid, 0, afterRfi) else afterRfi
  }

  /** The nested loops writing the 169 cells of the grid headed by row `r`. */
  method PutGrid(rows: Rows, g: Grid, r: nat, hero: string, opener: string, start: AllowedMap)
    returns (allowed: AllowedMap)
    ensures allowed == GridCells(rows, g, r, (hero, opener), start, 13, 0)
  {
    allowed := start;
    var i := 0;
    while i < 13
      invariant 0 <= i <= 13
      invariant allowed == GridCells(rows, g, r, (hero, opener), start, i, 0)
    {
      var j := 0;
      while j < 13
        invariant 0 <= j <= 13
        invariant allowed == GridCells(rows, g, r, (hero, opener), start, i, j)
      {
        allowed := PutCell(allowed, KindOf(g), hero, opener, i, j, Cell(rows, r + 1 + i, 1 + j), AllowCall(g));
        j := j + 1;
      }
      i := i + 1;
    }
  }

  /** The loop of `parseExcelArrayBuffer` over the rows of one sheet. */
  method ScanSheet(rows: Rows, g: Grid, start: AllowedMap) returns (allowed: AllowedMap)
    ensures allowed == Scan(rows, g, 0, start)
  {
    allowed := start;
    var r := 0;
    while r < |rows|
      invariant Scan(rows, g, r, allowed) == Scan(rows, g, 0, start)
      decreases |rows| - r
    {
      if IsHeaderRow(rows[r]) {
        var hero, opener := FindTitle(g, rows, r);
        allowed := PutGrid(rows, g, r, hero, opener, allowed);
        r := r + 13;
      }
      r := r + 1;
    }
  }

  /** `parseExcelArrayBuffer` after the workbook has been read. */
  method ParseWorkbook(wb: Workbook) returns (allowed: AllowedMap)
    ensures allowed == ParsedTable(wb)
  {
    allowed := map[];
    if "RFI" in wb {
      allowed := ScanSheet(wb["RFI"], RfiGrid, allowed);
    }
    if "VsOpen" in wb {
      allowed := ScanSheet(wb["VsOpen"], VsOpenGrid, allowed);
    }
  }

  // ---------------------------------------------------------------------
  // What every parsed table satisfies

  /** One entry of a parsed table: a key `kind|hero|opener|hand` with a grid
      hand, seats that fit the kind, no call when unopened, no fold on AA
      or KK, and a non-empty set except where AA or KK lost its only fold. */
  ghost predicate ParsedEntry(k: string, acts: set<Action>) {
    var f := Split(k, '|');
    && |f| == 4
    && f[3] in HandSet()
    && ((f[0] == "unopened" && f[1] in RfiHeroes && f[2] == "" && Call !in acts)
        || (f[0] == "vs_open" && f[1] in Positions && f[2] in Positions))
    && (f[3] == "AA" || f[3] == "KK" ==> Fold !in acts)
    && (acts == {} ==> f[3] == "AA" || f[3] == "KK")
  }

  ghost predicate WellFormedTable(m: AllowedMap) {
    forall k :: k in m ==> ParsedEntry(k, m[k])
  }

  lemma PutKeepsWellFormed(m: AllowedMap, g: Grid, title: (string, string), i: nat, j: nat, acts: set<Action>)
    requires i < 13 && j < 13
    requires WellFormedTable(m) && TitleFits(g, title)
    requires g == RfiGrid ==> Call !in acts
    ensures WellFormedTable(Put(m, KindOf(g), title.0, title.1, i, j, acts))
  {
    var hand := HandKeyFromIJ(i, j);
    var key := ComposeKey(KindOf(g), title.0, title.1, hand);
    var r := Put(m, KindOf(g), title.0, title.1, i, j, acts);
    PutEffect(m, KindOf(g), title.0, title.1, i, j, acts);
    if acts != {} {
      ComposeKeyFields(KindOf(g), title.0, title.1, hand);
      TopPairKeys(i, j);
      assert hand in HandSet();
      assert ParsedEntry(key, r[key]);
    }
  }

  lemma PutCellKeepsWellFormed(m: AllowedMap, g: Grid, title: (string, string), i: nat, j: nat, cell: string)
    requires i < 13 && j < 13
    requires WellFormedTable(m) && TitleFits(g, title)
    ensures WellFormedTable(Put(m, KindOf(g), title.0, title.1, i, j, CellActions(cell, AllowCall(g))))
  {
    if g == RfiGrid { NoCallWithoutAllowCall(cell); }
    PutKeepsWellFormed(m, g, title, i, j, CellActions(cell, AllowCall(g)));
  }

  lemma {:induction false} GridCellsWellFormed(rows: Rows, g: Grid, r: nat, title: (string, string), m: AllowedMap, i: nat, j: nat)
    requires i <= 13 && j <= 13 && (i == 13 ==> j == 0)
    requires WellFormedTable(m) && TitleFits(g, title)
    ensures WellFormedTable(GridCells(rows, g, r, title, m, i, j))
    decreases i, j
  {
    if j > 0 {
      GridCellsWellFormed(rows, g, r, title, m, i, j - 1);
      PutCellKeepsWellFormed(GridCells(rows, g, r, title, m, i, j - 1), g, title, i, j - 1, Cell(rows, r + 1 + i, j));
    } else if i > 0 {
      GridCellsWellFormed(rows, g, r, title, m, i - 1, 13);
    }
  }

  lemma {:induction false} ScanWellFormed(rows: Rows, g: Grid, r: nat, m: AllowedMap)
    requires WellFormedTable(m)
    ensures WellFormedTable(Scan(rows, g, r, m))
    decreases |rows| - r
  {
    if r < |rows| {
      if IsHeaderRow(rows[r]) {
        GridTitleFits(g, rows, r);
        GridCellsWellFormed(rows, g, r, GridTitle(g, rows, r), m, 13, 0);
        ScanWellFormed(rows, g, r + 14, GridCells(rows, g, r, GridTitle(g, rows, r), m, 13, 0));
      } else {
        ScanWellFormed(rows, g, r + 1, m);
      }
    }
  }

  /** Every table the parser builds is well formed: in particular no unopened
      entry allows call and no AA or KK entry allows fold. */
  lemma ParsedTableWellFormed(wb: Workbook)
    ensures WellFormedTable(ParsedTable(wb))
  {
    var empty: AllowedMap := map[];
    if "RFI" in wb { ScanWellFormed(wb["RFI"], RfiGrid, 0, empty); }
    var afterRfi := if "RFI" in wb then Scan(wb["RFI"], RfiGrid, 0, empty) else empty;
    if "VsOpen" in wb { ScanWellFormed(wb["VsOpen"], VsOpenGrid, 0, afterRfi); }
  }

  /** A workbook with neither sheet yields the empty table, not an error. */
  lemma NoSheetsNoTable(wb: Workbook)
    requires "RFI" !in wb && "VsOpen" !in wb
    ensures ParsedTable(wb) == map[]
  {
  }
}
