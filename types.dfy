/** The vocabulary of the range engine: ranks, actions, scenarios, the 169
    hand classes of a 13×13 grid and the composite `kind|hero|opener|hand`
    key of the strategy table. */
module Types {
  import opened Strings

  datatype Option<T> = None | Some(value: T)

  /** What a hand may do in a scenario. */
  datatype Action = Raise | Call | Fold

  /** The thirteen rank symbols, index 0 (the ace) the highest. */
  const Ranks: string := "AKQJT98765432"

  /** The six seats, in the order they act. */
  const Positions: seq<string> := ["UTG", "HJ", "CO", "BTN", "SB", "BB"]

  /** Either nobody has entered the pot yet, or `opener` has raised before `hero`. */
  datatype Scenario = Unopened(hero: string) | VsOpen(hero: string, opener: string)

  /** The strategy table: composite key to the set of allowed actions. */
  type AllowedMap = map<string, set<Action>>

  /** `allowed[key] ?? dflt`: the entry under a key, or a default when absent. */
  function LookupOr(m: AllowedMap, key: string, dflt: set<Action>): set<Action> {
    if key in m then m[key] else dflt
  }

  function KindName(s: Scenario): string {
    if s.Unopened? then "unopened" else "vs_open"
  }

  /** The opener field as keys spell it: empty for an unopened pot. */
  function Opener(s: Scenario): string {
    if s.Unopened? then "" else s.opener
  }

  lemma RanksDistinct()
    ensures |Ranks| == 13
    ensures forall a, b :: 0 <= a < b < 13 ==> Ranks[a] != Ranks[b]
  {
  }

  /** The hand class of grid cell (i, j): a pair on the diagonal, suited above
      it, offsuit below it, the higher rank (smaller index) always first. */
  function HandKeyFromIJ(i: nat, j: nat): (h: string)
    requires i < 13 && j < 13
    ensures i == j ==> h == [Ranks[i], Ranks[i]]
    ensures i != j ==> |h| == 3
    ensures i != j ==> h[0] == Ranks[if i < j then i else j] && h[1] == Ranks[if i < j then j else i]
    ensures i != j ==> (h[2] == 's' <==> j > i) && (h[2] == 'o' <==> j < i)
    ensures '|' !in h
  {
    var hi, hj := [Ranks[i]], [Ranks[j]];
    if i == j then hi + hj
    else
      var suited := if j > i then "s" else "o";
      var (r1, r2) := if i < j then (hi, hj) else (hj, hi);
      r1 + r2 + suited
  }

  /** Different cells name different hands. */
  lemma HandKeyInjective(i: nat, j: nat, i': nat, j': nat)
    requires i < 13 && j < 13 && i' < 13 && j' < 13
    requires HandKeyFromIJ(i, j) == HandKeyFromIJ(i', j')
    ensures i == i' && j == j'
  {
    RanksDistinct();
    var h, h' := HandKeyFromIJ(i, j), HandKeyFromIJ(i', j');
    assert h[0] == h'[0] && h[1] == h'[1] && |h| == |h'|;
    if i == j {
      assert i' == j';
    } else {
      assert i' != j';
      assert (j > i) == (j' > i');
    }
  }

  /** The top two pairs, AA and KK, are the only hands spelled "AA" and "KK". */
  lemma TopPairKeys(i: nat, j: nat)
    requires i < 13 && j < 13
    ensures HandKeyFromIJ(i, j) == "AA" <==> i == 0 && j == 0
    ensures HandKeyFromIJ(i, j) == "KK" <==> i == 1 && j == 1
  {
    assert HandKeyFromIJ(0, 0) == "AA";
    assert HandKeyFromIJ(1, 1) == "KK";
    if HandKeyFromIJ(i, j) == "AA" { HandKeyInjective(i, j, 0, 0); }
    if HandKeyFromIJ(i, j) == "KK" { HandKeyInjective(i, j, 1, 1); }
  }

  /** The 169 hands, row by row. */
  function GridHands(): (hs: seq<string>)
    ensures |hs| == 169
    ensures forall k :: 0 <= k < 169 ==> hs[k] == HandKeyFromIJ(k / 13, k % 13)
  {
    seq(169, k requires 0 <= k < 169 => HandKeyFromIJ(k / 13, k % 13))
  }

  function HandSet(): set<string> {
    set i: nat, j: nat | i < 13 && j < 13 :: HandKeyFromIJ(i, j)
  }

  lemma {:induction false} DistinctCard<T>(s: seq<T>)
    requires forall a, b :: 0 <= a < b < |s| ==> s[a] != s[b]
    ensures |set x | x in s| == |s|
  {
    if s != [] {
      DistinctCard(s[1..]);
      assert (set x | x in s) == {s[0]} + (set x | x in s[1..]);
      assert s[0] !in s[1..];
    }
  }

  /** The grid yields exactly 169 distinct hands. */
  lemma HandCount()
    ensures |HandSet()| == 169
  {
    var hs := GridHands();
    forall a, b | 0 <= a < b < 169 ensures hs[a] != hs[b] {
      if hs[a] == hs[b] {
        HandKeyInjective(a / 13, a % 13, b / 13, b % 13);
      }
    }
    DistinctCard(hs);
    forall h | h in HandSet() ensures h in hs {
      var i: nat, j: nat :| i < 13 && j < 13 && h == HandKeyFromIJ(i, j);
      var k := 13 * i + j;
      assert k / 13 == i && k % 13 == j;
      assert hs[k] == h;
    }
    assert HandSet() == set x | x in hs;
  }

  /** The key prefix of one scenario: `kind|hero|opener|`. */
  function ScenarioPrefix(s: Scenario): string {
    KindName(s) + "|" + s.hero + "|" + Opener(s) + "|"
  }

  /** The key the parser writes for a kind, hero, opener and hand. */
  function ComposeKey(kind: string, hero: string, opener: string, hand: string): string {
    kind + "|" + hero + "|" + opener + "|" + hand
  }

  /** The table key of a scenario and a hand. */
  function KeyOf(s: Scenario, hand: string): (k: string)
    ensures k == ScenarioPrefix(s) + hand
    ensures k == ComposeKey(KindName(s), s.hero, Opener(s), hand)
  {
    KindName(s) + "|" + s.hero + "|" + Opener(s) + "|" + hand
  }

  /** Splitting a composed key on "|" gives back its four fields, when none holds "|". */
  lemma ComposeKeyFields(kind: string, hero: string, opener: string, hand: string)
    requires '|' !in kind && '|' !in hero && '|' !in opener && '|' !in hand
    ensures Split(ComposeKey(kind, hero, opener, hand), '|') == [kind, hero, opener, hand]
  {
    var fields := [kind, hero, opener, hand];
    assert Join(fields[2..], "|") == opener + "|" + hand;
    assert Join(fields[1..], "|") == hero + "|" + (opener + "|" + hand);
    assert Join(fields, "|") == ComposeKey(kind, hero, opener, hand);
    SplitJoin(fields, '|');
  }

  /** A key whose split has four fields is the composition of those fields. */
  lemma FieldsCompose(k: string)
    requires |Split(k, '|')| == 4
    ensures var f := Split(k, '|'); k == ComposeKey(f[0], f[1], f[2], f[3])
  {
    var f := Split(k, '|');
    JoinSplit(k, '|');
    assert Join(f[2..], "|") == f[2] + "|" + f[3];
    assert Join(f[1..], "|") == f[1] + "|" + (f[2] + "|" + f[3]);
  }

  /** Round trip: splitting `KeyOf(s, h)` recovers kind, hero, opener and hand. */
  lemma KeyOfFields(s: Scenario, hand: string)
    requires '|' !in s.hero && '|' !in Opener(s) && '|' !in hand
    ensures Split(KeyOf(s, hand), '|') == [KindName(s), s.hero, Opener(s), hand]
  {
    ComposeKeyFields(KindName(s), s.hero, Opener(s), hand);
  }
}
