/** The display helpers of the range grid: the key an action set is looked
    up under, its colour, and its caption. */
module RangeGrid {
  import opened Strings
  import opened Types
  import opened Labels

  /** The action values as the table spells them. */
  function Names(): Words {
    Words("raise", "call", "fold")
  }

  /** The words of the caption. */
  function Captions(): Words {
    Words("Raise", "Call", "Fold")
  }

  /** `order.filter(a => acts.has(a))`: the actions of `order` present in `acts`, in order. */
  function FilterActs(order: seq<Action>, acts: set<Action>): (r: seq<Action>)
    ensures |r| <= |order|
  {
    if order == [] then []
    else (if order[0] in acts then [order[0]] else []) + FilterActs(order[1..], acts)
  }

  function NamesOf(actions: seq<Action>): seq<string> {
    if actions == [] then [] else [Word(Names(), actions[0])] + NamesOf(actions[1..])
  }

  /** `actionsKey`: filters the actions raise, call, fold by membership, then joins them. */
  function ActionsKey(acts: set<Action>): string {
    Join(NamesOf(FilterActs([Raise, Call, Fold], acts)), "/")
  }

  /** The set of strings an action set holds. */
  function HeldNames(acts: set<Action>): set<string> {
    set a | a in acts :: Word(Names(), a)
  }

  /** `["raise", "call", "fold"].filter(a => acts.has(a))`. */
  function FilterNames(ns: seq<string>, acts: set<Action>): seq<string> {
    if ns == [] then []
    else (if ns[0] in HeldNames(acts) then [ns[0]] else []) + FilterNames(ns[1..], acts)
  }

  /** `actsKeyed`: filters the three names by membership, then joins them. */
  function ActsKeyed(acts: set<Action>): string {
    Join(FilterNames(["raise", "call", "fold"], acts), "/")
  }

  /** `colorForActions`: the colour of the key; anything else, the empty key
      included, falls to the default blue. */
  function ColorForActions(acts: set<Action>): string {
    ColorOfKey(ActsKeyed(acts))
  }

  /** The `switch` of `colorForActions` on the key. */
  function ColorOfKey(key: string): string {
    match key
    case "raise" => "#e53935"
    case "raise/call" => "#fb8c00"
    case "call" => "#43a047"
    case "call/fold" => "#7cb342"
    case "fold" => "#1e88e5"
    case "raise/fold" => "#8e24aa"
    case "raise/call/fold" => "#5e35b1"
    case _ => "#1e88e5"
  }

  /** `labelForActions`: "Raise", "Call", "Fold" for the present actions, joined with "/". */
  function LabelForActions(acts: set<Action>): string {
    Spelling(acts, Captions())
  }

  lemma HeldNamesMember(acts: set<Action>)
    ensures "raise" in HeldNames(acts) <==> Raise in acts
    ensures "call" in HeldNames(acts) <==> Call in acts
    ensures "fold" in HeldNames(acts) <==> Fold in acts
  {
    if Raise in acts { assert Word(Names(), Raise) in HeldNames(acts); }
    if Call in acts { assert Word(Names(), Call) in HeldNames(acts); }
    if Fold in acts { assert Word(Names(), Fold) in HeldNames(acts); }
  }

  /** Both key functions spell the present actions in the order raise, call,
      fold, joined with "/": they agree on every set. */
  lemma KeysAgree(acts: set<Action>)
    ensures ActionsKey(acts) == Spelling(acts, Names())
    ensures ActsKeyed(acts) == Spelling(acts, Names())
  {
    ActionsKeySpelling(acts);
    ActsKeyedSpelling(acts);
  }

  lemma ActionsKeySpelling(acts: set<Action>)
    ensures ActionsKey(acts) == Spelling(acts, Names())
  {
    var r: seq<Action> := if Raise in acts then [Raise] else [];
    var c: seq<Action> := if Call in acts then [Call] else [];
    var f: seq<Action> := if Fold in acts then [Fold] else [];
    assert FilterActs([Fold], acts) == f;
    assert FilterActs([Call, Fold], acts) == c + f by {
      assert [Call, Fold][1..] == [Fold];
    }
    assert FilterActs([Raise, Call, Fold], acts) == r + c + f by {
      assert [Raise, Call, Fold][1..] == [Call, Fold];
    }
    NamesOfAppend(r, c);
    NamesOfAppend(r + c, f);
    assert [Raise][1..] == [] && [Call][1..] == [] && [Fold][1..] == [];
    assert NamesOf(r) == (if Raise in acts then ["raise"] else []);
    assert NamesOf(c) == (if Call in acts then ["call"] else []);
    assert NamesOf(f) == (if Fold in acts then ["fold"] else []);
    assert NamesOf(FilterActs([Raise, Call, Fold], acts)) == Spelled(acts, Names());
  }

  lemma ActsKeyedSpelling(acts: set<Action>)
    ensures ActsKeyed(acts) == Spelling(acts, Names())
  {
    HeldNamesMember(acts);
    assert ["fold"][1..] == [];
    assert FilterNames(["fold"], acts) == (if Fold in acts then ["fold"] else []);
    assert FilterNames(["call", "fold"], acts) == (if Call in acts then ["call"] else []) + FilterNames(["fold"], acts) by {
      assert ["call", "fold"][1..] == ["fold"];
    }
    assert FilterNames(["raise", "call", "fold"], acts) == (if Raise in acts then ["raise"] else []) + FilterNames(["call", "fold"], acts) by {
      assert ["raise", "call", "fold"][1..] == ["call", "fold"];
    }
    assert FilterNames(["raise", "call", "fold"], acts) == Spelled(acts, Names());
  }

  lemma {:induction false} NamesOfAppend(a: seq<Action>, b: seq<Action>)
    ensures NamesOf(a + b) == NamesOf(a) + NamesOf(b)
  {
    if a != [] {
      assert (a + b)[1..] == a[1..] + b;
      NamesOfAppend(a[1..], b);
    } else {
      assert a + b == b;
    }
  }

  /** A set whose spelled words and their join are known has that join as its key. */
  lemma KeyLiteral(acts: set<Action>, ws: seq<string>, key: string)
    requires Spelled(acts, Names()) == ws && Join(ws, "/") == key
    ensures ActsKeyed(acts) == key
  {
    KeysAgree(acts);
  }

  /** The seven colours, in the order of the seven non-empty sets. */
  function Palette(): seq<string> {
    ["#e53935", "#43a047", "#1e88e5", "#fb8c00", "#7cb342", "#8e24aa", "#5e35b1"]
  }

  /** The seven colours differ, already in their second character. */
  lemma PaletteDistinct(a: nat, b: nat)
    requires a < b < 7
    ensures Palette()[a] != Palette()[b]
  {
    assert Palette()[a][1] != Palette()[b][1];
  }

  /** The keys of the seven non-empty sets, in the order of `NonEmptySets`. */
  function KeyNames(): seq<string> {
    ["raise", "call", "fold", "raise/call", "call/fold", "raise/fold", "raise/call/fold"]
  }

  lemma KeyTable(k: nat)
    requires k < 7
    ensures ActsKeyed(NonEmptySets()[k]) == KeyNames()[k]
  {
    if k == 0 { KeyLiteral({Raise}, ["raise"], "raise"); }
    else if k == 1 { KeyLiteral({Call}, ["call"], "call"); }
    else if k == 2 { KeyLiteral({Fold}, ["fold"], "fold"); }
    else if k == 3 { KeyLiteral({Raise, Call}, ["raise", "call"], "raise/call"); }
    else if k == 4 { KeyLiteral({Call, Fold}, ["call", "fold"], "call/fold"); }
    else if k == 5 { KeyLiteral({Raise, Fold}, ["raise", "fold"], "raise/fold"); }
    else { KeyLiteral({Raise, Call, Fold}, ["raise", "call", "fold"], "raise/call/fold"); }
  }

  lemma SwitchTable(k: nat)
    requires k < 7
    ensures ColorOfKey(KeyNames()[k]) == Palette()[k]
  {
    if k == 0 { assert ColorOfKey("raise") == "#e53935"; }
    else if k == 1 { assert ColorOfKey("call") == "#43a047"; }
    else if k == 2 { assert ColorOfKey("fold") == "#1e88e5"; }
    else if k == 3 { assert ColorOfKey("raise/call") == "#fb8c00"; }
    else if k == 4 { assert ColorOfKey("call/fold") == "#7cb342"; }
    else if k == 5 { assert ColorOfKey("raise/fold") == "#8e24aa"; }
    else { assert ColorOfKey("raise/call/fold") == "#5e35b1"; }
  }

  lemma ColorTable(k: nat)
    requires k < 7
    ensures ColorForActions(NonEmptySets()[k]) == Palette()[k]
  {
    KeyTable(k);
    SwitchTable(k);
  }

  /** The seven non-empty action sets get seven different colours. */
  lemma ColorsDistinct(acts: set<Action>, acts': set<Action>)
    requires acts != {} && acts' != {} && acts != acts'
    ensures ColorForActions(acts) != ColorForActions(acts')
  {
    NonEmptySetsCover(acts);
    NonEmptySetsCover(acts');
    var k :| 0 <= k < 7 && NonEmptySets()[k] == acts;
    var k' :| 0 <= k' < 7 && NonEmptySets()[k'] == acts';
    ColorTable(k);
    ColorTable(k');
    if k < k' { PaletteDistinct(k, k'); } else { PaletteDistinct(k', k); }
  }

  /** The empty set has no key of its own and falls to the default blue,
      which is also the colour of fold alone. */
  lemma EmptyColor()
    ensures ActsKeyed({}) == ""
    ensures ColorForActions({}) == "#1e88e5" == ColorForActions({Fold})
  {
    KeyLiteral({}, [], "");
    KeyLiteral({Fold}, ["fold"], "fold");
    assert ColorForActions({}) == ColorOfKey("");
    assert ColorForActions({Fold}) == ColorOfKey("fold");
  }

  /** The caption lists Raise, Call, Fold in that order for the present
      actions, and is empty only for the empty set; it can be read back. */
  lemma CaptionFacts(acts: set<Action>)
    ensures Split(LabelForActions(acts), '/') == if acts == {} then [""] else Spelled(acts, Captions())
    ensures LabelForActions(acts) == "" <==> acts == {}
    ensures ReadSpelling(LabelForActions(acts), Captions()) == acts
  {
    SpellingRoundTrip(acts, Captions());
    SpellingEmptyAndInjective(acts, {}, Captions());
    SpelledRead(acts, Captions());
    if acts != {} {
      assert "/" == ['/'];
      assert Spelled(acts, Captions()) != [];
      SplitJoin(Spelled(acts, Captions()), '/');
    }
  }
}
