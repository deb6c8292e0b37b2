/** Spelling a set of actions: the word of each present action, in the fixed
    order raise, call, fold, joined with "/". The advice label ("R/C"), the
    grid key ("raise/call") and the grid caption ("Raise/Call") are all this
    spelling with different words. */
module Labels {
  import opened Strings
  import opened Types

  /** The word written for each action. */
  datatype Words = Words(raise: string, call: string, fold: string)

  /** Words that can be read back: non-empty, pairwise different, and free of "/". */
  predicate GoodWords(w: Words) {
    && w.raise != "" && w.call != "" && w.fold != ""
    && w.raise != w.call && w.raise != w.fold && w.call != w.fold
    && '/' !in w.raise && '/' !in w.call && '/' !in w.fold
  }

  function Word(w: Words, a: Action): string {
    match a
    case Raise => w.raise
    case Call => w.call
    case Fold => w.fold
  }

  /** The words of the present actions, raise first, fold last. */
  function Spelled(acts: set<Action>, w: Words): seq<string> {
    (if Raise in acts then [w.raise] else [])
    + (if Call in acts then [w.call] else [])
    + (if Fold in acts then [w.fold] else [])
  }

  function Spelling(acts: set<Action>, w: Words): string {
    Join(Spelled(acts, w), "/")
  }

  /** The action a single word stands for. */
  function WordActs(p: string, w: Words): set<Action> {
    if p == w.raise then {Raise} else if p == w.call then {Call} else if p == w.fold then {Fold} else {}
  }

  function ReadWords(ps: seq<string>, w: Words): set<Action> {
    if ps == [] then {} else ReadWords(ps[..|ps| - 1], w) + WordActs(ps[|ps| - 1], w)
  }

  /** Reading a spelling back: the actions whose words it lists. */
  function ReadSpelling(s: string, w: Words): set<Action> {
    ReadWords(Split(s, '/'), w)
  }

  /** A set of actions is determined by which of the three it holds. */
  lemma ActsByMembers(acts: set<Action>)
    ensures acts == (if Raise in acts then {Raise} else {}) + (if Call in acts then {Call} else {})
      + (if Fold in acts then {Fold} else {})
  {
    forall x: Action | x in acts
      ensures x in (if Raise in acts then {Raise} else {}) + (if Call in acts then {Call} else {})
        + (if Fold in acts then {Fold} else {})
    {
      match x
      case Raise =>
      case Call =>
      case Fold =>
    }
  }

  lemma {:induction false} ReadWordsAppend(a: seq<string>, b: seq<string>, w: Words)
    ensures ReadWords(a + b, w) == ReadWords(a, w) + ReadWords(b, w)
    decreases |b|
  {
    if b != [] {
      var ab := a + b;
      assert ab[..|ab| - 1] == a + b[..|b| - 1];
      assert ab[|ab| - 1] == b[|b| - 1];
      ReadWordsAppend(a, b[..|b| - 1], w);
      assert ReadWords(ab, w) == ReadWords(ab[..|ab| - 1], w) + WordActs(ab[|ab| - 1], w);
    } else {
      assert a + b == a;
    }
  }

  /** The word of one action read back alone, or nothing when it is absent. */
  lemma ReadOneWord(a: Action, present: bool, w: Words)
    requires GoodWords(w)
    ensures ReadWords(if present then [Word(w, a)] else [], w) == if present then {a} else {}
  {
    if present {
      assert [Word(w, a)][..0] == [];
    }
  }

  lemma SpelledRead(acts: set<Action>, w: Words)
    requires GoodWords(w)
    ensures ReadWords(Spelled(acts, w), w) == acts
    ensures forall p :: p in Spelled(acts, w) ==> '/' !in p
  {
    var r: seq<string> := if Raise in acts then [w.raise] else [];
    var c: seq<string> := if Call in acts then [w.call] else [];
    var f: seq<string> := if Fold in acts then [w.fold] else [];
    assert Spelled(acts, w) == r + c + f;
    ReadWordsAppend(r, c, w);
    ReadWordsAppend(r + c, f, w);
    ReadOneWord(Raise, Raise in acts, w);
    ReadOneWord(Call, Call in acts, w);
    ReadOneWord(Fold, Fold in acts, w);
    ActsByMembers(acts);
  }

  /** A spelling names its set exactly: reading it back gives the set again. */
  lemma SpellingRoundTrip(acts: set<Action>, w: Words)
    requires GoodWords(w)
    ensures ReadSpelling(Spelling(acts, w), w) == acts
  {
    var parts := Spelled(acts, w);
    SpelledRead(acts, w);
    if parts == [] {
      assert Spelling(acts, w) == "";
    } else {
      assert "/" == ['/'];
      SplitJoin(parts, '/');
    }
  }

  /** Only the empty set is spelled "", and different sets are spelled differently. */
  lemma SpellingEmptyAndInjective(acts: set<Action>, acts': set<Action>, w: Words)
    requires GoodWords(w)
    ensures Spelling(acts, w) == "" <==> acts == {}
    ensures Spelling(acts, w) == Spelling(acts', w) ==> acts == acts'
  {
    SpellingRoundTrip(acts, w);
    SpellingRoundTrip(acts', w);
    assert Split("", '/') == [""];
    assert ReadWords([""], w) == WordActs("", w) by {
      assert [""][..0] == [];
    }
    if acts == {} {
      assert Spelled(acts, w) == [];
    }
  }

  /** A single action is spelled as its word alone. */
  lemma SpellingSingle(a: Action, w: Words)
    ensures Spelling({a}, w) == Word(w, a)
  {
    match a
    case Raise => assert Spelled({a}, w) == [w.raise];
    case Call => assert Spelled({a}, w) == [w.call];
    case Fold => assert Spelled({a}, w) == [w.fold];
  }

  /** The seven non-empty sets of actions. */
  function NonEmptySets(): seq<set<Action>> {
    [{Raise}, {Call}, {Fold}, {Raise, Call}, {Call, Fold}, {Raise, Fold}, {Raise, Call, Fold}]
  }

  /** Every non-empty set of actions is one of the seven. */
  lemma NonEmptySetsCover(acts: set<Action>)
    requires acts != {}
    ensures acts in NonEmptySets()
  {
    ActsByMembers(acts);
    if Raise in acts && Call in acts && Fold in acts { assert acts == NonEmptySets()[6]; }
    else if Raise in acts && Call in acts { assert acts == NonEmptySets()[3]; }
    else if Call in acts && Fold in acts { assert acts == NonEmptySets()[4]; }
    else if Raise in acts && Fold in acts { assert acts == NonEmptySets()[5]; }
    else if Raise in acts { assert acts == NonEmptySets()[0]; }
    else if Call in acts { assert acts == NonEmptySets()[1]; }
    else { assert acts == NonEmptySets()[2]; }
  }
}
