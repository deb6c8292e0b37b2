/** The quiz store: the loaded strategy table, the study filter and the
    current question, with the operations that draw a question from the
    table and grade an answer against it. */
module Store {
  import opened Strings
  import opened Types
  import opened ParseRanges

  /** A question: a scenario and a hand class. */
  datatype Question = Question(scenario: Scenario, hand: string)

  /** A partial scenario used to narrow the questions drawn: each field is
      either absent or a value to compare with the key's field. */
  datatype Filter = Filter(kind: Option<string>, hero: Option<string>, opener: Option<string>)

  /** The result of grading one answer. */
  datatype Grade = Grade(correct: bool, allowed: set<Action>)

  /** Field `n` of a split key, as a destructuring binding reads it when
      interpolated into a string: missing fields read "undefined". */
  function Field(f: seq<string>, n: nat): string {
    if n < |f| then f[n] else "undefined"
  }

  /** Does key `k` pass the filter? Kind and hero are compared only when
      non-empty; opener whenever it is given, the empty opener included.
      A field the key lacks equals no given value. */
  predicate Matches(filter: Option<Filter>, k: string) {
    filter.None? ||
    var f, p := filter.value, Split(k, '|');
    && (f.kind.None? || f.kind.value == "" || f.kind.value == p[0])
    && (f.hero.None? || f.hero.value == "" || (|p| > 1 && f.hero.value == p[1]))
    && (f.opener.None? || (|p| > 2 && f.opener.value == p[2]))
  }

  /** The keys a question may be drawn from. */
  function Candidates(m: AllowedMap, filter: Option<Filter>): (ks: set<string>)
    ensures ks <= m.Keys
  {
    set k | k in m && Matches(filter, k)
  }

  /** The filter in force: the one passed in, else the stored one. */
  function Effective(filter: Option<Filter>, stored: Option<Filter>): Option<Filter> {
    if filter.Some? then filter else stored
  }

  /** The question a key decodes to: a raise to face when the opener field is
      present and non-empty, an unopened pot otherwise. The kind field is not read. */
  function DecodeKey(k: string): (q: Question)
    ensures q.scenario.VsOpen? <==> |Split(k, '|')| > 2 && Split(k, '|')[2] != ""
  {
    var f := Split(k, '|');
    if |f| > 2 && f[2] != "" then Question(VsOpen(Field(f, 1), f[2]), Field(f, 3))
    else Question(Unopened(Field(f, 1)), Field(f, 3))
  }

  class QuizStore {
    var allowed: Option<AllowedMap>
    var studyFilter: Option<Filter>
    var question: Option<Question>

    constructor ()
      ensures allowed.None? && studyFilter.None? && question.None?
    {
      allowed := None;
      studyFilter := None;
      question := None;
    }

    /** Loads a table; the filter and the current question are kept. */
    method SetAllowed(a: AllowedMap)
      modifies this
      ensures allowed == Some(a)
      ensures studyFilter == old(studyFilter) && question == old(question)
    {
      allowed := Some(a);
    }

    method SetStudyFilter(f: Option<Filter>)
      modifies this
      ensures studyFilter == f
      ensures allowed == old(allowed) && question == old(question)
    {
      studyFilter := f;
    }

    /** Draws a question from the keys that pass the effective filter. With
        no table, or no key passing, nothing changes. */
    method NextQuestion(filter: Option<Filter>)
      modifies this
      ensures allowed == old(allowed) && studyFilter == old(studyFilter)
      ensures old(allowed).None? ==> question == old(question)
      ensures old(allowed).Some? ==>
        var ks := Candidates(old(allowed).value, Effective(filter, old(studyFilter)));
        && (ks == {} ==> question == old(question))
        && (ks != {} ==> exists k :: k in ks && question == Some(DecodeKey(k)))
    {
      if allowed.None? {
        return;
      }
      var eff := Effective(filter, studyFilter);
      var keys := Candidates(allowed.value, eff);
      if keys == {} {
        return;
      }
      var key :| key in keys;
      question := Some(DecodeKey(key));
    }

    /** Grades `a` against the entry of the current question; no grade when
        no table is loaded or no question is set. */
    method Answer(a: Action) returns (r: Option<Grade>)
      ensures r.None? <==> allowed.None? || question.None?
      ensures r.Some? ==>
        var q := question.value;
        && r.value.allowed == LookupOr(allowed.value, KeyOf(q.scenario, q.hand), {})
        && (r.value.correct <==> a in r.value.allowed)
    {
      if allowed.None? || question.None? {
        return None;
      }
      var q := question.value;
      var key := KeyOf(q.scenario, q.hand);
      var acts := LookupOr(allowed.value, key, {});
      return Some(Grade(a in acts, acts));
    }
  }

  /** Every candidate carries each field the filter gives (kind and hero only
      when non-empty). */
  lemma CandidateFields(m: AllowedMap, f: Filter, k: string)
    requires k in Candidates(m, Some(f))
    ensures var p := Split(k, '|');
      && (f.kind.Some? && f.kind.value != "" ==> p[0] == f.kind.value)
      && (f.hero.Some? && f.hero.value != "" ==> |p| > 1 && p[1] == f.hero.value)
      && (f.opener.Some? ==> |p| > 2 && p[2] == f.opener.value)
  {
  }

  /** Without a filter, or with one whose fields are all absent or empty
      strings (other than the opener), every key of the table is a candidate. */
  lemma UnfilteredCandidates(m: AllowedMap, filter: Option<Filter>)
    requires filter.None? || (filter.value.opener.None?
      && (filter.value.kind.None? || filter.value.kind.value == "")
      && (filter.value.hero.None? || filter.value.hero.value == ""))
    ensures Candidates(m, filter) == m.Keys
  {
  }

  /** A given opener of "" keeps exactly the keys whose opener field is empty. */
  lemma EmptyOpenerFilter(m: AllowedMap, k: string)
    requires k in m
    ensures k in Candidates(m, Some(Filter(None, None, Some("")))) <==> |Split(k, '|')| > 2 && Split(k, '|')[2] == ""
  {
  }

  /** A key the parser wrote decodes to the question whose key it is. */
  lemma DecodeParsedKey(k: string, acts: set<Action>)
    requires ParsedEntry(k, acts)
    ensures var q := DecodeKey(k); KeyOf(q.scenario, q.hand) == k
    ensures var f := Split(k, '|'); DecodeKey(k).scenario.VsOpen? <==> f[0] == "vs_open"
  {
    var f := Split(k, '|');
    FieldsCompose(k);
    if f[0] == "vs_open" {
      assert f[2] in Positions;
      assert f[2] != "";
    }
  }

  /** A question drawn from a parsed table is graded against the very entry
      it was drawn from. */
  lemma DrawnQuestionGrade(m: AllowedMap, k: string, a: Action)
    requires WellFormedTable(m) && k in m
    ensures var q := DecodeKey(k);
      LookupOr(m, KeyOf(q.scenario, q.hand), {}) == m[k]
      && (a in LookupOr(m, KeyOf(q.scenario, q.hand), {}) <==> a in m[k])
  {
    DecodeParsedKey(k, m[k]);
  }

  /** Filtering a parsed table on kind "vs_open" and a hero draws only
      raise-facing questions for that hero. */
  lemma VsOpenFilterQuestion(m: AllowedMap, hero: string, k: string)
    requires WellFormedTable(m) && hero != ""
    requires k in Candidates(m, Some(Filter(Some("vs_open"), Some(hero), None)))
    ensures DecodeKey(k).scenario == VsOpen(hero, Split(k, '|')[2])
    ensures DecodeKey(k).scenario.opener in Positions
  {
    CandidateFields(m, Filter(Some("vs_open"), Some(hero), None), k);
    DecodeParsedKey(k, m[k]);
  }

  /** An unknown question grades every action incorrect. */
  lemma AbsentKeyAllWrong(m: AllowedMap, q: Question, a: Action)
    requires KeyOf(q.scenario, q.hand) !in m
    ensures a !in LookupOr(m, KeyOf(q.scenario, q.hand), {})
  {
  }

  /** A table holding only UTG's raise with AA: filtering on unopened pots
      for UTG leaves that one key, which decodes to UTG facing an unopened
      pot with AA, and grades raise correct and fold wrong. */
  lemma SingleEntryDraw(m: AllowedMap)
    requires m == map[KeyOf(Unopened("UTG"), "AA") := {Raise}]
    ensures var ks := Candidates(m, Some(Filter(Some("unopened"), Some("UTG"), None)));
      ks == m.Keys && forall k :: k in ks ==> DecodeKey(k) == Question(Unopened("UTG"), "AA")
    ensures var key := KeyOf(Unopened("UTG"), "AA");
      Raise in LookupOr(m, key, {}) && Fold !in LookupOr(m, key, {})
  {
    var key := KeyOf(Unopened("UTG"), "AA");
    assert '|' !in "UTG" && '|' !in "AA";
    KeyOfFields(Unopened("UTG"), "AA");
    assert Split(key, '|') == ["unopened", "UTG", "", "AA"];
    assert Matches(Some(Filter(Some("unopened"), Some("UTG"), None)), key);
  }
}
