/**
 * The fuzzy matching engine: every CRM record is reduced to a list of
 * searchable strings, each string is scored against the query with string
 * ratios and a phonetic boost, the record keeps its best score, and the
 * records at or above the threshold come back ordered by descending score.
 */
module FuzzyMatcher {
  import opened Text
  import opened JsonModel
  import opened Ranking

  /**
   * The external similarity libraries: rapidfuzz's token-set, partial and
   * plain ratios, and jellyfish's metaphone and soundex codes. A code of
   * None stands for an exception raised by the phonetic library.
   */
  datatype Similarity = Similarity(
    tokenSetRatio: (string, string) -> real,
    partialRatio: (string, string) -> real,
    ratio: (string, string) -> real,
    metaphone: string -> Option<string>,
    soundex: string -> Option<string>)

  /** rapidfuzz's ratios lie between 0 and 100. */
  ghost predicate RatiosBounded(sim: Similarity) {
    (forall a, b :: 0.0 <= sim.tokenSetRatio(a, b) <= 100.0)
    && (forall a, b :: 0.0 <= sim.partialRatio(a, b) <= 100.0)
    && (forall a, b :: 0.0 <= sim.ratio(a, b) <= 100.0)
  }

  /** FuzzyMatcher's default threshold. */
  const DefaultThreshold: real := 65.0
  /** The threshold the record filters (company, industry, stage, assignee) use. */
  const FilterThreshold: real := 70.0
  /** _fuzzy_compare's default threshold. */
  const CompareThreshold: real := 80.0
  /** A phonetic match boosts fuzzy scores from this value on. */
  const BoostFloor: real := 70.0
  const PhoneticBoost: real := 15.0

  function Max(a: real, b: real): real { if a >= b then a else b }
  function Min(a: real, b: real): real { if a <= b then a else b }

  /** A phonetic code that is present and not empty. */
  predicate SharedCode(c1: Option<string>, c2: Option<string>) {
    c1.Some? && c2.Some? && c1.value != "" && c1.value == c2.value
  }

  /**
   * _phonetic_similarity: equal non-empty metaphone codes, else equal
   * non-empty soundex codes; a library exception makes it false.
   */
  function PhoneticSimilarity(sim: Similarity, s1: string, s2: string): (r: bool)
    ensures r ==> SharedCode(sim.metaphone(s1), sim.metaphone(s2)) || SharedCode(sim.soundex(s1), sim.soundex(s2))
    ensures sim.metaphone(s1).None? || sim.metaphone(s2).None? ==> !r
    ensures SharedCode(sim.metaphone(s1), sim.metaphone(s2)) ==> r
  {
    var m1, m2 := sim.metaphone(s1), sim.metaphone(s2);
    if m1.None? || m2.None? then false
    else if SharedCode(m1, m2) then true
    else SharedCode(sim.soundex(s1), sim.soundex(s2))
  }

  lemma PhoneticSimilaritySymmetric(sim: Similarity, s1: string, s2: string)
    ensures PhoneticSimilarity(sim, s1, s2) == PhoneticSimilarity(sim, s2, s1)
  {
  }

  /** The best of the three string ratios. */
  function FuzzyBest(sim: Similarity, q: string, c: string): (r: real)
    ensures r >= sim.tokenSetRatio(q, c) && r >= sim.partialRatio(q, c) && r >= sim.ratio(q, c)
    ensures r == sim.tokenSetRatio(q, c) || r == sim.partialRatio(q, c) || r == sim.ratio(q, c)
  {
    Max(Max(sim.tokenSetRatio(q, c), sim.partialRatio(q, c)), sim.ratio(q, c))
  }

  /** The form _match_score compares: lowered, then stripped. */
  function Normalize(s: string): string { Strip(Lower(s)) }

  /**
   * _match_score: 100 for equal normalised strings, otherwise the best
   * ratio, raised by 15 (capped at 100) when the strings sound alike and the
   * best ratio is at least 70.
   */
  function MatchScore(sim: Similarity, query: string, candidate: string): (r: real)
    ensures Normalize(query) == Normalize(candidate) ==> r == 100.0
    ensures var q, c := Normalize(query), Normalize(candidate);
      q != c ==> r >= Min(100.0, FuzzyBest(sim, q, c))
    ensures var q, c := Normalize(query), Normalize(candidate);
      q != c && r != FuzzyBest(sim, q, c) ==> Boosted(sim, q, c) && r == Min(100.0, FuzzyBest(sim, q, c) + PhoneticBoost)
    ensures var q, c := Normalize(query), Normalize(candidate);
      q != c && Boosted(sim, q, c) ==> r == Min(100.0, FuzzyBest(sim, q, c) + PhoneticBoost)
    ensures var q, c := Normalize(query), Normalize(candidate);
      q != c && !Boosted(sim, q, c) ==> r == FuzzyBest(sim, q, c)
    ensures RatiosBounded(sim) ==> 0.0 <= r <= 100.0
  {
    var q, c := Normalize(query), Normalize(candidate);
    if q == c then 100.0
    else if Boosted(sim, q, c) then Min(100.0, FuzzyBest(sim, q, c) + PhoneticBoost)
    else FuzzyBest(sim, q, c)
  }

  /** The strings sound alike and their best ratio reaches the boost floor of 70. */
  predicate Boosted(sim: Similarity, q: string, c: string) {
    PhoneticSimilarity(sim, q, c) && FuzzyBest(sim, q, c) >= BoostFloor
  }

  /**
   * _fuzzy_compare: false when either side is empty, otherwise the
   * token-set ratio of the lowered (not stripped) strings against the threshold.
   */
  function FuzzyCompare(sim: Similarity, query: string, target: Json, threshold: real): (r: bool)
    ensures r ==> query != "" && target.JStr? && target.s != ""
    ensures query != "" && target.JStr? && target.s != "" ==>
      (r <==> sim.tokenSetRatio(Lower(query), Lower(target.s)) >= threshold)
  {
    if query == "" || !Truthy(target) || !target.JStr? then false
    else sim.tokenSetRatio(Lower(query), Lower(target.s)) >= threshold
  }

  // ---------------------------------------------------------------------
  // Searchable strings

  /** Every candidate is a non-empty string. */
  predicate NonEmptyTexts(r: seq<string>) {
    forall i :: 0 <= i < |r| ==> r[i] != ""
  }

  /** A truthy string value as a candidate; other values give none. */
  function TextOf(j: Json): (r: seq<string>)
    ensures |r| <= 1 && NonEmptyTexts(r)
  {
    if j.JStr? && j.s != "" then [j.s] else []
  }

  /** The truthy `key` values of the dictionaries of a truthy list, in list order. */
  function ListTexts(items: seq<Json>, key: string): (r: seq<string>)
    ensures NonEmptyTexts(r)
  {
    if items == [] then []
    else
      var head, rest := TextOf(Field(items[0], key)), ListTexts(items[1..], key);
      assert NonEmptyTexts(head + rest);
      head + rest
  }

  function ListField(rec: Json, field: string, key: string): (r: seq<string>)
    ensures NonEmptyTexts(r)
  {
    var v := Field(rec, field);
    if Truthy(v) && v.JList? then ListTexts(v.items, key) else []
  }

  /** A truthy dictionary field's own `key`. */
  function NestedText(rec: Json, field: string, key: string): (r: seq<string>)
    ensures NonEmptyTexts(r)
  {
    var v := Field(rec, field);
    if Truthy(v) then TextOf(Field(v, key)) else []
  }

  predicate HasName(rec: Json) {
    Field(rec, "name").JStr? && Field(rec, "name").s != ""
  }

  /** Two candidate lists, one after the other. */
  function Then(a: seq<string>, b: seq<string>): (r: seq<string>)
    requires NonEmptyTexts(a) && NonEmptyTexts(b)
    ensures NonEmptyTexts(r)
  {
    assert forall i :: |a| <= i < |a + b| ==> (a + b)[i] == b[i - |a|];
    a + b
  }

  /** The record's own name, when it is a non-empty string, followed by the other candidates. */
  function NameThen(rec: Json, rest: seq<string>): (r: seq<string>)
    requires NonEmptyTexts(rest)
    ensures NonEmptyTexts(r)
    ensures HasName(rec) ==> |r| > 0 && r[0] == Field(rec, "name").s
  {
    TextOf(Field(rec, "name")) + rest
  }

  /** _build_contact_searchable: name, "first last", emails, phone numbers, company name, title. */
  function ContactSearchable(contact: Json): (r: seq<string>)
    ensures NonEmptyTexts(r)
    ensures HasName(contact) ==> |r| > 0 && r[0] == Field(contact, "name").s
  {
    var first, last := Field(contact, "first_name"), Field(contact, "last_name");
    var fullName :=
      if Truthy(first) && Truthy(last) && first.JStr? && last.JStr? then [first.s + " " + last.s] else [];
    NameThen(contact, Then(fullName,
      Then(ListField(contact, "emails", "email"), Then(ListField(contact, "phone_numbers", "number"),
      Then(TextOf(Field(contact, "company_name")), TextOf(Field(contact, "title")))))))
  }

  /** _build_company_searchable: name, website, industry, address city and state. */
  function CompanySearchable(company: Json): (r: seq<string>)
    ensures NonEmptyTexts(r)
    ensures HasName(company) ==> |r| > 0 && r[0] == Field(company, "name").s
  {
    NameThen(company, Then(TextOf(Field(company, "website")), Then(TextOf(Field(company, "industry")),
      Then(NestedText(company, "address", "city"), NestedText(company, "address", "state")))))
  }

  /** _build_opportunity_searchable: name, company name, contact name, status, stage. */
  function OpportunitySearchable(opp: Json): (r: seq<string>)
    ensures NonEmptyTexts(r)
    ensures HasName(opp) ==> |r| > 0 && r[0] == Field(opp, "name").s
  {
    NameThen(opp, Then(TextOf(Field(opp, "company_name")), Then(TextOf(Field(opp, "contact_name")),
      Then(TextOf(Field(opp, "status")), TextOf(Field(opp, "stage"))))))
  }

  /**
   * _build_task_searchable: name, details, assignee (the assignee dictionary's
   * name only when there is no assignee_name), related record's name, status, priority.
   */
  function TaskSearchable(task: Json): (r: seq<string>)
    ensures NonEmptyTexts(r)
    ensures HasName(task) ==> |r| > 0 && r[0] == Field(task, "name").s
  {
    var assigneeName := Field(task, "assignee_name");
    var assignee := Field(task, "assignee");
    var assigneeText :=
      if Truthy(assigneeName) then TextOf(assigneeName)
      else if Truthy(assignee) && assignee.JObj? then TextOf(Field(assignee, "name"))
      else [];
    NameThen(task, Then(TextOf(Field(task, "details")), Then(assigneeText,
      Then(NestedText(task, "related_resource", "name"),
      Then(TextOf(Field(task, "status")), TextOf(Field(task, "priority")))))))
  }

  datatype RecordKind = ContactRecord | CompanyRecord | OpportunityRecord | TaskRecord

  function Searchable(kind: RecordKind, rec: Json): seq<string> {
    match kind
    case ContactRecord => ContactSearchable(rec)
    case CompanyRecord => CompanySearchable(rec)
    case OpportunityRecord => OpportunitySearchable(rec)
    case TaskRecord => TaskSearchable(rec)
  }

  /** The value each kind's optional filter is compared with. */
  function FilterTarget(kind: RecordKind, rec: Json): Json {
    match kind
    case ContactRecord => FieldOr(rec, "company_name", JStr(""))
    case CompanyRecord => FieldOr(rec, "industry", JStr(""))
    case OpportunityRecord => Or(FieldOr(rec, "status", JStr("")), FieldOr(rec, "stage", JStr("")))
    case TaskRecord =>
      Or(FieldOr(rec, "assignee_name", JStr("")), FieldOr(FieldOr(rec, "assignee", JObj([])), "name", JStr("")))
  }

  /**
   * The opportunity filter compares with the status when it is set and with
   * the stage otherwise; a task filter with assignee_name when it is set and
   * with the assignee's name otherwise.
   */
  lemma FilterTargetChoice(rec: Json)
    ensures Truthy(Field(rec, "status")) ==> FilterTarget(OpportunityRecord, rec) == Field(rec, "status")
    ensures !Truthy(Field(rec, "status")) ==> FilterTarget(OpportunityRecord, rec) == FieldOr(rec, "stage", JStr(""))
    ensures Truthy(Field(rec, "assignee_name")) ==> FilterTarget(TaskRecord, rec) == Field(rec, "assignee_name")
    ensures !Truthy(Field(rec, "assignee_name")) ==>
      FilterTarget(TaskRecord, rec) == FieldOr(FieldOr(rec, "assignee", JObj([])), "name", JStr(""))
  {
  }

  // ---------------------------------------------------------------------
  // Best score over the candidates

  /** One step of _calculate_best_score's loop: empty candidates are skipped. */
  function ScoreStep(score: string -> real, best: real, candidate: string): real {
    if candidate == "" then best else Max(best, score(candidate))
  }

  /** The loop's result for any scoring function, folded over the candidates in order. */
  function BestOf(score: string -> real, candidates: seq<string>): real
    decreases |candidates|
  {
    if candidates == [] then 0.0
    else ScoreStep(score, BestOf(score, candidates[..|candidates| - 1]), candidates[|candidates| - 1])
  }

  lemma {:induction false} BestOfIsMaximum(score: string -> real, candidates: seq<string>)
    ensures BestOf(score, candidates) >= 0.0
    ensures forall i :: 0 <= i < |candidates| && candidates[i] != "" ==> BestOf(score, candidates) >= score(candidates[i])
    ensures BestOf(score, candidates) == 0.0
      || exists i :: 0 <= i < |candidates| && candidates[i] != "" && BestOf(score, candidates) == score(candidates[i])
    decreases |candidates|
  {
    if candidates != [] {
      var init := candidates[..|candidates| - 1];
      BestOfIsMaximum(score, init);
      var b := BestOf(score, init);
      if b != 0.0 {
        var i :| 0 <= i < |init| && init[i] != "" && b == score(init[i]);
        assert candidates[i] == init[i];
      }
      forall i | 0 <= i < |candidates| - 1 && candidates[i] != ""
        ensures BestOf(score, candidates) >= score(candidates[i])
      {
        assert candidates[i] == init[i];
      }
    }
  }

  /** The value _calculate_best_score returns. */
  function BestScore(sim: Similarity, query: string, candidates: seq<string>): real {
    BestOf(c => MatchScore(sim, query, c), candidates)
  }

  /**
   * The best score is the largest score of a non-empty candidate, and 0 when
   * there is none (or when every score is negative).
   */
  lemma BestScoreIsMaximum(sim: Similarity, query: string, candidates: seq<string>)
    ensures BestScore(sim, query, candidates) >= 0.0
    ensures forall i :: 0 <= i < |candidates| && candidates[i] != "" ==>
      BestScore(sim, query, candidates) >= MatchScore(sim, query, candidates[i])
    ensures BestScore(sim, query, candidates) == 0.0
      || exists i :: 0 <= i < |candidates| && candidates[i] != ""
                      && BestScore(sim, query, candidates) == MatchScore(sim, query, candidates[i])
  {
    BestOfIsMaximum(c => MatchScore(sim, query, c), candidates);
  }

  lemma BestScoreStep(sim: Similarity, query: string, candidates: seq<string>, i: nat)
    requires i < |candidates|
    ensures BestScore(sim, query, candidates[..i + 1]) ==
      if candidates[i] == "" then BestScore(sim, query, candidates[..i])
      else Max(BestScore(sim, query, candidates[..i]), MatchScore(sim, query, candidates[i]))
  {
    assert candidates[..i + 1][..i] == candidates[..i];
  }

  /** The best score of a record against the query. */
  function RecordScore(sim: Similarity, kind: RecordKind, query: string, rec: Json): real {
    BestScore(sim, query, Searchable(kind, rec))
  }

  lemma RecordScoreBounded(sim: Similarity, kind: RecordKind, query: string, rec: Json)
    requires RatiosBounded(sim)
    ensures 0.0 <= RecordScore(sim, kind, query, rec) <= 100.0
  {
    var cs := Searchable(kind, rec);
    BestScoreIsMaximum(sim, query, cs);
    if RecordScore(sim, kind, query, rec) != 0.0 {
      var i :| 0 <= i < |cs| && cs[i] != "" && BestScore(sim, query, cs) == MatchScore(sim, query, cs[i]);
    }
  }

  /** _calculate_best_score. */
  method CalculateBestScore(sim: Similarity, query: string, candidates: seq<string>) returns (best: real)
    ensures best == BestScore(sim, query, candidates)
    ensures best >= 0.0
    ensures forall i :: 0 <= i < |candidates| && candidates[i] != "" ==> best >= MatchScore(sim, query, candidates[i])
    ensures RatiosBounded(sim) ==> best <= 100.0
  {
    if |candidates| == 0 {
      return 0.0;
    }
    best := 0.0;
    var i := 0;
    while i < |candidates|
      invariant 0 <= i <= |candidates|
      invariant best == BestScore(sim, query, candidates[..i])
    {
      BestScoreStep(sim, query, candidates, i);
      if candidates[i] != "" {
        var score := MatchScore(sim, query, candidates[i]);
        best := Max(best, score);
      }
      i := i + 1;
    }
    assert candidates[..i] == candidates;
    BestScoreIsMaximum(sim, query, candidates);
    if RatiosBounded(sim) && best != 0.0 {
      var k :| 0 <= k < |candidates| && candidates[k] != "" && best == MatchScore(sim, query, candidates[k]);
    }
  }

  // ---------------------------------------------------------------------
  // Matching a collection

  /** A record passes when no filter is given or its filter target compares with it at 70. */
  predicate PassesFilter(sim: Similarity, kind: RecordKind, filter: string, rec: Json) {
    filter == "" || FuzzyCompare(sim, filter, FilterTarget(kind, rec), FilterThreshold)
  }

  /** A record that passes the filter and scores at least the threshold. */
  predicate Admitted(sim: Similarity, kind: RecordKind, query: string, filter: string, threshold: real, rec: Json) {
    PassesFilter(sim, kind, filter, rec) && RecordScore(sim, kind, query, rec) >= threshold
  }

  /** The records `keep` accepts, each with its score, in input order. */
  function Kept<T>(xs: seq<T>, keep: T -> bool, score: T -> real): seq<Scored<T>>
    decreases |xs|
  {
    if xs == [] then []
    else
      var last := xs[|xs| - 1];
      Kept(xs[..|xs| - 1], keep, score) + (if keep(last) then [Scored(last, score(last))] else [])
  }

  lemma {:induction false} KeptMembers<T>(xs: seq<T>, keep: T -> bool, score: T -> real)
    ensures |Kept(xs, keep, score)| <= |xs|
    ensures forall x :: x in Kept(xs, keep, score) <==> x.item in xs && keep(x.item) && x.score == score(x.item)
    decreases |xs|
  {
    if xs != [] {
      var init, last := xs[..|xs| - 1], xs[|xs| - 1];
      KeptMembers(init, keep, score);
      assert xs == init + [last];
    }
  }

  lemma KeptStep<T>(xs: seq<T>, keep: T -> bool, score: T -> real, i: nat)
    requires i < |xs|
    ensures Kept(xs[..i + 1], keep, score)
         == Kept(xs[..i], keep, score) + (if keep(xs[i]) then [Scored(xs[i], score(xs[i]))] else [])
  {
    assert xs[..i + 1][..i] == xs[..i];
  }

  /** The admitted records with their scores, in input order (the list before sorting). */
  function Admissions(sim: Similarity, kind: RecordKind, query: string, records: seq<Json>, filter: string, threshold: real)
    : seq<Scored<Json>>
  {
    Kept(records, rec => Admitted(sim, kind, query, filter, threshold, rec), rec => RecordScore(sim, kind, query, rec))
  }

  /** An entry is admitted exactly when its record is an input record that passes, with that record's score. */
  lemma AdmissionsMembers(sim: Similarity, kind: RecordKind, query: string, records: seq<Json>,
                          filter: string, threshold: real)
    ensures |Admissions(sim, kind, query, records, filter, threshold)| <= |records|
    ensures forall x :: x in Admissions(sim, kind, query, records, filter, threshold) <==>
      x.item in records && Admitted(sim, kind, query, filter, threshold, x.item)
      && x.score == RecordScore(sim, kind, query, x.item)
  {
    KeptMembers(records, rec => Admitted(sim, kind, query, filter, threshold, rec), rec => RecordScore(sim, kind, query, rec));
  }

  lemma AdmissionsStep(sim: Similarity, kind: RecordKind, query: string, records: seq<Json>,
                       filter: string, threshold: real, i: nat)
    requires i < |records|
    ensures Admissions(sim, kind, query, records[..i + 1], filter, threshold)
         == Admissions(sim, kind, query, records[..i], filter, threshold)
            + (if Admitted(sim, kind, query, filter, threshold, records[i])
               then [Scored(records[i], RecordScore(sim, kind, query, records[i]))] else [])
  {
    KeptStep(records, rec => Admitted(sim, kind, query, filter, threshold, rec), rec => RecordScore(sim, kind, query, rec), i);
  }

  /** What sorting the admitted entries gives: the ranked list the match methods return. */
  lemma RankedAdmissions(sim: Similarity, kind: RecordKind, query: string, records: seq<Json>,
                         filter: string, threshold: real)
    ensures SortedDesc(SortDesc(Admissions(sim, kind, query, records, filter, threshold)))
    ensures |SortDesc(Admissions(sim, kind, query, records, filter, threshold))| <= |records|
    ensures forall x :: x in SortDesc(Admissions(sim, kind, query, records, filter, threshold)) <==>
      x.item in records && Admitted(sim, kind, query, filter, threshold, x.item)
      && x.score == RecordScore(sim, kind, query, x.item)
  {
    var admitted := Admissions(sim, kind, query, records, filter, threshold);
    SortDescProperties(admitted);
    SortDescMembers(admitted);
    AdmissionsMembers(sim, kind, query, records, filter, threshold);
  }

  /** One pass of the match loop: skip a record the filter rejects, else score it and keep it at the threshold. */
  method AdmitRecord(sim: Similarity, kind: RecordKind, query: string, rec: Json, filter: string, threshold: real)
    returns (entry: seq<Scored<Json>>)
    ensures entry == if Admitted(sim, kind, query, filter, threshold, rec)
      then [Scored(rec, RecordScore(sim, kind, query, rec))] else []
  {
    if filter != "" && !FuzzyCompare(sim, filter, FilterTarget(kind, rec), FilterThreshold) {
      assert !PassesFilter(sim, kind, filter, rec);
      return [];
    }
    assert PassesFilter(sim, kind, filter, rec);
    var score := CalculateBestScore(sim, query, Searchable(kind, rec));
    assert score == RecordScore(sim, kind, query, rec);
    if score >= threshold {
      return [Scored(rec, score)];
    }
    return [];
  }

  /** The four match_* methods: filter, score, keep the admitted records, sort by descending score. */
  method MatchRecords(sim: Similarity, kind: RecordKind, query: string, records: seq<Json>, filter: string, threshold: real)
    returns (results: seq<Scored<Json>>)
    ensures results == SortDesc(Admissions(sim, kind, query, records, filter, threshold))
    ensures SortedDesc(results) && |results| <= |records|
    ensures forall x :: x in results <==>
      x.item in records && Admitted(sim, kind, query, filter, threshold, x.item)
      && x.score == RecordScore(sim, kind, query, x.item)
    ensures forall v :: WithScore(results, v) == WithScore(Admissions(sim, kind, query, records, filter, threshold), v)
  {
    var admitted := [];
    var i := 0;
    while i < |records|
      invariant 0 <= i <= |records|
      invariant admitted == Admissions(sim, kind, query, records[..i], filter, threshold)
    {
      AdmissionsStep(sim, kind, query, records, filter, threshold, i);
      var entry := AdmitRecord(sim, kind, query, records[i], filter, threshold);
      admitted := admitted + entry;
      i := i + 1;
    }
    assert records[..i] == records;
    results := SortDesc(admitted);
    SortDescProperties(admitted);
    RankedAdmissions(sim, kind, query, records, filter, threshold);
  }

  /** match_contacts, with the company-name filter. */
  method MatchContacts(sim: Similarity, query: string, contacts: seq<Json>, companyFilter: string, threshold: real)
    returns (results: seq<Scored<Json>>)
    ensures results == SortDesc(Admissions(sim, ContactRecord, query, contacts, companyFilter, threshold))
    ensures forall v :: WithScore(results, v) == WithScore(Admissions(sim, ContactRecord, query, contacts, companyFilter, threshold), v)
    ensures SortedDesc(results)
    ensures forall x :: x in results <==>
      x.item in contacts && Admitted(sim, ContactRecord, query, companyFilter, threshold, x.item)
      && x.score == RecordScore(sim, ContactRecord, query, x.item)
  {
    results := MatchRecords(sim, ContactRecord, query, contacts, companyFilter, threshold);
  }

  /** match_companies, with the industry filter. */
  method MatchCompanies(sim: Similarity, query: string, companies: seq<Json>, industryFilter: string, threshold: real)
    returns (results: seq<Scored<Json>>)
    ensures results == SortDesc(Admissions(sim, CompanyRecord, query, companies, industryFilter, threshold))
    ensures forall v :: WithScore(results, v) == WithScore(Admissions(sim, CompanyRecord, query, companies, industryFilter, threshold), v)
    ensures SortedDesc(results)
    ensures forall x :: x in results <==>
      x.item in companies && Admitted(sim, CompanyRecord, query, industryFilter, threshold, x.item)
      && x.score == RecordScore(sim, CompanyRecord, query, x.item)
  {
    results := MatchRecords(sim, CompanyRecord, query, companies, industryFilter, threshold);
  }

  /** match_opportunities, with the status-or-stage filter. */
  method MatchOpportunities(sim: Similarity, query: string, opportunities: seq<Json>, stageFilter: string, threshold: real)
    returns (results: seq<Scored<Json>>)
    ensures results == SortDesc(Admissions(sim, OpportunityRecord, query, opportunities, stageFilter, threshold))
    ensures forall v :: WithScore(results, v) == WithScore(Admissions(sim, OpportunityRecord, query, opportunities, stageFilter, threshold), v)
    ensures SortedDesc(results)
    ensures forall x :: x in results <==>
      x.item in opportunities && Admitted(sim, OpportunityRecord, query, stageFilter, threshold, x.item)
      && x.score == RecordScore(sim, OpportunityRecord, query, x.item)
  {
    results := MatchRecords(sim, OpportunityRecord, query, opportunities, stageFilter, threshold);
  }

  /** match_tasks, with the assignee filter. */
  method MatchTasks(sim: Similarity, query: string, tasks: seq<Json>, assigneeFilter: string, threshold: real)
    returns (results: seq<Scored<Json>>)
    ensures results == SortDesc(Admissions(sim, TaskRecord, query, tasks, assigneeFilter, threshold))
    ensures forall v :: WithScore(results, v) == WithScore(Admissions(sim, TaskRecord, query, tasks, assigneeFilter, threshold), v)
    ensures SortedDesc(results)
    ensures forall x :: x in results <==>
      x.item in tasks && Admitted(sim, TaskRecord, query, assigneeFilter, threshold, x.item)
      && x.score == RecordScore(sim, TaskRecord, query, x.item)
  {
    results := MatchRecords(sim, TaskRecord, query, tasks, assigneeFilter, threshold);
  }

  // ---------------------------------------------------------------------
  // Using a ranked list

  /** get_top_matches: the slice results[:top_n], with Python's meaning of a negative bound. */
  function TopMatches<T>(results: seq<Scored<T>>, topN: int): (r: seq<Scored<T>>)
    ensures |r| <= |results| && r == results[..|r|]
    ensures topN >= 0 ==> |r| == if topN < |results| then topN else |results|
    ensures topN < 0 ==> |r| == if |results| + topN > 0 then |results| + topN else 0
    ensures SortedDesc(results) ==>
      forall i, j :: 0 <= i < |r| <= j < |results| ==> r[i].score >= results[j].score
  {
    var n := if topN >= 0 then (if topN < |results| then topN else |results|)
             else (if |results| + topN > 0 then |results| + topN else 0);
    results[..n]
  }

  /** How many entries lie within `delta` of the score `top`. */
  function CountClose<T>(results: seq<Scored<T>>, top: real, delta: real): (n: nat)
    ensures n <= |results|
  {
    if results == [] then 0
    else (if top - results[0].score <= delta then 1 else 0) + CountClose(results[1..], top, delta)
  }

  /**
   * has_multiple_close_matches: at least two entries (the first one
   * included) lie within `delta` of the first entry's score.
   */
  function HasMultipleCloseMatches<T>(results: seq<Scored<T>>, delta: real): bool {
    |results| >= 2 && CountClose(results, results[0].score, delta) >= 2
  }

  lemma {:induction false} CountClosePositive<T>(results: seq<Scored<T>>, top: real, delta: real)
    ensures CountClose(results, top, delta) > 0 <==>
      exists j :: 0 <= j < |results| && top - results[j].score <= delta
    decreases |results|
  {
    if results != [] {
      CountClosePositive(results[1..], top, delta);
      if CountClose(results[1..], top, delta) > 0 {
        var j :| 0 <= j < |results[1..]| && top - results[1..][j].score <= delta;
        assert results[j + 1] == results[1..][j];
      }
      forall j | 1 <= j < |results| && top - results[j].score <= delta
        ensures CountClose(results[1..], top, delta) > 0
      {
        assert results[1..][j - 1] == results[j];
      }
    }
  }

  /** With a non-negative delta: ambiguous exactly when some later entry lies within delta of the first. */
  lemma CloseMatchesWitness<T>(results: seq<Scored<T>>, delta: real)
    requires delta >= 0.0
    ensures HasMultipleCloseMatches(results, delta) <==>
      |results| >= 2 && exists j :: 1 <= j < |results| && results[0].score - results[j].score <= delta
  {
    if |results| >= 2 {
      var top := results[0].score;
      CountClosePositive(results[1..], top, delta);
      assert CountClose(results, top, delta) == 1 + CountClose(results[1..], top, delta);
      if CountClose(results[1..], top, delta) > 0 {
        var j :| 0 <= j < |results[1..]| && top - results[1..][j].score <= delta;
        assert results[j + 1] == results[1..][j];
      }
      forall j | 1 <= j < |results| && top - results[j].score <= delta
        ensures CountClose(results[1..], top, delta) > 0
      {
        assert results[1..][j - 1] == results[j];
      }
    }
  }

  /** On a list sorted by descending score, only the runner-up decides. */
  lemma CloseMatchesSorted<T>(results: seq<Scored<T>>, delta: real)
    requires delta >= 0.0 && SortedDesc(results)
    ensures HasMultipleCloseMatches(results, delta) <==>
      |results| >= 2 && results[0].score - results[1].score <= delta
  {
    CloseMatchesWitness(results, delta);
  }

  /** Scores 90, 85, 40 with the default delta of 10 are ambiguous; 90, 70 are not. */
  lemma CloseMatchesExamples(a: Json, b: Json, c: Json)
    ensures HasMultipleCloseMatches([Scored(a, 90.0), Scored(b, 85.0), Scored(c, 40.0)], 10.0)
    ensures !HasMultipleCloseMatches([Scored(a, 90.0), Scored(b, 70.0)], 10.0)
  {
    CloseMatchesSorted([Scored(a, 90.0), Scored(b, 85.0), Scored(c, 40.0)], 10.0);
    CloseMatchesSorted([Scored(a, 90.0), Scored(b, 70.0)], 10.0);
  }
}
