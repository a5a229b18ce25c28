/**
 * The business-intelligence pipeline: a natural-language question is
 * analysed (intent, entity type, entity name, related data to include), the
 * entity name is fuzzy-matched across the CRM collections the entity type
 * calls for, an ambiguous result is handed back for confirmation, and a clear
 * best match is enriched with its related records.
 */
module BusinessIntelligence {
  import opened Text
  import opened JsonModel
  import opened Ranking
  import opened FuzzyMatcher

  /** The analysis of a question; None stands for a missing or null value. */
  datatype QueryAnalysis = QueryAnalysis(
    intent: string,
    entityType: Option<string>,
    entityName: Option<string>,
    includes: seq<string>)

  const StopWords: set<string> := {
    "what", "what's", "tell", "me", "about", "can", "you", "show",
    "the", "status", "of", "information", "on", "for", "is", "are",
    "who", "where", "when", "how", "with", "at", "in", "a", "an"
  }

  /** The punctuation stripped from both ends of each word. */
  const Punctuation: set<char> := {'?', '!', '.', ',', ';', ':'}

  const DefaultInclude: seq<string> := ["contacts", "opportunities", "leads", "tasks"]

  /** The intent of a lowered question: status, then contacts, then deals, else all. */
  function BasicIntent(q: string): (r: string)
    ensures r == "status" <==> MentionsAny(q, ["status", "update"])
    ensures r == "contacts" <==> !MentionsAny(q, ["status", "update"]) && MentionsAny(q, ["contact", "who", "people"])
    ensures r == "deals" <==>
      !MentionsAny(q, ["status", "update"]) && !MentionsAny(q, ["contact", "who", "people"])
      && MentionsAny(q, ["deal", "opportunity", "pipeline"])
    ensures r == "all" <==>
      !MentionsAny(q, ["status", "update"]) && !MentionsAny(q, ["contact", "who", "people"])
      && !MentionsAny(q, ["deal", "opportunity", "pipeline"])
  {
    if MentionsAny(q, ["status", "update"]) then "status"
    else if MentionsAny(q, ["contact", "who", "people"]) then "contacts"
    else if MentionsAny(q, ["deal", "opportunity", "pipeline"]) then "deals"
    else "all"
  }

  /** The entity type of a lowered question: person, then opportunity, else company. */
  function BasicEntityType(q: string): (r: string)
    ensures r == "person" <==> MentionsAny(q, ["person", "contact", "someone", "who is"])
    ensures r == "opportunity" <==>
      !MentionsAny(q, ["person", "contact", "someone", "who is"]) && MentionsAny(q, ["deal", "opportunity"])
    ensures r == "company" <==>
      !MentionsAny(q, ["person", "contact", "someone", "who is"]) && !MentionsAny(q, ["deal", "opportunity"])
  {
    if MentionsAny(q, ["person", "contact", "someone", "who is"]) then "person"
    else if MentionsAny(q, ["deal", "opportunity"]) then "opportunity"
    else "company"
  }

  /** The word with the punctuation stripped from its ends. */
  function CleanWord(w: string): (r: string)
    ensures r == [] || (r[0] !in Punctuation && r[|r| - 1] !in Punctuation)
  {
    StripChars(w, Punctuation)
  }

  predicate IsStopWord(clean: string, stop: set<string>) { Lower(clean) in stop }

  /** The cleaned words that are not stop words, in order (an empty cleaned word is kept). */
  function KeptWords(words: seq<string>, stop: set<string>): seq<string>
    decreases |words|
  {
    if words == [] then []
    else
      var clean := CleanWord(words[|words| - 1]);
      KeptWords(words[..|words| - 1], stop) + (if IsStopWord(clean, stop) then [] else [clean])
  }

  /** Every kept word is a cleaned input word that is not a stop word. */
  lemma {:induction false} KeptWordsSound(words: seq<string>, stop: set<string>)
    ensures |KeptWords(words, stop)| <= |words|
    ensures forall w :: w in KeptWords(words, stop) ==>
      !IsStopWord(w, stop) && exists i :: 0 <= i < |words| && CleanWord(words[i]) == w
    decreases |words|
  {
    if words != [] {
      var init := words[..|words| - 1];
      var clean := CleanWord(words[|words| - 1]);
      KeptWordsSound(init, stop);
      var kept := KeptWords(words, stop);
      assert kept == KeptWords(init, stop) + (if IsStopWord(clean, stop) then [] else [clean]);
      forall w | w in kept
        ensures !IsStopWord(w, stop) && exists i :: 0 <= i < |words| && CleanWord(words[i]) == w
      {
        if w in KeptWords(init, stop) {
          var i :| 0 <= i < |init| && CleanWord(init[i]) == w;
          assert words[i] == init[i];
        } else {
          assert CleanWord(words[|words| - 1]) == w;
        }
      }
    }
  }

  /** Every input word whose cleaned form is not a stop word is kept. */
  lemma {:induction false} KeptWordsComplete(words: seq<string>, stop: set<string>)
    ensures forall i :: 0 <= i < |words| && !IsStopWord(CleanWord(words[i]), stop) ==>
      CleanWord(words[i]) in KeptWords(words, stop)
    decreases |words|
  {
    if words != [] {
      var init := words[..|words| - 1];
      var clean := CleanWord(words[|words| - 1]);
      KeptWordsComplete(init, stop);
      var kept := KeptWords(words, stop);
      assert kept == KeptWords(init, stop) + (if IsStopWord(clean, stop) then [] else [clean]);
      forall i | 0 <= i < |words| - 1 && !IsStopWord(CleanWord(words[i]), stop)
        ensures CleanWord(words[i]) in kept
      {
        assert words[i] == init[i];
      }
    }
  }

  /** No word is kept exactly when every cleaned word is a stop word. */
  lemma KeptWordsEmpty(words: seq<string>, stop: set<string>)
    ensures KeptWords(words, stop) == [] <==> forall i :: 0 <= i < |words| ==> IsStopWord(CleanWord(words[i]), stop)
  {
    KeptWordsSound(words, stop);
    KeptWordsComplete(words, stop);
    if KeptWords(words, stop) == [] {
    } else {
      var w := KeptWords(words, stop)[0];
      assert w in KeptWords(words, stop);
      var i :| 0 <= i < |words| && CleanWord(words[i]) == w;
    }
  }

  /** The name is the kept words joined by spaces, or None when no word is kept. */
  function EntityName(kept: seq<string>): Option<string> {
    if kept == [] then None else Some(JoinWith(kept, " "))
  }

  /** _basic_query_analysis as a value. */
  function BasicAnalysis(query: string): QueryAnalysis {
    var q := Lower(query);
    QueryAnalysis(BasicIntent(q), Some(BasicEntityType(q)), EntityName(KeptWords(SplitWs(query), StopWords)), DefaultInclude)
  }

  lemma KeptWordsSnoc(words: seq<string>, stop: set<string>, i: nat)
    requires i < |words|
    ensures KeptWords(words[..i + 1], stop) ==
      KeptWords(words[..i], stop) + (if IsStopWord(CleanWord(words[i]), stop) then [] else [CleanWord(words[i])])
  {
    assert words[..i + 1][..i] == words[..i];
  }

  /** The word-cleaning loop of _basic_query_analysis. */
  method KeepNonStopWords(words: seq<string>, stop: set<string>) returns (cleaned: seq<string>)
    ensures cleaned == KeptWords(words, stop)
    ensures cleaned == [] <==> forall i :: 0 <= i < |words| ==> IsStopWord(CleanWord(words[i]), stop)
  {
    cleaned := [];
    var i := 0;
    while i < |words|
      invariant 0 <= i <= |words|
      invariant cleaned == KeptWords(words[..i], stop)
    {
      var clean := CleanWord(words[i]);
      KeptWordsSnoc(words, stop, i);
      if !IsStopWord(clean, stop) {
        cleaned := cleaned + [clean];
      }
      i := i + 1;
    }
    assert cleaned == KeptWords(words, stop) by {
      assert words[..i] == words;
    }
    assert cleaned == [] <==> forall i :: 0 <= i < |words| ==> IsStopWord(CleanWord(words[i]), stop) by {
      KeptWordsEmpty(words, stop);
    }
  }

  /** _basic_query_analysis. */
  method BasicQueryAnalysis(query: string) returns (a: QueryAnalysis)
    ensures a == BasicAnalysis(query)
    ensures a.includes == DefaultInclude && a.entityType.Some?
  {
    var q := Lower(query);
    var cleaned := KeepNonStopWords(SplitWs(query), StopWords);
    a := QueryAnalysis(BasicIntent(q), Some(BasicEntityType(q)), EntityName(cleaned), DefaultInclude);
  }

  /** analyze_query: the basic analysis unless the language-model proxy is in use and answers. */
  function Analysis(query: string, useClaude: bool, llm: Fetch<QueryAnalysis>): QueryAnalysis {
    if !useClaude then BasicAnalysis(query)
    else match llm
      case Raised => BasicAnalysis(query)
      case Returned(a) => a
  }

  /** analyze_query; the proxy's parsed reply (or the exception it raised) is an input. */
  method AnalyzeQuery(query: string, useClaude: bool, llm: Fetch<QueryAnalysis>) returns (a: QueryAnalysis)
    ensures a == Analysis(query, useClaude, llm)
    ensures !useClaude || llm.Raised? ==> a.includes == DefaultInclude && a.entityType.Some?
  {
    if !useClaude || llm.Raised? {
      a := BasicQueryAnalysis(query);
    } else {
      a := llm.value;
    }
  }

  // ---------------------------------------------------------------------
  // Finding the primary entity

  /** The collection a match came from. */
  datatype Source = CompanyHit | PersonHit | OpportunityHit | LeadHit | TaskHit

  datatype Hit = Hit(record: Json, source: Source)

  /** One collection to scan: what to fetch, how to match it, how to tag the matches. */
  datatype Scan = Scan(collection: Collection, kind: RecordKind, source: Source)

  /** The collections scanned for each entity type, in scanning order. */
  function ScanPlan(entityType: Option<string>): (plan: seq<Scan>)
    ensures 1 <= |plan| <= 4
    ensures entityType == Some("task") <==> plan == [Scan(Tasks, TaskRecord, TaskHit)]
  {
    if entityType == Some("company") then
      [Scan(Companies, CompanyRecord, CompanyHit), Scan(Leads, CompanyRecord, LeadHit),
       Scan(Opportunities, OpportunityRecord, OpportunityHit)]
    else if entityType == Some("person") then
      [Scan(People, ContactRecord, PersonHit), Scan(Leads, ContactRecord, LeadHit),
       Scan(Opportunities, OpportunityRecord, OpportunityHit)]
    else if entityType == Some("opportunity") then
      [Scan(Opportunities, OpportunityRecord, OpportunityHit), Scan(Companies, CompanyRecord, CompanyHit),
       Scan(Leads, CompanyRecord, LeadHit)]
    else if entityType == Some("task") then
      [Scan(Tasks, TaskRecord, TaskHit)]
    else
      [Scan(Companies, CompanyRecord, CompanyHit), Scan(People, ContactRecord, PersonHit),
       Scan(Opportunities, OpportunityRecord, OpportunityHit), Scan(Leads, CompanyRecord, LeadHit)]
  }

  /** The source whose matches get the +5 boost. */
  function FavouredSource(entityType: Option<string>): Option<Source> {
    if entityType == Some("company") then Some(CompanyHit)
    else if entityType == Some("person") then Some(PersonHit)
    else if entityType == Some("opportunity") then Some(OpportunityHit)
    else None
  }

  function Tag(ms: seq<Scored<Json>>, source: Source): (r: seq<Scored<Hit>>)
    ensures |r| == |ms|
    ensures forall i :: 0 <= i < |ms| ==> r[i] == Scored(Hit(ms[i].item, source), ms[i].score)
  {
    if ms == [] then [] else [Scored(Hit(ms[0].item, source), ms[0].score)] + Tag(ms[1..], source)
  }

  /** The matches one scanned collection contributes, ranked as match_* ranks them. */
  function ScanMatches(sim: Similarity, threshold: real, name: string, scan: Scan, records: seq<Json>): seq<Scored<Hit>> {
    Tag(SortDesc(Admissions(sim, scan.kind, name, records, "", threshold)), scan.source)
  }

  /** The tagged matches found so far and the number of records searched. */
  datatype Scanned = Scanned(hits: seq<Scored<Hit>>, searched: nat)

  /** The fan-out after one more collection: its matches are appended and its records counted. */
  function CollectNext(prev: Fetch<Scanned>, crm: Crm, sim: Similarity, threshold: real, name: string,
                       scan: Scan): Fetch<Scanned>
  {
    match prev
    case Raised => Raised
    case Returned(acc) =>
      match crm.search(scan.collection, [])
      case Raised => Raised
      case Returned(records) =>
        Returned(Scanned(acc.hits + ScanMatches(sim, threshold, name, scan, records), acc.searched + |records|))
  }

  /**
   * The tagged matches of the scanned collections, concatenated in scanning
   * order, with the number of records searched; Raised when a fetch raises.
   */
  function Collect(crm: Crm, sim: Similarity, threshold: real, name: string, plan: seq<Scan>)
    : Fetch<Scanned>
    decreases |plan|
  {
    if plan == [] then Returned(Scanned([], 0))
    else CollectNext(Collect(crm, sim, threshold, name, plan[..|plan| - 1]), crm, sim, threshold, name, plan[|plan| - 1])
  }

  /** The +5 boost of the favoured source, capped at 100. */
  function Boosted(h: Scored<Hit>, favoured: Option<Source>): real {
    if favoured == Some(h.item.source) then Min(100.0, h.score + 5.0) else h.score
  }

  /** The sorted hits as (record, score) pairs, with the favoured source boosted. */
  function BoostAll(sorted: seq<Scored<Hit>>, favoured: Option<Source>): (r: seq<Scored<Json>>)
    ensures |r| == |sorted|
    ensures forall i :: 0 <= i < |r| ==> r[i] == Scored(sorted[i].item.record, Boosted(sorted[i], favoured))
  {
    seq(|sorted|, i requires 0 <= i < |sorted| => Scored(sorted[i].item.record, Boosted(sorted[i], favoured)))
  }

  /** The ranked list gather_intelligence builds: sorted by raw score, then boosted. */
  function RankedMatches(hits: seq<Scored<Hit>>, favoured: Option<Source>): (r: seq<Scored<Json>>)
    ensures |r| == |hits|
    ensures forall i :: 0 <= i < |r| ==>
      r[i] == Scored(SortDesc(hits)[i].item.record, Boosted(SortDesc(hits)[i], favoured))
  {
    BoostAll(SortDesc(hits), favoured)
  }

  /** A boosted score is at most 5 above the raw one, never below it up to 100, and within 100 when the raw one is. */
  predicate BoostBounded(raw: real, final: real) {
    Min(raw, 100.0) <= final <= raw + 5.0 && (raw <= 100.0 ==> final <= 100.0)
  }

  /**
   * The ranked list follows the raw (pre-boost) scores: the entries come in
   * non-increasing raw order, every hit appears, and a boosted score lies
   * between the raw score and the raw score plus 5, never above 100 when the
   * raw score is not.
   */
  lemma RankedByRawScore(hits: seq<Scored<Hit>>, favoured: Option<Source>)
    ensures SortedDesc(SortDesc(hits))
    ensures forall x :: x in SortDesc(hits) <==> x in hits
    ensures forall i :: 0 <= i < |hits| ==> BoostBounded(SortDesc(hits)[i].score, RankedMatches(hits, favoured)[i].score)
  {
    assert SortedDesc(SortDesc(hits)) by { SortDescProperties(hits); }
    assert forall x :: x in SortDesc(hits) <==> x in hits by { SortDescMembers(hits); }
    var sorted, ranked := SortDesc(hits), RankedMatches(hits, favoured);
    forall i | 0 <= i < |hits| ensures BoostBounded(sorted[i].score, ranked[i].score) {
      assert ranked[i].score == Boosted(sorted[i], favoured);
    }
  }

  /**
   * Because the boost comes after the sort, the result need not be ordered
   * by its final scores: a company at 78 behind a lead at 80 ends at 83.
   */
  lemma BoostAfterSortCanDisorder(company: Json, lead: Json)
    ensures RankedMatches([Scored(Hit(company, CompanyHit), 78.0), Scored(Hit(lead, LeadHit), 80.0)], Some(CompanyHit))
         == [Scored(lead, 80.0), Scored(company, 83.0)]
    ensures !SortedDesc(RankedMatches([Scored(Hit(company, CompanyHit), 78.0), Scored(Hit(lead, LeadHit), 80.0)],
                                      Some(CompanyHit)))
  {
    var a, b := Scored(Hit(company, CompanyHit), 78.0), Scored(Hit(lead, LeadHit), 80.0);
    assert [a, b][..1] == [a];
    assert [a][..0] == [];
    assert SortDesc([a]) == [a];
    assert SortDesc([a, b]) == [b, a];
    var r := RankedMatches([a, b], Some(CompanyHit));
    assert r[0] == Scored(lead, 80.0) && r[1] == Scored(company, 83.0);
    assert r[0].score < r[1].score;
  }

  /** The ranked matches of the fan-out and the number of records searched. */
  datatype Ranked = Ranked(matches: seq<Scored<Json>>, searched: nat)

  /** The matches of the fan-out, with the number of records searched. */
  function FanOutResult(crm: Crm, sim: Similarity, threshold: real, name: string, entityType: Option<string>)
    : Fetch<Ranked>
  {
    match Collect(crm, sim, threshold, name, ScanPlan(entityType))
    case Raised => Raised
    case Returned(acc) => Returned(Ranked(RankedMatches(acc.hits, FavouredSource(entityType)), acc.searched))
  }

  lemma CollectStep(crm: Crm, sim: Similarity, threshold: real, name: string, plan: seq<Scan>, i: nat)
    requires i < |plan|
    ensures Collect(crm, sim, threshold, name, plan[..i + 1])
         == CollectNext(Collect(crm, sim, threshold, name, plan[..i]), crm, sim, threshold, name, plan[i])
  {
    assert plan[..i + 1][..i] == plan[..i];
  }

  /** The scanning loop of gather_intelligence: fetch each planned collection and match its records. */
  method CollectMatches(crm: Crm, sim: Similarity, threshold: real, name: string, plan: seq<Scan>)
    returns (r: Fetch<Scanned>)
    ensures r == Collect(crm, sim, threshold, name, plan)
  {
    var acc := Scanned([], 0);
    var i := 0;
    while i < |plan|
      invariant 0 <= i <= |plan|
      invariant Collect(crm, sim, threshold, name, plan[..i]) == Returned(acc)
    {
      CollectStep(crm, sim, threshold, name, plan, i);
      var fetched := crm.search(plan[i].collection, []);
      if fetched.Raised? {
        CollectRaisedStays(crm, sim, threshold, name, plan, i + 1);
        assert plan[..|plan|] == plan;
        return Raised;
      }
      var records := fetched.value;
      var tagged := MatchScan(sim, threshold, name, plan[i], records);
      CollectNextReturned(crm, sim, threshold, name, plan[i], acc, records);
      acc := Scanned(acc.hits + tagged, acc.searched + |records|);
      i := i + 1;
    }
    assert plan[..i] == plan;
    r := Returned(acc);
  }

  lemma CollectNextReturned(crm: Crm, sim: Similarity, threshold: real, name: string, scan: Scan,
                            acc: Scanned, records: seq<Json>)
    requires crm.search(scan.collection, []) == Returned(records)
    ensures CollectNext(Returned(acc), crm, sim, threshold, name, scan)
         == Returned(Scanned(acc.hits + ScanMatches(sim, threshold, name, scan, records), acc.searched + |records|))
  {
    var r := CollectNext(Returned(acc), crm, sim, threshold, name, scan);
    var m := ScanMatches(sim, threshold, name, scan, records);
    assert r.Returned?;
    assert r.value.hits == acc.hits + m;
    assert r.value.searched == acc.searched + |records|;
    assert r.value == Scanned(acc.hits + m, acc.searched + |records|);
  }

  /** One scan of gather_intelligence: the records are matched only when there are any. */
  method MatchScan(sim: Similarity, threshold: real, name: string, scan: Scan, records: seq<Json>)
    returns (tagged: seq<Scored<Hit>>)
    ensures tagged == ScanMatches(sim, threshold, name, scan, records)
  {
    if |records| > 0 {
      var matches := MatchRecords(sim, scan.kind, name, records, "", threshold);
      tagged := Tag(matches, scan.source);
    } else {
      assert Admissions(sim, scan.kind, name, records, "", threshold) == [];
      tagged := [];
    }
  }

  /** The boosting loop of gather_intelligence. */
  method BoostSorted(sorted: seq<Scored<Hit>>, favoured: Option<Source>) returns (ranked: seq<Scored<Json>>)
    ensures ranked == BoostAll(sorted, favoured)
  {
    ranked := [];
    var k := 0;
    while k < |sorted|
      invariant 0 <= k <= |sorted|
      invariant ranked == BoostAll(sorted[..k], favoured)
    {
      var score := sorted[k].score;
      if favoured == Some(sorted[k].item.source) {
        score := Min(100.0, score + 5.0);
      }
      ranked := ranked + [Scored(sorted[k].item.record, score)];
      k := k + 1;
    }
    assert sorted[..k] == sorted;
  }

  /** The fan-out of gather_intelligence: scan, sort by raw score, boost. */
  method FanOut(crm: Crm, sim: Similarity, threshold: real, name: string, entityType: Option<string>)
    returns (r: Fetch<Ranked>)
    ensures r == FanOutResult(crm, sim, threshold, name, entityType)
  {
    var collected := CollectMatches(crm, sim, threshold, name, ScanPlan(entityType));
    if collected.Raised? {
      return Raised;
    }
    var ranked := BoostSorted(SortDesc(collected.value.hits), FavouredSource(entityType));
    r := Returned(Ranked(ranked, collected.value.searched));
  }

  /** Once a fetch has raised, the fan-out has raised. */
  lemma {:induction false} CollectRaisedStays(crm: Crm, sim: Similarity, threshold: real, name: string, plan: seq<Scan>, i: nat)
    requires 0 < i <= |plan| && Collect(crm, sim, threshold, name, plan[..i]) == Raised
    ensures Collect(crm, sim, threshold, name, plan[..|plan|]) == Raised
    decreases |plan| - i
  {
    if i < |plan| {
      CollectStep(crm, sim, threshold, name, plan, i);
      CollectRaisedStays(crm, sim, threshold, name, plan, i + 1);
    }
  }

  // ---------------------------------------------------------------------
  // Related records; every helper returns [] when the client raises

  function SearchOrEmpty(crm: Crm, c: Collection, criteria: Fields): seq<Json> {
    match crm.search(c, criteria)
    case Raised => []
    case Returned(rs) => rs
  }

  function GetOrNone(crm: Crm, c: Collection, id: Json): Option<Json> {
    match crm.get(c, id)
    case Raised => None
    case Returned(r) => r
  }

  predicate TruthyRecord(r: Option<Json>) { r.Some? && Truthy(r.value) }

  /** _get_related_contacts: a company's people, or an opportunity's primary contact. */
  function RelatedContacts(crm: Crm, id: Json, entityType: Option<string>): (r: seq<Json>)
    ensures entityType != Some("company") && entityType != Some("opportunity") ==> r == []
    ensures entityType == Some("opportunity") ==> |r| <= 1
    ensures entityType == Some("company") ==> r == SearchOrEmpty(crm, People, [("company_id", id)])
  {
    if entityType == Some("company") then SearchOrEmpty(crm, People, [("company_id", id)])
    else if entityType == Some("opportunity") then
      var opp := GetOrNone(crm, Opportunities, id);
      if TruthyRecord(opp) && Truthy(Field(opp.value, "primary_contact_id")) then
        var person := GetOrNone(crm, People, Field(opp.value, "primary_contact_id"));
        if TruthyRecord(person) then [person.value] else []
      else []
    else []
  }

  /** _get_related_companies: a person's company. */
  function RelatedCompanies(crm: Crm, id: Json, entityType: Option<string>): (r: seq<Json>)
    ensures entityType != Some("person") ==> r == []
    ensures |r| <= 1
    ensures r != [] ==> Truthy(r[0])
  {
    if entityType == Some("person") then
      var person := GetOrNone(crm, People, id);
      if TruthyRecord(person) && Truthy(Field(person.value, "company_id")) then
        var company := GetOrNone(crm, Companies, Field(person.value, "company_id"));
        if TruthyRecord(company) then [company.value] else []
      else []
    else []
  }

  /** _get_related_opportunities: by company id or by primary contact id. */
  function RelatedOpportunities(crm: Crm, id: Json, entityType: Option<string>): (r: seq<Json>)
    ensures entityType != Some("company") && entityType != Some("person") ==> r == []
    ensures entityType == Some("company") ==> r == SearchOrEmpty(crm, Opportunities, [("company_ids", JList([id]))])
    ensures entityType == Some("person") ==> r == SearchOrEmpty(crm, Opportunities, [("primary_contact_ids", JList([id]))])
  {
    if entityType == Some("company") then SearchOrEmpty(crm, Opportunities, [("company_ids", JList([id]))])
    else if entityType == Some("person") then SearchOrEmpty(crm, Opportunities, [("primary_contact_ids", JList([id]))])
    else []
  }

  /** The email of a person's first email entry, when the entries are a list starting with a dictionary. */
  function FirstEmail(person: Json): Json {
    var emails := Field(person, "emails");
    if Truthy(emails) && emails.JList? && emails.items[0].JObj? then Field(emails.items[0], "email") else JNull
  }

  /** _get_related_leads: by company id, or by the person's first email. */
  function RelatedLeads(crm: Crm, id: Json, entityType: Option<string>): (r: seq<Json>)
    ensures entityType != Some("company") && entityType != Some("person") ==> r == []
    ensures entityType == Some("company") ==> r == SearchOrEmpty(crm, Leads, [("company_id", id)])
  {
    if entityType == Some("company") then SearchOrEmpty(crm, Leads, [("company_id", id)])
    else if entityType == Some("person") then
      var person := GetOrNone(crm, People, id);
      if TruthyRecord(person) && Truthy(FirstEmail(person.value)) then
        SearchOrEmpty(crm, Leads, [("email", FirstEmail(person.value))])
      else []
    else []
  }

  /** _get_related_tasks: tasks whose related resource is this company, person or opportunity. */
  function RelatedTasks(crm: Crm, id: Json, entityType: Option<string>): (r: seq<Json>)
    ensures entityType != Some("company") && entityType != Some("person") && entityType != Some("opportunity") ==> r == []
    ensures entityType.Some? && entityType.value in {"company", "person", "opportunity"} ==>
      r == SearchOrEmpty(crm, Tasks, [("related_resource", JObj([("id", id), ("type", JStr(entityType.value))]))])
  {
    if entityType == Some("company") || entityType == Some("person") || entityType == Some("opportunity") then
      SearchOrEmpty(crm, Tasks, [("related_resource", JObj([("id", id), ("type", JStr(entityType.value))]))])
    else []
  }

  datatype Related = Related(
    contacts: seq<Json>, companies: seq<Json>, opportunities: seq<Json>, leads: seq<Json>, tasks: seq<Json>)

  const NoRelated := Related([], [], [], [], [])

  predicate Wants(includes: seq<string>, names: set<string>) {
    exists i :: 0 <= i < |includes| && (includes[i] in names || includes[i] == "all")
  }

  /** The related data gathered for a primary entity, as `includes` asks. */
  function FetchRelated(crm: Crm, id: Json, entityType: Option<string>, includes: seq<string>): Related {
    Related(
      if Wants(includes, {"contacts"}) then RelatedContacts(crm, id, entityType) else [],
      if Wants(includes, {"companies"}) then RelatedCompanies(crm, id, entityType) else [],
      if Wants(includes, {"opportunities", "deals"}) then RelatedOpportunities(crm, id, entityType) else [],
      if Wants(includes, {"leads"}) then RelatedLeads(crm, id, entityType) else [],
      if Wants(includes, {"tasks"}) then RelatedTasks(crm, id, entityType) else [])
  }

  /** A client that raises on every call yields no related data at all. */
  lemma RelatedFailsSoft(crm: Crm, id: Json, entityType: Option<string>, includes: seq<string>)
    requires forall c, q :: crm.search(c, q) == Raised
    requires forall c, i :: crm.get(c, i) == Raised
    ensures FetchRelated(crm, id, entityType, includes) == NoRelated
  {
    assert GetOrNone(crm, People, id) == None;
    assert GetOrNone(crm, Opportunities, id) == None;
    assert RelatedContacts(crm, id, entityType) == [] by {
      assert SearchOrEmpty(crm, People, [("company_id", id)]) == [];
    }
    assert RelatedCompanies(crm, id, entityType) == [];
    assert RelatedOpportunities(crm, id, entityType) == [] by {
      assert SearchOrEmpty(crm, Opportunities, [("company_ids", JList([id]))]) == [];
      assert SearchOrEmpty(crm, Opportunities, [("primary_contact_ids", JList([id]))]) == [];
    }
    assert RelatedLeads(crm, id, entityType) == [] by {
      assert SearchOrEmpty(crm, Leads, [("company_id", id)]) == [];
    }
    assert RelatedTasks(crm, id, entityType) == [] by {
      if entityType.Some? {
        assert SearchOrEmpty(crm, Tasks, [("related_resource", JObj([("id", id), ("type", JStr(entityType.value))]))]) == [];
      }
    }
  }

  // ---------------------------------------------------------------------
  // gather_intelligence

  datatype Debug = Debug(searchCount: nat, matchesFound: nat, bestScore: Option<real>)

  datatype Gathered =
    | Confirm(entityType: Option<string>, query: string, matches: seq<Scored<Json>>, debug: Debug)
    | Intelligence(primary: Option<Json>, related: Related, debug: Debug)

  /** How close two matches must be for the question to be ambiguous. */
  const AmbiguityDelta: real := 10.0
  /** How many matches a confirmation request offers. */
  const ConfirmationChoices: int := 5

  /** gather_intelligence as a value; Raised for a raising fetch or a missing entity name. */
  function Gather(crm: Crm, sim: Similarity, threshold: real, analysis: QueryAnalysis): Fetch<Gathered> {
    var name := analysis.entityName;
    if name.None? || name.value == "" then Raised
    else match FanOutResult(crm, sim, threshold, name.value, analysis.entityType)
      case Raised => Raised
      case Returned(fan) =>
        var matches := fan.matches;
        var debug := Debug(fan.searched, |matches|, if matches != [] then Some(matches[0].score) else None);
        if matches != [] && HasMultipleCloseMatches(matches, AmbiguityDelta) then
          Returned(Confirm(analysis.entityType, name.value, TopMatches(matches, ConfirmationChoices), debug))
        else
          var primary := if matches != [] then Some(matches[0].item) else None;
          Returned(Intelligence(
            primary,
            if TruthyRecord(primary) then FetchRelated(crm, Field(primary.value, "id"), analysis.entityType, analysis.includes)
            else NoRelated,
            debug))
  }

  /** gather_intelligence. */
  method GatherIntelligence(crm: Crm, sim: Similarity, threshold: real, analysis: QueryAnalysis) returns (r: Fetch<Gathered>)
    ensures r == Gather(crm, sim, threshold, analysis)
    ensures analysis.entityName.None? || analysis.entityName == Some("") ==> r.Raised?
    ensures r.Returned? && r.value.Confirm? ==>
      analysis.entityName == Some(r.value.query) && 1 <= |r.value.matches| <= ConfirmationChoices
      && r.value.entityType == analysis.entityType
    ensures r.Returned? && r.value.Intelligence? && r.value.primary.None? ==> r.value.related == NoRelated
  {
    var name := analysis.entityName;
    if name.None? || name.value == "" {
      return Raised;
    }
    var fan := FanOut(crm, sim, threshold, name.value, analysis.entityType);
    if fan.Raised? {
      return Raised;
    }
    var matches := fan.value.matches;
    var debug := Debug(fan.value.searched, |matches|, if matches != [] then Some(matches[0].score) else None);
    if matches != [] && HasMultipleCloseMatches(matches, AmbiguityDelta) {
      return Returned(Confirm(analysis.entityType, name.value, TopMatches(matches, ConfirmationChoices), debug));
    }
    var primary: Option<Json> := None;
    if matches != [] {
      primary := Some(matches[0].item);
    }
    var related := NoRelated;
    if TruthyRecord(primary) {
      related := FetchRelated(crm, Field(primary.value, "id"), analysis.entityType, analysis.includes);
    }
    r := Returned(Intelligence(primary, related, debug));
  }

  /** An unambiguous result names the best-ranked match as its primary entity. */
  lemma PrimaryIsTopMatch(crm: Crm, sim: Similarity, threshold: real, analysis: QueryAnalysis)
    requires Gather(crm, sim, threshold, analysis).Returned?
    requires Gather(crm, sim, threshold, analysis).value.Intelligence?
    ensures var fan := FanOutResult(crm, sim, threshold, analysis.entityName.value, analysis.entityType);
      fan.Returned?
      && (fan.value.matches == [] <==> Gather(crm, sim, threshold, analysis).value.primary.None?)
      && (fan.value.matches != [] ==>
            Gather(crm, sim, threshold, analysis).value.primary == Some(fan.value.matches[0].item)
            && !HasMultipleCloseMatches(fan.value.matches, AmbiguityDelta))
  {
  }

  // ---------------------------------------------------------------------
  // Confirmation message and process_query

  datatype Choice = Choice(number: nat, name: Json, score: real)

  datatype ConfirmationMessage =
    | NoMatchesFound(query: string)
    | Choices(query: string, choices: seq<Choice>)

  function NumberChoices(matches: seq<Scored<Json>>, first: nat): (r: seq<Choice>)
    ensures |r| == |matches|
    ensures forall i :: 0 <= i < |r| ==>
      r[i] == Choice(first + i, FieldOr(matches[i].item, "name", JStr("Unknown")), matches[i].score)
  {
    if matches == [] then []
    else [Choice(first, FieldOr(matches[0].item, "name", JStr("Unknown")), matches[0].score)]
         + NumberChoices(matches[1..], first + 1)
  }

  /** format_confirmation_request: the matches numbered from 1 with their names and scores. */
  function FormatConfirmationRequest(query: string, matches: seq<Scored<Json>>): (r: ConfirmationMessage)
    ensures matches == [] <==> r == NoMatchesFound(query)
    ensures r.Choices? ==> r.query == query && |r.choices| == |matches|
    ensures r.Choices? ==> forall i :: 0 <= i < |matches| ==> r.choices[i].number == i + 1 && r.choices[i].score == matches[i].score
  {
    if matches == [] then NoMatchesFound(query) else Choices(query, NumberChoices(matches, 1))
  }

  datatype QueryOutcome =
    | NeedsConfirmation(message: ConfirmationMessage, data: Gathered, analysis: QueryAnalysis)
    | Answered(intelligence: Gathered, analysis: QueryAnalysis)
    | Failed

  /**
   * process_query. The formatted answer text is not modelled; `formatRaises`
   * says whether formatting the gathered data (format_confirmation_request or
   * format_intelligence) raises, which the surrounding handler turns into the
   * error outcome as well.
   */
  method ProcessQuery(query: string, useClaude: bool, llm: Fetch<QueryAnalysis>, crm: Crm, sim: Similarity, threshold: real,
                      formatRaises: Gathered -> bool)
    returns (r: QueryOutcome)
    ensures r.Failed? <==>
      Gather(crm, sim, threshold, Analysis(query, useClaude, llm)).Raised?
      || formatRaises(Gather(crm, sim, threshold, Analysis(query, useClaude, llm)).value)
    ensures r.NeedsConfirmation? <==>
      Gather(crm, sim, threshold, Analysis(query, useClaude, llm)).Returned?
      && Gather(crm, sim, threshold, Analysis(query, useClaude, llm)).value.Confirm?
      && !formatRaises(Gather(crm, sim, threshold, Analysis(query, useClaude, llm)).value)
    ensures r.Answered? ==> r.intelligence == Gather(crm, sim, threshold, Analysis(query, useClaude, llm)).value
    ensures r.NeedsConfirmation? ==> r.data.Confirm? && r.message == Choices(r.data.query, NumberChoices(r.data.matches, 1))
    ensures !r.Failed? ==> r.analysis == Analysis(query, useClaude, llm)
    ensures var a := Analysis(query, useClaude, llm); a.entityName.None? || a.entityName == Some("") ==> r.Failed?
  {
    var analysis := AnalyzeQuery(query, useClaude, llm);
    var gathered := GatherIntelligence(crm, sim, threshold, analysis);
    match gathered {
      case Raised =>
        r := Failed;
      case Returned(g) =>
        if formatRaises(g) {
          r := Failed;
        } else if g.Confirm? {
          r := NeedsConfirmation(FormatConfirmationRequest(g.query, g.matches), g, analysis);
        } else {
          r := Answered(g, analysis);
        }
    }
  }
}
