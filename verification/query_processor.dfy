/**
 * The natural-language search front end: which CRM collection a question is
 * about (a keyword test in a fixed priority order), the search criteria the
 * keyword parser pulls out of it (a quoted name, else capitalised words), the
 * fallback from the language model to that parser, and the truncation rule of
 * the result listing.
 */
module QueryProcessor {
  import opened Text
  import opened JsonModel

  // ---------------------------------------------------------------------
  // Entity type

  /** The keyword lists of _determine_entity_type, in the order they are tried, each with the type it selects. */
  const EntityRules: seq<(seq<string>, string)> := [
    (["task", "tasks", "todo", "todos", "to-do"], "tasks"),
    (["project", "projects"], "projects"),
    (["person", "people", "contact", "contacts"], "people"),
    (["company", "companies", "organization", "business"], "companies"),
    (["opportunity", "opportunities", "deal", "deals", "sale", "sales"], "opportunities"),
    (["lead", "leads", "prospect", "prospects"], "leads")
  ]

  /** The type of a question none of the keywords occurs in. */
  const DefaultEntityType: string := "people"

  /** The position of the first rule one of whose keywords occurs in `q`. */
  function FirstMentioned(q: string, rules: seq<(seq<string>, string)>): (r: Option<nat>)
    ensures r.Some? ==> r.value < |rules| && MentionsAny(q, rules[r.value].0)
    ensures r.Some? ==> forall j :: 0 <= j < r.value ==> !MentionsAny(q, rules[j].0)
    ensures r.None? ==> forall j :: 0 <= j < |rules| ==> !MentionsAny(q, rules[j].0)
  {
    if rules == [] then None
    else if MentionsAny(q, rules[0].0) then Some(0)
    else match FirstMentioned(q, rules[1..])
      case None => None
      case Some(i) => Some(i + 1)
  }

  /** _determine_entity_type on an already lowered question. */
  function DetermineEntityType(q: string): string {
    match FirstMentioned(q, EntityRules)
    case Some(i) => EntityRules[i].1
    case None => DefaultEntityType
  }

  /** The first rule whose keywords occur decides the type; with none, the type is people. */
  lemma EntityTypePriority(q: string, i: nat)
    requires i < |EntityRules| && MentionsAny(q, EntityRules[i].0)
    requires forall j :: 0 <= j < i ==> !MentionsAny(q, EntityRules[j].0)
    ensures DetermineEntityType(q) == EntityRules[i].1
  {
    var r := FirstMentioned(q, EntityRules);
  }

  lemma EntityTypeDefault(q: string)
    requires forall j :: 0 <= j < |EntityRules| ==> !MentionsAny(q, EntityRules[j].0)
    ensures DetermineEntityType(q) == DefaultEntityType
  {
    var r := FirstMentioned(q, EntityRules);
  }

  /** Every question gets one of the six collection names, and a task keyword always wins. */
  lemma EntityTypeKnown(q: string)
    ensures DetermineEntityType(q) in {"tasks", "projects", "people", "companies", "opportunities", "leads"}
    ensures DetermineEntityType(q) == "tasks" <==> MentionsAny(q, EntityRules[0].0)
    ensures DetermineEntityType(q) == "projects" <==> !MentionsAny(q, EntityRules[0].0) && MentionsAny(q, EntityRules[1].0)
  {
    var r := FirstMentioned(q, EntityRules);
    if r.Some? {
      var i := r.value;
      assert i < 6;
      if i == 0 {
        assert DetermineEntityType(q) == "tasks";
      } else if i == 1 {
        assert DetermineEntityType(q) == "projects";
      } else {
        assert !MentionsAny(q, EntityRules[0].0) && !MentionsAny(q, EntityRules[1].0);
        assert DetermineEntityType(q) == EntityRules[i].1;
      }
    }
  }

  // ---------------------------------------------------------------------
  // Keyword parsing

  /** `"v"` occurs in `s` at position `k`, with `v` non-empty and free of double quotes. */
  predicate QuotedAt(s: string, k: int, v: string) {
    0 <= k && v != [] && '"' !in v && k + |v| + 2 <= |s|
    && s[k] == '"' && s[k + 1..k + 1 + |v|] == v && s[k + 1 + |v|] == '"'
  }

  /** The first match of the pattern `"([^"]+)"`, as re.findall finds it. */
  function QuotedName(s: string): Option<string>
    decreases |s|
  {
    match IndexOf(s, '"')
    case None => None
    case Some(i) =>
      match IndexOf(s[i + 1..], '"')
      case None => None
      case Some(j) => if j > 0 then Some(s[i + 1..][..j]) else QuotedName(s[i + 1..])
  }

  lemma QuotedShift(s: string, d: nat, k: int, v: string)
    requires d <= |s| && 0 <= k
    ensures QuotedAt(s[d..], k, v) <==> QuotedAt(s, k + d, v)
  {
    if k + |v| + 2 <= |s| - d {
      assert s[d..][k + 1..k + 1 + |v|] == s[k + d + 1..k + d + 1 + |v|];
    }
  }

  /** Quoted text starts at a double quote, so never before the first one. */
  lemma QuotedNotBefore(s: string, i: nat)
    requires i <= |s| && forall m :: 0 <= m < i ==> s[m] != '"'
    ensures forall k, v :: QuotedAt(s, k, v) ==> i <= k
  {
  }

  /** With no double quote after the first one, nothing is quoted. */
  lemma QuotedUnclosed(s: string, i: nat)
    requires i < |s| && forall m :: 0 <= m < i ==> s[m] != '"'
    requires forall m :: i < m < |s| ==> s[m] != '"'
    ensures forall k, v :: !QuotedAt(s, k, v)
  {
    QuotedNotBefore(s, i);
  }

  /** Two adjacent double quotes: the first cannot open a match, so every match lies after it. */
  lemma QuotedSkip(s: string, i: nat)
    requires i + 1 < |s| && s[i + 1] == '"' && forall m :: 0 <= m < i ==> s[m] != '"'
    ensures forall k, v :: QuotedAt(s, k, v) ==> i + 1 <= k && QuotedAt(s[i + 1..], k - (i + 1), v)
  {
    QuotedNotBefore(s, i);
    forall k, v | QuotedAt(s, k, v) ensures i + 1 <= k && QuotedAt(s[i + 1..], k - (i + 1), v) {
      QuotedShift(s, i + 1, k - (i + 1), v);
    }
  }

  /** `v` is quoted at the leftmost position where anything is quoted. */
  ghost predicate LeftmostQuoted(s: string, v: string) {
    exists k :: QuotedAt(s, k, v) && NoQuoteBefore(s, k)
  }

  /** Nothing is quoted at a position before `k`. */
  ghost predicate NoQuoteBefore(s: string, k: int) {
    forall k', v' :: QuotedAt(s, k', v') ==> k <= k'
  }

  ghost predicate NothingQuoted(s: string) {
    forall k, v :: !QuotedAt(s, k, v)
  }

  /** A closing quote right after the first one ends the leftmost quoted text. */
  lemma QuotedFirstPair(s: string, i: nat, j: nat)
    requires i < |s| && s[i] == '"' && forall m :: 0 <= m < i ==> s[m] != '"'
    requires 0 < j < |s| - (i + 1) && s[i + 1 + j] == '"' && forall m :: i < m < i + 1 + j ==> s[m] != '"'
    ensures LeftmostQuoted(s, s[i + 1..i + 1 + j])
  {
    var v := s[i + 1..i + 1 + j];
    assert forall m :: 0 <= m < j ==> v[m] == s[i + 1 + m];
    assert QuotedAt(s, i, v);
    QuotedNotBefore(s, i);
  }

  /** Past two adjacent quotes, what is quoted in the rest is what is quoted in the whole. */
  lemma QuotedPastPair(s: string, i: nat, v: string)
    requires i + 1 < |s| && s[i + 1] == '"' && forall m :: 0 <= m < i ==> s[m] != '"'
    ensures NothingQuoted(s[i + 1..]) ==> NothingQuoted(s)
    ensures LeftmostQuoted(s[i + 1..], v) ==> LeftmostQuoted(s, v)
  {
    QuotedSkip(s, i);
    if LeftmostQuoted(s[i + 1..], v) {
      var k :| QuotedAt(s[i + 1..], k, v) && NoQuoteBefore(s[i + 1..], k);
      QuotedShift(s, i + 1, k, v);
    }
  }

  /** The quoted name is the leftmost quoted text, and there is none only when nothing is quoted. */
  lemma {:induction false} QuotedNameSpec(s: string)
    ensures QuotedName(s).Some? ==> LeftmostQuoted(s, QuotedName(s).value)
    ensures QuotedName(s).None? ==> NothingQuoted(s)
    decreases |s|
  {
    match IndexOf(s, '"')
    case None =>
      QuotedNotBefore(s, |s|);
    case Some(i) =>
      var rest := s[i + 1..];
      assert forall m :: 0 <= m < |rest| ==> rest[m] == s[i + 1 + m];
      match IndexOf(rest, '"')
      case None =>
        QuotedUnclosed(s, i);
      case Some(j) =>
        if j > 0 {
          assert rest[..j] == s[i + 1..i + 1 + j];
          QuotedFirstPair(s, i, j);
        } else {
          assert i + 1 < |s| && s[i + 1] == '"' by {
            assert rest[0] == s[i + 1];
          }
          QuotedNameSpec(rest);
          var v := if QuotedName(rest).Some? then QuotedName(rest).value else "";
          QuotedPastPair(s, i, v);
        }
  }

  /** A word the keyword parser takes for part of a name: capitalised and longer than two characters. */
  predicate NameLike(w: string) {
    w != "" && IsUpper(w[0]) && |w| > 2
  }

  /** The name-like words, in order. */
  function CapitalizedWords(words: seq<string>): (r: seq<string>)
    ensures forall w :: w in r ==> NameLike(w) && w in words
    ensures forall i :: 0 <= i < |words| && NameLike(words[i]) ==> words[i] in r
    ensures |words| == 1 ==> (r == words <==> NameLike(words[0])) && (r == [] <==> !NameLike(words[0]))
  {
    if words == [] then []
    else (if NameLike(words[0]) then [words[0]] else []) + CapitalizedWords(words[1..])
  }

  /** The name-like words of two stretches of text are those of the first, then those of the second: order is kept. */
  lemma {:induction false} CapitalizedWordsAppend(a: seq<string>, b: seq<string>)
    ensures CapitalizedWords(a + b) == CapitalizedWords(a) + CapitalizedWords(b)
    decreases |a|
  {
    if a == [] {
      assert a + b == b;
    } else {
      assert (a + b)[0] == a[0] && (a + b)[1..] == a[1..] + b;
      CapitalizedWordsAppend(a[1..], b);
    }
  }

  /** The name the keyword parser finds: the quoted text, else up to three capitalised words for people or companies. */
  function NameCriterion(query: string, entityType: string): Option<string> {
    match QuotedName(query)
    case Some(v) => Some(v)
    case None =>
      var caps := CapitalizedWords(SplitWs(query));
      if caps != [] && entityType in ["people", "companies"] then Some(JoinWith(caps[..if |caps| < 3 then |caps| else 3], " "))
      else None
  }

  /** One to three name-like words of the question. */
  predicate NameWords(ws: seq<string>, words: seq<string>) {
    1 <= |ws| <= 3 && forall w :: w in ws ==> NameLike(w) && w in words
  }

  /** A name that was not quoted is asked for people or companies only, and is made of one to three name-like words. */
  lemma NameFromWords(query: string, entityType: string)
    requires QuotedName(query).None? && NameCriterion(query, entityType).Some?
    ensures entityType in ["people", "companies"]
    ensures exists ws :: NameWords(ws, SplitWs(query)) && NameCriterion(query, entityType) == Some(JoinWith(ws, " "))
    ensures var caps := CapitalizedWords(SplitWs(query));
      caps != [] && NameCriterion(query, entityType) == Some(JoinWith(caps[..if |caps| < 3 then |caps| else 3], " "))
  {
    var caps := CapitalizedWords(SplitWs(query));
    var ws := caps[..if |caps| < 3 then |caps| else 3];
    assert NameCriterion(query, entityType) == Some(JoinWith(ws, " "));
    forall w | w in ws ensures NameLike(w) && w in SplitWs(query) {
      var i :| 0 <= i < |ws| && ws[i] == w;
      assert caps[i] == w;
    }
    assert NameWords(ws, SplitWs(query));
  }

  /** For people and companies, an unquoted question yields a name exactly when one of its words is name-like. */
  lemma NameFoundIff(query: string, entityType: string)
    requires QuotedName(query).None? && entityType in ["people", "companies"]
    ensures NameCriterion(query, entityType).Some? <==> exists w :: w in SplitWs(query) && NameLike(w)
  {
    var words := SplitWs(query);
    var caps := CapitalizedWords(words);
    if caps == [] {
      forall w | w in words ensures !NameLike(w) {
        var i :| 0 <= i < |words| && words[i] == w;
      }
    } else {
      assert caps[0] in words && NameLike(caps[0]);
    }
  }

  /** The pattern matchers the keyword parser runs on the raw question (emails, phone numbers, "in/from/at City"). */
  datatype Recognisers = Recognisers(
    emails: string -> seq<string>,
    phones: string -> seq<string>,
    locations: string -> seq<string>)

  datatype ParsedQuery = ParsedQuery(entityType: string, criteria: Fields, originalQuery: string)

  function StrList(xs: seq<string>): (r: Json)
    ensures r.JList? && |r.items| == |xs| && forall i :: 0 <= i < |xs| ==> r.items[i] == JStr(xs[i])
  {
    JList(seq(|xs|, i requires 0 <= i < |xs| => JStr(xs[i])))
  }

  /** The keys the keyword parser can fill, in the order it fills them. */
  const BasicCriteriaKeys: seq<string> := ["emails", "phone_numbers", "name", "city"]

  lemma BasicCriteriaKeysDistinct()
    ensures DistinctStrings(BasicCriteriaKeys)
  {
    var lengths := [6, 13, 4, 4];
    forall i, j | 0 <= i < j < |BasicCriteriaKeys| ensures BasicCriteriaKeys[i] != BasicCriteriaKeys[j] {
      assert |BasicCriteriaKeys[i]| == lengths[i] && |BasicCriteriaKeys[j]| == lengths[j];
      if lengths[i] == lengths[j] {
        assert BasicCriteriaKeys[i][0] != BasicCriteriaKeys[j][0];
      }
    }
  }

  /** A list-valued criterion, present when the recogniser found something. */
  function ListCriterion(found: seq<string>): Option<Json> {
    if found == [] then None else Some(StrList(found))
  }

  function NameJson(name: Option<string>): Option<Json> {
    if name.None? then None else Some(JStr(name.value))
  }

  function CityCriterion(locations: seq<string>): Option<Json> {
    if locations == [] then None else Some(JStr(locations[0]))
  }

  /** The values of the four assignments, each None when it is skipped. */
  function BasicCriteriaValues(rec: Recognisers, query: string, entityType: string): (r: seq<Option<Json>>)
    ensures |r| == |BasicCriteriaKeys|
  {
    [ListCriterion(rec.emails(query)), ListCriterion(rec.phones(query)),
     NameJson(NameCriterion(query, entityType)), CityCriterion(rec.locations(query))]
  }

  /** _parse_basic: emails, phone numbers, a name and a city, each assigned only when found. */
  function ParseBasic(rec: Recognisers, query: string, entityType: string): ParsedQuery {
    ParsedQuery(entityType, Entries(Slots(BasicCriteriaKeys, BasicCriteriaValues(rec, query, entityType))), query)
  }

  /** Each criterion is present exactly when its recogniser finds something, and nothing else is. */
  lemma ParseBasicLookups(rec: Recognisers, query: string, entityType: string)
    ensures var c := ParseBasic(rec, query, entityType).criteria;
      Lookup(c, "emails") == ListCriterion(rec.emails(query)) &&
      Lookup(c, "phone_numbers") == ListCriterion(rec.phones(query)) &&
      Lookup(c, "name") == NameJson(NameCriterion(query, entityType)) &&
      Lookup(c, "city") == CityCriterion(rec.locations(query))
  {
    var values := BasicCriteriaValues(rec, query, entityType);
    BasicCriteriaKeysDistinct();
    SlotsLookup(BasicCriteriaKeys, values, 0);
    SlotsLookup(BasicCriteriaKeys, values, 1);
    SlotsLookup(BasicCriteriaKeys, values, 2);
    SlotsLookup(BasicCriteriaKeys, values, 3);
  }

  lemma ParseBasicOnlyThese(rec: Recognisers, query: string, entityType: string, k: string)
    requires k !in BasicCriteriaKeys
    ensures Lookup(ParseBasic(rec, query, entityType).criteria, k) == None
  {
    var slots := Slots(BasicCriteriaKeys, BasicCriteriaValues(rec, query, entityType));
    forall i | 0 <= i < |slots| ensures slots[i].0 != k {
      assert slots[i].0 == BasicCriteriaKeys[i];
    }
    EntriesAbsent(slots, k);
  }

  /** What the language-model parse comes to: criteria, a caught parse failure, or an error that propagates. */
  datatype LlmReply = Criteria(fields: Fields) | ParseFailure | OtherFailure

  /** parse_query; the entity type comes from the lowered question, the criteria from the raw one. */
  method ParseQuery(rec: Recognisers, query: string, hasClient: bool, llm: LlmReply) returns (r: Fetch<ParsedQuery>)
    ensures r.Raised? <==> hasClient && llm.OtherFailure?
    ensures r.Returned? ==> r.value.entityType == DetermineEntityType(Lower(query)) && r.value.originalQuery == query
    ensures r.Returned? && hasClient && llm.Criteria? ==> r.value.criteria == llm.fields
    ensures r.Returned? && (!hasClient || llm.ParseFailure?) ==> r.value == ParseBasic(rec, query, r.value.entityType)
  {
    var entityType := DetermineEntityType(Lower(query));
    if hasClient {
      match llm {
        case Criteria(fields) =>
          r := Returned(ParsedQuery(entityType, fields, query));
        case ParseFailure =>
          r := Returned(ParseBasic(rec, query, entityType));
        case OtherFailure =>
          r := Raised;
      }
    } else {
      r := Returned(ParseBasic(rec, query, entityType));
    }
  }

  // ---------------------------------------------------------------------
  // Result listing

  /** At most this many results are listed. */
  const MaxListed: nat := 20

  /** The entity types that have a formatter. */
  predicate HasFormatter(entityType: string) {
    entityType in ["people", "companies", "opportunities", "leads"]
  }

  /** The entries of the listing, one per item, for a type that has a formatter; none otherwise. */
  function Rendered(items: seq<Json>, entityType: string, render: (string, Json) -> string): (r: seq<string>)
    ensures |r| == if HasFormatter(entityType) then |items| else 0
    ensures HasFormatter(entityType) ==> forall i :: 0 <= i < |items| ==> r[i] == render(entityType, items[i])
  {
    if items == [] then []
    else Rendered(items[..|items| - 1], entityType, render)
         + (if HasFormatter(entityType) then [render(entityType, items[|items| - 1])] else [])
  }

  lemma RenderedStep(items: seq<Json>, entityType: string, render: (string, Json) -> string, i: nat)
    requires i < |items|
    ensures Rendered(items[..i + 1], entityType, render) ==
      Rendered(items[..i], entityType, render) + (if HasFormatter(entityType) then [render(entityType, items[i])] else [])
  {
    assert items[..i + 1][..i] == items[..i];
  }

  /** The note appended when the listing was cut short. */
  function TruncationNote(total: nat): (r: string)
    ensures r == "" <==> total <= MaxListed
  {
    if total > MaxListed then "\n\n_Showing first 20 of " + NatToString(total) + " results_" else ""
  }

  /** The results that are listed: the first twenty. */
  function Listed(results: seq<Json>): (r: seq<Json>)
    ensures |r| == if |results| > MaxListed then MaxListed else |results|
    ensures r == results[..|r|]
  {
    if |results| > MaxListed then results[..MaxListed] else results
  }

  /** format_results; the per-record formatters are the parameter `render`. */
  method FormatResults(results: seq<Json>, entityType: string, render: (string, Json) -> string) returns (text: string)
    ensures results == [] ==> text == "No results found."
    ensures results != [] ==>
      text == JoinWith(Rendered(Listed(results), entityType, render), "\n\n") + TruncationNote(|results|)
  {
    if results == [] {
      return "No results found.";
    }
    var total := |results|;
    var shown := results;
    var note := "";
    if total > MaxListed {
      shown := results[..MaxListed];
      note := "\n\n_Showing first 20 of " + NatToString(total) + " results_";
    }
    var formatted: seq<string> := [];
    var i := 0;
    while i < |shown|
      invariant 0 <= i <= |shown|
      invariant formatted == Rendered(shown[..i], entityType, render)
    {
      RenderedStep(shown, entityType, render, i);
      if entityType == "people" || entityType == "companies" || entityType == "opportunities" || entityType == "leads" {
        formatted := formatted + [render(entityType, shown[i])];
      }
      i := i + 1;
    }
    assert shown[..i] == shown;
    text := JoinWith(formatted, "\n\n") + note;
  }

  /** A listing has one entry per listed result, never more than twenty, and none for a type without a formatter. */
  lemma ListingProperties(results: seq<Json>, entityType: string, render: (string, Json) -> string)
    ensures |Rendered(Listed(results), entityType, render)| <= MaxListed
    ensures HasFormatter(entityType) ==> |Rendered(Listed(results), entityType, render)| == |Listed(results)|
    ensures !HasFormatter(entityType) ==> JoinWith(Rendered(Listed(results), entityType, render), "\n\n") == ""
  {
  }

  /** The note of a cut listing says so and names the total. */
  lemma TruncationNoteNamesTotal(total: nat)
    requires total > MaxListed
    ensures Contains(TruncationNote(total), "Showing first 20")
    ensures Contains(TruncationNote(total), NatToString(total))
  {
    var digits := NatToString(total);
    var note := TruncationNote(total);
    var prefix := "\n\n_Showing first 20 of ";
    assert note == prefix + digits + " results_";
    assert note[3..19] == prefix[3..19] == "Showing first 20";
    ContainsAt(note, "Showing first 20", 3);
    assert note[23..23 + |digits|] == digits;
    ContainsAt(note, digits, 23);
  }
}
