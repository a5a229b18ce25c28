/**
 * Spreadsheet handling: the batch lookup that marks each uploaded row with
 * whether its contact, company and opportunity are in the CRM, and the
 * opportunity import that plans creates and updates from the rows and then
 * carries them out. Rows are dictionaries from column name to cell text.
 * Money and date parsing are parameters.
 */
module CsvHandler {
  import opened Text
  import opened JsonModel

  /** One spreadsheet row. */
  type Row = Dict<string>

  /** `k in row and row[k]`: the cell when the column is present and non-empty. */
  function Filled(row: Row, k: string): (r: Option<string>)
    ensures r.Some? <==> Lookup(row, k).Some? && Lookup(row, k).value != ""
    ensures r.Some? ==> r.value == Lookup(row, k).value
  {
    match Lookup(row, k)
    case Some(v) => if v != "" then Some(v) else None
    case None => None
  }

  /** The position of the first of `keys` that is filled in the row. */
  function FirstFilled(row: Row, keys: seq<string>): (r: Option<nat>)
    ensures r.Some? ==> r.value < |keys| && Filled(row, keys[r.value]).Some?
    ensures r.Some? ==> forall j :: 0 <= j < r.value ==> Filled(row, keys[j]).None?
    ensures r.None? ==> forall j :: 0 <= j < |keys| ==> Filled(row, keys[j]).None?
  {
    if keys == [] then None
    else if Filled(row, keys[0]).Some? then Some(0)
    else match FirstFilled(row, keys[1..])
      case None => None
      case Some(i) => Some(i + 1)
  }

  // ---------------------------------------------------------------------
  // Batch lookup (process_csv_queries and the _check_*_exists helpers)

  /** The columns a contact is looked up by, most accurate first. */
  const ContactKeys: seq<string> := ["email", "name", "contact_name"]
  const CompanyKeys: seq<string> := ["company", "company_name"]
  const OpportunityKeys: seq<string> := ["opportunity", "opportunity_name", "deal"]

  /** The search criteria for a lookup: an email is searched as emails, any other column as name. */
  function LookupCriteria(row: Row, keys: seq<string>, emailFirst: bool): (r: Option<Fields>)
    ensures r.None? <==> forall j :: 0 <= j < |keys| ==> Filled(row, keys[j]).None?
    ensures r.Some? ==>
      exists j :: 0 <= j < |keys| && Filled(row, keys[j]).Some? &&
        (forall i :: 0 <= i < j ==> Filled(row, keys[i]).None?) &&
        r.value == (if emailFirst && j == 0 then [("emails", JList([JStr(Filled(row, keys[j]).value)]))]
                    else [("name", JStr(Filled(row, keys[j]).value))])
  {
    match FirstFilled(row, keys)
    case None => None
    case Some(j) =>
      var v := Filled(row, keys[j]).value;
      Some(if emailFirst && j == 0 then [("emails", JList([JStr(v)]))] else [("name", JStr(v))])
  }

  /** Whether a search with these criteria finds anything; no search runs without criteria. */
  function Exists(crm: Crm, collection: Collection, criteria: Option<Fields>): (r: Fetch<bool>)
    ensures criteria.None? ==> r == Returned(false)
    ensures criteria.Some? ==> (r.Raised? <==> crm.search(collection, criteria.value).Raised?)
    ensures r == Returned(true) <==>
      criteria.Some? && crm.search(collection, criteria.value).Returned? && crm.search(collection, criteria.value).value != []
  {
    match criteria
    case None => Returned(false)
    case Some(c) =>
      match crm.search(collection, c)
      case Raised => Raised
      case Returned(rs) => Returned(|rs| > 0)
  }

  function CheckContactExists(crm: Crm, row: Row): Fetch<bool> {
    Exists(crm, People, LookupCriteria(row, ContactKeys, true))
  }

  function CheckCompanyExists(crm: Crm, row: Row): Fetch<bool> {
    Exists(crm, Companies, LookupCriteria(row, CompanyKeys, false))
  }

  function CheckOpportunityExists(crm: Crm, row: Row): Fetch<bool> {
    Exists(crm, Opportunities, LookupCriteria(row, OpportunityKeys, false))
  }

  /**
   * The email is preferred over the names; a row without any of the lookup
   * columns is answered "no" without asking the CRM, so the answer is the
   * same whatever the CRM holds.
   */
  lemma ContactLookupOrder(crm: Crm, other: Crm, row: Row)
    ensures Filled(row, "email").Some? ==>
      CheckContactExists(crm, row) == Exists(crm, People, Some([("emails", JList([JStr(Filled(row, "email").value)]))]))
    ensures Filled(row, "email").None? && Filled(row, "name").Some? ==>
      CheckContactExists(crm, row) == Exists(crm, People, Some([("name", JStr(Filled(row, "name").value))]))
    ensures Filled(row, "email").None? && Filled(row, "name").None? && Filled(row, "contact_name").None? ==>
      CheckContactExists(crm, row) == Returned(false) == CheckContactExists(other, row)
  {
    var r := LookupCriteria(row, ContactKeys, true);
    if Filled(row, "email").Some? {
      assert Filled(row, ContactKeys[0]).Some?;
    } else if Filled(row, "name").Some? {
      assert Filled(row, ContactKeys[1]).Some?;
      assert Filled(row, ContactKeys[0]).None?;
    }
  }

  /** The company lookup prefers `company` to `company_name` and asks nothing without either. */
  lemma CompanyLookupOrder(crm: Crm, other: Crm, row: Row)
    ensures Filled(row, "company").Some? ==>
      CheckCompanyExists(crm, row) == Exists(crm, Companies, Some([("name", JStr(Filled(row, "company").value))]))
    ensures Filled(row, "company").None? && Filled(row, "company_name").Some? ==>
      CheckCompanyExists(crm, row) == Exists(crm, Companies, Some([("name", JStr(Filled(row, "company_name").value))]))
    ensures Filled(row, "company").None? && Filled(row, "company_name").None? ==>
      CheckCompanyExists(crm, row) == Returned(false) == CheckCompanyExists(other, row)
  {
    if Filled(row, "company").Some? {
      assert Filled(row, CompanyKeys[0]).Some?;
    } else if Filled(row, "company_name").Some? {
      assert Filled(row, CompanyKeys[1]).Some?;
      assert Filled(row, CompanyKeys[0]).None?;
    }
  }

  /** The opportunity lookup tries `opportunity`, `opportunity_name`, `deal` in turn. */
  lemma OpportunityLookupOrder(crm: Crm, other: Crm, row: Row)
    ensures Filled(row, "opportunity").Some? ==>
      CheckOpportunityExists(crm, row) == Exists(crm, Opportunities, Some([("name", JStr(Filled(row, "opportunity").value))]))
    ensures Filled(row, "opportunity").None? && Filled(row, "opportunity_name").Some? ==>
      CheckOpportunityExists(crm, row) == Exists(crm, Opportunities, Some([("name", JStr(Filled(row, "opportunity_name").value))]))
    ensures Filled(row, "opportunity").None? && Filled(row, "opportunity_name").None? && Filled(row, "deal").Some? ==>
      CheckOpportunityExists(crm, row) == Exists(crm, Opportunities, Some([("name", JStr(Filled(row, "deal").value))]))
    ensures Filled(row, "opportunity").None? && Filled(row, "opportunity_name").None? && Filled(row, "deal").None? ==>
      CheckOpportunityExists(crm, row) == Returned(false) == CheckOpportunityExists(other, row)
  {
    if Filled(row, "opportunity").Some? {
      assert Filled(row, OpportunityKeys[0]).Some?;
    } else if Filled(row, "opportunity_name").Some? {
      assert Filled(row, OpportunityKeys[1]).Some?;
      assert Filled(row, OpportunityKeys[0]).None?;
    } else if Filled(row, "deal").Some? {
      assert Filled(row, OpportunityKeys[2]).Some?;
      assert Filled(row, OpportunityKeys[0]).None? && Filled(row, OpportunityKeys[1]).None?;
    }
  }

  const ContactColumn: string := "Contact is in CRM"
  const CompanyColumn: string := "Company is in CRM"
  const OpportunityColumn: string := "Opportunity exists"

  predicate IsResultColumn(k: string) {
    k == ContactColumn || k == CompanyColumn || k == OpportunityColumn
  }

  function YesNo(b: bool): string { if b then "Yes" else "No" }

  /** A row with the three result columns: the answers, or "Error" in all three when a lookup raised. */
  datatype Enriched = Enriched(row: Row, ok: bool)

  function EnrichRow(crm: Crm, row: Row): Enriched {
    var contact, company, opportunity :=
      CheckContactExists(crm, row), CheckCompanyExists(crm, row), CheckOpportunityExists(crm, row);
    if contact.Returned? && company.Returned? && opportunity.Returned? then
      Enriched(WithColumns(row, YesNo(contact.value), YesNo(company.value), YesNo(opportunity.value)), true)
    else
      Enriched(WithColumns(row, "Error", "Error", "Error"), false)
  }

  /**
   * The enriched row keeps the original columns, in front and with their
   * values, and adds the three answers; when any lookup raised, all three
   * read "Error".
   */
  lemma EnrichRowProperties(crm: Crm, row: Row)
    ensures var e := EnrichRow(crm, row);
      e.ok <==>
        CheckContactExists(crm, row).Returned? && CheckCompanyExists(crm, row).Returned? && CheckOpportunityExists(crm, row).Returned?
    ensures var e := EnrichRow(crm, row);
      e.ok ==>
        Lookup(e.row, ContactColumn) == Some(YesNo(CheckContactExists(crm, row).value)) &&
        Lookup(e.row, CompanyColumn) == Some(YesNo(CheckCompanyExists(crm, row).value)) &&
        Lookup(e.row, OpportunityColumn) == Some(YesNo(CheckOpportunityExists(crm, row).value))
    ensures var e := EnrichRow(crm, row);
      !e.ok ==>
        Lookup(e.row, ContactColumn) == Lookup(e.row, CompanyColumn) == Lookup(e.row, OpportunityColumn) == Some("Error")
    ensures var e := EnrichRow(crm, row);
      forall k :: !IsResultColumn(k) ==> Lookup(e.row, k) == Lookup(row, k)
    ensures var e := EnrichRow(crm, row);
      |Keys(row)| <= |Keys(e.row)| && Keys(e.row)[..|Keys(row)|] == Keys(row)
  {
    var contact, company, opportunity :=
      CheckContactExists(crm, row), CheckCompanyExists(crm, row), CheckOpportunityExists(crm, row);
    if contact.Returned? && company.Returned? && opportunity.Returned? {
      WithColumnsProperties(row, YesNo(contact.value), YesNo(company.value), YesNo(opportunity.value));
    } else {
      WithColumnsProperties(row, "Error", "Error", "Error");
    }
  }

  /** The row with the three result columns set. */
  function WithColumns(row: Row, contact: string, company: string, opportunity: string): Row {
    Put(Put(Put(row, ContactColumn, contact), CompanyColumn, company), OpportunityColumn, opportunity)
  }

  /** The three answers are set, every other column keeps its value, and the original columns stay in front. */
  lemma WithColumnsProperties(row: Row, contact: string, company: string, opportunity: string)
    ensures var r := WithColumns(row, contact, company, opportunity);
      Lookup(r, ContactColumn) == Some(contact) &&
      Lookup(r, CompanyColumn) == Some(company) &&
      Lookup(r, OpportunityColumn) == Some(opportunity)
    ensures var r := WithColumns(row, contact, company, opportunity);
      forall k :: !IsResultColumn(k) ==> Lookup(r, k) == Lookup(row, k)
    ensures var r := WithColumns(row, contact, company, opportunity);
      |Keys(row)| <= |Keys(r)| && Keys(r)[..|Keys(row)|] == Keys(row)
  {
    ColumnsDistinct();
    var r1 := Put(row, ContactColumn, contact);
    var r2 := Put(r1, CompanyColumn, company);
    var r := Put(r2, OpportunityColumn, opportunity);
    assert |Keys(row)| <= |Keys(r)| && Keys(r)[..|Keys(row)|] == Keys(row) by {
      PutKeepsKeys(row, ContactColumn, contact);
      PutKeepsKeys(r1, CompanyColumn, company);
      PutKeepsKeys(r2, OpportunityColumn, opportunity);
      PrefixTrans(Keys(row), Keys(r1), Keys(r2));
      PrefixTrans(Keys(row), Keys(r2), Keys(r));
    }
  }

  lemma PrefixTrans(a: seq<string>, b: seq<string>, c: seq<string>)
    requires |a| <= |b| && b[..|a|] == a && |b| <= |c| && c[..|b|] == b
    ensures |a| <= |c| && c[..|a|] == a
  {
    assert c[..|a|] == c[..|b|][..|a|];
  }

  lemma ColumnsDistinct()
    ensures ContactColumn != CompanyColumn && ContactColumn != OpportunityColumn && CompanyColumn != OpportunityColumn
  {
    assert ContactColumn[3] != CompanyColumn[3];
    assert ContactColumn[0] != OpportunityColumn[0];
    assert CompanyColumn[0] != OpportunityColumn[0];
  }

  datatype QueryResults = QueryResults(totalQueries: nat, successful: nat, failed: nat, enrichedRows: seq<Row>)

  /** The enrichment of one row against `crm`, as a function value. */
  function Enricher(crm: Crm): Row -> Enriched {
    row => EnrichRow(crm, row)
  }

  /** The results after the first |rows| rows of a sheet of `total` rows, each enriched by `enrich`. */
  function EnrichAll(enrich: Row -> Enriched, total: nat, rows: seq<Row>): QueryResults {
    if rows == [] then QueryResults(total, 0, 0, [])
    else Count(EnrichAll(enrich, total, rows[..|rows| - 1]), enrich(rows[|rows| - 1]))
  }

  /** One more row: counted as successful or failed, and appended. */
  function Count(before: QueryResults, e: Enriched): QueryResults {
    before.(successful := before.successful + (if e.ok then 1 else 0),
            failed := before.failed + (if e.ok then 0 else 1),
            enrichedRows := before.enrichedRows + [e.row])
  }

  /** Every row is counted once, as successful or failed, and appended. */
  lemma {:induction false} EnrichAllCounts(enrich: Row -> Enriched, total: nat, rows: seq<Row>)
    ensures var res := EnrichAll(enrich, total, rows);
      res.totalQueries == total && |res.enrichedRows| == |rows| && res.successful + res.failed == |rows|
    decreases |rows|
  {
    if rows != [] {
      EnrichAllCounts(enrich, total, rows[..|rows| - 1]);
    }
  }

  /** The enriched rows are the input rows, each enriched, in their order. */
  lemma {:induction false} EnrichAllRows(enrich: Row -> Enriched, total: nat, rows: seq<Row>)
    ensures var res := EnrichAll(enrich, total, rows);
      |res.enrichedRows| == |rows| && forall i :: 0 <= i < |rows| ==> res.enrichedRows[i] == enrich(rows[i]).row
    decreases |rows|
  {
    if rows != [] {
      var init := rows[..|rows| - 1];
      EnrichAllRows(enrich, total, init);
      var before := EnrichAll(enrich, total, init);
      var e := enrich(rows[|rows| - 1]);
      var res := EnrichAll(enrich, total, rows);
      assert res.enrichedRows == before.enrichedRows + [e.row];
      forall i | 0 <= i < |rows| ensures res.enrichedRows[i] == enrich(rows[i]).row {
        if i < |init| {
          assert init[i] == rows[i];
          assert res.enrichedRows[i] == before.enrichedRows[i];
        } else {
          assert i == |init|;
          assert res.enrichedRows[i] == e.row;
        }
      }
    }
  }

  lemma EnrichStep(enrich: Row -> Enriched, total: nat, rows: seq<Row>, i: nat)
    requires i < |rows|
    ensures EnrichAll(enrich, total, rows[..i + 1]) == Count(EnrichAll(enrich, total, rows[..i]), enrich(rows[i]))
  {
    assert rows[..i + 1][..i] == rows[..i];
  }

  /** The three lookups of one row and the row they produce. */
  method EnrichOne(crm: Crm, row: Row) returns (e: Enriched)
    ensures e == Enricher(crm)(row)
  {
    e := EnrichRow(crm, row);
  }

  /** process_csv_queries. */
  method ProcessCsvQueries(crm: Crm, rows: seq<Row>) returns (res: QueryResults)
    ensures res == EnrichAll(Enricher(crm), |rows|, rows)
    ensures res.totalQueries == |rows| == |res.enrichedRows| && res.successful + res.failed == res.totalQueries
  {
    var successful, failed, enriched := 0, 0, [];
    var i := 0;
    while i < |rows|
      invariant 0 <= i <= |rows|
      invariant EnrichAll(Enricher(crm), |rows|, rows[..i]) == QueryResults(|rows|, successful, failed, enriched)
    {
      var e := EnrichOne(crm, rows[i]);
      EnrichStep(Enricher(crm), |rows|, rows, i);
      if e.ok {
        successful := successful + 1;
      } else {
        failed := failed + 1;
      }
      enriched := enriched + [e.row];
      i := i + 1;
    }
    assert rows[..i] == rows;
    res := QueryResults(|rows|, successful, failed, enriched);
    EnrichAllCounts(Enricher(crm), |rows|, rows);
  }

  // ---------------------------------------------------------------------
  // _build_criteria_from_row

  /** `[tag.strip() for tag in value.split(',')]`. */
  function Tags(value: string): (r: seq<string>)
    ensures |r| == |SplitOn(value, ',')|
    ensures forall i :: 0 <= i < |r| ==> r[i] == Strip(SplitOn(value, ',')[i])
  {
    var parts := SplitOn(value, ',');
    seq(|parts|, i requires 0 <= i < |parts| => Strip(parts[i]))
  }

  /**
   * The tags are the comma-separated pieces of the cell, each without
   * surrounding whitespace: the pieces join back to the cell, and no tag
   * changes when stripped again.
   */
  lemma TagsArePieces(value: string)
    ensures JoinWith(SplitOn(value, ','), ",") == value
    ensures forall i :: 0 <= i < |Tags(value)| ==> Strip(Tags(value)[i]) == Tags(value)[i]
  {
    JoinSplitOn(value, ',');
    var tags := Tags(value);
    forall i | 0 <= i < |tags| ensures Strip(tags[i]) == tags[i] {
      StripIdempotent(SplitOn(value, ',')[i]);
    }
  }

  function FilledJson(row: Row, column: string, list: bool): Option<Json> {
    match Filled(row, column)
    case None => None
    case Some(v) => Some(if list then JList([JStr(v)]) else JStr(v))
  }

  function TagValues(tags: seq<string>): (r: seq<Json>)
    ensures |r| == |tags| && forall i :: 0 <= i < |tags| ==> r[i] == JStr(tags[i])
  {
    seq(|tags|, i requires 0 <= i < |tags| => JStr(tags[i]))
  }

  /** The status criterion, searched only for opportunities. */
  function StatusCriterion(row: Row, opportunities: bool): Option<Json> {
    if opportunities then FilledJson(row, "status", false) else None
  }

  /** The minimum value criterion: a min_value that parses, for opportunities only. */
  function MinValueCriterion(row: Row, opportunities: bool, parseFloat: string -> Option<real>): Option<Json> {
    if opportunities && Filled(row, "min_value").Some? && parseFloat(Filled(row, "min_value").value).Some? then
      Some(JFloat(parseFloat(Filled(row, "min_value").value).value))
    else None
  }

  /** The tags criterion: the list of comma-separated tags of a filled tags column. */
  function TagsCriterion(row: Row): Option<Json> {
    if Filled(row, "tags").Some? then Some(JList(TagValues(Tags(Filled(row, "tags").value)))) else None
  }

  /** The criteria keys _build_criteria_from_row assigns, in order. */
  const CriteriaKeys: seq<string> :=
    ["name", "emails", "phone_numbers", "city", "state", "country", "status", "minimum_monetary_value", "tags"]

  lemma CriteriaKeysDistinct()
    ensures DistinctStrings(CriteriaKeys)
  {
    var lengths := [4, 6, 13, 4, 5, 7, 6, 22, 4];
    forall i, j | 0 <= i < j < |CriteriaKeys| ensures CriteriaKeys[i] != CriteriaKeys[j] {
      assert |CriteriaKeys[i]| == lengths[i] && |CriteriaKeys[j]| == lengths[j];
      if lengths[i] == lengths[j] {
        assert CriteriaKeys[i][0] != CriteriaKeys[j][0];
      }
    }
  }

  /** The value the criteria assignment number `i` makes, or None when it is skipped. */
  function CriteriaValue(row: Row, opportunities: bool, parseFloat: string -> Option<real>, i: nat): Option<Json> {
    if i == 0 then FilledJson(row, "name", false)
    else if i == 1 then FilledJson(row, "email", true)
    else if i == 2 then FilledJson(row, "phone", true)
    else if i == 3 then FilledJson(row, "city", false)
    else if i == 4 then FilledJson(row, "state", false)
    else if i == 5 then FilledJson(row, "country", false)
    else if i == 6 then StatusCriterion(row, opportunities)
    else if i == 7 then MinValueCriterion(row, opportunities, parseFloat)
    else TagsCriterion(row)
  }

  function CriteriaValues(row: Row, opportunities: bool, parseFloat: string -> Option<real>): (r: seq<Option<Json>>)
    ensures |r| == |CriteriaKeys|
  {
    seq(|CriteriaKeys|, i requires 0 <= i < |CriteriaKeys| => CriteriaValue(row, opportunities, parseFloat, i))
  }

  function Criteria(row: Row, entityType: string, parseFloat: string -> Option<real>): Fields {
    Entries(Slots(CriteriaKeys, CriteriaValues(row, entityType == "opportunities", parseFloat)))
  }

  /**
   * The search criteria a row gives: each filled column under its criteria
   * key (email and phone as one-element lists), status and a parsable
   * min_value only for opportunities, and the comma-separated tags.
   */
  lemma CriteriaContactLookups(row: Row, entityType: string, parseFloat: string -> Option<real>)
    ensures var c := Criteria(row, entityType, parseFloat);
      Lookup(c, "name") == FilledJson(row, "name", false) &&
      Lookup(c, "emails") == FilledJson(row, "email", true) &&
      Lookup(c, "phone_numbers") == FilledJson(row, "phone", true) &&
      Lookup(c, "city") == FilledJson(row, "city", false) &&
      Lookup(c, "state") == FilledJson(row, "state", false) &&
      Lookup(c, "country") == FilledJson(row, "country", false)
  {
    var values := CriteriaValues(row, entityType == "opportunities", parseFloat);
    CriteriaKeysDistinct();
    SlotsLookup(CriteriaKeys, values, 0);
    SlotsLookup(CriteriaKeys, values, 1);
    SlotsLookup(CriteriaKeys, values, 2);
    SlotsLookup(CriteriaKeys, values, 3);
    SlotsLookup(CriteriaKeys, values, 4);
    SlotsLookup(CriteriaKeys, values, 5);
  }

  /** Status and the minimum value are criteria only for opportunities. */
  lemma CriteriaOpportunityLookups(row: Row, entityType: string, parseFloat: string -> Option<real>)
    ensures var c := Criteria(row, entityType, parseFloat);
      Lookup(c, "status") == (if entityType == "opportunities" then FilledJson(row, "status", false) else None) &&
      (Lookup(c, "minimum_monetary_value").Some? <==>
        entityType == "opportunities" && Filled(row, "min_value").Some? && parseFloat(Filled(row, "min_value").value).Some?)
  {
    var values := CriteriaValues(row, entityType == "opportunities", parseFloat);
    CriteriaKeysDistinct();
    CriteriaKeysAt();
    SlotsLookup(CriteriaKeys, values, 6);
    SlotsLookup(CriteriaKeys, values, 7);
  }

  /** The tags are a criterion whenever the column is filled. */
  lemma CriteriaTagsLookup(row: Row, entityType: string, parseFloat: string -> Option<real>)
    ensures var c := Criteria(row, entityType, parseFloat);
      (Filled(row, "tags").Some? <==> Lookup(c, "tags").Some?) &&
      (Filled(row, "tags").Some? ==> Lookup(c, "tags") == Some(JList(TagValues(Tags(Filled(row, "tags").value)))))
  {
    var values := CriteriaValues(row, entityType == "opportunities", parseFloat);
    CriteriaKeysDistinct();
    CriteriaKeysAt();
    SlotsLookup(CriteriaKeys, values, 8);
  }

  /**
   * _build_criteria_from_row: each assignment adds a new key, so the
   * dictionary grows by one entry per criterion that applies.
   */
  method BuildCriteriaFromRow(row: Row, entityType: string, parseFloat: string -> Option<real>)
    returns (criteria: Fields)
    ensures criteria == Criteria(row, entityType, parseFloat)
  {
    var opportunities := entityType == "opportunities";
    criteria := ContactCriteria(row, opportunities, parseFloat);
    criteria := OpportunityCriteria(row, opportunities, parseFloat, criteria);
    ghost var before := criteria;
    var tags := Filled(row, "tags");
    if tags.Some? {
      criteria := criteria + [("tags", JList(TagValues(Tags(tags.value))))];
    }
    TagsStep(row, opportunities, parseFloat, before, criteria);
  }

  /** The last assignment, of the tags, completes the criteria. */
  lemma TagsStep(row: Row, opportunities: bool, parseFloat: string -> Option<real>, before: Fields, after: Fields)
    requires before == CriteriaPrefix(row, opportunities, parseFloat, 8)
    requires after == before + Entry(("tags", TagsCriterion(row)))
    ensures after == Entries(Slots(CriteriaKeys, CriteriaValues(row, opportunities, parseFloat)))
  {
    var slots := Slots(CriteriaKeys, CriteriaValues(row, opportunities, parseFloat));
    CriteriaKeysAt();
    AssignStep(slots, 9, before, after, "tags", TagsCriterion(row));
    assert slots[..9] == slots;
  }

  /** The criteria after the first `k` assignments. */
  function CriteriaPrefix(row: Row, opportunities: bool, parseFloat: string -> Option<real>, k: nat): Fields
    requires k <= |CriteriaKeys|
  {
    Entries(Slots(CriteriaKeys, CriteriaValues(row, opportunities, parseFloat))[..k])
  }

  /** `if row.get(column): criteria[key] = value`, the value wrapped in a list for emails and phone numbers. */
  method AssignFilled(criteria: Fields, row: Row, column: string, key: string, list: bool) returns (r: Fields)
    ensures r == criteria + Entry((key, FilledJson(row, column, list)))
  {
    r := criteria;
    var cell := Filled(row, column);
    if cell.Some? {
      r := r + [(key, if list then JList([JStr(cell.value)]) else JStr(cell.value))];
    }
  }

  /** The name, email, phone and location assignments of _build_criteria_from_row. */
  method ContactCriteria(row: Row, opportunities: bool, parseFloat: string -> Option<real>) returns (criteria: Fields)
    ensures criteria == CriteriaPrefix(row, opportunities, parseFloat, 6)
  {
    ghost var slots := Slots(CriteriaKeys, CriteriaValues(row, opportunities, parseFloat));
    CriteriaKeysAt();
    criteria := [];
    assert criteria == Entries(slots[..0]);
    ghost var before := criteria;
    criteria := AssignFilled(criteria, row, "name", "name", false);
    AssignStep(slots, 1, before, criteria, "name", FilledJson(row, "name", false));
    before := criteria;
    criteria := AssignFilled(criteria, row, "email", "emails", true);
    AssignStep(slots, 2, before, criteria, "emails", FilledJson(row, "email", true));
    before := criteria;
    criteria := AssignFilled(criteria, row, "phone", "phone_numbers", true);
    AssignStep(slots, 3, before, criteria, "phone_numbers", FilledJson(row, "phone", true));
    before := criteria;
    criteria := AssignFilled(criteria, row, "city", "city", false);
    AssignStep(slots, 4, before, criteria, "city", FilledJson(row, "city", false));
    before := criteria;
    criteria := AssignFilled(criteria, row, "state", "state", false);
    AssignStep(slots, 5, before, criteria, "state", FilledJson(row, "state", false));
    before := criteria;
    criteria := AssignFilled(criteria, row, "country", "country", false);
    AssignStep(slots, 6, before, criteria, "country", FilledJson(row, "country", false));
  }

  /** The opportunities-only assignments of _build_criteria_from_row: status and a parsable min_value. */
  method OpportunityCriteria(row: Row, opportunities: bool, parseFloat: string -> Option<real>, c: Fields) returns (criteria: Fields)
    requires c == CriteriaPrefix(row, opportunities, parseFloat, 6)
    ensures criteria == CriteriaPrefix(row, opportunities, parseFloat, 8)
  {
    ghost var slots := Slots(CriteriaKeys, CriteriaValues(row, opportunities, parseFloat));
    CriteriaKeysAt();
    criteria := c;
    ghost var before := criteria;
    if opportunities {
      var status := Filled(row, "status");
      if status.Some? {
        criteria := criteria + [("status", JStr(status.value))];
      }
    }
    AssignStep(slots, 7, before, criteria, "status", StatusCriterion(row, opportunities));
    before := criteria;
    if opportunities {
      var minValue := Filled(row, "min_value");
      if minValue.Some? {
        var parsed := parseFloat(minValue.value);
        if parsed.Some? {
          criteria := criteria + [("minimum_monetary_value", JFloat(parsed.value))];
        }
      }
    }
    AssignStep(slots, 8, before, criteria, "minimum_monetary_value", MinValueCriterion(row, opportunities, parseFloat));
  }

  /** One assignment of _build_criteria_from_row: the entry is added exactly when its value is present. */
  lemma AssignStep(slots: seq<(string, Option<Json>)>, k: nat, before: Fields, after: Fields, key: string, value: Option<Json>)
    requires 0 < k <= |slots| && before == Entries(slots[..k - 1]) && slots[k - 1] == (key, value)
    requires after == before + Entry((key, value))
    ensures after == Entries(slots[..k])
  {
    EntriesStep(slots, k);
  }

  /** The nine criteria keys, one by one. */
  lemma CriteriaKeysAt()
    ensures |CriteriaKeys| == 9
    ensures CriteriaKeys[0] == "name" && CriteriaKeys[1] == "emails" && CriteriaKeys[2] == "phone_numbers"
    ensures CriteriaKeys[3] == "city" && CriteriaKeys[4] == "state" && CriteriaKeys[5] == "country"
    ensures CriteriaKeys[6] == "status" && CriteriaKeys[7] == "minimum_monetary_value" && CriteriaKeys[8] == "tags"
  {
  }

  // ---------------------------------------------------------------------
  // detect_import_mode and _normalize_field_name

  datatype Mode = LookupMode | ImportMode

  /** The column names that mark a sheet as opportunity data. */
  const ImportIndicators: set<string> := {"value", "amount", "revenue", "monetary_value", "close_date",
    "expected_close", "stage", "pipeline_stage", "monthly_impressions", "impressions"}

  function AnyIndicator(keys: seq<string>, indicators: set<string>): (b: bool)
    ensures b <==> exists i :: 0 <= i < |keys| && Lower(keys[i]) in indicators
  {
    if keys == [] then false
    else if Lower(keys[0]) in indicators then true
    else
      var rest := AnyIndicator(keys[1..], indicators);
      assert rest <==> exists i :: 1 <= i < |keys| && Lower(keys[i]) in indicators by {
        if rest {
          var j :| 0 <= j < |keys[1..]| && Lower(keys[1..][j]) in indicators;
          assert keys[j + 1] == keys[1..][j];
        }
        if exists i :: 1 <= i < |keys| && Lower(keys[i]) in indicators {
          var i :| 1 <= i < |keys| && Lower(keys[i]) in indicators;
          assert keys[1..][i - 1] == keys[i];
        }
      }
      rest
  }

  lemma AnyIndicatorMembers(keys: seq<string>, indicators: set<string>)
    ensures AnyIndicator(keys, indicators) <==> exists k :: k in keys && Lower(k) in indicators
  {
    if exists k :: k in keys && Lower(k) in indicators {
      var k :| k in keys && Lower(k) in indicators;
      var i :| 0 <= i < |keys| && keys[i] == k;
    }
    if AnyIndicator(keys, indicators) {
      var i :| 0 <= i < |keys| && Lower(keys[i]) in indicators;
      assert keys[i] in keys;
    }
  }

  /** detect_import_mode: import iff the first row has a column that, lowercased, is an indicator. */
  function DetectImportMode(rows: seq<Row>): (m: Mode)
    ensures rows == [] ==> m == LookupMode
    ensures m == ImportMode <==> rows != [] && exists k :: k in Keys(rows[0]) && Lower(k) in ImportIndicators
  {
    if rows == [] then LookupMode
    else
      var keys := Keys(rows[0]);
      AnyIndicatorMembers(keys, ImportIndicators);
      if AnyIndicator(keys, ImportIndicators) then ImportMode else LookupMode
  }

  /** The aliases of each canonical opportunity field. */
  const NameAliases: seq<string> := ["name", "opportunity_name", "opportunity", "deal", "deal_name", "title"]
  const CompanyAliases: seq<string> := ["company", "company_name", "account", "account_name", "advertiser", "client"]
  const ContactAliases: seq<string> := ["contact", "contact_name", "main_contact", "primary_contact"]
  const ValueAliases: seq<string> :=
    ["value", "amount", "deal_value", "revenue", "monetary_value", "monthly_impressions", "impressions"]
  const CloseDateAliases: seq<string> := ["close_date", "expected_close", "close", "end_date"]
  const StatusAliases: seq<string> := ["status", "stage", "pipeline_stage"]
  const ImpressionsAliases: seq<string> := ["monthly_impressions", "impressions", "monthly_imps", "imps"]

  /** The canonical opportunity fields and their aliases, in declaration order. */
  const FieldMappings: seq<(string, seq<string>)> := [
    ("name", NameAliases),
    ("company_name", CompanyAliases),
    ("primary_contact_name", ContactAliases),
    ("monetary_value", ValueAliases),
    ("close_date", CloseDateAliases),
    ("status", StatusAliases),
    ("monthly_impressions", ImpressionsAliases)
  ]

  /** The position of the first mapping whose aliases hold `key`. */
  function FirstMapping(mappings: seq<(string, seq<string>)>, key: string): (r: Option<nat>)
    ensures r.Some? ==> r.value < |mappings| && key in mappings[r.value].1
    ensures r.Some? ==> forall j :: 0 <= j < r.value ==> key !in mappings[j].1
    ensures r.None? ==> forall j :: 0 <= j < |mappings| ==> key !in mappings[j].1
  {
    if mappings == [] then None
    else if key in mappings[0].1 then Some(0)
    else match FirstMapping(mappings[1..], key)
      case None => None
      case Some(i) => Some(i + 1)
  }

  /** The lowercased, stripped name, replaced by the canonical field of the first mapping that lists it. */
  function Normalize(mappings: seq<(string, seq<string>)>, field: string): string {
    var key := Strip(Lower(field));
    match FirstMapping(mappings, key)
    case Some(j) => mappings[j].0
    case None => key
  }

  /** _normalize_field_name. */
  function NormalizeFieldName(field: string): string {
    Normalize(FieldMappings, field)
  }

  /**
   * The name is replaced by the canonical field of the first mapping, in
   * declaration order, that lists it as an alias, and kept (lowercased and
   * stripped) when none does.
   */
  lemma NormalizeSpec(mappings: seq<(string, seq<string>)>, field: string)
    ensures var key := Strip(Lower(field));
      (exists j :: 0 <= j < |mappings| && key in mappings[j].1) ==>
        exists j :: 0 <= j < |mappings| && key in mappings[j].1 && Normalize(mappings, field) == mappings[j].0 &&
          forall i :: 0 <= i < j ==> key !in mappings[i].1
    ensures var key := Strip(Lower(field));
      (forall j :: 0 <= j < |mappings| ==> key !in mappings[j].1) ==> Normalize(mappings, field) == key
  {
    var key := Strip(Lower(field));
    var r := FirstMapping(mappings, key);
    if r.Some? {
      assert key in mappings[r.value].1 && Normalize(mappings, field) == mappings[r.value].0;
    }
  }

  /** The value aliases come first, so `impressions` becomes monetary_value rather than monthly_impressions. */
  lemma ImpressionsIsValue()
    ensures NormalizeFieldName("impressions") == "monetary_value"
  {
    assert FieldMappings[3].1 == ValueAliases && ValueAliases[6] == "impressions";
    assert "impressions" !in NameAliases && "impressions" !in CompanyAliases && "impressions" !in ContactAliases;
    NormalizesTo("impressions", 3);
  }

  /** So does `monthly_impressions`, which names a field of its own. */
  lemma MonthlyImpressionsIsValue()
    ensures NormalizeFieldName("monthly_impressions") == "monetary_value"
  {
    assert FieldMappings[3].1 == ValueAliases && ValueAliases[5] == "monthly_impressions";
    assert "monthly_impressions" !in NameAliases && "monthly_impressions" !in CompanyAliases;
    assert "monthly_impressions" !in ContactAliases;
    NormalizesTo("monthly_impressions", 3);
  }

  /**
   * Normalising is not idempotent: `imps` becomes monthly_impressions, which
   * normalises again to monetary_value.
   */
  lemma NormalizeNotIdempotent()
    ensures NormalizeFieldName("imps") == "monthly_impressions"
    ensures NormalizeFieldName(NormalizeFieldName("imps")) != NormalizeFieldName("imps")
  {
    assert FieldMappings[6].1 == ImpressionsAliases && ImpressionsAliases[3] == "imps";
    assert "imps" !in NameAliases && "imps" !in CompanyAliases && "imps" !in ContactAliases;
    assert "imps" !in ValueAliases && "imps" !in CloseDateAliases && "imps" !in StatusAliases;
    NormalizesTo("imps", 6);
    MonthlyImpressionsIsValue();
  }

  /** A lower-case name without surrounding spaces that is an alias of mapping `j` and of none before it. */
  lemma NormalizesTo(w: string, j: nat)
    requires w != [] && !IsSpace(w[0]) && !IsSpace(w[|w| - 1])
    requires forall k :: 0 <= k < |w| ==> !IsUpper(w[k])
    requires j < |FieldMappings| && w in FieldMappings[j].1
    requires forall i :: 0 <= i < j ==> w !in FieldMappings[i].1
    ensures NormalizeFieldName(w) == FieldMappings[j].0
  {
    LowerUntouched(w);
    StripUntouched(w);
    var r := FirstMapping(FieldMappings, w);
    assert r.Some?;
    assert r.value == j;
  }

  // ---------------------------------------------------------------------
  // process_opportunity_import

  /** The row with every column name passed through `norm`; a later column overwrites an earlier one with the same name. */
  function NormalizedRow(row: Row, norm: string -> string): Row {
    if row == [] then []
    else
      var last := row[|row| - 1];
      Put(NormalizedRow(row[..|row| - 1], norm), norm(last.0), last.1)
  }

  /** The value of the last column of `row` whose name `norm` maps to `key`, searched from the end. */
  function LastWith(row: Row, norm: string -> string, key: string): Option<string> {
    if row == [] then None
    else if norm(row[|row| - 1].0) == key then Some(row[|row| - 1].1)
    else LastWith(row[..|row| - 1], norm, key)
  }

  /** Each normalised field holds the value of the last column that normalises to it. */
  lemma {:induction false} NormalizedRowLastWins(row: Row, norm: string -> string, key: string)
    ensures Lookup(NormalizedRow(row, norm), key) == LastWith(row, norm, key)
    decreases |row|
  {
    if row != [] {
      NormalizedRowLastWins(row[..|row| - 1], norm, key);
    }
  }

  lemma NormalizeStep(row: Row, norm: string -> string, i: nat)
    requires i < |row|
    ensures NormalizedRow(row[..i + 1], norm) == Put(NormalizedRow(row[..i], norm), norm(row[i].0), row[i].1)
  {
    assert row[..i + 1][..i] == row[..i];
  }

  /** The inner loop of process_opportunity_import that normalises the column names. */
  method NormalizeRow(row: Row) returns (normalized: Row)
    ensures normalized == NormalizedRow(row, NormalizeFieldName)
  {
    normalized := [];
    var i := 0;
    while i < |row|
      invariant 0 <= i <= |row|
      invariant normalized == NormalizedRow(row[..i], NormalizeFieldName)
    {
      NormalizeStep(row, NormalizeFieldName, i);
      normalized := Put(normalized, NormalizeFieldName(row[i].0), row[i].1);
      i := i + 1;
    }
    assert row[..i] == row;
  }

  /** The money and date parsers of the import; None when a cell does not parse. */
  datatype ImportParsers = ImportParsers(money: string -> Option<real>, date: string -> Option<int>)

  datatype ErrorKind = MissingName | RowException
  datatype ImportError = ImportError(row: nat, error: ErrorKind, data: Row)
  datatype CreateItem = CreateItem(name: string, data: Fields)
  datatype UpdateItem = UpdateItem(id: Json, name: string, data: Fields, existing: Json)
  datatype RowPlan = ToCreate(create: CreateItem) | ToUpdate(update: UpdateItem) | Failed(failure: ImportError)

  function OptionalInt(n: Option<int>): Json {
    if n.Some? then JInt(n.value) else JNull
  }

  function RowJson(row: Row): (j: Json)
    ensures j.JObj? && |j.fields| == |row|
  {
    JObj(seq(|row|, i requires 0 <= i < |row| => (row[i].0, JStr(row[i].1))))
  }

  /** The first record a search found: None when there is none; `.get` on something that is not a dictionary raises. */
  function FirstRecord(found: Fetch<seq<Json>>): Fetch<Option<Fields>> {
    match found
    case Raised => Raised
    case Returned(rs) =>
      if rs == [] then Returned(None)
      else if rs[0].JObj? then Returned(Some(rs[0].fields))
      else Raised
  }

  /** The first company with the row's company name, when the row names one. */
  function CompanyRecord(crm: Crm, normalized: Row): Fetch<Option<Fields>> {
    match Filled(normalized, "company_name")
    case None => Returned(None)
    case Some(c) => FirstRecord(crm.search(Companies, [("name", JStr(c))]))
  }

  /** The first person with the row's contact name, when the row names one. */
  function ContactRecord(crm: Crm, normalized: Row): Fetch<Option<Fields>> {
    match Filled(normalized, "primary_contact_name")
    case None => Returned(None)
    case Some(c) => FirstRecord(crm.search(People, [("name", JStr(c))]))
  }

  /** The value when it is present and truthy (`if value:`). */
  function IfTruthy(v: Option<Json>): Option<Json> {
    if v.Some? && Truthy(v.value) then v else None
  }

  function Parsed<T>(cell: Option<string>, parse: string -> Option<T>): Option<T> {
    if cell.Some? then parse(cell.value) else None
  }

  /** The keys process_opportunity_import assigns in the opportunity data, in order. */
  const ImportDataKeys: seq<string> := ["name", "monetary_value", "close_date", "company_id", "company_name",
    "primary_contact_id", "pipeline_id", "pipeline_stage_id", "_source_row", "_raw_data"]

  lemma ImportDataKeysDistinct()
    ensures DistinctStrings(ImportDataKeys)
  {
    var lengths := [4, 14, 10, 10, 12, 18, 11, 17, 11, 9];
    forall i, j | 0 <= i < j < |ImportDataKeys| ensures ImportDataKeys[i] != ImportDataKeys[j] {
      assert |ImportDataKeys[i]| == lengths[i] && |ImportDataKeys[j]| == lengths[j];
      if i == 2 && j == 3 {
        assert ImportDataKeys[i][1] != ImportDataKeys[j][1];
      } else if lengths[i] == lengths[j] {
        assert ImportDataKeys[i][0] != ImportDataKeys[j][0];
      }
    }
  }

  /** What the CRM lookups of one row found: the first matching company and person, and whether the opportunity exists. */
  datatype Found = Found(company: Option<Fields>, contact: Option<Fields>, existing: bool)

  /** The value of the opportunity-data assignment number `i`, or None when it is skipped. */
  function ImportDataValue(p: ImportParsers, pipelineId: Option<int>, stageId: Option<int>, idx: nat, row: Row,
                           name: string, normalized: Row, found: Found, i: nat): Option<Json>
  {
    if i == 0 then Some(JStr(name))
    else if i == 1 then
      var money := Parsed(Filled(normalized, "monetary_value"), p.money);
      IfTruthy(if money.Some? then Some(JFloat(money.value)) else None)
    else if i == 2 then
      var date := Parsed(Filled(normalized, "close_date"), p.date);
      IfTruthy(if date.Some? then Some(JInt(date.value)) else None)
    else if i == 3 then
      if found.company.Some? then Some(GetOr(found.company.value, "id", JNull)) else None
    else if i == 4 then
      if found.company.Some? then Some(GetOr(found.company.value, "name", JNull)) else None
    else if i == 5 then
      if found.contact.Some? then Some(GetOr(found.contact.value, "id", JNull)) else None
    else if i == 6 then
      IfTruthy(if pipelineId.Some? then Some(JInt(pipelineId.value)) else None)
    else if i == 7 then
      if found.existing then None else IfTruthy(if stageId.Some? then Some(JInt(stageId.value)) else None)
    else if i == 8 then Some(JInt(idx))
    else Some(RowJson(row))
  }

  /** The opportunity data built for one row. */
  function OpportunityData(p: ImportParsers, pipelineId: Option<int>, stageId: Option<int>, idx: nat, row: Row,
                           name: string, normalized: Row, found: Found): Fields
  {
    Entries(Slots(ImportDataKeys, ImportDataValues(p, pipelineId, stageId, idx, row, name, normalized, found)))
  }

  function ImportDataValues(p: ImportParsers, pipelineId: Option<int>, stageId: Option<int>, idx: nat, row: Row,
                            name: string, normalized: Row, found: Found): (r: seq<Option<Json>>)
    ensures |r| == |ImportDataKeys|
  {
    seq(|ImportDataKeys|, i requires 0 <= i < |ImportDataKeys| =>
      ImportDataValue(p, pipelineId, stageId, idx, row, name, normalized, found, i))
  }

  /** The opportunity data holds the name. */
  lemma OpportunityDataName(p: ImportParsers, pipelineId: Option<int>, stageId: Option<int>, idx: nat, row: Row,
                            name: string, normalized: Row, found: Found)
    ensures Lookup(OpportunityData(p, pipelineId, stageId, idx, row, name, normalized, found), "name") == Some(JStr(name))
  {
    var values := ImportDataValues(p, pipelineId, stageId, idx, row, name, normalized, found);
    ImportDataKeysDistinct();
    assert ImportDataKeys[0] == "name";
    SlotsLookup(ImportDataKeys, values, 0);
  }

  /** The opportunity data holds the number of the row it came from. */
  lemma OpportunityDataRow(p: ImportParsers, pipelineId: Option<int>, stageId: Option<int>, idx: nat, row: Row,
                           name: string, normalized: Row, found: Found)
    ensures Lookup(OpportunityData(p, pipelineId, stageId, idx, row, name, normalized, found), "_source_row") == Some(JInt(idx))
  {
    var values := ImportDataValues(p, pipelineId, stageId, idx, row, name, normalized, found);
    ImportDataKeysDistinct();
    assert ImportDataKeys[8] == "_source_row";
    SlotsLookup(ImportDataKeys, values, 8);
  }

  /** The first stage is set exactly when the opportunity is new and a truthy stage is given. */
  lemma OpportunityDataStage(p: ImportParsers, pipelineId: Option<int>, stageId: Option<int>, idx: nat, row: Row,
                             name: string, normalized: Row, found: Found)
    ensures Lookup(OpportunityData(p, pipelineId, stageId, idx, row, name, normalized, found), "pipeline_stage_id") ==
      (if !found.existing && stageId.Some? && stageId.value != 0 then Some(JInt(stageId.value)) else None)
  {
    var values := ImportDataValues(p, pipelineId, stageId, idx, row, name, normalized, found);
    ImportDataKeysDistinct();
    assert ImportDataKeys[7] == "pipeline_stage_id";
    SlotsLookup(ImportDataKeys, values, 7);
  }

  /**
   * What process_opportunity_import does with row number `idx` (counting
   * from 1) once its column names are normalised: an error without a name or
   * when a CRM call raises, an update when an opportunity of that name
   * exists, a create otherwise.
   */
  function PlanNormalized(crm: Crm, p: ImportParsers, pipelineId: Option<int>, stageId: Option<int>, idx: nat, row: Row,
                          normalized: Row): RowPlan
  {
    match Filled(normalized, "name")
    case None => Failed(ImportError(idx, MissingName, row))
    case Some(name) =>
      match crm.findOpportunityByName(name, OptionalInt(pipelineId))
      case Raised => Failed(ImportError(idx, RowException, row))
      case Returned(found) =>
        match CompanyRecord(crm, normalized)
        case Raised => Failed(ImportError(idx, RowException, row))
        case Returned(company) =>
          match ContactRecord(crm, normalized)
          case Raised => Failed(ImportError(idx, RowException, row))
          case Returned(contact) =>
            var existing := found.Some? && Truthy(found.value);
            var data := OpportunityData(p, pipelineId, stageId, idx, row, name, normalized, Found(company, contact, existing));
            if !existing then ToCreate(CreateItem(name, data))
            else if found.value.JObj? && Lookup(found.value.fields, "id").Some? then
              ToUpdate(UpdateItem(Lookup(found.value.fields, "id").value, name, data, found.value))
            else Failed(ImportError(idx, RowException, row))
  }

  function PlanRow(crm: Crm, p: ImportParsers, pipelineId: Option<int>, stageId: Option<int>, idx: nat, row: Row): RowPlan {
    PlanNormalized(crm, p, pipelineId, stageId, idx, row, NormalizedRow(row, NormalizeFieldName))
  }

  function PlanData(plan: RowPlan): Fields
    requires !plan.Failed?
  {
    if plan.ToCreate? then plan.create.data else plan.update.data
  }

  /**
   * A row without a name is an error; every planned opportunity carries
   * its name and its row number; the first stage is set only on creates,
   * and on every create when a truthy stage is configured.
   */
  lemma PlanRowProperties(crm: Crm, p: ImportParsers, pipelineId: Option<int>, stageId: Option<int>, idx: nat, row: Row,
                          normalized: Row)
    ensures var plan := PlanNormalized(crm, p, pipelineId, stageId, idx, row, normalized);
      Filled(normalized, "name").None? ==> plan == Failed(ImportError(idx, MissingName, row))
    ensures var plan := PlanNormalized(crm, p, pipelineId, stageId, idx, row, normalized);
      plan.ToUpdate? ==> Lookup(plan.update.data, "pipeline_stage_id") == None
    ensures var plan := PlanNormalized(crm, p, pipelineId, stageId, idx, row, normalized);
      plan.ToCreate? ==>
        Lookup(plan.create.data, "pipeline_stage_id") == (if stageId.Some? && stageId.value != 0 then Some(JInt(stageId.value)) else None)
    ensures var plan := PlanNormalized(crm, p, pipelineId, stageId, idx, row, normalized);
      !plan.Failed? ==>
        Lookup(PlanData(plan), "name") == Some(JStr(Filled(normalized, "name").value)) &&
        Lookup(PlanData(plan), "_source_row") == Some(JInt(idx))
  {
    var plan := PlanNormalized(crm, p, pipelineId, stageId, idx, row, normalized);
    if !plan.Failed? {
      var name := Filled(normalized, "name").value;
      var found := crm.findOpportunityByName(name, OptionalInt(pipelineId)).value;
      var company := CompanyRecord(crm, normalized).value;
      var contact := ContactRecord(crm, normalized).value;
      var existing := found.Some? && Truthy(found.value);
      OpportunityDataName(p, pipelineId, stageId, idx, row, name, normalized, Found(company, contact, existing));
      OpportunityDataRow(p, pipelineId, stageId, idx, row, name, normalized, Found(company, contact, existing));
      OpportunityDataStage(p, pipelineId, stageId, idx, row, name, normalized, Found(company, contact, existing));
    }
  }

  /** The outcome of the import planning. */
  datatype ImportPlan = ImportPlan(totalRows: nat, toCreate: seq<CreateItem>, toUpdate: seq<UpdateItem>,
                                   errors: seq<ImportError>, pipelineId: Option<int>, stageId: Option<int>)

  function AddPlan(plan: ImportPlan, r: RowPlan): ImportPlan {
    match r
    case ToCreate(c) => plan.(toCreate := plan.toCreate + [c])
    case ToUpdate(u) => plan.(toUpdate := plan.toUpdate + [u])
    case Failed(e) => plan.(errors := plan.errors + [e])
  }

  /** The plan for the first |rows| rows of the sheet. */
  function PlanRows(crm: Crm, p: ImportParsers, pipelineId: Option<int>, stageId: Option<int>, total: nat, rows: seq<Row>): ImportPlan {
    if rows == [] then ImportPlan(total, [], [], [], pipelineId, stageId)
    else AddPlan(PlanRows(crm, p, pipelineId, stageId, total, rows[..|rows| - 1]),
                 PlanRow(crm, p, pipelineId, stageId, |rows|, rows[|rows| - 1]))
  }

  /** Every row lands in exactly one of the three lists. */
  lemma {:induction false} PlanPartitions(crm: Crm, p: ImportParsers, pipelineId: Option<int>, stageId: Option<int>, total: nat, rows: seq<Row>)
    ensures var plan := PlanRows(crm, p, pipelineId, stageId, total, rows);
      |plan.toCreate| + |plan.toUpdate| + |plan.errors| == |rows| && plan.totalRows == total
    decreases |rows|
  {
    if rows != [] {
      PlanPartitions(crm, p, pipelineId, stageId, total, rows[..|rows| - 1]);
    }
  }

  lemma PlanStep(crm: Crm, p: ImportParsers, pipelineId: Option<int>, stageId: Option<int>, total: nat, rows: seq<Row>, i: nat)
    requires i < |rows|
    ensures PlanRows(crm, p, pipelineId, stageId, total, rows[..i + 1]) ==
      AddPlan(PlanRows(crm, p, pipelineId, stageId, total, rows[..i]), PlanRow(crm, p, pipelineId, stageId, i + 1, rows[i]))
  {
    assert rows[..i + 1][..i] == rows[..i];
  }

  /**
   * process_opportunity_import, once the pipeline and its first stage are
   * known: the rows are planned one by one.
   */
  method ProcessOpportunityImport(crm: Crm, p: ImportParsers, rows: seq<Row>, pipelineId: Option<int>, stageId: Option<int>)
    returns (plan: ImportPlan)
    ensures plan == PlanRows(crm, p, pipelineId, stageId, |rows|, rows)
    ensures |plan.toCreate| + |plan.toUpdate| + |plan.errors| == plan.totalRows == |rows|
  {
    plan := ImportPlan(|rows|, [], [], [], pipelineId, stageId);
    var i := 0;
    while i < |rows|
      invariant 0 <= i <= |rows|
      invariant plan == PlanRows(crm, p, pipelineId, stageId, |rows|, rows[..i])
    {
      PlanStep(crm, p, pipelineId, stageId, |rows|, rows, i);
      var normalized := NormalizeRow(rows[i]);
      plan := AddPlan(plan, PlanNormalized(crm, p, pipelineId, stageId, i + 1, rows[i], normalized));
      i := i + 1;
    }
    assert rows[..i] == rows;
    PlanPartitions(crm, p, pipelineId, stageId, |rows|, rows);
  }

  // ---------------------------------------------------------------------
  // execute_opportunity_import

  /** The keys the import keeps to itself. */
  predicate Internal(k: string) { StartsWith(k, "_") }

  /** `{k: v for k, v in data.items() if not k.startswith('_')}`. */
  function PublicData(data: Fields): (r: Fields)
    ensures forall e :: e in r <==> e in data && !Internal(e.0)
    ensures forall k :: !Internal(k) ==> Lookup(r, k) == Lookup(data, k)
  {
    if data == [] then []
    else
      var rest := PublicData(data[1..]);
      var r := (if Internal(data[0].0) then [] else [data[0]]) + rest;
      assert r != [] && !Internal(data[0].0) ==> r[0] == data[0] && r[1..] == rest;
      assert Internal(data[0].0) ==> r == rest;
      r
  }

  /** The data an update sends: no internal keys, and neither the name nor the pipeline. */
  function UpdateData(data: Fields): (r: Fields)
    ensures forall e :: e in r ==> e in data && !Internal(e.0) && e.0 != "name" && e.0 != "pipeline_id"
    ensures Lookup(r, "name") == None && Lookup(r, "pipeline_id") == None
    ensures forall k :: !Internal(k) && k != "name" && k != "pipeline_id" ==> Lookup(r, k) == Lookup(data, k)
  {
    Remove(Remove(PublicData(data), "name"), "pipeline_id")
  }

  datatype FailReason = FailedToCreate | FailedToUpdate | ExecutionException
  datatype Done = Done(name: string, id: Json, noChanges: bool)
  datatype Outcome = Created(done: Done) | Updated(done: Done) | NotDone(name: string, reason: FailReason)

  /** One create: it counts as created only when the CRM answers with a record that has a truthy id. */
  function CreateOutcome(crm: Crm, item: CreateItem): (o: Outcome)
    ensures o.Created? ==> o.done.name == item.name && Truthy(o.done.id)
    ensures !o.Updated?
  {
    match crm.create(Opportunities, PublicData(item.data))
    case Raised => NotDone(item.name, ExecutionException)
    case Returned(None) => NotDone(item.name, FailedToCreate)
    case Returned(Some(r)) =>
      if !Truthy(r) then NotDone(item.name, FailedToCreate)
      else if !r.JObj? then NotDone(item.name, ExecutionException)
      else if Truthy(GetOr(r.fields, "id", JNull)) then Created(Done(item.name, GetOr(r.fields, "id", JNull), false))
      else NotDone(item.name, FailedToCreate)
  }

  /** One update: with nothing left to send it is recorded as unchanged and the CRM is not asked. */
  function UpdateOutcome(crm: Crm, item: UpdateItem): (o: Outcome)
    ensures UpdateData(item.data) == [] ==> o == Updated(Done(item.name, item.id, true))
    ensures o.Updated? ==> o.done.name == item.name && o.done.id == item.id
    ensures !o.Created?
  {
    var data := UpdateData(item.data);
    if data == [] then Updated(Done(item.name, item.id, true))
    else match crm.update(Opportunities, item.id, data)
      case Raised => NotDone(item.name, ExecutionException)
      case Returned(r) =>
        if r.Some? && Truthy(r.value) then Updated(Done(item.name, item.id, false))
        else NotDone(item.name, FailedToUpdate)
  }

  /** An update with nothing to send comes out the same whatever the CRM would do. */
  lemma NoChangesWithoutCall(crm: Crm, other: Crm, item: UpdateItem)
    requires UpdateData(item.data) == []
    ensures UpdateOutcome(crm, item) == UpdateOutcome(other, item) && UpdateOutcome(crm, item).done.noChanges
  {
  }

  datatype Execution = Execution(created: seq<Done>, updated: seq<Done>, failed: seq<(string, FailReason)>)

  function Record(e: Execution, o: Outcome): Execution {
    match o
    case Created(d) => e.(created := e.created + [d])
    case Updated(d) => e.(updated := e.updated + [d])
    case NotDone(n, why) => e.(failed := e.failed + [(n, why)])
  }

  function Size(e: Execution): nat { |e.created| + |e.updated| + |e.failed| }

  function CreateAll(crm: Crm, e: Execution, items: seq<CreateItem>): (r: Execution)
    ensures Size(r) == Size(e) + |items|
    ensures r.updated == e.updated
  {
    if items == [] then e
    else Record(CreateAll(crm, e, items[..|items| - 1]), CreateOutcome(crm, items[|items| - 1]))
  }

  function UpdateAll(crm: Crm, e: Execution, items: seq<UpdateItem>): (r: Execution)
    ensures Size(r) == Size(e) + |items|
    ensures r.created == e.created
  {
    if items == [] then e
    else Record(UpdateAll(crm, e, items[..|items| - 1]), UpdateOutcome(crm, items[|items| - 1]))
  }

  /** execute_opportunity_import as a value: the creates, then the updates. */
  function Execute(crm: Crm, plan: ImportPlan): Execution {
    UpdateAll(crm, CreateAll(crm, Execution([], [], []), plan.toCreate), plan.toUpdate)
  }

  /**
   * Every planned item lands in exactly one of created, updated or failed,
   * and only creates can be created.
   */
  lemma ExecuteAccountsForEveryItem(crm: Crm, plan: ImportPlan)
    ensures var e := Execute(crm, plan);
      |e.created| + |e.updated| + |e.failed| == |plan.toCreate| + |plan.toUpdate| && |e.created| <= |plan.toCreate|
  {
    var afterCreates := CreateAll(crm, Execution([], [], []), plan.toCreate);
    CreatedAtMost(crm, Execution([], [], []), plan.toCreate);
  }

  lemma {:induction false} CreatedAtMost(crm: Crm, e: Execution, items: seq<CreateItem>)
    ensures |CreateAll(crm, e, items).created| <= |e.created| + |items|
    decreases |items|
  {
    if items != [] {
      CreatedAtMost(crm, e, items[..|items| - 1]);
    }
  }

  lemma CreateStep(crm: Crm, e: Execution, items: seq<CreateItem>, i: nat)
    requires i < |items|
    ensures CreateAll(crm, e, items[..i + 1]) == Record(CreateAll(crm, e, items[..i]), CreateOutcome(crm, items[i]))
  {
    assert items[..i + 1][..i] == items[..i];
  }

  lemma UpdateStep(crm: Crm, e: Execution, items: seq<UpdateItem>, i: nat)
    requires i < |items|
    ensures UpdateAll(crm, e, items[..i + 1]) == Record(UpdateAll(crm, e, items[..i]), UpdateOutcome(crm, items[i]))
  {
    assert items[..i + 1][..i] == items[..i];
  }

  /** execute_opportunity_import: the two loops over the plan. */
  method ExecuteOpportunityImport(crm: Crm, plan: ImportPlan) returns (execution: Execution)
    ensures execution == Execute(crm, plan)
    ensures Size(execution) == |plan.toCreate| + |plan.toUpdate|
  {
    execution := Execution([], [], []);
    var i := 0;
    while i < |plan.toCreate|
      invariant 0 <= i <= |plan.toCreate|
      invariant execution == CreateAll(crm, Execution([], [], []), plan.toCreate[..i])
    {
      CreateStep(crm, Execution([], [], []), plan.toCreate, i);
      execution := Record(execution, CreateOutcome(crm, plan.toCreate[i]));
      i := i + 1;
    }
    assert plan.toCreate[..i] == plan.toCreate;
    ghost var afterCreates := execution;
    var j := 0;
    while j < |plan.toUpdate|
      invariant 0 <= j <= |plan.toUpdate|
      invariant execution == UpdateAll(crm, afterCreates, plan.toUpdate[..j])
    {
      UpdateStep(crm, afterCreates, plan.toUpdate, j);
      execution := Record(execution, UpdateOutcome(crm, plan.toUpdate[j]));
      j := j + 1;
    }
    assert plan.toUpdate[..j] == plan.toUpdate;
  }
}
