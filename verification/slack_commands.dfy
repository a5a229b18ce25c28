/**
 * The logic inside the bot's Slack handlers: routing of messages, the
 * argument parsing of the `/copper-update` and `/copper-create` commands,
 * the user id taken from a mention, the contact check and reconciliation of
 * uploaded spreadsheets, and the validation gate in front of every direct
 * CRM write. Slack itself (replies, events, acknowledgements) is not modelled;
 * the handlers' decisions are returned as values.
 */
module SlackCommands {
  import opened Text
  import opened JsonModel
  import opened Validation
  import CsvHandler

  type Row = CsvHandler.Row

  // ---------------------------------------------------------------------
  // Building a dictionary in order: later keys overwrite earlier ones

  /** Whether `f` stores something under key `k` for `x`. */
  predicate Stores<T, V>(f: T -> Option<(string, V)>, x: T, k: string) {
    f(x).Some? && f(x).value.0 == k
  }

  /**
   * The dictionary a loop builds by running `d[key] = value` for every pair
   * `f` yields, in order, skipping the items for which it yields nothing.
   */
  function Collect<T, V>(xs: seq<T>, f: T -> Option<(string, V)>): Dict<V>
    decreases |xs|
  {
    if xs == [] then []
    else
      var acc := Collect(xs[..|xs| - 1], f);
      match f(xs[|xs| - 1])
      case None => acc
      case Some(kv) => Store(acc, kv.0, kv.1)
  }

  /** Nothing is collected exactly when no item yields a pair. */
  lemma {:induction false} CollectEmpty<T, V>(xs: seq<T>, f: T -> Option<(string, V)>)
    ensures Collect(xs, f) == [] <==> forall i :: 0 <= i < |xs| ==> f(xs[i]).None?
    decreases |xs|
  {
    if xs != [] {
      var n := |xs| - 1;
      var init := xs[..n];
      CollectEmpty(init, f);
      assert forall i :: 0 <= i < n ==> init[i] == xs[i];
    }
  }

  /** A key is absent exactly when no item stores it. */
  lemma {:induction false} CollectAbsent<T, V>(xs: seq<T>, f: T -> Option<(string, V)>, k: string)
    ensures Lookup(Collect(xs, f), k).None? <==> forall i :: 0 <= i < |xs| ==> !Stores(f, xs[i], k)
    decreases |xs|
  {
    if xs != [] {
      var n := |xs| - 1;
      var init := xs[..n];
      CollectAbsent(init, f, k);
      assert forall i :: 0 <= i < n ==> init[i] == xs[i];
      match f(xs[n]) {
        case None =>
        case Some(kv) =>
          if kv.0 == k {
            StoreLookup(Collect(init, f), k, kv.1);
          } else {
            StoreOthers(Collect(init, f), kv.0, kv.1, k);
          }
      }
    }
  }

  /** A key holds the value of the last item that stores it. */
  lemma {:induction false} CollectLast<T, V>(xs: seq<T>, f: T -> Option<(string, V)>, k: string, i: nat)
    requires i < |xs| && Stores(f, xs[i], k)
    requires forall j :: i < j < |xs| ==> !Stores(f, xs[j], k)
    ensures Lookup(Collect(xs, f), k) == Some(f(xs[i]).value.1)
    decreases |xs|
  {
    var n := |xs| - 1;
    var init := xs[..n];
    if i < n {
      assert forall j :: i <= j < n ==> init[j] == xs[j];
      CollectLast(init, f, k, i);
      match f(xs[n]) {
        case None =>
        case Some(kv) => StoreOthers(Collect(init, f), kv.0, kv.1, k);
      }
    } else {
      StoreLookup(Collect(init, f), k, f(xs[n]).value.1);
    }
  }

  lemma CollectStep<T, V>(xs: seq<T>, f: T -> Option<(string, V)>, i: nat)
    requires i < |xs|
    ensures Collect(xs[..i + 1], f) ==
      match f(xs[i])
      case None => Collect(xs[..i], f)
      case Some(kv) => Put(Collect(xs[..i], f), kv.0, kv.1)
  {
    assert xs[..i + 1][..i] == xs[..i];
  }

  // ---------------------------------------------------------------------
  // /copper-update and /copper-create argument parsing

  /** The pair a `key=value` token of /copper-update assigns: split at the first '='. */
  function UpdatePair(token: string): (r: Option<(string, string)>)
    ensures r.Some? <==> '=' in token
    ensures r.Some? ==> '=' !in r.value.0 && token == r.value.0 + "=" + r.value.1
  {
    SplitFirst(token, '=')
  }

  /** value.strip('"').strip("'"). */
  function Unquote(v: string): (r: string)
    ensures r == [] || (r[0] != '\'' && r[|r| - 1] != '\'')
  {
    StripChars(StripChars(v, {'"'}), {'\''})
  }

  lemma StripCharsPlain(v: string, cs: set<char>)
    requires v == [] || (v[0] !in cs && v[|v| - 1] !in cs)
    ensures StripChars(v, cs) == v
  {
  }

  lemma StripCharsWrapped(v: string, c: char, cs: set<char>)
    requires v != [] && v[0] !in cs && v[|v| - 1] !in cs && c in cs
    ensures StripChars([c] + v + [c], cs) == v
  {
    var s := [c] + v + [c];
    assert s[1..] == v + [c];
    assert TrimStart(s, cs) == v + [c];
    assert (v + [c])[..|v|] == v;
  }

  /**
   * Values without quotes at either end are kept as they are, and a value
   * wrapped in double or in single quotes loses exactly those quotes.
   */
  lemma UnquoteRoundTrip(v: string)
    requires v != [] && v[0] !in {'"', '\''} && v[|v| - 1] !in {'"', '\''}
    ensures Unquote(v) == v
    ensures Unquote("\"" + v + "\"") == v
    ensures Unquote("'" + v + "'") == v
  {
    StripCharsPlain(v, {'"'});
    StripCharsPlain(v, {'\''});
    StripCharsWrapped(v, '"', {'"'});
    var single := "'" + v + "'";
    assert single == ['\''] + v + ['\''];
    StripCharsPlain(single, {'"'});
    StripCharsWrapped(v, '\'', {'\''});
  }

  /** The pair a `key=value` token of /copper-create assigns: split at the first '=', value unquoted. */
  function CreatePair(token: string): (r: Option<(string, string)>)
    ensures r.Some? <==> '=' in token
    ensures r.Some? ==> exists v :: token == r.value.0 + "=" + v && r.value.1 == Unquote(v)
  {
    match SplitFirst(token, '=')
    case None => None
    case Some(kv) => Some((kv.0, Unquote(kv.1)))
  }

  /** The loop that fills the dictionary from the tokens. */
  method CollectPairs(tokens: seq<string>, f: string -> Option<(string, string)>) returns (d: Dict<string>)
    ensures d == Collect(tokens, f)
  {
    d := [];
    var i := 0;
    while i < |tokens|
      invariant 0 <= i <= |tokens|
      invariant d == Collect(tokens[..i], f)
    {
      CollectStep(tokens, f, i);
      var pair := f(tokens[i]);
      if pair.Some? {
        d := Put(d, pair.value.0, pair.value.1);
      }
      i := i + 1;
    }
    assert tokens[..i] == tokens;
  }

  /** text.strip().split(): the words of a command. */
  function Words(command: string): seq<string> {
    SplitWs(Strip(command))
  }

  /** No token carries a `key=value` pair. */
  predicate NoAssignment(tokens: seq<string>) {
    forall i :: 0 <= i < |tokens| ==> '=' !in tokens[i]
  }

  /** The outcomes of /copper-update's argument parsing. */
  datatype UpdateCommand =
    | UpdateUsage
    | UpdateTooFewParts
    | UpdateBadId(token: string)
    | UpdateNoChanges
    | UpdateParsed(entityType: string, entityId: int, updates: Dict<string>)

  /**
   * /copper-update: `entity_type entity_id field=value ...`, split on
   * whitespace; the type is lower-cased, the id read by int(), and the
   * assignments collected with later keys overwriting earlier ones.
   */
  method ParseUpdateCommand(command: string) returns (r: UpdateCommand)
    ensures r == UpdateUsage <==> Strip(command) == []
    ensures r == UpdateTooFewParts <==> (Strip(command) != [] && |Words(command)| < 3)
    ensures r.UpdateBadId? <==> (Strip(command) != [] && |Words(command)| >= 3 && ParseInt(Words(command)[1]).None?)
    ensures r.UpdateBadId? ==> r.token == Words(command)[1]
    ensures r == UpdateNoChanges <==>
      (Strip(command) != [] && |Words(command)| >= 3 && ParseInt(Words(command)[1]).Some? && NoAssignment(Words(command)[2..]))
    ensures r.UpdateParsed? ==>
      (|Words(command)| >= 3 && r.entityType == Lower(Words(command)[0]) &&
       ParseInt(Words(command)[1]) == Some(r.entityId) && r.updates == Collect(Words(command)[2..], UpdatePair) && r.updates != [])
  {
    var text := Strip(command);
    if text == [] {
      return UpdateUsage;
    }
    var parts := SplitWs(text);
    if |parts| < 3 {
      return UpdateTooFewParts;
    }
    var entityType := Lower(parts[0]);
    var entityId := ParseInt(parts[1]);
    if entityId.None? {
      return UpdateBadId(parts[1]);
    }
    var updates := CollectPairs(parts[2..], UpdatePair);
    CollectEmpty(parts[2..], UpdatePair);
    if updates == [] {
      return UpdateNoChanges;
    }
    r := UpdateParsed(entityType, entityId.value, updates);
  }

  /** The type /copper-update records and the collection it reads the record from. */
  function UpdateTarget(entityType: string): (r: Option<(string, Collection)>)
    ensures r.Some? <==> entityType in {"person", "people", "company", "companies", "opportunity", "opportunities"}
    ensures r.Some? ==> r.value.0 in {"person", "company", "opportunity"}
  {
    if entityType in {"person", "people"} then Some(("person", People))
    else if entityType in {"company", "companies"} then Some(("company", Companies))
    else if entityType in {"opportunity", "opportunities"} then Some(("opportunity", Opportunities))
    else None
  }

  /** The outcomes of /copper-create's argument parsing. */
  datatype CreateCommand =
    | CreateUsage
    | CreateTooFewParts
    | CreateNoData
    | CreateMissingName
    | CreateParsed(entityType: string, data: Dict<string>, entityName: string)

  /** The default name of a record created without one. */
  const DefaultRecordName := "New Record"

  /**
   * The name of the record /copper-create asks for: the `name` value, or
   * "New Record" for a person without one; None when a name is missing.
   */
  function RecordName(entityType: string, data: Dict<string>): (name: Option<string>)
    ensures name.None? <==> Lookup(data, "name").None? && entityType != "person" && entityType != "people"
    ensures Lookup(data, "name").Some? ==> name == Lookup(data, "name")
    ensures Lookup(data, "name").None? && name.Some? ==> name.value == DefaultRecordName
  {
    match Lookup(data, "name")
    case Some(n) => Some(n)
    case None => if entityType in {"person", "people"} then Some(DefaultRecordName) else None
  }

  /**
   * /copper-create: `entity_type field=value ...`; values lose surrounding
   * quotes; a name is required except for people, whose record name
   * otherwise defaults to "New Record".
   */
  method ParseCreateCommand(command: string) returns (r: CreateCommand)
    ensures r == CreateUsage <==> Strip(command) == []
    ensures r == CreateTooFewParts <==> (Strip(command) != [] && |Words(command)| < 2)
    ensures Strip(command) != [] && |Words(command)| >= 2 ==> r == CreateFromWords(Words(command))
  {
    var text := Strip(command);
    if text == [] {
      return CreateUsage;
    }
    var parts := SplitWs(text);
    if |parts| < 2 {
      return CreateTooFewParts;
    }
    r := CreateRequest(parts);
  }

  /** The part of /copper-create after the words are split. */
  function CreateFromWords(parts: seq<string>): CreateCommand
    requires |parts| >= 2
  {
    var data := Collect(parts[1..], CreatePair);
    if data == [] then CreateNoData
    else match RecordName(Lower(parts[0]), data)
      case None => CreateMissingName
      case Some(name) => CreateParsed(Lower(parts[0]), data, name)
  }

  /** Fills the data from the `key=value` words and checks it. */
  method CreateRequest(parts: seq<string>) returns (r: CreateCommand)
    requires |parts| >= 2
    ensures r == CreateFromWords(parts)
    ensures r == CreateNoData <==> NoAssignment(parts[1..])
    ensures r == CreateMissingName <==>
      (!NoAssignment(parts[1..]) && RecordName(Lower(parts[0]), Collect(parts[1..], CreatePair)).None?)
    ensures r.CreateParsed? ==>
      (r.entityType == Lower(parts[0]) && r.data == Collect(parts[1..], CreatePair) && r.data != [] &&
       RecordName(r.entityType, r.data) == Some(r.entityName))
  {
    var entityType := Lower(parts[0]);
    var data := CollectPairs(parts[1..], CreatePair);
    CollectEmpty(parts[1..], CreatePair);
    if data == [] {
      return CreateNoData;
    }
    var name := RecordName(entityType, data);
    if name.None? {
      return CreateMissingName;
    }
    r := CreateParsed(entityType, data, name.value);
  }

  // ---------------------------------------------------------------------
  // User ids from mentions

  /** The characters stripped from both ends of a mention. */
  const MentionMarks: set<char> := {'<', '@', '>'}

  /** text.strip('<@>').split('|')[0]: the user id of `<@ID>`, `<@ID|name>` or a bare id. */
  function MentionId(text: string): (id: string)
    ensures '|' !in id
    ensures id == [] || id[0] !in MentionMarks
  {
    SplitOn(StripChars(text, MentionMarks), '|')[0]
  }

  lemma FirstPiece(s: string, id: string)
    requires |id| < |s| && s[..|id|] == id && s[|id|] == '|' && '|' !in id
    ensures SplitOn(s, '|')[0] == id
  {
    assert forall k :: 0 <= k < |id| ==> s[k] == id[k] && s[k] != '|';
    assert IndexOf(s, '|') == Some(|id|);
  }

  /** Characters of `cs` in front of text that does not start with one are all dropped. */
  lemma {:induction false} TrimStartPrefix(prefix: string, s: string, cs: set<char>)
    requires forall k :: 0 <= k < |prefix| ==> prefix[k] in cs
    requires s == [] || s[0] !in cs
    ensures TrimStart(prefix + s, cs) == s
    decreases |prefix|
  {
    if prefix == [] {
      assert prefix + s == s;
    } else {
      assert (prefix + s)[1..] == prefix[1..] + s;
      TrimStartPrefix(prefix[1..], s, cs);
    }
  }

  /** Trimming the end never reaches past a character outside `cs`. */
  lemma TrimEndKeeps(s: string, i: nat, cs: set<char>)
    requires i < |s| && s[i] !in cs
    ensures |TrimEnd(s, cs)| > i && TrimEnd(s, cs)[..i + 1] == s[..i + 1]
  {
  }

  lemma MentionIdClosed(id: string)
    requires id != [] && '|' !in id && id[0] !in MentionMarks && id[|id| - 1] !in MentionMarks
    ensures MentionId("<@" + id + ">") == id
  {
    var closed := id + ">";
    assert "<@" + id + ">" == "<@" + closed;
    TrimStartPrefix("<@", closed, MentionMarks);
    assert closed[..|id|] == id;
    assert StripChars("<@" + id + ">", MentionMarks) == id;
    assert SplitOn(id, '|') == [id];
  }

  lemma StripNamed(id: string, display: string)
    requires id != [] && id[0] !in MentionMarks
    ensures StripChars("<@" + id + "|" + display + ">", MentionMarks) == TrimEnd(id + "|" + display + ">", MentionMarks)
  {
    var rest := id + "|" + display + ">";
    assert "<@" + id + "|" + display + ">" == "<@" + rest;
    TrimStartPrefix("<@", rest, MentionMarks);
  }

  lemma NamedKeepsId(id: string, display: string)
    ensures var t := TrimEnd(id + "|" + display + ">", MentionMarks);
      |t| > |id| && t[..|id|] == id && t[|id|] == '|'
  {
    var rest := id + "|" + display + ">";
    var t := TrimEnd(rest, MentionMarks);
    assert rest[..|id| + 1] == id + "|";
    TrimEndKeeps(rest, |id|, MentionMarks);
    assert t[..|id| + 1][..|id|] == t[..|id|];
  }

  lemma MentionIdNamed(id: string, display: string)
    requires id != [] && '|' !in id && id[0] !in MentionMarks
    ensures MentionId("<@" + id + "|" + display + ">") == id
  {
    StripNamed(id, display);
    NamedKeepsId(id, display);
    FirstPiece(TrimEnd(id + "|" + display + ">", MentionMarks), id);
  }

  /** A mention with or without a display name, or the bare id, gives back the id. */
  lemma MentionIdRoundTrip(id: string, display: string)
    requires id != [] && '|' !in id && id[0] !in MentionMarks && id[|id| - 1] !in MentionMarks
    ensures MentionId(id) == id
    ensures MentionId("<@" + id + ">") == id
    ensures MentionId("<@" + id + "|" + display + ">") == id
  {
    assert StripChars(id, MentionMarks) == id;
    assert SplitOn(id, '|') == [id];
    MentionIdClosed(id);
    MentionIdNamed(id, display);
  }

  // ---------------------------------------------------------------------
  // Contact spreadsheets

  /** The column names that mark a spreadsheet as a contact list. */
  const ContactIndicators: set<string> :=
    {"email", "first name", "last name", "firstname", "lastname", "full name", "name", "company", "position", "title", "linkedin"}

  /** The lower-cased column names of a row. */
  function LowerColumns(row: Row): (cols: set<string>)
    ensures forall k :: k in Keys(row) ==> Lower(k) in cols
    ensures forall c :: c in cols ==> exists k :: k in Keys(row) && Lower(k) == c
  {
    set k | k in Keys(row) :: Lower(k)
  }

  /** _has_contact_data: at least two contact columns, compared lower-cased, in the first row. */
  function HasContactData(rows: seq<Row>): (b: bool)
    ensures rows == [] ==> !b
  {
    rows != [] && |LowerColumns(rows[0]) * ContactIndicators| >= 2
  }

  lemma TwoElements(s: set<string>)
    ensures |s| >= 2 <==> exists a, b :: a in s && b in s && a != b
  {
    if |s| >= 2 {
      var a :| a in s;
      assert |s - {a}| == |s| - 1;
      var b :| b in s - {a};
    }
    if exists a, b :: a in s && b in s && a != b {
      var a, b :| a in s && b in s && a != b;
      var others := s - {a, b};
      assert s == others + {a, b};
      assert |others + {a, b}| == |others| + |{a, b}|;
    }
  }

  /** Two columns of the row whose lower-cased names are different contact indicators. */
  ghost predicate TwoContactColumns(row: Row) {
    exists k1, k2 :: k1 in Keys(row) && k2 in Keys(row) && IndicatorPair(k1, k2)
  }

  predicate IndicatorPair(k1: string, k2: string) {
    Lower(k1) != Lower(k2) && Lower(k1) in ContactIndicators && Lower(k2) in ContactIndicators
  }

  /**
   * A spreadsheet holds contact data exactly when its first row has two
   * columns whose lower-cased names are different contact indicators.
   */
  lemma HasContactDataIff(rows: seq<Row>)
    ensures HasContactData(rows) <==> (rows != [] && TwoContactColumns(rows[0]))
  {
    if rows != [] {
      var row := rows[0];
      var found := LowerColumns(row) * ContactIndicators;
      TwoElements(found);
      if |found| >= 2 {
        var a, b :| a in found && b in found && a != b;
        var k1 :| k1 in Keys(row) && Lower(k1) == a;
        var k2 :| k2 in Keys(row) && Lower(k2) == b;
        assert IndicatorPair(k1, k2);
      }
      if TwoContactColumns(row) {
        var k1, k2 :| k1 in Keys(row) && k2 in Keys(row) && IndicatorPair(k1, k2);
        assert Lower(k1) in found && Lower(k2) in found;
      }
    }
  }

  /** A row entry with its column name lower-cased. */
  function LowerEntry(entry: (string, string)): Option<(string, string)> {
    Some((Lower(entry.0), entry.1))
  }

  /** {k.lower(): v for k, v in row.items()}. */
  function LowerRow(row: Row): Row {
    Collect(row, LowerEntry)
  }

  /** row.get(k, default). */
  function Get(row: Row, k: string, default: string): string {
    match Lookup(row, k)
    case Some(v) => v
    case None => default
  }

  /** A column looked up case-insensitively: the last column whose name lower-cases to `k`. */
  lemma LowerRowLookup(row: Row, k: string, i: nat)
    requires i < |row| && Lower(row[i].0) == k
    requires forall j :: i < j < |row| ==> Lower(row[j].0) != k
    ensures Get(LowerRow(row), k, "") == row[i].1
  {
    assert Stores(LowerEntry, row[i], k);
    assert forall j :: i < j < |row| ==> !Stores(LowerEntry, row[j], k);
    CollectLast(row, LowerEntry, k, i);
  }

  /** The person a reconciliation row describes. */
  datatype Contact = Contact(email: string, name: string, company: string)

  /**
   * The email (or e-mail) column, the name (or full name) column or else the
   * first and last names joined and stripped, and the company (or company
   * name, or organization) column.
   */
  function ContactOf(row: Row): (c: Contact)
    ensures var lower := LowerRow(row);
      Get(lower, "name", Get(lower, "full name", "")) != "" ==> c.name == Get(lower, "name", Get(lower, "full name", ""))
  {
    var lower := LowerRow(row);
    var name := Get(lower, "name", Get(lower, "full name", ""));
    var first := Get(lower, "first name", Get(lower, "firstname", ""));
    var last := Get(lower, "last name", Get(lower, "lastname", ""));
    Contact(
      Get(lower, "email", Get(lower, "e-mail", "")),
      if name != "" then name else Strip(first + " " + last),
      Get(lower, "company", Get(lower, "company name", Get(lower, "organization", ""))))
  }

  /** `name or email`: how a reconciled contact is listed. */
  function Shown(c: Contact): (s: string)
    ensures c.name != "" ==> s == c.name
    ensures c.name == "" ==> s == c.email
  {
    if c.name != "" then c.name else c.email
  }

  /** The people search of a row: by email when there is one, else by name. */
  function ContactCriteria(c: Contact): (criteria: Fields)
    ensures c.email != "" ==> Lookup(criteria, "emails") == Some(JList([JStr(c.email)])) && Lookup(criteria, "name").None?
    ensures c.email == "" ==> Lookup(criteria, "name") == Some(JStr(c.name)) && Lookup(criteria, "emails").None?
  {
    if c.email != "" then [("emails", JList([JStr(c.email)]))] else [("name", JStr(c.name))]
  }

  /**
   * `company and crm_company and company.lower() != crm_company.lower()`;
   * lower() on a CRM value that is not text raises.
   */
  function CompanyDiffers(company: string, crmCompany: Json): (r: Fetch<bool>)
    ensures r == Returned(true) <==> company != "" && crmCompany.JStr? && crmCompany.s != "" && Lower(company) != Lower(crmCompany.s)
    ensures r.Raised? <==> company != "" && Truthy(crmCompany) && !crmCompany.JStr?
  {
    if company == "" || !Truthy(crmCompany) then Returned(false)
    else if crmCompany.JStr? then Returned(Lower(company) != Lower(crmCompany.s))
    else Raised
  }

  datatype Match = Match(name: string, crmId: Json)
  datatype Mismatch = Mismatch(name: string, crmId: Json, crmData: Json, fileData: Row, crmCompany: Json, fileCompany: string)
  datatype Missing = Missing(name: string, email: string, company: string, fileData: Row)

  /** Where a spreadsheet row ends up. */
  datatype RowOutcome = Skipped | Matched(m: Match) | Mismatched(mm: Mismatch) | NotFound(nf: Missing)

  /** One iteration of the reconciliation loop; Raised for an exception that ends the loop. */
  function Classify(crm: Crm, row: Row): (r: Fetch<RowOutcome>)
    ensures var c := ContactOf(row);
      r == Returned(Skipped) <==> c.email == "" && c.name == ""
    ensures var c := ContactOf(row);
      r.Returned? && !r.value.Skipped? ==> crm.search(People, ContactCriteria(c)).Returned?
    ensures var c := ContactOf(row);
      r.Returned? && r.value.NotFound? ==>
        (crm.search(People, ContactCriteria(c)) == Returned([]) && r.value.nf == Missing(Shown(c), c.email, c.company, row))
    ensures var c := ContactOf(row);
      r.Returned? && (r.value.Matched? || r.value.Mismatched?) ==> crm.search(People, ContactCriteria(c)).value != []
    ensures r.Returned? && r.value.Mismatched? ==>
      r.value.mm.fileCompany != "" && r.value.mm.crmCompany.JStr? && r.value.mm.crmCompany.s != "" &&
      Lower(r.value.mm.fileCompany) != Lower(r.value.mm.crmCompany.s)
    ensures var c := ContactOf(row);
      r.Returned? && r.value.Matched? ==> CompanyDiffers(c.company, FieldOr(crm.search(People, ContactCriteria(c)).value[0], "company_name", JStr(""))) == Returned(false)
  {
    var c := ContactOf(row);
    if c.email == "" && c.name == "" then Returned(Skipped)
    else
      match crm.search(People, ContactCriteria(c))
      case Raised => Raised
      case Returned(results) =>
        if results == [] then Returned(NotFound(Missing(Shown(c), c.email, c.company, row)))
        else
          var person := results[0];
          if !person.JObj? then Raised
          else
            var crmCompany := GetOr(person.fields, "company_name", JStr(""));
            match CompanyDiffers(c.company, crmCompany)
            case Raised => Raised
            case Returned(differs) =>
              match Lookup(person.fields, "id")
              case None => Raised
              case Some(id) =>
                if differs then Returned(Mismatched(Mismatch(Shown(c), id, person, row, crmCompany, c.company)))
                else Returned(Matched(Match(Shown(c), id)))
  }

  /** The three lists of a reconciliation. */
  datatype Tally = Tally(matches: seq<Match>, notFound: seq<Missing>, mismatches: seq<Mismatch>)

  function Record(t: Tally, o: RowOutcome): Tally {
    match o
    case Skipped => t
    case Matched(m) => t.(matches := t.matches + [m])
    case Mismatched(mm) => t.(mismatches := t.mismatches + [mm])
    case NotFound(nf) => t.(notFound := t.notFound + [nf])
  }

  /** The loop over the rows as a value: each row's outcome recorded in order. */
  function Tallied(crm: Crm, rows: seq<Row>): Fetch<Tally>
    decreases |rows|
  {
    if rows == [] then Returned(Tally([], [], []))
    else
      match Tallied(crm, rows[..|rows| - 1])
      case Raised => Raised
      case Returned(t) =>
        match Classify(crm, rows[|rows| - 1])
        case Raised => Raised
        case Returned(o) => Returned(Record(t, o))
  }

  /** The number of rows that name neither an email nor a person. */
  function SkippedRows(rows: seq<Row>): (n: nat)
    ensures n <= |rows|
    decreases |rows|
  {
    if rows == [] then 0
    else
      var c := ContactOf(rows[|rows| - 1]);
      SkippedRows(rows[..|rows| - 1]) + if c.email == "" && c.name == "" then 1 else 0
  }

  /** The outcome of _handle_contact_reconciliation before it is formatted. */
  datatype Reconciliation = Reconciliation(tally: Tally, total: nat)

  /**
   * Every row that names a contact lands in exactly one of the three lists,
   * so the lists together hold all rows but the skipped ones.
   */
  lemma {:induction false} TalliedPartition(crm: Crm, rows: seq<Row>)
    ensures var r := Tallied(crm, rows);
      r.Returned? ==> |r.value.matches| + |r.value.mismatches| + |r.value.notFound| + SkippedRows(rows) == |rows|
    decreases |rows|
  {
    if rows != [] {
      TalliedPartition(crm, rows[..|rows| - 1]);
    }
  }

  lemma TalliedStep(crm: Crm, rows: seq<Row>, i: nat)
    requires i < |rows|
    ensures Tallied(crm, rows[..i + 1]) ==
      match Tallied(crm, rows[..i])
      case Raised => Raised
      case Returned(t) =>
        match Classify(crm, rows[i])
        case Raised => Raised
        case Returned(o) => Returned(Record(t, o))
  {
    assert rows[..i + 1][..i] == rows[..i];
  }

  /** _handle_contact_reconciliation: classify each row; an exception ends the whole run. */
  method ReconcileContacts(crm: Crm, rows: seq<Row>) returns (r: Fetch<Reconciliation>)
    ensures r.Raised? <==> Tallied(crm, rows).Raised?
    ensures r.Returned? ==> r.value == Reconciliation(Tallied(crm, rows).value, |rows|)
    ensures r.Returned? ==>
      |r.value.tally.matches| + |r.value.tally.mismatches| + |r.value.tally.notFound| + SkippedRows(rows) == r.value.total
  {
    var tally := Tally([], [], []);
    var i := 0;
    while i < |rows|
      invariant 0 <= i <= |rows|
      invariant Tallied(crm, rows[..i]) == Returned(tally)
    {
      TalliedStep(crm, rows, i);
      var outcome := Classify(crm, rows[i]);
      if outcome.Raised? {
        assert Tallied(crm, rows[..i + 1]).Raised?;
        TalliedRaised(crm, rows, i + 1);
        return Raised;
      }
      match outcome.value {
        case Skipped =>
        case Matched(m) => tally := tally.(matches := tally.matches + [m]);
        case Mismatched(mm) => tally := tally.(mismatches := tally.mismatches + [mm]);
        case NotFound(nf) => tally := tally.(notFound := tally.notFound + [nf]);
      }
      i := i + 1;
    }
    assert rows[..i] == rows;
    TalliedPartition(crm, rows);
    r := Returned(Reconciliation(tally, |rows|));
  }

  /** Once a row raises, the whole run has raised. */
  lemma {:induction false} TalliedRaised(crm: Crm, rows: seq<Row>, n: nat)
    requires n <= |rows| && Tallied(crm, rows[..n]).Raised?
    ensures Tallied(crm, rows).Raised?
    decreases |rows| - n
  {
    if n < |rows| {
      TalliedStep(crm, rows, n);
      TalliedRaised(crm, rows, n + 1);
    } else {
      assert rows[..n] == rows;
    }
  }

  // ---------------------------------------------------------------------
  // _execute_copper_operation

  /** The collection a type name of _execute_copper_operation addresses; other names address none. */
  function CollectionOf(entityType: string): (c: Option<Collection>)
    ensures c.Some? <==> (entityType in
      {"task", "tasks", "person", "people", "company", "companies", "opportunity", "opportunities", "lead", "leads", "project", "projects"})
  {
    if entityType in {"task", "tasks"} then Some(Tasks)
    else if entityType in {"person", "people"} then Some(People)
    else if entityType in {"company", "companies"} then Some(Companies)
    else if entityType in {"opportunity", "opportunities"} then Some(Opportunities)
    else if entityType in {"lead", "leads"} then Some(Leads)
    else if entityType in {"project", "projects"} then Some(Projects)
    else None
  }

  /** The CRM call an operation comes down to. */
  datatype Request =
    | CreateCall(collection: Collection, data: Fields)
    | UpdateCall(collection: Collection, id: int, data: Fields)
    | DeleteCall(collection: Collection, id: int)

  /** What the checks in front of the CRM call decide. */
  datatype Gate = Rejected(errors: seq<Error>) | Dropped | Call(request: Request)

  /**
   * The validation and id checks of _execute_copper_operation: create and
   * update data is validated and replaced by its sanitised form unless
   * validation is skipped; update and delete need a valid id; an unknown
   * operation or type, or a validation that raises, reaches no call.
   */
  function Prepare(p: Parsers, operation: string, entityType: string, data: Fields, entityId: Json, skipValidation: bool): (g: Gate)
    ensures g.Rejected? <==>
      (operation in {"create", "update"} && !skipValidation &&
       Validate(p, entityType, data, operation).Returned? && !Validate(p, entityType, data, operation).value.valid)
    ensures g.Rejected? ==> g.errors == Validate(p, entityType, data, operation).value.errors
    ensures g.Call? ==> operation in {"create", "update", "delete"} && CollectionOf(entityType) == Some(g.request.collection)
    ensures g.Call? ==> (g.request.CreateCall? <==> operation == "create") && (g.request.DeleteCall? <==> operation == "delete")
    ensures g.Call? && !g.request.CreateCall? ==> Some(g.request.id) == ValidateEntityId(entityId)
    ensures g.Call? && !g.request.DeleteCall? && skipValidation ==> g.request.data == data
    ensures g.Call? && !g.request.DeleteCall? && !skipValidation ==>
      Validate(p, entityType, data, operation) == Returned(Checked(true, g.request.data, []))
  {
    var checked: Fetch<Option<Fields>> :=
      if operation in {"create", "update"} && !skipValidation then
        match Validate(p, entityType, data, operation)
        case Raised => Raised
        case Returned(c) => Returned(if c.valid then Some(c.sanitized) else None)
      else Returned(Some(data));
    match checked
    case Raised => Dropped
    case Returned(None) => Rejected(Validate(p, entityType, data, operation).value.errors)
    case Returned(Some(fields)) =>
      match CollectionOf(entityType)
      case None => Dropped
      case Some(c) =>
        if operation == "create" then Call(CreateCall(c, fields))
        else if operation !in {"update", "delete"} then Dropped
        else match ValidateEntityId(entityId)
          case None => Dropped
          case Some(id) => if operation == "update" then Call(UpdateCall(c, id, fields)) else Call(DeleteCall(c, id))
  }

  /**
   * Whatever reaches the CRM through the validation gate carries only the
   * fields its entity type allows, and a create carries a name.
   */
  lemma PrepareSendsSanitized(p: Parsers, operation: string, entityType: string, data: Fields, entityId: Json)
    ensures var g := Prepare(p, operation, entityType, data, entityId, false);
      g.Call? && !g.request.DeleteCall? ==>
        AllowedFields(NormalizeEntityType(entityType)).Some? &&
        (forall k :: Lookup(g.request.data, k).Some? ==> k in AllowedFields(NormalizeEntityType(entityType)).value) &&
        (g.request.CreateCall? ==> Truthy(GetOr(g.request.data, RequiredField, JNull)))
  {
    ValidateProperties(p, entityType, data, operation);
  }

  /** What _execute_copper_operation returns: the validation errors, or a value (None for failures). */
  datatype Executed = ValidationError(errors: seq<Error>) | Result(value: Json)

  /** The CRM's answer to a request; None and exceptions both come back as None. */
  function Perform(crm: Crm, request: Request): (r: Json)
    ensures r != JNull && request.DeleteCall? ==> r.JBool?
  {
    match request
    case CreateCall(c, data) => (match crm.create(c, data) case Returned(Some(j)) => j case _ => JNull)
    case UpdateCall(c, id, data) => (match crm.update(c, JInt(id), data) case Returned(Some(j)) => j case _ => JNull)
    case DeleteCall(c, id) => (match crm.delete(c, JInt(id)) case Returned(b) => JBool(b) case Raised => JNull)
  }

  /** _execute_copper_operation. */
  function ExecuteCopperOperation(p: Parsers, crm: Crm, operation: string, entityType: string, data: Fields,
                                  entityId: Json, skipValidation: bool): (r: Executed)
    ensures r.ValidationError? <==> Prepare(p, operation, entityType, data, entityId, skipValidation).Rejected?
    ensures r.ValidationError? ==> r.errors != [] && !skipValidation
    ensures r.Result? && r.value != JNull ==> Prepare(p, operation, entityType, data, entityId, skipValidation).Call?
    ensures operation !in {"create", "update", "delete"} || CollectionOf(entityType).None? ==> r.Result? ==> r.value == JNull
    ensures operation in {"update", "delete"} && ValidateEntityId(entityId).None? ==> r.Result? ==> r.value == JNull
  {
    var g := Prepare(p, operation, entityType, data, entityId, skipValidation);
    if g.Rejected? then
      ValidateProperties(p, entityType, data, operation);
      ValidationError(g.errors)
    else if g.Dropped? then Result(JNull)
    else Result(Perform(crm, g.request))
  }

  // ---------------------------------------------------------------------
  // Message routing

  /** What a handler does with a message. */
  datatype Route = Ignored | Greeting | Help | TaskRequest | UpdateRequest | BusinessQuery

  /** The words that make a message an update request (substring test on the lower-cased text). */
  const UpdateWords: seq<string> := ["update", "change", "modify", "set", "edit"]

  /** The texts that ask for help in a direct message. */
  const HelpWords: set<string> := {"help", "?", "commands"}

  /**
   * The routing after the greeting or help checks: task requests first, then
   * update requests, then everything else as a business query.
   */
  function RouteRequest(text: string, isTaskRequest: string -> bool): (r: Route)
    ensures r in {TaskRequest, UpdateRequest, BusinessQuery}
    ensures r == TaskRequest <==> isTaskRequest(text)
  {
    if isTaskRequest(text) then TaskRequest
    else if MentionsAny(Lower(text), UpdateWords) then UpdateRequest
    else BusinessQuery
  }

  /**
   * A message that is not a task request is an update request exactly when
   * one of the update words occurs anywhere in its lower-cased text, even
   * inside another word.
   */
  lemma UpdateWordsRoute(text: string, isTaskRequest: string -> bool)
    ensures RouteRequest(text, isTaskRequest) == UpdateRequest <==>
      (!isTaskRequest(text) && exists i :: 0 <= i < |UpdateWords| && Contains(Lower(text), UpdateWords[i]))
  {
  }

  /** handle_mention, given the text with the bot's own mention removed. */
  function RouteMention(text: string, isTaskRequest: string -> bool): (r: Route)
    ensures r == Greeting <==> Strip(text) == []
    ensures Strip(text) != [] ==> r == RouteRequest(Strip(text), isTaskRequest)
  {
    var t := Strip(text);
    if t == [] then Greeting else RouteRequest(t, isTaskRequest)
  }

  /** `text.lower() in ["help", "?", "commands"]`. */
  predicate AsksForHelp(text: string) {
    Lower(text) in HelpWords
  }

  /** handle_message: only direct messages from people, with help words answered first. */
  function RouteDirectMessage(isDirect: bool, fromBot: bool, text: string, isTaskRequest: string -> bool): (r: Route)
    ensures r == Ignored <==> !isDirect || fromBot || Strip(text) == []
    ensures r == Help <==> isDirect && !fromBot && Strip(text) != [] && AsksForHelp(Strip(text))
    ensures isDirect && !fromBot && Strip(text) != [] && !AsksForHelp(Strip(text)) ==> r == RouteRequest(Strip(text), isTaskRequest)
  {
    var t := Strip(text);
    if !isDirect || fromBot || t == [] then Ignored
    else if AsksForHelp(t) then Help
    else RouteRequest(t, isTaskRequest)
  }

  /** A task request is never treated as an update request, whatever words it uses. */
  lemma TaskCheckFirst(text: string, isTaskRequest: string -> bool)
    requires Strip(text) != [] && isTaskRequest(Strip(text))
    ensures RouteMention(text, isTaskRequest) == TaskRequest
    ensures !AsksForHelp(Strip(text)) ==> RouteDirectMessage(true, false, text, isTaskRequest) == TaskRequest
  {
  }
}
