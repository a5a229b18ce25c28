/**
 * Turning a task request into a CRM task: the keyword parser's defaults
 * (assignee, priority, 12-hour to 24-hour time), the fallback from the
 * language model and its assignee resolution, the search for the record the
 * task is about, the Copper task payload, and the confirmation shown
 * to the requester.
 */
module TaskProcessor {
  import opened Text
  import opened JsonModel

  // ---------------------------------------------------------------------
  // Parsed task

  /** The parsed task; None stands for a missing or null value. */
  datatype ParsedTask = ParsedTask(
    description: string,
    assigneeSlackId: Option<string>,
    dueDate: Option<string>,
    dueTime: Option<string>,
    relatedName: Option<string>,
    relatedType: Option<string>,
    priority: Option<string>,
    originalText: string,
    requester: string)

  /** A text value that is present and non-empty, i.e. truthy. */
  predicate Given(x: Option<string>) {
    x.Some? && x.value != ""
  }

  /** The words that make a task urgent. */
  const UrgencyWords: seq<string> := ["urgent", "asap", "immediately", "critical"]

  /** A match of the "at H[:MM] [am|pm]" pattern: the hour, the minutes if written, the meridiem if written. */
  datatype TimeMatch = TimeMatch(hour: nat, minute: Option<nat>, meridiem: Option<string>)

  /** The pattern searches and date arithmetic of the keyword parser. */
  datatype TaskRecognisers = TaskRecognisers(
    dueDate: string -> Option<string>,
    time: string -> Option<TimeMatch>,
    mention: string -> Option<string>,
    entity: string -> Option<string>,
    clean: string -> string)

  /** The 12-hour clock reading as a 24-hour hour. */
  function ConvertHour(hour: nat, meridiem: Option<string>): nat {
    if meridiem == Some("pm") && hour < 12 then hour + 12
    else if meridiem == Some("am") && hour == 12 then 0
    else hour
  }

  /** For a proper 12-hour reading the conversion is the usual one: 12 am is midnight, 12 pm is noon. */
  lemma ConvertHourIsClock(hour: nat, meridiem: Option<string>)
    requires 1 <= hour <= 12 && (meridiem == Some("am") || meridiem == Some("pm"))
    ensures ConvertHour(hour, meridiem) == hour % 12 + (if meridiem == Some("pm") then 12 else 0)
    ensures ConvertHour(hour, meridiem) < 24
    ensures ConvertHour(hour, meridiem) < 12 <==> meridiem == Some("am")
  {
  }

  /** A number formatted with "{:02d}": at least two digits. */
  function ZeroPad(n: nat): (s: string)
    ensures |s| >= 2 && AllDigits(s)
  {
    if n < 100 then PadTwo(n) else NatToString(n)
  }

  /** The padded number reads back as the number. */
  lemma ZeroPadParses(n: nat)
    ensures ParseNat(ZeroPad(n)) == Some(n)
  {
    var s := ZeroPad(n);
    if n < 100 {
      assert s[..1][..0] == [];
      assert DigitsValue(s[..1]) == DigitValue(s[0]);
      assert s[..|s| - 1] == s[..1];
    } else {
      DigitsOfNat(n);
    }
  }

  /** The "HH:MM" text of a time. */
  function Clock(hour: nat, minute: nat): (s: string)
    ensures |s| == |ZeroPad(hour)| + 1 + |ZeroPad(minute)| && s[|ZeroPad(hour)|] == ':'
    ensures s[..|ZeroPad(hour)|] == ZeroPad(hour) && s[|ZeroPad(hour)| + 1..] == ZeroPad(minute)
  {
    ZeroPad(hour) + ":" + ZeroPad(minute)
  }

  /** The due time the keyword parser writes for a time match; minutes default to zero. */
  function DueTime(m: TimeMatch): string {
    Clock(ConvertHour(m.hour, m.meridiem), if m.minute.Some? then m.minute.value else 0)
  }

  /** The hour and minutes read back from the written due time. */
  lemma DueTimeParses(m: TimeMatch)
    ensures var s := DueTime(m); var h := ConvertHour(m.hour, m.meridiem); var n := |ZeroPad(h)|;
      ParseNat(s[..n]) == Some(h) && s[n] == ':'
      && ParseNat(s[n + 1..]) == Some(if m.minute.Some? then m.minute.value else 0)
  {
    ZeroPadParses(ConvertHour(m.hour, m.meridiem));
    ZeroPadParses(if m.minute.Some? then m.minute.value else 0);
  }

  /** _parse_basic; the due date, the time match, the mention, the entity name and the cleaned text come from `rec`. */
  function ParseTaskBasic(rec: TaskRecognisers, text: string, requester: string): ParsedTask {
    var lowered := Lower(text);
    var entity := rec.entity(text);
    ParsedTask(
      rec.clean(text),
      Some(if rec.mention(text).Some? then rec.mention(text).value else requester),
      rec.dueDate(lowered),
      if rec.time(lowered).Some? then Some(DueTime(rec.time(lowered).value)) else None,
      if entity.Some? then Some(Strip(entity.value)) else None,
      if entity.Some? then Some("company") else None,
      Some(if MentionsAny(lowered, UrgencyWords) then "high" else "normal"),
      text,
      requester)
  }

  /**
   * The keyword parser assigns a task to the requester unless the text
   * mentions someone, keeps priority normal unless an urgency word occurs,
   * and takes a named entity for a company.
   */
  lemma ParseTaskBasicDefaults(rec: TaskRecognisers, text: string, requester: string)
    ensures var p := ParseTaskBasic(rec, text, requester);
      && (rec.mention(text).None? ==> p.assigneeSlackId == Some(requester))
      && (p.priority == Some("high") <==> exists i :: 0 <= i < |UrgencyWords| && Contains(Lower(text), UrgencyWords[i]))
      && (p.priority == Some("normal") <==> !MentionsAny(Lower(text), UrgencyWords))
      && (p.relatedType.Some? <==> p.relatedName.Some?)
      && (p.relatedType.Some? ==> p.relatedType == Some("company"))
      && p.originalText == text && p.requester == requester
  {
  }

  // ---------------------------------------------------------------------
  // The language-model parse and its fallback

  /** The fields of the model's JSON reply that the bot reads; None for a missing or null one. */
  datatype LlmTask = LlmTask(
    description: Option<string>,
    assignee: Option<string>,
    dueDate: Option<string>,
    dueTime: Option<string>,
    relatedName: Option<string>,
    relatedType: Option<string>,
    priority: Option<string>)

  /** The Slack id a task goes to: the requester for "self" or anything that is not an "@" mention, else the mentioned id. */
  function ResolveAssignee(assignee: Option<string>, requester: string, extract: string -> Option<string>): Option<string> {
    if assignee == Some("self") then Some(requester)
    else if Given(assignee) && StartsWith(assignee.value, "@") then extract(assignee.value)
    else Some(requester)
  }

  /** Only an "@" mention can send a task to someone other than the requester. */
  lemma ResolveAssigneeRequester(assignee: Option<string>, requester: string, extract: string -> Option<string>)
    ensures ResolveAssignee(assignee, requester, extract) != Some(requester) ==>
      assignee.Some? && StartsWith(assignee.value, "@")
    ensures assignee.Some? && assignee.value != "" && assignee.value[0] != '@' ==>
      ResolveAssignee(assignee, requester, extract) == Some(requester)
  {
  }

  /** The parsed task built from the model's reply. */
  function FromLlm(reply: LlmTask, text: string, requester: string, extract: string -> Option<string>): (p: ParsedTask)
    ensures Given(reply.description) ==> p.description == reply.description.value
    ensures !Given(reply.description) ==> p.description == text
  {
    ParsedTask(
      if Given(reply.description) then reply.description.value else text,
      ResolveAssignee(reply.assignee, requester, extract),
      reply.dueDate, reply.dueTime, reply.relatedName, reply.relatedType, reply.priority,
      text, requester)
  }

  /** parse_task: the model's reply when there is a client and the call succeeds; the keyword parser otherwise. */
  function ParseTask(rec: TaskRecognisers, text: string, requester: string, hasClient: bool,
                     llm: Fetch<LlmTask>, extract: string -> Option<string>): (p: ParsedTask)
    ensures p.originalText == text && p.requester == requester
    ensures !hasClient || llm.Raised? ==> p == ParseTaskBasic(rec, text, requester)
    ensures hasClient && llm.Returned? ==>
      p.assigneeSlackId == ResolveAssignee(llm.value.assignee, requester, extract) && (p.description == "" ==> text == "")
  {
    if hasClient && llm.Returned? then FromLlm(llm.value, text, requester, extract)
    else ParseTaskBasic(rec, text, requester)
  }

  // ---------------------------------------------------------------------
  // The related record

  function CollectionName(c: Collection): string {
    match c
    case People => "people"
    case Companies => "companies"
    case Opportunities => "opportunities"
    case Leads => "leads"
    case Tasks => "tasks"
    case Projects => "projects"
  }

  /** The collections searched for a related record, in order, for an entity-type hint. */
  function SearchOrder(hint: Option<string>): (r: seq<Collection>)
    ensures multiset(r) == multiset{Companies, Opportunities, People}
    ensures hint == Some("person") ==> r[0] == People
    ensures hint == Some("opportunity") ==> r[0] == Opportunities
    ensures hint != Some("person") && hint != Some("opportunity") ==> r[0] == Companies
  {
    if hint == Some("person") then [People, Companies, Opportunities]
    else if hint == Some("opportunity") then [Opportunities, Companies, People]
    else [Companies, Opportunities, People]
  }

  /** The record a task is linked to. */
  datatype RelatedEntity = RelatedEntity(id: Json, name: Json, typeName: string, copperType: Collection)

  /** The type name find_related_entity gives, as written: 'company', else the collection name with trailing s's stripped. */
  function TypeNameAsWritten(c: Collection): string {
    if c == Companies then "company" else TrimEnd(CollectionName(c), {'s'})
  }

  /** The record type names the CRM accepts in a related resource. */
  const ResourceTypes: seq<string> := ["company", "person", "opportunity", "lead", "project"]

  /** Stripping the s's leaves 'people' and 'opportunitie', neither of which is a record type. */
  lemma TypeNameAsWrittenWrong()
    ensures TypeNameAsWritten(People) == "people" && "people" !in ResourceTypes
    ensures TypeNameAsWritten(Opportunities) == "opportunitie" && "opportunitie" !in ResourceTypes
  {
    assert TrimEnd("people", {'s'}) == "people";
    var o := "opportunities";
    assert TrimEnd(o, {'s'}) == TrimEnd(o[..12], {'s'});
    assert o[..12] == "opportunitie";
    assert TrimEnd("opportunitie", {'s'}) == "opportunitie";
    assert |"people"| == 6 && |"opportunitie"| == 12;
    var lengths := [7, 6, 11, 4, 7];
    forall i | 0 <= i < |ResourceTypes| ensures ResourceTypes[i] != "people" && ResourceTypes[i] != "opportunitie" {
      assert |ResourceTypes[i]| == lengths[i];
      if i == 1 {
        assert ResourceTypes[1][2] != "people"[2];
      }
    }
  }

  /** The singular record type of a searched collection. */
  function SingularName(c: Collection): string {
    match c
    case People => "person"
    case Companies => "company"
    case Opportunities => "opportunity"
    case Leads => "lead"
    case Tasks => "task"
    case Projects => "project"
  }

  /** Every collection find_related_entity searches is named by a record type the CRM accepts. */
  lemma SingularNamesAreTypes(c: Collection)
    requires c in {Companies, Opportunities, People}
    ensures SingularName(c) in ResourceTypes
  {
  }

  /**
   * The searched record as a related entity, named by its singular record
   * type: the intended type name, which the rest of the model uses.
   */
  function Describe(record: Json, c: Collection): (r: RelatedEntity)
    ensures r.id == Field(record, "id") && r.name == Field(record, "name") && r.copperType == c
    ensures c in {Companies, Opportunities, People} ==> r.typeName in ResourceTypes
  {
    RelatedEntity(Field(record, "id"), Field(record, "name"), SingularName(c), c)
  }

  /** The searched record as find_related_entity builds it, with the type name as written. */
  function DescribeAsWritten(record: Json, c: Collection): RelatedEntity {
    RelatedEntity(Field(record, "id"), Field(record, "name"), TypeNameAsWritten(c), c)
  }

  /** The as-written type name is the singular one for every collection but people and opportunities. */
  lemma TypeNameAsWrittenAgrees(c: Collection)
    ensures TypeNameAsWritten(c) == SingularName(c) <==> c !in {People, Opportunities}
  {
    match c
    case People => TypeNameAsWrittenWrong();
    case Opportunities => TypeNameAsWrittenWrong();
    case Companies =>
    case Leads =>
      assert TrimEnd("leads", {'s'}) == TrimEnd("lead", {'s'});
    case Tasks =>
      assert TrimEnd("tasks", {'s'}) == TrimEnd("task", {'s'});
    case Projects =>
      assert TrimEnd("projects", {'s'}) == TrimEnd("project", {'s'});
  }

  /**
   * The as-written entity differs from the modelled one in its type name
   * alone, and only for a hit in people or opportunities, where the CRM
   * receives a type it does not know.
   */
  lemma DescribeAsWrittenDiffers(record: Json, c: Collection)
    requires c in {Companies, Opportunities, People}
    ensures DescribeAsWritten(record, c) == Describe(record, c).(typeName := TypeNameAsWritten(c))
    ensures DescribeAsWritten(record, c) == Describe(record, c) <==> c == Companies
    ensures c != Companies ==> DescribeAsWritten(record, c).typeName !in ResourceTypes
  {
    TypeNameAsWrittenAgrees(c);
    TypeNameAsWrittenWrong();
  }

  /** The search criteria of a name. */
  function NameCriteria(name: string): Fields {
    [("name", JStr(name))]
  }

  /**
   * The search of collection `c` returned some record and its first record is a dictionary:
   * `.get` on any other first record raises, and the loop's handler moves on.
   */
  predicate Hit(crm: Crm, name: string, c: Collection) {
    crm.search(c, NameCriteria(name)).Returned? && crm.search(c, NameCriteria(name)).value != []
    && crm.search(c, NameCriteria(name)).value[0].JObj?
  }

  /** The first record of the first collection, in order, whose search returns any; failing searches are skipped. */
  function FirstFound(crm: Crm, name: string, order: seq<Collection>): (r: Option<RelatedEntity>)
    ensures r.None? <==> forall i :: 0 <= i < |order| ==> !Hit(crm, name, order[i])
    ensures r.Some? ==> exists i ::
      (0 <= i < |order| && Hit(crm, name, order[i])
       && (forall j :: 0 <= j < i ==> !Hit(crm, name, order[j]))
       && r.value == Describe(crm.search(order[i], NameCriteria(name)).value[0], order[i]))
  {
    if order == [] then None
    else if Hit(crm, name, order[0]) then
      Some(Describe(crm.search(order[0], NameCriteria(name)).value[0], order[0]))
    else
      var r := FirstFound(crm, name, order[1..]);
      assert forall i :: 0 < i < |order| ==> order[i] == order[1..][i - 1];
      r
  }

  /** One search of the loop: a hit ends it, anything else moves on to the next collection. */
  lemma FirstFoundStep(crm: Crm, name: string, order: seq<Collection>, i: nat)
    requires i < |order|
    ensures Hit(crm, name, order[i]) ==>
      FirstFound(crm, name, order[i..]) == Some(Describe(crm.search(order[i], NameCriteria(name)).value[0], order[i]))
    ensures !Hit(crm, name, order[i]) ==> FirstFound(crm, name, order[i..]) == FirstFound(crm, name, order[i + 1..])
  {
    assert order[i..][0] == order[i] && order[i..][1..] == order[i + 1..];
  }

  /** A first record that is not a dictionary is no hit: the search goes on with the next collection. */
  lemma FirstFoundSkipsNonDictionary(crm: Crm, name: string, c: Collection, rest: seq<Collection>)
    requires crm.search(c, NameCriteria(name)).Returned? && crm.search(c, NameCriteria(name)).value != []
    requires !crm.search(c, NameCriteria(name)).value[0].JObj?
    ensures FirstFound(crm, name, [c] + rest) == FirstFound(crm, name, rest)
  {
    assert ([c] + rest)[1..] == rest;
  }

  /** The search loop of find_related_entity: the collections are tried in order until one returns a record. */
  method SearchInOrder(crm: Crm, name: string, order: seq<Collection>) returns (r: Option<RelatedEntity>)
    ensures r == FirstFound(crm, name, order)
  {
    var i := 0;
    while i < |order|
      invariant 0 <= i <= |order|
      invariant FirstFound(crm, name, order) == FirstFound(crm, name, order[i..])
    {
      FirstFoundStep(crm, name, order, i);
      var results := crm.search(order[i], NameCriteria(name));
      if results.Returned? && results.value != [] && results.value[0].JObj? {
        return Some(Describe(results.value[0], order[i]));
      }
      i := i + 1;
    }
    return None;
  }

  /** find_related_entity; the type name is the singular record type (see TypeNameAsWritten for the source's own). */
  method FindRelatedEntity(crm: Crm, hasClient: bool, name: string, hint: Option<string>) returns (r: Option<RelatedEntity>)
    ensures !hasClient || name == "" ==> r.None?
    ensures hasClient && name != "" ==> r == FirstFound(crm, name, SearchOrder(hint))
  {
    if !hasClient || name == "" {
      return None;
    }
    r := SearchInOrder(crm, name, SearchOrder(hint));
  }

  // ---------------------------------------------------------------------
  // The CRM task

  /** copper_type_map.get(t, t). */
  function CopperType(t: string): string {
    match Lookup(CopperTypeMap, t)
    case Some(v) => v
    case None => t
  }

  const CopperTypeMap: Dict<string> :=
    [("company", "company"), ("person", "person"), ("opportunity", "opportunity"), ("lead", "lead"), ("project", "project")]

  /** The map sends each of its keys to itself and passes other names through, so it never changes a type name. */
  lemma CopperTypeUnchanged(t: string)
    ensures CopperType(t) == t
  {
    match Lookup(CopperTypeMap, t)
    case None =>
    case Some(v) =>
      assert (t, v) in CopperTypeMap;
  }

  /** The keys build_copper_task assigns, in order. */
  const TaskKeys: seq<string> := ["name", "assignee_id", "due_date", "priority", "related_resource"]

  lemma TaskKeysDistinct()
    ensures DistinctStrings(TaskKeys)
  {
    var lengths := [4, 11, 8, 8, 16];
    forall i, j | 0 <= i < j < |TaskKeys| ensures TaskKeys[i] != TaskKeys[j] {
      assert |TaskKeys[i]| == lengths[i] && |TaskKeys[j]| == lengths[j];
      if lengths[i] == lengths[j] {
        assert TaskKeys[i][0] != TaskKeys[j][0];
      }
    }
  }

  /** The text the due timestamp is parsed from: the date and the time, or five in the afternoon. */
  function DueText(p: ParsedTask): string
    requires Given(p.dueDate)
  {
    p.dueDate.value + (if Given(p.dueTime) then " " + p.dueTime.value else " 17:00")
  }

  function AssigneeValue(assignee: Option<int>): Option<Json> {
    if assignee.Some? && assignee.value != 0 then Some(JInt(assignee.value)) else None
  }

  function DueValue(p: ParsedTask, timestamp: string -> Option<int>): Option<Json> {
    if Given(p.dueDate) && timestamp(DueText(p)).Some? then Some(JInt(timestamp(DueText(p)).value)) else None
  }

  function PriorityValue(p: ParsedTask): Option<Json> {
    if p.priority == Some("high") then Some(JStr("High")) else None
  }

  function ResourceValue(related: Option<RelatedEntity>): Option<Json> {
    if related.Some? then Some(JObj([("type", JStr(CopperType(related.value.typeName))), ("id", related.value.id)]))
    else None
  }

  function TaskValues(p: ParsedTask, assignee: Option<int>, related: Option<RelatedEntity>,
                      timestamp: string -> Option<int>): (r: seq<Option<Json>>)
    ensures |r| == |TaskKeys|
  {
    [Some(JStr(p.description)), AssigneeValue(assignee), DueValue(p, timestamp), PriorityValue(p), ResourceValue(related)]
  }

  /** build_copper_task; `timestamp` is the date parser (None when it raises). */
  function BuildCopperTask(p: ParsedTask, assignee: Option<int>, related: Option<RelatedEntity>,
                           timestamp: string -> Option<int>): Fields {
    Entries(Slots(TaskKeys, TaskValues(p, assignee, related, timestamp)))
  }

  /**
   * The payload is always named by the description; it carries an assignee only for a
   * non-zero id, a due timestamp only for a parsable due date, priority
   * High only for 'high', and the related record under its own type name.
   */
  lemma BuildCopperTaskLookups(p: ParsedTask, assignee: Option<int>, related: Option<RelatedEntity>,
                               timestamp: string -> Option<int>)
    ensures var t := BuildCopperTask(p, assignee, related, timestamp);
      && Lookup(t, "name") == Some(JStr(p.description))
      && (Lookup(t, "assignee_id").Some? <==> assignee.Some? && assignee.value != 0)
      && (Lookup(t, "due_date").Some? <==> Given(p.dueDate) && timestamp(DueText(p)).Some?)
      && (Lookup(t, "priority").Some? <==> p.priority == Some("high"))
      && (Lookup(t, "priority").Some? ==> Lookup(t, "priority") == Some(JStr("High")))
      && (Lookup(t, "related_resource").Some? <==> related.Some?)
    ensures var t := BuildCopperTask(p, assignee, related, timestamp);
      && (assignee.Some? && assignee.value != 0 ==> Lookup(t, "assignee_id") == Some(JInt(assignee.value)))
      && (Given(p.dueDate) && timestamp(DueText(p)).Some? ==> Lookup(t, "due_date") == Some(JInt(timestamp(DueText(p)).value)))
      && (related.Some? ==>
            Lookup(t, "related_resource") == Some(JObj([("type", JStr(related.value.typeName)), ("id", related.value.id)])))
  {
    var values := TaskValues(p, assignee, related, timestamp);
    TaskKeysDistinct();
    SlotsLookup(TaskKeys, values, 0);
    SlotsLookup(TaskKeys, values, 1);
    SlotsLookup(TaskKeys, values, 2);
    SlotsLookup(TaskKeys, values, 3);
    SlotsLookup(TaskKeys, values, 4);
    if related.Some? {
      ResourceKeepsType(related.value);
    }
  }

  /** A related record keeps its type name in the payload. */
  lemma ResourceKeepsType(related: RelatedEntity)
    ensures ResourceValue(Some(related)) == Some(JObj([("type", JStr(related.typeName)), ("id", related.id)]))
  {
    CopperTypeUnchanged(related.typeName);
  }

  // ---------------------------------------------------------------------
  // Confirmation

  /** The lines of the confirmation message. */
  datatype Line =
    | TaskLine(description: string)
    | DueLine(due: string)
    | HighPriorityLine
    | LinkedLine(name: Json, typeName: string)
    | UnlinkedLine(relatedName: string)

  /** format_task_confirmation, line by line. */
  function ConfirmationLines(p: ParsedTask, related: Option<RelatedEntity>): (lines: seq<Line>)
    ensures |lines| >= 1 && lines[0] == TaskLine(p.description)
  {
    [TaskLine(p.description)]
    + (if Given(p.dueDate) then [DueLine(p.dueDate.value + (if Given(p.dueTime) then " at " + p.dueTime.value else ""))] else [])
    + (if p.priority == Some("high") then [HighPriorityLine] else [])
    + (if related.Some? then [LinkedLine(related.value.name, related.value.typeName)]
       else if Given(p.relatedName) then [UnlinkedLine(p.relatedName.value)]
       else [])
  }

  /** A found record is always shown as linked, and then the name is never reported as missing from the CRM. */
  lemma ConfirmationPrefersLinked(p: ParsedTask, related: Option<RelatedEntity>)
    ensures var lines := ConfirmationLines(p, related);
      && ((exists i :: 0 <= i < |lines| && lines[i].LinkedLine?) <==> related.Some?)
      && ((exists i :: 0 <= i < |lines| && lines[i].UnlinkedLine?) <==> related.None? && Given(p.relatedName))
      && (|lines| == 1 <==> !Given(p.dueDate) && p.priority != Some("high") && related.None? && !Given(p.relatedName))
  {
    var lines := ConfirmationLines(p, related);
    var last := |lines| - 1;
    if related.Some? || Given(p.relatedName) {
      assert lines[last].LinkedLine? || lines[last].UnlinkedLine?;
    }
    assert forall i :: 0 <= i < |lines| && (lines[i].LinkedLine? || lines[i].UnlinkedLine?) ==> i == last;
  }
}
