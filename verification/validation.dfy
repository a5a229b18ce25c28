/**
 * Validation and sanitisation of the data the bot sends to the CRM: an
 * allowlist of fields per entity type, stripping and truncation of strings,
 * removal of empty values, the required name on creation, format checks on
 * emails, monetary values and related resources, and entity id conversion.
 */
module Validation {
  import opened Text
  import opened JsonModel

  /** The messages validate_and_sanitize collects. */
  datatype Error =
    | UnknownEntityType(entityType: string)
    | FieldNotAllowed(field: string, entityKey: string)
    | RequiredMissing(field: string)
    | InvalidEmail(email: string)
    | NegativeMonetaryValue
    | MonetaryValueNotNumber
    | ResourceMissingType
    | ResourceMissingId

  /** The email regular expression and Python's float() on text, as oracles. */
  datatype Parsers = Parsers(isEmail: string -> bool, parseFloat: string -> Option<real>)

  /** _normalize_entity_type: lower-case, then singular names and aliases to the plural key. */
  function NormalizeEntityType(entityType: string): (r: string)
    ensures Lower(entityType) in {"person", "contact"} ==> r == "people"
    ensures Lower(entityType) !in {"person", "contact", "company", "opportunity", "deal", "lead", "task", "project"}
      ==> r == Lower(entityType)
  {
    var t := Lower(entityType);
    if t == "person" || t == "contact" then "people"
    else if t == "company" then "companies"
    else if t == "opportunity" || t == "deal" then "opportunities"
    else if t == "lead" then "leads"
    else if t == "task" then "tasks"
    else if t == "project" then "projects"
    else t
  }

  /** Normalising an entity type twice gives what normalising it once does. */
  lemma NormalizeEntityTypeIdempotent(entityType: string)
    ensures NormalizeEntityType(NormalizeEntityType(entityType)) == NormalizeEntityType(entityType)
  {
    var r, t := NormalizeEntityType(entityType), Lower(entityType);
    if t !in {"person", "contact", "company", "opportunity", "deal", "lead", "task", "project"} {
      assert r == t;
      LowerIdempotent(entityType);
      NormalizeFixed(r);
    } else {
      assert r in PluralKeys;
      forall k | 0 <= k < |r| ensures !IsUpper(r[k]) {
        PluralKeysLowerCase(r, k);
      }
      LowerUntouched(r);
      PluralNotSingular(r);
      NormalizeFixed(r);
    }
  }

  const PluralKeys: set<string> := {"people", "companies", "opportunities", "leads", "tasks", "projects"}

  lemma PluralKeysLowerCase(r: string, k: nat)
    requires r in PluralKeys && k < |r|
    ensures !IsUpper(r[k])
  {
  }

  lemma PluralNotSingular(r: string)
    requires r in PluralKeys
    ensures r !in {"person", "contact", "company", "opportunity", "deal", "lead", "task", "project"}
  {
    if r == "people" {
      assert r[3] != "person"[3];
    }
  }

  /** A lower-case text that is not a singular name or alias is its own key. */
  lemma NormalizeFixed(w: string)
    requires Lower(w) == w
    requires w !in {"person", "contact", "company", "opportunity", "deal", "lead", "task", "project"}
    ensures NormalizeEntityType(w) == w
  {
  }

  /** The fields each entity type may carry; None for an unknown type. */
  function AllowedFields(entityKey: string): Option<set<string>> {
    if entityKey == "people" then Some({
      "name", "prefix", "first_name", "middle_name", "last_name", "suffix",
      "emails", "phone_numbers", "address", "assignee_id", "company_id",
      "company_name", "contact_type_id", "details", "socials", "tags",
      "title", "websites", "custom_fields"})
    else if entityKey == "companies" then Some({
      "name", "assignee_id", "contact_type_id", "details", "email_domain",
      "phone_numbers", "socials", "tags", "websites", "address",
      "custom_fields"})
    else if entityKey == "opportunities" then Some({
      "name", "assignee_id", "close_date", "company_id", "company_name",
      "customer_source_id", "details", "loss_reason_id", "monetary_unit",
      "monetary_value", "pipeline_id", "pipeline_stage_id",
      "primary_contact_id", "priority", "status", "tags", "win_probability",
      "custom_fields"})
    else if entityKey == "leads" then Some({
      "name", "prefix", "first_name", "middle_name", "last_name", "suffix",
      "assignee_id", "company_name", "customer_source_id", "details",
      "email", "monetary_unit", "monetary_value", "phone_numbers",
      "socials", "status", "status_id", "tags", "title", "websites",
      "address", "custom_fields"})
    else if entityKey == "tasks" then Some({
      "name", "assignee_id", "details", "due_date", "reminder_date",
      "priority", "status", "tags", "related_resource", "custom_fields"})
    else if entityKey == "projects" then Some({
      "name", "assignee_id", "details", "status", "tags", "related_resource",
      "custom_fields"})
    else None
  }

  /** The field every known entity type requires on creation. */
  const RequiredField: string := "name"

  /** The longest a string field may be after stripping. */
  function MaxLength(field: string): nat {
    if field == "name" then 500
    else if field == "title" then 200
    else if field == "details" then 10000
    else if field == "company_name" then 500
    else if field == "email_domain" then 255
    else 1000
  }

  // ---------------------------------------------------------------------
  // _sanitize_value

  function StripIfString(v: Json): Json {
    if v.JStr? then JStr(Strip(v.s)) else v
  }

  /**
   * Whether a nested value is kept: inside a list item any truthy value,
   * inside a dictionary anything but None and the empty string.
   */
  predicate Keeps(v: Json, truthyRule: bool) {
    if truthyRule then Truthy(v) else v != JNull && v != JStr("")
  }

  lemma StripIfStringStripped(v: Json)
    ensures StripIfString(v).JStr? ==> Strip(StripIfString(v).s) == StripIfString(v).s
  {
    if v.JStr? {
      StripIdempotent(v.s);
    }
  }

  lemma KeysPrefix(fs: Fields)
    requires fs != []
    ensures forall k :: k in Keys(fs[..|fs| - 1]) ==> k in Keys(fs)
    ensures fs[|fs| - 1].0 in Keys(fs)
  {
    var init := fs[..|fs| - 1];
    forall k | k in Keys(init) ensures k in Keys(fs) {
      var i :| 0 <= i < |init| && Keys(init)[i] == k;
      assert Keys(fs)[i] == k;
    }
    assert Keys(fs)[|fs| - 1] == fs[|fs| - 1].0;
  }

  /** The entries of a nested dictionary with strings stripped and the unwanted values dropped. */
  function CleanedEntries(fs: Fields, truthyRule: bool): Fields
    decreases |fs|
  {
    if fs == [] then []
    else
      var prev := CleanedEntries(fs[..|fs| - 1], truthyRule);
      var k, v := fs[|fs| - 1].0, StripIfString(fs[|fs| - 1].1);
      if Keeps(v, truthyRule) then Put(prev, k, v) else prev
  }

  /** Every key kept comes from the input, holds a value the rule keeps, and a kept string is stripped. */
  lemma {:induction false} CleanedEntriesSound(fs: Fields, truthyRule: bool, k: string)
    requires Lookup(CleanedEntries(fs, truthyRule), k).Some?
    ensures k in Keys(fs)
    ensures Keeps(Lookup(CleanedEntries(fs, truthyRule), k).value, truthyRule)
    ensures Lookup(CleanedEntries(fs, truthyRule), k).value.JStr? ==>
      Strip(Lookup(CleanedEntries(fs, truthyRule), k).value.s) == Lookup(CleanedEntries(fs, truthyRule), k).value.s
    decreases |fs|
  {
    var init := fs[..|fs| - 1];
    var prev := CleanedEntries(init, truthyRule);
    var k', v := fs[|fs| - 1].0, StripIfString(fs[|fs| - 1].1);
    KeysPrefix(fs);
    if Keeps(v, truthyRule) && k == k' {
      StripIfStringStripped(fs[|fs| - 1].1);
    } else {
      assert Lookup(prev, k) == Lookup(CleanedEntries(fs, truthyRule), k);
      CleanedEntriesSound(init, truthyRule, k);
    }
  }

  /** The items of a list value with strings stripped and empty strings and dictionaries dropped. */
  function CleanedList(items: seq<Json>): (r: seq<Json>)
    ensures |r| <= |items|
    ensures forall x :: x in r ==> x != JStr("") && x != JObj([])
    decreases |items|
  {
    if items == [] then []
    else
      var prev := CleanedList(items[..|items| - 1]);
      var item := items[|items| - 1];
      match item
      case JObj(fs) =>
        var c := CleanedEntries(fs, true);
        if c != [] then prev + [JObj(c)] else prev
      case JStr(s) =>
        if Strip(s) != "" then prev + [JStr(Strip(s))] else prev
      case _ => prev + [item]
  }

  /** A string stripped and cut to the field's maximum length. */
  function CleanedString(field: string, s: string): (r: string)
    ensures |r| <= MaxLength(field)
    ensures |r| <= |Strip(s)| && r == Strip(s)[..|r|]
    ensures |Strip(s)| <= MaxLength(field) ==> r == Strip(s)
  {
    var t := Strip(s);
    if |t| > MaxLength(field) then t[..MaxLength(field)] else t
  }

  /** A string value sanitised: stripped and cut, and dropped when nothing is left. */
  function SanitizedText(field: string, s: string): Option<Json> {
    var u := CleanedString(field, s);
    if u == "" then None else Some(JStr(u))
  }

  /** _sanitize_value as a value: None means the field is dropped. */
  function SanitizedValue(field: string, v: Json): Option<Json> {
    match v
    case JNull => None
    case JStr(s) => SanitizedText(field, s)
    case JList(items) =>
      var c := CleanedList(items);
      if c == [] then None else Some(JList(c))
    case JObj(fs) =>
      var c := CleanedEntries(fs, false);
      if c == [] then None else Some(JObj(c))
    case _ => Some(v)
  }

  /**
   * None is dropped, a value kept is never None or empty, scalars pass
   * unchanged, and a string is dropped exactly when it is blank once stripped.
   */
  lemma SanitizedValueProperties(field: string, v: Json)
    ensures v == JNull ==> SanitizedValue(field, v) == None
    ensures SanitizedValue(field, v).Some? ==>
      var r := SanitizedValue(field, v).value; r != JNull && r != JStr("") && r != JList([]) && r != JObj([])
    ensures !v.JStr? && !v.JList? && !v.JObj? && v != JNull ==> SanitizedValue(field, v) == Some(v)
    ensures v.JStr? ==> (SanitizedValue(field, v) == None <==> Strip(v.s) == "")
    ensures v.JStr? && SanitizedValue(field, v).Some? ==> SanitizedValue(field, v).value == JStr(CleanedString(field, v.s))
  {
    match v
    case JStr(s) =>
      assert SanitizedValue(field, v) == SanitizedText(field, s);
      assert CleanedString(field, s) == "" <==> Strip(s) == "";
    case JList(items) =>
      assert SanitizedValue(field, v) == if CleanedList(items) == [] then None else Some(JList(CleanedList(items)));
    case JObj(fs) =>
      assert SanitizedValue(field, v) == if CleanedEntries(fs, false) == [] then None else Some(JObj(CleanedEntries(fs, false)));
    case _ =>
  }

  /** A string short enough not to be cut is left as it is by a second sanitisation. */
  lemma SanitizeStringIdempotent(field: string, s: string)
    requires |Strip(s)| <= MaxLength(field) && Strip(s) != ""
    ensures SanitizedValue(field, SanitizedValue(field, JStr(s)).value) == SanitizedValue(field, JStr(s))
  {
    StripIdempotent(s);
  }

  /** A string cut in the middle of whitespace is cut again, shorter, by a second pass. */
  lemma CutTextShrinks(field: string, s: string)
    requires |Strip(s)| > MaxLength(field) && IsSpace(Strip(s)[MaxLength(field) - 1])
    ensures |CleanedString(field, s)| == MaxLength(field)
    ensures |CleanedString(field, CleanedString(field, s))| < |CleanedString(field, s)|
  {
    var once := CleanedString(field, s);
    assert once == Strip(s)[..MaxLength(field)];
    StripDropsTrailingSpace(once);
  }

  /**
   * Cutting happens after stripping, so a cut string can end in whitespace
   * that a second sanitisation removes: sanitisation is not idempotent on
   * such strings.
   */
  lemma TruncationCanLeaveWhitespace(field: string, s: string)
    requires |Strip(s)| > MaxLength(field) && IsSpace(Strip(s)[MaxLength(field) - 1])
    ensures SanitizedValue(field, JStr(s)).Some?
    ensures SanitizedValue(field, SanitizedValue(field, JStr(s)).value) != SanitizedValue(field, JStr(s))
  {
    CutTextShrinks(field, s);
    var once := CleanedString(field, s);
    assert SanitizedValue(field, JStr(s)) == Some(JStr(once));
    assert SanitizedValue(field, JStr(once)) == SanitizedText(field, once);
  }

  lemma CleanedEntriesStep(fs: Fields, truthyRule: bool, i: nat)
    requires i < |fs|
    ensures CleanedEntries(fs[..i + 1], truthyRule) ==
      if Keeps(StripIfString(fs[i].1), truthyRule) then Put(CleanedEntries(fs[..i], truthyRule), fs[i].0, StripIfString(fs[i].1))
      else CleanedEntries(fs[..i], truthyRule)
  {
    assert fs[..i + 1][..i] == fs[..i];
  }

  /** The loop over a nested dictionary in _sanitize_value. */
  method CleanEntries(fs: Fields, truthyRule: bool) returns (r: Fields)
    ensures r == CleanedEntries(fs, truthyRule)
  {
    r := [];
    var i := 0;
    while i < |fs|
      invariant 0 <= i <= |fs|
      invariant r == CleanedEntries(fs[..i], truthyRule)
    {
      CleanedEntriesStep(fs, truthyRule, i);
      var k, v := fs[i].0, fs[i].1;
      if v.JStr? {
        v := JStr(Strip(v.s));
      }
      if Keeps(v, truthyRule) {
        r := Put(r, k, v);
      }
      i := i + 1;
    }
    assert fs[..i] == fs;
  }

  lemma CleanedListStep(items: seq<Json>, i: nat)
    requires i < |items|
    ensures CleanedList(items[..i + 1]) ==
      var prev := CleanedList(items[..i]);
      match items[i]
      case JObj(fs) => if CleanedEntries(fs, true) != [] then prev + [JObj(CleanedEntries(fs, true))] else prev
      case JStr(s) => if Strip(s) != "" then prev + [JStr(Strip(s))] else prev
      case _ => prev + [items[i]]
  {
    assert items[..i + 1][..i] == items[..i];
  }

  /** _sanitize_value. */
  method SanitizeValue(field: string, v: Json) returns (r: Option<Json>)
    ensures r == SanitizedValue(field, v)
  {
    match v {
      case JNull =>
        r := None;
      case JStr(s) =>
        var t := Strip(s);
        if |t| > MaxLength(field) {
          t := t[..MaxLength(field)];
        }
        r := if t == "" then None else Some(JStr(t));
      case JList(items) =>
        var cleaned: seq<Json> := [];
        var i := 0;
        while i < |items|
          invariant 0 <= i <= |items|
          invariant cleaned == CleanedList(items[..i])
        {
          CleanedListStep(items, i);
          match items[i] {
            case JObj(fs) =>
              var c := CleanEntries(fs, true);
              if c != [] {
                cleaned := cleaned + [JObj(c)];
              }
            case JStr(s) =>
              if Strip(s) != "" {
                cleaned := cleaned + [JStr(Strip(s))];
              }
            case _ =>
              cleaned := cleaned + [items[i]];
          }
          i := i + 1;
        }
        assert items[..i] == items;
        r := if cleaned == [] then None else Some(JList(cleaned));
      case JObj(fs) =>
        var c := CleanEntries(fs, false);
        r := if c == [] then None else Some(JObj(c));
      case _ =>
        r := Some(v);
    }
  }

  // ---------------------------------------------------------------------
  // _validate_field_types

  /** The error for one email entry: only a truthy `email` of a dictionary is checked. */
  function EmailEntryErrors(p: Parsers, entry: Json): (r: Fetch<seq<Error>>)
    ensures r.Returned? ==> |r.value| <= 1
  {
    if !entry.JObj? then Returned([])
    else
      var email := FieldOr(entry, "email", JStr(""));
      if !Truthy(email) then Returned([])
      else if email.JStr? then Returned(if p.isEmail(email.s) then [] else [InvalidEmail(email.s)])
      else Raised  // the regular expression raises on a value that is not a string
  }

  /** The errors of the `emails` entries, in order; Raised when one entry raises. */
  function EmailListErrors(p: Parsers, entries: seq<Json>): (r: Fetch<seq<Error>>)
    ensures r.Returned? ==> forall e :: e in r.value ==> e.InvalidEmail? && !p.isEmail(e.email)
    decreases |entries|
  {
    if entries == [] then Returned([])
    else match EmailListErrors(p, entries[..|entries| - 1])
      case Raised => Raised
      case Returned(prev) =>
        match EmailEntryErrors(p, entries[|entries| - 1])
        case Raised => Raised
        case Returned(es) => Returned(prev + es)
  }

  /**
   * What iterating over the `emails` value yields that can carry an email: a
   * list's items. A string or a dictionary yields only strings; a truthy
   * number or boolean cannot be iterated and raises.
   */
  function EmailsErrors(p: Parsers, emails: Json): Fetch<seq<Error>> {
    if !Truthy(emails) then Returned([])
    else match emails
      case JList(items) => EmailListErrors(p, items)
      case JStr(_) => Returned([])
      case JObj(_) => Returned([])
      case _ => Raised
  }

  /** The check of a lead's `email` value. */
  function LeadEmailErrors(p: Parsers, email: Json): (r: Fetch<seq<Error>>)
    ensures r.Returned? ==> forall e :: e in r.value ==> e.InvalidEmail? && !p.isEmail(e.email)
  {
    if !Truthy(email) then Returned([])
    else if email.JObj? then EmailEntryErrors(p, email)
    else if email.JStr? then Returned(if p.isEmail(email.s) then [] else [InvalidEmail(email.s)])
    else Returned([])
  }

  /** Python's float() on a JSON value; None where it raises. */
  function ToFloat(p: Parsers, v: Json): Option<real> {
    match v
    case JInt(i) => Some(i as real)
    case JFloat(f) => Some(f)
    case JBool(b) => Some(if b then 1.0 else 0.0)
    case JStr(s) => p.parseFloat(s)
    case _ => None
  }

  /** The monetary value check: present and not None, then a number and not negative. */
  function MonetaryErrors(p: Parsers, data: Fields): (r: seq<Error>)
    ensures r == [MonetaryValueNotNumber] <==>
      Lookup(data, "monetary_value").Some? && Lookup(data, "monetary_value").value != JNull
      && ToFloat(p, Lookup(data, "monetary_value").value).None?
    ensures r == [NegativeMonetaryValue] <==>
      Lookup(data, "monetary_value").Some? && Lookup(data, "monetary_value").value != JNull
      && ToFloat(p, Lookup(data, "monetary_value").value).Some?
      && ToFloat(p, Lookup(data, "monetary_value").value).value < 0.0
    ensures |r| <= 1
  {
    match Lookup(data, "monetary_value")
    case None => []
    case Some(v) =>
      if v == JNull then []
      else match ToFloat(p, v)
        case None => [MonetaryValueNotNumber]
        case Some(x) => if x < 0.0 then [NegativeMonetaryValue] else []
  }

  /** The related resource check: a truthy dictionary needs a `type` and an `id`. */
  function ResourceErrors(data: Fields): (r: seq<Error>)
    ensures ResourceMissingType in r <==>
      var res := GetOr(data, "related_resource", JNull); Truthy(res) && res.JObj? && "type" !in Keys(res.fields)
    ensures ResourceMissingId in r <==>
      var res := GetOr(data, "related_resource", JNull); Truthy(res) && res.JObj? && "id" !in Keys(res.fields)
  {
    var res := GetOr(data, "related_resource", JNull);
    if Truthy(res) && res.JObj? then
      (if "type" !in Keys(res.fields) then [ResourceMissingType] else [])
      + (if "id" !in Keys(res.fields) then [ResourceMissingId] else [])
    else []
  }

  /** _validate_field_types as a value; Raised where the source raises. */
  function FieldTypeErrors(p: Parsers, data: Fields): Fetch<seq<Error>> {
    match EmailsErrors(p, GetOr(data, "emails", JNull))
    case Raised => Raised
    case Returned(e1) =>
      match LeadEmailErrors(p, GetOr(data, "email", JNull))
      case Raised => Raised
      case Returned(e2) => Returned(e1 + e2 + MonetaryErrors(p, data) + ResourceErrors(data))
  }

  /**
   * Every email error names a value the email pattern rejects; the checks
   * raise only on a truthy `emails` that is not iterable, or on a truthy
   * email entry that is not a string.
   */
  lemma FieldTypeErrorsSound(p: Parsers, data: Fields)
    ensures var r := FieldTypeErrors(p, data);
      r.Returned? ==> forall e :: e in r.value && e.InvalidEmail? ==> !p.isEmail(e.email)
    ensures var emails := GetOr(data, "emails", JNull);
      Truthy(emails) && (emails.JInt? || emails.JFloat? || emails.JBool?) ==> FieldTypeErrors(p, data).Raised?
    ensures var r := FieldTypeErrors(p, data);
      r.Returned? ==> (MonetaryValueNotNumber in r.value <==> MonetaryErrors(p, data) == [MonetaryValueNotNumber])
  {
    var r := FieldTypeErrors(p, data);
    if r.Returned? {
      var emails := GetOr(data, "emails", JNull);
      var e1 := EmailsErrors(p, emails).value;
      var e2 := LeadEmailErrors(p, GetOr(data, "email", JNull)).value;
      var m, res := MonetaryErrors(p, data), ResourceErrors(data);
      assert r.value == e1 + e2 + m + res;
      forall e | e in r.value && e.InvalidEmail? ensures !p.isEmail(e.email) {
        assert e in e1 || e in e2 || e in m || e in res;
      }
      assert MonetaryValueNotNumber in r.value <==> MonetaryValueNotNumber in m by {
        assert MonetaryValueNotNumber !in e1 && MonetaryValueNotNumber !in e2 && MonetaryValueNotNumber !in res;
      }
    }
  }

  lemma EmailListStep(p: Parsers, entries: seq<Json>, i: nat)
    requires i < |entries|
    ensures EmailListErrors(p, entries[..i + 1]) ==
      match EmailListErrors(p, entries[..i])
      case Raised => Raised
      case Returned(prev) =>
        match EmailEntryErrors(p, entries[i])
        case Raised => Raised
        case Returned(es) => Returned(prev + es)
  {
    assert entries[..i + 1][..i] == entries[..i];
  }

  lemma {:induction false} EmailListRaisedStays(p: Parsers, entries: seq<Json>, i: nat)
    requires i <= |entries| && EmailListErrors(p, entries[..i]).Raised?
    ensures EmailListErrors(p, entries).Raised?
    decreases |entries| - i
  {
    if i < |entries| {
      EmailListStep(p, entries, i);
      EmailListRaisedStays(p, entries, i + 1);
    } else {
      assert entries[..i] == entries;
    }
  }

  /** The loop over the `emails` value in _validate_field_types. */
  method ValidateEmails(p: Parsers, emails: Json) returns (r: Fetch<seq<Error>>)
    ensures r == EmailsErrors(p, emails)
  {
    if !Truthy(emails) {
      return Returned([]);
    }
    match emails {
      case JList(items) =>
        var errors: seq<Error> := [];
        var i := 0;
        while i < |items|
          invariant 0 <= i <= |items|
          invariant EmailListErrors(p, items[..i]) == Returned(errors)
        {
          EmailListStep(p, items, i);
          var entry := EmailEntryErrors(p, items[i]);
          if entry.Raised? {
            EmailListRaisedStays(p, items, i + 1);
            return Raised;
          }
          errors := errors + entry.value;
          i := i + 1;
        }
        assert items[..i] == items;
        return Returned(errors);
      case JStr(_) => return Returned([]);
      case JObj(_) => return Returned([]);
      case _ => return Raised;
    }
  }

  /** _validate_field_types. */
  method ValidateFieldTypes(p: Parsers, data: Fields) returns (r: Fetch<seq<Error>>)
    ensures r == FieldTypeErrors(p, data)
  {
    var emailErrors := ValidateEmails(p, GetOr(data, "emails", JNull));
    if emailErrors.Raised? {
      return Raised;
    }
    var lead := LeadEmailErrors(p, GetOr(data, "email", JNull));
    if lead.Raised? {
      return Raised;
    }
    r := Returned(emailErrors.value + lead.value + MonetaryErrors(p, data) + ResourceErrors(data));
  }

  // ---------------------------------------------------------------------
  // validate_and_sanitize

  /** The allowed fields sanitised so far and the errors for the disallowed ones. */
  datatype Filtered = Filtered(fields: Fields, errors: seq<Error>)

  /** The field loop of validate_and_sanitize as a value. */
  function FilterFields(allowed: set<string>, entityKey: string, data: Fields): Filtered
    decreases |data|
  {
    if data == [] then Filtered([], [])
    else
      var prev := FilterFields(allowed, entityKey, data[..|data| - 1]);
      var field, value := data[|data| - 1].0, data[|data| - 1].1;
      if field !in allowed then Filtered(prev.fields, prev.errors + [FieldNotAllowed(field, entityKey)])
      else match SanitizedValue(field, value)
        case None => prev
        case Some(v) => Filtered(Put(prev.fields, field, v), prev.errors)
  }

  /**
   * Only allowed fields survive, each holding the sanitised value of some
   * input entry of that field; every error names a disallowed input field and
   * every disallowed input field has its error.
   */
  lemma {:induction false} FilterFieldsAllowlist(allowed: set<string>, entityKey: string, data: Fields)
    ensures var f := FilterFields(allowed, entityKey, data);
      forall k :: Lookup(f.fields, k).Some? ==>
        k in allowed && exists i :: 0 <= i < |data| && data[i].0 == k && SanitizedValue(k, data[i].1) == Lookup(f.fields, k)
    ensures var f := FilterFields(allowed, entityKey, data);
      forall e :: e in f.errors ==>
        e.FieldNotAllowed? && e.field !in allowed && e.entityKey == entityKey
        && exists i :: 0 <= i < |data| && data[i].0 == e.field
    ensures var f := FilterFields(allowed, entityKey, data);
      forall i :: 0 <= i < |data| && data[i].0 !in allowed ==> FieldNotAllowed(data[i].0, entityKey) in f.errors
    decreases |data|
  {
    if data != [] {
      var init := data[..|data| - 1];
      FilterFieldsAllowlist(allowed, entityKey, init);
      var prev := FilterFields(allowed, entityKey, init);
      var f := FilterFields(allowed, entityKey, data);
      forall k | Lookup(f.fields, k).Some?
        ensures k in allowed && exists i :: 0 <= i < |data| && data[i].0 == k && SanitizedValue(k, data[i].1) == Lookup(f.fields, k)
      {
        if Lookup(f.fields, k) == Lookup(prev.fields, k) {
          var i :| 0 <= i < |init| && init[i].0 == k && SanitizedValue(k, init[i].1) == Lookup(prev.fields, k);
          assert data[i] == init[i];
        } else {
          assert data[|data| - 1].0 == k;
        }
      }
      forall e | e in f.errors
        ensures e.FieldNotAllowed? && e.field !in allowed && e.entityKey == entityKey
          && exists i :: 0 <= i < |data| && data[i].0 == e.field
      {
        if e in prev.errors {
          var i :| 0 <= i < |init| && init[i].0 == e.field;
          assert data[i] == init[i];
        } else {
          assert data[|data| - 1].0 == e.field;
        }
      }
      forall i | 0 <= i < |data| - 1 && data[i].0 !in allowed
        ensures FieldNotAllowed(data[i].0, entityKey) in f.errors
      {
        assert data[i] == init[i];
      }
    }
  }

  /** When the input names each field once, every allowed field holds its sanitised value. */
  lemma {:induction false} FilterFieldsKeepsAllowed(allowed: set<string>, entityKey: string, data: Fields, i: nat)
    requires i < |data| && data[i].0 in allowed
    requires forall j :: 0 <= j < |data| && j != i ==> data[j].0 != data[i].0
    ensures Lookup(FilterFields(allowed, entityKey, data).fields, data[i].0) == SanitizedValue(data[i].0, data[i].1)
    decreases |data|
  {
    var init := data[..|data| - 1];
    if i == |data| - 1 {
      FilterFieldsAbsent(allowed, entityKey, init, data[i].0);
    } else {
      forall j | 0 <= j < |init| && j != i ensures init[j].0 != init[i].0 {
        assert init[j] == data[j];
      }
      FilterFieldsKeepsAllowed(allowed, entityKey, init, i);
    }
  }

  /** A field the input does not name is not in the result. */
  lemma {:induction false} FilterFieldsAbsent(allowed: set<string>, entityKey: string, data: Fields, k: string)
    requires forall j :: 0 <= j < |data| ==> data[j].0 != k
    ensures Lookup(FilterFields(allowed, entityKey, data).fields, k) == None
    decreases |data|
  {
    if data != [] {
      FilterFieldsAbsent(allowed, entityKey, data[..|data| - 1], k);
    }
  }

  /** The outcome of validate_and_sanitize. */
  datatype Checked = Checked(valid: bool, sanitized: Fields, errors: seq<Error>)

  /** The required-field error: on creation, a missing or falsy name. */
  function RequiredErrors(fields: Fields, operation: string): seq<Error> {
    if operation == "create" && !Truthy(GetOr(fields, RequiredField, JNull)) then [RequiredMissing(RequiredField)] else []
  }

  /** validate_and_sanitize as a value; Raised where the field-type checks raise. */
  function Validate(p: Parsers, entityType: string, data: Fields, operation: string): Fetch<Checked> {
    var entityKey := NormalizeEntityType(entityType);
    match AllowedFields(entityKey)
    case None => Returned(Checked(false, [], [UnknownEntityType(entityType)]))
    case Some(allowed) =>
      var f := FilterFields(allowed, entityKey, data);
      match FieldTypeErrors(p, f.fields)
      case Raised => Raised
      case Returned(typeErrors) =>
        var errors := f.errors + RequiredErrors(f.fields, operation) + typeErrors;
        Returned(Checked(errors == [], f.fields, errors))
  }

  /**
   * A valid outcome means no error; the sanitised data holds only fields the
   * entity type allows; a valid outcome had no disallowed input field and, on
   * creation, has a truthy name; an unknown type is rejected with no data.
   */
  lemma ValidateProperties(p: Parsers, entityType: string, data: Fields, operation: string)
    ensures var r := Validate(p, entityType, data, operation);
      r.Returned? ==> (r.value.valid <==> r.value.errors == [])
    ensures var r := Validate(p, entityType, data, operation);
      r.Returned? ==> forall k :: Lookup(r.value.sanitized, k).Some? ==>
        AllowedFields(NormalizeEntityType(entityType)).Some? && k in AllowedFields(NormalizeEntityType(entityType)).value
    ensures var r := Validate(p, entityType, data, operation);
      r.Returned? && r.value.valid ==>
        forall i :: 0 <= i < |data| ==> data[i].0 in AllowedFields(NormalizeEntityType(entityType)).value
    ensures var r := Validate(p, entityType, data, operation);
      r.Returned? && r.value.valid && operation == "create" ==> Truthy(GetOr(r.value.sanitized, RequiredField, JNull))
    ensures AllowedFields(NormalizeEntityType(entityType)).None? ==>
      Validate(p, entityType, data, operation) == Returned(Checked(false, [], [UnknownEntityType(entityType)]))
  {
    var entityKey := NormalizeEntityType(entityType);
    if AllowedFields(entityKey).Some? {
      var allowed := AllowedFields(entityKey).value;
      FilterFieldsAllowlist(allowed, entityKey, data);
      var r := Validate(p, entityType, data, operation);
      if r.Returned? && r.value.valid {
        var f := FilterFields(allowed, entityKey, data);
        assert forall i :: 0 <= i < |data| ==> data[i].0 in allowed;
        assert RequiredErrors(f.fields, operation) == [];
      }
    }
  }

  lemma FilterFieldsStep(allowed: set<string>, entityKey: string, data: Fields, i: nat)
    requires i < |data|
    ensures FilterFields(allowed, entityKey, data[..i + 1]) ==
      var prev := FilterFields(allowed, entityKey, data[..i]);
      if data[i].0 !in allowed then Filtered(prev.fields, prev.errors + [FieldNotAllowed(data[i].0, entityKey)])
      else match SanitizedValue(data[i].0, data[i].1)
        case None => prev
        case Some(v) => Filtered(Put(prev.fields, data[i].0, v), prev.errors)
  {
    assert data[..i + 1][..i] == data[..i];
  }

  /** validate_and_sanitize. */
  method ValidateAndSanitize(p: Parsers, entityType: string, data: Fields, operation: string)
    returns (r: Fetch<Checked>)
    ensures r == Validate(p, entityType, data, operation)
  {
    var entityKey := NormalizeEntityType(entityType);
    var allowedOpt := AllowedFields(entityKey);
    if allowedOpt.None? {
      return Returned(Checked(false, [], [UnknownEntityType(entityType)]));
    }
    var allowed := allowedOpt.value;
    var acc := Filtered([], []);
    var i := 0;
    while i < |data|
      invariant 0 <= i <= |data|
      invariant acc == FilterFields(allowed, entityKey, data[..i])
    {
      FilterFieldsStep(allowed, entityKey, data, i);
      var field, value := data[i].0, data[i].1;
      if field !in allowed {
        acc := Filtered(acc.fields, acc.errors + [FieldNotAllowed(field, entityKey)]);
      } else {
        var v := SanitizeValue(field, value);
        if v.Some? {
          acc := Filtered(Put(acc.fields, field, v.value), acc.errors);
        }
      }
      i := i + 1;
    }
    assert data[..i] == data;
    var errors := acc.errors + RequiredErrors(acc.fields, operation);
    var typeErrors := ValidateFieldTypes(p, acc.fields);
    if typeErrors.Raised? {
      return Raised;
    }
    errors := errors + typeErrors.value;
    r := Returned(Checked(errors == [], acc.fields, errors));
  }

  // ---------------------------------------------------------------------
  // validate_entity_id

  /** Python's int() on a float: truncation toward zero. */
  function Truncate(f: real): (r: int)
    ensures f >= 0.0 ==> r as real <= f < r as real + 1.0
    ensures f < 0.0 ==> r as real - 1.0 < f <= r as real
  {
    if f >= 0.0 then f.Floor else -((-f).Floor)
  }

  function PositiveId(i: int): (r: Option<int>)
    ensures r.Some? <==> i > 0
    ensures r.Some? ==> r.value == i
  {
    if i <= 0 then None else Some(i)
  }

  /** validate_entity_id: int() of the value when it is positive, else None. */
  function ValidateEntityId(id: Json): (r: Option<int>)
    ensures r.Some? ==> r.value > 0
    ensures id.JInt? ==> r == PositiveId(id.i)
    ensures id.JStr? ==> r == match ParseInt(id.s) case None => None case Some(n) => PositiveId(n)
    ensures id.JNull? || id.JList? || id.JObj? ==> r == None
  {
    match id
    case JNull => None
    case JBool(b) => if b then Some(1) else None
    case JInt(i) => PositiveId(i)
    case JFloat(f) => PositiveId(Truncate(f))
    case JStr(s) => (
      match ParseInt(s)
      case None => None
      case Some(n) => PositiveId(n))
    case _ => None
  }

  /** An id written as text is read back when positive and refused otherwise. */
  lemma ValidateEntityIdText(n: int)
    ensures ValidateEntityId(JStr(IntToString(n))) == if n > 0 then Some(n) else None
  {
    ParseIntToString(n);
  }
}
