# Copper CRM Slack bot — a verified model of its deterministic core

The bot answers Slack messages about a Copper CRM account. Around the Slack
and HTTP plumbing sit several pieces of sequential, deterministic logic:

- the fuzzy entity matcher;
- the business-intelligence fan-out;
- the input validator and sanitiser;
- the approval-request store;
- CSV lookup and opportunity-import planning;
- the keyword query parser;
- the Copper task payload builder;
- the argument parsing, contact reconciliation and CRM gate of the Slack commands.

This project models those pieces in Dafny and proves what they promise.

Each Python module becomes one Dafny module. Two shared modules support them:

| Dafny file | module | models |
|---|---|---|
| `text.dfy` | `Text` | the Python string operations the code relies on (`lower`, `strip`, `split`, `in`, `int()` on text), on ASCII |
| `json.dfy` | `JsonModel` | JSON values, dictionaries as ordered key/value lists (Python dicts keep insertion order), truthiness, and the CRM as an oracle |
| `ranking.dfy` | `Ranking` | `list.sort(key=score, reverse=True)`: a stable descending insertion sort |
| `fuzzy_matcher.py` → `fuzzy_matcher.dfy` | `FuzzyMatcher` | candidate strings, the blended score, best score, record matching, top-N and the ambiguity test |
| `business_intelligence.py` → `business_intelligence.dfy` | `BusinessIntelligence` | keyword query analysis, the fan-out over collections, the boost, the ambiguity gate, related data, `process_query` |
| `validation.py` → `validation.dfy` | `Validation` | `validate_and_sanitize` and its helpers, `validate_entity_id` |
| `approval_system.py` → `approval_system.dfy` | `Approvals` | the `ApprovalSystem` class (a mutable store) and `create_approval_blocks` |
| `csv_handler.py` → `csv_handler.dfy` | `CsvHandler` | existence lookups, enrichment, search criteria, import-mode detection, field normalisation, import planning and execution |
| `query_processor.py` → `query_processor.dfy` | `QueryProcessor` | entity-type detection, the keyword parser, result truncation |
| `task_processor.py` → `task_processor.dfy` | `TaskProcessor` | the keyword task parser, assignee resolution, related-entity search, the Copper task payload, the confirmation lines |
| `app_old.py` → `slack_commands.dfy` | `SlackCommands` | `/copper-update` and `/copper-create` parsing, mention ids, contact reconciliation, `_execute_copper_operation`, handler dispatch order |

## How the outside world is modelled

- **The CRM.** The CRM is an oracle: a datatype of total functions from a
  collection and criteria to `Fetch<T>`, which is either `Returned(value)` or
  `Raised`. `Raised` stands for an exception escaping the client; the client's
  own "transport error becomes an empty list" behaviour is the oracle
  returning `[]` or `None`.
- **Library functions.** The rapidfuzz ratios and the jellyfish
  metaphone/soundex codes are function fields of `FuzzyMatcher.Similarity`.
  A phonetic code is `None` when the library raises. Properties that need the
  ratios to lie in [0, 100] assume it through `RatiosBounded`.
- **Recognisers.** Regular-expression recognisers and `float()` or date
  parsing are function parameters. These are the email pattern, the
  email/phone/location finders, the due-date, time, mention and entity
  patterns, and the description cleaner.
- **LLM replies.** The reply of the language model (or the exception it
  raised) is an input. Only what the code does with it is modelled.
- **Timestamps.** Wall-clock timestamps are parameters.
- **Imperative code.** Code that changes state step by step is written as
  methods with loops, proved equal to a specification function, and the
  properties are lemmas about that function. This covers the matching
  loops, best score, enrichment, import planning and execution,
  sanitising, criteria building, reconciliation and the update/create
  parsers. The approval store is a class whose methods state the whole new
  state.

## Behaviour that may surprise a reader

The model follows the code in each of these cases.

- **The fan-out boost.** `gather_intelligence` sorts the merged matches by
  raw score and only then adds the +5 boost to the favoured collection. The
  boosted list is therefore ordered by raw score, not by final score, and it
  can be out of order: `BoostAfterSortCanDisorder` exhibits a company at 78
  (boosted to 83) placed after a lead at 80.
- **A missing entity name.** When the analysis has no entity name,
  `gather_intelligence` logs using an undefined name `query`
  (business_intelligence.py:412). That raises, so `process_query` returns its
  error outcome. `Gather` returns `Raised` in that case.
- **Sanitising twice.** Sanitising is not idempotent. A string cut to its
  maximum length can end in whitespace, which a second pass strips
  (`TruncationCanLeaveWhitespace`).
- **Field normalisation.** `_normalize_field_name` is not idempotent either:
  'imps' becomes 'monthly_impressions', which then becomes 'monetary_value',
  because 'monetary_value' is declared first and also lists that alias
  (`NormalizeNotIdempotent`).

## Model

| member | source | states |
|---|---|---|
| FuzzyMatcher.PhoneticSimilarity | fuzzy_matcher.py:365-395 | true only if the metaphone or the soundex codes are non-empty and equal; true whenever the metaphone codes are; false when a metaphone call raises |
| FuzzyMatcher.PhoneticSimilaritySymmetric | fuzzy_matcher.py:365-395 | phonetic similarity does not depend on argument order |
| FuzzyMatcher.FuzzyBest | fuzzy_matcher.py:349-354 | the best fuzzy score is one of the three ratios and at least each of them |
| FuzzyMatcher.MatchScore | fuzzy_matcher.py:322-363 | 100 for strings equal after lowercasing and stripping; otherwise the best ratio plus 15, capped at 100, exactly when the strings sound alike and the best ratio is at least 70, and the plain best ratio in every other case; within [0, 100] when the ratios are |
| FuzzyMatcher.FuzzyCompare | fuzzy_matcher.py:397-412 | false when either side is empty; for a non-empty string target, true iff the lowercased token-set ratio reaches the threshold (a non-string target is answered false, see Left out) |
| FuzzyMatcher.ContactSearchable | fuzzy_matcher.py:180-211 | the contact's candidate strings are all non-empty and start with its name when it has one |
| FuzzyMatcher.CompanySearchable | fuzzy_matcher.py:213-237 | the company's candidates are non-empty and start with its name when it has one |
| FuzzyMatcher.OpportunitySearchable | fuzzy_matcher.py:239-261 | the opportunity's candidates are non-empty and start with its name when it has one |
| FuzzyMatcher.TaskSearchable | fuzzy_matcher.py:263-296 | a task's candidates are non-empty and start with its name when it has one |
| FuzzyMatcher.BestOfIsMaximum | fuzzy_matcher.py:308-320 | the running maximum over non-empty candidates is at least 0, at least every such candidate's score, and is 0 or one of those scores |
| FuzzyMatcher.BestScoreIsMaximum | fuzzy_matcher.py:298-320 | the best score is the largest `_match_score` of a non-empty candidate, and 0 when there is none |
| FuzzyMatcher.RecordScoreBounded | fuzzy_matcher.py:298-363 | a record's score lies in [0, 100] when the ratios do |
| FuzzyMatcher.CalculateBestScore | fuzzy_matcher.py:298-320 | the loop computes the best score: non-negative, at least every non-empty candidate's score, at most 100 for bounded ratios |
| FuzzyMatcher.KeptMembers | fuzzy_matcher.py:44-60 | the filtered list holds exactly the kept items, each with its own score, and is no longer than the input |
| FuzzyMatcher.AdmissionsMembers | fuzzy_matcher.py:46-60 | a record is admitted, with its score, iff it is in the input, passes the optional filter and reaches the threshold |
| FuzzyMatcher.RankedAdmissions | fuzzy_matcher.py:46-64 | the sorted result is in descending score order and holds exactly the admitted records with their scores |
| FuzzyMatcher.AdmitRecord | fuzzy_matcher.py:47-60 | one loop iteration appends the record with its score iff it is admitted |
| FuzzyMatcher.MatchRecords | fuzzy_matcher.py:44-64 | the matching loop plus sort returns exactly the admitted records, in descending score order, and equal scores keep their input order |
| FuzzyMatcher.MatchContacts | fuzzy_matcher.py:28-64 | the stable descending sort of the admitted contacts (company filter at 70, score at least the threshold), so ties keep input order and each admitted contact appears once per occurrence |
| FuzzyMatcher.MatchCompanies | fuzzy_matcher.py:66-102 | the stable descending sort of the companies passing the industry filter and the threshold; ties keep input order |
| FuzzyMatcher.MatchOpportunities | fuzzy_matcher.py:104-140 | the stable descending sort of the opportunities passing the status-or-stage filter and the threshold; ties keep input order |
| FuzzyMatcher.MatchTasks | fuzzy_matcher.py:142-178 | the stable descending sort of the CRM tasks passing the assignee filter and the threshold; ties keep input order |
| FuzzyMatcher.TopMatches | fuzzy_matcher.py:414-428 | a prefix of the results of length min(n, len) for n ≥ 0 (Python slice semantics for negative n); on sorted input no dropped entry outscores a kept one |
| FuzzyMatcher.CountClosePositive | fuzzy_matcher.py:449-452 | the close-match count is positive iff some entry lies within delta of the top score |
| FuzzyMatcher.CloseMatchesWitness | fuzzy_matcher.py:430-454 | ambiguous iff there are at least 2 results and some entry after the first lies within delta of the first |
| FuzzyMatcher.CloseMatchesSorted | fuzzy_matcher.py:430-454 | on sorted results, ambiguous iff the second score lies within delta of the first |
| FuzzyMatcher.CloseMatchesExamples | fuzzy_matcher.py:430-454 | 90/85/40 is ambiguous at delta 10; 90/70 is not |
| Ranking.SortDescProperties | fuzzy_matcher.py:62-63 | the sort yields a descending permutation of its input in which the entries of each score keep their input order (stability) |
| Ranking.SortDescMembers | business_intelligence.py:254-255 | the sort keeps the length and exactly the same entries |
| Ranking.InsertDescStable | fuzzy_matcher.py:62-63 | inserting into a sorted list places the new entry after the entries with equal score |
| BusinessIntelligence.BasicIntent | business_intelligence.py:139-147 | 'status', 'contacts', 'deals' or 'all', each exactly when its keyword group is the first one that occurs |
| BusinessIntelligence.BasicEntityType | business_intelligence.py:149-154 | 'person', 'opportunity' or 'company', each exactly when its keyword group is the first one that occurs |
| BusinessIntelligence.CleanWord | business_intelligence.py:173 | a non-empty cleaned word neither starts nor ends with one of `?!.,;:` |
| BusinessIntelligence.KeptWordsSound | business_intelligence.py:167-175 | every kept word is a cleaned input word that is not a stop word |
| BusinessIntelligence.KeptWordsComplete | business_intelligence.py:167-175 | every cleaned input word that is not a stop word is kept |
| BusinessIntelligence.KeptWordsEmpty | business_intelligence.py:167-179 | no word is kept (so entity_name is None) iff every cleaned word is a stop word |
| BusinessIntelligence.KeepNonStopWords | business_intelligence.py:167-175 | the loop computes the kept words |
| BusinessIntelligence.BasicQueryAnalysis | business_intelligence.py:129-185 | the keyword analysis always names an entity type and includes contacts, opportunities, leads and tasks |
| BusinessIntelligence.AnalyzeQuery | business_intelligence.py:55-127 | without the proxy, or when it raises, the keyword analysis is used; otherwise the proxy's analysis |
| BusinessIntelligence.ScanPlan | business_intelligence.py:231-385 | one to four scans; exactly a 'task' hint scans tasks alone |
| BusinessIntelligence.Tag | business_intelligence.py:237-244 | each match is tagged with its source and keeps its record and score |
| BusinessIntelligence.BoostAll | business_intelligence.py:257-263 | the boost keeps the order and length and adds min(100, s+5) only to favoured-source entries |
| BusinessIntelligence.RankedMatches | business_intelligence.py:254-263 | the ranked list is the stably sorted hits, each boosted |
| BusinessIntelligence.RankedByRawScore | business_intelligence.py:254-263 | the ranked list follows the raw scores: sorted raw, every hit present, each final score between the raw score and raw+5 and at most 100 when the raw score is |
| BusinessIntelligence.BoostAfterSortCanDisorder | business_intelligence.py:254-263 | a boosted company at 78 ends up after a lead at 80 with score 83, so the final list is not sorted |
| BusinessIntelligence.CollectMatches | business_intelligence.py:231-252 | the scan loop computes the merged matches and search count, raising when a search raises |
| BusinessIntelligence.CollectNextReturned | business_intelligence.py:234-238 | a successful scan appends its tagged matches and adds its record count |
| BusinessIntelligence.CollectRaisedStays | business_intelligence.py:231-385 | once a search raises, the whole fan-out raises |
| BusinessIntelligence.MatchScan | business_intelligence.py:235-237 | one scan's tagged matches |
| BusinessIntelligence.BoostSorted | business_intelligence.py:257-263 | the boost loop computes the boosted list |
| BusinessIntelligence.FanOut | business_intelligence.py:226-391 | the fan-out computes the ranked matches and search count of its specification |
| BusinessIntelligence.RelatedContacts | business_intelligence.py:629-645 | a company's people by company_id; at most the primary contact for an opportunity; nothing for other types |
| BusinessIntelligence.RelatedCompanies | business_intelligence.py:647-660 | at most one truthy company, and only for a person |
| BusinessIntelligence.RelatedOpportunities | business_intelligence.py:662-673 | opportunities by company_ids or primary_contact_ids; nothing for other types |
| BusinessIntelligence.RelatedLeads | business_intelligence.py:675-691 | leads by company_id for a company; nothing for types other than company and person |
| BusinessIntelligence.RelatedTasks | business_intelligence.py:693-711 | tasks whose related_resource is the entity, for company, person and opportunity; nothing otherwise |
| BusinessIntelligence.RelatedFailsSoft | business_intelligence.py:629-711 | a CRM that raises on every call yields no related data |
| BusinessIntelligence.GatherIntelligence | business_intelligence.py:187-444 | no entity name raises; a confirmation carries the query, the entity type and 1 to 5 matches; without a primary entity nothing related is fetched |
| BusinessIntelligence.PrimaryIsTopMatch | business_intelligence.py:390-406 | when gathering returns intelligence: no primary iff no matches; otherwise the primary is the top match and the matches were not ambiguous |
| BusinessIntelligence.NumberChoices | business_intelligence.py:826-843 | one choice per match, numbered from the given start, with its name (default 'Unknown') and score |
| BusinessIntelligence.FormatConfirmationRequest | business_intelligence.py:793-850 | "no matches" exactly for an empty list; otherwise one entry per match, numbered from 1 with its score |
| BusinessIntelligence.ProcessQuery | business_intelligence.py:937-993 | fails exactly when gathering raises or formatting the gathered data raises (always without an entity name); asks for confirmation exactly on an ambiguous gather whose formatting succeeds, with the numbered choices; otherwise answers with the gathered data and the analysis |
| Validation.NormalizeEntityType | validation.py:137-153 | 'person' and 'contact' map to 'people'; unknown names pass through lowercased |
| Validation.NormalizeEntityTypeIdempotent | validation.py:137-153 | normalising twice is normalising once |
| Validation.StripIfStringStripped | validation.py:183-185 | a stripped nested string has no surrounding whitespace |
| Validation.CleanedEntriesSound | validation.py:182-205 | a kept dictionary entry comes from the input, passes the keep rule and is stripped |
| Validation.CleanedList | validation.py:177-196 | the cleaned list is no longer than the input and holds no empty string or empty dictionary |
| Validation.CleanedString | validation.py:162-172 | the stripped string cut to the field's maximum length (default 1000): a prefix of the stripped text, and the whole of it when it fits |
| Validation.SanitizedValueProperties | validation.py:156-216 | None is dropped; a kept value is never None or empty; scalars pass unchanged; a string is dropped iff it is blank once stripped |
| Validation.SanitizeStringIdempotent | validation.py:162-174 | sanitising a non-blank string that fits its maximum length twice gives the same value as once |
| Validation.CutTextShrinks | validation.py:166-172 | a cut string ending in whitespace is shortened again by a second pass |
| Validation.TruncationCanLeaveWhitespace | validation.py:162-174 | such a string sanitises differently the second time |
| Validation.CleanEntries | validation.py:182-205 | the dictionary-cleaning loop computes its specification |
| Validation.SanitizeValue | validation.py:156-216 | the sanitising code computes its specification |
| Validation.EmailEntryErrors | validation.py:226-229 | one email entry yields at most one error |
| Validation.EmailListErrors | validation.py:224-229 | every email error names an address the pattern rejects |
| Validation.LeadEmailErrors | validation.py:231-239 | every lead email error names an address the pattern rejects |
| Validation.MonetaryErrors | validation.py:241-248 | "not a number" exactly for a present non-None value float() rejects; "negative" exactly for one below 0; at most one error |
| Validation.ResourceErrors | validation.py:250-257 | a missing-type and a missing-id error exactly for a truthy related_resource dictionary lacking that key |
| Validation.FieldTypeErrorsSound | validation.py:219-259 | email errors name rejected addresses; a truthy number or boolean as `emails` raises; the monetary error is reported exactly when the monetary check finds it |
| Validation.ValidateEmails | validation.py:223-229 | the email loop computes its specification |
| Validation.ValidateFieldTypes | validation.py:219-259 | the field checks compute their specification |
| Validation.FilterFieldsAllowlist | validation.py:109-121 | every kept field is allowed and holds the sanitised value of an input field; every error names a disallowed input field; every disallowed input field gets an error |
| Validation.FilterFieldsKeepsAllowed | validation.py:110-121 | an allowed field given once is kept with its sanitised value |
| Validation.FilterFieldsAbsent | validation.py:110-121 | a field not in the input is not in the output |
| Validation.ValidateProperties | validation.py:80-134 | valid iff no errors; sanitised keys are allowed for the type; a valid result had no disallowed input field and, on create, has a truthy name; an unknown type gives (False, {}, [one error]) |
| Validation.ValidateAndSanitize | validation.py:80-134 | the validation loop computes its specification |
| Validation.Truncate | validation.py:276 | int() of a float truncates toward zero |
| Validation.PositiveId | validation.py:277-279 | an id is kept iff it is positive |
| Validation.ValidateEntityId | validation.py:262-281 | a result is always positive; integers and numeric text are kept iff positive; None, lists and dictionaries give None |
| Validation.ValidateEntityIdText | validation.py:262-281 | the decimal text of n is accepted as n iff n > 0 |
| Approvals.RequestIdDistinct | approval_system.py:87-91 | two requests for the same operation, type and id get the same request id iff their timestamps are equal |
| Approvals.DecisionIsFinal | approval_system.py:177-191 | once approved, a request cannot be approved or rejected by anyone |
| Approvals.Without | approval_system.py:234-252 | removing an id keeps exactly the other ids |
| Approvals.WithoutDistinct | approval_system.py:234-252 | removal keeps the ids distinct |
| Approvals.PendingOf | approval_system.py:149-152 | exactly the stored requests whose status is pending |
| Approvals.PendingOfAppend | approval_system.py:149-152 | appending an id to the order appends its request exactly when it is stored and pending: the list keeps insertion order |
| Approvals.PendingOfCount | approval_system.py:149-152 | over distinct ids the list has one entry per pending id, so no request is repeated |
| Approvals.ApprovalSystem.constructor | approval_system.py:15-21 | an empty store with no approvers |
| Approvals.ApprovalSystem.AddApprover | approval_system.py:23-31 | the user becomes an approver; nothing else changes |
| Approvals.ApprovalSystem.RemoveApprover | approval_system.py:33-41 | the user is no longer an approver, whether or not they were one; nothing else changes |
| Approvals.ApprovalSystem.CreateRequest | approval_system.py:64-110 | stores a new pending record under its id (no approver yet, data defaulting to empty), appending the id to the pending order unless it is already there; the id embeds the entity id only when it is truthy; history and approvers unchanged |
| Approvals.ApprovalSystem.CreateUpdateRequest | approval_system.py:112-140 | an update request is stored under its id with the given updates as its data; a new id is appended to the insertion order, a repeated one keeps its place; history and approvers unchanged |
| Approvals.ApprovalSystem.PendingRequests | approval_system.py:142-152 | exactly the stored requests with status pending, approved ones excluded, one entry per pending request id |
| Approvals.ApprovalSystem.GetRequest | approval_system.py:154-164 | the stored request, or None for an unknown id |
| Approvals.ApprovalSystem.ApproveRequest | approval_system.py:166-198 | succeeds iff the id is stored, the caller is an approver and the request is pending; then sets approved, appends one history snapshot and keeps the request; otherwise changes nothing |
| Approvals.ApprovalSystem.RejectRequest | approval_system.py:200-237 | same guard; on success records rejected with the reason in history and removes the request; otherwise changes nothing |
| Approvals.ApprovalSystem.CompleteRequest | approval_system.py:239-254 | a stored request of any status is marked completed, appended to history and removed; an unknown id changes nothing |
| Approvals.TitleFrom | approval_system.py:309 | str.title() keeps the length and every non-letter; a letter following a letter is lowered, any other letter raised |
| Approvals.Chunks | approval_system.py:393-399 | pieces are non-empty and at most the chunk size |
| Approvals.ChunksFlatten | approval_system.py:393-399 | the pieces, joined, give back the list |
| Approvals.ChunksCount | approval_system.py:393-399 | the number of pieces is the length divided by the size, rounded up |
| Approvals.DataItems | approval_system.py:376-382 | one field item per data entry, in order |
| Approvals.ChunkSectionsAt | approval_system.py:394-399 | every data section holds one piece |
| Approvals.ApprovalBlocksShape | approval_system.py:297-433 | the blocks end with approve_<id> and reject_<id> buttons; no section holds more than ten fields; the section items of the message are the summary items followed by every field of the request, in order |
| Approvals.ApprovalSectionItems | approval_system.py:297-433 | the sections of the message carry the summary items, then the request's fields in order, and nothing else |
| Approvals.DataSectionItems | approval_system.py:376-399 | the data sections (after the data label) carry exactly the request's fields, in order |
| Approvals.SectionItemsOfChunks | approval_system.py:393-399 | a section per chunk carries the chunks' items concatenated |
| Approvals.DataFieldItems | approval_system.py:376-382 | the field loop computes the items |
| Approvals.SectionsOf | approval_system.py:393-399 | the chunking loop computes the sections |
| Approvals.CreateApprovalBlocks | approval_system.py:297-433 | the blocks of the request, ending with its action buttons |
| CsvHandler.Filled | csv_handler.py:228-235 | a column is filled iff it is present and not empty |
| CsvHandler.FirstFilled | csv_handler.py:225-237 | the first filled column of a priority list, or none |
| CsvHandler.LookupCriteria | csv_handler.py:225-260 | no criteria iff no lookup column is filled; otherwise the first filled column, as a one-element email list when it is the contact's email |
| CsvHandler.Exists | csv_handler.py:239-240 | false without criteria; raises iff the search raises; true iff the search returns a record |
| CsvHandler.ContactLookupOrder | csv_handler.py:215-240 | email, then name, then contact_name; without any the answer is no, whatever the CRM holds |
| CsvHandler.CompanyLookupOrder | csv_handler.py:242-263 | company, then company_name; without either the answer is no, whatever the CRM holds |
| CsvHandler.OpportunityLookupOrder | csv_handler.py:265-288 | opportunity, then opportunity_name, then deal; without any the answer is no, whatever the CRM holds |
| CsvHandler.EnrichRowProperties | csv_handler.py:185-211 | the three answers Yes/No, or Error in all three when any lookup raised; other columns keep their values and stay in front |
| CsvHandler.WithColumnsProperties | csv_handler.py:187-199 | the three result columns are set and every other column is unchanged and keeps its position |
| CsvHandler.EnrichAllCounts | csv_handler.py:177-213 | one enriched row per input row; successful + failed = rows; the total is the row count |
| CsvHandler.EnrichAllRows | csv_handler.py:184-211 | the i-th enriched row is the enrichment of the i-th input row |
| CsvHandler.EnrichOne | csv_handler.py:185-211 | one loop iteration enriches its row |
| CsvHandler.ProcessCsvQueries | csv_handler.py:162-213 | the loop computes the results; successful + failed = total_queries = number of enriched rows |
| CsvHandler.Tags | csv_handler.py:359-360 | one stripped tag per comma-separated piece |
| CsvHandler.TagsArePieces | csv_handler.py:359-360 | the pieces re-joined with commas give back the cell, and every tag is stripped |
| CsvHandler.TagValues | csv_handler.py:360 | the tags as JSON strings, in order |
| CsvHandler.CriteriaContactLookups | csv_handler.py:326-345 | each of name, emails, phone_numbers, city, state and country holds its filled column (email and phone as lists), and is absent otherwise |
| CsvHandler.CriteriaOpportunityLookups | csv_handler.py:348-356 | status only for opportunities; a minimum value iff the type is opportunities and min_value parses |
| CsvHandler.CriteriaTagsLookup | csv_handler.py:359-360 | tags present iff the tags column is filled, as the stripped comma-separated pieces |
| CsvHandler.BuildCriteriaFromRow | csv_handler.py:315-362 | the step-by-step assignments build exactly the criteria of the specification |
| CsvHandler.AssignFilled | csv_handler.py:329-345 | one conditional assignment adds its entry iff the column is filled |
| CsvHandler.ContactCriteria | csv_handler.py:326-345 | the first six assignments |
| CsvHandler.OpportunityCriteria | csv_handler.py:348-356 | the two opportunity-only assignments |
| CsvHandler.AnyIndicator | csv_handler.py:432-443 | true iff some lowercased column name is an indicator |
| CsvHandler.AnyIndicatorMembers | csv_handler.py:432-443 | the same, over the set of column names |
| CsvHandler.DetectImportMode | csv_handler.py:418-445 | 'lookup' for no rows; 'import' iff some lowercased key of the first row is an import indicator |
| CsvHandler.FirstMapping | csv_handler.py:459-461 | the first mapping, in declaration order, that lists the name as an alias |
| CsvHandler.NormalizeSpec | csv_handler.py:447-463 | the canonical key of the first mapping listing the lowercased, stripped name; otherwise that name |
| CsvHandler.ImpressionsIsValue | csv_handler.py:21-36 | 'impressions' normalises to 'monetary_value' |
| CsvHandler.MonthlyImpressionsIsValue | csv_handler.py:21-36 | 'monthly_impressions' normalises to 'monetary_value' |
| CsvHandler.NormalizeNotIdempotent | csv_handler.py:21-36 | 'imps' normalises to 'monthly_impressions', which normalises further |
| CsvHandler.NormalizesTo | csv_handler.py:457-463 | an alias already lowercased and stripped maps to the first mapping that lists it |
| CsvHandler.NormalizedRowLastWins | csv_handler.py:574-577 | each normalised key holds the value of the last column that normalises to it |
| CsvHandler.NormalizeRow | csv_handler.py:574-577 | the normalising loop computes its specification |
| CsvHandler.RowJson | csv_handler.py:627 | the raw row as a JSON object with one field per column |
| CsvHandler.OpportunityDataName | csv_handler.py:592 | the opportunity data holds the name |
| CsvHandler.OpportunityDataRow | csv_handler.py:626 | the opportunity data holds the row number |
| CsvHandler.OpportunityDataStage | csv_handler.py:622-623 | the first stage is set exactly for a new opportunity with a truthy stage |
| CsvHandler.PlanRowProperties | csv_handler.py:571-648 | a row without a name is an error; a planned item carries its name and row number; the stage id never on updates and on every create when configured |
| CsvHandler.PlanPartitions | csv_handler.py:562-650 | every row lands in exactly one of to_create, to_update and errors |
| CsvHandler.ProcessOpportunityImport | csv_handler.py:528-650 | the loop computes the plan; the three lists together have one entry per row |
| CsvHandler.PublicData | csv_handler.py:675 | exactly the entries whose key does not start with '_'; every such key looks up the same value as in the input |
| CsvHandler.UpdateData | csv_handler.py:697-700 | only public entries other than name and pipeline_id; name and pipeline_id are absent, and every other public key keeps its value, so everything else is sent |
| CsvHandler.CreateOutcome | csv_handler.py:672-691 | a created record has the item's name and a truthy id; a create is never recorded as an update |
| CsvHandler.UpdateOutcome | csv_handler.py:694-724 | nothing to change is recorded as updated with 'No changes'; an update keeps the item's name and id and is never a create |
| CsvHandler.NoChangesWithoutCall | csv_handler.py:702-719 | with nothing to change the outcome does not depend on the CRM |
| CsvHandler.CreateAll | csv_handler.py:672-691 | each create item adds exactly one outcome, and no update |
| CsvHandler.UpdateAll | csv_handler.py:694-724 | each update item adds exactly one outcome, and no create |
| CsvHandler.ExecuteAccountsForEveryItem | csv_handler.py:652-726 | each planned item lands in exactly one of created, updated and failed; no more records are created than creates were planned |
| CsvHandler.ExecuteOpportunityImport | csv_handler.py:652-726 | the two loops compute the execution, with one outcome per item |
| QueryProcessor.FirstMentioned | query_processor.py:63-77 | the first keyword rule that occurs, or none |
| QueryProcessor.EntityTypePriority | query_processor.py:63-77 | the first rule whose keywords occur decides the type |
| QueryProcessor.EntityTypeDefault | query_processor.py:75-77 | with no keyword the type is 'people' |
| QueryProcessor.EntityTypeKnown | query_processor.py:53-77 | the type is one of the six collections; 'tasks' iff a task keyword occurs; 'projects' iff not, and a project keyword does |
| QueryProcessor.QuotedNameSpec | query_processor.py:181-183 | the name found is the leftmost non-empty double-quoted text; none iff nothing is quoted |
| QueryProcessor.CapitalizedWords | query_processor.py:186-189 | exactly the words that start upper-case and are longer than 2 characters; a single word is kept iff it is such a word |
| QueryProcessor.CapitalizedWordsAppend | query_processor.py:186-189 | the list comprehension is a filter that keeps order: the words of a concatenation are those of each part, in turn |
| QueryProcessor.NameFromWords | query_processor.py:184-191 | an unquoted name is only for people or companies and is the first three (or fewer) capitalised words of the question, joined by spaces, in order |
| QueryProcessor.NameFoundIff | query_processor.py:184-191 | for people and companies without a quote, a name is found iff some word qualifies |
| QueryProcessor.StrList | query_processor.py:170-178 | the found strings as a JSON list, in order |
| QueryProcessor.ParseBasicLookups | query_processor.py:166-203 | emails, phones, name and city are each set exactly when their recogniser finds something |
| QueryProcessor.ParseBasicOnlyThese | query_processor.py:166-203 | no other criterion is set |
| QueryProcessor.ParseQuery | query_processor.py:31-153 | the type is decided on the lowercased query; the keyword parser is used without a client or on a parse failure; the model's criteria otherwise; other exceptions propagate |
| QueryProcessor.Rendered | query_processor.py:225-235 | one entry per item for people, companies, opportunities and leads; none for other types |
| QueryProcessor.TruncationNote | query_processor.py:219-223 | a note exactly when there are more than 20 results |
| QueryProcessor.Listed | query_processor.py:221-222 | the first min(20, n) results |
| QueryProcessor.FormatResults | query_processor.py:205-237 | "No results found." for no results; otherwise the rendered first 20, joined by blank lines, plus the note |
| QueryProcessor.ListingProperties | query_processor.py:219-237 | at most 20 entries; one per listed item for a known type; an empty body for other types |
| QueryProcessor.TruncationNoteNamesTotal | query_processor.py:221-223 | the note says "Showing first 20" and names the total |
| TaskProcessor.ConvertHourIsClock | task_processor.py:196-205 | for hours 1 to 12 with am or pm: the 24-hour reading, 12 am is 0, 12 pm is 12, and below 12 iff am |
| TaskProcessor.ZeroPad | task_processor.py:205 | at least two digits |
| TaskProcessor.ZeroPadParses | task_processor.py:205 | the padded text reads back as the number |
| TaskProcessor.Clock | task_processor.py:205 | hours, a colon, minutes |
| TaskProcessor.DueTimeParses | task_processor.py:196-205 | the written due time reads back as the converted hour and the minutes (default 0) |
| TaskProcessor.ParseTaskBasicDefaults | task_processor.py:166-228 | assignee is the requester unless someone is mentioned; priority is high iff an urgency word occurs, else normal; a found entity is a company |
| TaskProcessor.ResolveAssigneeRequester | task_processor.py:145-151 | only an '@' value can send a task to someone other than the requester |
| TaskProcessor.FromLlm | task_processor.py:142-158 | an empty description falls back to the text |
| TaskProcessor.ParseTask | task_processor.py:73-164 | the keyword parser without a client or on an exception; the model's reply otherwise, with the resolved assignee; original text and requester always kept |
| TaskProcessor.SearchOrder | task_processor.py:372-376 | a permutation of companies, opportunities and people, starting with people for 'person', opportunities for 'opportunity', companies otherwise |
| TaskProcessor.TypeNameAsWrittenWrong | task_processor.py:395 | the type names written for people and opportunities are 'people' and 'opportunitie', which are not record types |
| TaskProcessor.SingularNamesAreTypes | task_processor.py:392-397 | the corrected names of the three searched collections are record types |
| TaskProcessor.TypeNameAsWrittenAgrees | task_processor.py:395 | the written type name equals the singular record type for every collection except people and opportunities |
| TaskProcessor.Describe | task_processor.py:392-397 | the found record's id and name, its collection, and (for the three searched collections) a record type the CRM accepts |
| TaskProcessor.DescribeAsWrittenDiffers | task_processor.py:392-397 | the entity as the code builds it differs from the modelled one only in its type name, equal for companies and an unknown type for people and opportunities |
| TaskProcessor.FirstFound | task_processor.py:378-401 | the first record of the first collection whose search returns any with a dictionary first, skipping searches that raise or whose first record is not a dictionary; none iff no collection is such a hit |
| TaskProcessor.FirstFoundSkipsNonDictionary | task_processor.py:389-399 | a first record that is not a dictionary makes `.get` raise, and the search goes on with the next collection |
| TaskProcessor.FirstFoundStep | task_processor.py:378-397 | a hit returns at once; a miss moves on to the next collection |
| TaskProcessor.SearchInOrder | task_processor.py:378-401 | the search loop with early return computes its specification |
| TaskProcessor.FindRelatedEntity | task_processor.py:354-401 | none without a client or a name; otherwise the first hit in the search order |
| TaskProcessor.CopperTypeUnchanged | task_processor.py:448-456 | the type map never changes a type name |
| TaskProcessor.BuildCopperTaskLookups | task_processor.py:403-460 | always the name; assignee_id iff a non-zero id is given, and then that id; due_date iff the due date parses, and then its timestamp; priority 'High' iff 'high'; related_resource iff a related entity is given, and then its type name and id |
| TaskProcessor.ResourceKeepsType | task_processor.py:446-458 | the related resource carries the entity's own type name and id |
| TaskProcessor.ConfirmationLines | task_processor.py:472 | the first line shows a task line with the description |
| TaskProcessor.ConfirmationPrefersLinked | task_processor.py:462-488 | a linked line iff an entity was found; a not-found line iff none was found but a name was given; a single line iff there is nothing else to say |
| SlackCommands.CollectEmpty | app_old.py:640-646 | the pairs dictionary is empty iff no token holds a pair |
| SlackCommands.CollectAbsent | app_old.py:640-644 | a key is absent iff no token stores it |
| SlackCommands.CollectLast | app_old.py:640-644 | a key holds the value of the last token that stores it |
| SlackCommands.UpdatePair | app_old.py:642-643 | a pair iff the token holds '='; the key holds no '='; key, '=' and value give back the token |
| SlackCommands.Unquote | app_old.py:1027 | the value neither starts nor ends with a single quote |
| SlackCommands.UnquoteRoundTrip | app_old.py:1027 | a value without quotes at its ends is kept; "v" and 'v' give back v |
| SlackCommands.CreatePair | app_old.py:1024-1028 | a pair iff the token holds '='; the value is the unquoted text after the first '=' |
| SlackCommands.CollectPairs | app_old.py:640-644 | the loop builds the dictionary of its specification |
| SlackCommands.ParseUpdateCommand | app_old.py:627-648 | usage for empty text; too few parts under 3 tokens; a bad id iff the second token is not an integer; no changes iff no token holds '='; otherwise the lowercased type, the id and the pairs, later keys overriding earlier ones |
| SlackCommands.UpdateTarget | app_old.py:650-660 | person/people, company/companies and opportunity/opportunities map to the singular type; other types to none |
| SlackCommands.RecordName | app_old.py:1034-1039 | missing iff there is no name and the type is not person/people; the given name, else 'New Record' |
| SlackCommands.ParseCreateCommand | app_old.py:1002-1039 | usage for empty text; too few parts under 2 tokens; otherwise the request from the words |
| SlackCommands.CreateRequest | app_old.py:1019-1039 | no data iff no token holds '='; a missing name iff no name and not person/people; otherwise the lowercased type, the unquoted pairs and the record name |
| SlackCommands.MentionId | app_old.py:729 | the id holds no '\|' and does not start with '<', '@' or '>' |
| SlackCommands.MentionIdRoundTrip | app_old.py:729 | a bare id, <@id> and <@id\|name> all give back the id |
| SlackCommands.LowerColumns | app_old.py:331 | exactly the lowercased column names |
| SlackCommands.HasContactData | app_old.py:327-334 | false for no rows |
| SlackCommands.TwoElements | app_old.py:334 | a set has at least two elements iff it holds two distinct ones |
| SlackCommands.HasContactDataIff | app_old.py:327-334 | true iff there are rows and two distinct lowercased first-row columns are contact indicators |
| SlackCommands.LowerRowLookup | app_old.py:437 | in the lowercased row a key holds the value of the last column that lowercases to it |
| SlackCommands.ContactOf | app_old.py:440-447 | a non-empty name (or, failing that, full name) column, looked up case-insensitively, is the contact's name |
| SlackCommands.Shown | app_old.py:470-480 | the name, or the email when there is no name |
| SlackCommands.ContactCriteria | app_old.py:453 | the email when there is one, the name otherwise |
| SlackCommands.CompanyDiffers | app_old.py:461 | a mismatch iff both companies are non-empty and differ after lowercasing; raises for a truthy non-string CRM company |
| SlackCommands.Classify | app_old.py:436-481 | skipped iff the row has neither email nor name; otherwise the person search (by email when there is one, else by name) returned; not_found only on an empty result, listed under its shown name; a match or a mismatch only on a hit; a mismatch only when both companies are non-empty and differ ignoring case; a match only when they do not differ |
| SlackCommands.SkippedRows | app_old.py:449-450 | no more skipped rows than rows |
| SlackCommands.TalliedPartition | app_old.py:436-481 | matches + not_found + mismatches + skipped rows = rows |
| SlackCommands.ReconcileContacts | app_old.py:429-481 | the loop computes the tally with the row count as total, raising iff a lookup raises |
| SlackCommands.TalliedRaised | app_old.py:436-481 | once a row raises, the reconciliation raises |
| SlackCommands.CollectionOf | app_old.py:1285-1327 | exactly the twelve singular and plural type names have a collection |
| SlackCommands.Prepare | app_old.py:1263-1327 | a validation error iff create/update, not skipped, and invalid, carrying the validator's errors; a call only for a known operation and type; update/delete use the validated id; the data sent is the sanitised data unless validation is skipped |
| SlackCommands.PrepareSendsSanitized | app_old.py:1263-1275 | with validation, the data sent holds only allowed fields and, on create, a truthy name |
| SlackCommands.Perform | app_old.py:1285-1330 | a delete answers a boolean |
| SlackCommands.ExecuteCopperOperation | app_old.py:1245-1332 | a validation error iff the gate rejects, never with validation skipped; None for an unknown operation or type, or an invalid update/delete id |
| SlackCommands.RouteRequest | app_old.py:110-117 | a task iff `is_task_request` accepts the text; otherwise an update or a business query |
| SlackCommands.UpdateWordsRoute | app_old.py:115-117 | an update iff not a task and the lowercased text contains update, change, modify, set or edit |
| SlackCommands.RouteMention | app_old.py:89-117 | the greeting iff the text is blank once stripped; otherwise the request route of the stripped text |
| SlackCommands.RouteDirectMessage | app_old.py:166-210 | ignored iff not a DM, from a bot, or blank; help iff the lowercased text is help, ? or commands; otherwise the request route |
| SlackCommands.TaskCheckFirst | app_old.py:110-117 | a task request is routed as a task even when it contains an update word |
| Text.ParseIntToString | validation.py:276 | int() reads back the decimal text of every integer |
| Text.ParseInt | validation.py:276 | int() succeeds only on text that is not blank |
| Text.Lower | fuzzy_matcher.py:338-339 | lower() keeps the length and lowers each character |
| Text.StripSpec | fuzzy_matcher.py:338-339 | strip() gives no longer text with no surrounding whitespace, empty exactly for all-whitespace text |
| Text.SplitWs | query_processor.py:186 | split() gives non-empty words without whitespace |
| Text.SplitWsJoin | query_processor.py:186 | splitting words joined by single spaces gives back exactly those words, in order |
| Text.SplitWsConcat | query_processor.py:186 | the words of split(), concatenated, are the text with every whitespace character removed |
| Text.SplitWsWord | query_processor.py:186 | a word followed by whitespace or the end is split off whole as the first word |
| Text.NonSpace | query_processor.py:186 | the text's non-whitespace characters: never longer than the text, with no whitespace |
| FuzzyMatcher.FilterTargetChoice | fuzzy_matcher.py:124-164 | the opportunity filter compares with the status when set, else the stage; a task filter with assignee_name when set, else the assignee's name |
| JsonModel.Put | app_old.py:644 | assigning a key sets it, leaves other keys unchanged, and appends a new key at the end |

## Left out

- Slack and HTTP plumbing: the event and command handlers' messages (`say`, `chat_postMessage`), app.py, the health endpoint and the threads. The routing functions return which handler runs, not what it posts.
- The bot-mention removal in the mention handler (`text.replace(f"<@{bot}>", "")`): `RouteMention` takes the text after that removal.
- The copper_client transport and CRUD wrappers: the CRM is an oracle.
- The language-model branches of `analyze_query`, `parse_query` and `parse_task`: their reply is an input. The prompt, the HTTP call and the JSON extraction are not modelled.
- rapidfuzz and jellyfish: their functions are uninterpreted parameters, with the ratios assumed to lie in [0, 100] where a bound is stated.
- Regular expressions (`EMAIL_PATTERN`, the email/phone/location/time/mention/entity patterns, `is_task_request`, `_clean_task_description`, `_extract_slack_id`), `float()`, `_parse_monetary_value`, `_parse_date`, `_parse_due_date` and dateutil: these are parameters.
- Dates, wall-clock timestamps, `datetime.now()`: parameters.
- Configuration (`Config.DEFAULT_PIPELINE_ID`, `DEFAULT_PIPELINE_NAME`, the proxy URL): the pipeline and stage ids are inputs of the import plan, so the defaulting at csv_handler.py:546-560 is not modelled.
- Methods app_old.py calls that approval_system.py does not define (`get_admins`, `is_admin`, `add_admin`, `_save_state`, user mappings).
- `ApprovalSystem.get_approvers`: it lists the set in an unspecified order; the model's `approvers` field is that set.
- Presentation text: `format_intelligence`, `_format_*`, `format_request_for_approval`, the import preview and results, the reconciliation summary, the confirmation entry context (website, city, title, e-mail, value). Only counts, numbering, truncation and the block structure are modelled.
- File parsing and writing (`parse_csv`, `parse_excel`, `generate_enriched_csv`, `download_file`).
- Metrics and logging.
- Floating point: scores, thresholds, `JFloat` values and money amounts are exact reals. Double rounding, NaN and infinity are not modelled, so a comparison that rounding decides differently (for instance the 10-point gap test at fuzzy_matcher.py:451 on scores such as 16.666666666666668 and 6.666666666666667) can come out differently from the source.
- `None` cells in CSV rows: rows are string-to-string dictionaries.
- Text: `lower`, `isupper`, `strip` and `split` are modelled on ASCII. Unicode case mapping and Unicode whitespace are not modelled.
- `int()` on text accepts optional surrounding whitespace, a sign and ASCII digits. Underscore separators and non-ASCII digits are not modelled.
- The `/copper-update` handler after parsing (fetching the entity and creating the request): only the type mapping `UpdateTarget` is modelled.
- FuzzyMatcher.PhoneticSimilarity: the contract states the soundex case only as a necessary condition (true implies shared metaphone or shared soundex codes); the body decides it exactly.
- BusinessIntelligence.RelatedLeads: the contract states the company case and the other-types case; the person case (a search by the person's first e-mail) is only in the body.
- SlackCommands.ContactOf: the contract states only that the name (or full name) column takes precedence; the email, company and first/last-name fallbacks are only in the body.
- SlackCommands.HasContactData: its own contract only says it is false for no rows; `HasContactDataIff` states the full condition.
- SlackCommands.Perform: the contract only states that a delete answers a boolean; which client call is made for each collection is in the body.
- FuzzyMatcher.FuzzyCompare: a truthy target that is not a string is answered false, where `target.lower()` (fuzzy_matcher.py:411) raises.
- FuzzyMatcher.ContactSearchable: a record that is not a dictionary gives no candidates (so no match), where `contact.get` (fuzzy_matcher.py:185) raises and the error reaches the caller of `match_contacts`; e-mail and phone entries that are not dictionaries, and values that are not strings, are skipped, where the source raises on `.get` (fuzzy_matcher.py:189-199) or later in `_match_score`'s `.lower()`; the full name is built only from string first and last names, where the f-string formats any value.
- FuzzyMatcher.CompanySearchable: a record that is not a dictionary gives no candidates, where `company.get` (fuzzy_matcher.py:218) raises; an address that is not a dictionary and values that are not strings are skipped, where the source raises (fuzzy_matcher.py:228-232 and `_match_score`).
- FuzzyMatcher.OpportunitySearchable: a record that is not a dictionary gives no candidates, where `opp.get` (fuzzy_matcher.py:244) raises; values that are not strings are skipped, where `_match_score` raises on them.
- FuzzyMatcher.TaskSearchable: a record that is not a dictionary gives no candidates, where `task.get` (fuzzy_matcher.py:268) raises; a related resource that is not a dictionary and values that are not strings are skipped, where the source raises.
- FuzzyMatcher.FilterTarget: a record that is not a dictionary, and a task whose `assignee` is present but not a dictionary (null, a string, a list, a number), give an empty filter target, where `.get` on them (fuzzy_matcher.py:124-164, the assignee at :163) raises; the Match functions with a filter therefore drop such a record instead of raising.
- TaskProcessor.FirstFound: names a hit by its singular record type (`Describe`), where task_processor.py:395 writes 'people' and 'opportunitie'; `DescribeAsWritten` and `DescribeAsWrittenDiffers` give the written name and where it differs.
- TaskProcessor.SearchInOrder: returns `FirstFound`'s entity, so the same corrected type name.
- TaskProcessor.FindRelatedEntity: returns `FirstFound`'s entity, so the same corrected type name.
- TaskProcessor.BuildCopperTask: the related_resource type it sends is the corrected one it receives from the search, not the written 'people' or 'opportunitie'.

## Findings

| source | as written | input that shows it | evidently intended | confidence | as-written member | corrected member |
|---|---|---|---|---|---|---|
| task_processor.py:395 | the related entity's type is `search_type.rstrip('s')` for people and opportunities, and `copper_type_map` (task_processor.py:448-456) passes unknown names through | a task whose related name is found among people: the payload's related_resource type becomes 'people', and for opportunities 'opportunitie'; neither is a Copper record type | the singular record type ('person', 'opportunity') | not executed | TaskProcessor.TypeNameAsWrittenWrong | TaskProcessor.SingularNamesAreTypes |

The model uses the corrected names: `TaskProcessor.Describe` names a found
record by `SingularName`, and `TaskProcessor.DescribeAsWritten` builds it
with `TaskProcessor.TypeNameAsWritten`, the name as the code writes it.
`TaskProcessor.DescribeAsWrittenDiffers` shows that the two differ only in
the type name, and only for people and opportunities. The search members
`FirstFound`, `SearchInOrder` and `FindRelatedEntity`, and the payload built
from their result, carry the corrected name.
