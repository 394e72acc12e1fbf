# Governance gate: pre-tool-use hook and audit logger, in Dafny

This project models the two pieces of the governance framework's examples that make
decisions and keep records:

- **The pre-tool-use hook** (`examples/hooks/pre-tool-use-validator.js`). Before an agent's
  tool call runs, the hook asks the rule database for the rules of that tool with
  persistence `HIGH` that are active, passing the caller's context along with the query.
  It then computes three verdicts:
  - the boundary check blocks on the first rule of quadrant `VALUES` that the input crosses;
  - the cross-reference check blocks on the first rule with verification `MANDATORY` that
    the input conflicts with;
  - the pressure gate blocks when the pressure level is `CRITICAL` and `user_override` is falsy.

  The hook reports the first blocked verdict in that order. Only on that path does it
  write a `BLOCKED` record to the audit log.
- **The audit logger** (`examples/audit/audit-logger.js`). Class `AuditLogger` records
  decisions with a sanitised context and an `audit_` id, and answers filtered queries. It
  also computes per-service statistics and the block rate over a time window.

Files, one module each:

| file | module | models |
|---|---|---|
| `wrappers.dfy` | `Wrappers` | `Option`, for `null`/`undefined` |
| `js_values.dfy` | `JsValues` | JavaScript values and truthiness |
| `seqs.dfy` | `Seqs` | `filter`, `find` and counting over sequences |
| `pre_tool_use_validator.dfy` | `PreToolUseValidator` | the hook and its three validators |
| `audit_entries.dfy` | `AuditEntries` | the entry draft and the stored entry |
| `service_stats.dfy` | `ServiceStats` | the `$group`/`$sort` pipeline of `getServiceStats` |
| `audit_logger.dfy` | `AuditLog` | class `AuditLogger` and sanitising, querying and block rates |
| `hook_audit_link.dfy` | `HookAuditLink` | the hook's block record going through `AuditLogger.record` |

The hook file is pure apart from its one audit write. Its validators and the hook are
functions. The collaborators it calls but does not define are the function fields of
`Collaborators`: `queryRules`, `crossesBoundary`, `conflictsWithRule`, `calculatePressure`
and `sanitize`. Nothing is assumed about them. The audit log is a sequence the hook
receives and hands back, extended on the block path only.

The audit logger is a class. Its `storage` field is a sequence that stands in for the
database collection. `Record` appends to it. `SanitizeContext` copies the context, deletes
the three sensitive keys and truncates long strings in a loop over the keys. `BuildQuery`
assembles the query object by conditional field updates. The statistics and the block
rate are computed by functions over the stored entries.

Behaviour of the code that is easy to misread:
- The code runs all three validators (`Promise.all`) and then picks the first blocked
  result. Nothing is short-circuited. With pure collaborators the outcome is the same.
- The code audits only blocked calls, not every decision.
- The code has no fail-closed path. An error from `queryRules` or `record` propagates.
- A truncated string is the first 200 characters plus `"..."`, so it is 203 characters
  long, not at most 200. Lengths here count characters, which equal the JavaScript
  length (UTF-16 code units) only for text inside the Basic Multilingual Plane.
- The hook records the decision `"BLOCKED"`, while the logger counts only `"BLOCK"`.
  `HookAuditLink` proves that, with an `AuditLogger` as the hook's audit log, a blocked
  call is stored without service or context and is never counted as a block.
- The pressure score, its levels and its thresholds do not exist in the code.
  `calculatePressure` is a collaborator.

## Model

| member | source | states |
|---|---|---|
| `PreToolUseValidator.ValidateBoundaries` | examples/hooks/pre-tool-use-validator.js:57-72 | blocks iff some rule of quadrant VALUES is crossed; then the reported rule is the first such rule in list order, with reason "Action violates boundary: " + its text and its id; otherwise Pass (so an empty list passes) |
| `PreToolUseValidator.BoundaryIgnoresOtherQuadrants` | examples/hooks/pre-tool-use-validator.js:58-69 | rules outside quadrant VALUES never affect the boundary verdict, whatever the crossing predicate says about them |
| `PreToolUseValidator.ValidateCrossReferences` | examples/hooks/pre-tool-use-validator.js:78-94 | blocks iff some MANDATORY rule conflicts with the input; then the reported rule is the first such rule, with reason "Action conflicts with mandatory rule: " + its id and that id; otherwise Pass |
| `PreToolUseValidator.CrossReferenceIgnoresOptionalRules` | examples/hooks/pre-tool-use-validator.js:79-91 | rules whose verification is not MANDATORY never affect the cross-reference verdict |
| `PreToolUseValidator.PreToolUseHook` | examples/hooks/pre-tool-use-validator.js:11-51 | an allowed call leaves the audit log unchanged; a blocked call appends exactly one record with decision "BLOCKED", the tool, the sanitised input and the same reason and rule as the returned decision |
| `PreToolUseValidator.HookReportsFirstBlock` | examples/hooks/pre-tool-use-validator.js:21-46 | the decision is Allowed iff no verdict blocked; otherwise it carries the reason and rule of the first blocked verdict in the order boundary, cross-reference, pressure |
| `PreToolUseValidator.HookDeniesIffSomeValidatorBlocks` | examples/hooks/pre-tool-use-validator.js:21-30 | the call is blocked iff a VALUES rule is crossed, or a MANDATORY rule conflicts, or the level is CRITICAL without a truthy override |
| `PreToolUseValidator.EmptyRulesBelowCriticalAllowed` | examples/hooks/pre-tool-use-validator.js:13-50 | with no rules returned and a level other than CRITICAL, the outcome is exactly `{allowed: true}` with the log unchanged |
| `PreToolUseValidator.ValidateContextPressure` | examples/hooks/pre-tool-use-validator.js:100-112 | blocks iff the pressure level is "CRITICAL" and `user_override` is falsy, and then the verdict is reason "Context pressure CRITICAL - action deferred" with rule "PRESSURE_CRITICAL"; otherwise Pass (its effect on the hook is `PressureGateDecides` and `HookDeniesIffSomeValidatorBlocks`) |
| `PreToolUseValidator.PressureGateDecides` | examples/hooks/pre-tool-use-validator.js:100-112 | when the rule validators pass, the call is blocked iff the level is CRITICAL and `user_override` is falsy, with reason "Context pressure CRITICAL - action deferred" and rule "PRESSURE_CRITICAL" |
| `PreToolUseValidator.OverrideNeverLiftsRuleBlock` | examples/hooks/pre-tool-use-validator.js:100-111 | for the same rule list, whatever value `user_override` takes, a boundary or cross-reference block stands and the selected verdict is unchanged |
| `PreToolUseValidator.OverrideNeverLiftsRuleBlockInHook` | examples/hooks/pre-tool-use-validator.js:13-46 | when the rule database returns the same rules with and without the override (the query carries the whole context), a call blocked by a rule stays denied with the same decision and audit record |
| `PreToolUseValidator.HookUsesOnlyHighActiveRules` | examples/hooks/pre-tool-use-validator.js:13-18 | only the rules returned for tool = toolName, persistence HIGH, active true and the caller's context matter; any other answers from the rule database change nothing (`RuleCriteria` is that query) |
| `Seqs.Find` | examples/hooks/pre-tool-use-validator.js:28 | `find` returns nothing iff no element satisfies the predicate, else the element at the first index that does |
| `Seqs.FindAfterFilter` | examples/hooks/pre-tool-use-validator.js:58-69 | searching a filtered list finds the first element of the whole list that satisfies both predicates |
| `AuditLog.AuditLogger.constructor` | examples/audit/audit-logger.js:11-14 | the store starts with the given entries; the collection name defaults to "auditLogs" when none or "" is given |
| `AuditLog.AuditLogger.SanitizeContext` | examples/audit/audit-logger.js:102-119 | null for a missing context; otherwise the copy with the three sensitive keys removed and every string of more than 200 characters truncated (characters, not UTF-16 code units: see "Left out") |
| `AuditLog.SanitizedKeys` | examples/audit/audit-logger.js:103-109 | the result is null iff the context is; it holds every input key except credentials, apiKeys and passwords, and none of those |
| `AuditLog.SanitizedTruncation` | examples/audit/audit-logger.js:112-116 | a string of more than 200 characters becomes its first 200 characters followed by "...", 203 in all (for text inside the Basic Multilingual Plane); any other value is kept unchanged |
| `AuditLog.SanitizedStringsBounded` | examples/audit/audit-logger.js:112-116 | no top-level string of a sanitised context is longer than 203 characters |
| `AuditLog.SanitizeIdempotent` | examples/audit/audit-logger.js:102-119 | sanitising a sanitised context changes nothing |
| `AuditLog.AuditLogger.Record` | examples/audit/audit-logger.js:19-35 | appends exactly one entry and keeps the earlier ones; the entry copies service, decision and reason, has rule id null unless truthy, metadata {} unless truthy, the sanitised context, and the returned id, which starts with "audit_" |
| `AuditLog.GenerateAuditId` | examples/audit/audit-logger.js:124-128 | the id is "audit_", then the clock reading in base 36, then at most seven further characters |
| `AuditLog.Base36RoundTrip` | examples/audit/audit-logger.js:125 | the base-36 digits of the clock reading read back as the clock reading |
| `AuditLog.AuditLogger.BuildQuery` | examples/audit/audit-logger.js:40-58 | the built query matches an entry iff every truthy filter holds of it; each field is set iff its filter is; both dates go into one range with both bounds kept |
| `AuditLog.AuditLogger.Query` | examples/audit/audit-logger.js:40-61 | returns, in storage order, exactly the stored entries that satisfy every filter that is set |
| `AuditLog.NoFiltersMatchEverything` | examples/audit/audit-logger.js:40-60 | with no filter set, every stored entry is returned |
| `AuditLog.AuditLogger.GetServiceStats` | examples/audit/audit-logger.js:66-81 | one row per distinct service, with that service's entry count and "BLOCK" count, ordered by total descending |
| `ServiceStats.ServiceStatsOfIsServiceStats` | examples/audit/audit-logger.js:67-78 | grouping by service, counting, then sorting by total yields exactly the intended statistics |
| `ServiceStats.SortByTotal` | examples/audit/audit-logger.js:77 | the rows come out ordered by total, descending, as a permutation of the input rows, with services still distinct |
| `ServiceStats.StatsBlocksAtMostTotal` | examples/audit/audit-logger.js:70-74 | in any correct statistics, a row's blocks never exceed its total, and its total is positive |
| `ServiceStats.BlocksAtMostTotal` | examples/audit/audit-logger.js:71-73 | a service's "BLOCK" count never exceeds its entry count |
| `ServiceStats.ServiceTotalIsCount` | examples/audit/audit-logger.js:71 | a service's total is the generic count of the entries naming it |
| `ServiceStats.ServiceBlocksIsCount` | examples/audit/audit-logger.js:72-73 | a service's block count is the generic count of its entries whose decision is "BLOCK" |
| `ServiceStats.ServiceTotalPositive` | examples/audit/audit-logger.js:69-71 | a service has a non-zero total iff some entry names it |
| `AuditLog.AuditLogger.GetBlockRate` | examples/audit/audit-logger.js:86-97 | total counts the entries in the inclusive window, blocks those among them with decision "BLOCK", blocks <= total, rate is 0 for an empty window and blocks/total*100 otherwise, within 0..100 |
| `AuditLog.WindowCounts` | examples/audit/audit-logger.js:87-90 | the date-only query keeps exactly the window's entries, and filtering them for "BLOCK" counts the window's blocks |
| `HookAuditLink.BlockedEntryNotCountedAsBlock` | examples/hooks/pre-tool-use-validator.js:34 | an entry with decision "BLOCKED" adds to its service's total but to no service's block count |
| `HookAuditLink.BlockedEntryNotInBlockRate` | examples/audit/audit-logger.js:90 | an entry with decision "BLOCKED" never raises a window's block count |
| `HookAuditLink.RecordHookBlock` | examples/hooks/pre-tool-use-validator.js:32-39 | recording the hook's block record through an AuditLogger stores one entry with decision "BLOCKED", no service and no context, and changes no service's block count |

## Left out

- `examples/session-lifecycle/session-init-pattern.js` is not part of this model. It is console output, stubs that return constants, `Date`/`Math.random` ids and a floating-point checkpoint computation.
- Asynchrony: `async`/`await` and `Promise.all` are dropped. The verdicts are computed as values, and only the ordered selection is modelled.
- The hook's collaborators (`queryRules`, `crossesBoundary`, `conflictsWithRule`, `calculatePressure`, `sanitize`) have no bodies in the source. They are arbitrary total functions here, so a collaborator that throws is not modelled.
- Errors: an exception from `queryRules`, from a validator or from `auditLog.record` propagates in the source. The model has no exceptions and no fail-closed or retry behaviour, because the code has none.
- The hook's `auditLog` is a free name in the source. The model threads a sequence of block records; `HookAuditLink` covers the case where it is an `AuditLogger`.
- A `null` hook context (where `context.user_override` would throw on a CRITICAL level) is not modelled; the hook context is always an object.
- Storage: `insert`, `find` and `aggregate` are foreign calls. The store is an in-memory sequence, `find` keeps storage order, and the pipeline gets its intended meaning rather than a general model of the database's query language.
- In the database, a missing service and a null service fall into one group; here `Undefined` and `Null` are distinct services.
- `ServiceStats.SortByTotal`: the model sorts stably, but `IsServiceStats` does not fix the order of rows with equal totals, because the database does not.
- Dates: timestamps and date filters are integers (milliseconds). A date filter is present or absent. The JavaScript quirk that a numeric filter `0` is falsy and ignored, and invalid dates, are not modelled.
- `AuditLog.AuditLogger.GetBlockRate`: `rate` is an exact real, not a double, so floating-point rounding is not modelled.
- The clock and the random source are parameters. `new Date()` and `Date.now()` are two separate parameters of `Record`. `Math.random().toString(36)` is given as its text, and its base-36 formatting of a fraction is not modelled. Id uniqueness is not claimed, because the code does not guarantee it.
- `AuditLog.AuditLogger.SanitizeContext`: a context is `null`/`undefined` or a plain object. Spreading a truthy non-object (a string or a number) is not modelled. Only top-level keys are sanitised, as in the source. The caller's object cannot be changed because contexts are values here. String lengths and the 200-long prefix count characters (Unicode scalar values), whereas `.length` and `.substring(0, 200)` count UTF-16 code units: text outside the Basic Multilingual Plane is truncated at a different point, and a string of 150 emoji, which the code truncates to 100 emoji plus `"..."`, is kept unchanged here. A character string cannot hold the lone surrogate the code leaves when its cut splits a surrogate pair.
- `AuditLog.SanitizedTruncation`: the 200 and 203 bounds are in characters, not UTF-16 code units, so they agree with the code only for text inside the Basic Multilingual Plane; non-BMP text is cut at a different point (see `SanitizeContext` above). The 203 bound of `AuditLog.SanitizedStringsBounded` holds in both measures, since 203 code units are at most 203 characters.
- JavaScript numbers are exact reals, and `NaN` (falsy) is not modelled in `Truthy`.
- The `example()` usage demo (console output and an undefined database handle) is not modelled.
