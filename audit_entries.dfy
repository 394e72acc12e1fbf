/** The records the audit logger stores and the constants it works with. */
module AuditEntries {
  import opened Wrappers
  import opened JsValues

  /** A context object; `None` stands for a `null` or `undefined` context. */
  type Context = Option<map<string, Value>>

  /** The object a caller passes to `record`; every field may be missing (`Undefined`). */
  datatype EntryDraft = EntryDraft(
    service: Value, decision: Value, ruleId: Value, context: Context, reason: Value, metadata: Value)

  /** A stored audit entry. Timestamps are clock readings in milliseconds. */
  datatype AuditEntry = AuditEntry(
    auditId: string, timestamp: int, service: Value, decision: Value, ruleId: Value,
    context: Context, reason: Value, metadata: Value)

  /** The only decision the statistics count as a block. */
  const BlockDecision := Str("BLOCK")

  predicate IsBlock(e: AuditEntry)
  {
    e.decision == BlockDecision
  }
}
