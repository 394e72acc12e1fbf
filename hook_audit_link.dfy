/**
 * What happens when the hook's audit log is an `AuditLogger`. The hook hands `record`
 * an object whose decision is "BLOCKED" and which has no `service`, `context` or
 * `metadata` field, while the statistics count only the decision "BLOCK". So a call the
 * hook blocked is stored without a service or context and is never counted as a block.
 */
module HookAuditLink {
  import opened Wrappers
  import opened JsValues
  import opened AuditEntries
  import opened ServiceStats
  import AuditLog
  import PreToolUseValidator
  import Seqs

  /**
   * The hook's block record read as the logger reads it: `record` looks at `service`,
   * `decision`, `rule_id`, `context`, `reason` and `metadata`; the hook's `tool`, `input`
   * and `timestamp` fields are not among them.
   */
  function HookDraft(rec: PreToolUseValidator.BlockRecord): EntryDraft
  {
    EntryDraft(Undefined, Str(rec.decision), Str(rec.ruleId), None, Str(rec.reason), Undefined)
  }

  /** An entry whose decision is "BLOCKED" adds to its service's total but to nobody's blocks. */
  lemma {:induction false} BlockedEntryNotCountedAsBlock(entries: seq<AuditEntry>, e: AuditEntry, service: Value)
    requires e.decision == Str(PreToolUseValidator.BlockedDecision)
    ensures ServiceBlocks(entries + [e], service) == ServiceBlocks(entries, service)
    ensures ServiceTotal(entries + [e], service)
      == ServiceTotal(entries, service) + (if e.service == service then 1 else 0)
  {
    if entries == [] {
      assert [e][1..] == [];
    } else {
      assert (entries + [e])[1..] == entries[1..] + [e];
      BlockedEntryNotCountedAsBlock(entries[1..], e, service);
    }
  }

  /** An entry whose decision is "BLOCKED" never raises the block count of a block-rate window. */
  lemma BlockedEntryNotInBlockRate(
    entries: seq<AuditEntry>, e: AuditEntry, startDate: Option<int>, endDate: Option<int>)
    requires e.decision == Str(PreToolUseValidator.BlockedDecision)
    ensures Seqs.Count(entries + [e], AuditLog.WindowBlockMatcher(startDate, endDate))
      == Seqs.Count(entries, AuditLog.WindowBlockMatcher(startDate, endDate))
  {
    Seqs.CountAppend(entries, e, AuditLog.WindowBlockMatcher(startDate, endDate));
  }

  /**
   * The hook's `auditLog.record(...)` on the block path, with an `AuditLogger` as the
   * audit log: one entry is stored, with decision "BLOCKED", no service and no context,
   * and no service's block count changes.
   */
  method RecordHookBlock(
    logger: AuditLog.AuditLogger, rec: PreToolUseValidator.BlockRecord,
    now: int, clockMillis: nat, randomText: string) returns (auditId: string)
    requires rec.decision == PreToolUseValidator.BlockedDecision
    modifies logger
    ensures |logger.storage| == |old(logger.storage)| + 1
    ensures logger.storage[..|old(logger.storage)|] == old(logger.storage)
    ensures var stored := logger.storage[|logger.storage| - 1];
      && stored.decision == Str(PreToolUseValidator.BlockedDecision)
      && stored.service == Undefined && stored.context == None
      && stored.ruleId == (if rec.ruleId == "" then Null else Str(rec.ruleId))
      && stored.reason == Str(rec.reason)
    ensures forall service :: ServiceBlocks(logger.storage, service) == ServiceBlocks(old(logger.storage), service)
  {
    auditId := logger.Record(HookDraft(rec), now, clockMillis, randomText);
    var before := logger.storage[..|logger.storage| - 1];
    assert logger.storage == before + [logger.storage[|logger.storage| - 1]];
    forall service ensures ServiceBlocks(logger.storage, service) == ServiceBlocks(old(logger.storage), service) {
      BlockedEntryNotCountedAsBlock(before, logger.storage[|logger.storage| - 1], service);
    }
  }
}
