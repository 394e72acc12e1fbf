/**
 * The audit logger: records governance decisions, strips sensitive data from their
 * context, and answers filtered queries, per-service statistics and block rates.
 *
 * The storage driver is replaced by the in-memory sequence `storage`: `insert` appends
 * to it, `find` keeps the entries the built query matches (in storage order), and the
 * aggregation pipeline is given its intended meaning (module ServiceStats). The clock
 * and the random source are parameters.
 */
module AuditLog {
  import opened Wrappers
  import opened JsValues
  import opened AuditEntries
  import opened ServiceStats
  import Seqs

  /** Context keys that are never stored. */
  const SensitiveKeys: set<string> := {"credentials", "apiKeys", "passwords"}
  /** Strings longer than this are truncated. */
  const MaxStringLength := 200
  const TruncationMarker := "..."
  const DefaultCollection := "auditLogs"
  const AuditIdPrefix := "audit_"

  /** The filters `query` accepts. A date is present (`Some`) when a Date was given. */
  datatype Filters = Filters(service: Value, decision: Value, startDate: Option<int>, endDate: Option<int>)

  /** The `timestamp` part of a built query: `{$gte, $lte}`, either bound optional. */
  datatype TimeRange = TimeRange(gte: Option<int>, lte: Option<int>)

  /** The query object `query` builds; an absent field places no constraint. */
  datatype StoredQuery = StoredQuery(service: Option<Value>, decision: Option<Value>, timestamp: Option<TimeRange>)

  /** What `getBlockRate` returns; `rate` is a percentage, computed exactly. */
  datatype BlockRate = BlockRate(total: nat, blocks: nat, rate: real)

  /**
   * A string value longer than 200 characters becomes its first 200 characters and "...".
   * Characters are Unicode scalar values, not the UTF-16 code units JavaScript counts.
   */
  function TruncateLong(v: Value): Value
  {
    if v.Str? && |v.s| > MaxStringLength then Str(v.s[..MaxStringLength] + TruncationMarker) else v
  }

  /** The sanitised copy of a context: sensitive keys removed, long top-level strings truncated. */
  function Sanitized(context: Context): Context
  {
    match context
    case None => None
    case Some(m) => Some(map k | k in m && k !in SensitiveKeys :: TruncateLong(m[k]))
  }

  /** The entry's time lies within the optional inclusive bounds. */
  predicate InWindow(startDate: Option<int>, endDate: Option<int>, e: AuditEntry)
  {
    && (startDate.Some? ==> startDate.value <= e.timestamp)
    && (endDate.Some? ==> e.timestamp <= endDate.value)
  }

  /** The intended meaning of the filters: each one that is set constrains its field. */
  predicate MatchesFilters(filters: Filters, e: AuditEntry)
  {
    && (Truthy(filters.service) ==> e.service == filters.service)
    && (Truthy(filters.decision) ==> e.decision == filters.decision)
    && InWindow(filters.startDate, filters.endDate, e)
  }

  /** What the storage's `find` matches for a built query. */
  predicate QueryMatches(query: StoredQuery, e: AuditEntry)
  {
    && (query.service.Some? ==> e.service == query.service.value)
    && (query.decision.Some? ==> e.decision == query.decision.value)
    && (query.timestamp.Some? ==>
          && (query.timestamp.value.gte.Some? ==> query.timestamp.value.gte.value <= e.timestamp)
          && (query.timestamp.value.lte.Some? ==> e.timestamp <= query.timestamp.value.lte.value))
  }

  function FilterMatcher(filters: Filters): AuditEntry -> bool
  {
    e => MatchesFilters(filters, e)
  }

  function QueryMatcher(query: StoredQuery): AuditEntry -> bool
  {
    e => QueryMatches(query, e)
  }

  function WindowMatcher(startDate: Option<int>, endDate: Option<int>): AuditEntry -> bool
  {
    e => InWindow(startDate, endDate, e)
  }

  function WindowBlockMatcher(startDate: Option<int>, endDate: Option<int>): AuditEntry -> bool
  {
    e => InWindow(startDate, endDate, e) && IsBlock(e)
  }

  /** The digit for `d` in base 36, as `Number.prototype.toString(36)` writes it. */
  function Base36Digit(d: nat): char
    requires d < 36
  {
    if d < 10 then ('0' as int + d) as char else ('a' as int + d - 10) as char
  }

  predicate IsBase36Digit(c: char)
  {
    '0' <= c <= '9' || 'a' <= c <= 'z'
  }

  function Base36Value(c: char): nat
    requires IsBase36Digit(c)
  {
    if '0' <= c <= '9' then c as int - '0' as int else c as int - 'a' as int + 10
  }

  /** `n.toString(36)` for a non-negative integer: its base-36 digits, without leading zeros. */
  function ToBase36(n: nat): (digits: string)
    ensures |digits| >= 1
    ensures forall i :: 0 <= i < |digits| ==> IsBase36Digit(digits[i])
    ensures |digits| > 1 ==> digits[0] != '0'
  {
    if n < 36 then [Base36Digit(n)] else ToBase36(n / 36) + [Base36Digit(n % 36)]
  }

  /** Reads a string of base-36 digits back as a number. */
  function FromBase36(digits: string): nat
    requires forall i :: 0 <= i < |digits| ==> IsBase36Digit(digits[i])
  {
    if digits == [] then 0
    else FromBase36(digits[..|digits| - 1]) * 36 + Base36Value(digits[|digits| - 1])
  }

  /** The clock part of an audit id encodes the clock reading exactly. */
  lemma {:induction false} Base36RoundTrip(n: nat)
    ensures FromBase36(ToBase36(n)) == n
  {
    var digits := ToBase36(n);
    if n >= 36 {
      Base36RoundTrip(n / 36);
      assert digits[..|digits| - 1] == ToBase36(n / 36);
    }
  }

  /** `s.substring(from, to)`: the characters between the two positions, clamped to the string. */
  function Substring(s: string, from: nat, to: nat): (r: string)
    requires from <= to
    ensures |r| <= to - from
  {
    var lo := if from < |s| then from else |s|;
    var hi := if to < |s| then to else |s|;
    s[lo..hi]
  }

  /**
   * `generateAuditId`: "audit_", the clock in base 36, then up to seven characters of the
   * random number's base-36 text after its "0." (`randomText` is that whole text).
   */
  function GenerateAuditId(clockMillis: nat, randomText: string): (id: string)
    ensures |id| > |AuditIdPrefix| && id[..|AuditIdPrefix|] == AuditIdPrefix
    ensures |AuditIdPrefix| + |ToBase36(clockMillis)| <= |id| <= |AuditIdPrefix| + |ToBase36(clockMillis)| + 7
    ensures id[|AuditIdPrefix|..|AuditIdPrefix| + |ToBase36(clockMillis)|] == ToBase36(clockMillis)
  {
    AuditIdPrefix + ToBase36(clockMillis) + Substring(randomText, 2, 9)
  }

  class AuditLogger {
    /** The stored entries, oldest first. */
    var storage: seq<AuditEntry>
    const collection: string

    /** `config.storage` is the initial content of the store; the collection defaults to "auditLogs". */
    constructor (initialStorage: seq<AuditEntry>, collection: Option<string>)
      ensures storage == initialStorage
      ensures collection.Some? && collection.value != "" ==> this.collection == collection.value
      ensures collection.None? || collection.value == "" ==> this.collection == DefaultCollection
    {
      storage := initialStorage;
      this.collection := if collection.Some? && collection.value != "" then collection.value else DefaultCollection;
    }

    /**
     * `sanitizeContext`: `null` for a missing context; otherwise a copy without the
     * sensitive keys in which every string longer than 200 characters is truncated.
     */
    method SanitizeContext(context: Context) returns (sanitized: Context)
      ensures sanitized == Sanitized(context)
    {
      if context.None? {
        return None;
      }
      var original := context.value;
      var copy := original;
      copy := copy - {"credentials"};
      copy := copy - {"apiKeys"};
      copy := copy - {"passwords"};
      var pending := copy.Keys;
      while pending != {}
        invariant copy.Keys == original.Keys - SensitiveKeys
        invariant pending <= copy.Keys
        invariant forall k :: k in copy && k !in pending ==> copy[k] == TruncateLong(original[k])
        invariant forall k :: k in pending ==> copy[k] == original[k]
        decreases pending
      {
        var key :| key in pending;
        if copy[key].Str? && |copy[key].s| > MaxStringLength {
          copy := copy[key := Str(copy[key].s[..MaxStringLength] + TruncationMarker)];
        }
        pending := pending - {key};
      }
      assert copy == Sanitized(context).value;
      sanitized := Some(copy);
    }

    /**
     * `record`: builds the entry (rule id `null` unless truthy, metadata `{}` unless
     * truthy, context sanitised), appends it to the store and returns its id. `now` is
     * the entry's timestamp; `clockMillis` and `randomText` feed the id.
     */
    method Record(entry: EntryDraft, now: int, clockMillis: nat, randomText: string) returns (auditId: string)
      modifies this
      ensures |storage| == |old(storage)| + 1
      ensures storage[..|old(storage)|] == old(storage)
      ensures auditId == GenerateAuditId(clockMillis, randomText)
      ensures auditId[..|AuditIdPrefix|] == AuditIdPrefix
      ensures var stored := storage[|storage| - 1];
        && stored.auditId == auditId && stored.timestamp == now
        && stored.service == entry.service && stored.decision == entry.decision
        && stored.reason == entry.reason
        && stored.ruleId == (if Truthy(entry.ruleId) then entry.ruleId else Null)
        && stored.context == Sanitized(entry.context)
        && stored.metadata == (if Truthy(entry.metadata) then entry.metadata else Obj(map[]))
    {
      var context := SanitizeContext(entry.context);
      var auditEntry := AuditEntry(
        GenerateAuditId(clockMillis, randomText), now, entry.service, entry.decision,
        Or(entry.ruleId, Null), context, entry.reason, Or(entry.metadata, Obj(map[])));
      storage := storage + [auditEntry];
      auditId := auditEntry.auditId;
    }

    /**
     * The query object `query` builds: one constraint per truthy filter, the two dates
     * sharing one timestamp range.
     */
    method BuildQuery(filters: Filters) returns (query: StoredQuery)
      ensures forall e :: QueryMatches(query, e) <==> MatchesFilters(filters, e)
      ensures query.service.Some? <==> Truthy(filters.service)
      ensures query.decision.Some? <==> Truthy(filters.decision)
      ensures query.timestamp.Some? <==> filters.startDate.Some? || filters.endDate.Some?
      ensures query.timestamp.Some? ==> query.timestamp.value == TimeRange(filters.startDate, filters.endDate)
    {
      query := StoredQuery(None, None, None);
      if Truthy(filters.service) {
        query := query.(service := Some(filters.service));
      }
      if Truthy(filters.decision) {
        query := query.(decision := Some(filters.decision));
      }
      if filters.startDate.Some? {
        query := query.(timestamp := Some(TimeRange(Some(filters.startDate.value), None)));
      }
      if filters.endDate.Some? {
        var range := query.timestamp.GetOr(TimeRange(None, None));
        query := query.(timestamp := Some(range.(lte := Some(filters.endDate.value))));
      }
    }

    /** `query`: the stored entries that match every filter that is set, in storage order. */
    method Query(filters: Filters) returns (logs: seq<AuditEntry>)
      ensures logs == Seqs.Filter(storage, FilterMatcher(filters))
    {
      var query := BuildQuery(filters);
      logs := Seqs.Filter(storage, QueryMatcher(query));
      Seqs.FilterRespectsAgreement(storage, QueryMatcher(query), FilterMatcher(filters));
    }

    /** `getServiceStats`: one row per service with its totals, largest total first. */
    method GetServiceStats() returns (rows: seq<ServiceStat>)
      ensures IsServiceStats(storage, rows)
    {
      rows := ServiceStatsOf(storage);
      ServiceStatsOfIsServiceStats(storage);
    }

    /**
     * `getBlockRate`: the entries within the inclusive window, those among them whose
     * decision is "BLOCK", and the percentage of blocks (0 for an empty window).
     */
    method GetBlockRate(startDate: Option<int>, endDate: Option<int>) returns (r: BlockRate)
      ensures r.total == Seqs.Count(storage, WindowMatcher(startDate, endDate))
      ensures r.blocks == Seqs.Count(storage, WindowBlockMatcher(startDate, endDate))
      ensures r.blocks <= r.total
      ensures r.total == 0 ==> r.rate == 0.0
      ensures r.total > 0 ==> r.rate == (r.blocks as real / r.total as real) * 100.0
      ensures 0.0 <= r.rate <= 100.0
    {
      var logs := Query(Filters(Undefined, Undefined, startDate, endDate));
      var total := |logs|;
      var blocks := |Seqs.Filter(logs, IsBlock)|;
      r := BlockRate(total, blocks, if total > 0 then (blocks as real / total as real) * 100.0 else 0.0);
      WindowCounts(storage, startDate, endDate);
      if total > 0 {
        RateAtMostHundred(blocks, total);
      }
    }
  }

  /** The query behind `getBlockRate` keeps exactly the entries of the window. */
  lemma WindowQuery(storage: seq<AuditEntry>, startDate: Option<int>, endDate: Option<int>)
    ensures Seqs.Filter(storage, FilterMatcher(Filters(Undefined, Undefined, startDate, endDate)))
      == Seqs.Filter(storage, WindowMatcher(startDate, endDate))
  {
    Seqs.FilterRespectsAgreement(
      storage, FilterMatcher(Filters(Undefined, Undefined, startDate, endDate)), WindowMatcher(startDate, endDate));
  }

  /** The blocks among the window's entries are the window's blocks. */
  lemma WindowBlocks(storage: seq<AuditEntry>, startDate: Option<int>, endDate: Option<int>)
    ensures |Seqs.Filter(Seqs.Filter(storage, WindowMatcher(startDate, endDate)), IsBlock)|
      == Seqs.Count(storage, WindowBlockMatcher(startDate, endDate))
  {
    var window := WindowMatcher(startDate, endDate);
    var both := WindowBlockMatcher(startDate, endDate);
    Seqs.FilterFilter(storage, window, IsBlock);
    Seqs.FilterRespectsAgreement(storage, x => window(x) && IsBlock(x), both);
    Seqs.FilterLength(storage, both);
  }

  /** The query behind `getBlockRate` keeps the window's entries; its blocks are the window's blocks. */
  lemma WindowCounts(storage: seq<AuditEntry>, startDate: Option<int>, endDate: Option<int>)
    ensures var logs := Seqs.Filter(storage, FilterMatcher(Filters(Undefined, Undefined, startDate, endDate)));
      && |logs| == Seqs.Count(storage, WindowMatcher(startDate, endDate))
      && |Seqs.Filter(logs, IsBlock)| == Seqs.Count(storage, WindowBlockMatcher(startDate, endDate))
  {
    WindowQuery(storage, startDate, endDate);
    Seqs.FilterLength(storage, WindowMatcher(startDate, endDate));
    WindowBlocks(storage, startDate, endDate);
  }

  lemma RateAtMostHundred(blocks: nat, total: nat)
    requires 0 < total && blocks <= total
    ensures 0.0 <= (blocks as real / total as real) * 100.0 <= 100.0
  {
    assert blocks as real / total as real <= 1.0;
  }

  /** Sanitising removes exactly the sensitive keys and nothing else. */
  lemma SanitizedKeys(context: Context)
    ensures Sanitized(context).None? <==> context.None?
    ensures context.Some? ==> Sanitized(context).value.Keys == context.value.Keys - SensitiveKeys
  {
  }

  /**
   * A string longer than 200 characters is stored as its first 200 characters and "...",
   * 203 characters in all; every other value is stored unchanged.
   */
  lemma SanitizedTruncation(context: Context, key: string)
    requires context.Some? && key in context.value && key !in SensitiveKeys
    ensures var v := context.value[key];
      var stored := Sanitized(context).value[key];
      && (v.Str? && |v.s| > MaxStringLength ==>
            stored.Str? && |stored.s| == 203 && stored.s[..200] == v.s[..200] && stored.s[200..] == "...")
      && (!(v.Str? && |v.s| > MaxStringLength) ==> stored == v)
  {
  }

  /** No top-level string of a sanitised context is longer than 203 characters. */
  lemma SanitizedStringsBounded(context: Context)
    requires context.Some?
    ensures forall k :: k in Sanitized(context).value && Sanitized(context).value[k].Str? ==>
      |Sanitized(context).value[k].s| <= MaxStringLength + |TruncationMarker|
  {
  }

  /** Sanitising an already sanitised context changes nothing. */
  lemma SanitizeIdempotent(context: Context)
    ensures Sanitized(Sanitized(context)) == Sanitized(context)
  {
    if context.Some? {
      var once := Sanitized(context).value;
      forall k | k in once ensures TruncateLong(once[k]) == once[k] {
        var v := context.value[k];
        if v.Str? && |v.s| > MaxStringLength {
          var t := v.s[..MaxStringLength] + TruncationMarker;
          assert t[..MaxStringLength] == v.s[..MaxStringLength];
        }
      }
      assert Sanitized(Sanitized(context)).value == once;
    }
  }

  /** With no filter set, `query` returns the whole store. */
  lemma NoFiltersMatchEverything(storage: seq<AuditEntry>, filters: Filters)
    requires !Truthy(filters.service) && !Truthy(filters.decision)
    requires filters.startDate.None? && filters.endDate.None?
    ensures Seqs.Filter(storage, FilterMatcher(filters)) == storage
  {
    Seqs.FilterKeepsAll(storage, FilterMatcher(filters));
  }
}
