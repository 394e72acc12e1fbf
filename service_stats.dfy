/**
 * Per-service statistics: the `$group` by service (counting all entries and those whose
 * decision is "BLOCK") followed by the `$sort` on the total, descending.
 */
module ServiceStats {
  import opened JsValues
  import opened AuditEntries
  import Seqs

  /** One row of the aggregation result: `{_id: service, total, blocks}`. */
  datatype ServiceStat = ServiceStat(service: Value, total: nat, blocks: nat)

  /** The number of entries recorded for `service`. */
  function ServiceTotal(entries: seq<AuditEntry>, service: Value): nat
  {
    if entries == [] then 0
    else
      (if entries[0].service == service then 1 else 0) + ServiceTotal(entries[1..], service)
  }

  /** The number of entries recorded for `service` whose decision is exactly "BLOCK". */
  function ServiceBlocks(entries: seq<AuditEntry>, service: Value): nat
  {
    if entries == [] then 0
    else
      (if entries[0].service == service && IsBlock(entries[0]) then 1 else 0)
      + ServiceBlocks(entries[1..], service)
  }

  /** Entries recorded for `service`. */
  function ServiceMatcher(service: Value): AuditEntry -> bool
  {
    (e: AuditEntry) => e.service == service
  }

  /** Entries recorded for `service` whose decision is exactly "BLOCK". */
  function ServiceBlockMatcher(service: Value): AuditEntry -> bool
  {
    (e: AuditEntry) => e.service == service && IsBlock(e)
  }

  /** `ServiceTotal` is the generic count of the service's entries. */
  lemma {:induction false} ServiceTotalIsCount(entries: seq<AuditEntry>, service: Value)
    ensures ServiceTotal(entries, service) == Seqs.Count(entries, ServiceMatcher(service))
  {
    if entries != [] {
      ServiceTotalIsCount(entries[1..], service);
    }
  }

  /** `ServiceBlocks` is the generic count of the service's "BLOCK" entries. */
  lemma {:induction false} ServiceBlocksIsCount(entries: seq<AuditEntry>, service: Value)
    ensures ServiceBlocks(entries, service) == Seqs.Count(entries, ServiceBlockMatcher(service))
  {
    if entries != [] {
      ServiceBlocksIsCount(entries[1..], service);
    }
  }

  /** A service has a non-zero total exactly when some entry names it. */
  lemma {:induction false} ServiceTotalPositive(entries: seq<AuditEntry>, service: Value)
    ensures ServiceTotal(entries, service) > 0 <==>
      exists k :: 0 <= k < |entries| && entries[k].service == service
  {
    if entries != [] {
      ServiceTotalPositive(entries[1..], service);
      if entries[0].service != service {
        if exists k :: 0 <= k < |entries| && entries[k].service == service {
          var k :| 0 <= k < |entries| && entries[k].service == service;
          assert entries[1..][k - 1].service == service;
        }
      }
    }
  }

  /** Blocks are a subset of a service's entries. */
  lemma {:induction false} BlocksAtMostTotal(entries: seq<AuditEntry>, service: Value)
    ensures ServiceBlocks(entries, service) <= ServiceTotal(entries, service)
  {
    if entries != [] {
      BlocksAtMostTotal(entries[1..], service);
    }
  }

  predicate ServicesDistinct(rows: seq<ServiceStat>)
  {
    forall i, j :: 0 <= i < j < |rows| ==> rows[i].service != rows[j].service
  }

  predicate SortedByTotal(rows: seq<ServiceStat>)
  {
    forall i, j :: 0 <= i < j < |rows| ==> rows[i].total >= rows[j].total
  }

  /** The services named by the entries. */
  ghost function EntryServices(entries: seq<AuditEntry>): set<Value>
  {
    set k | 0 <= k < |entries| :: entries[k].service
  }

  /** The services the rows are about. */
  ghost function RowServices(rows: seq<ServiceStat>): set<Value>
  {
    set i | 0 <= i < |rows| :: rows[i].service
  }

  /**
   * The intended result of the aggregation over `entries`: one row per distinct service,
   * with that service's entry count and "BLOCK" count, ordered by total, descending.
   * Rows with equal totals may come in any order.
   */
  ghost predicate IsServiceStats(entries: seq<AuditEntry>, rows: seq<ServiceStat>)
  {
    && ServicesDistinct(rows)
    && SortedByTotal(rows)
    && RowServices(rows) == EntryServices(entries)
    && (forall i :: 0 <= i < |rows| ==>
          rows[i].total == ServiceTotal(entries, rows[i].service)
          && rows[i].blocks == ServiceBlocks(entries, rows[i].service))
  }

  /** The services named in `entries`, each once, in order of first appearance. */
  function Services(entries: seq<AuditEntry>): (services: seq<Value>)
    ensures forall i, j :: 0 <= i < j < |services| ==> services[i] != services[j]
    ensures forall k :: 0 <= k < |entries| ==> entries[k].service in services
    ensures forall i :: 0 <= i < |services| ==> exists k :: 0 <= k < |entries| && entries[k].service == services[i]
  {
    if entries == [] then []
    else
      var earlier := Services(entries[..|entries| - 1]);
      var last := entries[|entries| - 1].service;
      assert forall k :: 0 <= k < |entries| - 1 ==> entries[k] == entries[..|entries| - 1][k];
      if last in earlier then earlier else earlier + [last]
  }

  /** One row per service, in the order of `services`. */
  function Group(entries: seq<AuditEntry>, services: seq<Value>): (rows: seq<ServiceStat>)
    ensures |rows| == |services|
    ensures forall i :: 0 <= i < |rows| ==>
      rows[i] == ServiceStat(services[i], ServiceTotal(entries, services[i]), ServiceBlocks(entries, services[i]))
  {
    if services == [] then []
    else
      [ServiceStat(services[0], ServiceTotal(entries, services[0]), ServiceBlocks(entries, services[0]))]
      + Group(entries, services[1..])
  }

  /** Inserts `x` into rows sorted by descending total, after the rows with a larger total. */
  function InsertByTotal(x: ServiceStat, rows: seq<ServiceStat>): (r: seq<ServiceStat>)
    requires SortedByTotal(rows)
    ensures SortedByTotal(r)
    ensures multiset(r) == multiset(rows) + multiset{x}
  {
    if rows == [] || rows[0].total <= x.total then [x] + rows
    else
      var rest := InsertByTotal(x, rows[1..]);
      assert rows == [rows[0]] + rows[1..];
      InsertedBelowHead(x, rows, rest);
      [rows[0]] + rest
  }

  /** Every row of the insertion into the tail has a total no larger than the head's. */
  lemma InsertedBelowHead(x: ServiceStat, rows: seq<ServiceStat>, rest: seq<ServiceStat>)
    requires SortedByTotal(rows) && rows != [] && x.total < rows[0].total
    requires multiset(rest) == multiset(rows[1..]) + multiset{x}
    ensures forall i :: 0 <= i < |rest| ==> rest[i].total <= rows[0].total
  {
    forall i | 0 <= i < |rest| ensures rest[i].total <= rows[0].total {
      assert rest[i] in multiset(rest);
      if rest[i] != x {
        assert rest[i] in multiset(rows[1..]);
        var k :| 0 <= k < |rows[1..]| && rows[1..][k] == rest[i];
        assert rows[k + 1] == rest[i];
      }
    }
  }

  /** Inserting a row whose service is new keeps the services distinct. */
  lemma InsertKeepsDistinct(x: ServiceStat, rows: seq<ServiceStat>)
    requires SortedByTotal(rows) && ServicesDistinct(rows)
    requires forall i :: 0 <= i < |rows| ==> rows[i].service != x.service
    ensures ServicesDistinct(InsertByTotal(x, rows))
  {
    var r := InsertByTotal(x, rows);
    forall i, j | 0 <= i < j < |r| ensures r[i].service != r[j].service {
      assert r[i] in multiset(r) && r[j] in multiset(r);
      if r[i] == r[j] {
        assert multiset(r)[r[i]] >= 2 by {
          assert r == r[..i] + [r[i]] + r[i+1..j] + [r[j]] + r[j+1..];
        }
        if r[i] != x {
          assert multiset(rows)[r[i]] >= 2;
          MultisetTwiceGivesTwoIndices(rows, r[i]);
        }
      } else if r[i] != x && r[j] != x {
        assert r[i] in multiset(rows) && r[j] in multiset(rows);
        var a :| 0 <= a < |rows| && rows[a] == r[i];
        var b :| 0 <= b < |rows| && rows[b] == r[j];
      } else {
        var other := if r[i] == x then r[j] else r[i];
        assert other in multiset(rows);
      }
    }
  }

  /** An element that occurs twice in a sequence occurs at two different indices. */
  lemma {:induction false} MultisetTwiceGivesTwoIndices(s: seq<ServiceStat>, y: ServiceStat)
    requires multiset(s)[y] >= 2
    ensures exists a, b :: 0 <= a < b < |s| && s[a] == y && s[b] == y
  {
    assert s == [s[0]] + s[1..];
    if s[0] == y {
      assert y in multiset(s[1..]);
      var b :| 0 <= b < |s[1..]| && s[1..][b] == y;
      assert s[b + 1] == y;
    } else {
      MultisetTwiceGivesTwoIndices(s[1..], y);
      var a, b :| 0 <= a < b < |s[1..]| && s[1..][a] == y && s[1..][b] == y;
      assert s[a + 1] == y && s[b + 1] == y;
    }
  }

  /** A permutation of the tail of rows with distinct services never repeats the head's service. */
  lemma HeadServiceNotInPermutedTail(rows: seq<ServiceStat>, rest: seq<ServiceStat>)
    requires rows != [] && multiset(rest) == multiset(rows[1..])
    ensures ServicesDistinct(rows) ==> forall i :: 0 <= i < |rest| ==> rest[i].service != rows[0].service
  {
    if ServicesDistinct(rows) {
      forall i | 0 <= i < |rest| ensures rest[i].service != rows[0].service {
        assert rest[i] in multiset(rows[1..]);
        var k :| 0 <= k < |rows[1..]| && rows[1..][k] == rest[i];
        assert rows[k + 1] == rest[i];
      }
    }
  }

  /** Insertion sort by descending total (stable). */
  function SortByTotal(rows: seq<ServiceStat>): (r: seq<ServiceStat>)
    ensures SortedByTotal(r)
    ensures multiset(r) == multiset(rows)
    ensures ServicesDistinct(rows) ==> ServicesDistinct(r)
  {
    if rows == [] then []
    else
      var rest := SortByTotal(rows[1..]);
      assert rows == [rows[0]] + rows[1..];
      HeadServiceNotInPermutedTail(rows, rest);
      if ServicesDistinct(rows) then
        InsertKeepsDistinct(rows[0], rest);
        InsertByTotal(rows[0], rest)
      else
        InsertByTotal(rows[0], rest)
  }

  /** What the aggregation pipeline computes over `entries`. */
  function ServiceStatsOf(entries: seq<AuditEntry>): seq<ServiceStat>
  {
    SortByTotal(Group(entries, Services(entries)))
  }

  /** Every service named by an entry has a row. */
  lemma EveryServiceHasRow(entries: seq<AuditEntry>, k: int)
    requires 0 <= k < |entries|
    ensures exists i :: 0 <= i < |ServiceStatsOf(entries)| && ServiceStatsOf(entries)[i].service == entries[k].service
  {
    var services := Services(entries);
    var grouped := Group(entries, services);
    var rows := ServiceStatsOf(entries);
    var j :| 0 <= j < |services| && services[j] == entries[k].service;
    assert grouped[j] in multiset(grouped);
    assert grouped[j] in multiset(rows);
    var i :| 0 <= i < |rows| && rows[i] == grouped[j];
  }

  /** Every row is the row of a service some entry names, with that service's counts. */
  lemma EveryRowIsAGroup(entries: seq<AuditEntry>, i: int)
    requires 0 <= i < |ServiceStatsOf(entries)|
    ensures var row := ServiceStatsOf(entries)[i];
      && (exists k :: 0 <= k < |entries| && entries[k].service == row.service)
      && row.total == ServiceTotal(entries, row.service)
      && row.blocks == ServiceBlocks(entries, row.service)
  {
    var services := Services(entries);
    var grouped := Group(entries, services);
    var rows := ServiceStatsOf(entries);
    assert rows[i] in multiset(rows);
    assert rows[i] in multiset(grouped);
    var j :| 0 <= j < |grouped| && grouped[j] == rows[i];
  }

  /** The computed rows are the intended statistics. */
  lemma ServiceStatsOfIsServiceStats(entries: seq<AuditEntry>)
    ensures IsServiceStats(entries, ServiceStatsOf(entries))
  {
    var rows := ServiceStatsOf(entries);
    assert ServicesDistinct(Group(entries, Services(entries)));
    forall v | v in EntryServices(entries) ensures v in RowServices(rows) {
      var k :| 0 <= k < |entries| && entries[k].service == v;
      EveryServiceHasRow(entries, k);
    }
    forall v | v in RowServices(rows) ensures v in EntryServices(entries) {
      var i :| 0 <= i < |rows| && rows[i].service == v;
      EveryRowIsAGroup(entries, i);
    }
    forall i | 0 <= i < |rows|
      ensures rows[i].total == ServiceTotal(entries, rows[i].service)
      ensures rows[i].blocks == ServiceBlocks(entries, rows[i].service)
    {
      EveryRowIsAGroup(entries, i);
    }
  }

  /** In any correct statistics, a service's blocks never exceed its total. */
  lemma StatsBlocksAtMostTotal(entries: seq<AuditEntry>, rows: seq<ServiceStat>, i: int)
    requires IsServiceStats(entries, rows)
    requires 0 <= i < |rows|
    ensures rows[i].blocks <= rows[i].total
    ensures rows[i].total > 0
  {
    BlocksAtMostTotal(entries, rows[i].service);
    ServiceTotalPositive(entries, rows[i].service);
    assert rows[i].service in RowServices(rows);
  }
}
