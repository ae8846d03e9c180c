// One poll round: the gateway rows are read in pages by key, each page starting
// after the last id of the one before, while other replicas insert rows.
module Paging {
  import opened HubModel

  const DEFAULT_PAGE_SIZE := 200

  type Order = (GatewayId, GatewayId) -> bool

  /** Whatever collation the database sorts by, it is a strict total order. */
  ghost predicate StrictTotal(less: Order) {
    && (forall a :: !less(a, a))
    && (forall a, b, c | less(a, b) && less(b, c) :: less(a, c))
    && (forall a, b :: less(a, b) || a == b || less(b, a))
  }

  ghost predicate Increasing(less: Order, rows: seq<PageRow>) {
    forall i, j | 0 <= i < j < |rows| :: less(rows[i].id, rows[j].id)
  }

  type Table = map<GatewayId, Version>

  /** The first `limit` rows of the table after the cursor, in order. */
  ghost predicate IsPage(less: Order, table: Table, cursor: GatewayId, limit: nat, page: seq<PageRow>) {
    && Increasing(less, page)
    && |page| <= limit
    && (forall r | r in page :: r.id in table && table[r.id] == r.version && less(cursor, r.id))
    && (forall id | id in table && less(cursor, id) ::
          PageRow(id, table[id]) in page || (|page| == limit && page != [] && less(page[|page| - 1].id, id)))
  }

  datatype Reply = Rows(rows: seq<PageRow>) | QueryError

  type PageQuery = (nat, Table, GatewayId) -> Reply

  /** Every reply of the database is an error or a page of the table as it is at that moment. */
  ghost predicate Answers(less: Order, limit: nat, query: PageQuery) {
    forall k, table, cursor :: query(k, table, cursor).Rows? ==> IsPage(less, table, cursor, limit, query(k, table, cursor).rows)
  }

  function PageSize(configured: int): (n: nat)
    ensures n == if configured <= 0 then 200 else configured
  {
    if configured > 0 then configured else DEFAULT_PAGE_SIZE
  }

  /** The id was in the table at every read of the round. */
  ghost predicate PresentThroughout(tables: seq<Table>, id: GatewayId) {
    forall t | t in tables :: id in t
  }

  /** Ids up to the cursor that were present at every read so far have been visited. */
  ghost predicate VisitedUpTo(less: Order, tables: seq<Table>, cursor: GatewayId, visited: seq<PageRow>) {
    forall id | less("", id) && !less(cursor, id) && PresentThroughout(tables, id) ::
      exists r :: r in visited && r.id == id
  }

  ghost predicate ReadInRound(tables: seq<Table>, visited: seq<PageRow>) {
    forall r | r in visited :: exists t :: t in tables && r.id in t && t[r.id] == r.version
  }

  /** Row by row: whether its gateway was registered. */
  ghost function Registered(registered: set<GatewayId>, rows: seq<PageRow>): seq<bool> {
    seq(|rows|, i requires 0 <= i < |rows| => rows[i].id in registered)
  }

  /** What holds between two reads of a round. */
  ghost predicate RoundOk(less: Order, tables: seq<Table>, cursor: GatewayId, visited: seq<PageRow>) {
    && Increasing(less, visited)
    && ReadInRound(tables, visited)
    && (forall r | r in visited :: less("", r.id) && !less(cursor, r.id))
    && (cursor == "" || less("", cursor))
    && VisitedUpTo(less, tables, cursor, visited)
  }

  /** Every non-empty id present throughout has been visited. */
  ghost predicate AllVisited(less: Order, tables: seq<Table>, visited: seq<PageRow>) {
    forall id | less("", id) && PresentThroughout(tables, id) :: exists r :: r in visited && r.id == id
  }

  lemma PageVisits(less: Order, tables: seq<Table>, limit: nat, table: Table, cursor: GatewayId,
                   visited: seq<PageRow>, page: seq<PageRow>, id: GatewayId)
    requires StrictTotal(less) && IsPage(less, table, cursor, limit, page)
    requires VisitedUpTo(less, tables, cursor, visited)
    requires less("", id) && PresentThroughout(tables + [table], id)
    requires |page| < limit || (page != [] && !less(page[|page| - 1].id, id))
    ensures exists r :: r in visited + page && r.id == id
  {
    assert table in tables + [table] && forall t | t in tables :: t in tables + [table];
    if less(cursor, id) {
      assert PageRow(id, table[id]) in visited + page;
    } else {
      assert PresentThroughout(tables, id);
      var r :| r in visited && r.id == id;
      assert r in visited + page;
    }
  }

  lemma PageInOrder(less: Order, table: Table, limit: nat, cursor: GatewayId, visited: seq<PageRow>, page: seq<PageRow>)
    requires StrictTotal(less) && IsPage(less, table, cursor, limit, page) && page != []
    requires Increasing(less, visited) && forall r | r in visited :: !less(cursor, r.id)
    ensures Increasing(less, visited + page)
    ensures less(cursor, page[|page| - 1].id) && forall r | r in visited + page :: !less(page[|page| - 1].id, r.id)
  {
    var all := visited + page;
    assert page[|page| - 1] in page;
    forall i, j | 0 <= i < j < |all| ensures less(all[i].id, all[j].id) {
      if i < |visited| <= j {
        assert all[i] in visited && all[j] in page;
      }
    }
    forall r | r in page ensures !less(page[|page| - 1].id, r.id) {
      var k :| 0 <= k < |page| && page[k] == r;
    }
  }

  lemma MoreTables(tables: seq<Table>, table: Table, visited: seq<PageRow>, page: seq<PageRow>)
    requires ReadInRound(tables, visited) && forall r | r in page :: r.id in table && table[r.id] == r.version
    ensures ReadInRound(tables + [table], visited + page)
  {
    var all := tables + [table];
    forall r | r in visited + page ensures exists t :: t in all && r.id in t && t[r.id] == r.version {
      if r in page {
        assert table in all;
      } else {
        var t :| t in tables && r.id in t && t[r.id] == r.version;
        assert t in all;
      }
    }
  }

  /** Reading one more page keeps the round in order and complete up to the new cursor. */
  lemma PageExtends(less: Order, tables: seq<Table>, limit: nat, table: Table, cursor: GatewayId,
                    visited: seq<PageRow>, page: seq<PageRow>)
    requires StrictTotal(less) && IsPage(less, table, cursor, limit, page) && page != []
    requires RoundOk(less, tables, cursor, visited)
    ensures RoundOk(less, tables + [table], page[|page| - 1].id, visited + page)
    ensures less(cursor, page[|page| - 1].id) && page[|page| - 1].id in table
    ensures |page| < limit ==> AllVisited(less, tables + [table], visited + page)
  {
    var next := page[|page| - 1].id;
    assert page[|page| - 1] in page;
    PageInOrder(less, table, limit, cursor, visited, page);
    forall id | less("", id) && PresentThroughout(tables + [table], id) && (|page| < limit || !less(next, id))
      ensures exists r :: r in visited + page && r.id == id
    {
      PageVisits(less, tables, limit, table, cursor, visited, page, id);
    }
    MoreTables(tables, table, visited, page);
    assert forall r | r in page :: less("", r.id);
  }

  lemma EmptyPageCompletes(less: Order, tables: seq<Table>, limit: nat, table: Table, cursor: GatewayId, visited: seq<PageRow>)
    requires StrictTotal(less) && IsPage(less, table, cursor, limit, []) && limit > 0
    requires RoundOk(less, tables, cursor, visited)
    ensures AllVisited(less, tables + [table], visited) && ReadInRound(tables + [table], visited)
  {
    assert visited + [] == visited;
    forall id | less("", id) && PresentThroughout(tables + [table], id) ensures exists r :: r in visited && r.id == id {
      PageVisits(less, tables, limit, table, cursor, visited, [], id);
    }
    MoreTables(tables, table, visited, []);
  }

  /** Moving the cursor forward leaves fewer ids ahead. */
  lemma Advances(less: Order, universe: set<GatewayId>, cursor: GatewayId, next: GatewayId)
    requires StrictTotal(less) && next in universe && less(cursor, next)
    ensures Ahead(less, universe, next) < Ahead(less, universe, cursor)
  {
    assert next in Ahead(less, universe, cursor) && next !in Ahead(less, universe, next);
  }

  ghost function Ahead(less: Order, universe: set<GatewayId>, cursor: GatewayId): set<GatewayId> {
    set u | u in universe && less(cursor, u)
  }

  /** If the table does not change, a complete round visits exactly its non-empty ids, each once. */
  lemma RoundIsFullScan(less: Order, tables: seq<Table>, table: Table, visited: seq<PageRow>, id: GatewayId)
    requires StrictTotal(less) && tables != [] && forall t | t in tables :: t == table
    requires Increasing(less, visited) && ReadInRound(tables, visited) && forall r | r in visited :: less("", r.id)
    requires AllVisited(less, tables, visited)
    ensures (exists r :: r in visited && r.id == id) <==> id in table && less("", id)
    ensures forall i, j | 0 <= i < j < |visited| :: visited[i].id != visited[j].id
  {
    if id in table && less("", id) {
      assert PresentThroughout(tables, id);
    }
    forall i, j | 0 <= i < j < |visited| ensures visited[i].id != visited[j].id {
      assert less(visited[i].id, visited[j].id);
    }
  }

  // ------------------------------------------------- a round in the protocol

  /** A page of the table is what the protocol's page step reads. */
  lemma PageIsEnabled(less: Order, s: State, cursor: GatewayId, limit: nat, page: seq<PageRow>)
    requires StrictTotal(less) && IsPage(less, s.versions, cursor, limit, page)
    requires s.poll.Idle? && s.page == [] && !s.stopped
    ensures Enabled(s, ReadPage(page)) && Apply(s, ReadPage(page)) == s.(page := page)
  {
    forall i, j | 0 <= i < j < |page| ensures page[i].id != page[j].id {
      assert less(page[i].id, page[j].id);
    }
  }

  /** The rows that page steps have read. */
  ghost function RowsRead(steps: seq<Step>): seq<PageRow> {
    if steps == [] then []
    else RowsRead(steps[..|steps| - 1]) + if steps[|steps| - 1].ReadPage? then steps[|steps| - 1].rows else []
  }

  /** In the order of the steps that take a row off the page: whether it was polled. */
  ghost function Marks(steps: seq<Step>): seq<bool> {
    if steps == [] then [] else Marks(steps[..|steps| - 1]) + Mark(steps[|steps| - 1])
  }

  ghost function Mark(step: Step): seq<bool> {
    if step.Snapshot? then [true] else if step.SkipRow? then [false] else []
  }

  lemma MarkStep(steps: seq<Step>, step: Step)
    ensures RowsRead(steps + [step]) == RowsRead(steps) + if step.ReadPage? then step.rows else []
    ensures Marks(steps + [step]) == Marks(steps) + Mark(step)
  {
    assert (steps + [step])[..|steps|] == steps;
  }

  predicate Marked(step: Step) {
    step.ReadPage? || step.Snapshot? || step.SkipRow?
  }

  lemma {:induction false} MarkQuiet(steps: seq<Step>, more: seq<Step>)
    requires forall i | 0 <= i < |more| :: !Marked(more[i])
    ensures RowsRead(steps + more) == RowsRead(steps) && Marks(steps + more) == Marks(steps)
    decreases |more|
  {
    if more == [] {
      assert steps + more == steps;
    } else {
      var n := |more| - 1;
      MarkQuiet(steps, more[..n]);
      MarkStep(steps + more[..n], more[n]);
      assert steps + more == (steps + more[..n]) + [more[n]];
    }
  }

  /** The tables that the page steps of a run have read. */
  ghost function TablesRead(s: State, steps: seq<Step>): seq<Table> {
    if steps == [] then []
    else TablesRead(s, steps[..|steps| - 1]) +
         if steps[|steps| - 1].ReadPage? then [Run(s, steps[..|steps| - 1]).versions] else []
  }

  lemma TablesStep(s: State, steps: seq<Step>, step: Step)
    ensures TablesRead(s, steps + [step]) == TablesRead(s, steps) + if step.ReadPage? then [Run(s, steps).versions] else []
  {
    assert (steps + [step])[..|steps|] == steps;
  }

  lemma {:induction false} TablesQuiet(s: State, steps: seq<Step>, more: seq<Step>)
    requires forall step | step in more :: !step.ReadPage?
    ensures TablesRead(s, steps + more) == TablesRead(s, steps)
    decreases |more|
  {
    if more == [] {
      assert steps + more == steps;
    } else {
      var n := |more| - 1;
      assert more[n] in more;
      assert steps + more == (steps + more[..n]) + [more[n]];
      TablesStep(s, steps + more[..n], more[n]);
      TablesQuiet(s, steps, more[..n]);
    }
  }
}
