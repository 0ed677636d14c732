/**
 * The evidence exporter: finite time windows, ordered pages and budgets shared by all tables, against a backend
 * whose records do not change while it is read. Every reply may fail, be cut off or fail to be written.
 */
module Evidence {
  import opened Common

  datatype Row = Row(time: int, id: nat)

  /** A table in the total order the queries ask for: by time first. */
  ghost predicate Ordered(table: seq<Row>)
  {
    forall i, j :: 0 <= i < j < |table| ==> table[i].time <= table[j].time
  }

  /** The rows of [from, to), in order. */
  function Between(table: seq<Row>, from: int, to: int): (r: seq<Row>)
  {
    if table == [] then []
    else Between(table[..|table| - 1], from, to) +
         (if from <= table[|table| - 1].time < to then [table[|table| - 1]] else [])
  }

  /** ORDER BY ... LIMIT n OFFSET k */
  function Page(rows: seq<Row>, offset: nat, limit: nat): (r: seq<Row>)
    ensures |r| <= limit
  {
    if |rows| <= offset then []
    else if |rows| <= offset + limit then rows[offset..]
    else rows[offset..offset + limit]
  }

  datatype Request = Request(from: int, to: int, pageSize: int, windowSeconds: int, maxRows: int, maxBytes: int, maxQueries: int)

  predicate Normal(r: Request)
  {
    1 <= r.pageSize && 1 <= r.windowSeconds && 1 <= r.maxRows && 1 <= r.maxBytes && 1 <= r.maxQueries
  }

  datatype Outcome = Exported | Unavailable | Limited | Interrupted

  /** What became of one query: a response of some size, stored or not, or a failure. */
  datatype Reply = Served(size: nat, stored: bool) | Failed(outcome: Outcome)

  /** The surroundings of each query, by its number. */
  datatype Moment = Moment(cancelled: bool, reply: Reply)

  type Backend = nat -> Moment

  const LARGEST_RESPONSE := 67_108_864

  datatype Fetched = Stopped(outcome: Outcome) | Schema | Rows(rows: seq<Row>, final: bool)

  datatype TableExport = TableExport(rows: seq<Row>, through: int, outcome: Outcome)

  /** A reply that ends the export, with as many bytes left to spend. */
  predicate Refused(reply: Reply, room: int, outcome: Outcome)
  {
    match reply
    case Failed(why) => outcome == (if why == Exported then Unavailable else why)
    case Served(size, stored) =>
      || (outcome == Limited && (67_108_864 < size || room < size))
      || (outcome == Interrupted && !stored)
  }

  /** Why an export that has spent so much stops before the end. */
  ghost predicate Cause(request: Request, backend: Backend, rows: int, bytes: int, queries: nat, outcome: Outcome)
  {
    || (outcome == Interrupted && backend(queries).cancelled)
    || (outcome == Limited && (request.maxRows <= rows || request.maxBytes <= bytes || request.maxQueries <= queries))
    || (0 < queries && Refused(backend(queries - 1).reply, request.maxBytes - bytes, outcome))
  }

  class Exporter {
    const request: Request
    var rows: int
    var bytes: int
    var queries: nat

    ghost predicate Valid()
      reads this
    {
      && Normal(request)
      && 0 <= rows <= request.maxRows && 0 <= bytes <= request.maxBytes && queries <= request.maxQueries
    }

    constructor (request: Request)
      requires Normal(request)
      ensures Valid() && this.request == request && rows == 0 && bytes == 0 && queries == 0
    {
      this.request := request;
      rows, bytes, queries := 0, 0, 0;
    }

    /** One turn of the page loop: the checks, the query, and what is kept of its answer. */
    method Fetch(table: seq<Row>, backend: Backend, start: int, end: int, offset: nat, known: bool)
      returns (r: Fetched)
      requires Valid()
      modifies this
      ensures Valid()
      ensures r.Stopped? ==> r.outcome != Exported && rows == old(rows) && Cause(request, backend, rows, bytes, queries, r.outcome)
      ensures queries == old(queries) || queries == old(queries) + 1
      ensures !r.Stopped? ==> queries == old(queries) + 1 && backend(old(queries)).reply.Served?
      ensures bytes == old(bytes) + (if r.Rows? && |r.rows| > 0 then backend(old(queries)).reply.size else 0)
      ensures r.Schema? ==> !known && rows == old(rows)
      ensures r.Rows? ==>
        && old(rows) < request.maxRows && rows == old(rows) + |r.rows|
        && r.rows == Page(Between(table, start, end), offset, Min(request.pageSize, request.maxRows - old(rows)))
        && r.final == (|r.rows| < Min(request.pageSize, request.maxRows - old(rows)))
    {
      var moment := backend(queries);
      if moment.cancelled {
        return Stopped(Interrupted);
      }
      if rows >= request.maxRows || bytes >= request.maxBytes || queries >= request.maxQueries {
        return Stopped(Limited);
      }
      var limit := Min(request.pageSize, request.maxRows - rows);
      queries := queries + 1;
      if moment.reply.Failed? {
        return Stopped(if moment.reply.outcome.Exported? then Unavailable else moment.reply.outcome);
      }
      if moment.reply.size > Min(LARGEST_RESPONSE, request.maxBytes - bytes) {
        return Stopped(Limited);
      }
      if !known {
        return Schema;
      }
      var page := Page(Between(table, start, end), offset, limit);
      if |page| > 0 {
        if !moment.reply.stored {
          return Stopped(Interrupted);
        }
        rows := rows + |page|;
        bytes := bytes + moment.reply.size;
      }
      return Rows(page, |page| < limit);
    }

    /** The page loop of one window. */
    method ExportWindow(table: seq<Row>, backend: Backend, start: int, end: int, known: bool)
      returns (got: seq<Row>, outcome: Outcome, ready: bool)
      requires Valid()
      modifies this
      ensures Valid() && rows == old(rows) + |got|
      ensures got <= Between(table, start, end)
      ensures outcome.Exported? ==> got == Between(table, start, end)
      ensures !outcome.Exported? ==> Cause(request, backend, rows, bytes, queries, outcome)
    {
      got, ready := [], known;
      ghost var window := Between(table, start, end);
      while true
        invariant Valid() && rows == old(rows) + |got| && got <= window
        decreases request.maxQueries - queries
      {
        var r := Fetch(table, backend, start, end, |got|, ready);
        match r {
          case Stopped(why) =>
            return got, why, ready;
          case Schema =>
            ready := true;
          case Rows(page, final) =>
            PageExtends(window, got, page, Min(request.pageSize, request.maxRows - rows + |page|));
            got := got + page;
            if final {
              return got, Exported, ready;
            }
        }
      }
    }

    /** exportTable */
    method ExportTable(table: seq<Row>, backend: Backend) returns (r: TableExport)
      requires Valid() && Ordered(table)
      modifies this
      ensures Valid() && rows == old(rows) + |r.rows|
      ensures r.rows <= Between(table, request.from, request.to)
      ensures Between(table, request.from, r.through) <= r.rows
      ensures request.from <= r.through && (request.from <= request.to ==> r.through <= request.to)
      ensures r.outcome.Exported? ==> r.rows == Between(table, request.from, request.to) && request.to <= r.through
      ensures !r.outcome.Exported? ==> Cause(request, backend, rows, bytes, queries, r.outcome)
    {
      var start, known, all: seq<Row> := request.from, false, [];
      EmptyWindow(table, start);
      while start < request.to
        invariant Valid() && rows == old(rows) + |all|
        invariant request.from <= start && (request.from <= request.to ==> start <= request.to)
        invariant request.to < request.from ==> start == request.from
        invariant all == Between(table, request.from, start)
        decreases request.to - start
      {
        var end := start + request.windowSeconds;
        if end > request.to {
          end := request.to;
        }
        var got, outcome, ready := ExportWindow(table, backend, start, end, known);
        WindowsJoin(table, request.from, start, end);
        WindowsJoin(table, request.from, end, request.to);
        all := all + got;
        if !outcome.Exported? {
          return TableExport(all, start, outcome);
        }
        known, start := ready, end;
      }
      if request.to < start {
        NoWindow(table, request.from, request.to);
        EmptyWindow(table, request.from);
      }
      return TableExport(all, start, Exported);
    }
  }

  // ---------------------------------------------------------------------------
  // Windows and pages

  lemma {:induction false} EmptyWindow(table: seq<Row>, at: int)
    ensures Between(table, at, at) == []
  {
    if table != [] {
      EmptyWindow(table[..|table| - 1], at);
    }
  }

  lemma {:induction false} NoWindow(table: seq<Row>, from: int, to: int)
    requires to <= from
    ensures Between(table, from, to) == []
  {
    if table != [] {
      NoWindow(table[..|table| - 1], from, to);
    }
  }

  lemma {:induction false} AllBefore(table: seq<Row>, from: int, to: int)
    requires forall i :: 0 <= i < |table| ==> table[i].time < from
    ensures Between(table, from, to) == []
  {
    if table != [] {
      AllBefore(table[..|table| - 1], from, to);
    }
  }

  /** Adjacent windows of an ordered table are adjacent in the table. */
  lemma {:induction false} WindowsJoin(table: seq<Row>, from: int, mid: int, to: int)
    requires Ordered(table) && from <= mid <= to
    ensures Between(table, from, to) == Between(table, from, mid) + Between(table, mid, to)
  {
    if table != [] {
      var front, last := table[..|table| - 1], table[|table| - 1];
      WindowsJoin(front, from, mid, to);
      if from <= last.time < mid {
        AllBefore(front, mid, to);
      }
    }
  }

  /** A page taken where the last one ended extends the prefix; a short one completes it. */
  lemma PageExtends(window: seq<Row>, got: seq<Row>, page: seq<Row>, limit: nat)
    requires got <= window && page == Page(window, |got|, limit)
    ensures got + page <= window
    ensures |page| < limit ==> got + page == window
  {
    assert window == got + window[|got|..];
  }

  // ---------------------------------------------------------------------------
  // Public context

  const LARGEST_BODY := 65_536
  const LARGEST_CONTEXT := 16_777_216
  const MOST_OBJECTS := 4096
  const LONGEST_ID := 256

  /** What one retained object adds to the context document: its key, its separators and its body. */
  function Entry(keyBytes: Uid -> nat, id: Uid, body: nat): (n: nat)
  {
    keyBytes(id) + 2 + body
  }

  /** The bytes of all retained objects, in any order. */
  ghost function Size(keyBytes: Uid -> nat, objects: map<Uid, nat>): (n: nat)
    decreases |objects|
  {
    if objects == map[] then 0
    else
      var id :| id in objects;
      Entry(keyBytes, id, objects[id]) + Size(keyBytes, objects - {id})
  }

  lemma {:induction false} SizeWithout(keyBytes: Uid -> nat, objects: map<Uid, nat>, id: Uid)
    requires id in objects
    ensures Size(keyBytes, objects) == Entry(keyBytes, id, objects[id]) + Size(keyBytes, objects - {id})
    decreases |objects|
  {
    var first :| first in objects && Size(keyBytes, objects) ==
      Entry(keyBytes, first, objects[first]) + Size(keyBytes, objects - {first});
    if first != id {
      SizeWithout(keyBytes, objects - {first}, id);
      SizeWithout(keyBytes, objects - {id}, first);
      assert objects - {first} - {id} == objects - {id} - {first};
    }
  }

  lemma SizeWith(keyBytes: Uid -> nat, objects: map<Uid, nat>, id: Uid, body: nat)
    ensures Size(keyBytes, objects[id := body]) ==
      Entry(keyBytes, id, body) + Size(keyBytes, objects - {id})
    ensures id in objects ==>
      Size(keyBytes, objects[id := body]) == Size(keyBytes, objects) - objects[id] + body
    ensures id !in objects ==>
      Size(keyBytes, objects[id := body]) == Size(keyBytes, objects) + Entry(keyBytes, id, body)
  {
    var after := objects[id := body];
    SizeWithout(keyBytes, after, id);
    assert after - {id} == objects - {id};
    if id in objects {
      SizeWithout(keyBytes, objects, id);
    } else {
      assert objects - {id} == objects;
    }
  }

  /** Whether the context with one more or one replaced object stays within every bound. */
  ghost predicate Admits(keyBytes: Uid -> nat, next: map<Uid, nat>, idBytes: nat, raw: nat, body: nat)
  {
    && raw <= LARGEST_BODY && idBytes <= LONGEST_ID && body <= LARGEST_BODY
    && Size(keyBytes, next) + 2 <= LARGEST_CONTEXT && |next| <= MOST_OBJECTS
  }

  /** The bounded map of public objects that summarize maintains with a running byte count. */
  class Context {
    const keyBytes: Uid -> nat
    var objects: map<Uid, nat>
    var size: int
    var limited: bool

    ghost predicate Valid()
      reads this
    {
      && size == Size(keyBytes, objects)
      && size + 2 <= LARGEST_CONTEXT && |objects| <= MOST_OBJECTS
      && forall id :: id in objects ==> objects[id] <= LARGEST_BODY
    }

    constructor (keyBytes: Uid -> nat)
      ensures Valid() && objects == map[] && !limited
    {
      this.keyBytes := keyBytes;
      objects, size, limited := map[], 0, false;
    }

    /** One row's body, replacing an earlier one of the same object, unless a bound would be passed. */
    method Retain(id: Uid, idBytes: nat, raw: nat, body: nat)
      requires Valid()
      modifies this
      ensures Valid()
      ensures if Admits(keyBytes, old(objects)[id := body], idBytes, raw, body)
        then objects == old(objects)[id := body] && limited == old(limited)
        else objects == old(objects) && limited
    {
      if raw > LARGEST_BODY || idBytes > LONGEST_ID {
        limited := true;
        return;
      }
      var overhead := if id in objects then 0 else keyBytes(id) + 2;
      var newSize := size - (if id in objects then objects[id] else 0) + body + overhead;
      SizeWith(keyBytes, objects, id, body);
      if body > LARGEST_BODY || newSize + 2 > LARGEST_CONTEXT || (id !in objects && |objects| >= MOST_OBJECTS) {
        limited := true;
        return;
      }
      size := newSize;
      objects := objects[id := body];
    }
  }
}
