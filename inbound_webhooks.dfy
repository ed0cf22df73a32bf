/**
 * The `inbound_webhooks` table: one row per stored delivery, holding the raw
 * request body and a `status` string column that has no default value.
 */
module InboundWebhooks {
  import opened Wrappers

  /** Raw request bytes, stored unchanged in the `body` column. */
  type Bytes = seq<bv8>

  /** The values the jobs write into `status`. */
  datatype Status = Processed | Skipped

  /** One row. `status` is None until a job sets it: nothing writes an initial value. */
  datatype InboundWebhook = InboundWebhook(id: nat, body: Bytes, status: Option<Status>)

  /** Assumed of the database: primary keys 1, 2, 3, ... in creation order, with no
      gaps, and no row is ever deleted. */
  predicate WellFormed(rows: seq<InboundWebhook>)
  {
    forall i :: 0 <= i < |rows| ==> rows[i].id == i + 1
  }

  /** Two tables that hold the same records, up to their statuses. */
  predicate SameRecords(a: seq<InboundWebhook>, b: seq<InboundWebhook>)
  {
    |a| == |b| &&
    forall i :: 0 <= i < |a| ==> a[i].id == b[i].id && a[i].body == b[i].body
  }

  /** The primary key the next successful insert receives. */
  function NextId(rows: seq<InboundWebhook>): nat
  {
    |rows| + 1
  }

  /** The table after a successful `create(body: ...)`. */
  function Created(rows: seq<InboundWebhook>, body: Bytes): (r: seq<InboundWebhook>)
    ensures |r| == |rows| + 1 && r[..|rows|] == rows
    ensures r[|rows|].id == NextId(rows) && r[|rows|].body == body && r[|rows|].status.None?
    ensures WellFormed(rows) ==> WellFormed(r)
  {
    rows + [InboundWebhook(NextId(rows), body, None)]
  }

  /** Position of the row whose primary key is `id`, if any: what `find(id)` locates. */
  function IndexOf(rows: seq<InboundWebhook>, id: nat): (r: Option<nat>)
    ensures r.Some? ==> r.value < |rows| && rows[r.value].id == id
    ensures r.None? <==> forall i :: 0 <= i < |rows| ==> rows[i].id != id
  {
    if |rows| == 0 then None
    else if rows[0].id == id then Some(0)
    else match IndexOf(rows[1..], id)
      case None => None
      case Some(k) => Some(k + 1)
  }

  /** `find(id)` on a table whose keys are in creation order lands on row `id - 1`. */
  lemma IndexOfWellFormed(rows: seq<InboundWebhook>, id: nat)
    requires WellFormed(rows)
    ensures IndexOf(rows, id) == if 1 <= id <= |rows| then Some(id - 1) else None
  {
    if 1 <= id <= |rows| {
      assert rows[id - 1].id == id;
    }
  }

  /** Lookup depends on the keys only, so a status update never moves a row for `find`. */
  lemma {:induction false} IndexOfSameRecords(a: seq<InboundWebhook>, b: seq<InboundWebhook>, id: nat)
    requires SameRecords(a, b)
    ensures IndexOf(a, id) == IndexOf(b, id)
  {
    if |a| > 0 && a[0].id != id {
      IndexOfSameRecords(a[1..], b[1..], id);
    }
  }

  /** The row `find(id)` returns, or None. */
  function Lookup(rows: seq<InboundWebhook>, id: nat): (r: Option<InboundWebhook>)
    ensures r.Some? ==> r.value in rows && r.value.id == id
    ensures r.None? <==> forall i :: 0 <= i < |rows| ==> rows[i].id != id
  {
    match IndexOf(rows, id)
    case None => None
    case Some(i) => Some(rows[i])
  }

  /** The table after `update!(status: s)` on row `i`: only that row's status changes. */
  function WithStatus(rows: seq<InboundWebhook>, i: nat, s: Status): (r: seq<InboundWebhook>)
    requires i < |rows|
    ensures SameRecords(rows, r)
    ensures r[i].status == Some(s)
    ensures forall j :: 0 <= j < |rows| && j != i ==> r[j] == rows[j]
  {
    rows[i := rows[i].(status := Some(s))]
  }

  /** The table as the application sees it through ActiveRecord. */
  class InboundWebhookTable {
    var rows: seq<InboundWebhook>

    ghost predicate Valid()
      reads this
    {
      WellFormed(rows)
    }

    constructor ()
      ensures Valid() && rows == []
    {
      rows := [];
    }

    /** A successful INSERT: the new row gets the next key and no status; returns that key. */
    method Insert(body: Bytes) returns (id: nat)
      requires Valid()
      modifies this
      ensures Valid()
      ensures id == NextId(old(rows)) && rows == Created(old(rows), body)
    {
      id := NextId(rows);
      rows := Created(rows, body);
    }

    /** `find(id)`, as the job's argument is loaded back from the database. */
    method Find(id: nat) returns (r: Option<InboundWebhook>)
      ensures r == Lookup(rows, id)
      ensures r.Some? ==> r.value in rows && r.value.id == id
      ensures r.None? ==> forall i :: 0 <= i < |rows| ==> rows[i].id != id
    {
      r := Lookup(rows, id);
    }

    /** `update!(status: s)`: an UPDATE of the one row with this key (no row, no change). */
    method UpdateStatus(id: nat, s: Status)
      modifies this
      ensures rows == match IndexOf(old(rows), id)
                      case None => old(rows)
                      case Some(i) => WithStatus(old(rows), i, s)
      ensures SameRecords(old(rows), rows)
      ensures old(Valid()) ==> Valid()
    {
      match IndexOf(rows, id)
      case None =>
      case Some(i) =>
        rows := WithStatus(rows, i, s);
    }
  }
}
