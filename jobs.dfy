/**
 * The background jobs `Webhooks::StripeJob` and `Webhooks::MoviesJob`. Each
 * loads its record, parses the stored body and writes a terminal status with
 * `update!`. A parse failure raises before any write.
 */
module WebhookJobs {
  import opened Wrappers
  import opened InboundWebhooks

  /** A Stripe event as far as the job looks at it: its `type`, nil when the JSON's
      `type` is null. A body without a `type` key raises at `event.type`, which
      `parse` reports as None. */
  datatype Event = Event(eventType: Option<string>)

  /** Exceptions that end a job without a status write. */
  datatype JobError =
    | RecordNotFound   // the record of the job's argument can no longer be loaded
    | ParseError       // JSON.parse rejected the stored body

  /** A finished job: the table after it, or the exception it raised. */
  datatype JobResult = Done(rows: seq<InboundWebhook>) | Failed(error: JobError)

  /** The one event type the Stripe job acts on. */
  const CustomerUpdated: string := "customer.updated"

  /** `case event.type`: `customer.updated` is processed, every other type
      (a null one included) is skipped. */
  function StripeStatus(eventType: Option<string>): (s: Status)
    ensures s == Processed <==> eventType == Some(CustomerUpdated)
    ensures s == Skipped <==> eventType != Some(CustomerUpdated)
  {
    if eventType == Some(CustomerUpdated) then Processed else Skipped
  }

  /** `StripeJob#perform`. `parse` stands for `JSON.parse` followed by
      `Stripe::Event.construct_from` and the read of `event.type`, None when the
      body is not JSON or has no `type` key. */
  function StripePerform(rows: seq<InboundWebhook>, id: nat, parse: Bytes -> Option<Event>): (r: JobResult)
    ensures r == Failed(RecordNotFound) <==> Lookup(rows, id).None?
    ensures r == Failed(ParseError) <==> Lookup(rows, id).Some? && parse(Lookup(rows, id).value.body).None?
    ensures r.Failed? ==> r.error == RecordNotFound || r.error == ParseError
    ensures r.Done? ==>
      IndexOf(rows, id).Some? && parse(rows[IndexOf(rows, id).value].body).Some? &&
      r.rows == WithStatus(rows, IndexOf(rows, id).value,
                           StripeStatus(parse(rows[IndexOf(rows, id).value].body).value.eventType))
  {
    match IndexOf(rows, id)
    case None => Failed(RecordNotFound)
    case Some(i) =>
      match parse(rows[i].body)
      case None => Failed(ParseError)
      case Some(event) => Done(WithStatus(rows, i, StripeStatus(event.eventType)))
  }

  /** `MoviesJob#perform`. The parsed payload is never used, so `parse` may
      return any type of value; only whether it succeeds matters. */
  function MoviesPerform<J>(rows: seq<InboundWebhook>, id: nat, parse: Bytes -> Option<J>): (r: JobResult)
    ensures r == Failed(RecordNotFound) <==> Lookup(rows, id).None?
    ensures r == Failed(ParseError) <==> Lookup(rows, id).Some? && parse(Lookup(rows, id).value.body).None?
    ensures r.Done? ==>
      IndexOf(rows, id).Some? && r.rows == WithStatus(rows, IndexOf(rows, id).value, Processed)
  {
    match IndexOf(rows, id)
    case None => Failed(RecordNotFound)
    case Some(i) =>
      if parse(rows[i].body).None? then Failed(ParseError)
      else Done(WithStatus(rows, i, Processed))
  }

  /** A successful Stripe job sets the record's status from its event type and
      leaves every body, every key and every other record as it was. */
  lemma StripePerformSetsOnlyStatus(rows: seq<InboundWebhook>, id: nat, parse: Bytes -> Option<Event>)
    requires StripePerform(rows, id, parse).Done?
    ensures var after := StripePerform(rows, id, parse).rows;
      SameRecords(rows, after) &&
      Lookup(rows, id).Some? && parse(Lookup(rows, id).value.body).Some? &&
      Lookup(after, id).Some? &&
      Lookup(after, id).value.status == Some(StripeStatus(parse(Lookup(rows, id).value.body).value.eventType)) &&
      forall j :: 0 <= j < |rows| && rows[j].id != id ==> after[j] == rows[j]
  {
    var after := StripePerform(rows, id, parse).rows;
    IndexOfSameRecords(rows, after, id);
  }

  /** Running the Stripe job again on the record it just handled changes nothing:
      the status depends only on the body, which the job never alters. */
  lemma StripePerformIdempotent(rows: seq<InboundWebhook>, id: nat, parse: Bytes -> Option<Event>)
    requires StripePerform(rows, id, parse).Done?
    ensures StripePerform(StripePerform(rows, id, parse).rows, id, parse) == StripePerform(rows, id, parse)
  {
    var after := StripePerform(rows, id, parse).rows;
    IndexOfSameRecords(rows, after, id);
    var i := IndexOf(rows, id).value;
    assert WithStatus(after, i, after[i].status.value) == after;
  }

  /** Running the Movies job again leaves the record `processed`, unchanged. */
  lemma MoviesPerformIdempotent<J>(rows: seq<InboundWebhook>, id: nat, parse: Bytes -> Option<J>)
    requires MoviesPerform(rows, id, parse).Done?
    ensures MoviesPerform(MoviesPerform(rows, id, parse).rows, id, parse) == MoviesPerform(rows, id, parse)
  {
    var after := MoviesPerform(rows, id, parse).rows;
    IndexOfSameRecords(rows, after, id);
    var i := IndexOf(rows, id).value;
    assert WithStatus(after, i, Processed) == after;
  }

  /** Stripe jobs for the given ids, run one after another; a job that raises
      leaves the table as it was. */
  function RunStripeJobs(rows: seq<InboundWebhook>, ids: seq<nat>, parse: Bytes -> Option<Event>): (r: seq<InboundWebhook>)
    ensures SameRecords(rows, r)
    decreases |ids|
  {
    if |ids| == 0 then rows
    else match StripePerform(rows, ids[0], parse)
      case Done(after) => RunStripeJobs(after, ids[1..], parse)
      case Failed(_) => RunStripeJobs(rows, ids[1..], parse)
  }

  /** Every status that is set is the one the Stripe job derives from the record's body. */
  predicate StatusesFollowBodies(rows: seq<InboundWebhook>, parse: Bytes -> Option<Event>)
  {
    forall i :: 0 <= i < |rows| && rows[i].status.Some? ==>
      parse(rows[i].body).Some? && rows[i].status == Some(StripeStatus(parse(rows[i].body).value.eventType))
  }

  /** Any sequence of Stripe jobs, redeliveries included, keeps every status
      consistent with the record's own body. */
  lemma {:induction false} StripeJobsKeepStatusesFollowingBodies(
    rows: seq<InboundWebhook>, ids: seq<nat>, parse: Bytes -> Option<Event>)
    requires StatusesFollowBodies(rows, parse)
    ensures StatusesFollowBodies(RunStripeJobs(rows, ids, parse), parse)
    decreases |ids|
  {
    if |ids| > 0 {
      match StripePerform(rows, ids[0], parse)
      case Done(after) =>
        StripeJobsKeepStatusesFollowingBodies(after, ids[1..], parse);
      case Failed(_) =>
        StripeJobsKeepStatusesFollowingBodies(rows, ids[1..], parse);
    }
  }

  /** Once a record is `processed` or `skipped`, no sequence of Stripe jobs moves it
      to another status or back to unset. */
  lemma {:induction false} StripeJobsSettleStatuses(
    rows: seq<InboundWebhook>, ids: seq<nat>, parse: Bytes -> Option<Event>)
    requires StatusesFollowBodies(rows, parse)
    ensures forall i :: 0 <= i < |rows| && rows[i].status.Some? ==>
      RunStripeJobs(rows, ids, parse)[i].status == rows[i].status
    decreases |ids|
  {
    if |ids| > 0 {
      match StripePerform(rows, ids[0], parse)
      case Done(after) =>
        StripeJobsSettleStatuses(after, ids[1..], parse);
      case Failed(_) =>
        StripeJobsSettleStatuses(rows, ids[1..], parse);
    }
  }

  /** No sequence of Stripe jobs moves a record back to unset, whatever its
      status was before. */
  lemma {:induction false} StripeJobsNeverUnsetStatus(
    rows: seq<InboundWebhook>, ids: seq<nat>, parse: Bytes -> Option<Event>)
    ensures forall i :: 0 <= i < |rows| && rows[i].status.Some? ==>
      RunStripeJobs(rows, ids, parse)[i].status.Some?
    decreases |ids|
  {
    if |ids| > 0 {
      match StripePerform(rows, ids[0], parse)
      case Done(after) =>
        StripeJobsNeverUnsetStatus(after, ids[1..], parse);
      case Failed(_) =>
        StripeJobsNeverUnsetStatus(rows, ids[1..], parse);
    }
  }

  /** A record whose status is already the one its own body calls for keeps it
      through any sequence of Stripe jobs. */
  lemma {:induction false} ClassifiedStays(
    rows: seq<InboundWebhook>, ids: seq<nat>, parse: Bytes -> Option<Event>, i: nat)
    requires i < |rows| && parse(rows[i].body).Some?
    requires rows[i].status == Some(StripeStatus(parse(rows[i].body).value.eventType))
    ensures RunStripeJobs(rows, ids, parse)[i].status == rows[i].status
    decreases |ids|
  {
    if |ids| > 0 {
      match StripePerform(rows, ids[0], parse)
      case Done(after) =>
        ClassifiedStays(after, ids[1..], parse, i);
      case Failed(_) =>
        ClassifiedStays(rows, ids[1..], parse, i);
    }
  }

  /** Every job that finds its record and parses its body leaves that record
      classified, whatever jobs run before or after it (redeliveries included). */
  lemma {:induction false} StripeJobsClassifyEveryParsedRecord(
    rows: seq<InboundWebhook>, ids: seq<nat>, parse: Bytes -> Option<Event>)
    requires WellFormed(rows)
    ensures forall k :: 0 <= k < |ids| && 1 <= ids[k] <= |rows| && parse(rows[ids[k] - 1].body).Some? ==>
      RunStripeJobs(rows, ids, parse)[ids[k] - 1].status ==
        Some(StripeStatus(parse(rows[ids[k] - 1].body).value.eventType))
    decreases |ids|
  {
    if |ids| > 0 {
      var after := match StripePerform(rows, ids[0], parse)
                   case Done(a) => a
                   case Failed(_) => rows;
      assert RunStripeJobs(rows, ids, parse) == RunStripeJobs(after, ids[1..], parse);
      assert SameRecords(rows, after);
      assert WellFormed(after);
      StripeJobsClassifyEveryParsedRecord(after, ids[1..], parse);
      if 1 <= ids[0] <= |rows| && parse(rows[ids[0] - 1].body).Some? {
        IndexOfWellFormed(rows, ids[0]);
        ClassifiedStays(after, ids[1..], parse, ids[0] - 1);
      }
      forall k | 0 < k < |ids| && 1 <= ids[k] <= |rows| && parse(rows[ids[k] - 1].body).Some?
        ensures RunStripeJobs(rows, ids, parse)[ids[k] - 1].status ==
          Some(StripeStatus(parse(rows[ids[k] - 1].body).value.eventType))
      {
        assert ids[1..][k - 1] == ids[k];
      }
    }
  }

  /** `StripeJob#perform` against the table. */
  method PerformStripeJob(table: InboundWebhookTable, id: nat, parse: Bytes -> Option<Event>)
    returns (err: Option<JobError>)
    modifies table
    ensures match StripePerform(old(table.rows), id, parse)
            case Done(after) => err.None? && table.rows == after
            case Failed(e) => err == Some(e) && table.rows == old(table.rows)
  {
    var record := table.Find(id);
    if record.None? {
      return Some(RecordNotFound);
    }
    var event := parse(record.value.body);
    if event.None? {
      return Some(ParseError);
    }
    table.UpdateStatus(id, StripeStatus(event.value.eventType));
    return None;
  }

  /** `MoviesJob#perform` against the table. */
  method PerformMoviesJob<J>(table: InboundWebhookTable, id: nat, parse: Bytes -> Option<J>)
    returns (err: Option<JobError>)
    modifies table
    ensures match MoviesPerform(old(table.rows), id, parse)
            case Done(after) => err.None? && table.rows == after
            case Failed(e) => err == Some(e) && table.rows == old(table.rows)
  {
    var record := table.Find(id);
    if record.None? {
      return Some(RecordNotFound);
    }
    var payload := parse(record.value.body);
    if payload.None? {
      return Some(ParseError);
    }
    table.UpdateStatus(id, Processed);
    return None;
  }
}
