/**
 * The Stripe endpoint and the Stripe job together: what a delivery stores is
 * what the job later classifies.
 */
module WebhookPipeline {
  import opened Wrappers
  import opened InboundWebhooks
  import opened WebhookControllers
  import opened WebhookJobs

  /** An accepted and saved Stripe delivery is answered 200, its record is the
      last one enqueued, and the job for that id classifies exactly the bytes
      that were received (or raises on a body that is not JSON). */
  lemma AcceptedStripeDeliveryIsClassified(s: Store, req: Request, env: Env, parse: Bytes -> Option<Event>)
    requires Consistent(s)
    requires SignatureCheck(req, env) == Accepted && env.save == Saved
    ensures var (o, t) := HandleDelivery(Stripe, s, req, env);
      o == Responded(OkStatus) && |t.queue| == |s.queue| + 1 &&
      var id := t.queue[|s.queue|];
      Lookup(t.rows, id) == Some(InboundWebhook(id, req.body, None)) &&
      StripePerform(t.rows, id, parse) ==
        if parse(req.body).None? then Failed(ParseError)
        else Done(t.rows[|s.rows| := InboundWebhook(id, req.body, Some(StripeStatus(parse(req.body).value.eventType)))])
  {
  }

  /** Ingestion never writes a status, so it keeps every status in agreement
      with its record's body. */
  lemma {:induction false} IngestionKeepsStatusesFollowingBodies(
    s: Store, ds: seq<(Request, Env)>, parse: Bytes -> Option<Event>)
    requires StatusesFollowBodies(s.rows, parse)
    ensures StatusesFollowBodies(DeliverAll(Stripe, s, ds).1.rows, parse)
    decreases |ds|
  {
    if |ds| > 0 {
      var (o, s1) := HandleDelivery(Stripe, s, ds[0].0, ds[0].1);
      assert StatusesFollowBodies(s1.rows, parse) by {
        if s1 != s {
          assert s1.rows == Created(s.rows, ds[0].0.body);
        }
      }
      IngestionKeepsStatusesFollowingBodies(s1, ds[1..], parse);
    }
  }

  /** After any run of Stripe deliveries followed by the jobs for everything on
      the queue, every enqueued record whose body parses carries the status its
      event type calls for. */
  lemma EveryQueuedRecordIsClassified(
    s: Store, ds: seq<(Request, Env)>, parse: Bytes -> Option<Event>)
    requires Consistent(s)
    ensures var t := DeliverAll(Stripe, s, ds).1;
      var rows := RunStripeJobs(t.rows, t.queue, parse);
      forall k :: 0 <= k < |t.queue| && parse(t.rows[t.queue[k] - 1].body).Some? ==>
        rows[t.queue[k] - 1].status == Some(StripeStatus(parse(t.rows[t.queue[k] - 1].body).value.eventType))
  {
    var t := DeliverAll(Stripe, s, ds).1;
    assert Consistent(t);
    StripeJobsClassifyEveryParsedRecord(t.rows, t.queue, parse);
    var rows := RunStripeJobs(t.rows, t.queue, parse);
    forall k | 0 <= k < |t.queue| && parse(t.rows[t.queue[k] - 1].body).Some?
      ensures rows[t.queue[k] - 1].status == Some(StripeStatus(parse(t.rows[t.queue[k] - 1].body).value.eventType))
    {
      assert 1 <= t.queue[k] <= |t.rows|;
    }
  }
}
