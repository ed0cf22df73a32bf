/**
 * The webhook endpoints: `Webhooks::BaseController`, its subclass
 * `MoviesController` (which overrides nothing) and `StripeController`
 * (which overrides `create`, `verify_event` and `payload`).
 *
 * Each request runs the `before_action :verify_event` filter and then, unless
 * the filter set a response, the `create` action. A Ruby exception that escapes
 * either one ends the request with `Raised`: the framework's own error page is
 * not part of this model.
 */
module WebhookControllers {
  import opened Wrappers
  import opened InboundWebhooks
  import Queueing

  /** `head :ok` */
  const OkStatus: int := 200
  /** `head :bad_request` */
  const BadRequest: int := 400

  /** The controller class that serves the request. */
  datatype Kind = Base | Movies | Stripe

  /** What `Stripe::Webhook::Signature.verify_header` does: return, raise
      `SignatureVerificationError`, or raise something else. */
  datatype Verification = Accepted | SignatureError | OtherError

  /** How the database answers the INSERT: stored, refused by validation
      (`create` returns an unsaved record, `create!` raises), or a database error. */
  datatype SaveOutcome = Saved | Invalid | DatabaseError

  /** Exceptions that leave the controller. */
  datatype Error =
    | VerificationError   // any error of verify_header other than SignatureVerificationError
    | RecordInvalid       // create! on a record that failed validation
    | StatementInvalid    // the database refused the INSERT

  /** How a request ends: a response code set by `head`, or an exception. */
  datatype Outcome = Responded(code: int) | Raised(error: Error)

  /** The signature library: (payload, `Stripe-Signature` header, secret, tolerance). */
  type Verifier = (Bytes, Option<string>, string, int) -> Verification

  /** What the sender controls: the raw body and the signature header. */
  datatype Request = Request(body: Bytes, signature: Option<string>)

  /** What the server supplies: the stored signing secret (nil when absent),
      the tolerance, the signature library and the database's answer. */
  datatype Env = Env(secret: Option<string>, tolerance: int, verify: Verifier, save: SaveOutcome)

  /** Everything a request can change: the table and the job queue. */
  datatype Store = Store(rows: seq<InboundWebhook>, queue: seq<nat>)

  /** The table is well formed and every enqueued id names a stored record. */
  predicate Consistent(s: Store)
  {
    WellFormed(s.rows) &&
    forall k :: 0 <= k < |s.queue| ==> 1 <= s.queue[k] <= |s.rows|
  }

  /** Ingestion only ever appends, to the table and to the queue. */
  predicate Extends(s: Store, t: Store)
  {
    |s.rows| <= |t.rows| && t.rows[..|s.rows|] == s.rows &&
    |s.queue| <= |t.queue| && t.queue[..|s.queue|] == s.queue
  }

  /** `secret.to_s`: a missing secret becomes the empty string. */
  function SecretString(secret: Option<string>): (r: string)
    ensures r == "" <==> secret.None? || secret == Some("")
    ensures secret.Some? ==> r == secret.value
  {
    match secret
    case None => ""
    case Some(s) => s
  }

  /** The one call of the signature library that a Stripe request makes. */
  function SignatureCheck(req: Request, env: Env): Verification
  {
    env.verify(req.body, req.signature, SecretString(env.secret), env.tolerance)
  }

  /** The result of the `verify_event` filter. */
  datatype Gate = Proceed | Halt(code: int) | Abort(error: Error)

  /** `verify_event` of each controller: the base version (inherited by Movies)
      always answers 400; Stripe's turns only `SignatureVerificationError` into 400. */
  function VerificationGate(k: Kind, req: Request, env: Env): (g: Gate)
    ensures k != Stripe ==> g == Halt(BadRequest)
    ensures k == Stripe ==> (g == Proceed <==> SignatureCheck(req, env) == Accepted)
    ensures k == Stripe ==> (g == Halt(BadRequest) <==> SignatureCheck(req, env) == SignatureError)
    ensures k == Stripe ==> (g == Abort(VerificationError) <==> SignatureCheck(req, env) == OtherError)
  {
    match k
    case Base => Halt(BadRequest)
    case Movies => Halt(BadRequest)
    case Stripe =>
      match SignatureCheck(req, env)
      case Accepted => Proceed
      case SignatureError => Halt(BadRequest)
      case OtherError => Abort(VerificationError)
  }

  /** The `create` action. Base (and Movies): non-raising `create`, then 200.
      Stripe: `create!`, then `perform_later` for that record, then 200. */
  function CreateAction(k: Kind, s: Store, body: Bytes, save: SaveOutcome): (r: (Outcome, Store))
    ensures k != Stripe && save != DatabaseError ==> r.0 == Responded(OkStatus)
    ensures k != Stripe && save == Saved ==> r.1 == Store(Created(s.rows, body), s.queue)
    ensures k != Stripe && save != Saved ==> r.1 == s
    ensures k == Stripe ==> (r.0 == Responded(OkStatus) <==> save == Saved)
    ensures k == Stripe && save == Saved ==> r.1 == Store(Created(s.rows, body), s.queue + [NextId(s.rows)])
    ensures k == Stripe && save != Saved ==> r.1 == s && r.0.Raised?
    ensures save == DatabaseError ==> r == (Raised(StatementInvalid), s)
    ensures Extends(s, r.1)
    ensures Consistent(s) ==> Consistent(r.1)
  {
    match save
    case DatabaseError => (Raised(StatementInvalid), s)
    case Invalid =>
      if k == Stripe then (Raised(RecordInvalid), s) else (Responded(OkStatus), s)
    case Saved =>
      var rows := Created(s.rows, body);
      if k == Stripe then (Responded(OkStatus), Store(rows, s.queue + [NextId(s.rows)]))
      else (Responded(OkStatus), Store(rows, s.queue))
  }

  /** One request through the filter chain: `verify_event`, then `create` only if
      the filter neither responded nor raised. */
  function HandleDelivery(k: Kind, s: Store, req: Request, env: Env): (r: (Outcome, Store))
    ensures k != Stripe ==> r == (Responded(BadRequest), s)
    ensures r.1 != s ==> r.0 == Responded(OkStatus)
    ensures k == Stripe ==>
      (r.0 == Responded(OkStatus) <==> SignatureCheck(req, env) == Accepted && env.save == Saved)
    ensures k == Stripe && r.0 == Responded(OkStatus) ==>
      r.1 == Store(Created(s.rows, req.body), s.queue + [NextId(s.rows)])
    ensures k == Stripe ==> (r.0 == Responded(BadRequest) <==> SignatureCheck(req, env) == SignatureError)
    ensures k == Stripe ==> (r.0 == Raised(VerificationError) <==> SignatureCheck(req, env) == OtherError)
    ensures k == Stripe && SignatureCheck(req, env) == Accepted && env.save != Saved ==>
      r.0 == Raised(if env.save == Invalid then RecordInvalid else StatementInvalid)
    ensures r.0.Raised? ==> r.1 == s
    ensures Extends(s, r.1)
    ensures Consistent(s) ==> Consistent(r.1)
  {
    match VerificationGate(k, req, env)
    case Halt(code) => (Responded(code), s)
    case Abort(e) => (Raised(e), s)
    case Proceed => CreateAction(k, s, req.body, env.save)
  }

  /** Requests served one after another by the same endpoint. */
  function DeliverAll(k: Kind, s: Store, ds: seq<(Request, Env)>): (r: (seq<Outcome>, Store))
    ensures |r.0| == |ds|
    ensures Extends(s, r.1)
    ensures Consistent(s) ==> Consistent(r.1)
    decreases |ds|
  {
    if |ds| == 0 then ([], s)
    else
      var (o, s1) := HandleDelivery(k, s, ds[0].0, ds[0].1);
      var (os, s2) := DeliverAll(k, s1, ds[1..]);
      ([o] + os, s2)
  }

  /** Number of requests answered 200. */
  function CountOk(os: seq<Outcome>): nat
  {
    if |os| == 0 then 0
    else (if os[0] == Responded(OkStatus) then 1 else 0) + CountOk(os[1..])
  }

  /** The base endpoint, and Movies which inherits it, answer every request 400 and store nothing. */
  lemma {:induction false} UnverifiedEndpointStoresNothing(k: Kind, s: Store, ds: seq<(Request, Env)>)
    requires k != Stripe
    ensures DeliverAll(k, s, ds).1 == s
    ensures forall i :: 0 <= i < |ds| ==> DeliverAll(k, s, ds).0[i] == Responded(BadRequest)
    decreases |ds|
  {
    if |ds| > 0 {
      UnverifiedEndpointStoresNothing(k, s, ds[1..]);
    }
  }

  /** At the Stripe endpoint every 200 stands for exactly one new record and one
      new job, and no other outcome adds either. */
  lemma {:induction false} StripeRecordsMatchAcknowledgements(s: Store, ds: seq<(Request, Env)>)
    ensures |DeliverAll(Stripe, s, ds).1.rows| == |s.rows| + CountOk(DeliverAll(Stripe, s, ds).0)
    ensures |DeliverAll(Stripe, s, ds).1.queue| == |s.queue| + CountOk(DeliverAll(Stripe, s, ds).0)
    decreases |ds|
  {
    if |ds| > 0 {
      var (o, s1) := HandleDelivery(Stripe, s, ds[0].0, ds[0].1);
      StripeRecordsMatchAcknowledgements(s1, ds[1..]);
      var os := DeliverAll(Stripe, s1, ds[1..]).0;
      assert ([o] + os)[1..] == os;
    }
  }

  /** Movies overrides nothing, so it serves every request exactly as the base controller.
      The inheritance is modelled by giving `Movies` the same cases as `Base` in
      `VerificationGate` and `CreateAction`. */
  lemma MoviesBehavesAsBase(s: Store, req: Request, env: Env)
    ensures HandleDelivery(Movies, s, req, env) == HandleDelivery(Base, s, req, env)
  {
  }

  /**
   * One request's controller instance. `unread` is what `request.body.read`
   * would still return (the stream is consumed by a read), `payloadMemo` is
   * `@payload`, and `response` is the status set by `head`, if any.
   */
  class WebhookController {
    const kind: Kind
    const table: InboundWebhookTable
    const queue: Queueing.JobQueue
    /** The request body as it arrived. */
    ghost const rawBody: Bytes

    var unread: Bytes
    var payloadMemo: Option<Bytes>
    /** How many times the body stream has been read. */
    ghost var bodyReads: nat
    var response: Option<int>

    /** Before the memo is filled the stream is untouched; afterwards it was read
        exactly once and the memo holds the whole body. */
    ghost predicate Valid()
      reads this, table
    {
      table.Valid() &&
      (payloadMemo.None? ==> unread == rawBody && bodyReads == 0) &&
      (payloadMemo.Some? ==> payloadMemo.value == rawBody && unread == [] && bodyReads == 1)
    }

    /** The store as seen by this request. */
    ghost function State(): Store
      reads this, table, queue
    {
      Store(table.rows, queue.enqueued)
    }

    constructor (kind: Kind, table: InboundWebhookTable, queue: Queueing.JobQueue, body: Bytes)
      requires table.Valid()
      ensures Valid()
      ensures this.kind == kind && this.table == table && this.queue == queue
      ensures rawBody == body && payloadMemo.None? && response.None?
    {
      this.kind := kind;
      this.table := table;
      this.queue := queue;
      rawBody := body;
      unread := body;
      payloadMemo := None;
      bodyReads := 0;
      response := None;
    }

    /** `request.body.read`: everything not yet read; the stream is then at its end. */
    method ReadBody() returns (b: Bytes)
      modifies this`unread, this`bodyReads
      ensures b == old(unread) && unread == []
      ensures bodyReads == old(bodyReads) + 1
    {
      b := unread;
      unread := [];
      bodyReads := bodyReads + 1;
    }

    /** `@payload ||= request.body.read`: every call yields the whole body, and the
        stream is read at most once. */
    method Payload() returns (p: Bytes)
      requires Valid()
      modifies this`unread, this`payloadMemo, this`bodyReads
      ensures Valid()
      ensures p == rawBody && payloadMemo == Some(rawBody) && bodyReads == 1
    {
      match payloadMemo
      case Some(memo) =>
        p := memo;
      case None =>
        p := ReadBody();
        payloadMemo := Some(p);
    }

    /** `head code` */
    method Head(code: int)
      requires response.None?  // a second render raises DoubleRenderError
      modifies this`response
      ensures response == Some(code)
    {
      response := Some(code);
    }

    /** The `verify_event` filter of this controller. */
    method VerifyEvent(signature: Option<string>, env: Env) returns (err: Option<Error>)
      requires Valid() && response.None?
      modifies this`unread, this`payloadMemo, this`bodyReads, this`response
      ensures Valid()
      ensures match VerificationGate(kind, Request(rawBody, signature), env)
              case Proceed => err.None? && response == old(response)
              case Halt(code) => err.None? && response == Some(code)
              case Abort(e) => err == Some(e) && response == old(response)
      ensures kind != Stripe ==> payloadMemo == old(payloadMemo) && bodyReads == old(bodyReads)
    {
      match kind
      case Base =>
        Head(BadRequest);
        err := None;
      case Movies =>
        Head(BadRequest);
        err := None;
      case Stripe =>
        var p := Payload();
        var outcome := env.verify(p, signature, SecretString(env.secret), env.tolerance);
        match outcome
        case Accepted =>
          err := None;
        case SignatureError =>
          Head(BadRequest);
          err := None;
        case OtherError =>
          err := Some(VerificationError);
    }

    /** The `create` action of this controller. */
    method Create(save: SaveOutcome) returns (err: Option<Error>)
      requires Valid() && response.None?
      modifies this`unread, this`payloadMemo, this`bodyReads, this`response, table, queue
      ensures Valid()
      ensures var r := CreateAction(kind, old(State()), rawBody, save);
              State() == r.1 &&
              match r.0
              case Raised(e) => err == Some(e) && response == old(response)
              case Responded(code) => err.None? && response == Some(code)
    {
      var p := Payload();
      if kind == Stripe {
        // create!: any failure raises before the job is enqueued
        match save
        case DatabaseError =>
          return Some(StatementInvalid);
        case Invalid =>
          return Some(RecordInvalid);
        case Saved =>
          var id := table.Insert(p);
          queue.PerformLater(id);
          Head(OkStatus);
          return None;
      } else {
        // create: a record refused by validation is silently not saved
        match save {
          case DatabaseError =>
            return Some(StatementInvalid);
          case Invalid =>
          case Saved =>
            var _ := table.Insert(p);
        }
        Head(OkStatus);
        return None;
      }
    }

    /** The whole request: the filter, then the action unless the filter responded. */
    method Process(signature: Option<string>, env: Env) returns (outcome: Outcome)
      requires Valid() && payloadMemo.None? && response.None?
      modifies this, table, queue
      ensures Valid()
      ensures (outcome, State()) == HandleDelivery(kind, old(State()), Request(rawBody, signature), env)
      ensures outcome.Responded? ==> response == Some(outcome.code)
      ensures bodyReads <= 1
      ensures kind != Stripe ==> bodyReads == 0
    {
      var err := VerifyEvent(signature, env);
      if err.Some? {
        return Raised(err.value);
      }
      if response.Some? {
        // the filter rendered, so the chain halts here
        return Responded(response.value);
      }
      err := Create(env.save);
      if err.Some? {
        return Raised(err.value);
      }
      outcome := Responded(response.value);
    }
  }
}
