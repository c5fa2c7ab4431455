/** The webhook intake: the route runs the tenant middleware, then the
    controller checks headers, the HMAC over the raw body and the tenant, and
    enqueues one job. Signing (HMAC-SHA256, base64) is the parameter `sign`. */
module Intake {
  import opened Values
  import opened Tenancy
  import opened Ingestion
  import opened Worker

  type Bytes = seq<bv8>

  /** What the controller sees of a request: headers, the raw body bytes the
      JSON parser kept (`None` when no parser ran), the parsed body, and the
      tenant the middleware attached. */
  datatype Request = Request(headers: Headers, rawBody: Option<Bytes>, body: Payload, tenant: Option<Tenant>)

  /** The HTTP status sent and the job enqueued, if any. */
  datatype Reply = Reply(status: int, job: Option<Job>)

  const HmacHeader := "x-shopify-hmac-sha256"
  const TopicHeader := "x-shopify-topic"

  predicate HeadersPresent(h: Headers): (b: bool)
    ensures b <==> (forall name :: name in [HmacHeader, TopicHeader, ShopDomainHeader] ==> name in h && h[name] != "")
  {
    TruthyText(Header(h, HmacHeader)) && TruthyText(Header(h, TopicHeader)) && TruthyText(Header(h, ShopDomainHeader))
  }

  /** `WebhookController.handleWebhook`. `secret` is the process-wide
      signing secret (`None` when unset, which makes HMAC creation throw);
      `queueAccepts` false stands for `webhookQueue.add` throwing. */
  function HandleWebhook(req: Request, secret: Option<string>, sign: (string, Bytes) -> string, queueAccepts: bool): (r: Reply)
    ensures r.status == 200 || r.status == 400 || r.status == 401 || r.status == 500
    ensures r.job.Some? <==> r.status == 200
    ensures !HeadersPresent(req.headers) ==> r == Reply(400, None)
    ensures r.status == 200 ==>
      && HeadersPresent(req.headers)
      && secret.Some? && req.rawBody.Some?
      && sign(secret.value, req.rawBody.value) == req.headers[HmacHeader]
      && req.tenant.Some?
      && queueAccepts
      && var topic := req.headers[TopicHeader];
         r.job == Some(Job(topic, JobData(topic, req.body, req.tenant.value.id)))
    ensures (HeadersPresent(req.headers) && secret.Some? && req.rawBody.Some?
             && sign(secret.value, req.rawBody.value) != req.headers[HmacHeader]) ==> r == Reply(401, None)
    ensures (HeadersPresent(req.headers) && secret.Some? && req.rawBody.Some?
             && sign(secret.value, req.rawBody.value) == req.headers[HmacHeader] && req.tenant.None?)
            ==> r == Reply(401, None)
    ensures HeadersPresent(req.headers) && (secret.None? || req.rawBody.None?) ==> r == Reply(500, None)
    ensures !queueAccepts ==> r.status != 200
    ensures (HeadersPresent(req.headers) && secret.Some? && req.rawBody.Some?
             && sign(secret.value, req.rawBody.value) == req.headers[HmacHeader] && req.tenant.Some?)
            ==> var topic := req.headers[TopicHeader];
                r == (if queueAccepts then Reply(200, Some(Job(topic, JobData(topic, req.body, req.tenant.value.id))))
                      else Reply(500, None))
  {
    var h := req.headers;
    if !HeadersPresent(h) then Reply(400, None)
    else if secret.None? || req.rawBody.None? then Reply(500, None)
    else if sign(secret.value, req.rawBody.value) != h[HmacHeader] then Reply(401, None)
    else if req.tenant.None? then Reply(401, None)
    else if !queueAccepts then Reply(500, None)
    else
      var topic := h[TopicHeader];
      Reply(200, Some(Job(topic, JobData(topic, req.body, req.tenant.value.id))))
  }

  /** The route `POST /webhooks/shopify`: middleware first, then the controller. */
  function WebhookRoute(req: Request, db: TenantDb, secret: Option<string>, sign: (string, Bytes) -> string, queueAccepts: bool): (r: Reply)
    ensures TenantMiddleware(req.headers, db).Reject? ==>
      r == Reply(TenantMiddleware(req.headers, db).status, None)
    ensures TenantMiddleware(req.headers, db).Proceed? ==>
      r == HandleWebhook(req.(tenant := Some(TenantMiddleware(req.headers, db).tenant)), secret, sign, queueAccepts)
  {
    match TenantMiddleware(req.headers, db)
    case Reject(status) => Reply(status, None)
    case Proceed(t) => HandleWebhook(req.(tenant := Some(t)), secret, sign, queueAccepts)
  }

  /** The queue after a reply: jobs already queued stay in place, and the
      reply's job, if any, is added behind them. */
  function Enqueue(queue: seq<Job>, r: Reply): (q: seq<Job>)
    ensures |q| == |queue| + (if r.job.Some? then 1 else 0)
    ensures q[..|queue|] == queue
    ensures r.job.Some? ==> q[|queue|] == r.job.value
  {
    match r.job
    case Some(j) => queue + [j]
    case None => queue
  }

  /** With a signature header missing no signature is computed: the reply is
      the same whatever the signing function. */
  lemma MissingHeadersSkipSignature(req: Request, secret: Option<string>, sign1: (string, Bytes) -> string,
                                    sign2: (string, Bytes) -> string, queueAccepts: bool)
    requires !HeadersPresent(req.headers)
    ensures HandleWebhook(req, secret, sign1, queueAccepts) == HandleWebhook(req, secret, sign2, queueAccepts)
  {
  }

  /** The signature check uses one process-wide secret: which tenant was
      resolved changes only the tenant id the job carries. */
  lemma SignatureIgnoresTenant(req: Request, t1: Tenant, t2: Tenant, secret: Option<string>,
                               sign: (string, Bytes) -> string, queueAccepts: bool)
    ensures
      var r1 := HandleWebhook(req.(tenant := Some(t1)), secret, sign, queueAccepts);
      var r2 := HandleWebhook(req.(tenant := Some(t2)), secret, sign, queueAccepts);
      && r1.status == r2.status
      && (r1.job.Some? ==> r2.job == Some(r1.job.value.(data := r1.job.value.data.(tenantId := t2.id))))
  {
  }

  /** Acceptance depends on the raw bytes only: two requests whose parsed
      bodies differ get the same status, and a changed byte that changes the
      signature is refused even when the parsed body is the same. */
  lemma DecisionUsesRawBytes(req: Request, body: Payload, raw: Bytes, secret: Option<string>,
                             sign: (string, Bytes) -> string, queueAccepts: bool)
    ensures HandleWebhook(req.(body := body), secret, sign, queueAccepts).status
         == HandleWebhook(req, secret, sign, queueAccepts).status
    ensures HeadersPresent(req.headers) && secret.Some? && sign(secret.value, raw) != req.headers[HmacHeader] ==>
      HandleWebhook(req.(rawBody := Some(raw)), secret, sign, queueAccepts) == Reply(401, None)
  {
  }

  /** The middleware runs first: an unresolvable tenant gives 401 even when
      the signature headers are missing. */
  lemma TenantCheckedBeforeHeaders(req: Request, db: TenantDb, secret: Option<string>,
                                   sign: (string, Bytes) -> string, queueAccepts: bool)
    requires db.reachable
    requires ChooseQuery(req.headers).ById? ==> ChooseQuery(req.headers).id !in db.byId
    requires ChooseQuery(req.headers).ByDomain? ==> ChooseQuery(req.headers).domain !in db.byDomain
    ensures WebhookRoute(req, db, secret, sign, queueAccepts) == Reply(401, None)
  {
  }

  /** A webhook whose tenant resolves and whose raw body carries a matching
      signature is accepted through the route when the queue takes the job,
      and answered with 500 when it does not. */
  lemma ValidWebhookAccepted(req: Request, db: TenantDb, secret: string, raw: Bytes,
                             sign: (string, Bytes) -> string, queueAccepts: bool)
    requires HeadersPresent(req.headers)
    requires req.rawBody == Some(raw) && sign(secret, raw) == req.headers[HmacHeader]
    requires TenantMiddleware(req.headers, db).Proceed?
    ensures
      var t := TenantMiddleware(req.headers, db).tenant;
      var topic := req.headers[TopicHeader];
      WebhookRoute(req, db, Some(secret), sign, queueAccepts)
        == (if queueAccepts then Reply(200, Some(Job(topic, JobData(topic, req.body, t.id)))) else Reply(500, None))
  {
  }

  /** Behind the middleware the controller's own tenant check never fires:
      a 401 from the route means no tenant resolved or a signature mismatch. */
  lemma RouteRejectionCauses(req: Request, db: TenantDb, secret: Option<string>,
                             sign: (string, Bytes) -> string, queueAccepts: bool)
    requires WebhookRoute(req, db, secret, sign, queueAccepts).status == 401
    ensures TenantMiddleware(req.headers, db) == Reject(401)
      || (secret.Some? && req.rawBody.Some? && sign(secret.value, req.rawBody.value) != req.headers[HmacHeader])
  {
  }

  /** An accepted webhook enqueues exactly one job, and running it applies the
      handler its topic header selects to its parsed body, for the tenant the
      middleware resolved. */
  lemma AcceptedWebhookRunsItsHandler(req: Request, db: TenantDb, secret: Option<string>,
                                      sign: (string, Bytes) -> string, queueAccepts: bool,
                                      queue: seq<Job>, s: Store)
    requires WebhookRoute(req, db, secret, sign, queueAccepts).status == 200
    ensures
      var r := WebhookRoute(req, db, secret, sign, queueAccepts);
      var t := TenantMiddleware(req.headers, db).tenant;
      && TenantMiddleware(req.headers, db).Proceed?
      && Enqueue(queue, r) == queue + [r.job.value]
      && r.job.value.data == JobData(req.headers[TopicHeader], req.body, t.id)
      && (Dispatch(req.headers[TopicHeader]) == ProductHandler ==>
            RunJob(r.job.value.data, s) == Completed(HandleProductUpdate(s, req.body, t.id)))
      && (Dispatch(req.headers[TopicHeader]) == CheckoutHandler ==>
            RunJob(r.job.value.data, s) == Completed(HandleCheckoutUpdate(s, req.body, t.id)))
      && (Dispatch(req.headers[TopicHeader]) == OrderHandler && HandleOrderCreated(s, req.body, t.id).Ok? ==>
            RunJob(r.job.value.data, s) == Completed(HandleOrderCreated(s, req.body, t.id).value))
      && (Dispatch(req.headers[TopicHeader]) == NoHandler ==> RunJob(r.job.value.data, s) == Completed(s))
  {
  }
}
