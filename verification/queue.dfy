/** The queue worker: each job names a topic, and the topic alone chooses which
    materializer handler, if any, runs on the job's payload and tenant. */
module Worker {
  import opened Values
  import opened Ingestion
  import IngestionProperties

  /** The data the intake puts on a job. */
  datatype JobData = JobData(topic: string, payload: Payload, tenantId: string)

  /** A queued job: BullMQ's job name and its data. */
  datatype Job = Job(name: string, data: JobData)

  datatype HandlerChoice = OrderHandler | ProductHandler | CheckoutHandler | NoHandler

  /** A job either completes, leaving the new state, or fails with the
      handler's error rethrown, so the queue records the failure. */
  datatype JobOutcome = Completed(store: Store) | Failed(error: Failure)

  /** The topic-to-handler table, by exact string comparison. */
  function Dispatch(topic: string): (h: HandlerChoice)
    ensures h == OrderHandler <==> topic == "orders/create" || topic == "orders/updated"
    ensures h == ProductHandler <==> topic == "products/create" || topic == "products/update"
    ensures h == CheckoutHandler <==> topic == "checkouts/create" || topic == "checkouts/update"
  {
    if topic == "orders/create" || topic == "orders/updated" then OrderHandler
    else if topic == "products/create" || topic == "products/update" then ProductHandler
    else if topic == "checkouts/create" || topic == "checkouts/update" then CheckoutHandler
    else NoHandler
  }

  /** The worker callback: run the chosen handler on the job's own payload and
      tenant id; an unknown topic completes without touching the state. */
  function RunJob(data: JobData, s: Store): (r: JobOutcome)
    ensures Dispatch(data.topic) == NoHandler ==> r == Completed(s)
    ensures Dispatch(data.topic) == ProductHandler ==>
      r == Completed(HandleProductUpdate(s, data.payload, data.tenantId))
    ensures Dispatch(data.topic) == CheckoutHandler ==>
      r == Completed(HandleCheckoutUpdate(s, data.payload, data.tenantId))
    ensures Dispatch(data.topic) == OrderHandler ==>
      match HandleOrderCreated(s, data.payload, data.tenantId)
      case Ok(s') => r == Completed(s')
      case Err(e) => r == Failed(e)
  {
    match Dispatch(data.topic)
    case OrderHandler =>
      (match HandleOrderCreated(s, data.payload, data.tenantId)
       case Ok(s') => Completed(s')
       case Err(e) => Failed(e))
    case ProductHandler => Completed(HandleProductUpdate(s, data.payload, data.tenantId))
    case CheckoutHandler => Completed(HandleCheckoutUpdate(s, data.payload, data.tenantId))
    case NoHandler => Completed(s)
  }

  /** A job fails only when an order with a customer carries no usable price;
      every other job completes. */
  lemma FailureOnlyFromOrderPrice(data: JobData, s: Store)
    ensures RunJob(data, s).Failed? <==>
      && Dispatch(data.topic) == OrderHandler
      && data.payload.customer.Value?
      && !data.payload.totalPrice.Value?
  {
  }

  /** Topics that differ from the six known ones in any character are
      acknowledged without effect, including near misses. */
  lemma NearMissTopicsIgnored(s: Store, p: Payload, t: string)
    ensures RunJob(JobData("orders/update", p, t), s) == Completed(s)
    ensures RunJob(JobData("products/updated", p, t), s) == Completed(s)
    ensures RunJob(JobData("Orders/create", p, t), s) == Completed(s)
    ensures RunJob(JobData("orders/paid", p, t), s) == Completed(s)
  {
  }

  /** At-least-once delivery is harmless: running a completed job again
      completes with the same state, whatever its topic. */
  lemma JobRedeliveryIdempotent(data: JobData, s: Store)
    requires RunJob(data, s).Completed?
    ensures RunJob(data, RunJob(data, s).store) == RunJob(data, s)
  {
    match Dispatch(data.topic)
    case OrderHandler => IngestionProperties.OrderIdempotent(s, data.payload, data.tenantId);
    case ProductHandler => IngestionProperties.ProductIdempotent(s, data.payload, data.tenantId);
    case CheckoutHandler => IngestionProperties.CheckoutIdempotent(s, data.payload, data.tenantId);
    case NoHandler =>
  }
}
