/** What the materializer promises across calls: which rows each handler writes,
    tenant isolation, redelivery idempotence, and when the customer totals stay
    equal to the aggregate of the order table. */
module IngestionProperties {
  import opened Values
  import opened Ids
  import opened Tables
  import opened Ingestion

  /** The unique constraint on all four tables. */
  ghost predicate StoreUnique(s: Store) {
    UniqueKeys(s.customers) && UniqueKeys(s.orders) && UniqueKeys(s.products) && UniqueKeys(s.checkouts)
  }

  /** Every customer row's totals are the aggregate of the orders it owns. */
  ghost predicate TotalsConsistent(s: Store) {
    forall k :: Find(s.customers, k).Some? ==>
      && Find(s.customers, k).value.totalSpend == Spend(s.orders, k)
      && Find(s.customers, k).value.ordersCount == Count(s.orders, k)
  }

  /** The order row under `ok` is absent or already owned by `ck`. */
  ghost predicate OrderOwnedOrNew(s: Store, ok: Key, ck: Key) {
    Find(s.orders, ok).None? || Find(s.orders, ok).value.customer == ck
  }

  /** Handles a sequence of order deliveries in turn, stopping at the first failure. */
  function ApplyOrders(s: Store, ps: seq<Payload>, tenantId: string): Result<Store, Failure>
    decreases |ps|
  {
    if |ps| == 0 then Ok(s)
    else
      match HandleOrderCreated(s, ps[0], tenantId)
      case Err(e) => Err(e)
      case Ok(s1) => ApplyOrders(s1, ps[1..], tenantId)
  }

  // ---------------------------------------------------------------------------
  // What an order delivery writes

  /** A handled order writes exactly one order row and one customer row, both
      under the payload's own tenant-scoped keys; the customer row keeps or
      starts its profile as the upsert says, with recomputed totals. */
  lemma OrderWrites(s: Store, p: Payload, tenantId: string)
    requires p.customer.Value? && p.totalPrice.Value?
    ensures HandleOrderCreated(s, p, tenantId).Ok?
    ensures
      var r := HandleOrderCreated(s, p, tenantId).value;
      var ck, ok := CustomerKey(p, tenantId), RowKey(p, tenantId);
      && Find(r.orders, ok) == Some(UpsertOrder(Find(s.orders, ok), p, p.totalPrice.v, ck))
      && (forall k :: k != ok ==> Find(r.orders, k) == Find(s.orders, k))
      && (forall k :: k != ck ==> Find(r.customers, k) == Find(s.customers, k))
      && Find(r.customers, ck) == Some(UpsertCustomer(Find(s.customers, ck), p.customer.v)
           .(totalSpend := Spend(r.orders, ck), ordersCount := Count(r.orders, ck)))
  {
  }

  /** Redelivery of an existing order changes its price and currency only:
      the order number and the owning customer stay those of its creation. */
  lemma ExistingOrderKeepsIdentity(s: Store, p: Payload, tenantId: string, o: Order)
    requires p.customer.Value? && p.totalPrice.Value?
    requires Find(s.orders, RowKey(p, tenantId)) == Some(o)
    ensures HandleOrderCreated(s, p, tenantId).Ok?
    ensures Find(HandleOrderCreated(s, p, tenantId).value.orders, RowKey(p, tenantId))
      == Some(Order(o.orderNumber, p.totalPrice.v, Assign(o.currency, p.currency), o.customer))
  {
  }

  /** No handler writes a row of another tenant. */
  lemma TenantIsolation(s: Store, p: Payload, tenantId: string, k: Key)
    requires k.tenant != tenantId
    ensures HandleOrderCreated(s, p, tenantId).Ok? ==>
      var r := HandleOrderCreated(s, p, tenantId).value;
      Find(r.customers, k) == Find(s.customers, k) && Find(r.orders, k) == Find(s.orders, k)
    ensures Find(HandleProductUpdate(s, p, tenantId).products, k) == Find(s.products, k)
    ensures Find(HandleCheckoutUpdate(s, p, tenantId).checkouts, k) == Find(s.checkouts, k)
  {
  }

  /** A product or checkout delivery writes the one row under its own key. */
  lemma ProductAndCheckoutWrites(s: Store, p: Payload, tenantId: string, k: Key)
    requires k != RowKey(p, tenantId)
    ensures Find(HandleProductUpdate(s, p, tenantId).products, k) == Find(s.products, k)
    ensures Find(HandleCheckoutUpdate(s, p, tenantId).checkouts, k) == Find(s.checkouts, k)
  {
  }

  /** The checkout handler never reads the payload's customer: guest and
      customer checkouts with the same other members store the same row. */
  lemma CheckoutIgnoresCustomer(s: Store, p: Payload, tenantId: string, c: Field<CustomerInfo>)
    ensures HandleCheckoutUpdate(s, p.(customer := c), tenantId) == HandleCheckoutUpdate(s, p, tenantId)
  {
  }

  /** Every handler keeps the unique constraint on every table. */
  lemma HandlersKeepUnique(s: Store, p: Payload, tenantId: string)
    requires StoreUnique(s)
    ensures HandleOrderCreated(s, p, tenantId).Ok? ==> StoreUnique(HandleOrderCreated(s, p, tenantId).value)
    ensures StoreUnique(HandleProductUpdate(s, p, tenantId))
    ensures StoreUnique(HandleCheckoutUpdate(s, p, tenantId))
  {
    var ok := RowKey(p, tenantId);
    if p.customer.Value? && p.totalPrice.Value? {
      var ck := CustomerKey(p, tenantId);
      var c := UpsertCustomer(Find(s.customers, ck), p.customer.v);
      var o := UpsertOrder(Find(s.orders, ok), p, p.totalPrice.v, ck);
      var orders := Put(s.orders, ok, o);
      PutKeepsUnique(s.orders, ok, o);
      PutKeepsUnique(s.customers, ck, c);
      PutKeepsUnique(Put(s.customers, ck, c), ck,
        c.(totalSpend := Spend(orders, ck), ordersCount := Count(orders, ck)));
    }
    var pr := HandleProductUpdate(s, p, tenantId);
    PutKeepsUnique(s.products, ok, Find(pr.products, ok).value);
    var co := HandleCheckoutUpdate(s, p, tenantId);
    PutKeepsUnique(s.checkouts, ok, Find(co.checkouts, ok).value);
  }

  // ---------------------------------------------------------------------------
  // Redelivery

  /** Handling the same order payload a second time changes nothing. */
  lemma OrderIdempotent(s: Store, p: Payload, tenantId: string)
    requires HandleOrderCreated(s, p, tenantId).Ok?
    ensures HandleOrderCreated(HandleOrderCreated(s, p, tenantId).value, p, tenantId)
      == HandleOrderCreated(s, p, tenantId)
  {
    if p.customer.Value? {
      var info := p.customer.v;
      var price := p.totalPrice.v;
      var ck, ok := CustomerKey(p, tenantId), RowKey(p, tenantId);
      var c0 := UpsertCustomer(Find(s.customers, ck), info);
      var o0 := UpsertOrder(Find(s.orders, ok), p, price, ck);
      var orders1 := Put(s.orders, ok, o0);
      var c1 := c0.(totalSpend := Spend(orders1, ck), ordersCount := Count(orders1, ck));
      var s1 := HandleOrderCreated(s, p, tenantId).value;
      assert s1.orders == orders1;
      assert s1.customers == Put(Put(s.customers, ck, c0), ck, c1);
      // The second run reads back what the first wrote ...
      assert Find(s1.customers, ck) == Some(c1);
      assert Find(s1.orders, ok) == Some(o0);
      // ... and its upserts rewrite the same values.
      var pc := Find(s.customers, ck);
      AssignIdempotent(if pc.Some? then pc.value.email else None, info.email);
      AssignIdempotent(if pc.Some? then pc.value.firstName else None, info.firstName);
      AssignIdempotent(if pc.Some? then pc.value.lastName else None, info.lastName);
      assert UpsertCustomer(Some(c1), info) == c1;
      var po := Find(s.orders, ok);
      AssignIdempotent(if po.Some? then po.value.currency else None, p.currency);
      assert UpsertOrder(Some(o0), p, price, ck) == o0;
      PutFound(orders1, ok, o0);
      PutPut(s1.customers, ck, c1, c1);
      PutFound(s1.customers, ck, c1);
    }
  }

  /** Delivering one order payload `n >= 1` times leaves the state of a single delivery. */
  lemma {:induction false} RedeliveryIdempotent(s: Store, p: Payload, tenantId: string, n: nat)
    requires n >= 1
    ensures ApplyOrders(s, seq(n, _ => p), tenantId) == HandleOrderCreated(s, p, tenantId)
    decreases n
  {
    var ps := seq(n, _ => p);
    assert ps[0] == p;
    match HandleOrderCreated(s, p, tenantId)
    case Err(_) =>
    case Ok(s1) =>
      if n > 1 {
        assert ps[1..] == seq(n - 1, _ => p);
        RedeliveryIdempotent(s1, p, tenantId, n - 1);
        OrderIdempotent(s, p, tenantId);
      } else {
        assert ps[1..] == [];
      }
  }

  /** Product redelivery is idempotent. */
  lemma ProductIdempotent(s: Store, p: Payload, tenantId: string)
    ensures HandleProductUpdate(HandleProductUpdate(s, p, tenantId), p, tenantId)
      == HandleProductUpdate(s, p, tenantId)
  {
    var k := RowKey(p, tenantId);
    var s1 := HandleProductUpdate(s, p, tenantId);
    var row := Find(s1.products, k).value;
    AssignIdempotent(if Find(s.products, k).Some? then Find(s.products, k).value.title else None, p.title);
    PutFound(s1.products, k, row);
  }

  /** Checkout redelivery is idempotent. */
  lemma CheckoutIdempotent(s: Store, p: Payload, tenantId: string)
    ensures HandleCheckoutUpdate(HandleCheckoutUpdate(s, p, tenantId), p, tenantId)
      == HandleCheckoutUpdate(s, p, tenantId)
  {
    var k := RowKey(p, tenantId);
    var s1 := HandleCheckoutUpdate(s, p, tenantId);
    var row := Find(s1.checkouts, k).value;
    var prev := Find(s.checkouts, k);
    AssignIdempotent(if prev.Some? then prev.value.totalPrice else None, p.totalPrice);
    AssignIdempotent(if prev.Some? then prev.value.currency else None, p.currency);
    AssignIdempotent(if prev.Some? then prev.value.abandonedCheckoutUrl else None, p.abandonedCheckoutUrl);
    PutFound(s1.checkouts, k, row);
  }

  // ---------------------------------------------------------------------------
  // Customer totals

  /** An order delivery keeps every customer's totals equal to its aggregate,
      provided the order row is new or already owned by the payload's customer. */
  lemma TotalsPreserved(s: Store, p: Payload, tenantId: string)
    requires TotalsConsistent(s)
    requires p.customer.Value? ==> OrderOwnedOrNew(s, RowKey(p, tenantId), CustomerKey(p, tenantId))
    ensures HandleOrderCreated(s, p, tenantId).Ok? ==> TotalsConsistent(HandleOrderCreated(s, p, tenantId).value)
  {
    if p.customer.Value? && p.totalPrice.Value? {
      var r := HandleOrderCreated(s, p, tenantId).value;
      var ck, ok := CustomerKey(p, tenantId), RowKey(p, tenantId);
      var o := UpsertOrder(Find(s.orders, ok), p, p.totalPrice.v, ck);
      assert r.orders == Put(s.orders, ok, o);
      forall k | Find(r.customers, k).Some?
        ensures Find(r.customers, k).value.totalSpend == Spend(r.orders, k)
        ensures Find(r.customers, k).value.ordersCount == Count(r.orders, k)
      {
        if k != ck {
          PutSpend(s.orders, ok, o, k);
        }
      }
    }
  }

  /** Deliveries of orders that all name one customer, in any order and with
      any duplicates, keep every customer's totals equal to its aggregate. */
  lemma {:induction false} SingleCustomerHistory(s: Store, ps: seq<Payload>, tenantId: string, ck: Key)
    requires TotalsConsistent(s)
    requires forall i :: 0 <= i < |ps| ==> ps[i].customer.Value? && CustomerKey(ps[i], tenantId) == ck
    requires forall i :: 0 <= i < |ps| ==> OrderOwnedOrNew(s, RowKey(ps[i], tenantId), ck)
    ensures ApplyOrders(s, ps, tenantId).Ok? ==> TotalsConsistent(ApplyOrders(s, ps, tenantId).value)
    decreases |ps|
  {
    if |ps| > 0 {
      var p := ps[0];
      TotalsPreserved(s, p, tenantId);
      match HandleOrderCreated(s, p, tenantId)
      case Err(_) =>
      case Ok(s1) =>
        OrderWrites(s, p, tenantId);
        var rest := ps[1..];
        forall i | 0 <= i < |rest|
          ensures OrderOwnedOrNew(s1, RowKey(rest[i], tenantId), ck)
        {
          assert rest[i] == ps[i + 1];
        }
        SingleCustomerHistory(s1, rest, tenantId, ck);
    }
  }

  /** A customer row holding 10.00 over its one order, and a delivery of that
      same order re-attributed to another customer at 20.00. */
  function StaleBefore(): Store {
    Store(
      [Entry(Key("t", "a"), Customer(None, None, None, 10.0, 1))],
      [Entry(Key("t", "o"), Order(None, 10.0, None, Key("t", "a")))],
      [], [])
  }

  function StalePayload(): Payload {
    Payload(Str("o"), Value(CustomerInfo(Str("b"), Absent, Absent, Absent)), Value(20.0),
            Absent, Absent, Absent, Absent, Absent, Absent)
  }

  /** The starting state is consistent: its one customer owns its one order. */
  lemma StaleBeforeConsistent()
    ensures TotalsConsistent(StaleBefore())
  {
    var s := StaleBefore();
    var a := Key("t", "a");
    assert Spend(s.orders[1..], a) == 0.0;
    assert Count(s.orders[1..], a) == 0;
    forall k | Find(s.customers, k).Some?
      ensures Find(s.customers, k).value.totalSpend == Spend(s.orders, k)
      ensures Find(s.customers, k).value.ordersCount == Count(s.orders, k)
    {
      assert s.customers[0].key == k;
    }
  }

  /** Without the ownership condition the invariant fails: the order keeps its
      first owner, whose aggregate moves to 20.00 while only the payload's
      customer is recomputed, so the first owner's row still says 10.00. */
  lemma StaleTotalsCounterexample()
    ensures TotalsConsistent(StaleBefore())
    ensures !OrderOwnedOrNew(StaleBefore(), Key("t", "o"), Key("t", "b"))
    ensures HandleOrderCreated(StaleBefore(), StalePayload(), "t").Ok?
    ensures !TotalsConsistent(HandleOrderCreated(StaleBefore(), StalePayload(), "t").value)
  {
    StaleBeforeConsistent();
    var s, p := StaleBefore(), StalePayload();
    var a, b, o := Key("t", "a"), Key("t", "b"), Key("t", "o");
    assert CustomerKey(p, "t") == b && RowKey(p, "t") == o;
    var before := Order(None, 10.0, None, a);
    assert Find(s.orders, o) == Some(before);
    var after := UpsertOrder(Some(before), p, 20.0, b);
    assert after == Order(None, 20.0, None, a);
    OrderWrites(s, p, "t");
    var r := HandleOrderCreated(s, p, "t").value;
    assert r.orders == Put(s.orders, o, after);
    PutSpend(s.orders, o, after, a);
    assert Spend(s.orders[1..], a) == 0.0;
    assert Spend(r.orders, a) == 20.0;
    assert Find(r.customers, a) == Find(s.customers, a);
    assert Find(r.customers, a).value.totalSpend == 10.0;
  }

  // ---------------------------------------------------------------------------
  // An end-to-end two-order scenario

  function EmptyStore(): Store {
    Store([], [], [], [])
  }

  /** An order payload carrying only the members the order handler reads. */
  function OrderPayload(id: JsonId, customer: CustomerInfo, price: Decimal, currency: Field<string>, name: Field<string>): Payload {
    Payload(id, Value(customer), Value(price), currency, name, Absent, Absent, Absent, Absent)
  }

  /** Order 9001 for customer c1 at 50.00, with an email, currency and
      order number. */
  function FirstOrder(): Payload {
    OrderPayload(Num(9001), CustomerInfo(Str("c1"), Value("a@x.com"), Absent, Absent), 50.0, Value("USD"), Value("#1001"))
  }

  /** Order 9002 for customer c1 at 25.00, sent without an email, currency or
      order number. */
  function SecondOrder(): Payload {
    OrderPayload(Num(9002), CustomerInfo(Str("c1"), Absent, Absent, Absent), 25.0, Absent, Absent)
  }

  /** The first delivery of order 9001 into an empty store creates the order
      and the customer with totals 50.00 / 1. */
  lemma FirstDeliveryScenario()
    ensures
      var r1 := HandleOrderCreated(EmptyStore(), FirstOrder(), "T");
      && r1.Ok?
      && r1.value.orders == ScenarioOrders()
      && Find(r1.value.customers, Key("T", "c1")) == Some(Customer(Some("a@x.com"), None, None, 50.0, 1))
  {
    var ck := Key("T", "c1");
    OrderWrites(EmptyStore(), FirstOrder(), "T");
    var s1 := HandleOrderCreated(EmptyStore(), FirstOrder(), "T").value;
    assert s1.orders[1..] == [];
    assert Spend(s1.orders, ck) == 50.0 + Spend([], ck);
    assert Count(s1.orders, ck) == 1 + Count([], ck);
  }

  /** The order table a store holding only order 9001 (for c1, at 50.00) has
      after order 9002 arrives. */
  function ScenarioOrders(): Table<Order> {
    [Entry(Key("T", IdString(Num(9001))), Order(Some("#1001"), 50.0, Some("USD"), Key("T", "c1")))]
  }

  /** Order 9002 is appended after order 9001, owned by c1. */
  lemma SecondDeliveryOrders(s1: Store)
    requires s1.orders == ScenarioOrders()
    ensures HandleOrderCreated(s1, SecondOrder(), "T").Ok?
    ensures HandleOrderCreated(s1, SecondOrder(), "T").value.orders
      == s1.orders + [Entry(Key("T", IdString(Num(9002))), Order(None, 25.0, None, Key("T", "c1")))]
  {
    var k1, k2 := Key("T", IdString(Num(9001))), Key("T", IdString(Num(9002)));
    assert k1 != k2 by {
      assert DigitsValue(k1.external) == 9001 && DigitsValue(k2.external) == 9002;
    }
    assert Find(s1.orders, k2) == None;
  }

  /** Delivering order 9002 to any store that holds exactly order 9001 and
      customer c1 at 50.00 / 1 moves the totals to 75.00 / 2 and keeps the
      email. */
  lemma SecondDeliveryScenario(s1: Store)
    requires s1.orders == ScenarioOrders()
    requires Find(s1.customers, Key("T", "c1")) == Some(Customer(Some("a@x.com"), None, None, 50.0, 1))
    ensures HandleOrderCreated(s1, SecondOrder(), "T").Ok?
    ensures Find(HandleOrderCreated(s1, SecondOrder(), "T").value.customers, Key("T", "c1"))
      == Some(Customer(Some("a@x.com"), None, None, 75.0, 2))
  {
    var ck := Key("T", "c1");
    assert CustomerKey(SecondOrder(), "T") == ck;
    SecondDeliveryOrders(s1);
    ProfileKeptWhenAbsent(s1, SecondOrder(), "T");
    var s2 := HandleOrderCreated(s1, SecondOrder(), "T").value;
    TwoOwnedOrders(s1.orders[0].key, s1.orders[0].row, s2.orders[1].key, s2.orders[1].row, ck);
  }

  /** An order whose customer member carries no email or names leaves an
      existing customer's profile as it was. */
  lemma ProfileKeptWhenAbsent(s: Store, p: Payload, tenantId: string)
    requires p.customer.Value? && p.totalPrice.Value?
    requires p.customer.v.email.Absent? && p.customer.v.firstName.Absent? && p.customer.v.lastName.Absent?
    requires Find(s.customers, CustomerKey(p, tenantId)).Some?
    ensures HandleOrderCreated(s, p, tenantId).Ok?
    ensures
      var before := Find(s.customers, CustomerKey(p, tenantId)).value;
      var after := Find(HandleOrderCreated(s, p, tenantId).value.customers, CustomerKey(p, tenantId)).value;
      after.email == before.email && after.firstName == before.firstName && after.lastName == before.lastName
  {
    OrderWrites(s, p, tenantId);
  }

  /** Totals of a two-row order table whose rows both belong to `c`. */
  lemma TwoOwnedOrders(k1: Key, o1: Order, k2: Key, o2: Order, c: Key)
    requires Owns(k1, o1, c) && Owns(k2, o2, c)
    ensures Spend([Entry(k1, o1), Entry(k2, o2)], c) == o1.totalPrice + o2.totalPrice
    ensures Count([Entry(k1, o1), Entry(k2, o2)], c) == 2
  {
    var t := [Entry(k1, o1), Entry(k2, o2)];
    assert t[1..] == [Entry(k2, o2)] && t[1..][1..] == [];
  }

  /** Order 9001 for customer c1 at 50.00 creates the customer with totals
      50.00 / 1; redelivering it changes nothing; order 9002 for c1 at 25.00,
      sent without an email, moves the totals to 75.00 / 2 and keeps the email. */
  lemma TwoOrderScenario()
    ensures
      var r1 := HandleOrderCreated(EmptyStore(), FirstOrder(), "T");
      && r1.Ok?
      && Find(r1.value.customers, Key("T", "c1")) == Some(Customer(Some("a@x.com"), None, None, 50.0, 1))
      && HandleOrderCreated(r1.value, FirstOrder(), "T") == r1
      && HandleOrderCreated(r1.value, SecondOrder(), "T").Ok?
      && Find(HandleOrderCreated(r1.value, SecondOrder(), "T").value.customers, Key("T", "c1"))
           == Some(Customer(Some("a@x.com"), None, None, 75.0, 2))
  {
    FirstDeliveryScenario();
    OrderIdempotent(EmptyStore(), FirstOrder(), "T");
    SecondDeliveryScenario(HandleOrderCreated(EmptyStore(), FirstOrder(), "T").value);
  }
}
