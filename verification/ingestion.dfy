/** The materializer: one pure state transition per webhook topic family, over
    the four tenant-scoped tables. A handler that fails returns an error and no
    state, so a failed job writes nothing. */
module Ingestion {
  import opened Values
  import opened Ids
  import opened Tables

  /** Exact decimal amounts (`Prisma.Decimal`); every decimal is a rational. */
  type Decimal = real

  /** The opaque result of `new Date(text)`. */
  datatype Instant = DateOf(text: string)

  /** The members of a payload's `customer` object that handlers read. */
  datatype CustomerInfo = CustomerInfo(
    id: JsonId,
    email: Field<string>,
    firstName: Field<string>,
    lastName: Field<string>)

  datatype Variant = Variant(price: Decimal)

  /** A parsed webhook body: the members any of the three handlers reads.
      A missing `total_price` stands for any value `Prisma.Decimal` rejects. */
  datatype Payload = Payload(
    id: JsonId,
    customer: Field<CustomerInfo>,
    totalPrice: Field<Decimal>,
    currency: Field<string>,
    name: Field<string>,
    title: Field<string>,
    variants: Field<seq<Variant>>,
    abandonedCheckoutUrl: Field<string>,
    completedAt: Field<string>)

  datatype Customer = Customer(
    email: Option<string>,
    firstName: Option<string>,
    lastName: Option<string>,
    totalSpend: Decimal,
    ordersCount: nat)

  /** An order row; `customer` is the owning customer row's identity. */
  datatype Order = Order(
    orderNumber: Option<string>,
    totalPrice: Decimal,
    currency: Option<string>,
    customer: Key)

  datatype Product = Product(title: Option<string>, price: Decimal)

  datatype Checkout = Checkout(
    totalPrice: Option<Decimal>,
    currency: Option<string>,
    abandonedCheckoutUrl: Option<string>,
    completedAt: Option<Instant>)

  datatype Store = Store(
    customers: Table<Customer>,
    orders: Table<Order>,
    products: Table<Product>,
    checkouts: Table<Checkout>)

  /** `new Prisma.Decimal(total_price)` threw before the transaction began. */
  datatype Failure = InvalidDecimal

  // ---------------------------------------------------------------------------
  // Customer aggregates

  /** The aggregate query's filter: same tenant, owned by customer `c`. */
  predicate Owns(k: Key, o: Order, c: Key) {
    k.tenant == c.tenant && o.customer == c
  }

  function Share(k: Key, o: Order, c: Key): Decimal {
    if Owns(k, o, c) then o.totalPrice else 0.0
  }

  /** `_sum.total_price` over the customer's orders, with `|| 0` for none. */
  function Spend(t: Table<Order>, c: Key): (r: Decimal)
    ensures (forall i :: 0 <= i < |t| ==> !Owns(t[i].key, t[i].row, c)) ==> r == 0.0
    ensures (forall i :: 0 <= i < |t| ==> t[i].row.totalPrice >= 0.0) ==> r >= 0.0
  {
    if |t| == 0 then 0.0 else Share(t[0].key, t[0].row, c) + Spend(t[1..], c)
  }

  /** `_count.id` over the customer's orders. */
  function Count(t: Table<Order>, c: Key): (r: nat)
    ensures r <= |t|
    ensures r == 0 <==> forall i :: 0 <= i < |t| ==> !Owns(t[i].key, t[i].row, c)
  {
    if |t| == 0 then 0
    else (if Owns(t[0].key, t[0].row, c) then 1 else 0) + Count(t[1..], c)
  }

  /** What the row a key held contributed to customer `c`'s aggregate. */
  function PriorShare(t: Table<Order>, k: Key, c: Key): Decimal {
    match Find(t, k)
    case Some(o) => Share(k, o, c)
    case None => 0.0
  }

  function PriorCount(t: Table<Order>, k: Key, c: Key): nat {
    match Find(t, k)
    case Some(o) => if Owns(k, o, c) then 1 else 0
    case None => 0
  }

  /** Upserting one order moves a customer's aggregate by exactly the
      difference between the new row's contribution and the old one's. */
  lemma {:induction false} PutSpend(t: Table<Order>, k: Key, o: Order, c: Key)
    ensures Spend(Put(t, k, o), c) == Spend(t, c) - PriorShare(t, k, c) + Share(k, o, c)
    ensures Count(Put(t, k, o), c) == Count(t, c) - PriorCount(t, k, c) + (if Owns(k, o, c) then 1 else 0)
  {
    var r := Put(t, k, o);
    if |t| == 0 {
      assert r[1..] == [];
    } else if t[0].key == k {
      assert r[1..] == t[1..];
    } else {
      PutSpend(t[1..], k, o, c);
      assert r[0] == t[0] && r[1..] == Put(t[1..], k, o);
    }
  }

  // ---------------------------------------------------------------------------
  // Row upserts

  /** The customer upsert: profile members overwrite an existing row, whose
      totals are kept; a new row starts with zero totals. */
  function UpsertCustomer(existing: Option<Customer>, info: CustomerInfo): (c: Customer)
    ensures existing.Some? ==>
      c.totalSpend == existing.value.totalSpend && c.ordersCount == existing.value.ordersCount
    ensures existing.None? ==> c.totalSpend == 0.0 && c.ordersCount == 0
    ensures info.email.Value? ==> c.email == Some(info.email.v)
    ensures info.email.Null? ==> c.email.None?
    ensures info.email.Absent? ==> c.email == (if existing.Some? then existing.value.email else None)
    ensures info.firstName.Value? ==> c.firstName == Some(info.firstName.v)
    ensures info.firstName.Null? ==> c.firstName.None?
    ensures info.firstName.Absent? ==> c.firstName == (if existing.Some? then existing.value.firstName else None)
    ensures info.lastName.Value? ==> c.lastName == Some(info.lastName.v)
    ensures info.lastName.Null? ==> c.lastName.None?
    ensures info.lastName.Absent? ==> c.lastName == (if existing.Some? then existing.value.lastName else None)
  {
    match existing
    case Some(prev) =>
      prev.(email := Assign(prev.email, info.email),
           firstName := Assign(prev.firstName, info.firstName),
           lastName := Assign(prev.lastName, info.lastName))
    case None =>
      Customer(Initial(info.email), Initial(info.firstName), Initial(info.lastName), 0.0, 0)
  }

  /** The order upsert: an existing row takes the new price and currency and
      keeps its number and owner; a new row is owned by `owner`. */
  function UpsertOrder(existing: Option<Order>, p: Payload, price: Decimal, owner: Key): (o: Order)
    ensures o.totalPrice == price
    ensures existing.Some? ==>
      o.customer == existing.value.customer && o.orderNumber == existing.value.orderNumber
    ensures existing.None? ==> o.customer == owner && o.orderNumber == Initial(p.name)
    ensures Written(o.currency, if existing.Some? then existing.value.currency else None, p.currency)
  {
    match existing
    case Some(prev) => prev.(totalPrice := price, currency := Assign(prev.currency, p.currency))
    case None => Order(Initial(p.name), price, Initial(p.currency), owner)
  }

  function CustomerKey(p: Payload, tenantId: string): Key
    requires p.customer.Value?
  {
    Key(tenantId, IdString(p.customer.v.id))
  }

  function RowKey(p: Payload, tenantId: string): Key {
    Key(tenantId, IdString(p.id))
  }

  // ---------------------------------------------------------------------------
  // Handlers

  /** `orders/create` and `orders/updated`: upsert the customer, upsert the
      order, then recompute the customer's totals from the order table. */
  function HandleOrderCreated(s: Store, p: Payload, tenantId: string): (r: Result<Store, Failure>)
    ensures !p.customer.Value? ==> r == Ok(s)
    ensures p.customer.Value? && !p.totalPrice.Value? ==> r == Err(InvalidDecimal)
    ensures r.Ok? ==> r.value.products == s.products && r.value.checkouts == s.checkouts
    ensures r.Ok? && p.customer.Value? ==>
      var ck := CustomerKey(p, tenantId);
      && Find(r.value.customers, ck).Some?
      && Find(r.value.customers, ck).value.totalSpend == Spend(r.value.orders, ck)
      && Find(r.value.customers, ck).value.ordersCount == Count(r.value.orders, ck)
  {
    if !p.customer.Value? then Ok(s)
    else if !p.totalPrice.Value? then Err(InvalidDecimal)
    else
      var ck := CustomerKey(p, tenantId);
      var customer := UpsertCustomer(Find(s.customers, ck), p.customer.v);
      var customers := Put(s.customers, ck, customer);
      var ok := RowKey(p, tenantId);
      var orders := Put(s.orders, ok, UpsertOrder(Find(s.orders, ok), p, p.totalPrice.v, ck));
      var totals := customer.(totalSpend := Spend(orders, ck), ordersCount := Count(orders, ck));
      Ok(s.(customers := Put(customers, ck, totals), orders := orders))
  }

  /** The representative price: the first variant's, or zero. */
  function FirstVariantPrice(variants: Field<seq<Variant>>): (r: Decimal)
    ensures variants.Value? && |variants.v| > 0 ==> r == variants.v[0].price
    ensures !(variants.Value? && |variants.v| > 0) ==> r == 0.0
  {
    if variants.Value? && |variants.v| > 0 then variants.v[0].price else 0.0
  }

  /** `products/create` and `products/update`: upsert title and price. */
  function HandleProductUpdate(s: Store, p: Payload, tenantId: string): (r: Store)
    ensures r.customers == s.customers && r.orders == s.orders && r.checkouts == s.checkouts
    ensures Find(r.products, RowKey(p, tenantId)).Some?
    ensures p.variants.Value? && |p.variants.v| > 0 ==>
      Find(r.products, RowKey(p, tenantId)).value.price == p.variants.v[0].price
    ensures !(p.variants.Value? && |p.variants.v| > 0) ==>
      Find(r.products, RowKey(p, tenantId)).value.price == 0.0
    ensures
      var before := Find(s.products, RowKey(p, tenantId));
      Written(Find(r.products, RowKey(p, tenantId)).value.title,
              if before.Some? then before.value.title else None, p.title)
  {
    var k := RowKey(p, tenantId);
    var price := FirstVariantPrice(p.variants);
    var row := match Find(s.products, k)
      case Some(prev) => prev.(title := Assign(prev.title, p.title), price := price)
      case None => Product(Initial(p.title), price);
    s.(products := Put(s.products, k, row))
  }

  /** `new Date(completed_at)` when the member is truthy, else `null`. */
  function CompletedAt(f: Field<string>): (r: Option<Instant>)
    ensures r.Some? <==> f.Value? && f.v != ""
    ensures r.Some? ==> r.value == DateOf(f.v)
  {
    if TruthyText(f) then Some(DateOf(f.v)) else None
  }

  /** `checkouts/create` and `checkouts/update`: upsert the checkout row; the
      payload's customer is not read. */
  function HandleCheckoutUpdate(s: Store, p: Payload, tenantId: string): (r: Store)
    ensures r.customers == s.customers && r.orders == s.orders && r.products == s.products
    ensures Find(r.checkouts, RowKey(p, tenantId)).Some?
    ensures !TruthyText(p.completedAt) ==>
      Find(r.checkouts, RowKey(p, tenantId)).value.completedAt.None?
    ensures TruthyText(p.completedAt) ==>
      Find(r.checkouts, RowKey(p, tenantId)).value.completedAt == Some(DateOf(p.completedAt.v))
    ensures
      var before, after := Find(s.checkouts, RowKey(p, tenantId)), Find(r.checkouts, RowKey(p, tenantId));
      && Written(after.value.totalPrice, if before.Some? then before.value.totalPrice else None, p.totalPrice)
      && Written(after.value.currency, if before.Some? then before.value.currency else None, p.currency)
      && Written(after.value.abandonedCheckoutUrl,
                 if before.Some? then before.value.abandonedCheckoutUrl else None, p.abandonedCheckoutUrl)
  {
    var k := RowKey(p, tenantId);
    var row := match Find(s.checkouts, k)
      case Some(prev) =>
        prev.(totalPrice := Assign(prev.totalPrice, p.totalPrice),
             currency := Assign(prev.currency, p.currency),
             abandonedCheckoutUrl := Assign(prev.abandonedCheckoutUrl, p.abandonedCheckoutUrl),
             completedAt := CompletedAt(p.completedAt))
      case None =>
        Checkout(Initial(p.totalPrice), Initial(p.currency), Initial(p.abandonedCheckoutUrl),
                 CompletedAt(p.completedAt));
    s.(checkouts := Put(s.checkouts, k, row))
  }
}
