/** Tenant resolution, the middleware in front of the webhook route: an
    explicit tenant id header takes precedence over the shop-domain header. */
module Tenancy {
  import opened Values

  datatype Tenant = Tenant(id: string, name: string, shopDomain: string, ownerEmail: string)

  /** The tenant table as its two unique lookups; `reachable` false means
      every lookup throws. */
  datatype TenantDb = TenantDb(byId: map<string, Tenant>, byDomain: map<string, Tenant>, reachable: bool)

  /** Request headers, by lower-case name. */
  type Headers = map<string, string>

  const TenantIdHeader := "x-tenant-id"
  const ShopDomainHeader := "x-shopify-shop-domain"

  function Header(h: Headers, name: string): Field<string> {
    if name in h then Value(h[name]) else Absent
  }

  /** The lookup the middleware issues, if any. */
  datatype Query = ById(id: string) | ByDomain(domain: string) | NoQuery

  /** The outcome of the middleware: `next()` with `req.tenant` set, or a
      response with this status and `next` never called. */
  datatype Gate = Proceed(tenant: Tenant) | Reject(status: int)

  /** An id header, when truthy, decides the query; the shop domain is used
      only in its absence. */
  function ChooseQuery(h: Headers): (q: Query)
    ensures q.ById? <==> TruthyText(Header(h, TenantIdHeader))
    ensures q.ById? ==> q.id == h[TenantIdHeader]
    ensures q.ByDomain? <==> !TruthyText(Header(h, TenantIdHeader)) && TruthyText(Header(h, ShopDomainHeader))
    ensures q.ByDomain? ==> q.domain == h[ShopDomainHeader]
  {
    var id, domain := Header(h, TenantIdHeader), Header(h, ShopDomainHeader);
    if TruthyText(id) then ById(id.v)
    else if TruthyText(domain) then ByDomain(domain.v)
    else NoQuery
  }

  /** The `findUnique` the query stands for: `None` is a `null` row, and an
      unreachable table throws (`Err`). A request with no query reads nothing. */
  function RunQuery(db: TenantDb, q: Query): (r: Result<Option<Tenant>, string>)
    ensures q.NoQuery? ==> r == Ok(None)
    ensures r.Err? <==> !q.NoQuery? && !db.reachable
    ensures q.ById? && r.Ok? ==> r.value == (if q.id in db.byId then Some(db.byId[q.id]) else None)
    ensures q.ByDomain? && r.Ok? ==> r.value == (if q.domain in db.byDomain then Some(db.byDomain[q.domain]) else None)
  {
    match q
    case NoQuery => Ok(None)
    case ById(id) =>
      if !db.reachable then Err("lookup failed")
      else Ok(if id in db.byId then Some(db.byId[id]) else None)
    case ByDomain(d) =>
      if !db.reachable then Err("lookup failed")
      else Ok(if d in db.byDomain then Some(db.byDomain[d]) else None)
  }

  /** `tenantMiddleware`. */
  function TenantMiddleware(h: Headers, db: TenantDb): (g: Gate)
    ensures g.Reject? ==> g.status == 401 || g.status == 500
    ensures g == Reject(500) <==> !ChooseQuery(h).NoQuery? && !db.reachable
    ensures ChooseQuery(h).NoQuery? ==> g == Reject(401)
    ensures g.Proceed? ==> db.reachable
    ensures db.reachable && ChooseQuery(h).ById? && ChooseQuery(h).id in db.byId ==>
      g == Proceed(db.byId[ChooseQuery(h).id])
    ensures db.reachable && ChooseQuery(h).ByDomain? && ChooseQuery(h).domain in db.byDomain ==>
      g == Proceed(db.byDomain[ChooseQuery(h).domain])
    ensures db.reachable && ChooseQuery(h).ById? && ChooseQuery(h).id !in db.byId ==> g == Reject(401)
    ensures db.reachable && ChooseQuery(h).ByDomain? && ChooseQuery(h).domain !in db.byDomain ==> g == Reject(401)
    ensures g.Proceed? && ChooseQuery(h).ById? ==>
      ChooseQuery(h).id in db.byId && g.tenant == db.byId[ChooseQuery(h).id]
    ensures g.Proceed? && ChooseQuery(h).ByDomain? ==>
      ChooseQuery(h).domain in db.byDomain && g.tenant == db.byDomain[ChooseQuery(h).domain]
  {
    match RunQuery(db, ChooseQuery(h))
    case Err(_) => Reject(500)
    case Ok(None) => Reject(401)
    case Ok(Some(t)) => Proceed(t)
  }

  /** A truthy id header makes the lookup by id only: the shop-domain header
      and the domain index are ignored, even when the id is unknown. */
  lemma IdHeaderTakesPrecedence(h: Headers, db: TenantDb, domain: string, byDomain: map<string, Tenant>)
    requires TruthyText(Header(h, TenantIdHeader))
    ensures TenantMiddleware(h, db) == TenantMiddleware(h[ShopDomainHeader := domain], db)
    ensures TenantMiddleware(h, db) == TenantMiddleware(h, db.(byDomain := byDomain))
    ensures db.reachable && h[TenantIdHeader] !in db.byId ==> TenantMiddleware(h, db) == Reject(401)
  {
    assert Header(h[ShopDomainHeader := domain], TenantIdHeader) == Header(h, TenantIdHeader);
  }

  /** Without a truthy id header, the shop domain is looked up by domain and
      the id index plays no part. */
  lemma DomainUsedOnlyWithoutId(h: Headers, db: TenantDb, byId: map<string, Tenant>)
    requires !TruthyText(Header(h, TenantIdHeader))
    ensures TenantMiddleware(h, db) == TenantMiddleware(h, db.(byId := byId))
    ensures TruthyText(Header(h, ShopDomainHeader)) && db.reachable ==>
      TenantMiddleware(h, db) ==
        (if h[ShopDomainHeader] in db.byDomain then Proceed(db.byDomain[h[ShopDomainHeader]]) else Reject(401))
  {
  }

  /** The indexes agree with the records they hold. */
  ghost predicate IndexesAgree(db: TenantDb) {
    && (forall i :: i in db.byId ==> db.byId[i].id == i)
    && (forall d :: d in db.byDomain ==> db.byDomain[d].shopDomain == d)
  }

  /** Over agreeing indexes, a resolved tenant is the one the winning header names. */
  lemma ResolvedTenantMatchesHeader(h: Headers, db: TenantDb)
    requires IndexesAgree(db)
    requires TenantMiddleware(h, db).Proceed?
    ensures TruthyText(Header(h, TenantIdHeader)) ==>
      TenantMiddleware(h, db).tenant.id == h[TenantIdHeader]
    ensures !TruthyText(Header(h, TenantIdHeader)) ==>
      TenantMiddleware(h, db).tenant.shopDomain == h[ShopDomainHeader]
  {
  }
}
