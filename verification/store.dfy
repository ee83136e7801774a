/** The relational store the reconciler writes to, as tables keyed by the
    natural keys its `findOrCreate` calls use (services/vishwakarmaService.js,
    and the model files). Row ids come from one counter, `nextId`, standing for the
    database's generated keys. */
module Store {
  import opened JsValues
  import opened Hcode

  const VishwakarmaSource: string := "VISHWAKARMA"

  /** `roles` JSON of an account: `{seller: [...], buyer: [...]}`. */
  datatype Roles = Roles(seller: seq<string>, buyer: seq<string>)

  /** Roles given to an account created for a partner provider. */
  const ArtisanRoles: Roles := Roles(["ARTISAN"], [])

  datatype AccountKey = AccountKey(source: string, sourceId: string)

  datatype Account = Account(
    id: nat,
    fullname: string,
    mobile: string,
    lastLocation: string,
    roles: Roles,
    source: string,
    sourceId: string)

  datatype Seller = Seller(id: nat, userAccountId: nat, fullname: string)

  datatype CategoryRow = CategoryRow(id: nat, name: string, parentId: Option<nat>, hcode: string)

  datatype ServiceKey = ServiceKey(sellerId: nat, categoryId: nat, name: string)

  datatype SellerService = SellerService(
    id: nat,
    sellerId: nat,
    categoryId: nat,
    name: string,
    description: Option<string>,
    coordinates: string)

  datatype ServiceLocation = ServiceLocation(id: nat, sellerServiceId: nat, latitude: string, longitude: string)

  /** The tables: accounts by (source, source_id), sellers by
      user_account_id, categories by hcode, seller services by
      (seller_id, category_id, name), locations by seller_service_id. */
  datatype Tables = Tables(
    accounts: map<AccountKey, Account>,
    sellers: map<nat, Seller>,
    categories: map<string, CategoryRow>,
    services: map<ServiceKey, SellerService>,
    locations: map<nat, ServiceLocation>,
    nextId: nat)

  /** What `findOrCreate` returns, with the tables after it. */
  datatype Found<R> = Found(tables: Tables, row: R, created: bool)

  function FindOrCreateAccountIn(t: Tables, key: AccountKey, fullname: string, mobile: string, lastLocation: string, roles: Roles): Found<Account> {
    if key in t.accounts then Found(t, t.accounts[key], false)
    else
      var row := Account(t.nextId, fullname, mobile, lastLocation, roles, key.source, key.sourceId);
      Found(t.(accounts := t.accounts[key := row], nextId := t.nextId + 1), row, true)
  }

  /** `userAccount.update(...)`: only the three refreshed fields change. */
  function UpdateAccountIn(t: Tables, key: AccountKey, fullname: string, mobile: string, lastLocation: string): Tables
    requires key in t.accounts
  {
    var old_ := t.accounts[key];
    t.(accounts := t.accounts[key := old_.(fullname := fullname, mobile := mobile, lastLocation := lastLocation)])
  }

  function FindOrCreateSellerIn(t: Tables, userAccountId: nat, fullname: string): Found<Seller> {
    if userAccountId in t.sellers then Found(t, t.sellers[userAccountId], false)
    else
      var row := Seller(t.nextId, userAccountId, fullname);
      Found(t.(sellers := t.sellers[userAccountId := row], nextId := t.nextId + 1), row, true)
  }

  function FindOrCreateCategoryIn(t: Tables, hcode: string, name: string, parentId: Option<nat>): Found<CategoryRow> {
    if hcode in t.categories then Found(t, t.categories[hcode], false)
    else
      var row := CategoryRow(t.nextId, name, parentId, hcode);
      Found(t.(categories := t.categories[hcode := row], nextId := t.nextId + 1), row, true)
  }

  function FindOrCreateServiceIn(t: Tables, key: ServiceKey, coordinates: string): Found<SellerService> {
    if key in t.services then Found(t, t.services[key], false)
    else
      var row := SellerService(t.nextId, key.sellerId, key.categoryId, key.name, None, coordinates);
      Found(t.(services := t.services[key := row], nextId := t.nextId + 1), row, true)
  }

  function FindOrCreateLocationIn(t: Tables, sellerServiceId: nat, latitude: string, longitude: string): Found<ServiceLocation> {
    if sellerServiceId in t.locations then Found(t, t.locations[sellerServiceId], false)
    else
      var row := ServiceLocation(t.nextId, sellerServiceId, latitude, longitude);
      Found(t.(locations := t.locations[sellerServiceId := row], nextId := t.nextId + 1), row, true)
  }

  ghost predicate SubMap<K, V>(m: map<K, V>, m': map<K, V>) {
    forall k :: k in m ==> k in m' && m'[k] == m[k]
  }

  /** The account fields a re-sync never overwrites. */
  predicate SameIdentity(a: Account, b: Account) {
    a.id == b.id && a.roles == b.roles && a.source == b.source && a.sourceId == b.sourceId
  }

  /** `u` keeps every row of `t`: accounts keep their identity (only name,
      mobile and location may differ), every other row is unchanged. */
  ghost predicate Grows(t: Tables, u: Tables) {
    && t.nextId <= u.nextId
    && (forall k :: k in t.accounts ==> k in u.accounts && SameIdentity(t.accounts[k], u.accounts[k]))
    && SubMap(t.sellers, u.sellers)
    && SubMap(t.categories, u.categories)
    && SubMap(t.services, u.services)
    && SubMap(t.locations, u.locations)
  }

  /** `u` has no row that `t` lacks and differs from `t` at most in the
      refreshed account fields. */
  ghost predicate Settled(t: Tables, u: Tables) {
    && u.nextId == t.nextId
    && u.accounts.Keys == t.accounts.Keys
    && (forall k :: k in t.accounts ==> SameIdentity(t.accounts[k], u.accounts[k]))
    && u.sellers == t.sellers
    && u.categories == t.categories
    && u.services == t.services
    && u.locations == t.locations
  }

  lemma GrowsTransitive(a: Tables, b: Tables, c: Tables)
    requires Grows(a, b) && Grows(b, c)
    ensures Grows(a, c)
  {
  }

  lemma SettledGrows(a: Tables, b: Tables)
    requires Settled(a, b)
    ensures Grows(a, b)
  {
  }

  lemma SettledTransitive(a: Tables, b: Tables, c: Tables)
    requires Settled(a, b) && Settled(b, c)
    ensures Settled(a, c)
  {
  }

  /** The row at `code` exists and has id `id`: `id` may be used as the
      parent id of `code`'s children. */
  ghost predicate Anchored(t: Tables, code: string, id: nat) {
    code in t.categories && t.categories[code].id == id
  }

  /** The row stored under `h` points to the row whose code is `h` minus its
      last segment, and a root (one segment) has no parent. */
  ghost predicate ParentLinked(cats: map<string, CategoryRow>, h: string)
    requires h in cats
  {
    match cats[h].parentId
    case None => ParentCode(h).None?
    case Some(p) => ParentCode(h).Some? && ParentCode(h).value in cats && cats[ParentCode(h).value].id == p
  }

  /** The hierarchy invariant of the category table: every row is stored
      under its own hcode, has a distinct id issued before `nextId`, and is
      linked to its parent as its hcode says. */
  ghost predicate CategoryTreeOk(t: Tables) {
    && (forall h :: h in t.categories ==> t.categories[h].hcode == h && t.categories[h].id < t.nextId)
    && (forall h :: h in t.categories ==> ParentLinked(t.categories, h))
    && (forall h1, h2 :: h1 in t.categories && h2 in t.categories && t.categories[h1].id == t.categories[h2].id ==> h1 == h2)
  }

  /** Creating rows in other tables keeps the category invariant. */
  lemma TreeOkOtherTables(t: Tables, u: Tables)
    requires CategoryTreeOk(t)
    requires u.categories == t.categories && t.nextId <= u.nextId
    ensures CategoryTreeOk(u)
  {
  }

  /** `findOrCreate` on categories keeps the hierarchy invariant when the
      caller passes the parent that the hcode names. */
  lemma FindOrCreateCategoryKeepsTree(t: Tables, hcode: string, name: string, parentId: Option<nat>)
    requires CategoryTreeOk(t)
    requires parentId.None? ==> ParentCode(hcode).None?
    requires parentId.Some? ==> ParentCode(hcode).Some? && Anchored(t, ParentCode(hcode).value, parentId.value)
    ensures CategoryTreeOk(FindOrCreateCategoryIn(t, hcode, name, parentId).tables)
  {
    var f := FindOrCreateCategoryIn(t, hcode, name, parentId);
    if f.created {
      var u := f.tables;
      forall h | h in u.categories
        ensures ParentLinked(u.categories, h)
      {
        if h != hcode {
          assert ParentLinked(t.categories, h);
        }
      }
    }
  }

  /** The database: a mutable holder of the tables, with one method per
      `findOrCreate`/`update` call the reconciler makes. */
  class Database {
    var accounts: map<AccountKey, Account>
    var sellers: map<nat, Seller>
    var categories: map<string, CategoryRow>
    var services: map<ServiceKey, SellerService>
    var locations: map<nat, ServiceLocation>
    var nextId: nat

    /** The current contents of all tables. */
    function Snapshot(): Tables
      reads this
    {
      Tables(accounts, sellers, categories, services, locations, nextId)
    }

    constructor (initial: Tables)
      ensures Snapshot() == initial
    {
      accounts, sellers, categories := initial.accounts, initial.sellers, initial.categories;
      services, locations, nextId := initial.services, initial.locations, initial.nextId;
    }

    method FindOrCreateAccount(key: AccountKey, fullname: string, mobile: string, lastLocation: string, roles: Roles)
      returns (row: Account, created: bool)
      modifies this
      ensures Found(Snapshot(), row, created) == FindOrCreateAccountIn(old(Snapshot()), key, fullname, mobile, lastLocation, roles)
    {
      if key in accounts {
        row, created := accounts[key], false;
      } else {
        row := Account(nextId, fullname, mobile, lastLocation, roles, key.source, key.sourceId);
        accounts := accounts[key := row];
        nextId := nextId + 1;
        created := true;
      }
    }

    method UpdateAccount(key: AccountKey, fullname: string, mobile: string, lastLocation: string)
      requires key in accounts
      modifies this
      ensures Snapshot() == UpdateAccountIn(old(Snapshot()), key, fullname, mobile, lastLocation)
    {
      accounts := accounts[key := accounts[key].(fullname := fullname, mobile := mobile, lastLocation := lastLocation)];
    }

    method FindOrCreateSeller(userAccountId: nat, fullname: string) returns (row: Seller, created: bool)
      modifies this
      ensures Found(Snapshot(), row, created) == FindOrCreateSellerIn(old(Snapshot()), userAccountId, fullname)
    {
      if userAccountId in sellers {
        row, created := sellers[userAccountId], false;
      } else {
        row := Seller(nextId, userAccountId, fullname);
        sellers := sellers[userAccountId := row];
        nextId := nextId + 1;
        created := true;
      }
    }

    method FindOrCreateCategory(hcode: string, name: string, parentId: Option<nat>) returns (row: CategoryRow, created: bool)
      modifies this
      ensures Found(Snapshot(), row, created) == FindOrCreateCategoryIn(old(Snapshot()), hcode, name, parentId)
    {
      if hcode in categories {
        row, created := categories[hcode], false;
      } else {
        row := CategoryRow(nextId, name, parentId, hcode);
        categories := categories[hcode := row];
        nextId := nextId + 1;
        created := true;
      }
    }

    method FindOrCreateService(key: ServiceKey, coordinates: string) returns (row: SellerService, created: bool)
      modifies this
      ensures Found(Snapshot(), row, created) == FindOrCreateServiceIn(old(Snapshot()), key, coordinates)
    {
      if key in services {
        row, created := services[key], false;
      } else {
        row := SellerService(nextId, key.sellerId, key.categoryId, key.name, None, coordinates);
        services := services[key := row];
        nextId := nextId + 1;
        created := true;
      }
    }

    method FindOrCreateLocation(sellerServiceId: nat, latitude: string, longitude: string)
      returns (row: ServiceLocation, created: bool)
      modifies this
      ensures Found(Snapshot(), row, created) == FindOrCreateLocationIn(old(Snapshot()), sellerServiceId, latitude, longitude)
    {
      if sellerServiceId in locations {
        row, created := locations[sellerServiceId], false;
      } else {
        row := ServiceLocation(nextId, sellerServiceId, latitude, longitude);
        locations := locations[sellerServiceId := row];
        nextId := nextId + 1;
        created := true;
      }
    }
  }
}
