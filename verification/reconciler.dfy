/** The hierarchy reconciler, `saveArtisansToDB` in
    services/vishwakarmaService.js: every provider record is upserted into
    accounts, sellers, the three-level category tree, seller services and
    service locations, keyed by natural keys.

    The functions ending in `In` say what one step does to the tables; the
    methods below them are the nested loops of the source, each proved to
    have exactly the effect of its function. */
module Reconciler {
  import opened JsValues
  import opened Hcode
  import opened Partner
  import opened Store

  /** Where a record's services are attached: its seller and coordinates. */
  datatype Owner = Owner(sellerId: nat, lattitude: string, longitude: string)

  /** The tables after part of one record, and whether that part ran to
      its end (`ok == false`: it threw and the rest of the record was
      abandoned; the rows written before the throw stay). */
  datatype Step = Step(tables: Tables, ok: bool)

  /** The `${lattitude},${longitude}` text stored as a location. */
  function Coordinates(lattitude: string, longitude: string): string {
    lattitude + "," + longitude
  }

  // Where a record throws. Reading the id of a null subcategory or service
  // entry is a TypeError; a null category entry is skipped by its guard.

  predicate ServicesOk(srvs: seq<Option<ServiceEntry>>) {
    forall i :: 0 <= i < |srvs| ==> srvs[i].Some?
  }

  predicate SubCategoryOk(sub: SubCategoryEntry) {
    sub.serviceSubCategoryId != 0 && sub.service.Some? ==> ServicesOk(sub.service.value)
  }

  predicate SubCategoriesOk(subs: seq<Option<SubCategoryEntry>>) {
    forall i :: 0 <= i < |subs| ==> subs[i].Some? && SubCategoryOk(subs[i].value)
  }

  predicate CategoryOk(cat: Option<CategoryEntry>) {
    cat.Some? && cat.value.serviceCategoryId != 0 && cat.value.serviceSubCategory.Some? ==>
      SubCategoriesOk(cat.value.serviceSubCategory.value)
  }

  predicate CategoriesOk(cats: seq<Option<CategoryEntry>>) {
    forall i :: 0 <= i < |cats| ==> CategoryOk(cats[i])
  }

  lemma ServicesOkTail(srvs: seq<Option<ServiceEntry>>)
    requires |srvs| > 0 && srvs[0].Some?
    ensures ServicesOk(srvs) == ServicesOk(srvs[1..])
  {
    assert forall i :: 0 < i < |srvs| ==> srvs[i] == srvs[1..][i - 1];
  }

  /** One service of a subcategory: its leaf category, the seller service
      tagged with it, and that service's location. */
  function SaveServiceIn(t: Tables, o: Owner, subCode: string, subId: nat, srv: ServiceEntry): (u: Tables)
    ensures u.accounts == t.accounts && u.sellers == t.sellers
  {
    var leaf := FindOrCreateCategoryIn(t, ChildCode(subCode, srv.serviceId), srv.serviceName, Some(subId));
    var ss := FindOrCreateServiceIn(leaf.tables, ServiceKey(o.sellerId, leaf.row.id, srv.serviceName), Coordinates(o.lattitude, o.longitude));
    FindOrCreateLocationIn(ss.tables, ss.row.id, o.lattitude, o.longitude).tables
  }

  function SaveServicesIn(t: Tables, o: Owner, subCode: string, subId: nat, srvs: seq<Option<ServiceEntry>>): (s: Step)
    ensures s.tables.accounts == t.accounts && s.tables.sellers == t.sellers
    decreases |srvs|
  {
    if |srvs| == 0 then Step(t, true)
    else match srvs[0]
      case None => Step(t, false)
      case Some(srv) =>
        var t1 := if srv.serviceId == 0 then t else SaveServiceIn(t, o, subCode, subId, srv);
        SaveServicesIn(t1, o, subCode, subId, srvs[1..])
  }

  function SaveSubCategoryIn(t: Tables, o: Owner, rootCode: string, rootId: nat, sub: SubCategoryEntry): (s: Step)
    requires sub.serviceSubCategoryId != 0
    ensures s.tables.accounts == t.accounts && s.tables.sellers == t.sellers
  {
    var code := ChildCode(rootCode, sub.serviceSubCategoryId);
    var f := FindOrCreateCategoryIn(t, code, sub.subCategoryName, Some(rootId));
    match sub.service
    case None => Step(f.tables, true)
    case Some(srvs) => SaveServicesIn(f.tables, o, code, f.row.id, srvs)
  }

  function SaveSubCategoriesIn(t: Tables, o: Owner, rootCode: string, rootId: nat, subs: seq<Option<SubCategoryEntry>>): (s: Step)
    ensures s.tables.accounts == t.accounts && s.tables.sellers == t.sellers
    decreases |subs|
  {
    if |subs| == 0 then Step(t, true)
    else match subs[0]
      case None => Step(t, false)
      case Some(sub) =>
        if sub.serviceSubCategoryId == 0 then SaveSubCategoriesIn(t, o, rootCode, rootId, subs[1..])
        else
          var s1 := SaveSubCategoryIn(t, o, rootCode, rootId, sub);
          if !s1.ok then s1 else SaveSubCategoriesIn(s1.tables, o, rootCode, rootId, subs[1..])
  }

  function SaveCategoryIn(t: Tables, o: Owner, cat: CategoryEntry): (s: Step)
    requires cat.serviceCategoryId != 0
    ensures s.tables.accounts == t.accounts && s.tables.sellers == t.sellers
  {
    var code := RootCode(cat.serviceCategoryId);
    var f := FindOrCreateCategoryIn(t, code, cat.serviceCategoryName, None);
    match cat.serviceSubCategory
    case None => Step(f.tables, true)
    case Some(subs) => SaveSubCategoriesIn(f.tables, o, code, f.row.id, subs)
  }

  function SaveCategoriesIn(t: Tables, o: Owner, cats: seq<Option<CategoryEntry>>): (s: Step)
    ensures s.tables.accounts == t.accounts && s.tables.sellers == t.sellers
    decreases |cats|
  {
    if |cats| == 0 then Step(t, true)
    else
      if cats[0].None? || cats[0].value.serviceCategoryId == 0 then SaveCategoriesIn(t, o, cats[1..])
      else
        var s1 := SaveCategoryIn(t, o, cats[0].value);
        if !s1.ok then s1 else SaveCategoriesIn(s1.tables, o, cats[1..])
  }

  /** A `serviceCategory` that is not an array is processed as a one-element
      list (a null one then contributes nothing). */
  function CategoryList(blob: CategoryBlob): seq<Option<CategoryEntry>> {
    match blob
    case Many(entries) => entries
    case One(entry) => [entry]
  }

  /** The natural key of a record's account: `('VISHWAKARMA', String(artisanId))`. */
  function AccountKeyOf(a: Artisan): AccountKey {
    AccountKey(VishwakarmaSource, a.artisanId)
  }

  /** The tables after one record, and whether its account was created. */
  datatype ArtisanStep = ArtisanStep(tables: Tables, created: bool)

  /** The account step of a record: find or create the account under the
      record's key, and refresh an existing one. */
  function AccountStepIn(t: Tables, a: Artisan): Found<Account> {
    var key := AccountKeyOf(a);
    var location := Coordinates(a.lattitude, a.longitude);
    var acc := FindOrCreateAccountIn(t, key, a.artisanName, a.contactNo, location, ArtisanRoles);
    if acc.created then acc
    else Found(UpdateAccountIn(acc.tables, key, a.artisanName, a.contactNo, location), acc.row, false)
  }

  /** One iteration of the record loop. An exception inside the category
      walk is caught, so a record always yields an `ArtisanStep`. */
  function SaveArtisanIn(t: Tables, a: Artisan): (r: ArtisanStep)
    ensures r.created <==> AccountKeyOf(a) !in t.accounts
    ensures r.tables.accounts.Keys == t.accounts.Keys + {AccountKeyOf(a)}
  {
    var acc := AccountStepIn(t, a);
    var seller := FindOrCreateSellerIn(acc.tables, acc.row.id, a.artisanName);
    var s := SaveCategoriesIn(seller.tables, Owner(seller.row.id, a.lattitude, a.longitude), CategoryList(a.serviceCategory));
    ArtisanStep(s.tables, acc.created)
  }

  /** The tables after a list of records, and the two counters. */
  datatype Saved = Saved(tables: Tables, inserted: nat, updated: nat)

  /** The whole of `saveArtisansToDB`: existing rows are kept (accounts only
      have their name, mobile and location refreshed). */
  function SaveAllIn(t: Tables, artisans: seq<Artisan>): (r: Saved)
    decreases |artisans|
  {
    if |artisans| == 0 then Saved(t, 0, 0)
    else
      var first := SaveArtisanIn(t, artisans[0]);
      var rest := SaveAllIn(first.tables, artisans[1..]);
      if first.created then Saved(rest.tables, rest.inserted + 1, rest.updated)
      else Saved(rest.tables, rest.inserted, rest.updated + 1)
  }

  // ------------------------------------------------------------------
  // The loops of the source, against the database object.

  method SaveServices(db: Database, o: Owner, subCode: string, subId: nat, srvs: seq<Option<ServiceEntry>>)
    returns (ok: bool)
    modifies db
    ensures Step(db.Snapshot(), ok) == SaveServicesIn(old(db.Snapshot()), o, subCode, subId, srvs)
  {
    for i := 0 to |srvs|
      invariant SaveServicesIn(db.Snapshot(), o, subCode, subId, srvs[i..]) == SaveServicesIn(old(db.Snapshot()), o, subCode, subId, srvs)
    {
      assert srvs[i..][1..] == srvs[i + 1..];
      match srvs[i]
      case None =>
        return false;
      case Some(srv) =>
        if srv.serviceId != 0 {
          var leaf, _ := db.FindOrCreateCategory(ChildCode(subCode, srv.serviceId), srv.serviceName, Some(subId));
          var ss, _ := db.FindOrCreateService(ServiceKey(o.sellerId, leaf.id, srv.serviceName), Coordinates(o.lattitude, o.longitude));
          var _, _ := db.FindOrCreateLocation(ss.id, o.lattitude, o.longitude);
        }
    }
    assert srvs[|srvs|..] == [];
    return true;
  }

  method SaveSubCategories(db: Database, o: Owner, rootCode: string, rootId: nat, subs: seq<Option<SubCategoryEntry>>)
    returns (ok: bool)
    modifies db
    ensures Step(db.Snapshot(), ok) == SaveSubCategoriesIn(old(db.Snapshot()), o, rootCode, rootId, subs)
  {
    for i := 0 to |subs|
      invariant SaveSubCategoriesIn(db.Snapshot(), o, rootCode, rootId, subs[i..]) == SaveSubCategoriesIn(old(db.Snapshot()), o, rootCode, rootId, subs)
    {
      assert subs[i..][1..] == subs[i + 1..];
      match subs[i]
      case None =>
        return false;
      case Some(sub) =>
        if sub.serviceSubCategoryId != 0 {
          var code := ChildCode(rootCode, sub.serviceSubCategoryId);
          var subRow, _ := db.FindOrCreateCategory(code, sub.subCategoryName, Some(rootId));
          match sub.service
          case None =>
          case Some(srvs) =>
            var servicesOk := SaveServices(db, o, code, subRow.id, srvs);
            if !servicesOk {
              return false;
            }
        }
    }
    assert subs[|subs|..] == [];
    return true;
  }

  method SaveCategories(db: Database, o: Owner, cats: seq<Option<CategoryEntry>>) returns (ok: bool)
    modifies db
    ensures Step(db.Snapshot(), ok) == SaveCategoriesIn(old(db.Snapshot()), o, cats)
  {
    for i := 0 to |cats|
      invariant SaveCategoriesIn(db.Snapshot(), o, cats[i..]) == SaveCategoriesIn(old(db.Snapshot()), o, cats)
    {
      assert cats[i..][1..] == cats[i + 1..];
      if cats[i].Some? && cats[i].value.serviceCategoryId != 0 {
        var cat := cats[i].value;
        var code := RootCode(cat.serviceCategoryId);
        var rootRow, _ := db.FindOrCreateCategory(code, cat.serviceCategoryName, None);
        match cat.serviceSubCategory
        case None =>
        case Some(subs) =>
          var subsOk := SaveSubCategories(db, o, code, rootRow.id, subs);
          if !subsOk {
            return false;
          }
      }
    }
    assert cats[|cats|..] == [];
    return true;
  }

  /** One record: the account (created, or refreshed), the seller, then the
      category walk, whose exception is caught and only logged. */
  method SaveArtisan(db: Database, a: Artisan) returns (created: bool)
    modifies db
    ensures ArtisanStep(db.Snapshot(), created) == SaveArtisanIn(old(db.Snapshot()), a)
  {
    var key := AccountKeyOf(a);
    var location := Coordinates(a.lattitude, a.longitude);
    var account;
    account, created := db.FindOrCreateAccount(key, a.artisanName, a.contactNo, location, ArtisanRoles);
    if !created {
      db.UpdateAccount(key, a.artisanName, a.contactNo, location);
    }
    var seller, _ := db.FindOrCreateSeller(account.id, a.artisanName);
    var _ := SaveCategories(db, Owner(seller.id, a.lattitude, a.longitude), CategoryList(a.serviceCategory));
  }

  /** The list a possibly null `artisans` argument stands for. */
  function ListOrEmpty(artisans: Option<seq<Artisan>>): seq<Artisan> {
    if artisans.Some? then artisans.value else []
  }

  /** `saveArtisansToDB(artisans)`; `None` is a null or undefined argument. */
  method SaveArtisansToDB(db: Database, artisansArg: Option<seq<Artisan>>) returns (inserted: nat, updated: nat)
    modifies db
    ensures Saved(db.Snapshot(), inserted, updated) == SaveAllIn(old(db.Snapshot()), ListOrEmpty(artisansArg))
  {
    if artisansArg.None? || |artisansArg.value| == 0 {
      return 0, 0;
    }
    var artisans := artisansArg.value;
    inserted, updated := 0, 0;
    ghost var total := SaveAllIn(db.Snapshot(), artisans);
    for i := 0 to |artisans|
      invariant SaveAllIn(db.Snapshot(), artisans[i..]).tables == total.tables
      invariant inserted + SaveAllIn(db.Snapshot(), artisans[i..]).inserted == total.inserted
      invariant updated + SaveAllIn(db.Snapshot(), artisans[i..]).updated == total.updated
    {
      assert artisans[i..][1..] == artisans[i + 1..];
      var created := SaveArtisan(db, artisans[i]);
      if created {
        inserted := inserted + 1;
      } else {
        updated := updated + 1;
      }
    }
    assert artisans[|artisans|..] == [];
  }

  // ------------------------------------------------------------------
  // Counters.

  /** The account keys of a list of records. */
  function AccountKeys(artisans: seq<Artisan>): set<AccountKey> {
    set i | 0 <= i < |artisans| :: AccountKeyOf(artisans[i])
  }

  /** An empty list changes nothing and reports nothing. */
  lemma SaveNothing(t: Tables, artisansArg: Option<seq<Artisan>>)
    requires artisansArg.None? || artisansArg.value == []
    ensures SaveAllIn(t, ListOrEmpty(artisansArg)) == Saved(t, 0, 0)
  {
  }

  lemma AccountKeysCons(artisans: seq<Artisan>)
    requires |artisans| > 0
    ensures AccountKeys(artisans) == {AccountKeyOf(artisans[0])} + AccountKeys(artisans[1..])
  {
    var tail := artisans[1..];
    forall x | x in AccountKeys(artisans) ensures x in {AccountKeyOf(artisans[0])} + AccountKeys(tail) {
      var i :| 0 <= i < |artisans| && x == AccountKeyOf(artisans[i]);
      if i > 0 {
        assert x == AccountKeyOf(tail[i - 1]);
      }
    }
    forall x | x in AccountKeys(tail) ensures x in AccountKeys(artisans) {
      var i :| 0 <= i < |tail| && x == AccountKeyOf(tail[i]);
      assert x == AccountKeyOf(artisans[i + 1]);
    }
  }

  /** Counting new keys one record at a time. */
  lemma NewKeysCons(k: AccountKey, rest: set<AccountKey>, known: set<AccountKey>, created: bool, n: nat)
    requires created <==> k !in known
    requires n == |rest - (known + {k})|
    ensures n + (if created then 1 else 0) == |({k} + rest) - known|
  {
    if k !in known {
      assert ({k} + rest) - known == {k} + (rest - (known + {k}));
    } else {
      assert ({k} + rest) - known == rest - (known + {k});
    }
  }

  /** Every record moves exactly one counter, even one whose category walk
      throws. */
  lemma {:induction false} SaveAllCounts(t: Tables, artisans: seq<Artisan>)
    ensures SaveAllIn(t, artisans).inserted + SaveAllIn(t, artisans).updated == |artisans|
    decreases |artisans|
  {
    if |artisans| > 0 {
      SaveAllCounts(SaveArtisanIn(t, artisans[0]).tables, artisans[1..]);
    }
  }

  /** The accounts after a run are the old ones plus one per record key. */
  lemma {:induction false} SaveAllKeys(t: Tables, artisans: seq<Artisan>)
    ensures SaveAllIn(t, artisans).tables.accounts.Keys == t.accounts.Keys + AccountKeys(artisans)
    decreases |artisans|
  {
    if |artisans| > 0 {
      SaveAllKeys(SaveArtisanIn(t, artisans[0]).tables, artisans[1..]);
      AccountKeysCons(artisans);
    } else {
      assert AccountKeys(artisans) == {};
    }
  }

  /** `inserted` is the number of distinct record keys that had no account
      before the run: a key repeated in the list is inserted once. */
  lemma {:induction false} SaveAllInserted(t: Tables, artisans: seq<Artisan>)
    ensures SaveAllIn(t, artisans).inserted == |AccountKeys(artisans) - t.accounts.Keys|
    decreases |artisans|
  {
    if |artisans| > 0 {
      var first := SaveArtisanIn(t, artisans[0]);
      var tail := artisans[1..];
      var rest := SaveAllIn(first.tables, tail);
      SaveAllInserted(first.tables, tail);
      NewKeysCons(AccountKeyOf(artisans[0]), AccountKeys(tail), t.accounts.Keys, first.created, rest.inserted);
      AccountKeysCons(artisans);
    } else {
      assert AccountKeys(artisans) == {};
    }
  }

  /** What a record does to its account and seller: the three refreshed
      fields always carry the record's values; an existing account keeps its
      id, roles and source key; a new one is an ARTISAN account with the
      next id; and the account has a seller. This holds even when the
      record's category walk throws. */
  lemma SaveArtisanRefreshesAccount(t: Tables, a: Artisan)
    ensures var u := SaveArtisanIn(t, a).tables;
      var k := AccountKeyOf(a);
      && u.accounts[k].fullname == a.artisanName
      && u.accounts[k].mobile == a.contactNo
      && u.accounts[k].lastLocation == Coordinates(a.lattitude, a.longitude)
      && (k in t.accounts ==> SameIdentity(t.accounts[k], u.accounts[k]))
      && (k !in t.accounts ==>
            && u.accounts[k].id == t.nextId
            && u.accounts[k].roles == ArtisanRoles
            && u.accounts[k].source == VishwakarmaSource
            && u.accounts[k].sourceId == a.artisanId)
      && u.accounts[k].id in u.sellers
  {
  }

  // ------------------------------------------------------------------
  // Where a record throws.

  lemma SubCategoriesOkTail(subs: seq<Option<SubCategoryEntry>>)
    requires |subs| > 0 && subs[0].Some?
    ensures SubCategoriesOk(subs) == (SubCategoryOk(subs[0].value) && SubCategoriesOk(subs[1..]))
  {
    assert forall i :: 0 < i < |subs| ==> subs[i] == subs[1..][i - 1];
  }

  lemma CategoriesOkTail(cats: seq<Option<CategoryEntry>>)
    requires |cats| > 0
    ensures CategoriesOk(cats) == (CategoryOk(cats[0]) && CategoriesOk(cats[1..]))
  {
    assert forall i :: 0 < i < |cats| ==> cats[i] == cats[1..][i - 1];
  }

  /** The services of a subcategory run to the end exactly when none of
      them is null. */
  lemma {:induction false} SaveServicesOk(t: Tables, o: Owner, subCode: string, subId: nat, srvs: seq<Option<ServiceEntry>>)
    ensures SaveServicesIn(t, o, subCode, subId, srvs).ok == ServicesOk(srvs)
    decreases |srvs|
  {
    if |srvs| > 0 && srvs[0].Some? {
      var srv := srvs[0].value;
      var t1 := if srv.serviceId == 0 then t else SaveServiceIn(t, o, subCode, subId, srv);
      ServicesOkTail(srvs);
      SaveServicesOk(t1, o, subCode, subId, srvs[1..]);
    }
  }

  lemma SaveSubCategoryOk(t: Tables, o: Owner, rootCode: string, rootId: nat, sub: SubCategoryEntry)
    requires sub.serviceSubCategoryId != 0
    ensures SaveSubCategoryIn(t, o, rootCode, rootId, sub).ok == SubCategoryOk(sub)
  {
    var code := ChildCode(rootCode, sub.serviceSubCategoryId);
    var f := FindOrCreateCategoryIn(t, code, sub.subCategoryName, Some(rootId));
    if sub.service.Some? {
      SaveServicesOk(f.tables, o, code, f.row.id, sub.service.value);
    }
  }

  lemma {:induction false} SaveSubCategoriesOk(t: Tables, o: Owner, rootCode: string, rootId: nat, subs: seq<Option<SubCategoryEntry>>)
    ensures SaveSubCategoriesIn(t, o, rootCode, rootId, subs).ok == SubCategoriesOk(subs)
    decreases |subs|
  {
    if |subs| > 0 && subs[0].Some? {
      var sub := subs[0].value;
      SubCategoriesOkTail(subs);
      if sub.serviceSubCategoryId == 0 {
        SaveSubCategoriesOk(t, o, rootCode, rootId, subs[1..]);
      } else {
        var s1 := SaveSubCategoryIn(t, o, rootCode, rootId, sub);
        SaveSubCategoryOk(t, o, rootCode, rootId, sub);
        if s1.ok {
          SaveSubCategoriesOk(s1.tables, o, rootCode, rootId, subs[1..]);
        }
      }
    }
  }

  lemma SaveCategoryOk(t: Tables, o: Owner, cat: CategoryEntry)
    requires cat.serviceCategoryId != 0
    ensures SaveCategoryIn(t, o, cat).ok == CategoryOk(Some(cat))
  {
    var code := RootCode(cat.serviceCategoryId);
    var f := FindOrCreateCategoryIn(t, code, cat.serviceCategoryName, None);
    if cat.serviceSubCategory.Some? {
      SaveSubCategoriesOk(f.tables, o, code, f.row.id, cat.serviceSubCategory.value);
    }
  }

  /** A record's category walk runs to the end exactly when no category it
      enters holds a null subcategory or a null service; null categories
      and falsy ids never make it throw. */
  lemma {:induction false} SaveCategoriesOk(t: Tables, o: Owner, cats: seq<Option<CategoryEntry>>)
    ensures SaveCategoriesIn(t, o, cats).ok == CategoriesOk(cats)
    decreases |cats|
  {
    if |cats| > 0 {
      CategoriesOkTail(cats);
      if cats[0].None? || cats[0].value.serviceCategoryId == 0 {
        SaveCategoriesOk(t, o, cats[1..]);
      } else {
        var s1 := SaveCategoryIn(t, o, cats[0].value);
        SaveCategoryOk(t, o, cats[0].value);
        if s1.ok {
          SaveCategoriesOk(s1.tables, o, cats[1..]);
        }
      }
    }
  }

  // ------------------------------------------------------------------
  // Nothing is ever deleted: every step only adds rows, and an existing
  // account only has its three refreshed fields rewritten.

  lemma GrowsReflexive(t: Tables)
    ensures Grows(t, t)
  {
  }

  lemma SaveServiceGrows(t: Tables, o: Owner, subCode: string, subId: nat, srv: ServiceEntry)
    ensures Grows(t, SaveServiceIn(t, o, subCode, subId, srv))
  {
    var leaf := FindOrCreateCategoryIn(t, ChildCode(subCode, srv.serviceId), srv.serviceName, Some(subId));
    var ss := FindOrCreateServiceIn(leaf.tables, ServiceKey(o.sellerId, leaf.row.id, srv.serviceName), Coordinates(o.lattitude, o.longitude));
    var loc := FindOrCreateLocationIn(ss.tables, ss.row.id, o.lattitude, o.longitude);
    assert Grows(t, leaf.tables);
    assert Grows(leaf.tables, ss.tables);
    assert Grows(ss.tables, loc.tables);
    GrowsTransitive(t, leaf.tables, ss.tables);
    GrowsTransitive(t, ss.tables, loc.tables);
  }

  lemma {:induction false} SaveServicesGrows(t: Tables, o: Owner, subCode: string, subId: nat, srvs: seq<Option<ServiceEntry>>)
    ensures Grows(t, SaveServicesIn(t, o, subCode, subId, srvs).tables)
    decreases |srvs|
  {
    if |srvs| > 0 && srvs[0].Some? {
      var srv := srvs[0].value;
      var t1 := if srv.serviceId == 0 then t else SaveServiceIn(t, o, subCode, subId, srv);
      if srv.serviceId == 0 {
        GrowsReflexive(t);
      } else {
        SaveServiceGrows(t, o, subCode, subId, srv);
      }
      SaveServicesGrows(t1, o, subCode, subId, srvs[1..]);
      GrowsTransitive(t, t1, SaveServicesIn(t1, o, subCode, subId, srvs[1..]).tables);
    } else {
      GrowsReflexive(t);
    }
  }

  lemma SaveSubCategoryGrows(t: Tables, o: Owner, rootCode: string, rootId: nat, sub: SubCategoryEntry)
    requires sub.serviceSubCategoryId != 0
    ensures Grows(t, SaveSubCategoryIn(t, o, rootCode, rootId, sub).tables)
  {
    var code := ChildCode(rootCode, sub.serviceSubCategoryId);
    var f := FindOrCreateCategoryIn(t, code, sub.subCategoryName, Some(rootId));
    assert Grows(t, f.tables);
    if sub.service.Some? {
      SaveServicesGrows(f.tables, o, code, f.row.id, sub.service.value);
      GrowsTransitive(t, f.tables, SaveServicesIn(f.tables, o, code, f.row.id, sub.service.value).tables);
    }
  }

  lemma {:induction false} SaveSubCategoriesGrows(t: Tables, o: Owner, rootCode: string, rootId: nat, subs: seq<Option<SubCategoryEntry>>)
    ensures Grows(t, SaveSubCategoriesIn(t, o, rootCode, rootId, subs).tables)
    decreases |subs|
  {
    if |subs| > 0 && subs[0].Some? {
      var sub := subs[0].value;
      if sub.serviceSubCategoryId == 0 {
        SaveSubCategoriesGrows(t, o, rootCode, rootId, subs[1..]);
      } else {
        var s1 := SaveSubCategoryIn(t, o, rootCode, rootId, sub);
        SaveSubCategoryGrows(t, o, rootCode, rootId, sub);
        if s1.ok {
          SaveSubCategoriesGrows(s1.tables, o, rootCode, rootId, subs[1..]);
          GrowsTransitive(t, s1.tables, SaveSubCategoriesIn(s1.tables, o, rootCode, rootId, subs[1..]).tables);
        }
      }
    } else {
      GrowsReflexive(t);
    }
  }

  lemma SaveCategoryGrows(t: Tables, o: Owner, cat: CategoryEntry)
    requires cat.serviceCategoryId != 0
    ensures Grows(t, SaveCategoryIn(t, o, cat).tables)
  {
    var code := RootCode(cat.serviceCategoryId);
    var f := FindOrCreateCategoryIn(t, code, cat.serviceCategoryName, None);
    assert Grows(t, f.tables);
    if cat.serviceSubCategory.Some? {
      SaveSubCategoriesGrows(f.tables, o, code, f.row.id, cat.serviceSubCategory.value);
      GrowsTransitive(t, f.tables, SaveSubCategoriesIn(f.tables, o, code, f.row.id, cat.serviceSubCategory.value).tables);
    }
  }

  lemma {:induction false} SaveCategoriesGrows(t: Tables, o: Owner, cats: seq<Option<CategoryEntry>>)
    ensures Grows(t, SaveCategoriesIn(t, o, cats).tables)
    decreases |cats|
  {
    if |cats| > 0 {
      if cats[0].None? || cats[0].value.serviceCategoryId == 0 {
        SaveCategoriesGrows(t, o, cats[1..]);
      } else {
        var s1 := SaveCategoryIn(t, o, cats[0].value);
        SaveCategoryGrows(t, o, cats[0].value);
        if s1.ok {
          SaveCategoriesGrows(s1.tables, o, cats[1..]);
          GrowsTransitive(t, s1.tables, SaveCategoriesIn(s1.tables, o, cats[1..]).tables);
        }
      }
    } else {
      GrowsReflexive(t);
    }
  }

  lemma SaveArtisanGrows(t: Tables, a: Artisan)
    ensures Grows(t, SaveArtisanIn(t, a).tables)
  {
    var acc := AccountStepIn(t, a);
    assert Grows(t, acc.tables);
    var seller := FindOrCreateSellerIn(acc.tables, acc.row.id, a.artisanName);
    assert Grows(acc.tables, seller.tables);
    GrowsTransitive(t, acc.tables, seller.tables);
    var o := Owner(seller.row.id, a.lattitude, a.longitude);
    SaveCategoriesGrows(seller.tables, o, CategoryList(a.serviceCategory));
    GrowsTransitive(t, seller.tables, SaveCategoriesIn(seller.tables, o, CategoryList(a.serviceCategory)).tables);
  }

  /** A run never removes a row nor changes a created row, except the three
      refreshed fields of an account. */
  lemma {:induction false} SaveAllGrows(t: Tables, artisans: seq<Artisan>)
    ensures Grows(t, SaveAllIn(t, artisans).tables)
    decreases |artisans|
  {
    if |artisans| > 0 {
      var first := SaveArtisanIn(t, artisans[0]);
      SaveArtisanGrows(t, artisans[0]);
      SaveAllGrows(first.tables, artisans[1..]);
      GrowsTransitive(t, first.tables, SaveAllIn(first.tables, artisans[1..]).tables);
    } else {
      GrowsReflexive(t);
    }
  }

  // ------------------------------------------------------------------
  // The hierarchy invariant.

  lemma AnchoredGrows(t: Tables, u: Tables, code: string, id: nat)
    requires Anchored(t, code, id) && Grows(t, u)
    ensures Anchored(u, code, id)
  {
  }

  /** Past its leaf category, a service step writes no category row. */
  lemma SaveServiceCategories(t: Tables, o: Owner, subCode: string, subId: nat, srv: ServiceEntry)
    ensures var leaf := FindOrCreateCategoryIn(t, ChildCode(subCode, srv.serviceId), srv.serviceName, Some(subId));
      var u := SaveServiceIn(t, o, subCode, subId, srv);
      u.categories == leaf.tables.categories && leaf.tables.nextId <= u.nextId
  {
  }

  lemma SaveServiceKeepsTree(t: Tables, o: Owner, subCode: string, subId: nat, srv: ServiceEntry)
    requires CategoryTreeOk(t) && Anchored(t, subCode, subId)
    ensures CategoryTreeOk(SaveServiceIn(t, o, subCode, subId, srv))
  {
    var code := ChildCode(subCode, srv.serviceId);
    ChildNamesParent(subCode, srv.serviceId);
    FindOrCreateCategoryKeepsTree(t, code, srv.serviceName, Some(subId));
    SaveServiceCategories(t, o, subCode, subId, srv);
    TreeOkOtherTables(FindOrCreateCategoryIn(t, code, srv.serviceName, Some(subId)).tables, SaveServiceIn(t, o, subCode, subId, srv));
  }

  lemma {:induction false} SaveServicesKeepsTree(t: Tables, o: Owner, subCode: string, subId: nat, srvs: seq<Option<ServiceEntry>>)
    requires CategoryTreeOk(t) && Anchored(t, subCode, subId)
    ensures CategoryTreeOk(SaveServicesIn(t, o, subCode, subId, srvs).tables)
    decreases |srvs|
  {
    if |srvs| > 0 && srvs[0].Some? {
      var srv := srvs[0].value;
      var t1 := if srv.serviceId == 0 then t else SaveServiceIn(t, o, subCode, subId, srv);
      if srv.serviceId != 0 {
        SaveServiceKeepsTree(t, o, subCode, subId, srv);
        SaveServiceGrows(t, o, subCode, subId, srv);
        AnchoredGrows(t, t1, subCode, subId);
      }
      SaveServicesKeepsTree(t1, o, subCode, subId, srvs[1..]);
    }
  }

  lemma SaveSubCategoryKeepsTree(t: Tables, o: Owner, rootCode: string, rootId: nat, sub: SubCategoryEntry)
    requires sub.serviceSubCategoryId != 0
    requires CategoryTreeOk(t) && Anchored(t, rootCode, rootId)
    ensures CategoryTreeOk(SaveSubCategoryIn(t, o, rootCode, rootId, sub).tables)
  {
    var code := ChildCode(rootCode, sub.serviceSubCategoryId);
    ChildNamesParent(rootCode, sub.serviceSubCategoryId);
    FindOrCreateCategoryKeepsTree(t, code, sub.subCategoryName, Some(rootId));
    var f := FindOrCreateCategoryIn(t, code, sub.subCategoryName, Some(rootId));
    if sub.service.Some? {
      SaveServicesKeepsTree(f.tables, o, code, f.row.id, sub.service.value);
    }
  }

  lemma {:induction false} SaveSubCategoriesKeepsTree(t: Tables, o: Owner, rootCode: string, rootId: nat, subs: seq<Option<SubCategoryEntry>>)
    requires CategoryTreeOk(t) && Anchored(t, rootCode, rootId)
    ensures CategoryTreeOk(SaveSubCategoriesIn(t, o, rootCode, rootId, subs).tables)
    decreases |subs|
  {
    if |subs| > 0 && subs[0].Some? {
      var sub := subs[0].value;
      if sub.serviceSubCategoryId == 0 {
        SaveSubCategoriesKeepsTree(t, o, rootCode, rootId, subs[1..]);
      } else {
        var s1 := SaveSubCategoryIn(t, o, rootCode, rootId, sub);
        SaveSubCategoryKeepsTree(t, o, rootCode, rootId, sub);
        if s1.ok {
          SaveSubCategoryGrows(t, o, rootCode, rootId, sub);
          AnchoredGrows(t, s1.tables, rootCode, rootId);
          SaveSubCategoriesKeepsTree(s1.tables, o, rootCode, rootId, subs[1..]);
        }
      }
    }
  }

  lemma SaveCategoryKeepsTree(t: Tables, o: Owner, cat: CategoryEntry)
    requires cat.serviceCategoryId != 0
    requires CategoryTreeOk(t)
    ensures CategoryTreeOk(SaveCategoryIn(t, o, cat).tables)
  {
    var code := RootCode(cat.serviceCategoryId);
    RootHasNoParent(cat.serviceCategoryId);
    FindOrCreateCategoryKeepsTree(t, code, cat.serviceCategoryName, None);
    var f := FindOrCreateCategoryIn(t, code, cat.serviceCategoryName, None);
    if cat.serviceSubCategory.Some? {
      SaveSubCategoriesKeepsTree(f.tables, o, code, f.row.id, cat.serviceSubCategory.value);
    }
  }

  lemma {:induction false} SaveCategoriesKeepsTree(t: Tables, o: Owner, cats: seq<Option<CategoryEntry>>)
    requires CategoryTreeOk(t)
    ensures CategoryTreeOk(SaveCategoriesIn(t, o, cats).tables)
    decreases |cats|
  {
    if |cats| > 0 {
      if cats[0].None? || cats[0].value.serviceCategoryId == 0 {
        SaveCategoriesKeepsTree(t, o, cats[1..]);
      } else {
        var s1 := SaveCategoryIn(t, o, cats[0].value);
        SaveCategoryKeepsTree(t, o, cats[0].value);
        if s1.ok {
          SaveCategoriesKeepsTree(s1.tables, o, cats[1..]);
        }
      }
    }
  }

  lemma SaveArtisanKeepsTree(t: Tables, a: Artisan)
    requires CategoryTreeOk(t)
    ensures CategoryTreeOk(SaveArtisanIn(t, a).tables)
  {
    var acc := AccountStepIn(t, a);
    TreeOkOtherTables(t, acc.tables);
    var seller := FindOrCreateSellerIn(acc.tables, acc.row.id, a.artisanName);
    TreeOkOtherTables(acc.tables, seller.tables);
    SaveCategoriesKeepsTree(seller.tables, Owner(seller.row.id, a.lattitude, a.longitude), CategoryList(a.serviceCategory));
  }

  /** A run keeps the category table a tree: every row sits under its own
      hcode with a distinct id, roots have no parent, and every other row's
      parent is the row whose hcode is its own minus the last segment. */
  lemma {:induction false} SaveAllKeepsTree(t: Tables, artisans: seq<Artisan>)
    requires CategoryTreeOk(t)
    ensures CategoryTreeOk(SaveAllIn(t, artisans).tables)
    decreases |artisans|
  {
    if |artisans| > 0 {
      SaveArtisanKeepsTree(t, artisans[0]);
      SaveAllKeepsTree(SaveArtisanIn(t, artisans[0]).tables, artisans[1..]);
    }
  }

  // ------------------------------------------------------------------
  // Idempotence: a state that already holds everything a run wrote is a
  // fixed point of that run, up to the refreshed account fields.

  lemma SaveServiceStable(t: Tables, o: Owner, subCode: string, subId: nat, srv: ServiceEntry, u: Tables)
    requires Grows(SaveServiceIn(t, o, subCode, subId, srv), u)
    ensures SaveServiceIn(u, o, subCode, subId, srv) == u
  {
    var leaf := FindOrCreateCategoryIn(t, ChildCode(subCode, srv.serviceId), srv.serviceName, Some(subId));
    var ss := FindOrCreateServiceIn(leaf.tables, ServiceKey(o.sellerId, leaf.row.id, srv.serviceName), Coordinates(o.lattitude, o.longitude));
    var loc := FindOrCreateLocationIn(ss.tables, ss.row.id, o.lattitude, o.longitude);
    assert ss.tables.categories == leaf.tables.categories;
    assert loc.tables.services == ss.tables.services;
  }

  lemma {:induction false} SaveServicesStable(t: Tables, o: Owner, subCode: string, subId: nat, srvs: seq<Option<ServiceEntry>>, u: Tables)
    requires Grows(SaveServicesIn(t, o, subCode, subId, srvs).tables, u)
    ensures SaveServicesIn(u, o, subCode, subId, srvs) == Step(u, SaveServicesIn(t, o, subCode, subId, srvs).ok)
    decreases |srvs|
  {
    if |srvs| > 0 && srvs[0].Some? {
      var srv := srvs[0].value;
      var t1 := if srv.serviceId == 0 then t else SaveServiceIn(t, o, subCode, subId, srv);
      var rest := SaveServicesIn(t1, o, subCode, subId, srvs[1..]);
      SaveServicesGrows(t1, o, subCode, subId, srvs[1..]);
      GrowsTransitive(t1, rest.tables, u);
      if srv.serviceId != 0 {
        SaveServiceStable(t, o, subCode, subId, srv, u);
      }
      SaveServicesStable(t1, o, subCode, subId, srvs[1..], u);
    }
  }

  lemma SaveSubCategoryStable(t: Tables, o: Owner, rootCode: string, rootId: nat, sub: SubCategoryEntry, u: Tables)
    requires sub.serviceSubCategoryId != 0
    requires Grows(SaveSubCategoryIn(t, o, rootCode, rootId, sub).tables, u)
    ensures SaveSubCategoryIn(u, o, rootCode, rootId, sub) == Step(u, SaveSubCategoryIn(t, o, rootCode, rootId, sub).ok)
  {
    var code := ChildCode(rootCode, sub.serviceSubCategoryId);
    var f := FindOrCreateCategoryIn(t, code, sub.subCategoryName, Some(rootId));
    var s := SaveSubCategoryIn(t, o, rootCode, rootId, sub);
    if sub.service.Some? {
      SaveServicesGrows(f.tables, o, code, f.row.id, sub.service.value);
    } else {
      GrowsReflexive(f.tables);
    }
    GrowsTransitive(f.tables, s.tables, u);
    assert FindOrCreateCategoryIn(u, code, sub.subCategoryName, Some(rootId)) == Found(u, f.row, false);
    if sub.service.Some? {
      SaveServicesStable(f.tables, o, code, f.row.id, sub.service.value, u);
    }
  }

  lemma {:induction false} SaveSubCategoriesStable(t: Tables, o: Owner, rootCode: string, rootId: nat, subs: seq<Option<SubCategoryEntry>>, u: Tables)
    requires Grows(SaveSubCategoriesIn(t, o, rootCode, rootId, subs).tables, u)
    ensures SaveSubCategoriesIn(u, o, rootCode, rootId, subs) == Step(u, SaveSubCategoriesIn(t, o, rootCode, rootId, subs).ok)
    decreases |subs|
  {
    if |subs| > 0 && subs[0].Some? {
      var sub := subs[0].value;
      if sub.serviceSubCategoryId == 0 {
        SaveSubCategoriesStable(t, o, rootCode, rootId, subs[1..], u);
      } else {
        var s1 := SaveSubCategoryIn(t, o, rootCode, rootId, sub);
        if s1.ok {
          var rest := SaveSubCategoriesIn(s1.tables, o, rootCode, rootId, subs[1..]);
          SaveSubCategoriesGrows(s1.tables, o, rootCode, rootId, subs[1..]);
          GrowsTransitive(s1.tables, rest.tables, u);
          SaveSubCategoryStable(t, o, rootCode, rootId, sub, u);
          SaveSubCategoriesStable(s1.tables, o, rootCode, rootId, subs[1..], u);
        } else {
          SaveSubCategoryStable(t, o, rootCode, rootId, sub, u);
        }
      }
    }
  }

  lemma SaveCategoryStable(t: Tables, o: Owner, cat: CategoryEntry, u: Tables)
    requires cat.serviceCategoryId != 0
    requires Grows(SaveCategoryIn(t, o, cat).tables, u)
    ensures SaveCategoryIn(u, o, cat) == Step(u, SaveCategoryIn(t, o, cat).ok)
  {
    var code := RootCode(cat.serviceCategoryId);
    var f := FindOrCreateCategoryIn(t, code, cat.serviceCategoryName, None);
    var s := SaveCategoryIn(t, o, cat);
    if cat.serviceSubCategory.Some? {
      SaveSubCategoriesGrows(f.tables, o, code, f.row.id, cat.serviceSubCategory.value);
    } else {
      GrowsReflexive(f.tables);
    }
    GrowsTransitive(f.tables, s.tables, u);
    assert FindOrCreateCategoryIn(u, code, cat.serviceCategoryName, None) == Found(u, f.row, false);
    if cat.serviceSubCategory.Some? {
      SaveSubCategoriesStable(f.tables, o, code, f.row.id, cat.serviceSubCategory.value, u);
    }
  }

  lemma {:induction false} SaveCategoriesStable(t: Tables, o: Owner, cats: seq<Option<CategoryEntry>>, u: Tables)
    requires Grows(SaveCategoriesIn(t, o, cats).tables, u)
    ensures SaveCategoriesIn(u, o, cats) == Step(u, SaveCategoriesIn(t, o, cats).ok)
    decreases |cats|
  {
    if |cats| > 0 {
      if cats[0].None? || cats[0].value.serviceCategoryId == 0 {
        SaveCategoriesStable(t, o, cats[1..], u);
      } else {
        var s1 := SaveCategoryIn(t, o, cats[0].value);
        if s1.ok {
          var rest := SaveCategoriesIn(s1.tables, o, cats[1..]);
          SaveCategoriesGrows(s1.tables, o, cats[1..]);
          GrowsTransitive(s1.tables, rest.tables, u);
          SaveCategoryStable(t, o, cats[0].value, u);
          SaveCategoriesStable(s1.tables, o, cats[1..], u);
        } else {
          SaveCategoryStable(t, o, cats[0].value, u);
        }
      }
    }
  }

  /** The second time, the account is found and only refreshed. */
  lemma AccountStepStable(t: Tables, a: Artisan, u: Tables)
    requires Grows(AccountStepIn(t, a).tables, u)
    ensures var r := AccountStepIn(u, a);
      !r.created && r.row.id == AccountStepIn(t, a).row.id && Settled(u, r.tables)
  {
  }

  lemma SellerStepGrows(t: Tables, userAccountId: nat, fullname: string)
    ensures Grows(t, FindOrCreateSellerIn(t, userAccountId, fullname).tables)
  {
  }

  /** The second time, the seller is found unchanged. */
  lemma SellerStepStable(t: Tables, userAccountId: nat, fullname: string, u: Tables)
    requires Grows(FindOrCreateSellerIn(t, userAccountId, fullname).tables, u)
    ensures FindOrCreateSellerIn(u, userAccountId, fullname) == Found(u, FindOrCreateSellerIn(t, userAccountId, fullname).row, false)
  {
  }

  lemma SaveArtisanStable(t: Tables, a: Artisan, u: Tables)
    requires Grows(SaveArtisanIn(t, a).tables, u)
    ensures !SaveArtisanIn(u, a).created && Settled(u, SaveArtisanIn(u, a).tables)
  {
    var acc := AccountStepIn(t, a);
    var seller := FindOrCreateSellerIn(acc.tables, acc.row.id, a.artisanName);
    var o := Owner(seller.row.id, a.lattitude, a.longitude);
    var cats := CategoryList(a.serviceCategory);
    var s := SaveCategoriesIn(seller.tables, o, cats);
    SaveCategoriesGrows(seller.tables, o, cats);
    GrowsTransitive(seller.tables, s.tables, u);
    SellerStepGrows(acc.tables, acc.row.id, a.artisanName);
    GrowsTransitive(acc.tables, seller.tables, u);
    AccountStepStable(t, a, u);
    var acc2 := AccountStepIn(u, a);
    SettledGrows(u, acc2.tables);
    GrowsTransitive(s.tables, u, acc2.tables);
    GrowsTransitive(seller.tables, u, acc2.tables);
    SellerStepStable(acc.tables, acc.row.id, a.artisanName, acc2.tables);
    SaveCategoriesStable(seller.tables, o, cats, acc2.tables);
  }

  /** Running a list again on any state that kept what the first run wrote
      creates no row of any table, reports every record as updated, and
      changes nothing but the refreshed account fields. */
  lemma {:induction false} SaveAllStable(t: Tables, artisans: seq<Artisan>, u: Tables)
    requires Grows(SaveAllIn(t, artisans).tables, u)
    ensures SaveAllIn(u, artisans).inserted == 0
    ensures SaveAllIn(u, artisans).updated == |artisans|
    ensures Settled(u, SaveAllIn(u, artisans).tables)
    decreases |artisans|
  {
    if |artisans| > 0 {
      var first := SaveArtisanIn(t, artisans[0]);
      var rest := SaveAllIn(first.tables, artisans[1..]);
      SaveAllGrows(first.tables, artisans[1..]);
      GrowsTransitive(first.tables, rest.tables, u);
      SaveArtisanStable(t, artisans[0], u);
      var u1 := SaveArtisanIn(u, artisans[0]).tables;
      SettledGrows(u, u1);
      GrowsTransitive(rest.tables, u, u1);
      SaveAllStable(first.tables, artisans[1..], u1);
      SettledTransitive(u, u1, SaveAllIn(u1, artisans[1..]).tables);
    }
  }

  /** Processing the same list twice in succession: the second run inserts
      nothing, counts every record as updated, and creates no account,
      seller, category, seller-service or location row. */
  lemma SaveAllIdempotent(t: Tables, artisans: seq<Artisan>)
    ensures var first := SaveAllIn(t, artisans);
      var second := SaveAllIn(first.tables, artisans);
      && second.inserted == 0
      && second.updated == |artisans|
      && Settled(first.tables, second.tables)
  {
    GrowsReflexive(SaveAllIn(t, artisans).tables);
    SaveAllStable(t, artisans, SaveAllIn(t, artisans).tables);
  }

  // ------------------------------------------------------------------
  // Skipping and isolation.

  /** The categories of one record, in order, whose own guard lets them
      through (not null, a truthy id). */
  function Walked(cats: seq<Option<CategoryEntry>>): (w: seq<CategoryEntry>)
    ensures forall i :: 0 <= i < |w| ==> w[i].serviceCategoryId != 0
  {
    if |cats| == 0 then []
    else if cats[0].None? || cats[0].value.serviceCategoryId == 0 then Walked(cats[1..])
    else [cats[0].value] + Walked(cats[1..])
  }

  /** Walking a prepared list of categories: the reference fold that only
      sees entries that pass the guard. */
  function SaveWalkedIn(t: Tables, o: Owner, cats: seq<CategoryEntry>): Step
    requires forall i :: 0 <= i < |cats| ==> cats[i].serviceCategoryId != 0
    decreases |cats|
  {
    if |cats| == 0 then Step(t, true)
    else
      var s1 := SaveCategoryIn(t, o, cats[0]);
      if !s1.ok then s1 else SaveWalkedIn(s1.tables, o, cats[1..])
  }

  /** Null entries and entries with a falsy id are skipped without any
      effect: the walk equals the walk of the entries that pass the guard. */
  lemma {:induction false} SkippedCategoriesIgnored(t: Tables, o: Owner, cats: seq<Option<CategoryEntry>>)
    ensures SaveCategoriesIn(t, o, cats) == SaveWalkedIn(t, o, Walked(cats))
    decreases |cats|
  {
    if |cats| > 0 {
      if cats[0].None? || cats[0].value.serviceCategoryId == 0 {
        SkippedCategoriesIgnored(t, o, cats[1..]);
      } else {
        var s1 := SaveCategoryIn(t, o, cats[0].value);
        var w := Walked(cats);
        assert w[1..] == Walked(cats[1..]);
        if s1.ok {
          SkippedCategoriesIgnored(s1.tables, o, cats[1..]);
        }
      }
    }
  }

  /** Walking two lists one after the other is walking them joined, unless
      the first one throws, in which case the second is never reached. */
  lemma {:induction false} SaveCategoriesAppend(t: Tables, o: Owner, c1: seq<Option<CategoryEntry>>, c2: seq<Option<CategoryEntry>>)
    ensures var s1 := SaveCategoriesIn(t, o, c1);
      SaveCategoriesIn(t, o, c1 + c2) == if s1.ok then SaveCategoriesIn(s1.tables, o, c2) else s1
    decreases |c1|
  {
    if |c1| > 0 {
      assert (c1 + c2)[1..] == c1[1..] + c2;
      if c1[0].None? || c1[0].value.serviceCategoryId == 0 {
        SaveCategoriesAppend(t, o, c1[1..], c2);
      } else {
        var s1 := SaveCategoryIn(t, o, c1[0].value);
        if s1.ok {
          SaveCategoriesAppend(s1.tables, o, c1[1..], c2);
        }
      }
    } else {
      assert c1 + c2 == c2;
    }
  }

  /** Once a category of a record throws, the rest of that record is
      abandoned: later categories have no effect. */
  lemma ThrowAbandonsRecord(t: Tables, o: Owner, c1: seq<Option<CategoryEntry>>, c2: seq<Option<CategoryEntry>>)
    requires !CategoriesOk(c1)
    ensures SaveCategoriesIn(t, o, c1 + c2) == SaveCategoriesIn(t, o, c1)
  {
    SaveCategoriesOk(t, o, c1);
    SaveCategoriesAppend(t, o, c1, c2);
  }

  /** A record does not depend on its predecessors having succeeded: the
      run over `xs + ys` is the run over `ys` from wherever `xs` left the
      tables, with the counters added, whatever threw inside `xs`. */
  lemma {:induction false} SaveAllAppend(t: Tables, xs: seq<Artisan>, ys: seq<Artisan>)
    ensures var r1 := SaveAllIn(t, xs);
      var r2 := SaveAllIn(r1.tables, ys);
      SaveAllIn(t, xs + ys) == Saved(r2.tables, r1.inserted + r2.inserted, r1.updated + r2.updated)
    decreases |xs|
  {
    if |xs| > 0 {
      var first := SaveArtisanIn(t, xs[0]);
      assert (xs + ys)[0] == xs[0];
      assert (xs + ys)[1..] == xs[1..] + ys;
      SaveAllAppend(first.tables, xs[1..], ys);
    } else {
      assert xs + ys == ys;
    }
  }

  // ------------------------------------------------------------------
  // A worked record.

  const Ravi: Artisan := Artisan("501", "Ravi", "9000000001", "26.4", "80.3",
    Many([Some(CategoryEntry(1, "Home", Some([Some(SubCategoryEntry(2, "Repair", Some([Some(ServiceEntry(3, "Plumbing"))])))])))]))

  const EmptyTables: Tables := Tables(map[], map[], map[], map[], map[], 1)

  /** One provider with one root, one subcategory and one service, on an
      empty store: one account, one seller, the categories "1", "1.2" and
      "1.2.3" linked root to leaf, one "Plumbing" service under "1.2.3" and
      one location at the record's coordinates. */
  lemma RaviScenario()
    ensures var r := SaveAllIn(EmptyTables, [Ravi]);
      && r.inserted == 1 && r.updated == 0
      && r.tables.accounts.Keys == {AccountKey("VISHWAKARMA", "501")}
      && |r.tables.sellers| == 1
      && r.tables.categories.Keys == {"1", "1.2", "1.2.3"}
      && r.tables.categories["1"].parentId == None
      && r.tables.categories["1.2"].parentId == Some(r.tables.categories["1"].id)
      && r.tables.categories["1.2.3"].parentId == Some(r.tables.categories["1.2"].id)
      && r.tables.categories["1.2.3"].name == "Plumbing"
      && |r.tables.services| == 1
      && (forall k :: k in r.tables.services ==> k.name == "Plumbing" && k.categoryId == r.tables.categories["1.2.3"].id)
      && |r.tables.locations| == 1
      && (forall k :: k in r.tables.locations ==> r.tables.locations[k].latitude == "26.4" && r.tables.locations[k].longitude == "80.3")
  {
    var key := AccountKey("VISHWAKARMA", "501");
    var account := Account(1, "Ravi", "9000000001", "26.4,80.3", ArtisanRoles, "VISHWAKARMA", "501");
    var seller := Seller(2, 1, "Ravi");
    var root := CategoryRow(3, "Home", None, "1");
    var sub := CategoryRow(4, "Repair", Some(3), "1.2");
    var leaf := CategoryRow(5, "Plumbing", Some(4), "1.2.3");
    var sKey := ServiceKey(2, 5, "Plumbing");
    var service := SellerService(6, 2, 5, "Plumbing", None, "26.4,80.3");
    var location := ServiceLocation(7, 6, "26.4", "80.3");
    var t2 := Tables(map[key := account], map[1 := seller], map[], map[], map[], 3);
    var t3 := t2.(categories := map["1" := root], nextId := 4);
    var t4 := t3.(categories := t3.categories["1.2" := sub], nextId := 5);
    var t5 := t4.(categories := t4.categories["1.2.3" := leaf], nextId := 6);
    var t7 := t5.(services := map[sKey := service], locations := map[6 := location], nextId := 8);
    var o := Owner(2, "26.4", "80.3");
    var srv := ServiceEntry(3, "Plumbing");
    var subEntry := SubCategoryEntry(2, "Repair", Some([Some(srv)]));
    var cat := CategoryEntry(1, "Home", Some([Some(subEntry)]));

    assert DecimalString(1) == "1";
    assert DecimalString(2) == "2";
    assert DecimalString(3) == "3";
    assert RootCode(1) == "1";
    assert ChildCode("1", 2) == "1.2";
    assert ChildCode("1.2", 3) == "1.2.3";
    assert Coordinates("26.4", "80.3") == "26.4,80.3";

    assert AccountStepIn(EmptyTables, Ravi) == Found(EmptyTables.(accounts := map[key := account], nextId := 2), account, true);
    assert FindOrCreateSellerIn(EmptyTables.(accounts := map[key := account], nextId := 2), 1, "Ravi") == Found(t2, seller, true);
    assert SaveServiceIn(t4, o, "1.2", 4, srv) == t7;
    assert SaveServicesIn(t4, o, "1.2", 4, [Some(srv)]) == Step(t7, true);
    assert FindOrCreateCategoryIn(t3, "1.2", "Repair", Some(3)) == Found(t4, sub, true);
    assert SaveSubCategoryIn(t3, o, "1", 3, subEntry) == Step(t7, true);
    assert SaveSubCategoriesIn(t3, o, "1", 3, [Some(subEntry)]) == Step(t7, true);
    assert SaveCategoryIn(t2, o, cat) == Step(t7, true);
    assert SaveCategoriesIn(t2, o, [Some(cat)]) == Step(t7, true);
    assert SaveArtisanIn(EmptyTables, Ravi) == ArtisanStep(t7, true);
    assert [Ravi][1..] == [];
    assert SaveAllIn(EmptyTables, [Ravi]) == Saved(t7, 1, 0);
  }
}
