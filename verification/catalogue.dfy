/** The service catalogue endpoint of controllers/artisanController.js
    (`getServiceCategories`): every `service_category` value stored for the
    artisans is folded into one three-level tree (category, subcategory,
    service), keyed by partner id at every level, and the categories are
    then sorted by name.

    The fold over the stored rows is specified by the functions below, each
    the step of one `forEach`; the endpoint itself is the method
    `GetServiceCategories`, whose loops are proved to compute that fold. */
module Catalogue {
  import opened JsValues
  import opened Partner
  import opened OrderedMerge

  /** A subcategory's services, a category's subcategories, all categories. */
  type Services = seq<Item<()>>
  type Subs = seq<Item<Services>>
  type Cats = seq<Item<Subs>>

  const InternalError := "Internal Server Error"

  /** The JSON body of the reply: `{success: true, count, data}`, or the
      500 reply of the `catch`. */
  datatype CategoriesReply = Listed(count: nat, data: Cats) | ServerError(message: string)

  // ---------------------------------------------------------------------
  // The fold, one `forEach` step at a time.

  /** One service entry: skipped when null or its id is falsy. */
  function AddService(svcs: Services, entry: Option<ServiceEntry>): Services {
    match entry
    case None => svcs
    case Some(s) => if s.serviceId == 0 then svcs else Admit(svcs, s.serviceId, s.serviceName, ())
  }

  function AddServices(svcs: Services, list: seq<Option<ServiceEntry>>): Services
    decreases |list|
  {
    if |list| == 0 then svcs
    else AddService(AddServices(svcs, list[..|list| - 1]), list[|list| - 1])
  }

  /** One subcategory entry: admitted under its id, then its services (when
      `service` is an array) merged into the stored subcategory. */
  function AddSub(subs: Subs, entry: Option<SubCategoryEntry>): Subs {
    match entry
    case None => subs
    case Some(s) =>
      if s.serviceSubCategoryId == 0 then subs
      else
        var r := Admit(subs, s.serviceSubCategoryId, s.subCategoryName, []);
        var k := Find(r, s.serviceSubCategoryId);
        match s.service
        case None => r
        case Some(list) => WithChildren(r, k, AddServices(r[k].children, list))
  }

  function AddSubs(subs: Subs, list: seq<Option<SubCategoryEntry>>): Subs
    decreases |list|
  {
    if |list| == 0 then subs
    else AddSub(AddSubs(subs, list[..|list| - 1]), list[|list| - 1])
  }

  /** One category entry: admitted under its id, then its subcategories
      (when `serviceSubCategory` is an array) merged into the stored one. */
  function AddCategory(cats: Cats, entry: Option<CategoryEntry>): Cats {
    match entry
    case None => cats
    case Some(c) =>
      if c.serviceCategoryId == 0 then cats
      else
        var r := Admit(cats, c.serviceCategoryId, c.serviceCategoryName, []);
        var k := Find(r, c.serviceCategoryId);
        match c.serviceSubCategory
        case None => r
        case Some(list) => WithChildren(r, k, AddSubs(r[k].children, list))
  }

  function AddCategories(cats: Cats, list: seq<Option<CategoryEntry>>): Cats
    decreases |list|
  {
    if |list| == 0 then cats
    else AddCategory(AddCategories(cats, list[..|list| - 1]), list[|list| - 1])
  }

  /** The entries one stored value contributes: an array as it is, a single
      truthy value as a one-element list, a JSON `null` as nothing. */
  function Entries(blob: CategoryBlob): (es: seq<Option<CategoryEntry>>)
    ensures blob.Many? ==> es == blob.entries
    ensures blob.One? ==> |es| <= 1
    ensures blob.One? && blob.entry.Some? ==> es == [blob.entry]
  {
    match blob
    case Many(entries) => entries
    case One(None) => []
    case One(Some(e)) => [Some(e)]
  }

  function MergeRows(cats: Cats, rows: seq<CategoryBlob>): Cats
    decreases |rows|
  {
    if |rows| == 0 then cats
    else AddCategories(MergeRows(cats, rows[..|rows| - 1]), Entries(rows[|rows| - 1]))
  }

  // ---------------------------------------------------------------------
  // The tree stays well formed: at every level ids are unique and truthy.

  predicate ServicesOk(svcs: Services) {
    UniqueIds(svcs) && NonZeroIds(svcs)
  }

  predicate SubsOk(subs: Subs) {
    UniqueIds(subs) && NonZeroIds(subs) && forall i :: 0 <= i < |subs| ==> ServicesOk(subs[i].children)
  }

  predicate CatsOk(cats: Cats) {
    UniqueIds(cats) && NonZeroIds(cats) && forall i :: 0 <= i < |cats| ==> SubsOk(cats[i].children)
  }

  lemma {:induction false} AddServicesOk(svcs: Services, list: seq<Option<ServiceEntry>>)
    requires ServicesOk(svcs)
    ensures ServicesOk(AddServices(svcs, list))
    decreases |list|
  {
    if |list| > 0 {
      var prev := AddServices(svcs, list[..|list| - 1]);
      AddServicesOk(svcs, list[..|list| - 1]);
      match list[|list| - 1]
      case None =>
      case Some(s) => AdmitProperties(prev, s.serviceId, s.serviceName, ());
    }
  }

  lemma AddSubOk(subs: Subs, entry: Option<SubCategoryEntry>)
    requires SubsOk(subs)
    ensures SubsOk(AddSub(subs, entry))
  {
    if entry.Some? && entry.value.serviceSubCategoryId != 0 {
      var s := entry.value;
      var r := Admit(subs, s.serviceSubCategoryId, s.subCategoryName, []);
      AdmitProperties(subs, s.serviceSubCategoryId, s.subCategoryName, []);
      assert SubsOk(r);
      var k := Find(r, s.serviceSubCategoryId);
      if s.service.Some? {
        AddServicesOk(r[k].children, s.service.value);
      }
    }
  }

  lemma {:induction false} AddSubsOk(subs: Subs, list: seq<Option<SubCategoryEntry>>)
    requires SubsOk(subs)
    ensures SubsOk(AddSubs(subs, list))
    decreases |list|
  {
    if |list| > 0 {
      AddSubsOk(subs, list[..|list| - 1]);
      AddSubOk(AddSubs(subs, list[..|list| - 1]), list[|list| - 1]);
    }
  }

  lemma AddCategoryOk(cats: Cats, entry: Option<CategoryEntry>)
    requires CatsOk(cats)
    ensures CatsOk(AddCategory(cats, entry))
  {
    if entry.Some? && entry.value.serviceCategoryId != 0 {
      var c := entry.value;
      var r := Admit(cats, c.serviceCategoryId, c.serviceCategoryName, []);
      AdmitProperties(cats, c.serviceCategoryId, c.serviceCategoryName, []);
      assert CatsOk(r);
      var k := Find(r, c.serviceCategoryId);
      if c.serviceSubCategory.Some? {
        AddSubsOk(r[k].children, c.serviceSubCategory.value);
      }
    }
  }

  lemma {:induction false} AddCategoriesOk(cats: Cats, list: seq<Option<CategoryEntry>>)
    requires CatsOk(cats)
    ensures CatsOk(AddCategories(cats, list))
    decreases |list|
  {
    if |list| > 0 {
      AddCategoriesOk(cats, list[..|list| - 1]);
      AddCategoryOk(AddCategories(cats, list[..|list| - 1]), list[|list| - 1]);
    }
  }

  /** Whatever the stored values, the catalogue has no duplicate and no
      falsy id at any level. */
  lemma {:induction false} MergeRowsOk(cats: Cats, rows: seq<CategoryBlob>)
    requires CatsOk(cats)
    ensures CatsOk(MergeRows(cats, rows))
    decreases |rows|
  {
    if |rows| > 0 {
      MergeRowsOk(cats, rows[..|rows| - 1]);
      AddCategoriesOk(MergeRows(cats, rows[..|rows| - 1]), Entries(rows[|rows| - 1]));
    }
  }

  // ---------------------------------------------------------------------
  // Nothing stored is ever lost or renamed: at every level an entry keeps
  // its position, id and first name; later entries only add children.

  predicate SubsGrow(a: Subs, b: Subs) {
    Extends(a, b) && forall i :: 0 <= i < |a| ==> Extends(a[i].children, b[i].children)
  }

  predicate CatsGrow(a: Cats, b: Cats) {
    Extends(a, b) && forall i :: 0 <= i < |a| ==> SubsGrow(a[i].children, b[i].children)
  }

  lemma {:induction false} AddServicesGrow(svcs: Services, list: seq<Option<ServiceEntry>>)
    ensures Extends(svcs, AddServices(svcs, list))
    decreases |list|
  {
    if |list| > 0 {
      var prev := AddServices(svcs, list[..|list| - 1]);
      AddServicesGrow(svcs, list[..|list| - 1]);
      match list[|list| - 1]
      case None =>
      case Some(s) =>
        AdmitKeepsItems(prev, s.serviceId, s.serviceName, ());
        ExtendsTransitive(svcs, prev, AddServices(svcs, list));
    }
  }

  lemma AddSubGrow(subs: Subs, entry: Option<SubCategoryEntry>)
    ensures SubsGrow(subs, AddSub(subs, entry))
  {
    if entry.Some? && entry.value.serviceSubCategoryId != 0 {
      var s := entry.value;
      AdmitKeepsItems(subs, s.serviceSubCategoryId, s.subCategoryName, []);
      var r := Admit(subs, s.serviceSubCategoryId, s.subCategoryName, []);
      var k := Find(r, s.serviceSubCategoryId);
      if s.service.Some? {
        var svcs := AddServices(r[k].children, s.service.value);
        AddServicesGrow(r[k].children, s.service.value);
        var w := WithChildren(r, k, svcs);
        forall i | 0 <= i < |subs|
          ensures Extends(subs[i].children, w[i].children)
        {
          if i != k {
            assert w[i] == subs[i];
          }
        }
      }
    }
  }

  lemma SubsGrowTransitive(a: Subs, b: Subs, c: Subs)
    requires SubsGrow(a, b) && SubsGrow(b, c)
    ensures SubsGrow(a, c)
  {
    forall i | 0 <= i < |a|
      ensures Extends(a[i].children, c[i].children)
    {
      ExtendsTransitive(a[i].children, b[i].children, c[i].children);
    }
  }

  lemma {:induction false} AddSubsGrow(subs: Subs, list: seq<Option<SubCategoryEntry>>)
    ensures SubsGrow(subs, AddSubs(subs, list))
    decreases |list|
  {
    if |list| > 0 {
      var prev := AddSubs(subs, list[..|list| - 1]);
      AddSubsGrow(subs, list[..|list| - 1]);
      AddSubGrow(prev, list[|list| - 1]);
      SubsGrowTransitive(subs, prev, AddSubs(subs, list));
    }
  }

  lemma AddCategoryGrow(cats: Cats, entry: Option<CategoryEntry>)
    ensures CatsGrow(cats, AddCategory(cats, entry))
  {
    if entry.Some? && entry.value.serviceCategoryId != 0 {
      var c := entry.value;
      AdmitKeepsItems(cats, c.serviceCategoryId, c.serviceCategoryName, []);
      var r := Admit(cats, c.serviceCategoryId, c.serviceCategoryName, []);
      var k := Find(r, c.serviceCategoryId);
      if c.serviceSubCategory.Some? {
        var subs := AddSubs(r[k].children, c.serviceSubCategory.value);
        AddSubsGrow(r[k].children, c.serviceSubCategory.value);
        var w := WithChildren(r, k, subs);
        forall i | 0 <= i < |cats|
          ensures SubsGrow(cats[i].children, w[i].children)
        {
          if i != k {
            assert w[i] == cats[i];
            SubsGrowReflexive(cats[i].children);
          }
        }
      } else {
        forall i | 0 <= i < |cats|
          ensures SubsGrow(cats[i].children, r[i].children)
        {
          SubsGrowReflexive(cats[i].children);
        }
      }
    }
  }

  lemma SubsGrowReflexive(subs: Subs)
    ensures SubsGrow(subs, subs)
  {
  }

  lemma CatsGrowTransitive(a: Cats, b: Cats, c: Cats)
    requires CatsGrow(a, b) && CatsGrow(b, c)
    ensures CatsGrow(a, c)
  {
    forall i | 0 <= i < |a|
      ensures SubsGrow(a[i].children, c[i].children)
    {
      SubsGrowTransitive(a[i].children, b[i].children, c[i].children);
    }
  }

  lemma {:induction false} AddCategoriesGrow(cats: Cats, list: seq<Option<CategoryEntry>>)
    ensures CatsGrow(cats, AddCategories(cats, list))
    decreases |list|
  {
    if |list| > 0 {
      var prev := AddCategories(cats, list[..|list| - 1]);
      AddCategoriesGrow(cats, list[..|list| - 1]);
      AddCategoryGrow(prev, list[|list| - 1]);
      CatsGrowTransitive(cats, prev, AddCategories(cats, list));
    }
  }

  /** Merging more stored values never drops, moves or renames a category,
      a subcategory or a service already in the catalogue. */
  lemma {:induction false} MergeRowsGrow(cats: Cats, rows: seq<CategoryBlob>)
    ensures CatsGrow(cats, MergeRows(cats, rows))
    decreases |rows|
  {
    if |rows| > 0 {
      var prev := MergeRows(cats, rows[..|rows| - 1]);
      MergeRowsGrow(cats, rows[..|rows| - 1]);
      AddCategoriesGrow(prev, Entries(rows[|rows| - 1]));
      CatsGrowTransitive(cats, prev, MergeRows(cats, rows));
    }
  }

  /** Two stored values name category 7 differently: the first name is
      kept, the subcategories of both are merged under it, and an entry
      with a falsy id or a null entry adds nothing. */
  lemma FirstNameWins()
    ensures MergeRows([], [
        One(Some(CategoryEntry(7, "Carpentry", Some([Some(SubCategoryEntry(3, "Doors", None))])))),
        Many([None, Some(CategoryEntry(0, "Nameless", None)),
              Some(CategoryEntry(7, "Woodwork", Some([Some(SubCategoryEntry(4, "Tables", None))])))])])
      == [Item(7, "Carpentry", [Item(3, "Doors", []), Item(4, "Tables", [])])]
  {
    var c1 := CategoryEntry(7, "Carpentry", Some([Some(SubCategoryEntry(3, "Doors", None))]));
    var c2 := CategoryEntry(7, "Woodwork", Some([Some(SubCategoryEntry(4, "Tables", None))]));
    var entries := [None, Some(CategoryEntry(0, "Nameless", None)), Some(c2)];
    var rows := [One(Some(c1)), Many(entries)];
    var first: Cats := [Item(7, "Carpentry", [Item(3, "Doors", [])])];
    FirstStored(c1, first);
    assert rows[..1] == [One(Some(c1))];
    assert MergeRows([], rows) == AddCategories(first, entries);
    SkippedEntries(first, entries[..2]);
    assert entries[..2] == entries[..|entries| - 1];
    SecondStored(first, c2);
  }

  /** The first stored value alone. */
  lemma FirstStored(c1: CategoryEntry, first: Cats)
    requires c1 == CategoryEntry(7, "Carpentry", Some([Some(SubCategoryEntry(3, "Doors", None))]))
    requires first == [Item(7, "Carpentry", [Item(3, "Doors", [])])]
    ensures MergeRows([], [One(Some(c1))]) == first
  {
    assert AddSubs([], [Some(SubCategoryEntry(3, "Doors", None))]) == [Item(3, "Doors", [])];
    assert AddCategory([], Some(c1)) == first;
    assert [One(Some(c1))][..0] == [];
  }

  /** A null entry and an entry with a falsy id add nothing. */
  lemma SkippedEntries(cats: Cats, skipped: seq<Option<CategoryEntry>>)
    requires skipped == [None, Some(CategoryEntry(0, "Nameless", None))]
    ensures AddCategories(cats, skipped) == cats
  {
    assert skipped[..1] == [None] && skipped[..1][..0] == [];
    assert AddCategories(cats, skipped[..1]) == cats;
    assert skipped[..|skipped| - 1] == skipped[..1];
  }

  /** The second name of category 7 is ignored and its subcategory is
      appended under the first. */
  lemma SecondStored(first: Cats, c2: CategoryEntry)
    requires first == [Item(7, "Carpentry", [Item(3, "Doors", [])])]
    requires c2 == CategoryEntry(7, "Woodwork", Some([Some(SubCategoryEntry(4, "Tables", None))]))
    ensures AddCategory(first, Some(c2)) == [Item(7, "Carpentry", [Item(3, "Doors", []), Item(4, "Tables", [])])]
  {
    assert Find(first, 7) == 0;
    assert AddSubs([Item(3, "Doors", [])], [Some(SubCategoryEntry(4, "Tables", None))])
      == [Item(3, "Doors", []), Item(4, "Tables", [])];
  }

  // ---------------------------------------------------------------------
  // Which ids end up in the catalogue.

  /** The truthy service ids of non-null entries of a list. */
  function ServiceIds(list: seq<Option<ServiceEntry>>): set<nat>
    decreases |list|
  {
    if |list| == 0 then {}
    else
      ServiceIds(list[..|list| - 1])
      + match list[|list| - 1]
        case None => {}
        case Some(s) => if s.serviceId == 0 then {} else {s.serviceId}
  }

  /** The truthy category ids of non-null entries of a list. */
  function CategoryIds(list: seq<Option<CategoryEntry>>): set<nat>
    decreases |list|
  {
    if |list| == 0 then {}
    else
      CategoryIds(list[..|list| - 1])
      + match list[|list| - 1]
        case None => {}
        case Some(c) => if c.serviceCategoryId == 0 then {} else {c.serviceCategoryId}
  }

  function RowCategoryIds(rows: seq<CategoryBlob>): set<nat>
    decreases |rows|
  {
    if |rows| == 0 then {} else RowCategoryIds(rows[..|rows| - 1]) + CategoryIds(Entries(rows[|rows| - 1]))
  }

  /** A service id is listed exactly when it was listed before or some
      non-null entry carries it. */
  lemma {:induction false} AddServicesIds(svcs: Services, list: seq<Option<ServiceEntry>>)
    ensures forall k :: k in Ids(AddServices(svcs, list)) <==> k in Ids(svcs) || k in ServiceIds(list)
    decreases |list|
  {
    if |list| > 0 {
      var prev := AddServices(svcs, list[..|list| - 1]);
      AddServicesIds(svcs, list[..|list| - 1]);
      match list[|list| - 1]
      case None =>
      case Some(s) => AdmitIds(prev, s.serviceId, s.serviceName, ());
    }
  }

  lemma AddCategoryIds(cats: Cats, entry: Option<CategoryEntry>)
    ensures var ids := match entry
        case None => {}
        case Some(c) => if c.serviceCategoryId == 0 then {} else {c.serviceCategoryId};
      forall k :: k in Ids(AddCategory(cats, entry)) <==> k in Ids(cats) || k in ids
  {
    if entry.Some? && entry.value.serviceCategoryId != 0 {
      var c := entry.value;
      AdmitIds(cats, c.serviceCategoryId, c.serviceCategoryName, []);
    }
  }

  lemma {:induction false} AddCategoriesIds(cats: Cats, list: seq<Option<CategoryEntry>>)
    ensures forall k :: k in Ids(AddCategories(cats, list)) <==> k in Ids(cats) || k in CategoryIds(list)
    decreases |list|
  {
    if |list| > 0 {
      AddCategoriesIds(cats, list[..|list| - 1]);
      AddCategoryIds(AddCategories(cats, list[..|list| - 1]), list[|list| - 1]);
    }
  }

  /** A category is in the catalogue exactly when some stored value holds a
      non-null entry with that truthy id. */
  lemma {:induction false} MergeRowsIds(cats: Cats, rows: seq<CategoryBlob>)
    ensures forall k :: k in Ids(MergeRows(cats, rows)) <==> k in Ids(cats) || k in RowCategoryIds(rows)
    decreases |rows|
  {
    if |rows| > 0 {
      MergeRowsIds(cats, rows[..|rows| - 1]);
      AddCategoriesIds(MergeRows(cats, rows[..|rows| - 1]), Entries(rows[|rows| - 1]));
    }
  }

  // ---------------------------------------------------------------------
  // `categories.sort((a, b) => a.serviceCategoryName.localeCompare(b...))`:
  // the collation is a parameter, `leq(a, b)` standing for
  // `a.localeCompare(b) <= 0`. Sorted order and permutation are proved; the
  // order among equally named categories is left unstated.

  ghost predicate TotalPreorder(leq: (string, string) -> bool) {
    && (forall a, b :: leq(a, b) || leq(b, a))
    && (forall a, b, c :: leq(a, b) && leq(b, c) ==> leq(a, c))
  }

  predicate SortedByName(leq: (string, string) -> bool, cats: Cats) {
    forall i, j :: 0 <= i < j < |cats| ==> leq(cats[i].name, cats[j].name)
  }

  /** Inserts `c` before the first category it does not follow. */
  function InsertByName(leq: (string, string) -> bool, c: Item<Subs>, sorted: Cats): (r: Cats)
    ensures multiset(r) == multiset(sorted) + multiset{c}
    ensures |r| == |sorted| + 1
  {
    if |sorted| == 0 || leq(c.name, sorted[0].name) then [c] + sorted
    else
      assert sorted == [sorted[0]] + sorted[1..];
      [sorted[0]] + InsertByName(leq, c, sorted[1..])
  }

  function SortByName(leq: (string, string) -> bool, cats: Cats): (r: Cats)
    ensures multiset(r) == multiset(cats)
  {
    if |cats| == 0 then []
    else
      assert cats == [cats[0]] + cats[1..];
      InsertByName(leq, cats[0], SortByName(leq, cats[1..]))
  }

  lemma {:induction false} InsertByNameSorted(leq: (string, string) -> bool, c: Item<Subs>, sorted: Cats)
    requires TotalPreorder(leq) && SortedByName(leq, sorted)
    ensures SortedByName(leq, InsertByName(leq, c, sorted))
    decreases |sorted|
  {
    if |sorted| > 0 && !leq(c.name, sorted[0].name) {
      var rest := InsertByName(leq, c, sorted[1..]);
      InsertByNameSorted(leq, c, sorted[1..]);
      assert leq(sorted[0].name, c.name);
      forall x: Item<Subs> | x in multiset(rest)
        ensures leq(sorted[0].name, x.name)
      {
        assert x in multiset(sorted[1..]) + multiset{c};
        if x != c {
          var m :| 0 <= m < |sorted[1..]| && sorted[1..][m] == x;
          assert sorted[m + 1] == x;
        }
      }
      forall j | 0 < j < |rest| + 1
        ensures leq(sorted[0].name, ([sorted[0]] + rest)[j].name)
      {
        assert rest[j - 1] in multiset(rest);
      }
    }
  }

  /** The sorted catalogue is in collation order and holds exactly the
      merged categories. */
  lemma {:induction false} SortByNameSorted(leq: (string, string) -> bool, cats: Cats)
    requires TotalPreorder(leq)
    ensures SortedByName(leq, SortByName(leq, cats))
    ensures multiset(SortByName(leq, cats)) == multiset(cats)
    decreases |cats|
  {
    if |cats| > 0 {
      SortByNameSorted(leq, cats[1..]);
      InsertByNameSorted(leq, cats[0], SortByName(leq, cats[1..]));
    }
  }

  // ---------------------------------------------------------------------
  // The endpoint.

  method CollectServices(svcs: Services, list: seq<Option<ServiceEntry>>) returns (r: Services)
    ensures r == AddServices(svcs, list)
  {
    r := svcs;
    for i := 0 to |list|
      invariant r == AddServices(svcs, list[..i])
    {
      assert list[..i + 1][..i] == list[..i];
      match list[i]
      case None =>
      case Some(srv) =>
        if srv.serviceId != 0 && Find(r, srv.serviceId) == |r| {
          r := r + [Item(srv.serviceId, srv.serviceName, ())];
        }
    }
    assert list[..|list|] == list;
  }

  method CollectSubCategories(subs: Subs, list: seq<Option<SubCategoryEntry>>) returns (r: Subs)
    ensures r == AddSubs(subs, list)
  {
    r := subs;
    for i := 0 to |list|
      invariant r == AddSubs(subs, list[..i])
    {
      assert list[..i + 1][..i] == list[..i];
      match list[i]
      case None =>
      case Some(sub) =>
        var subId := sub.serviceSubCategoryId;
        if subId != 0 {
          ghost var before := r;
          if Find(r, subId) == |r| {
            r := r + [Item(subId, sub.subCategoryName, [])];
          }
          assert r == Admit(before, subId, sub.subCategoryName, []);
          var k := Find(r, subId);
          if sub.service.Some? {
            var services := CollectServices(r[k].children, sub.service.value);
            r := r[k := r[k].(children := services)];
          }
        }
    }
    assert list[..|list|] == list;
  }

  method CollectCategories(cats: Cats, list: seq<Option<CategoryEntry>>) returns (r: Cats)
    ensures r == AddCategories(cats, list)
  {
    r := cats;
    for i := 0 to |list|
      invariant r == AddCategories(cats, list[..i])
    {
      assert list[..i + 1][..i] == list[..i];
      match list[i]
      case None =>
      case Some(cat) =>
        var catId := cat.serviceCategoryId;
        if catId != 0 {
          ghost var before := r;
          if Find(r, catId) == |r| {
            r := r + [Item(catId, cat.serviceCategoryName, [])];
          }
          assert r == Admit(before, catId, cat.serviceCategoryName, []);
          var k := Find(r, catId);
          if cat.serviceSubCategory.Some? {
            var subs := CollectSubCategories(r[k].children, cat.serviceSubCategory.value);
            r := r[k := r[k].(children := subs)];
          }
        }
    }
    assert list[..|list|] == list;
  }

  /** `GET` service categories: `query` is the result of the `SELECT` of the
      non-null `service_category` values, or the database error. */
  method GetServiceCategories(leq: (string, string) -> bool, query: Result<seq<CategoryBlob>>)
    returns (reply: CategoriesReply)
    ensures query.Err? ==> reply == ServerError(InternalError)
    ensures query.Ok? ==> reply.Listed? && reply.count == |reply.data|
    ensures query.Ok? ==> reply.data == SortByName(leq, MergeRows([], query.value))
    ensures query.Ok? ==> CatsOk(reply.data)
    ensures query.Ok? ==> forall k :: k in Ids(reply.data) <==> k in RowCategoryIds(query.value)
    ensures query.Ok? && TotalPreorder(leq) ==> SortedByName(leq, reply.data)
  {
    if query.Err? {
      return ServerError(InternalError);
    }
    var rows := query.value;
    var cats: Cats := [];
    for i := 0 to |rows|
      invariant cats == MergeRows([], rows[..i])
    {
      assert rows[..i + 1][..i] == rows[..i];
      cats := CollectCategories(cats, Entries(rows[i]));
    }
    assert rows[..|rows|] == rows;
    var merged := cats;
    MergeRowsOk([], rows);
    MergeRowsIds([], rows);
    var sorted := SortByName(leq, merged);
    if TotalPreorder(leq) {
      SortByNameSorted(leq, merged);
    }
    SortedKeepsCatalogue(merged, sorted);
    reply := Listed(|sorted|, sorted);
  }

  /** Reordering keeps well-formedness and the set of ids. */
  lemma SortedKeepsCatalogue(cats: Cats, sorted: Cats)
    requires multiset(sorted) == multiset(cats)
    ensures CatsOk(cats) ==> CatsOk(sorted)
    ensures forall k :: k in Ids(sorted) <==> k in Ids(cats)
  {
    SameItems(cats, sorted);
    if CatsOk(cats) {
      forall i | 0 <= i < |sorted|
        ensures sorted[i].id != 0 && SubsOk(sorted[i].children)
      {
        var a := ItemIndex(cats, sorted[i]);
      }
      SortedUnique(cats, sorted);
    }
    forall k | k in Ids(sorted)
      ensures k in Ids(cats)
    {
      var i :| 0 <= i < |sorted| && Ids(sorted)[i] == k;
      var a := ItemIndex(cats, sorted[i]);
      assert Ids(cats)[a] == k;
    }
    forall k | k in Ids(cats)
      ensures k in Ids(sorted)
    {
      var a :| 0 <= a < |cats| && Ids(cats)[a] == k;
      var i := ItemIndex(sorted, cats[a]);
      assert Ids(sorted)[i] == k;
    }
  }

  lemma SameItems(cats: Cats, sorted: Cats)
    requires multiset(sorted) == multiset(cats)
    ensures forall x :: x in sorted <==> x in cats
  {
    forall x | x in sorted ensures x in cats {
      assert x in multiset(sorted);
    }
    forall x | x in cats ensures x in sorted {
      assert x in multiset(cats);
    }
  }

  /** The position of an item known to occur. */
  lemma ItemIndex(cats: Cats, x: Item<Subs>) returns (a: nat)
    requires x in cats
    ensures a < |cats| && cats[a] == x
  {
    a :| 0 <= a < |cats| && cats[a] == x;
  }

  lemma SortedUnique(cats: Cats, sorted: Cats)
    requires multiset(sorted) == multiset(cats) && UniqueIds(cats)
    ensures UniqueIds(sorted)
  {
    SameItems(cats, sorted);
    forall i, j | 0 <= i < j < |sorted|
      ensures sorted[i].id != sorted[j].id
    {
      if sorted[i].id == sorted[j].id {
        var a := ItemIndex(cats, sorted[i]);
        var b := ItemIndex(cats, sorted[j]);
        assert a == b;
        MultisetTwice(sorted, i, j);
        UniqueOnce(cats, a);
        assert false;
      }
    }
  }

  lemma MultisetTwice<T>(s: seq<T>, i: nat, j: nat)
    requires i < j < |s| && s[i] == s[j]
    ensures multiset(s)[s[i]] >= 2
  {
    assert s == s[..i] + [s[i]] + s[i + 1..j] + [s[j]] + s[j + 1..];
  }

  lemma UniqueOnce(cats: Cats, a: nat)
    requires UniqueIds(cats) && a < |cats|
    ensures multiset(cats)[cats[a]] == 1
  {
    assert cats == cats[..a] + [cats[a]] + cats[a + 1..];
    assert cats[a] !in cats[..a] && cats[a] !in cats[a + 1..];
    assert multiset(cats[..a])[cats[a]] == 0;
    assert multiset(cats[a + 1..])[cats[a]] == 0;
  }
}
