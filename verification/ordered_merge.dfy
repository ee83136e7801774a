/** A JavaScript `Map` from partner ids to named nodes, as
    controllers/artisanController.js fills it: `if (!map.has(id))
    map.set(id, ...)`. Entries keep their insertion order, an id is stored
    once, and the first name stored for an id is never replaced.

    The map is modelled by the list `Array.from(map.values())` it turns
    into; `C` is the type of a node's children. */
module OrderedMerge {

  datatype Item<C> = Item(id: nat, name: string, children: C)

  /** The ids of the items, in insertion order. */
  function Ids<C>(items: seq<Item<C>>): (ids: seq<nat>)
    ensures |ids| == |items|
    ensures forall i :: 0 <= i < |items| ==> ids[i] == items[i].id
  {
    if |items| == 0 then [] else [items[0].id] + Ids(items[1..])
  }

  /** No id is stored twice. */
  predicate UniqueIds<C>(items: seq<Item<C>>) {
    forall i, j :: 0 <= i < j < |items| ==> items[i].id != items[j].id
  }

  /** No stored id is falsy (0). */
  predicate NonZeroIds<C>(items: seq<Item<C>>) {
    forall i :: 0 <= i < |items| ==> items[i].id != 0
  }

  /** `map.get(id)`: the position of `id`, or `|items|` when absent. */
  function Find<C>(items: seq<Item<C>>, id: nat): (k: nat)
    ensures k <= |items|
    ensures k < |items| ==> items[k].id == id
    ensures forall i :: 0 <= i < k ==> items[i].id != id
  {
    if |items| == 0 then 0
    else if items[0].id == id then 0
    else 1 + Find(items[1..], id)
  }

  /** `if (!map.has(id)) map.set(id, {id, name, children: empty})`. */
  function Admit<C>(items: seq<Item<C>>, id: nat, name: string, empty: C): (r: seq<Item<C>>)
    ensures Find(r, id) < |r|
  {
    if Find(items, id) < |items| then items
    else
      FindAppended(items, Item(id, name, empty));
      items + [Item(id, name, empty)]
  }

  /** `after` keeps every item of `before` at its position, with its id and its
      name; only children may have changed, and items may follow. */
  predicate Extends<C>(before: seq<Item<C>>, after: seq<Item<C>>) {
    |before| <= |after| && forall i :: 0 <= i < |before| ==> after[i].id == before[i].id && after[i].name == before[i].name
  }

  lemma ExtendsTransitive<C>(a: seq<Item<C>>, b: seq<Item<C>>, c: seq<Item<C>>)
    requires Extends(a, b) && Extends(b, c)
    ensures Extends(a, c)
  {
  }

  /** Admitting an id: nothing already stored changes, the id is stored
      afterwards (under the old name if it was there, under `name` at the
      end otherwise), and the ids stay unique and non-zero. */
  lemma AdmitProperties<C>(items: seq<Item<C>>, id: nat, name: string, empty: C)
    ensures var r := Admit(items, id, name, empty);
      && Extends(items, r)
      && (UniqueIds(items) ==> UniqueIds(r))
      && (Find(items, id) < |items| ==> r == items)
      && (Find(items, id) == |items| ==> Find(r, id) == |items| && r[|items|] == Item(id, name, empty))
      && (forall k :: k in Ids(r) <==> k in Ids(items) || k == id)
      && (NonZeroIds(items) && id != 0 ==> NonZeroIds(r))
  {
    var r := Admit(items, id, name, empty);
    if Find(items, id) == |items| {
      FindAppended(items, Item(id, name, empty));
      assert forall i :: 0 <= i < |items| ==> Ids(r)[i] == Ids(items)[i];
      assert Ids(r) == Ids(items) + [id];
    } else {
      FindMembership(items, id);
    }
  }

  /** Admitting leaves every stored item where and as it was. */
  lemma AdmitKeepsItems<C>(items: seq<Item<C>>, id: nat, name: string, empty: C)
    ensures var r := Admit(items, id, name, empty);
      |items| <= |r| && forall i :: 0 <= i < |items| ==> r[i] == items[i]
  {
  }

  /** The ids after admitting: those before, and `id`. */
  lemma AdmitIds<C>(items: seq<Item<C>>, id: nat, name: string, empty: C)
    ensures forall k :: k in Ids(Admit(items, id, name, empty)) <==> k in Ids(items) || k == id
  {
    AdmitProperties(items, id, name, empty);
  }

  lemma {:induction false} FindAppended<C>(items: seq<Item<C>>, x: Item<C>)
    requires Find(items, x.id) == |items|
    ensures Find(items + [x], x.id) == |items|
    decreases |items|
  {
    if |items| > 0 {
      assert (items + [x])[1..] == items[1..] + [x];
      FindAppended(items[1..], x);
    }
  }

  /** A stored id is found at its position. */
  lemma {:induction false} FindPresent<C>(items: seq<Item<C>>, i: nat)
    requires UniqueIds(items) && i < |items|
    ensures Find(items, items[i].id) == i
    decreases |items|
  {
    if i > 0 {
      assert items[i] == items[1..][i - 1];
      FindPresent(items[1..], i - 1);
    }
  }

  /** An id is found exactly when it is stored. */
  lemma FindMembership<C>(items: seq<Item<C>>, id: nat)
    ensures Find(items, id) < |items| <==> id in Ids(items)
  {
    if id in Ids(items) {
      var m :| 0 <= m < |items| && Ids(items)[m] == id;
    }
  }

  /** Replacing the children of the item at `k` (the nested Map mutated in
      place through the reference `map.get(id)`). */
  function WithChildren<C>(items: seq<Item<C>>, k: nat, children: C): (r: seq<Item<C>>)
    requires k < |items|
    ensures Extends(items, r) && Extends(r, items)
    ensures Ids(r) == Ids(items)
    ensures r[k].children == children
    ensures forall i :: 0 <= i < |items| && i != k ==> r[i] == items[i]
  {
    items[k := items[k].(children := children)]
  }
}
