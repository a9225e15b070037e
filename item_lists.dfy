/** The list operations behind the items reducer: `findIndex` by id, replacing
    the element found, and the two order-preserving `filter`s by id and by a list of ids. */
module ItemLists {
  import opened Types

  /** Some element of `items` carries `id`. */
  predicate HasId(items: seq<Item>, id: int)
  {
    exists i :: 0 <= i < |items| && items[i].id == id
  }

  /** The ids of `items`, position by position. */
  function Ids(items: seq<Item>): seq<int>
  {
    seq(|items|, i requires 0 <= i < |items| => items[i].id)
  }

  /** `items.findIndex(item => item.id === id)`: the first position holding `id`, or -1. */
  function FirstIndex(items: seq<Item>, id: int): (r: int)
    ensures -1 <= r < |items|
    ensures r == -1 <==> !HasId(items, id)
    ensures r >= 0 ==> items[r].id == id && forall j :: 0 <= j < r ==> items[j].id != id
  {
    if items == [] then -1
    else if items[0].id == id then 0
    else
      var k := FirstIndex(items[1..], id);
      if k == -1 then
        assert forall i :: 1 <= i < |items| ==> items[i] == items[1..][i - 1];
        -1
      else
        assert items[1..][k] == items[k + 1];
        k + 1
  }

  /** The linear search that `findIndex` performs. */
  method FindIndex(items: seq<Item>, id: int) returns (index: int)
    ensures index == FirstIndex(items, id)
  {
    index := 0;
    while index < |items| && items[index].id != id
      invariant 0 <= index <= |items|
      invariant forall j :: 0 <= j < index ==> items[j].id != id
    {
      index := index + 1;
    }
    if index == |items| {
      index := -1;
    }
  }

  /** The list after `state.items[index] = item` where `index` is the first position
      holding `item.id`; unchanged when there is none. */
  function ReplaceFirst(items: seq<Item>, item: Item): (r: seq<Item>)
    ensures |r| == |items|
    ensures forall j :: 0 <= j < |items| ==>
      r[j] == if j == FirstIndex(items, item.id) then item else items[j]
  {
    var k := FirstIndex(items, item.id);
    if k == -1 then items else items[k := item]
  }

  /** `items.filter(item => item.id !== id)`. */
  function RemoveById(items: seq<Item>, id: int): (r: seq<Item>)
    ensures |r| <= |items|
    ensures !HasId(r, id)
    ensures !HasId(items, id) ==> r == items
  {
    if items == [] then []
    else
      var rest := RemoveById(items[1..], id);
      if items[0].id != id then [items[0]] + rest
      else
        assert HasId(items, id);
        rest
  }

  /** `items.filter(item => !ids.includes(item.id))`. */
  function RemoveByIds(items: seq<Item>, ids: seq<int>): (r: seq<Item>)
    ensures |r| <= |items|
    ensures (forall i :: 0 <= i < |items| ==> items[i].id !in ids) ==> r == items
  {
    if items == [] then []
    else
      var rest := RemoveByIds(items[1..], ids);
      if items[0].id !in ids then [items[0]] + rest else rest
  }

  // ---------------------------------------------------------------------------
  // Replacing by id

  /** Replacing never changes which id sits at which position. */
  lemma ReplaceFirstKeepsIds(items: seq<Item>, item: Item)
    ensures Ids(ReplaceFirst(items, item)) == Ids(items)
  {
    var r := ReplaceFirst(items, item);
    forall j | 0 <= j < |items| ensures r[j].id == items[j].id {
      if j == FirstIndex(items, item.id) {
        assert items[j].id == item.id;
      }
    }
  }

  /** With no element carrying the id, replacing is a no-op. */
  lemma ReplaceFirstAbsent(items: seq<Item>, item: Item)
    requires !HasId(items, item.id)
    ensures ReplaceFirst(items, item) == items
  {
  }

  /** Replacing with the same item twice equals replacing once. */
  lemma ReplaceFirstIdempotent(items: seq<Item>, item: Item)
    ensures ReplaceFirst(ReplaceFirst(items, item), item) == ReplaceFirst(items, item)
  {
    var r := ReplaceFirst(items, item);
    ReplaceFirstKeepsIds(items, item);
    FirstIndexByIds(items, r, item.id);
  }

  /** `FirstIndex` depends only on the ids. */
  lemma FirstIndexByIds(a: seq<Item>, b: seq<Item>, id: int)
    requires Ids(a) == Ids(b)
    ensures FirstIndex(a, id) == FirstIndex(b, id)
  {
    assert |a| == |Ids(a)| == |b|;
    assert forall i :: 0 <= i < |a| ==> a[i].id == Ids(a)[i] == Ids(b)[i] == b[i].id;
  }

  // ---------------------------------------------------------------------------
  // Removing by id

  /** An item survives iff it was present and its id differs. */
  lemma {:induction false} RemoveByIdMembers(items: seq<Item>, id: int)
    ensures forall it :: it in RemoveById(items, id) <==> it in items && it.id != id
  {
    if items != [] {
      RemoveByIdMembers(items[1..], id);
      assert items == [items[0]] + items[1..];
    }
  }

  /** Removing twice equals removing once. */
  lemma RemoveByIdIdempotent(items: seq<Item>, id: int)
    ensures RemoveById(RemoveById(items, id), id) == RemoveById(items, id)
  {
  }

  /** Removal treats the list piecewise, so the survivors keep their relative order. */
  lemma {:induction false} RemoveByIdConcat(a: seq<Item>, b: seq<Item>, id: int)
    ensures RemoveById(a + b, id) == RemoveById(a, id) + RemoveById(b, id)
  {
    if a != [] {
      assert (a + b)[1..] == a[1..] + b;
      RemoveByIdConcat(a[1..], b, id);
    } else {
      assert a + b == b;
    }
  }

  /** Removal keeps exactly the elements whose id differs, each as often as before. */
  lemma {:induction false} RemoveByIdCounts(items: seq<Item>, id: int, it: Item)
    ensures multiset(RemoveById(items, id))[it] == if it.id == id then 0 else multiset(items)[it]
  {
    if items != [] {
      RemoveByIdCounts(items[1..], id, it);
      assert items == [items[0]] + items[1..];
    }
  }

  // ---------------------------------------------------------------------------
  // Removing by a list of ids

  /** An item survives iff it was present and its id is not listed. */
  lemma {:induction false} RemoveByIdsMembers(items: seq<Item>, ids: seq<int>)
    ensures forall it :: it in RemoveByIds(items, ids) <==> it in items && it.id !in ids
  {
    if items != [] {
      RemoveByIdsMembers(items[1..], ids);
      assert items == [items[0]] + items[1..];
    }
  }

  /** Removing the ids `[x]` is removing `x`. */
  lemma {:induction false} RemoveByIdsSingleton(items: seq<Item>, x: int)
    ensures RemoveByIds(items, [x]) == RemoveById(items, x)
  {
    if items != [] {
      RemoveByIdsSingleton(items[1..], x);
    }
  }

  /** Afterwards no element carries any of the ids. */
  lemma RemoveByIdsRemovesAll(items: seq<Item>, ids: seq<int>, x: int)
    requires x in ids
    ensures !HasId(RemoveByIds(items, ids), x)
  {
  }

  /** Removing the same ids twice equals removing them once. */
  lemma RemoveByIdsIdempotent(items: seq<Item>, ids: seq<int>)
    ensures RemoveByIds(RemoveByIds(items, ids), ids) == RemoveByIds(items, ids)
  {
    forall x | x in ids ensures !HasId(RemoveByIds(items, ids), x) {
      RemoveByIdsRemovesAll(items, ids, x);
    }
  }

  /** Only which ids are listed matters: not their order and not duplicates. */
  lemma {:induction false} RemoveByIdsSameIdSet(items: seq<Item>, ids: seq<int>, ids': seq<int>)
    requires forall x :: x in ids <==> x in ids'
    ensures RemoveByIds(items, ids) == RemoveByIds(items, ids')
  {
    if items != [] {
      RemoveByIdsSameIdSet(items[1..], ids, ids');
    }
  }

  /** Listed ids that no element carries are ignored. */
  lemma {:induction false} RemoveByIdsIgnoresAbsent(items: seq<Item>, ids: seq<int>, extra: seq<int>)
    requires forall x :: x in extra ==> !HasId(items, x)
    ensures RemoveByIds(items, ids + extra) == RemoveByIds(items, ids)
  {
    if items != [] {
      forall x | x in extra ensures !HasId(items[1..], x) {
        assert forall i :: 0 <= i < |items| - 1 ==> items[1..][i] == items[i + 1];
      }
      assert items[0].id !in extra by {
        if items[0].id in extra {
          assert HasId(items, items[0].id);
        }
      }
      RemoveByIdsIgnoresAbsent(items[1..], ids, extra);
    }
  }

  /** Removing a batch of ids equals removing them one at a time, in any order. */
  lemma {:induction false} RemoveByIdsStepwise(items: seq<Item>, ids: seq<int>, x: int)
    ensures RemoveByIds(items, ids + [x]) == RemoveById(RemoveByIds(items, ids), x)
  {
    if items != [] {
      RemoveByIdsStepwise(items[1..], ids, x);
      var rest := RemoveByIds(items[1..], ids);
      if items[0].id !in ids {
        RemoveByIdConcat([items[0]], rest, x);
      }
    }
  }

  /** Removal by ids treats the list piecewise, so the survivors keep their relative order. */
  lemma {:induction false} RemoveByIdsConcat(a: seq<Item>, b: seq<Item>, ids: seq<int>)
    ensures RemoveByIds(a + b, ids) == RemoveByIds(a, ids) + RemoveByIds(b, ids)
  {
    if a == [] {
      assert a + b == b;
    } else {
      assert (a + b)[0] == a[0] && (a + b)[1..] == a[1..] + b;
      RemoveByIdsConcat(a[1..], b, ids);
    }
  }
}
