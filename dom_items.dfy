/**
 * The items of the DOM script (whiteboard.js at the top of the static
 * folder): sticky notes and text boxes living as child nodes of the
 * #canvasElements container, and the list operations its handlers perform
 * on them.
 */
module DomItems {
  import opened Wrappers

  datatype ItemKind = StickyNote | TextBox

  /**
   * What the container's markup records of one item: its data-id, its kind,
   * its style.left / style.top in pixels and its style.zIndex (None when
   * unset). The rest of its markup (title, text, colour) is not modelled.
   */
  datatype Item = Item(id: nat, kind: ItemKind, left: real, top: real, zIndex: Option<int>)

  /** Every id in `items` was issued before `n`. */
  predicate IdsBelow(items: seq<Item>, n: nat) {
    forall i :: 0 <= i < |items| ==> items[i].id < n
  }

  /** parseInt of a pixel length such as "12.5px": the number truncated toward zero. */
  function Truncate(x: real): (r: int)
    ensures x >= 0.0 ==> r as real <= x < r as real + 1.0
    ensures x < 0.0 ==> r as real - 1.0 < x <= r as real
  {
    if x >= 0.0 then x.Floor else -((-x).Floor)
  }

  lemma TruncateWhole(n: int)
    ensures Truncate(n as real) == n
  {
  }

  /** A copy of `d` with id `id`, moved by `offset` pixels on both axes after truncating its position. */
  function Shifted(d: Item, id: nat, offset: int): (r: Item)
  {
    d.(id := id, left := (Truncate(d.left) + offset) as real, top := (Truncate(d.top) + offset) as real)
  }

  /** One copy per item, in order, with consecutive fresh ids from `firstId`, each moved by `offset`. */
  function Clones(items: seq<Item>, firstId: nat, offset: int): (r: seq<Item>)
    ensures |r| == |items|
    ensures forall k :: 0 <= k < |items| ==>
              && r[k].id == firstId + k
              && r[k].kind == items[k].kind
              && r[k].zIndex == items[k].zIndex
              && r[k].left == (Truncate(items[k].left) + offset) as real
              && r[k].top == (Truncate(items[k].top) + offset) as real
    ensures IdsBelow(r, firstId + |items|)
  {
    seq(|items|, k requires 0 <= k < |items| => Shifted(items[k], firstId + k, offset))
  }

  /**
   * The copies never share an id with an item whose id was issued earlier,
   * nor with each other.
   */
  lemma ClonesAreFresh(items: seq<Item>, existing: seq<Item>, firstId: nat, offset: int)
    requires IdsBelow(existing, firstId)
    ensures forall k, i :: 0 <= k < |items| && 0 <= i < |existing| ==>
              Clones(items, firstId, offset)[k].id != existing[i].id
    ensures forall k, l :: 0 <= k < l < |items| ==>
              Clones(items, firstId, offset)[k].id != Clones(items, firstId, offset)[l].id
  {
  }

  /** Copying a copy moves it twice: offsets add up once the position is whole. */
  lemma ClonesOfClones(items: seq<Item>, id1: nat, id2: nat, off1: int, off2: int)
    ensures forall k :: 0 <= k < |items| ==>
              Clones(Clones(items, id1, off1), id2, off2)[k].left == (Truncate(items[k].left) + off1 + off2) as real
  {
    forall k | 0 <= k < |items|
      ensures Clones(Clones(items, id1, off1), id2, off2)[k].left == (Truncate(items[k].left) + off1 + off2) as real
    {
      TruncateWhole(Truncate(items[k].left) + off1);
    }
  }

  /** Set the zIndex of every item whose handle is in `chosen` to `z`. */
  function WithZIndex(nodes: seq<Item>, chosen: seq<nat>, z: int): (r: seq<Item>)
    ensures |r| == |nodes|
    ensures forall h :: 0 <= h < |nodes| ==>
              r[h] == if h in chosen then nodes[h].(zIndex := Some(z)) else nodes[h]
  {
    seq(|nodes|, h requires 0 <= h < |nodes| => if h in chosen then nodes[h].(zIndex := Some(z)) else nodes[h])
  }

  /** Every handle in `hs` names an allocated node. */
  predicate Handles(hs: seq<nat>, n: nat) {
    forall i :: 0 <= i < |hs| ==> hs[i] < n
  }

  /** A node is a child of the container at most once. */
  predicate Distinct(hs: seq<nat>) {
    forall i, j :: 0 <= i < j < |hs| ==> hs[i] != hs[j]
  }

  /** The items the handles `hs` name, in order. */
  function Render(nodes: seq<Item>, hs: seq<nat>): (r: seq<Item>)
    requires Handles(hs, |nodes|)
    ensures |r| == |hs| && forall i :: 0 <= i < |hs| ==> r[i] == nodes[hs[i]]
  {
    seq(|hs|, i requires 0 <= i < |hs| => nodes[hs[i]])
  }

  /** The handles lo, lo+1, ..., lo+k-1 of `k` newly allocated nodes. */
  function Range(lo: nat, k: nat): (r: seq<nat>)
    ensures |r| == k && forall i :: 0 <= i < k ==> r[i] == lo + i
  {
    seq(k, i requires 0 <= i < k => lo + i)
  }

  /** `cs` without the handles in `gone`, order kept. */
  function Without(cs: seq<nat>, gone: seq<nat>): (r: seq<nat>)
    ensures forall x :: x in r <==> x in cs && x !in gone
    ensures |r| <= |cs|
    decreases cs
  {
    if cs == [] then []
    else (if cs[0] in gone then [] else [cs[0]]) + Without(cs[1..], gone)
  }

  /** Removing handles one at a time removes them all. */
  lemma {:induction false} WithoutStep(cs: seq<nat>, gone: seq<nat>, h: nat)
    ensures Without(Without(cs, gone), [h]) == Without(cs, gone + [h])
    decreases cs
  {
    if cs != [] {
      WithoutStep(cs[1..], gone, h);
      var head := if cs[0] in gone then [] else [cs[0]];
      var rest := Without(cs[1..], gone);
      assert Without(cs, gone) == head + rest;
      WithoutConcat(head, rest, [h]);
    }
  }

  lemma {:induction false} WithoutConcat(a: seq<nat>, b: seq<nat>, gone: seq<nat>)
    ensures Without(a + b, gone) == Without(a, gone) + Without(b, gone)
    decreases a
  {
    if a == [] {
      assert a + b == b;
    } else {
      assert (a + b)[0] == a[0];
      assert (a + b)[1..] == a[1..] + b;
      WithoutConcat(a[1..], b, gone);
    }
  }

  /** Nothing goes when none of `gone` is present. */
  lemma {:induction false} WithoutNothing(cs: seq<nat>, gone: seq<nat>)
    requires forall x :: x in gone ==> x !in cs
    ensures Without(cs, gone) == cs
    decreases cs
  {
    if cs != [] {
      WithoutNothing(cs[1..], gone);
      assert cs == [cs[0]] + cs[1..];
    }
  }

  /** Removing handles keeps the rest distinct. */
  lemma {:induction false} WithoutDistinct(cs: seq<nat>, gone: seq<nat>)
    requires Distinct(cs)
    ensures Distinct(Without(cs, gone))
    decreases cs
  {
    if cs != [] {
      WithoutDistinct(cs[1..], gone);
      var rest := Without(cs[1..], gone);
      assert cs[0] !in cs[1..] by {
        forall j | 0 <= j < |cs[1..]| ensures cs[1..][j] != cs[0] {
          assert cs[1..][j] == cs[j + 1];
        }
      }
      assert cs[0] !in rest;
    }
  }

  /** Removing handles keeps the rest allocated. */
  lemma WithoutHandles(cs: seq<nat>, gone: seq<nat>, n: nat)
    requires Handles(cs, n)
    ensures Handles(Without(cs, gone), n)
  {
    var r := Without(cs, gone);
    forall i | 0 <= i < |r| ensures r[i] < n {
      assert r[i] in cs;
    }
  }

  /** Appending freshly allocated handles keeps the container distinct and allocated. */
  lemma AppendFresh(cs: seq<nat>, lo: nat, k: nat)
    requires Handles(cs, lo) && Distinct(cs)
    ensures Handles(cs + Range(lo, k), lo + k) && Distinct(cs + Range(lo, k))
  {
  }
}
