/** Filters that see one item after another, and chains of them as streams build with reduce and then. */
module FilterChains {
  import opened Bytes

  /** What travels down a stream: bytes, or null for the end. */
  datatype Item = Null | Data(bytes: seq<Byte>)

  /** The result of `process` for an item, given the items the filter has seen before. */
  type Filter = (seq<Item>, Item) -> Item

  /** A filter's results for a sequence of items. */
  function Outputs(filter: Filter, items: seq<Item>): (outputs: seq<Item>)
    ensures |outputs| == |items|
  {
    if items == [] then []
    else
      var front := items[..|items| - 1];
      Outputs(filter, front) + [filter(front, items[|items| - 1])]
  }

  /** The image of a sequence of items under a whole chain. */
  function Through(filters: seq<Filter>, items: seq<Item>): (outputs: seq<Item>)
    ensures |outputs| == |items|
  {
    if filters == [] then items
    else Outputs(filters[|filters| - 1], Through(filters[..|filters| - 1], items))
  }

  /** What becomes of item `x` that comes after `items`. */
  function Pass(filters: seq<Filter>, items: seq<Item>, x: Item): Item {
    if filters == [] then x
    else
      var front := filters[..|filters| - 1];
      filters[|filters| - 1](Through(front, items), Pass(front, items, x))
  }

  /** Chains work item by item: later items change no earlier result. */
  lemma {:induction false} ThroughAppend(filters: seq<Filter>, items: seq<Item>, x: Item)
    ensures Through(filters, items + [x]) == Through(filters, items) + [Pass(filters, items, x)]
  {
    if filters != [] {
      var front := filters[..|filters| - 1];
      ThroughAppend(front, items, x);
      var before, last := Through(front, items), Pass(front, items, x);
      assert (before + [last])[..|before|] == before;
    }
  }

  /** The inputs each filter of a chain has seen when the first `k` of them have also seen `x`. */
  ghost predicate Saw(filters: seq<Filter>, seen: seq<seq<Item>>, items: seq<Item>, x: seq<Item>, k: nat) {
    && |seen| == |filters|
    && forall j {:trigger seen[j]} :: 0 <= j < |filters| ==>
         seen[j] == Through(filters[..j], if j < k then items + x else items)
  }

  /** One filter of the chain processes the item that the filters before it made of `x`. */
  lemma FilterStep(filters: seq<Filter>, seen: seq<seq<Item>>, items: seq<Item>, x: Item, k: nat, item: Item)
    requires k < |filters| && Saw(filters, seen, items, [x], k) && item == Pass(filters[..k], items, x)
    ensures Saw(filters, seen[k := seen[k] + [item]], items, [x], k + 1)
    ensures filters[k](seen[k], item) == Pass(filters[..k + 1], items, x)
  {
    ThroughAppend(filters[..k], items, x);
    assert filters[..k + 1][..k] == filters[..k];
  }

  lemma SawAll(filters: seq<Filter>, seen: seq<seq<Item>>, items: seq<Item>, x: Item, k: nat)
    requires k >= |filters| && Saw(filters, seen, items, [x], k)
    ensures Saw(filters, seen, items + [x], [], 0)
  {
  }

  /** The bytes of a sequence of items. */
  function Flat(items: seq<Item>): seq<Byte> {
    if items == [] then []
    else
      var last := items[|items| - 1];
      Flat(items[..|items| - 1]) + if last.Data? then last.bytes else []
  }

  lemma FlatAppend(items: seq<Item>, item: Item)
    ensures Flat(items + [item]) == Flat(items) + if item.Data? then item.bytes else []
  {
    assert (items + [item])[..|items|] == items;
  }

  /** A filter that keeps data data; what it makes of null is its own business. */
  ghost predicate KeepsData(filter: Filter) {
    forall items: seq<Item>, x: Item :: x.Data? ==> filter(items, x).Data?
  }

  lemma {:induction false} PassKeepsData(filters: seq<Filter>, items: seq<Item>, x: Item)
    requires forall k :: 0 <= k < |filters| ==> KeepsData(filters[k])
    requires x.Data?
    ensures Pass(filters, items, x).Data?
  {
    if filters != [] {
      PassKeepsData(filters[..|filters| - 1], items, x);
      assert KeepsData(filters[|filters| - 1]);
    }
  }

  /** Data in, data out, item by item. */
  lemma {:induction false} ThroughKeepsData(filters: seq<Filter>, items: seq<Item>)
    requires forall k :: 0 <= k < |filters| ==> KeepsData(filters[k])
    ensures forall i :: 0 <= i < |items| && items[i].Data? ==> Through(filters, items)[i].Data?
  {
    if items != [] {
      var front, last := items[..|items| - 1], items[|items| - 1];
      ThroughKeepsData(filters, front);
      assert items == front + [last];
      ThroughAppend(filters, front, last);
      if last.Data? {
        PassKeepsData(filters, front, last);
      }
    }
  }
}
