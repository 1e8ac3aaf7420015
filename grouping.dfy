/** group_items_by_order_number (invoices.py:74-78): an insertion-ordered group-by on the order number. */
module Grouping {
  import opened Types
  import opened Seqs

  /** The test "this item belongs to order key". */
  function HasOrder(key: string): Item -> bool
  {
    (item: Item) => item.orderNumber == key
  }

  /** The items of order key, in input order: the list the dictionary holds under key. */
  function ItemsWithOrder(items: seq<Item>, key: string): seq<Item>
  {
    Filter(items, HasOrder(key))
  }

  function OrderNumbers(items: seq<Item>): set<string>
  {
    set item | item in items :: item.orderNumber
  }

  lemma OrderNumbersAppend(items: seq<Item>, x: Item)
    ensures OrderNumbers(items + [x]) == OrderNumbers(items) + {x.orderNumber}
  {
    assert forall item :: item in items + [x] <==> item in items || item == x;
  }

  /**
   * The distinct order numbers in order of first occurrence, which is the key order of the
   * dictionary that setdefault builds.
   */
  function GroupKeys(items: seq<Item>): (keys: seq<string>)
    ensures NoDuplicates(keys)
    ensures forall key :: key in keys <==> key in OrderNumbers(items)
  {
    if items == [] then []
    else
      var init, last := items[..|items| - 1], items[|items| - 1];
      OrderNumbersAppend(init, last);
      assert init + [last] == items;
      var keys := GroupKeys(init);
      if last.orderNumber in keys then keys else keys + [last.orderNumber]
  }

  /** A Python dict with insertion order: its keys in order, and the value under each key. */
  datatype Groups = Groups(keys: seq<string>, members: map<string, seq<Item>>)

  lemma ItemsWithOrderAppend(items: seq<Item>, x: Item, key: string)
    ensures ItemsWithOrder(items + [x], key) ==
              ItemsWithOrder(items, key) + (if x.orderNumber == key then [x] else [])
  {
    FilterAppend(items, x, HasOrder(key));
  }

  /** An order number that no item carries has an empty group. */
  lemma NoOrderNoItems(items: seq<Item>, key: string)
    ensures key in OrderNumbers(items) || ItemsWithOrder(items, key) == []
  {
    if key !in OrderNumbers(items) {
      FilterNone(items, HasOrder(key));
    }
  }

  lemma GroupKeysAppend(items: seq<Item>, x: Item)
    ensures GroupKeys(items + [x]) ==
              if x.orderNumber in GroupKeys(items) then GroupKeys(items) else GroupKeys(items) + [x.orderNumber]
  {
    assert (items + [x])[..|items|] == items;
  }

  /** keys and members are the dictionary that grouping items yields. */
  ghost predicate IsGrouping(items: seq<Item>, keys: seq<string>, members: map<string, seq<Item>>)
  {
    && keys == GroupKeys(items)
    && members.Keys == OrderNumbers(items)
    && forall key :: key in members ==> members[key] == ItemsWithOrder(items, key)
  }

  /** One setdefault(...).append(x) keeps the dictionary equal to the grouping of the items seen. */
  lemma GroupingStep(items: seq<Item>, keys: seq<string>, members: map<string, seq<Item>>, x: Item,
                     keys': seq<string>, members': map<string, seq<Item>>)
    requires IsGrouping(items, keys, members)
    requires keys' == if x.orderNumber in members then keys else keys + [x.orderNumber]
    requires members' == members[x.orderNumber := (if x.orderNumber in members then members[x.orderNumber] else []) + [x]]
    ensures IsGrouping(items + [x], keys', members')
  {
    GroupKeysAppend(items, x);
    OrderNumbersAppend(items, x);
    assert members'.Keys == OrderNumbers(items + [x]);
    forall key | key in members'
      ensures members'[key] == ItemsWithOrder(items + [x], key)
    {
      ItemsWithOrderAppend(items, x, key);
      if key == x.orderNumber {
        NoOrderNoItems(items, key);
      }
    }
  }

  /**
   * group_items_by_order_number: setdefault(order, []).append(item) for every item in turn.
   */
  method GroupItemsByOrderNumber(items: seq<Item>) returns (g: Groups)
    ensures g.keys == GroupKeys(items)
    ensures g.members.Keys == OrderNumbers(items)
    ensures forall key :: key in g.members ==> g.members[key] == ItemsWithOrder(items, key)
  {
    var keys: seq<string> := [];
    var members: map<string, seq<Item>> := map[];
    for i := 0 to |items|
      invariant IsGrouping(items[..i], keys, members)
    {
      var item := items[i];
      assert items[..i + 1] == items[..i] + [item];
      ghost var (keys0, members0) := (keys, members);
      if item.orderNumber !in members {
        keys := keys + [item.orderNumber];
        members := members[item.orderNumber := []];
      }
      members := members[item.orderNumber := members[item.orderNumber] + [item]];
      GroupingStep(items[..i], keys0, members0, item, keys, members);
    }
    assert items[..|items|] == items;
    g := Groups(keys, members);
  }

  /** The number of items in the groups of keys, added up. */
  function SumSizes(keys: seq<string>, items: seq<Item>): nat
  {
    if keys == [] then 0
    else SumSizes(keys[..|keys| - 1], items) + |ItemsWithOrder(items, keys[|keys| - 1])|
  }

  lemma {:induction false} SumSizesAppendItem(keys: seq<string>, items: seq<Item>, x: Item)
    requires NoDuplicates(keys)
    ensures SumSizes(keys, items + [x]) == SumSizes(keys, items) + (if x.orderNumber in keys then 1 else 0)
    decreases |keys|
  {
    if keys != [] {
      var init, last := keys[..|keys| - 1], keys[|keys| - 1];
      assert keys == init + [last];
      SumSizesAppendItem(init, items, x);
      ItemsWithOrderAppend(items, x, last);
      assert x.orderNumber in init ==> x.orderNumber != last;
    }
  }

  /** Each item lands in its own order's group, at the place the earlier items of that order leave free. */
  lemma {:induction false} ItemInOwnGroup(items: seq<Item>, p: nat)
    requires p < |items|
    ensures items[p].orderNumber in GroupKeys(items)
    ensures |ItemsWithOrder(items[..p], items[p].orderNumber)| < |ItemsWithOrder(items, items[p].orderNumber)|
    ensures ItemsWithOrder(items, items[p].orderNumber)[|ItemsWithOrder(items[..p], items[p].orderNumber)|] == items[p]
  {
    assert items[p] in items;
    FilterAt(items, p, HasOrder(items[p].orderNumber));
  }

  /** Every member of a group carries that group's order number, so no item is in two groups. */
  lemma GroupHoldsOnlyItsOrder(items: seq<Item>, key: string, item: Item)
    requires item in ItemsWithOrder(items, key)
    ensures item in items && item.orderNumber == key
  {
  }

  /** The groups together hold exactly as many items as the input. */
  lemma {:induction false} GroupSizesSum(items: seq<Item>)
    ensures SumSizes(GroupKeys(items), items) == |items|
    decreases |items|
  {
    if items != [] {
      var init, x := items[..|items| - 1], items[|items| - 1];
      assert items == init + [x];
      GroupSizesSum(init);
      GroupKeysAppend(init, x);
      var keys := GroupKeys(init);
      SumSizesAppendItem(keys, init, x);
      if x.orderNumber !in keys {
        var keys' := keys + [x.orderNumber];
        assert keys'[..|keys|] == keys;
        NoOrderNoItems(init, x.orderNumber);
        assert x.orderNumber !in OrderNumbers(init);
        ItemsWithOrderAppend(init, x, x.orderNumber);
      }
    }
  }

  /** Group keys follow first occurrence: a new order number gets the next free key position. */
  lemma {:induction false} GroupKeysPrefix(items: seq<Item>, p: nat)
    requires p <= |items|
    ensures GroupKeys(items[..p]) <= GroupKeys(items)
    decreases |items|
  {
    if p < |items| {
      var init := items[..|items| - 1];
      assert init[..p] == items[..p];
      GroupKeysPrefix(init, p);
      GroupKeysAppend(init, items[|items| - 1]);
      assert init + [items[|items| - 1]] == items;
    } else {
      assert items[..p] == items;
    }
  }

  lemma {:induction false} FirstOccurrenceOrder(items: seq<Item>, p: nat)
    requires p < |items| && items[p].orderNumber !in OrderNumbers(items[..p])
    ensures |GroupKeys(items[..p])| < |GroupKeys(items)|
    ensures GroupKeys(items)[|GroupKeys(items[..p])|] == items[p].orderNumber
  {
    assert items[..p + 1] == items[..p] + [items[p]];
    GroupKeysAppend(items[..p], items[p]);
    GroupKeysPrefix(items, p + 1);
  }
}
