/**
 * The Iterator pattern: a cursor over a private copy of a PHP list, and a
 * collection that appends items and hands out fresh cursors.
 */
module IteratorPattern {
  import opened Php

  /** A (key, value) pair as a `foreach` over a cursor yields it. */
  datatype Visit = Visit(key: nat, value: Value)

  /**
   * The pairs a traversal starting at index `i` yields: it stops at the first
   * index where `isset` fails, that is past the end or at a null element.
   */
  function VisitsFrom(items: seq<Value>, i: nat): seq<Visit>
    decreases |items| - i
  {
    if i < |items| && items[i] != Null then [Visit(i, items[i])] + VisitsFrom(items, i + 1) else []
  }

  /** The pairs a traversal from a rewound cursor yields. */
  function Visits(items: seq<Value>): seq<Visit>
  {
    VisitsFrom(items, 0)
  }

  predicate NoNulls(items: seq<Value>)
  {
    forall i :: 0 <= i < |items| ==> items[i] != Null
  }

  /**
   * Over a list without nulls, a traversal from index `i` visits every
   * remaining element once, in order, each with its own index as key.
   */
  lemma {:induction false} VisitsFromAll(items: seq<Value>, i: nat)
    requires NoNulls(items) && i <= |items|
    ensures |VisitsFrom(items, i)| == |items| - i
    ensures forall j :: 0 <= j < |items| - i ==> VisitsFrom(items, i)[j] == Visit(i + j, items[i + j])
    decreases |items| - i
  {
    if i < |items| {
      VisitsFromAll(items, i + 1);
      var rest := VisitsFrom(items, i + 1);
      var all := VisitsFrom(items, i);
      assert all == [Visit(i, items[i])] + rest;
      forall j | 0 <= j < |items| - i ensures all[j] == Visit(i + j, items[i + j]) {
        if j > 0 {
          assert all[j] == rest[j - 1];
        }
      }
    }
  }

  /** Over a list without nulls, a traversal yields keys 0..n-1 with the items in order. */
  lemma VisitsAll(items: seq<Value>)
    requires NoNulls(items)
    ensures |Visits(items)| == |items|
    ensures forall j :: 0 <= j < |items| ==> Visits(items)[j] == Visit(j, items[j])
  {
    VisitsFromAll(items, 0);
  }

  /** A traversal never yields more than the list holds, nor a null. */
  lemma {:induction false} VisitsFromBounded(items: seq<Value>, i: nat)
    ensures |VisitsFrom(items, i)| <= if i <= |items| then |items| - i else 0
    ensures forall j :: 0 <= j < |VisitsFrom(items, i)| ==>
      VisitsFrom(items, i)[j] == Visit(i + j, items[i + j]) && items[i + j] != Null
    decreases |items| - i
  {
    if i < |items| && items[i] != Null {
      VisitsFromBounded(items, i + 1);
      var rest := VisitsFrom(items, i + 1);
      var all := VisitsFrom(items, i);
      assert all == [Visit(i, items[i])] + rest;
      forall j | 0 <= j < |all| ensures all[j] == Visit(i + j, items[i + j]) && items[i + j] != Null {
        if j > 0 {
          assert all[j] == rest[j - 1];
        }
      }
    }
  }

  /** Iterator.php's `Iterator`: an index over its own copy of the items. */
  class Iterator {
    const items: seq<Value>
    var index: nat

    constructor (items: seq<Value>)
      ensures this.items == items && index == 0
    {
      this.items := items;
      index := 0;
    }

    /** The element at the index; reading past the end gives null. */
    method Current() returns (v: Value)
      ensures index < |items| ==> v == items[index]
      ensures |items| <= index ==> v == Null
    {
      v := if index < |items| then items[index] else Null;
    }

    method Next()
      modifies this
      ensures index == old(index) + 1
    {
      index := index + 1;
    }

    method Key() returns (k: nat)
      ensures k == index
    {
      k := index;
    }

    /** `isset($items[$index])`: an element exists there and is not null. */
    method Valid() returns (b: bool)
      ensures b <==> index < |items| && items[index] != Null
    {
      b := index < |items| && items[index] != Null;
    }

    method Rewind()
      modifies this
      ensures index == 0
    {
      index := 0;
    }
  }

  /**
   * What `foreach ($it as $key => $value)` does with a cursor: rewind, then
   * read key and current and step while `valid` holds.
   */
  method Foreach(it: Iterator) returns (visits: seq<Visit>)
    modifies it
    ensures visits == Visits(it.items)
    ensures it.index == |visits|
    ensures !(it.index < |it.items| && it.items[it.index] != Null)
  {
    it.Rewind();
    visits := [];
    var more := it.Valid();
    while more
      invariant visits + VisitsFrom(it.items, it.index) == Visits(it.items)
      invariant it.index == |visits|
      invariant more <==> it.index < |it.items| && it.items[it.index] != Null
      decreases |it.items| - it.index
    {
      var k := it.Key();
      var v := it.Current();
      visits := visits + [Visit(k, v)];
      it.Next();
      more := it.Valid();
    }
  }

  /** Iterator.php's `Collect`: an append-only list of items. */
  class Collect {
    var items: seq<Value>

    constructor (items: seq<Value>)
      ensures this.items == items
    {
      this.items := items;
    }

    /** A fresh cursor at index 0 over a copy of the current items. */
    method GetIterator() returns (it: Iterator)
      ensures fresh(it) && it.items == items && it.index == 0
    {
      it := new Iterator(items);
    }

    method AddItem(value: Value)
      modifies this
      ensures items == old(items) + [value]
    {
      items := items + [value];
    }

    /** `$items[0]`: the first item, or null (with a warning) when there is none. */
    method First() returns (v: Value)
      ensures |items| > 0 ==> v == items[0]
      ensures items == [] ==> v == Null
    {
      v := if |items| > 0 then items[0] else Null;
    }
  }

  /**
   * Rewinding and traversing again yields the same pairs, and a cursor
   * handed out before `addItem` keeps traversing the old items.
   */
  method TraverseTwiceAcrossAppend(c: Collect, extra: Value) returns (first: seq<Visit>, second: seq<Visit>)
    modifies c
    ensures first == second == Visits(old(c.items))
    ensures c.items == old(c.items) + [extra]
  {
    var it := c.GetIterator();
    first := Foreach(it);
    c.AddItem(extra);
    second := Foreach(it);
  }

  /** Two cursors from one collection advance independently. */
  method IndependentCursors(items: seq<Value>) returns (k1: nat, k2: nat)
    ensures k1 == 2 && k2 == 1
  {
    var c := new Collect(items);
    var a := c.GetIterator();
    var b := c.GetIterator();
    a.Next();
    b.Next();
    a.Next();
    k1 := a.Key();
    k2 := b.Key();
  }

  /** The client script: `['orange', 'lemon']` yields 0=>orange, 1=>lemon, and `first()` is orange. */
  method OrangeLemon() returns (visits: seq<Visit>, first: Value)
    ensures visits == [Visit(0, Str("orange")), Visit(1, Str("lemon"))]
    ensures first == Str("orange")
  {
    var c := new Collect([Str("orange"), Str("lemon")]);
    var it := c.GetIterator();
    visits := Foreach(it);
    VisitsAll([Str("orange"), Str("lemon")]);
    first := c.First();
  }
}
