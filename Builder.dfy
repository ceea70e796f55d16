/**
 * The Builder pattern: a builder whose fluent setters each overwrite one
 * field of a `Listing`, a subclass whose `setFilter` also fills `arrFilter`,
 * and a director that applies fixed setter sequences.
 */
module BuilderPattern {
  import opened Php

  /** A snapshot of every field of a `Listing`. */
  datatype Settings = Settings(
    arFilter: Value,
    arrFilter: Option<Value>,
    arNavParams: Value,
    store: Value,
    force: Value,
    rank: Value,
    maxItems: Value)

  /** The values a `Listing` starts with; `arrFilter` is not declared, so it starts absent. */
  const Defaults: Settings :=
    Settings(Arr([]), None, Bool(false), Null, Bool(false), Arr([]), Null)

  /** Builder.php's `Listing`: untyped public fields. */
  class Listing {
    var arFilter: Value
    /** A dynamic property: None until `ActionBuilder::setFilter` creates it. */
    var arrFilter: Option<Value>
    var arNavParams: Value
    var store: Value
    var force: Value
    var rank: Value
    var maxItems: Value

    constructor ()
      ensures Snapshot() == Defaults
    {
      arFilter, arrFilter, arNavParams := Arr([]), None, Bool(false);
      store, force, rank, maxItems := Null, Bool(false), Arr([]), Null;
    }

    function Snapshot(): Settings
      reads this
    {
      Settings(arFilter, arrFilter, arNavParams, store, force, rank, maxItems)
    }
  }

  /** Which of the two concrete builders an object is. */
  datatype BuilderKind = ListingKind | ActionKind

  /** The value `setFilter` leaves in `arrFilter`: ActionBuilder reads `$filter['arrFilter']`. */
  function ArrFilterAfter(kind: BuilderKind, before: Option<Value>, filter: seq<Entry>): (r: Option<Value>)
    ensures kind == ListingKind ==> r == before
    ensures kind == ActionKind && HasKey(filter, StrKey("arrFilter")) ==>
      exists i :: 0 <= i < |filter| && r == Some(filter[i].value) && filter[i].key == StrKey("arrFilter") &&
        forall j :: 0 <= j < i ==> filter[j].key != StrKey("arrFilter")
    ensures kind == ActionKind && !HasKey(filter, StrKey("arrFilter")) ==> r == Some(Null)
  {
    match kind
    case ListingKind => before
    case ActionKind => Some(Index(filter, StrKey("arrFilter")))
  }

  /**
   * Builder.php's `ListingBuilder`, and `ActionBuilder` when `kind` is
   * `ActionKind`. Every setter returns the builder itself.
   */
  class ListingBuilder {
    const kind: BuilderKind
    const listing: Listing

    constructor (kind: BuilderKind)
      ensures this.kind == kind && fresh(listing) && listing.Snapshot() == Defaults
    {
      this.kind := kind;
      listing := new Listing();
    }

    method SetFilter(filter: seq<Entry>) returns (b: ListingBuilder)
      modifies listing
      ensures b == this
      ensures listing.Snapshot() == old(listing.Snapshot()).(
        arFilter := Arr(filter),
        arrFilter := ArrFilterAfter(kind, old(listing.arrFilter), filter))
    {
      listing.arFilter := Arr(filter);
      if kind == ActionKind {
        listing.arrFilter := Some(Index(filter, StrKey("arrFilter")));
      }
      b := this;
    }

    method SetNavParams(params: seq<Entry>) returns (b: ListingBuilder)
      modifies listing
      ensures b == this
      ensures listing.Snapshot() == old(listing.Snapshot()).(arNavParams := Arr(params))
    {
      listing.arNavParams := Arr(params);
      b := this;
    }

    method SetStoreId(storeId: int) returns (b: ListingBuilder)
      modifies listing
      ensures b == this
      ensures listing.Snapshot() == old(listing.Snapshot()).(store := Int(storeId))
    {
      listing.store := Int(storeId);
      b := this;
    }

    method SetForce(flag: bool) returns (b: ListingBuilder)
      modifies listing
      ensures b == this
      ensures listing.Snapshot() == old(listing.Snapshot()).(force := Bool(flag))
    {
      listing.force := Bool(flag);
      b := this;
    }

    method SetRank(rank: seq<Entry>) returns (b: ListingBuilder)
      modifies listing
      ensures b == this
      ensures listing.Snapshot() == old(listing.Snapshot()).(rank := Arr(rank))
    {
      listing.rank := Arr(rank);
      b := this;
    }

    method SetMaxItems(max: int) returns (b: ListingBuilder)
      modifies listing
      ensures b == this
      ensures listing.Snapshot() == old(listing.Snapshot()).(maxItems := Int(max))
    {
      listing.maxItems := Int(max);
      b := this;
    }

    /** `$this->listing->fetch()`: the rows of a database query, which is given here as `rows`. */
    method GetResult(rows: seq<Value>) returns (r: seq<Value>)
      ensures r == rows
    {
      r := rows;
    }
  }

  /** `['filter1' => 123]`, the filter both director recipes use. */
  const DirectorFilter: seq<Entry> := [Entry(StrKey("filter1"), Int(123))]
  /** `['paginate' => 20]` */
  const DirectorNavParams: seq<Entry> := [Entry(StrKey("paginate"), Int(20))]
  /** `['item1', 'item2']` */
  const DirectorRank: seq<Entry> := [Entry(IntKey(0), Str("item1")), Entry(IntKey(1), Str("item2"))]

  /** What `buildFull` leaves in a listing that was in state `s`. */
  function FullRecipe(kind: BuilderKind, s: Settings): Settings
  {
    s.(arFilter := Arr(DirectorFilter), arrFilter := ArrFilterAfter(kind, s.arrFilter, DirectorFilter),
       maxItems := Int(20), arNavParams := Arr(DirectorNavParams), store := Int(2),
       rank := Arr(DirectorRank), force := Bool(true))
  }

  /** What `build` leaves in a listing that was in state `s`. */
  function ShortRecipe(kind: BuilderKind, s: Settings): Settings
  {
    s.(arFilter := Arr(DirectorFilter), arrFilter := ArrFilterAfter(kind, s.arrFilter, DirectorFilter),
       maxItems := Int(20), force := Bool(true))
  }

  const UninitializedBuilder: string :=
    "Typed property Patterns\\Director::$builder must not be accessed before initialization"

  /** Builder.php's `Director`. Its typed `$builder` property starts uninitialised. */
  class Director {
    var builder: ListingBuilder?

    constructor ()
      ensures builder == null
    {
      builder := null;
    }

    method SetBuilder(b: ListingBuilder)
      modifies this
      ensures builder == b
    {
      builder := b;
    }

    /** Filter, max items, navigation, store, rank and force, then the query result. */
    method BuildFull(rows: seq<Value>) returns (r: Outcome<seq<Value>>)
      modifies if builder == null then {} else {builder.listing}
      ensures builder == old(builder)
      ensures builder == null ==> r == Threw(UninitializedBuilder)
      ensures builder != null ==> r == Returned(rows)
      ensures builder != null ==>
        builder.listing.Snapshot() == FullRecipe(builder.kind, old(builder.listing.Snapshot()))
    {
      if builder == null {
        return Threw(UninitializedBuilder);
      }
      var b := builder.SetFilter(DirectorFilter);
      b := b.SetMaxItems(20);
      b := b.SetNavParams(DirectorNavParams);
      b := b.SetStoreId(2);
      b := b.SetRank(DirectorRank);
      b := b.SetForce(true);
      var rows' := builder.GetResult(rows);
      r := Returned(rows');
    }

    /** Filter, max items and force only, then the query result. */
    method Build(rows: seq<Value>) returns (r: Outcome<seq<Value>>)
      modifies if builder == null then {} else {builder.listing}
      ensures builder == old(builder)
      ensures builder == null ==> r == Threw(UninitializedBuilder)
      ensures builder != null ==> r == Returned(rows)
      ensures builder != null ==>
        builder.listing.Snapshot() == ShortRecipe(builder.kind, old(builder.listing.Snapshot()))
    {
      if builder == null {
        return Threw(UninitializedBuilder);
      }
      var b := builder.SetFilter(DirectorFilter);
      b := b.SetMaxItems(20);
      b := b.SetForce(true);
      var rows' := builder.GetResult(rows);
      r := Returned(rows');
    }
  }

  /** On a fresh builder `buildFull` leaves every field at the recipe's value. */
  method BuildFullOnFreshBuilder(rows: seq<Value>) returns (s: Settings)
    ensures s == Settings(Arr([Entry(StrKey("filter1"), Int(123))]), None,
      Arr([Entry(StrKey("paginate"), Int(20))]), Int(2), Bool(true),
      Arr([Entry(IntKey(0), Str("item1")), Entry(IntKey(1), Str("item2"))]), Int(20))
  {
    var director := new Director();
    var builder := new ListingBuilder(ListingKind);
    director.SetBuilder(builder);
    var r := director.BuildFull(rows);
    s := builder.listing.Snapshot();
  }

  /** On a fresh builder `build` sets filter, max items and force and leaves the rest at the defaults. */
  method BuildOnFreshBuilder(rows: seq<Value>) returns (s: Settings)
    ensures s == Defaults.(arFilter := Arr([Entry(StrKey("filter1"), Int(123))]), maxItems := Int(20), force := Bool(true))
    ensures s.arNavParams == Bool(false) && s.store == Null && s.rank == Arr([])
  {
    var director := new Director();
    var builder := new ListingBuilder(ListingKind);
    director.SetBuilder(builder);
    var r := director.Build(rows);
    s := builder.listing.Snapshot();
  }

  /** A director without a builder throws and changes nothing. */
  method BuildWithoutBuilder(rows: seq<Value>) returns (r: Outcome<seq<Value>>)
    ensures r.Threw?
  {
    var director := new Director();
    r := director.Build(rows);
  }

  /**
   * The client script without a director: the ActionBuilder chain. The filter
   * has no 'arrFilter' entry, so `arrFilter` is created holding null.
   */
  method ActionChain() returns (s: Settings)
    ensures s.arrFilter == Some(Null)
    ensures s.arFilter == Arr([Entry(StrKey("filter1"), Int(123))]) && s.force == Bool(true)
  {
    var action := new ListingBuilder(ActionKind);
    var b := action.SetFilter(DirectorFilter);
    b := b.SetMaxItems(20);
    b := b.SetNavParams(DirectorNavParams);
    b := b.SetStoreId(2);
    b := b.SetRank(DirectorRank);
    b := b.SetForce(true);
    s := action.listing.Snapshot();
  }

  /** A setter called twice keeps the second value. */
  method SetMaxItemsTwice(b: ListingBuilder, first: int, second: int)
    modifies b.listing
    ensures b.listing.Snapshot() == old(b.listing.Snapshot()).(maxItems := Int(second))
  {
    var b' := b.SetMaxItems(first);
    b' := b'.SetMaxItems(second);
  }
}
