/**
 * The Abstract Factory pattern: two factories, each building one family of
 * corpus, engine and tire, and a client that fills a list with items built
 * by one factory.
 */
module AbstractFactoryPattern {
  import opened Php

  datatype Factory = MilitaryFactory | ManufacturingFactory

  /** The concrete products, as opaque tags. */
  datatype Product =
    | PanzerCorpus | PanzerEngine | PanzerTire
    | KrazCorpus | KrazEngine | KrazTire

  /** The factory whose family a product belongs to. */
  function FamilyOf(p: Product): Factory
  {
    match p
    case PanzerCorpus | PanzerEngine | PanzerTire => MilitaryFactory
    case KrazCorpus | KrazEngine | KrazTire => ManufacturingFactory
  }

  predicate IsCorpus(p: Product) { p == PanzerCorpus || p == KrazCorpus }
  predicate IsEngine(p: Product) { p == PanzerEngine || p == KrazEngine }
  predicate IsTire(p: Product) { p == PanzerTire || p == KrazTire }

  function BuildCorpus(f: Factory): (p: Product)
    ensures IsCorpus(p) && FamilyOf(p) == f
  {
    match f
    case MilitaryFactory => PanzerCorpus
    case ManufacturingFactory => KrazCorpus
  }

  function BuildEngine(f: Factory): (p: Product)
    ensures IsEngine(p) && FamilyOf(p) == f
  {
    match f
    case MilitaryFactory => PanzerEngine
    case ManufacturingFactory => KrazEngine
  }

  function BuildTire(f: Factory): (p: Product)
    ensures IsTire(p) && FamilyOf(p) == f
  {
    match f
    case MilitaryFactory => PanzerTire
    case ManufacturingFactory => KrazTire
  }

  const PanzerDescription: string := "гусеницы + стальные колеса"
  const KrazDescription: string := "обычные резиновые покрышки"

  /** `CorpusProduct::create`: the fixed description of each corpus. */
  function Create(p: Product): (s: string)
    requires IsCorpus(p)
    ensures FamilyOf(p) == MilitaryFactory <==> s == PanzerDescription
    ensures FamilyOf(p) == ManufacturingFactory <==> s == KrazDescription
  {
    if p == PanzerCorpus then PanzerDescription else KrazDescription
  }

  /** `ClientCode::newItem`: `[corpus, engine, tire]`, all from `factory`. */
  function NewItem(factory: Factory): (item: seq<Product>)
    ensures |item| == 3 && IsCorpus(item[0]) && IsEngine(item[1]) && IsTire(item[2])
    ensures forall i :: 0 <= i < |item| ==> FamilyOf(item[i]) == factory
  {
    [BuildCorpus(factory), BuildEngine(factory), BuildTire(factory)]
  }

  /** The error `getResults` throws when no item was ever appended. */
  const UninitializedItems: string :=
    "Typed property Patterns\\ClientCode::$items must not be accessed before initialization"

  /** AbstractFactory.php's `ClientCode`; its typed `$items` starts uninitialised. */
  class ClientCode {
    var items: Option<seq<seq<Product>>>

    constructor ()
      ensures items == None
    {
      items := None;
    }

    function ItemsOrEmpty(): seq<seq<Product>>
      reads this
    {
      if items.Some? then items.value else []
    }

    /** Appends `max(maxItems, 0)` items from `factory`; the first append creates the list. */
    method Execute(factory: Factory, maxItems: int)
      modifies this
      ensures maxItems <= 0 ==> items == old(items)
      ensures maxItems > 0 ==> items.Some? && |items.value| == |old(ItemsOrEmpty())| + maxItems
      ensures maxItems > 0 ==> items.value[..|old(ItemsOrEmpty())|] == old(ItemsOrEmpty())
      ensures forall j :: |old(ItemsOrEmpty())| <= j < |ItemsOrEmpty()| ==> ItemsOrEmpty()[j] == NewItem(factory)
    {
      ghost var before := ItemsOrEmpty();
      var i := 0;
      while i < maxItems
        invariant 0 <= i
        invariant i <= 0 ==> items == old(items)
        invariant 0 < i ==> i <= maxItems && items.Some? && |items.value| == |before| + i
        invariant 0 < i ==> items.value[..|before|] == before
        invariant forall j :: |before| <= j < |ItemsOrEmpty()| ==> ItemsOrEmpty()[j] == NewItem(factory)
        decreases maxItems - i
      {
        items := Some(ItemsOrEmpty() + [NewItem(factory)]);
        i := i + 1;
      }
    }

    /** `return $this->items`, which throws while the property is uninitialised. */
    method GetResults() returns (r: Outcome<seq<seq<Product>>>)
      ensures items.None? ==> r == Threw(UninitializedItems)
      ensures items.Some? ==> r == Returned(items.value)
    {
      r := if items.Some? then Returned(items.value) else Threw(UninitializedItems);
    }
  }

  /** The client script: thirty items, each a Panzer corpus, engine and tire. */
  method ClientScript() returns (r: Outcome<seq<seq<Product>>>)
    ensures r.Returned? && |r.value| == 30
    ensures forall j :: 0 <= j < 30 ==> r.value[j] == [PanzerCorpus, PanzerEngine, PanzerTire]
  {
    var example := new ClientCode();
    example.Execute(MilitaryFactory, 30);
    assert NewItem(MilitaryFactory) == [PanzerCorpus, PanzerEngine, PanzerTire];
    assert example.ItemsOrEmpty() == example.items.value;
    r := example.GetResults();
  }

  /** `getResults` on a client that never appended throws. */
  method ResultsBeforeExecute(maxItems: int) returns (r: Outcome<seq<seq<Product>>>)
    requires maxItems <= 0
    ensures r == Threw(UninitializedItems)
  {
    var example := new ClientCode();
    example.Execute(ManufacturingFactory, maxItems);
    r := example.GetResults();
  }
}
