# Design-pattern demos, modelled in Dafny

The repository is a set of small PHP demonstrations of classic
object-oriented patterns. Their business logic is mostly stubbed out, so this
model captures the bookkeeping around the stubs, one Dafny module per PHP
file:

- `IteratorPattern` (Iterator.dfy): `Iterator` is an index over its own copy
  of a list, with `current/next/key/valid/rewind`. `Collect` is an
  append-only list that hands out fresh cursors and reads its first item.
  `Foreach` is the protocol a PHP `foreach` runs over a cursor; its result is
  tied to the specification function `Visits`.
- `ObserverPattern` (Observer.dfy): `Subject` has an int state and an
  insertion-ordered, identity-deduplicated registry of observers (PHP's
  `SplObjectStorage`). `Notify` returns the log of `update` calls it makes:
  who was called, the state it read, and the branch it took.
- `MultitonPattern` (Multiton.dfy): a registry of named `Config` instances
  that creates an instance on first access and shares it afterwards.
- `BuilderPattern` (Builder.dfy): fluent setters that each overwrite one field
  of a `Listing`. `ActionBuilder` also fills `arrFilter`. `Director` runs two
  fixed setter recipes.
- `PrototypePattern` (Prototype.dfy): PHP's `clone` as a shallow copy followed
  by `__clone`, which resets three fields and deep-copies the `DateTime`.
- `AbstractFactoryPattern` (AbstractFactory.dfy): two factories with fixed
  product families, and a client that appends `maxItems` items.
- `Php` (Php.dfy): the PHP values these files use. That covers nullable
  results, thrown errors, array keys and their normalisation (a string such
  as "5" is stored as the int key 5), and ordered arrays with reads of
  absent keys.

Observers are modelled as distinct natural numbers that stand for object
identity. Both observer classes share `Observer1::update`. The part of the
program Dafny cannot see becomes a parameter:

- the random new state of `Subject::execute`;
- the clock reading behind `new \DateTime()`;
- the rows the database query of `Listing::fetch` returns.

Where the code behaves differently from what the pattern usually promises,
the model follows the code, with three exceptions: the call to `rand`, the
undefined `action2`, and the undefined engine and tire classes. Each of these
makes the PHP throw, and the model describes the run the code evidently
intends. "## Left out" says what the PHP does instead. Elsewhere:

- `Collect::first` on an empty list returns null (PHP warns, it does not
  throw);
- `Iterator::current` past the end returns null;
- nothing bounds the cursor index by the list length: `next` can step past
  the end, and `valid` is then false;
- `valid` is `isset`, so a null element also ends a traversal;
- `attach` of an already registered observer keeps a single entry (an object
  set), without moving it.

## Model

| member | source | states |
|---|---|---|
| `Php.NormalizeKey` | Multiton.php:17-21 | an int or string key becomes the key PHP stores: int keys are kept, and the result is always in normal form |
| `Php.KeyOfStringIsInt` | Multiton.php:19-21 | a string key and an int key name the same array slot exactly when the string is the int's decimal rendering and the int fits in 64 bits |
| `Php.DecimalRoundTrip` | Multiton.php:19-21 | every int's decimal rendering is an integer string that reads back as that int |
| `Php.IntegerStringRoundTrip` | Multiton.php:19-21 | every integer string is the decimal rendering of the int it reads as |
| `Php.Lookup` | Multiton.php:56 | an array read finds a value exactly when some entry has the key, and the value found is the one stored in the first entry with that key |
| `Php.Index` | Builder.php:104 | reading `$a[$k]` gives the value stored in the first entry with key `k`, or null when the key is absent |
| `IteratorPattern.Iterator.constructor` | Iterator.php:14-20 | a new cursor holds a copy of the items and starts at key 0 |
| `IteratorPattern.Iterator.Current` | Iterator.php:22-25 | the item at the index, or null past the end |
| `IteratorPattern.Iterator.Next` | Iterator.php:27-30 | the index grows by exactly one; the items are a constant copy and cannot change |
| `IteratorPattern.Iterator.Key` | Iterator.php:32-35 | the key is the current index |
| `IteratorPattern.Iterator.Valid` | Iterator.php:37-40 | valid exactly when an element exists at the index and is not null |
| `IteratorPattern.Iterator.Rewind` | Iterator.php:42-45 | the index is back at 0 from any position |
| `IteratorPattern.VisitsFromAll` | Iterator.php:22-45 | over a list without nulls, a traversal from index i yields every remaining item once, in order, keyed by its index |
| `IteratorPattern.VisitsAll` | Iterator.php:12-46 | over a list without nulls, a traversal from a rewound cursor yields keys 0..n-1 with the items in order |
| `IteratorPattern.VisitsFromBounded` | Iterator.php:37-40 | a traversal never yields more pairs than there are items left, and every pair is an index with its non-null item |
| `IteratorPattern.Foreach` | Iterator.php:79-81 | rewind, then read key and current and step while valid: the result is `Visits(items)`, and afterwards the cursor is not valid |
| `IteratorPattern.Collect.constructor` | Iterator.php:53-56 | the collection holds the given items |
| `IteratorPattern.Collect.GetIterator` | Iterator.php:58-61 | a fresh cursor at key 0 over a copy of the current items |
| `IteratorPattern.Collect.AddItem` | Iterator.php:63-66 | the item is appended at the end and the earlier items are unchanged |
| `IteratorPattern.Collect.First` | Iterator.php:68-71 | item 0 of a non-empty collection, null for an empty one |
| `IteratorPattern.TraverseTwiceAcrossAppend` | Iterator.php:58-66 | rewinding and traversing again yields the same pairs, even after an `addItem` on the collection, which the cursor does not see |
| `IteratorPattern.IndependentCursors` | Iterator.php:58-61 | two cursors from one collection advance independently |
| `IteratorPattern.OrangeLemon` | Iterator.php:78-83 | `['orange', 'lemon']` yields 0=>orange, 1=>lemon, and `first()` is orange |
| `ObserverPattern.Choose` | Observer.php:67-74 | action1 is chosen exactly when the state is 25 |
| `ObserverPattern.Attach` | Observer.php:28-31 | a new observer is added last; a registered one is not added again; the set of members grows by exactly that observer; no duplicates arise |
| `ObserverPattern.Detach` | Observer.php:33-36 | `detach($o)` never makes the registry longer |
| `ObserverPattern.DetachKeepsOrder` | Observer.php:33-36 | detaching a registered observer removes its one entry, and the other observers keep their registration order |
| `ObserverPattern.DetachMembers` | Observer.php:33-36 | after `detach($o)` the registry holds exactly the old members other than `o` |
| `ObserverPattern.DetachAbsent` | Observer.php:33-36 | detaching an observer that is not registered changes nothing |
| `ObserverPattern.DetachNoDuplicates` | Observer.php:33-36 | detaching keeps the registry free of duplicates |
| `ObserverPattern.DeliveriesInOrder` | Observer.php:38-43 | a fan-out calls exactly the registered observers in registration order, and each one sees the current state |
| `ObserverPattern.NotifiedExactlyOnce` | Observer.php:38-43 | every registered observer is called exactly once per notification and no other observer is called |
| `ObserverPattern.DetachedNotCalled` | Observer.php:33-43 | after `detach($o)`, a notification never calls `o` |
| `ObserverPattern.DetachUndoesAttach` | Observer.php:28-36 | detaching an observer that was just attached restores the registry |
| `ObserverPattern.Subject.constructor` | Observer.php:19-26 | a new subject has state 0 and no observers |
| `ObserverPattern.Subject.AttachObserver` | Observer.php:28-31 | the registry becomes `Attach(old, o)`; the state is unchanged |
| `ObserverPattern.Subject.DetachObserver` | Observer.php:33-36 | the registry becomes `Detach(old, o)`; the state is unchanged |
| `ObserverPattern.Subject.GetState` | Observer.php:45-48 | returns the current state and changes nothing |
| `ObserverPattern.Update` | Observer.php:67-74 | the observer reads the subject's state and takes action1 exactly when it is 25; the subject is not modified |
| `ObserverPattern.Subject.Notify` | Observer.php:38-43 | the calls made are `Deliveries(observers, state)`, one per registered observer in order |
| `ObserverPattern.Subject.Execute` | Observer.php:54-61 | the state is assigned first, so every observer sees the new state; the registry is unchanged |
| `ObserverPattern.ClientScript` | Observer.php:90-97 | two attached observers are called in attachment order and both see the new state |
| `ObserverPattern.AttachDetachExecute` | Observer.php:28-61 | attaching twice keeps one entry, and a detached observer is not called by `execute` |
| `MultitonPattern.Config.constructor` | Multiton.php:27-37 | a new instance has no `config` property (its `init` is empty) |
| `MultitonPattern.Config.Get` | Multiton.php:54-57 | the value stored in the first entry with the normalised key, or null when the key is absent or `config` was never assigned |
| `MultitonPattern.Registry.constructor` | Multiton.php:12 | the registry starts empty |
| `MultitonPattern.Registry.GetInstance` | Multiton.php:17-22 | returns the instance under the normalised key; if there is none, it stores a fresh one under that key and nothing else changes |
| `MultitonPattern.GetInstanceTwice` | Multiton.php:19-21 | a second call with the same key returns the same instance; other keys keep their entries and at most one key is added |
| `MultitonPattern.IntegerStringSharesInstance` | Multiton.php:19-21 | `getInstance("5")` and `getInstance(5)` return the same instance |
| `MultitonPattern.ClientScript` | Multiton.php:65-66 | `Config::getInstance('catalog')->get('pagination')` is null |
| `MultitonPattern.DefaultInstance` | Multiton.php:17 | a call without a key uses the 'default' entry |
| `BuilderPattern.Listing.constructor` | Builder.php:121-129 | a new listing: arFilter=[], arNavParams=false, store=null, force=false, rank=[], maxItems=null, no arrFilter |
| `BuilderPattern.ArrFilterAfter` | Builder.php:101-106 | a plain builder leaves arrFilter alone; an action builder sets it to the value of the first `arrFilter` entry of `filter`, or null when that key is absent |
| `BuilderPattern.ListingBuilder.constructor` | Builder.php:31-34 | a new builder owns a fresh listing with the defaults |
| `BuilderPattern.ListingBuilder.SetFilter` | Builder.php:36-40 | only arFilter changes, and arrFilter too for an action builder; the builder itself is returned |
| `BuilderPattern.ListingBuilder.SetNavParams` | Builder.php:42-46 | only arNavParams changes; the builder itself is returned |
| `BuilderPattern.ListingBuilder.SetStoreId` | Builder.php:48-52 | only store changes; the builder itself is returned |
| `BuilderPattern.ListingBuilder.SetForce` | Builder.php:54-58 | only force changes; the builder itself is returned |
| `BuilderPattern.ListingBuilder.SetRank` | Builder.php:60-64 | only rank changes; the builder itself is returned |
| `BuilderPattern.ListingBuilder.SetMaxItems` | Builder.php:66-70 | only maxItems changes; the builder itself is returned |
| `BuilderPattern.ListingBuilder.GetResult` | Builder.php:89-92 | returns the query's rows and leaves the listing untouched |
| `BuilderPattern.Director.constructor` | Builder.php:142 | a new director has no builder |
| `BuilderPattern.Director.SetBuilder` | Builder.php:144-147 | the director uses the given builder |
| `BuilderPattern.Director.BuildFull` | Builder.php:155-166 | applies the full recipe (`FullRecipe`) to the builder's listing and returns the rows; throws when no builder was set |
| `BuilderPattern.Director.Build` | Builder.php:168-176 | applies filter, max items and force only (`ShortRecipe`) and returns the rows; throws when no builder was set |
| `BuilderPattern.BuildFullOnFreshBuilder` | Builder.php:210-213 | on a fresh builder: filter={filter1:123}, maxItems=20, navParams={paginate:20}, store=2, rank=[item1,item2], force=true |
| `BuilderPattern.BuildOnFreshBuilder` | Builder.php:168-176 | on a fresh builder: filter, maxItems=20 and force=true are set; navParams, store and rank keep their defaults |
| `BuilderPattern.BuildWithoutBuilder` | Builder.php:142 | building before `setBuilder` throws |
| `BuilderPattern.ActionChain` | Builder.php:199-207 | the ActionBuilder chain without a director: arrFilter is created holding null, because the filter has no 'arrFilter' entry |
| `BuilderPattern.SetMaxItemsTwice` | Builder.php:66-70 | a setter called twice keeps the last value and changes nothing else |
| `PrototypePattern.DateTime.constructor` | Prototype.php:34 | a date holds the given moment |
| `PrototypePattern.DateTime.Clone` | Prototype.php:47 | a distinct date object holding the same moment |
| `PrototypePattern.Prototype.constructor` | Prototype.php:29-35 | stores the two arguments, sets public to 'origin', and makes a fresh date |
| `PrototypePattern.Prototype.ShallowCopy` | Prototype.php:24-28 | the copy `clone` makes has every field of the original, the date shared; the constructor does not run |
| `PrototypePattern.Prototype.OnClone` | Prototype.php:37-48 | private, protected and public become null, and the date is replaced by a fresh copy with the same moment |
| `PrototypePattern.Prototype.Clone` | Prototype.php:37-48 | a fresh prototype with three null fields and its own date holding the original's moment; the original is not modified |
| `PrototypePattern.ClientScript` | Prototype.php:61-64 | the original keeps 111, 222 and 'origin change'; the clone holds nulls; changing the clone's date leaves the original's alone |
| `AbstractFactoryPattern.BuildCorpus` | AbstractFactory.php:37-73 | each factory's corpus belongs to its own family |
| `AbstractFactoryPattern.BuildEngine` | AbstractFactory.php:37-73 | each factory's engine belongs to its own family |
| `AbstractFactoryPattern.BuildTire` | AbstractFactory.php:37-73 | each factory's tire belongs to its own family |
| `AbstractFactoryPattern.Create` | AbstractFactory.php:78-90 | the Panzer corpus and the Kraz corpus each return their own fixed string |
| `AbstractFactoryPattern.NewItem` | AbstractFactory.php:100-107 | three products in the order corpus, engine, tire, all from the given factory |
| `AbstractFactoryPattern.ClientCode.constructor` | AbstractFactory.php:98 | the typed items property starts uninitialised |
| `AbstractFactoryPattern.ClientCode.Execute` | AbstractFactory.php:109-114 | appends exactly max(n, 0) items, each a `NewItem(factory)`; earlier items are unchanged; no append leaves the property as it was |
| `AbstractFactoryPattern.ClientCode.GetResults` | AbstractFactory.php:116-119 | returns the items, or throws while the property is uninitialised |
| `AbstractFactoryPattern.ClientScript` | AbstractFactory.php:122-127 | thirty items, each a Panzer corpus, engine and tire (the intended result: as written, the missing engine class makes the script throw) |
| `AbstractFactoryPattern.ResultsBeforeExecute` | AbstractFactory.php:109-119 | with no item appended, `getResults` throws |

## Left out

- The random draw of `Subject::execute` is not modelled: the new state is a parameter. As written, the call is `rand(100)` (Observer.php:57). PHP's `rand` takes zero or two arguments, so that call throws an `ArgumentCountError`, and `execute` then neither assigns `state` nor notifies anyone. `Subject.Execute` models the intended run instead.
- The bodies of `action1` and `action2` are left out: both are modelled only as the branch taken. `action1` is empty, but `action2` is not defined anywhere. So for every state other than 25, `update` (Observer.php:72) throws an `Error`, and `notify` stops at the first observer. `Deliveries` and `Subject.Notify` instead reach every registered observer, which is the intended behaviour.
- Attaching or detaching observers while a notification is running is not modelled. `update` here never touches the registry.
- Raised PHP warnings are not modelled, only the value PHP returns: an undefined array key and reading past a cursor's end both warn, and creating the `arrFilter` dynamic property raises a deprecation notice in PHP 8.2.
- Only list arrays are given to `Iterator` and `Collect`. An array with other keys would give `key()` the wrong meaning.
- `foreach` and `\IteratorAggregate` delegation are not modelled as language features. `Foreach` runs the same protocol on a cursor it is given.
- `Multiton::__clone` and `__wakeup` are left out: they only raise runtime errors. The registry simply offers no copy operation. Late static binding is not modelled: `Config` is the only class that uses the trait.
- `Config`'s `config` property is modelled only as undefined or an array, because nothing in the repository assigns it.
- `Listing::fetch` is not modelled: it is a database query. Its rows are a parameter, and the demo's query does not depend on the listing's settings.
- Ints are unbounded. The core's only arithmetic is counting up: `$this->index++` (Iterator.php:29) and the loop counter `$i++` (AbstractFactory.php:111). Neither can reach `PHP_INT_MAX` in any run the demos make, so the overflow to float is not modelled. PHP's 64-bit width is modelled where it matters, in key normalisation.
- DateTime clock reads and formatting are not modelled, and neither are `debug`, `print_r`, `var_dump` and `echo`. A date is an abstract moment passed in.
- The interfaces `EngineProduct` and `TireProduct` are not defined in the repository. Neither are the concrete classes `PanzerEngine`, `PanzerTire`, `KrazEngine` and `KrazTire` (AbstractFactory.php:47,52,66,71). So, as written, `buildEngine` throws an `Error` (`Class "Patterns\PanzerEngine" not found`), and the client script at AbstractFactory.php:127 ends with that error. `BuildEngine`, `BuildTire`, `NewItem`, `ClientCode.Execute` and `AbstractFactoryPattern.ClientScript` model the intended result, a triple of tags per item. All products are opaque tags.
- FactoryMethod.php is not part of this model: it is database access, an ORM and message sending.
- Facade.php is not part of this model: it wraps an image library and file storage.
- Strategy.php is not part of this model: it instantiates classes by runtime name, over undefined classes.
- `ClientCode::execute` auto-creates `$items` on its first append; the model relies on PHP doing this for an uninitialised typed array property.
