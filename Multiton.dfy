/**
 * The Multiton pattern: named instances created on first access and shared
 * afterwards. The class-static `$instance` array becomes an explicit
 * registry object; no copy operation is offered.
 */
module MultitonPattern {
  import opened Php

  /** The key `getInstance` uses when it is called without one. */
  const DefaultKey: Key := StrKey("default")

  /** Multiton.php's `Config`: its `init()` is empty. */
  class Config {
    /** The property `$this->config`, which the class never declares: None until some code assigns it. */
    var config: Option<seq<Entry>>

    constructor ()
      ensures config == None
    {
      config := None;
    }

    /** `$this->config[$key] ?? null`. */
    method Get(key: Key) returns (v: Value)
      ensures config.None? ==> v == Null
      ensures config.Some? && HasKey(config.value, NormalizeKey(key)) ==>
        exists i :: 0 <= i < |config.value| && config.value[i] == Entry(NormalizeKey(key), v) &&
          forall j :: 0 <= j < i ==> config.value[j].key != NormalizeKey(key)
      ensures config.Some? && !HasKey(config.value, NormalizeKey(key)) ==> v == Null
    {
      v := match config
        case None => Null
        case Some(a) => Index(a, NormalizeKey(key));
    }
  }

  /** The trait's `static::$instance` array, keyed as PHP stores array keys. */
  class Registry {
    var instances: map<Key, Config>

    ghost predicate Valid()
      reads this
    {
      forall k :: k in instances ==> IsNormal(k)
    }

    constructor ()
      ensures Valid() && instances == map[]
    {
      instances := map[];
    }

    /** The instance stored under `key`, created and stored first if there is none. */
    method GetInstance(key: Key := DefaultKey) returns (c: Config)
      requires Valid()
      modifies this
      ensures Valid()
      ensures NormalizeKey(key) in old(instances) ==>
        c == old(instances)[NormalizeKey(key)] && instances == old(instances)
      ensures NormalizeKey(key) !in old(instances) ==>
        fresh(c) && c.config == None && instances == old(instances)[NormalizeKey(key) := c]
    {
      var k := NormalizeKey(key);
      if k in instances {
        c := instances[k];
      } else {
        c := new Config();
        instances := instances[k := c];
      }
    }
  }

  /**
   * A second `getInstance` with the same key returns the same instance and
   * leaves the registry as the first call left it; entries under other keys
   * are never touched and at most one entry is added.
   */
  method GetInstanceTwice(r: Registry, key: Key) returns (c1: Config, c2: Config)
    requires r.Valid()
    modifies r
    ensures c1 == c2 && NormalizeKey(key) in r.instances && r.instances[NormalizeKey(key)] == c1
    ensures r.instances.Keys == old(r.instances).Keys + {NormalizeKey(key)}
    ensures forall k :: k in old(r.instances) ==> r.instances[k] == old(r.instances)[k]
  {
    c1 := r.GetInstance(key);
    c2 := r.GetInstance(key);
  }

  /** `getInstance('5')` and `getInstance(5)` name the same instance. */
  method IntegerStringSharesInstance(r: Registry, n: int) returns (c1: Config, c2: Config)
    requires r.Valid() && IntMin <= n <= IntMax
    modifies r
    ensures c1 == c2
  {
    KeyOfStringIsInt(Decimal(n), n);
    c1 := r.GetInstance(IntKey(n));
    c2 := r.GetInstance(StrKey(Decimal(n)));
  }

  /** The client script: `Config::getInstance('catalog')->get('pagination')` is null. */
  method ClientScript() returns (v: Value)
    ensures v == Null
  {
    var r := new Registry();
    var config := r.GetInstance(StrKey("catalog"));
    v := config.Get(StrKey("pagination"));
  }

  /** Without a key, `getInstance` uses the 'default' entry. */
  method DefaultInstance() returns (c1: Config, c2: Config)
    ensures c1 == c2
  {
    var r := new Registry();
    c1 := r.GetInstance();
    c2 := r.GetInstance(StrKey("default"));
  }
}
