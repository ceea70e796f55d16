/**
 * The Observer pattern: a subject with an integer state and an
 * identity-deduplicated, insertion-ordered set of observers, which it
 * notifies one by one. Observers are known by their object identity, here a
 * number; both observer classes of the demo share `Observer1::update`.
 */
module ObserverPattern {

  type ObserverId = nat

  /** The branch `Observer1::update` takes. */
  datatype Action = Action1 | Action2

  /** One `update($subject)` call: who was called, the state it read, what it did. */
  datatype Notification = Notification(observer: ObserverId, seen: int, action: Action)

  predicate NoDuplicates(s: seq<ObserverId>)
  {
    forall i, j :: 0 <= i < j < |s| ==> s[i] != s[j]
  }

  /** The branch selection of `Observer1::update` for a subject in `state`. */
  function Choose(state: int): (a: Action)
    ensures a == Action1 <==> state == 25
  {
    if state == 25 then Action1 else Action2
  }

  /** `SplObjectStorage::attach`: a new object goes last, a known one stays where it is. */
  function Attach(s: seq<ObserverId>, o: ObserverId): (r: seq<ObserverId>)
    ensures o in s ==> r == s
    ensures o !in s ==> r == s + [o]
    ensures forall x :: x in r <==> x in s || x == o
    ensures NoDuplicates(s) ==> NoDuplicates(r)
  {
    if o in s then s else s + [o]
  }

  /** `SplObjectStorage::detach`: the object is dropped, the others keep their order. */
  function Detach(s: seq<ObserverId>, o: ObserverId): (r: seq<ObserverId>)
    ensures |r| <= |s|
  {
    if s == [] then []
    else if s[0] == o then Detach(s[1..], o)
    else [s[0]] + Detach(s[1..], o)
  }

  /** Detaching removes exactly `o` from the members. */
  lemma {:induction false} DetachMembers(s: seq<ObserverId>, o: ObserverId)
    ensures forall x :: x in Detach(s, o) <==> x in s && x != o
  {
    if s != [] {
      DetachMembers(s[1..], o);
      assert forall x :: x in s <==> x == s[0] || x in s[1..];
    }
  }

  /** Detaching an observer that is not registered changes nothing. */
  lemma {:induction false} DetachAbsent(s: seq<ObserverId>, o: ObserverId)
    requires o !in s
    ensures Detach(s, o) == s
  {
    if s != [] {
      assert o !in s[1..];
      DetachAbsent(s[1..], o);
      assert s == [s[0]] + s[1..];
    }
  }

  /**
   * Detaching a registered observer removes its one entry and leaves the
   * others where they were, in registration order.
   */
  lemma {:induction false} DetachKeepsOrder(s: seq<ObserverId>, o: ObserverId, i: nat)
    requires NoDuplicates(s) && i < |s| && s[i] == o
    ensures Detach(s, o) == s[..i] + s[i + 1..]
  {
    NoDuplicatesTail(s);
    if i == 0 {
      DetachAbsent(s[1..], o);
    } else {
      DetachKeepsOrder(s[1..], o, i - 1);
      assert s[1..][..i - 1] == s[1..i];
      assert s[1..][i..] == s[i + 1..];
      assert s[..i] == [s[0]] + s[1..i];
    }
  }

  /** Detaching keeps the registry free of duplicates. */
  lemma {:induction false} DetachNoDuplicates(s: seq<ObserverId>, o: ObserverId)
    requires NoDuplicates(s)
    ensures NoDuplicates(Detach(s, o))
  {
    if s != [] {
      NoDuplicatesTail(s);
      DetachNoDuplicates(s[1..], o);
      if s[0] != o {
        DetachMembers(s[1..], o);
        NoDuplicatesCons(s[0], Detach(s[1..], o));
      }
    }
  }

  lemma NoDuplicatesTail(s: seq<ObserverId>)
    requires NoDuplicates(s) && s != []
    ensures NoDuplicates(s[1..]) && s[0] !in s[1..]
  {
  }

  lemma NoDuplicatesCons(x: ObserverId, t: seq<ObserverId>)
    requires NoDuplicates(t) && x !in t
    ensures NoDuplicates([x] + t)
  {
  }

  /** The calls a fan-out over `observers` makes when every one of them reads `state`. */
  function Deliveries(observers: seq<ObserverId>, state: int): (log: seq<Notification>)
  {
    if observers == [] then []
    else [Notification(observers[0], state, Choose(state))] + Deliveries(observers[1..], state)
  }

  /** The observers a notification log called, in call order. */
  function Called(log: seq<Notification>): seq<ObserverId>
  {
    if log == [] then [] else [log[0].observer] + Called(log[1..])
  }

  /** How many times `o` occurs in `s`. */
  function Count(s: seq<ObserverId>, o: ObserverId): nat
  {
    if s == [] then 0 else (if s[0] == o then 1 else 0) + Count(s[1..], o)
  }

  /** A fan-out calls exactly the registered observers, in registration order, each seeing `state`. */
  lemma {:induction false} DeliveriesInOrder(observers: seq<ObserverId>, state: int)
    ensures Called(Deliveries(observers, state)) == observers
    ensures |Deliveries(observers, state)| == |observers|
    ensures forall i :: 0 <= i < |observers| ==>
      Deliveries(observers, state)[i] == Notification(observers[i], state, Choose(state))
  {
    if observers != [] {
      DeliveriesInOrder(observers[1..], state);
    }
  }

  lemma {:induction false} CountNoDuplicates(s: seq<ObserverId>, o: ObserverId)
    requires NoDuplicates(s)
    ensures Count(s, o) == if o in s then 1 else 0
  {
    if s != [] {
      NoDuplicatesTail(s);
      CountNoDuplicates(s[1..], o);
    }
  }

  /**
   * Over a duplicate-free registry every attached observer is called exactly
   * once and no other observer is called at all.
   */
  lemma {:induction false} NotifiedExactlyOnce(observers: seq<ObserverId>, state: int, o: ObserverId)
    requires NoDuplicates(observers)
    ensures Count(Called(Deliveries(observers, state)), o) == if o in observers then 1 else 0
  {
    DeliveriesInOrder(observers, state);
    CountNoDuplicates(observers, o);
  }

  /** After `detach($o)` a fan-out never calls `o`. */
  lemma {:induction false} DetachedNotCalled(observers: seq<ObserverId>, o: ObserverId, state: int)
    ensures o !in Called(Deliveries(Detach(observers, o), state))
  {
    DeliveriesInOrder(Detach(observers, o), state);
    DetachMembers(observers, o);
  }

  /** Detaching undoes attaching an observer that was not registered. */
  lemma {:induction false} DetachUndoesAttach(s: seq<ObserverId>, o: ObserverId)
    requires o !in s
    ensures Detach(Attach(s, o), o) == s
  {
    if s == [] {
      assert Attach(s, o)[1..] == [];
    } else {
      var t := Attach(s, o);
      assert t == s + [o] && t[0] == s[0] && t[1..] == s[1..] + [o];
      assert o !in s[1..];
      DetachUndoesAttach(s[1..], o);
      assert Detach(t, o) == [s[0]] + Detach(s[1..] + [o], o);
      assert s == [s[0]] + s[1..];
    }
  }

  /** Observer.php's `Subject`. */
  class Subject {
    var state: int
    var observers: seq<ObserverId>

    ghost predicate Valid()
      reads this
    {
      NoDuplicates(observers)
    }

    constructor ()
      ensures Valid() && state == 0 && observers == []
    {
      state := 0;
      observers := [];
    }

    method AttachObserver(o: ObserverId)
      requires Valid()
      modifies this
      ensures Valid()
      ensures observers == Attach(old(observers), o) && state == old(state)
    {
      if o !in observers {
        observers := observers + [o];
      }
    }

    method DetachObserver(o: ObserverId)
      requires Valid()
      modifies this
      ensures Valid()
      ensures observers == Detach(old(observers), o) && state == old(state)
    {
      DetachNoDuplicates(observers, o);
      observers := Detach(observers, o);
    }

    method GetState() returns (s: int)
      ensures s == state
    {
      s := state;
    }

    /** Calls `update($this)` on every registered observer, in registration order. */
    method Notify() returns (log: seq<Notification>)
      ensures log == Deliveries(observers, state)
    {
      log := [];
      var i := 0;
      while i < |observers|
        invariant 0 <= i <= |observers|
        invariant log + Deliveries(observers[i..], state) == Deliveries(observers, state)
      {
        assert observers[i..][1..] == observers[i + 1..];
        var n := Update(observers[i], this);
        log := log + [n];
        i := i + 1;
      }
    }

    /** Assigns the new state, then notifies; `newState` stands for the random draw. */
    method Execute(newState: int) returns (log: seq<Notification>)
      requires Valid()
      modifies this
      ensures Valid() && state == newState && observers == old(observers)
      ensures log == Deliveries(observers, newState)
    {
      state := newState;
      log := Notify();
    }
  }

  /**
   * `Observer1::update($subject)` for the observer `o` (Observer2 inherits it):
   * it reads the subject's state and branches on it, and changes nothing.
   */
  method Update(o: ObserverId, subject: Subject) returns (n: Notification)
    ensures n.observer == o && n.seen == subject.state
    ensures n.action == Action1 <==> subject.state == 25
  {
    var s := subject.GetState();
    n := Notification(o, s, Choose(s));
  }

  /**
   * The client script: two observers attached, then `execute` calls both, in
   * attachment order, and each sees the new state.
   */
  method ClientScript(newState: int) returns (log: seq<Notification>)
    ensures log == [Notification(1, newState, Choose(newState)), Notification(2, newState, Choose(newState))]
  {
    var subject := new Subject();
    subject.AttachObserver(1);
    subject.AttachObserver(2);
    log := subject.Execute(newState);
    DeliveriesInOrder([1, 2], newState);
  }

  /**
   * The client script, with one detach added: two observers attached, the
   * first detached, then `execute` reaches only the second, which sees the
   * new state.
   */
  method AttachDetachExecute(a: ObserverId, b: ObserverId, newState: int) returns (log: seq<Notification>)
    requires a != b
    ensures log == [Notification(b, newState, Choose(newState))]
  {
    var subject := new Subject();
    subject.AttachObserver(a);
    subject.AttachObserver(b);
    subject.AttachObserver(a);
    subject.DetachObserver(a);
    log := subject.Execute(newState);
  }
}
