/**
 * The Prototype pattern: PHP's `clone` copies an object field by field and
 * then runs `__clone` on the copy, which here resets three fields and clones
 * the embedded `DateTime`.
 */
module PrototypePattern {
  import opened Php

  /** A `\DateTime` object; `instant` stands for the moment it holds. */
  class DateTime {
    var instant: int

    constructor (instant: int)
      ensures this.instant == instant
    {
      this.instant := instant;
    }

    /** `clone $dateTime`: a distinct object holding the same moment. */
    method Clone() returns (d: DateTime)
      ensures fresh(d) && d.instant == instant
    {
      d := new DateTime(instant);
    }
  }

  /** The values of a prototype's fields, with its date read as its moment. */
  datatype Fields = Fields(privateValue: Value, protectedValue: Value, publicValue: Value, instant: int)

  /** Prototype.php's `Prototype`. */
  class Prototype {
    var privateValue: Value
    var protectedValue: Value
    var publicValue: Value
    var dateTime: DateTime

    /** `__construct`: the two arguments and 'origin'; `now` is the clock reading `new \DateTime()` takes. */
    constructor (privateValue: Value, protectedValue: Value, now: int)
      ensures this.privateValue == privateValue && this.protectedValue == protectedValue
      ensures publicValue == Str("origin")
      ensures fresh(dateTime) && dateTime.instant == now
    {
      this.privateValue := privateValue;
      this.protectedValue := protectedValue;
      publicValue := Str("origin");
      dateTime := new DateTime(now);
    }

    /** The shallow copy `clone` makes before `__clone` runs; `__construct` is not run. */
    constructor ShallowCopy(original: Prototype)
      ensures privateValue == original.privateValue && protectedValue == original.protectedValue
      ensures publicValue == original.publicValue && dateTime == original.dateTime
    {
      privateValue := original.privateValue;
      protectedValue := original.protectedValue;
      publicValue := original.publicValue;
      dateTime := original.dateTime;
    }

    /** `__clone`, run on the copy: three fields reset to null, the date deep-copied. */
    method OnClone()
      modifies this
      ensures privateValue == Null && protectedValue == Null && publicValue == Null
      ensures fresh(dateTime) && dateTime.instant == old(dateTime.instant)
    {
      privateValue := Null;
      protectedValue := Null;
      publicValue := Null;
      dateTime := dateTime.Clone();
    }

    /** `clone $this`: the original and its date are left untouched. */
    method Clone() returns (c: Prototype)
      ensures fresh(c) && fresh(c.dateTime)
      ensures c.privateValue == Null && c.protectedValue == Null && c.publicValue == Null
      ensures c.dateTime.instant == dateTime.instant
    {
      c := new Prototype.ShallowCopy(this);
      c.OnClone();
    }

    function Read(): Fields
      reads this, dateTime
    {
      Fields(privateValue, protectedValue, publicValue, dateTime.instant)
    }
  }

  /**
   * The client script, plus a later change to the clone's date: the
   * original keeps its arguments, its changed public value and its own
   * date, while the clone holds nulls and a date of its own.
   */
  method ClientScript(now: int, later: int) returns (original: Fields, copy: Fields)
    ensures original == Fields(Int(111), Int(222), Str("origin change"), now)
    ensures copy == Fields(Null, Null, Null, later)
  {
    var origin := new Prototype(Int(111), Int(222), now);
    origin.publicValue := Str("origin change");
    var clone := origin.Clone();
    clone.dateTime.instant := later;
    original := origin.Read();
    copy := clone.Read();
  }
}
