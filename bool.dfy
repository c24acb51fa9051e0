/** A one-bit flag whose every operation reads the stored bit and then
    installs a new one (ttl::Bool). */
module Bool {

  class Bool {
    /** The single stored bit (a one-bit bit-field in the source). */
    var b: bool

    /** Default construction leaves the bit unspecified: nothing is promised
        about its value. */
    constructor ()
    {
      b := *;
    }

    /** Construction from a value initialises the bit to it. */
    constructor FromValue(arg: bool)
      ensures b == arg
    {
      b := arg;
    }

    /** Sets the bit to `state`, which is `true` when omitted. */
    method Reset(state: bool := true)
      modifies this
      ensures b == state
    {
      b := state;
    }

    /** Returns the bit from before the call and leaves it `true`. */
    method FetchAndEnable() returns (prior: bool)
      modifies this
      ensures prior == old(b)
      ensures b
    {
      prior := b;
      b := true;
    }

    /** Returns the bit from before the call and leaves it `false`. */
    method FetchAndDisable() returns (prior: bool)
      modifies this
      ensures prior == old(b)
      ensures !b
    {
      prior := b;
      b := false;
    }

    /** Returns the bit from before the call and leaves its negation. */
    method FetchAndFlip() returns (prior: bool)
      modifies this
      ensures prior == old(b)
      ensures b == !prior
    {
      prior := b;
      b := !b;
    }

    /** Returns the bit from before the call and leaves `state`. */
    method FetchAndSet(state: bool) returns (prior: bool)
      modifies this
      ensures prior == old(b)
      ensures b == state
    {
      prior := b;
      b := state;
    }

    /** The conversion to `bool`: the stored bit, read without change. */
    method Value() returns (r: bool)
      ensures r == b
    {
      r := b;
    }

    /** Assignment stores the value and yields the same object. */
    method Assign(a: bool) returns (self: Bool)
      modifies this
      ensures b == a
      ensures self == this
    {
      b := a;
      self := this;
    }
  }

  /** Two flips in a row restore the original bit and report it, then its
      negation. */
  method FlipTwice(flag: Bool) returns (first: bool, second: bool)
    modifies flag
    ensures first == old(flag.b) && second == !old(flag.b)
    ensures flag.b == old(flag.b)
  {
    first := flag.FetchAndFlip();
    second := flag.FetchAndFlip();
  }

  /** A fresh flag that is enabled once reports `arg` and then reports
      `true` to every further enable: enabling is idempotent. */
  method EnableTwice(arg: bool) returns (first: bool, second: bool)
    ensures first == arg
    ensures second
  {
    var flag := new Bool.FromValue(arg);
    first := flag.FetchAndEnable();
    second := flag.FetchAndEnable();
  }

  /** `FetchAndSet` agrees with enable and disable on the constant states:
      on two fresh flags holding the same bit, both return the same prior
      value and leave the same bit. */
  method SetAgreesWithEnableDisable(arg: bool, state: bool) returns (viaSet: bool, viaFixed: bool, sameBit: bool)
    ensures viaSet == viaFixed == arg
    ensures sameBit
  {
    var x := new Bool.FromValue(arg);
    var y := new Bool.FromValue(arg);
    viaSet := x.FetchAndSet(state);
    if state {
      viaFixed := y.FetchAndEnable();
    } else {
      viaFixed := y.FetchAndDisable();
    }
    var xBit := x.Value();
    var yBit := y.Value();
    sameBit := xBit == yBit;
  }
}
