/**
 * ClampedIncrementer: an Incrementer kept between `min` and `max`, where a `max`
 * of 0 means there is no upper bound. The clamping mutators are its own; Empty,
 * Reset, SetIncrementer, IsEmpty and IsUnchanged come from the embedded
 * Incrementer and do not clamp. Its text form is
 * `{"min":m,"max":M,"incrementer":<Incrementer text>}`.
 */
module ClampedInc {
  import opened Wrappers
  import opened Errors
  import opened Text
  import ClampMath
  import Inc

  /** min, max and the embedded Incrementer, as a value. */
  datatype ClampedState = ClampedState(min: int, max: int, incr: Inc.IncState)

  /** Go's zero value `var c ClampedIncrementer`. */
  const ZeroState := ClampedState(0, 0, Inc.ZeroState)

  /** Bounds under which clamping lands inside them: no maximum, or min at most max. */
  predicate Ordered(min: int, max: int)
  {
    max == 0 || min <= max
  }

  /** v lies within the bounds; a max of 0 bounds only from below. */
  predicate InBounds(v: int, min: int, max: int)
  {
    min <= v && (max == 0 || v <= max)
  }

  /** The rule of Clamp and ClampOriginalValue: only the lower bound when max is 0. */
  function ClampValue(v: int, min: int, max: int): (r: int)
    ensures Ordered(min, max) ==> InBounds(r, min, max)
    ensures InBounds(v, min, max) ==> r == v
    ensures Ordered(min, max) && v < min ==> r == min
    ensures max != 0 && min <= max && v > max ==> r == max
    ensures max != 0 && min > max ==> r == max
    ensures r == v || r == min || r == max
  {
    if max == 0 then ClampMath.ClampMin(v, min) else ClampMath.Clamp(v, min, max)
  }

  /** Clamping an in-bounds result again changes nothing. */
  lemma ClampValueIdempotent(v: int, min: int, max: int)
    requires Ordered(min, max)
    ensures ClampValue(ClampValue(v, min, max), min, max) == ClampValue(v, min, max)
  {
  }

  /** The part of the fmt pattern before the `%s` that takes the nested text. */
  const Header: seq<Piece> := [Lit("\"min\":"), Dec, Lit(",\"max\":"), Dec, Lit(",\"incrementer\":")]

  /** The text MarshalJSON writes. */
  function Encode(c: ClampedState): string
  {
    "{" + (Sprint(Header, [c.min, c.max]) + (Inc.Encode(c.incr) + "}"))
  }

  /** The text MarshalJSON writes, spelled out: the bounds after their keys, then the nested Incrementer's text. */
  lemma EncodeText(c: ClampedState)
    ensures Encode(c) ==
      "{\"min\":" + (IntToString(c.min) + (",\"max\":" + (IntToString(c.max) + (",\"incrementer\":" + (Inc.Encode(c.incr) + "}")))))
  {
    var args := [c.min, c.max];
    assert Header[2..][2..] == Header[4..] && args[1..][1..] == [];
    SprintLitDec(Header, args);
    SprintLitDec(Header[2..], args[1..]);
    assert Sprint(Header[4..], []) == ",\"incrementer\":";
    var m, x, y, z := IntToString(c.min), IntToString(c.max), ",\"incrementer\":", Inc.Encode(c.incr) + "}";
    ConcatAssoc("\"min\":", m + (",\"max\":" + (x + y)), z);
    ConcatAssoc(m, ",\"max\":" + (x + y), z);
    ConcatAssoc(",\"max\":", x + y, z);
    ConcatAssoc(x, y, z);
    ConcatAssoc("{", "\"min\":", m + (",\"max\":" + (x + (y + z))));
  }

  /** The bounds part of the expected text of the test below, up to the nested Incrementer's text. */
  lemma ExampleHead()
    ensures "{\"min\":" + ("-4" + (",\"max\":" + ("4" + ",\"incrementer\":"))) == "{\"min\":-4,\"max\":4,\"incrementer\":"
  {
  }

  /** The expected text of the test below, joined from its bounds part and the nested text. */
  lemma ExampleText()
    ensures "{\"min\":-4,\"max\":4,\"incrementer\":" + "{\"inc\":1,\"val\":2,\"orig\":3}}" ==
      "{\"min\":-4,\"max\":4,\"incrementer\":{\"inc\":1,\"val\":2,\"orig\":3}}"
  {
  }

  /** The text of the ClampedIncrementer the MarshalJSON test builds: bounds -4 and 4 around the Incrementer (1, 2, 3). */
  lemma EncodeExample(c: ClampedState)
    requires c == ClampedState(-4, 4, Inc.IncState(1, 2, 3))
    ensures Encode(c) == "{\"min\":-4,\"max\":4,\"incrementer\":{\"inc\":1,\"val\":2,\"orig\":3}}"
  {
    ExampleHead();
    ExampleText();
    var m, x, y := "-4", "4", ",\"incrementer\":";
    var nested := "{\"inc\":1,\"val\":2,\"orig\":3}}";
    assert IntToString(c.min) == m && IntToString(c.max) == x;
    Inc.EncodeExample(c.incr);
    var z := Inc.Encode(c.incr) + "}";
    assert z == nested;
    EncodeText(c);
    ConcatAssoc(x, y, z);
    ConcatAssoc(",\"max\":", x + y, z);
    ConcatAssoc(m, ",\"max\":" + (x + y), z);
    ConcatAssoc("{\"min\":", m + (",\"max\":" + (x + y)), z);
  }

  /** The checks made after the nested Incrementer is stored, in the order they are made. */
  function RangeCheck(c: ClampedState): Option<Error>
  {
    if c.incr.val < c.min then Some(ValBelowMin)
    else if c.incr.orig < c.min then Some(OrigBelowMin)
    else if c.max != 0 && c.incr.val > c.max then Some(ValAboveMax)
    else if c.max != 0 && c.incr.orig > c.max then Some(OrigAboveMax)
    else None
  }

  /** All the checks UnmarshalJSON makes of the values it read, in order. */
  function Check(c: ClampedState): (e: Option<Error>)
    ensures e == None <==>
      (c.max == 0 || c.min < c.max) && InBounds(c.incr.val, c.min, c.max) && InBounds(c.incr.orig, c.min, c.max)
  {
    if c.max != 0 && c.min >= c.max then Some(MinNotBelowMax) else RangeCheck(c)
  }

  /** The receiver after fmt.Sscanf has written what it read of min and max. */
  function WithScanned(c: ClampedState, r: Text.Scanned): (d: ClampedState)
    ensures d.incr == c.incr
  {
    c.(min := if |r.values| > 0 then r.values[0] else c.min,
       max := if |r.values| > 1 then r.values[1] else c.max)
  }

  /**
   * The steps after a complete scan, from the receiver c holding the scanned min and
   * max and the nested text t: the bound check, the nested Incrementer (stored once it
   * decodes), then the range checks.
   */
  function DecodeRest(c: ClampedState, t: string): (o: Outcome<ClampedState>)
    ensures o.error == None ==> Check(o.state) == None
    ensures o.state.incr != c.incr ==> o.error != Some(MinNotBelowMax) && o.error != Some(ScanFailed)
    ensures o.state.min == c.min && o.state.max == c.max
  {
    if c.max != 0 && c.min >= c.max then Outcome(c, Some(MinNotBelowMax))
    else
      var i := Inc.Decode(Inc.ZeroState, Bytes(t));
      if i.error.Some? then Outcome(c, i.error)
      else
        var d := c.(incr := i.state);
        Outcome(d, RangeCheck(d))
  }

  /**
   * What UnmarshalJSON does to a ClampedIncrementer in state c. The outer two
   * characters are cut off unread. min and max are scanned straight into the
   * receiver, so they stay written when a later step fails; the nested
   * Incrementer is stored before the range checks.
   */
  function Decode(c: ClampedState, data: Input): (o: Outcome<ClampedState>)
    ensures data.Nil? ==> o == Outcome(c, Some(DataWasNil))
    ensures data.Bytes? && Inc.IsSpecial(data.text) ==> o == Outcome(c, None)
    ensures o.error == None ==> o.state == c || Check(o.state) == None
    ensures o.state.incr != c.incr ==> o.error != Some(MinNotBelowMax) && o.error != Some(ScanFailed)
  {
    match data
    case Nil => Outcome(c, Some(DataWasNil))
    case Bytes(t) =>
      if Inc.IsSpecial(t) then Outcome(c, None)
      else if |t| < 2 then Outcome(c, Some(SlicePanic))
      else
        var r := Sscan(Header, t[1..|t| - 1]);
        if !r.complete || r.rest == [] then Outcome(WithScanned(c, r), Some(ScanFailed))
        else DecodeRest(WithScanned(c, r), r.rest)
  }

  lemma HeaderSeparated()
    ensures Separated(Header) && DecCount(Header) == 2
  {
  }

  lemma EncodeShape(c: ClampedState)
    ensures |Encode(c)| >= 2 && !Inc.IsSpecial(Encode(c))
    ensures Encode(c)[1..|Encode(c)| - 1] == Sprint(Header, [c.min, c.max]) + Inc.Encode(c.incr)
  {
    var x := Sprint(Header, [c.min, c.max]) + Inc.Encode(c.incr);
    ConcatAssoc(Sprint(Header, [c.min, c.max]), Inc.Encode(c.incr), "}");
    StripEnds('{', x, '}');
    Inc.BraceNotSpecial(Encode(c));
  }

  /** The text of c scans completely and hands the nested Incrementer text on. */
  lemma DecodeEncodeScan(s: ClampedState, c: ClampedState)
    ensures Decode(s, Bytes(Encode(c))) == DecodeRest(s.(min := c.min, max := c.max), Inc.Encode(c.incr))
  {
    EncodeShape(c);
    HeaderSeparated();
    SscanSprint(Header, [c.min, c.max], Inc.Encode(c.incr));
    Inc.EncodeNotSpecial(c.incr);
  }

  /** After the scan, the nested text of e is stored whenever the bounds pass. */
  lemma DecodeRestEncode(d: ClampedState, e: Inc.IncState)
    ensures d.max != 0 && d.min >= d.max ==> DecodeRest(d, Inc.Encode(e)) == Outcome(d, Some(MinNotBelowMax))
    ensures !(d.max != 0 && d.min >= d.max) ==> DecodeRest(d, Inc.Encode(e)) == Outcome(d.(incr := e), RangeCheck(d.(incr := e)))
  {
    Inc.DecodeEncode(Inc.ZeroState, e);
  }

  /**
   * Decoding the encoding of c makes the checks of c in order: into any receiver s,
   * the error is Check(c); when min is not below a nonzero max, only min and max
   * were written, and otherwise the receiver holds c.
   */
  lemma DecodeEncode(s: ClampedState, c: ClampedState)
    ensures Decode(s, Bytes(Encode(c))).error == Check(c)
    ensures Check(c) == Some(MinNotBelowMax) ==> Decode(s, Bytes(Encode(c))).state == s.(min := c.min, max := c.max)
    ensures Check(c) != Some(MinNotBelowMax) ==> Decode(s, Bytes(Encode(c))).state == c
  {
    DecodeEncodeScan(s, c);
    DecodeRestEncode(s.(min := c.min, max := c.max), c.incr);
  }

  /** A valid ClampedIncrementer survives encoding and decoding unchanged. */
  lemma DecodeEncodeValid(s: ClampedState, c: ClampedState)
    requires Check(c) == None
    ensures Decode(s, Bytes(Encode(c))) == Outcome(c, None)
  {
    DecodeEncode(s, c);
  }

  /** A ClampedIncrementer; the fields of the embedded Incrementer sit beside min and max. */
  class ClampedIncrementer {
    var min: int
    var max: int
    var inc: int
    var val: int
    var orig: int

    function State(): ClampedState
      reads this
    {
      ClampedState(min, max, Inc.IncState(inc, val, orig))
    }

    /** `var c ClampedIncrementer`: every field zero. */
    constructor Zero()
      ensures State() == ZeroState
    {
      min, max, inc, val, orig := 0, 0, 0, 0, 0;
    }

    /** A Go struct literal: the fields as given, nothing clamped. */
    constructor FromState(s: ClampedState)
      ensures State() == s
    {
      min, max, inc, val, orig := s.min, s.max, s.incr.inc, s.incr.val, s.incr.orig;
    }

    /** NewClampedIncrementer: step 1, value and original value 0, which is not clamped. */
    constructor New(lo: int, hi: int)
      ensures State() == ClampedState(lo, hi, Inc.IncState(1, 0, 0))
    {
      min, max, inc, val, orig := lo, hi, 1, 0, 0;
    }

    /** NewClampedIncrementerWithValue: step 1, starting at v clamped to the bounds. */
    constructor WithValue(lo: int, hi: int, v: int)
      ensures min == lo && max == hi && inc == 1
      ensures val == orig == ClampValue(v, lo, hi)
      ensures Ordered(lo, hi) ==> InBounds(val, lo, hi)
      ensures InBounds(v, lo, hi) ==> val == v
    {
      var w := ClampValue(v, lo, hi);
      min, max, inc, val, orig := lo, hi, 1, w, w;
    }

    predicate IsFull()
      reads this
    {
      val == max
    }

    predicate IsEmpty()
      reads this
    {
      val == 0
    }

    predicate IsUnchanged()
      reads this
    {
      val == orig
    }

    /** Clamp: brings val within the bounds, only from below when max is 0. */
    method Clamp()
      modifies this`val
      ensures val == ClampValue(old(val), min, max)
      ensures Ordered(min, max) ==> InBounds(val, min, max)
    {
      if max == 0 {
        val := ClampMath.ClampMin(val, min);
        return;
      }
      val := ClampMath.Clamp(val, min, max);
    }

    /** ClampOriginalValue: the same rule, applied to orig. */
    method ClampOriginalValue()
      modifies this`orig
      ensures orig == ClampValue(old(orig), min, max)
      ensures Ordered(min, max) ==> InBounds(orig, min, max)
    {
      if max == 0 {
        orig := ClampMath.ClampMin(orig, min);
        return;
      }
      orig := ClampMath.Clamp(orig, min, max);
    }

    method Increment()
      modifies this`val
      ensures val == ClampValue(old(val) + inc, min, max)
      ensures Ordered(min, max) ==> InBounds(val, min, max)
    {
      val := val + inc;
      Clamp();
    }

    method Decrement()
      modifies this`val
      ensures val == ClampValue(old(val) - inc, min, max)
      ensures Ordered(min, max) ==> InBounds(val, min, max)
    {
      val := val - inc;
      Clamp();
    }

    method Add(n: int)
      modifies this`val
      ensures val == ClampValue(old(val) + n, min, max)
      ensures Ordered(min, max) ==> InBounds(val, min, max)
    {
      val := val + n;
      Clamp();
    }

    method Remove(n: int)
      modifies this`val
      ensures val == ClampValue(old(val) - n, min, max)
      ensures Ordered(min, max) ==> InBounds(val, min, max)
    {
      val := val - n;
      Clamp();
    }

    /** Stores the new minimum as given and re-clamps val, but not orig. */
    method SetMin(n: int)
      modifies this`min, this`val
      ensures min == n && val == ClampValue(old(val), n, max)
    {
      min := n;
      Clamp();
    }

    /** Stores the new maximum as given and re-clamps val, but not orig. */
    method SetMax(n: int)
      modifies this`max, this`val
      ensures max == n && val == ClampValue(old(val), min, n)
    {
      max := n;
      Clamp();
    }

    method SetValue(n: int)
      modifies this`val
      ensures val == ClampValue(n, min, max)
      ensures Ordered(min, max) ==> InBounds(val, min, max)
    {
      val := n;
      Clamp();
    }

    /** Sets orig by the clamping rule and leaves val alone. */
    method SetOriginalValue(n: int)
      modifies this`orig
      ensures orig == ClampValue(n, min, max)
      ensures Ordered(min, max) ==> InBounds(orig, min, max)
    {
      orig := n;
      ClampOriginalValue();
    }

    method Fill()
      modifies this`val
      ensures val == max && IsFull()
    {
      val := max;
    }

    method Floor()
      modifies this`val
      ensures val == min
    {
      val := min;
    }

    /** The embedded Incrementer's SetIncrementer. */
    method SetIncrementer(n: int)
      modifies this`inc
      ensures inc == n
    {
      inc := n;
    }

    /** The embedded Incrementer's Empty: val becomes 0 whatever the bounds. */
    method Empty()
      modifies this`val
      ensures val == 0 && IsEmpty()
    {
      val := 0;
    }

    /** The embedded Incrementer's Reset: val becomes orig, unclamped. */
    method Reset()
      modifies this`val
      ensures val == orig && IsUnchanged()
    {
      val := orig;
    }

    /** The text of the current state; decoding it repeats the checks of the state, in order. */
    function MarshalJSON(): (j: string)
      reads this
      ensures forall s :: Decode(s, Bytes(j)).error == Check(State())
      ensures Check(State()) == None ==> forall s :: Decode(s, Bytes(j)) == Outcome(State(), None)
    {
      DecodeEncodeAll(State());
      Encode(State())
    }

    method UnmarshalJSON(data: Input) returns (err: Option<Error>)
      modifies this
      ensures Outcome(State(), err) == Decode(old(State()), data)
    {
      match data
      case Nil =>
        return Some(DataWasNil);
      case Bytes(t) =>
        if Inc.IsSpecial(t) {
          return None;
        }
        if |t| < 2 {
          return Some(SlicePanic);
        }
        var r := Sscan(Header, t[1..|t| - 1]);
        if |r.values| > 0 {
          min := r.values[0];
        }
        if |r.values| > 1 {
          max := r.values[1];
        }
        assert State() == WithScanned(old(State()), r);
        if !r.complete || r.rest == [] {
          return Some(ScanFailed);
        }
        err := UnmarshalRest(r.rest);
    }

    /** The steps of UnmarshalJSON after a complete scan, on the nested text t. */
    method UnmarshalRest(t: string) returns (err: Option<Error>)
      modifies this`inc, this`val, this`orig
      ensures Outcome(State(), err) == DecodeRest(old(State()), t)
    {
      if max != 0 && min >= max {
        return Some(MinNotBelowMax);
      }
      var i, e := Inc.NewIncrementerFromJSON(Bytes(t));
      if e.Some? {
        return e;
      }
      inc, val, orig := i.inc, i.val, i.orig;
      if val < min {
        return Some(ValBelowMin);
      }
      if orig < min {
        return Some(OrigBelowMin);
      }
      if max != 0 && val > max {
        return Some(ValAboveMax);
      }
      if max != 0 && orig > max {
        return Some(OrigAboveMax);
      }
      return None;
    }
  }

  lemma DecodeEncodeAll(c: ClampedState)
    ensures forall s :: Decode(s, Bytes(Encode(c))).error == Check(c)
    ensures Check(c) == None ==> forall s :: Decode(s, Bytes(Encode(c))) == Outcome(c, None)
  {
    forall s ensures Decode(s, Bytes(Encode(c))).error == Check(c)
      && (Check(c) == None ==> Decode(s, Bytes(Encode(c))) == Outcome(c, None))
    {
      DecodeEncode(s, c);
    }
  }

  /** NewClampedIncrementerFromJSON: decode into a zero ClampedIncrementer and return it with the error. */
  method NewClampedIncrementerFromJSON(data: Input) returns (c: ClampedIncrementer, err: Option<Error>)
    ensures fresh(c)
    ensures Outcome(c.State(), err) == Decode(ZeroState, data)
  {
    c := new ClampedIncrementer.Zero();
    err := c.UnmarshalJSON(data);
  }
}
