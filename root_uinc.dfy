/**
 * The stand-alone UIncrementer of the root package: a value between 0 and `max`
 * moved by a step `inc`, where a stored step of 0 counts as 1. Each mutator caps
 * on one side only, and UnmarshalJSON checks `inc` but never stores it.
 */
module RootUInc {
  import opened Wrappers
  import opened Errors
  import opened Text
  import ClampMath

  /** The step used when the stored one is 0. */
  const DefaultStep := 1

  datatype UState = UState(max: int, val: int, inc: int)

  /** The bounds every mutator keeps when it starts from them. */
  predicate Valid(u: UState)
  {
    u.max >= 1 && 0 <= u.val <= u.max
  }

  /** The fmt pattern `{"max":%d,"val":%d,"inc":%d}`. */
  const Format: seq<Piece> := [Lit("{\"max\":"), Dec, Lit(",\"val\":"), Dec, Lit(",\"inc\":"), Dec, Lit("}")]

  function Encode(u: UState): string
  {
    Sprint(Format, [u.max, u.val, u.inc])
  }

  /** The text MarshalJSON writes, spelled out: each field's decimal after its literal key. */
  lemma EncodeText(u: UState)
    ensures Encode(u) ==
      "{\"max\":" + (IntToString(u.max) + (",\"val\":" + (IntToString(u.val) + (",\"inc\":" + (IntToString(u.inc) + "}")))))
  {
    var args := [u.max, u.val, u.inc];
    assert Format[2..][2..] == Format[4..] && Format[4..][2..] == Format[6..];
    assert args[1..][1..] == args[2..] && args[2..][1..] == [];
    SprintLitDec(Format, args);
    SprintLitDec(Format[2..], args[1..]);
    SprintLitDec(Format[4..], args[2..]);
    assert Sprint(Format[6..], []) == "}";
  }

  /** The checks UnmarshalJSON makes of what it read, in order. */
  function Check(u: UState): (e: Option<Error>)
    ensures e == None <==> Valid(u) && u.inc >= 0
  {
    if u.max < 1 then Some(MaxBelowOne)
    else if u.val < 0 then Some(ValNegative)
    else if u.val > u.max then Some(ValAboveLimit)
    else if u.inc < 0 then Some(IncNegative)
    else None
  }

  /**
   * What UnmarshalJSON does to a UIncrementer in state u: the text is scanned into
   * locals; only when every check passes are max and val stored. inc is never stored.
   */
  function Decode(u: UState, data: string): (o: Outcome<UState>)
    ensures o.error.Some? ==> o.state == u
    ensures o.error == None ==> Valid(o.state) && o.state.inc == u.inc
    ensures data == [] ==> o == Outcome(u, Some(ScanFailed))
  {
    var r := Sscan(Format, data);
    if !r.complete then Outcome(u, Some(ScanFailed))
    else
      var read := UState(r.values[0], r.values[1], r.values[2]);
      match Check(read)
      case Some(e) => Outcome(u, Some(e))
      case None => Outcome(u.(max := read.max, val := read.val), None)
  }

  lemma FormatSeparated()
    ensures Separated(Format) && DecCount(Format) == 3
  {
  }

  /**
   * Decoding the text of e into a receiver u: on success u takes e's max and val and
   * keeps its own inc; otherwise e's first failed check, with u untouched.
   */
  lemma DecodeEncode(u: UState, e: UState)
    ensures Decode(u, Encode(e)) ==
      if Check(e) == None then Outcome(u.(max := e.max, val := e.val), None) else Outcome(u, Check(e))
  {
    FormatSeparated();
    SscanSprint(Format, [e.max, e.val, e.inc], "");
    assert Encode(e) + "" == Encode(e);
  }

  class UIncrementer {
    var max: int
    var val: int
    var inc: int

    function State(): UState
      reads this
    {
      UState(max, val, inc)
    }

    /** `var u UIncrementer`: every field zero. */
    constructor Zero()
      ensures State() == UState(0, 0, 0)
    {
      max, val, inc := 0, 0, 0;
    }

    /** NewUIncrementer: the given maximum, step 1, at 0. */
    constructor New(m: int)
      ensures State() == UState(m, 0, 1)
    {
      max, val, inc := m, 0, 1;
    }

    /** NewUIncrementerWithValue: maximum and value as given, unchecked, and step 1. */
    constructor WithValue(m: int, v: int)
      ensures State() == UState(m, v, 1)
    {
      max, val, inc := m, v, 1;
    }

    /** getinc, which the Incrementer accessor returns: the step, never 0. */
    function GetInc(): (r: int)
      reads this
      ensures r != 0
      ensures inc != 0 ==> r == inc
      ensures inc == 0 ==> r == DefaultStep
      ensures inc >= 0 ==> r >= 1
    {
      if inc == 0 then DefaultStep else inc
    }

    predicate IsFull()
      reads this
    {
      val == max
    }

    predicate IsEmpty()
      reads this
    {
      val == 0
    }

    method IncrementBy(n: int)
      modifies this`inc
      ensures inc == n
    {
      inc := n;
    }

    /** One step up, capped at max; no floor. */
    method Increment()
      modifies this`val
      ensures old(val) + GetInc() >= max ==> val == max
      ensures old(val) + GetInc() < max ==> val == old(val) + GetInc()
      ensures old(Valid(State())) && inc >= 0 ==> Valid(State())
    {
      val := val + GetInc();
      if val >= max {
        val := max;
      }
    }

    /** Advance is Increment. */
    method Advance()
      modifies this`val
      ensures old(val) + GetInc() >= max ==> val == max
      ensures old(val) + GetInc() < max ==> val == old(val) + GetInc()
      ensures old(Valid(State())) && inc >= 0 ==> Valid(State())
    {
      Increment();
    }

    /** One step down, floored at 0; no cap, so a negative step can pass max. */
    method Decrement()
      modifies this`val
      ensures old(val) - GetInc() <= 0 ==> val == 0
      ensures old(val) - GetInc() > 0 ==> val == old(val) - GetInc()
      ensures old(Valid(State())) && inc >= 0 ==> Valid(State())
    {
      val := val - GetInc();
      if val <= 0 {
        val := 0;
      }
    }

    /** n up, capped at max; nothing at all when full. There is no floor at 0. */
    method Add(n: int)
      modifies this`val
      ensures old(val) == max ==> val == old(val)
      ensures old(val) != max && old(val) + n <= max ==> val == old(val) + n
      ensures old(val) != max && old(val) + n > max ==> val == max
      ensures old(Valid(State())) && n >= 0 ==> Valid(State())
    {
      if val == max {
        return;
      }
      val := val + n;
      if val > max {
        val := max;
      }
    }

    /** n down, floored at 0. There is no cap at max. */
    method Remove(n: int)
      modifies this`val
      ensures old(val) - n >= 0 ==> val == old(val) - n
      ensures old(val) - n < 0 ==> val == 0
      ensures old(Valid(State())) && n >= 0 ==> Valid(State())
    {
      val := val - n;
      if val < 0 {
        val := 0;
      }
    }

    /** n raised to 0, then lowered to max. */
    method SetValue(n: int)
      modifies this`val
      ensures val == ClampMath.Clamp(n, 0, max)
      ensures max >= 0 ==> 0 <= val <= max
      ensures 0 <= n <= max ==> val == n
    {
      var v := n;
      if v < 0 {
        v := 0;
      }
      if v > max {
        v := max;
      }
      val := v;
    }

    /** max becomes n, or 1 when n is smaller; val is pulled down to it. */
    method SetMax(n: int)
      modifies this`max, this`val
      ensures max == (if n < 1 then 1 else n)
      ensures val == (if old(val) > max then max else old(val))
      ensures old(val) >= 0 ==> Valid(State())
    {
      var m := n;
      if m < 1 {
        m := 1;
      }
      max := m;
      if val > max {
        val := max;
      }
    }

    /** max grows by n; val is left alone. */
    method AddMax(n: int)
      modifies this`max
      ensures max == old(max) + n
      ensures old(Valid(State())) && n >= 0 ==> Valid(State())
    {
      max := max + n;
    }

    /** max shrinks by n, but not below 1; val is pulled down to it. */
    method RemoveMax(n: int)
      modifies this`max, this`val
      ensures max == (if old(max) - n < 1 then 1 else old(max) - n)
      ensures val == (if old(val) > max then max else old(val))
      ensures old(val) >= 0 ==> Valid(State())
    {
      max := max - n;
      if max < 1 {
        max := 1;
      }
      if val > max {
        val := max;
      }
    }

    method Fill()
      modifies this`val
      ensures val == max && IsFull()
      ensures old(Valid(State())) ==> Valid(State())
    {
      val := max;
    }

    method Empty()
      modifies this`val
      ensures val == 0 && IsEmpty()
      ensures old(Valid(State())) ==> Valid(State())
    {
      val := 0;
    }

    /** The same as Empty: back to 0. */
    method Reset()
      modifies this`val
      ensures val == 0 && IsEmpty()
      ensures old(Valid(State())) ==> Valid(State())
    {
      val := 0;
    }

    /**
     * The text of the current state. Decoding it back into this UIncrementer gives
     * it back unchanged when it passes the checks; into another receiver, only
     * max and val are taken.
     */
    function MarshalJSON(): (j: string)
      reads this
      ensures forall s :: Check(State()) == None ==> Decode(s, j) == Outcome(s.(max := max, val := val), None)
      ensures forall s :: Check(State()) != None ==> Decode(s, j) == Outcome(s, Check(State()))
      ensures Check(State()) == None ==> Decode(State(), j) == Outcome(State(), None)
    {
      DecodeEncodeAll(State());
      Encode(State())
    }

    method UnmarshalJSON(data: string) returns (err: Option<Error>)
      modifies this`max, this`val
      ensures Outcome(State(), err) == Decode(old(State()), data)
    {
      var r := Sscan(Format, data);
      if !r.complete {
        return Some(ScanFailed);
      }
      var m, v, i := r.values[0], r.values[1], r.values[2];
      if m < 1 {
        return Some(MaxBelowOne);
      }
      if v < 0 {
        return Some(ValNegative);
      }
      if v > m {
        return Some(ValAboveLimit);
      }
      if i < 0 {
        return Some(IncNegative);
      }
      max, val := m, v;
      return None;
    }
  }

  lemma DecodeEncodeAll(e: UState)
    ensures forall s :: Check(e) == None ==> Decode(s, Encode(e)) == Outcome(s.(max := e.max, val := e.val), None)
    ensures forall s :: Check(e) != None ==> Decode(s, Encode(e)) == Outcome(s, Check(e))
  {
    forall s ensures Decode(s, Encode(e)) ==
      if Check(e) == None then Outcome(s.(max := e.max, val := e.val), None) else Outcome(s, Check(e))
    {
      DecodeEncode(s, e);
    }
  }

  /** NewUIncrementerFromJSON: decode into a zero UIncrementer and return it with the error. */
  method NewUIncrementerFromJSON(data: string) returns (u: UIncrementer, err: Option<Error>)
    ensures fresh(u)
    ensures Outcome(u.State(), err) == Decode(UState(0, 0, 0), data)
  {
    u := new UIncrementer.Zero();
    err := u.UnmarshalJSON(data);
  }

  /**
   * Maximum 4 at value 3: Add(3) stops at 4 and Add(1) then leaves it there;
   * Remove(10) stops at 0; with the stored step 0, Increment moves by 1.
   */
  method CapsAndFloors() returns (vals: seq<int>)
    ensures vals == [4, 4, 0, 1]
  {
    var u := new UIncrementer.WithValue(4, 3);
    u.Add(3);
    vals := [u.val];
    u.Add(1);
    vals := vals + [u.val];
    u.Remove(10);
    vals := vals + [u.val];
    u.IncrementBy(0);
    u.Increment();
    vals := vals + [u.val];
  }
}
