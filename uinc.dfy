/**
 * UIncrementer of package incrementers: an Incrementer whose own mutators never
 * let `val` or `orig` go below 0, with no upper bound. Empty, Reset,
 * SetIncrementer, IsEmpty, IsUnchanged and MarshalJSON are the embedded
 * Incrementer's.
 */
module UInc {
  import opened Wrappers
  import opened Errors
  import opened Text
  import ClampMath
  import Inc

  /** The checks UnmarshalJSON makes after storing what it read, in order. */
  function Check(s: Inc.IncState): (e: Option<Error>)
    ensures e == None <==> s.val >= 0 && s.orig >= 0
  {
    if s.val < 0 then Some(UValNegative)
    else if s.orig < 0 then Some(UOrigNegative)
    else None
  }

  /**
   * What UnmarshalJSON does to a UIncrementer in state u: the text is decoded into a
   * fresh zero Incrementer, which replaces u's whenever that decoding succeeds, even
   * when a check then fails. So `null` and `""` leave the zero Incrementer behind.
   */
  function Decode(u: Inc.IncState, data: Input): (o: Outcome<Inc.IncState>)
    ensures data.Nil? ==> o == Outcome(u, Some(DataWasNil))
    ensures data.Bytes? && Inc.IsSpecial(data.text) ==> o == Outcome(Inc.ZeroState, None)
    ensures o.error == None ==> o.state.val >= 0 && o.state.orig >= 0
    ensures o.error == Some(DataWasNil) || o.error == Some(ScanFailed) ==> o.state == u
  {
    var i := Inc.Decode(Inc.ZeroState, data);
    if i.error.Some? then Outcome(u, i.error)
    else Outcome(i.state, Check(i.state))
  }

  /** Decoding an Incrementer text into any receiver stores it and reports its first negative field. */
  lemma DecodeEncode(u: Inc.IncState, e: Inc.IncState)
    ensures Decode(u, Bytes(Inc.Encode(e))) == Outcome(e, Check(e))
  {
    Inc.DecodeEncode(Inc.ZeroState, e);
  }

  /** An Incrementer with variable step, kept at 0 or above. */
  class UIncrementer {
    var inc: int
    var val: int
    var orig: int

    function State(): Inc.IncState
      reads this
    {
      Inc.IncState(inc, val, orig)
    }

    /** `var u UIncrementer`: every field zero. */
    constructor Zero()
      ensures State() == Inc.ZeroState
    {
      inc, val, orig := 0, 0, 0;
    }

    /** NewUIncrementer: step 1, value and original value 0. */
    constructor New()
      ensures State() == Inc.IncState(1, 0, 0)
    {
      inc, val, orig := 1, 0, 0;
    }

    /** NewUIncrementerWithValue: step 1, starting at v, or at 0 when v is negative. */
    constructor WithValue(v: int)
      ensures inc == 1 && val == orig && val >= 0
      ensures v >= 0 ==> val == v
      ensures v < 0 ==> val == 0
    {
      var w := v;
      if w < 0 {
        w := 0;
      }
      inc, val, orig := 1, w, w;
    }

    predicate IsEmpty()
      reads this
    {
      val == 0
    }

    predicate IsUnchanged()
      reads this
    {
      val == orig
    }

    method Increment()
      modifies this`val
      ensures val >= 0
      ensures old(val) + inc >= 0 ==> val == old(val) + inc
      ensures old(val) + inc < 0 ==> val == 0
    {
      val := ClampMath.ClampMin(val + inc, 0);
    }

    /** Subtracts inc, which raises val when inc is negative. */
    method Decrement()
      modifies this`val
      ensures val >= 0
      ensures old(val) - inc >= 0 ==> val == old(val) - inc
      ensures old(val) - inc < 0 ==> val == 0
    {
      val := ClampMath.ClampMin(val - inc, 0);
    }

    method Add(n: int)
      modifies this`val
      ensures val >= 0
      ensures old(val) + n >= 0 ==> val == old(val) + n
      ensures old(val) + n < 0 ==> val == 0
    {
      val := ClampMath.ClampMin(val + n, 0);
    }

    method Remove(n: int)
      modifies this`val
      ensures val >= 0
      ensures old(val) - n >= 0 ==> val == old(val) - n
      ensures old(val) - n < 0 ==> val == 0
    {
      val := ClampMath.ClampMin(val - n, 0);
    }

    method SetValue(n: int)
      modifies this`val
      ensures val >= 0 && (n >= 0 ==> val == n) && (n < 0 ==> val == 0)
    {
      val := ClampMath.ClampMin(n, 0);
    }

    /** Sets orig, floored at 0, and leaves val alone. */
    method SetOriginalValue(n: int)
      modifies this`orig
      ensures orig >= 0 && (n >= 0 ==> orig == n) && (n < 0 ==> orig == 0)
    {
      orig := ClampMath.ClampMin(n, 0);
    }

    /** The embedded Incrementer's SetIncrementer. */
    method SetIncrementer(n: int)
      modifies this`inc
      ensures inc == n
    {
      inc := n;
    }

    /** The embedded Incrementer's Empty. */
    method Empty()
      modifies this`val
      ensures val == 0 && IsEmpty()
    {
      val := 0;
    }

    /** The embedded Incrementer's Reset. */
    method Reset()
      modifies this`val
      ensures val == orig && IsUnchanged()
    {
      val := orig;
    }

    /** The embedded Incrementer's text; decoding it stores the state and repeats its checks. */
    function MarshalJSON(): (j: string)
      reads this
      ensures forall s :: Decode(s, Bytes(j)) == Outcome(State(), Check(State()))
    {
      DecodeEncodeAll(State());
      Inc.Encode(State())
    }

    method UnmarshalJSON(data: Input) returns (err: Option<Error>)
      modifies this
      ensures Outcome(State(), err) == Decode(old(State()), data)
    {
      var i, e := Inc.NewIncrementerFromJSON(data);
      if e.Some? {
        return e;
      }
      inc, val, orig := i.inc, i.val, i.orig;
      if val < 0 {
        return Some(UValNegative);
      }
      if orig < 0 {
        return Some(UOrigNegative);
      }
      return None;
    }
  }

  lemma DecodeEncodeAll(e: Inc.IncState)
    ensures forall s :: Decode(s, Bytes(Inc.Encode(e))) == Outcome(e, Check(e))
  {
    forall s ensures Decode(s, Bytes(Inc.Encode(e))) == Outcome(e, Check(e)) {
      DecodeEncode(s, e);
    }
  }

  /** NewUIncrementerFromJSON: decode into a zero UIncrementer and return it with the error. */
  method NewUIncrementerFromJSON(data: Input) returns (u: UIncrementer, err: Option<Error>)
    ensures fresh(u)
    ensures Outcome(u.State(), err) == Decode(Inc.ZeroState, data)
  {
    u := new UIncrementer.Zero();
    err := u.UnmarshalJSON(data);
  }

  /**
   * From 0 with step -1, Decrement gives 1; from 0, Remove(-4) gives 4 and
   * Remove(4) gives 0.
   */
  method NegativeSteps() returns (vals: seq<int>)
    ensures vals == [1, 4, 0]
  {
    var u := new UIncrementer.New();
    u.SetIncrementer(-1);
    u.Decrement();
    vals := [u.val];
    u.Empty();
    u.Remove(-4);
    vals := vals + [u.val];
    u.Empty();
    u.Remove(4);
    vals := vals + [u.val];
  }
}
