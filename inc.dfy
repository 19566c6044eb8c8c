/**
 * The plain Incrementer of package incrementers: a step `inc`, a current value
 * `val` and the value `orig` it started from. Its mutators add, subtract and
 * overwrite without any bound; its text form is `{"inc":I,"val":V,"orig":O}`.
 */
module Inc {
  import opened Wrappers
  import opened Errors
  import opened Text

  /** The three fields of an Incrementer, as a value. */
  datatype IncState = IncState(inc: int, val: int, orig: int)

  /** Go's zero value `var i Incrementer`. */
  const ZeroState := IncState(0, 0, 0)

  /** The fmt pattern `{"inc":%d,"val":%d,"orig":%d}`. */
  const Format: seq<Piece> := [Lit("{\"inc\":"), Dec, Lit(",\"val\":"), Dec, Lit(",\"orig\":"), Dec, Lit("}")]

  /** The two inputs UnmarshalJSON accepts without reading anything. */
  predicate IsSpecial(t: string)
  {
    t == "null" || t == "\"\""
  }

  /** The text MarshalJSON writes. */
  function Encode(s: IncState): string
  {
    Sprint(Format, [s.inc, s.val, s.orig])
  }

  /** The text MarshalJSON writes, spelled out: each field's decimal after its literal key. */
  lemma EncodeText(s: IncState)
    ensures Encode(s) ==
      "{\"inc\":" + (IntToString(s.inc) + (",\"val\":" + (IntToString(s.val) + (",\"orig\":" + (IntToString(s.orig) + "}")))))
  {
    var args := [s.inc, s.val, s.orig];
    assert Format[2..][2..] == Format[4..] && Format[4..][2..] == Format[6..];
    assert args[1..][1..] == args[2..] && args[2..][1..] == [];
    SprintLitDec(Format, args);
    SprintLitDec(Format[2..], args[1..]);
    SprintLitDec(Format[4..], args[2..]);
    assert Sprint(Format[6..], []) == "}";
  }

  /** The text of the Incrementer the MarshalJSON test builds: step 1, value 2, original value 3. */
  lemma EncodeExample(s: IncState)
    requires s == IncState(1, 2, 3)
    ensures Encode(s) == "{\"inc\":1,\"val\":2,\"orig\":3}"
  {
    assert "{\"inc\":" + ("1" + (",\"val\":" + ("2" + (",\"orig\":" + ("3" + "}"))))) == "{\"inc\":1,\"val\":2,\"orig\":3}";
    assert IntToString(s.inc) == "1" && IntToString(s.val) == "2" && IntToString(s.orig) == "3";
    EncodeText(s);
  }

  /**
   * What UnmarshalJSON does to an Incrementer in state s: the new state and the error.
   * The fields are scanned into locals, so a failed scan changes nothing.
   */
  function Decode(s: IncState, data: Input): (o: Outcome<IncState>)
    ensures data.Nil? ==> o == Outcome(s, Some(DataWasNil))
    ensures data.Bytes? && IsSpecial(data.text) ==> o == Outcome(s, None)
    ensures o.error.Some? ==> o.state == s
    ensures o.error.Some? ==> o.error == Some(DataWasNil) || o.error == Some(ScanFailed)
  {
    match data
    case Nil => Outcome(s, Some(DataWasNil))
    case Bytes(t) =>
      if IsSpecial(t) then Outcome(s, None)
      else
        var r := Sscan(Format, t);
        if r.complete then Outcome(IncState(r.values[0], r.values[1], r.values[2]), None)
        else Outcome(s, Some(ScanFailed))
  }

  lemma FormatSeparated()
    ensures Separated(Format) && DecCount(Format) == 3
  {
  }

  lemma BraceNotSpecial(t: string)
    requires t != [] && t[0] == '{'
    ensures !IsSpecial(t)
  {
    assert "null"[0] == 'n' && "\"\""[0] == '"';
  }

  /** The text of any state starts with `{`, so it is never one of the special inputs. */
  lemma EncodeNotSpecial(s: IncState)
    ensures Encode(s) != [] && Encode(s)[0] == '{' && !IsSpecial(Encode(s))
  {
    FormatSeparated();
    SprintLit(Format, [s.inc, s.val, s.orig]);
    BraceNotSpecial(Encode(s));
  }

  /** Decoding the encoding of any state gives back that state, whatever the receiver held. */
  lemma DecodeEncode(s: IncState, e: IncState)
    ensures Decode(s, Bytes(Encode(e))) == Outcome(e, None)
  {
    var args := [e.inc, e.val, e.orig];
    FormatSeparated();
    EncodeNotSpecial(e);
    SscanSprint(Format, args, "");
    assert Encode(e) + "" == Encode(e);
  }

  /**
   * A text that stops after `val`, `{"inc":A,"val":B}`, does not scan, and the
   * receiver keeps its fields.
   */
  lemma DecodeMissingOrig(s: IncState, a: int, b: int)
    ensures Decode(s, Bytes("{\"inc\":" + (IntToString(a) + (",\"val\":" + (IntToString(b) + "}"))))) == Outcome(s, Some(ScanFailed))
  {
    var t3 := IntToString(b) + "}";
    var t2 := ",\"val\":" + t3;
    var t1 := IntToString(a) + t2;
    var t0 := "{\"inc\":" + t1;
    var f1, f2, f3, f4 := Format[1..], Format[2..], Format[3..], Format[4..];
    assert f2 == f1[1..] && f3 == f2[1..] && f4 == f3[1..];
    BraceNotSpecial(t0);
    SscanLitStep(Format, t0, t1);
    SscanDecStep(f1, t1, a, t2);
    SscanLitStep(f2, t2, t3);
    SscanDecStep(f3, t3, b, "}");
    assert !Sscan(f4, "}").complete;
  }

  /** An Incrementer that Go code updates through a pointer receiver. */
  class Incrementer {
    var inc: int
    var val: int
    var orig: int

    function State(): IncState
      reads this
    {
      IncState(inc, val, orig)
    }

    /** `var i Incrementer`: every field zero. */
    constructor Zero()
      ensures State() == ZeroState
    {
      inc, val, orig := 0, 0, 0;
    }

    /** NewIncrementer: step 1, value and original value 0. */
    constructor New()
      ensures State() == IncState(1, 0, 0)
    {
      inc, val, orig := 1, 0, 0;
    }

    /** NewIncrementerWithValue: step 1, starting at v. */
    constructor WithValue(v: int)
      ensures State() == IncState(1, v, v) && IsUnchanged()
    {
      inc, val, orig := 1, v, v;
    }

    predicate IsEmpty()
      reads this
    {
      val == 0
    }

    predicate IsUnchanged()
      reads this
    {
      val == orig
    }

    method Increment()
      modifies this`val
      ensures val == old(val) + inc
    {
      val := val + inc;
    }

    method Decrement()
      modifies this`val
      ensures val == old(val) - inc
    {
      val := val - inc;
    }

    method Add(n: int)
      modifies this`val
      ensures val == old(val) + n
    {
      val := val + n;
    }

    method Remove(n: int)
      modifies this`val
      ensures val == old(val) - n
    {
      val := val - n;
    }

    method SetIncrementer(n: int)
      modifies this`inc
      ensures inc == n
    {
      inc := n;
    }

    /** Stores n as it is: nothing is clamped. */
    method SetValue(n: int)
      modifies this`val
      ensures val == n
    {
      val := n;
    }

    method SetOriginalValue(n: int)
      modifies this`orig
      ensures orig == n
    {
      orig := n;
    }

    method Empty()
      modifies this`val
      ensures val == 0 && IsEmpty()
    {
      val := 0;
    }

    method Reset()
      modifies this`val
      ensures val == orig && IsUnchanged()
    {
      val := orig;
    }

    /** The text of the current state, which decodes back to it into any receiver. */
    function MarshalJSON(): (j: string)
      reads this
      ensures forall s :: Decode(s, Bytes(j)) == Outcome(State(), None)
    {
      DecodeEncodeAll(State());
      Encode(State())
    }

    method UnmarshalJSON(data: Input) returns (err: Option<Error>)
      modifies this
      ensures Outcome(State(), err) == Decode(old(State()), data)
    {
      match data
      case Nil =>
        err := Some(DataWasNil);
      case Bytes(t) =>
        if IsSpecial(t) {
          err := None;
        } else {
          var r := Sscan(Format, t);
          if r.complete {
            inc, val, orig := r.values[0], r.values[1], r.values[2];
            err := None;
          } else {
            err := Some(ScanFailed);
          }
        }
    }
  }

  lemma DecodeEncodeAll(e: IncState)
    ensures forall s :: Decode(s, Bytes(Encode(e))) == Outcome(e, None)
  {
    forall s ensures Decode(s, Bytes(Encode(e))) == Outcome(e, None) {
      DecodeEncode(s, e);
    }
  }

  /** NewIncrementerFromJSON: decode into a zero Incrementer and return it with the error. */
  method NewIncrementerFromJSON(data: Input) returns (i: Incrementer, err: Option<Error>)
    ensures fresh(i)
    ensures Outcome(i.State(), err) == Decode(ZeroState, data)
  {
    i := new Incrementer.Zero();
    err := i.UnmarshalJSON(data);
  }

  /** Increment then Decrement, and Add(n) then Remove(n), leave every field as it was. */
  method StepAndBack(i: Incrementer, n: int)
    modifies i
    ensures i.State() == old(i.State())
  {
    i.Increment();
    i.Decrement();
    i.Add(n);
    i.Remove(n);
  }
}
