/**
 * Clock of package incrementers: a ClampedIncrementer from 0 to `steps` with step 1.
 * The constructors build the struct directly; NewClockFromJSON decodes a
 * ClampedIncrementer and then demands the shape of a clock.
 */
module IncClock {
  import opened Wrappers
  import opened Errors
  import opened Text
  import Inc
  import ClampedInc

  type ClampedState = ClampedInc.ClampedState

  /** What NewClockFromJSON accepts: a valid ClampedIncrementer from 0 to at least 1, with step 1. */
  predicate IsClock(c: ClampedState)
  {
    c.min == 0 && c.max >= 1 && c.incr.inc == 1 && ClampedInc.Check(c) == None
  }

  /** NewClockFromJSON as a value: the ClampedIncrementer's errors first, then min, max and inc, in that order. */
  function FromJSON(data: Input): (r: Result<ClampedState, Error>)
    ensures r.Success? ==> IsClock(r.value)
    ensures data.Nil? ==> r == Failure(DataWasNil)
    ensures data.Bytes? && Inc.IsSpecial(data.text) ==> r == Failure(ClockMaxBelowOne)
  {
    var o := ClampedInc.Decode(ClampedInc.ZeroState, data);
    if o.error.Some? then Failure(o.error.value)
    else if o.state.min != 0 then Failure(ClockMinNotZero)
    else if o.state.max < 1 then Failure(ClockMaxBelowOne)
    else if o.state.incr.inc != 1 then Failure(ClockIncNotOne)
    else Success(o.state)
  }

  /**
   * Decoding the text of a ClampedIncrementer c as a clock: c's own first failing
   * check, else min, then max (a max of 0, "no maximum", is rejected here), then inc;
   * a clock comes back as it was.
   */
  lemma FromJSONEncode(c: ClampedState)
    ensures ClampedInc.Check(c).Some? ==> FromJSON(Bytes(ClampedInc.Encode(c))) == Failure(ClampedInc.Check(c).value)
    ensures ClampedInc.Check(c) == None && c.min != 0 ==> FromJSON(Bytes(ClampedInc.Encode(c))) == Failure(ClockMinNotZero)
    ensures ClampedInc.Check(c) == None && c.min == 0 && c.max < 1 ==> FromJSON(Bytes(ClampedInc.Encode(c))) == Failure(ClockMaxBelowOne)
    ensures ClampedInc.Check(c) == None && c.min == 0 && c.max >= 1 && c.incr.inc != 1 ==>
      FromJSON(Bytes(ClampedInc.Encode(c))) == Failure(ClockIncNotOne)
    ensures FromJSON(Bytes(ClampedInc.Encode(c))).Success? <==> IsClock(c)
    ensures IsClock(c) ==> FromJSON(Bytes(ClampedInc.Encode(c))) == Success(c)
  {
    ClampedInc.DecodeEncode(ClampedInc.ZeroState, c);
  }

  /** NewClock: from 0 to steps, step 1, at 0. */
  method NewClock(steps: int) returns (c: ClampedInc.ClampedIncrementer)
    ensures fresh(c)
    ensures c.State() == ClampedInc.ClampedState(0, steps, Inc.IncState(1, 0, 0))
  {
    c := new ClampedInc.ClampedIncrementer.FromState(ClampedInc.ClampedState(0, steps, Inc.IncState(1, 0, 0)));
  }

  /** NewClockWithTicks: ticks becomes the value and the original value, without clamping. */
  method NewClockWithTicks(steps: int, ticks: int) returns (c: ClampedInc.ClampedIncrementer)
    ensures fresh(c)
    ensures c.State() == ClampedInc.ClampedState(0, steps, Inc.IncState(1, ticks, ticks))
  {
    c := new ClampedInc.ClampedIncrementer.FromState(ClampedInc.ClampedState(0, steps, Inc.IncState(1, ticks, ticks)));
  }

  /** NewClockFromJSON: a fresh clock on success, no clock and the error otherwise. */
  method NewClockFromJSON(data: Input) returns (c: ClampedInc.ClampedIncrementer?, err: Option<Error>)
    ensures FromJSON(data).Success? ==> err == None && c != null && fresh(c) && c.State() == FromJSON(data).value
    ensures FromJSON(data).Failure? ==> err == Some(FromJSON(data).error) && c == null
  {
    var i := new ClampedInc.ClampedIncrementer.Zero();
    var e := i.UnmarshalJSON(data);
    if e.Some? {
      return null, e;
    }
    if i.min != 0 {
      return null, Some(ClockMinNotZero);
    }
    if i.max < 1 {
      return null, Some(ClockMaxBelowOne);
    }
    if i.inc != 1 {
      return null, Some(ClockIncNotOne);
    }
    return i, None;
  }

  /**
   * A clock of 4 steps starts empty and not full; Increment gives 1, Fill gives 4
   * and full, Increment stays at 4, Decrement gives 3, Empty gives 0 and Decrement
   * stays at 0.
   */
  method FourSteps() returns (startsEmpty: bool, startsFull: bool, vals: seq<int>, fullAfterFill: bool)
    ensures startsEmpty && !startsFull
    ensures vals == [1, 4, 4, 3, 0, 0] && fullAfterFill
  {
    var c := NewClock(4);
    startsEmpty, startsFull := c.IsEmpty(), c.IsFull();
    c.Increment();
    vals := [c.val];
    c.Fill();
    fullAfterFill := c.IsFull();
    vals := vals + [c.val];
    c.Increment();
    vals := vals + [c.val];
    c.Decrement();
    vals := vals + [c.val];
    c.Empty();
    vals := vals + [c.val];
    c.Decrement();
    vals := vals + [c.val];
  }
}
