/**
 * Counter of package incrementers: a ClampedIncrementer from 0 with no maximum
 * and step 1. NewCounterFromJSON decodes a ClampedIncrementer and then demands
 * the shape of a counter.
 */
module IncCounter {
  import opened Wrappers
  import opened Errors
  import opened Text
  import Inc
  import ClampedInc

  type ClampedState = ClampedInc.ClampedState

  /** What NewCounterFromJSON accepts: a valid ClampedIncrementer with min 0 and no maximum. */
  predicate IsCounter(c: ClampedState)
  {
    c.min == 0 && c.max == 0 && ClampedInc.Check(c) == None
  }

  /** NewCounterFromJSON as a value: the ClampedIncrementer's errors first, then min, then max. */
  function FromJSON(data: Input): (r: Result<ClampedState, Error>)
    ensures r.Success? ==> IsCounter(r.value)
    ensures data.Nil? ==> r == Failure(DataWasNil)
    ensures data.Bytes? && Inc.IsSpecial(data.text) ==> r == Success(ClampedInc.ZeroState)
  {
    var o := ClampedInc.Decode(ClampedInc.ZeroState, data);
    if o.error.Some? then Failure(o.error.value)
    else if o.state.min != 0 then Failure(CounterMinNotZero)
    else if o.state.max != 0 then Failure(CounterMaxNotZero)
    else Success(o.state)
  }

  /**
   * Decoding the text of a ClampedIncrementer c as a counter: c's own first failing
   * check, else min, then max; a counter comes back as it was.
   */
  lemma FromJSONEncode(c: ClampedState)
    ensures ClampedInc.Check(c).Some? ==> FromJSON(Bytes(ClampedInc.Encode(c))) == Failure(ClampedInc.Check(c).value)
    ensures ClampedInc.Check(c) == None && c.min != 0 ==> FromJSON(Bytes(ClampedInc.Encode(c))) == Failure(CounterMinNotZero)
    ensures ClampedInc.Check(c) == None && c.min == 0 && c.max != 0 ==> FromJSON(Bytes(ClampedInc.Encode(c))) == Failure(CounterMaxNotZero)
    ensures FromJSON(Bytes(ClampedInc.Encode(c))).Success? <==> IsCounter(c)
    ensures IsCounter(c) ==> FromJSON(Bytes(ClampedInc.Encode(c))) == Success(c)
  {
    ClampedInc.DecodeEncode(ClampedInc.ZeroState, c);
  }

  /** NewCounter: from 0, no maximum, step 1, at 0. */
  method NewCounter() returns (c: ClampedInc.ClampedIncrementer)
    ensures fresh(c)
    ensures c.State() == ClampedInc.ClampedState(0, 0, Inc.IncState(1, 0, 0))
  {
    c := new ClampedInc.ClampedIncrementer.FromState(ClampedInc.ClampedState(0, 0, Inc.IncState(1, 0, 0)));
  }

  /** NewCounterWithValue: starts at v, or at 0 when v is negative. */
  method NewCounterWithValue(v: int) returns (c: ClampedInc.ClampedIncrementer)
    ensures fresh(c)
    ensures c.min == 0 && c.max == 0 && c.inc == 1 && c.val == c.orig && c.val >= 0
    ensures v >= 0 ==> c.val == v
    ensures v < 0 ==> c.val == 0
  {
    var w := v;
    if w < 0 {
      w := 0;
    }
    c := new ClampedInc.ClampedIncrementer.FromState(ClampedInc.ClampedState(0, 0, Inc.IncState(1, w, w)));
  }

  /** NewCounterFromJSON: a fresh counter on success, no counter and the error otherwise. */
  method NewCounterFromJSON(data: Input) returns (c: ClampedInc.ClampedIncrementer?, err: Option<Error>)
    ensures FromJSON(data).Success? ==> err == None && c != null && fresh(c) && c.State() == FromJSON(data).value
    ensures FromJSON(data).Failure? ==> err == Some(FromJSON(data).error) && c == null
  {
    var i := new ClampedInc.ClampedIncrementer.Zero();
    var e := i.UnmarshalJSON(data);
    if e.Some? {
      return null, e;
    }
    if i.min != 0 {
      return null, Some(CounterMinNotZero);
    }
    if i.max != 0 {
      return null, Some(CounterMaxNotZero);
    }
    return i, None;
  }

  /** With no maximum a counter climbs past any bound and stops only at 0 going down. */
  method Unbounded(n: nat) returns (up: int, down: int)
    ensures up == n + 1 && down == 0
  {
    var c := NewCounter();
    c.Increment();
    c.Add(n);
    up := c.val;
    c.Remove(n + 2);
    down := c.val;
  }
}
