/**
 * The stand-alone Clock of the root package: `Steps` positions and a tick count.
 * Tick and Add stop at Steps, Remove stops at 0, the step count never drops
 * below 1 through SetSteps or RemoveSteps, and the text form is
 * `{"steps":S,"ticks":T}`.
 */
module RootClock {
  import opened Wrappers
  import opened Errors
  import opened Text

  datatype ClockState = ClockState(steps: int, ticks: int)

  /** A clock that UnmarshalJSON would accept: at least one step, ticks within 0 and steps. */
  predicate Valid(c: ClockState)
  {
    c.steps >= 1 && 0 <= c.ticks <= c.steps
  }

  /** The fmt pattern `{"steps":%d,"ticks":%d}`. */
  const Format: seq<Piece> := [Lit("{\"steps\":"), Dec, Lit(",\"ticks\":"), Dec, Lit("}")]

  function Encode(c: ClockState): string
  {
    Sprint(Format, [c.steps, c.ticks])
  }

  /** The text MarshalJSON writes, spelled out: each field's decimal after its literal key. */
  lemma EncodeText(c: ClockState)
    ensures Encode(c) == "{\"steps\":" + (IntToString(c.steps) + (",\"ticks\":" + (IntToString(c.ticks) + "}")))
  {
    var args := [c.steps, c.ticks];
    assert Format[2..][2..] == Format[4..] && args[1..][1..] == [];
    SprintLitDec(Format, args);
    SprintLitDec(Format[2..], args[1..]);
    assert Sprint(Format[4..], []) == "}";
  }

  /** The text of the Clock the MarshalJSON test builds: 4 steps, 3 ticks. */
  lemma EncodeExample(c: ClockState)
    requires c == ClockState(4, 3)
    ensures Encode(c) == "{\"steps\":4,\"ticks\":3}"
  {
    assert "{\"steps\":" + ("4" + (",\"ticks\":" + ("3" + "}"))) == "{\"steps\":4,\"ticks\":3}";
    assert IntToString(c.steps) == "4" && IntToString(c.ticks) == "3";
    EncodeText(c);
  }

  /** The checks UnmarshalJSON makes of what it read, in order. */
  function Check(c: ClockState): (e: Option<Error>)
    ensures e == None <==> Valid(c)
  {
    if c.steps < 1 then Some(StepsBelowOne)
    else if c.ticks < 0 then Some(TicksNegative)
    else if c.ticks > c.steps then Some(TicksAboveSteps)
    else None
  }

  /**
   * What UnmarshalJSON does to a clock in state c. The text is scanned into locals
   * and stored only once every check passes. A nil slice reads as the empty text.
   */
  function Decode(c: ClockState, data: string): (o: Outcome<ClockState>)
    ensures o.error.Some? ==> o.state == c
    ensures o.error == None ==> Valid(o.state)
    ensures data == [] ==> o == Outcome(c, Some(ScanFailed))
  {
    var r := Sscan(Format, data);
    if !r.complete then Outcome(c, Some(ScanFailed))
    else
      var read := ClockState(r.values[0], r.values[1]);
      match Check(read)
      case Some(e) => Outcome(c, Some(e))
      case None => Outcome(read, None)
  }

  lemma FormatSeparated()
    ensures Separated(Format) && DecCount(Format) == 2
  {
  }

  /** Decoding a clock's text into any receiver gives that clock if it is valid, and otherwise its first failed check and the receiver untouched. */
  lemma DecodeEncode(s: ClockState, c: ClockState)
    ensures Decode(s, Encode(c)) == if Valid(c) then Outcome(c, None) else Outcome(s, Check(c))
  {
    FormatSeparated();
    SscanSprint(Format, [c.steps, c.ticks], "");
    assert Encode(c) + "" == Encode(c);
  }

  class Clock {
    var steps: int
    var ticks: int

    function State(): ClockState
      reads this
    {
      ClockState(steps, ticks)
    }

    /** `var c Clock`: no steps and no ticks. */
    constructor Zero()
      ensures State() == ClockState(0, 0)
    {
      steps, ticks := 0, 0;
    }

    /** New: the given number of steps and no ticks. */
    constructor New(n: int)
      ensures State() == ClockState(n, 0)
    {
      steps, ticks := n, 0;
    }

    /** NewWithTicks: both fields as given, unchecked. */
    constructor WithTicks(n: int, t: int)
      ensures State() == ClockState(n, t)
    {
      steps, ticks := n, t;
    }

    predicate IsFull()
      reads this
    {
      ticks == steps
    }

    predicate IsEmpty()
      reads this
    {
      ticks == 0
    }

    /** One tick more, unless the clock is full. */
    method Tick()
      modifies this`ticks
      ensures old(ticks) == steps ==> ticks == old(ticks)
      ensures old(ticks) != steps ==> ticks == old(ticks) + 1
      ensures old(Valid(State())) ==> Valid(State())
    {
      if ticks == steps {
        return;
      }
      ticks := ticks + 1;
    }

    /** n ticks more, capped at steps; nothing at all when full. There is no floor at 0. */
    method Add(n: int)
      modifies this`ticks
      ensures old(ticks) == steps ==> ticks == old(ticks)
      ensures old(ticks) != steps && old(ticks) + n <= steps ==> ticks == old(ticks) + n
      ensures old(ticks) != steps && old(ticks) + n > steps ==> ticks == steps
      ensures old(Valid(State())) && n >= 0 ==> Valid(State())
    {
      if ticks == steps {
        return;
      }
      ticks := ticks + n;
      if ticks > steps {
        ticks := steps;
      }
    }

    /** n ticks fewer, floored at 0. There is no cap at steps. */
    method Remove(n: int)
      modifies this`ticks
      ensures old(ticks) - n >= 0 ==> ticks == old(ticks) - n
      ensures old(ticks) - n < 0 ==> ticks == 0
      ensures old(Valid(State())) && n >= 0 ==> Valid(State())
    {
      ticks := ticks - n;
      if ticks < 0 {
        ticks := 0;
      }
    }

    /** steps becomes n, or 1 when n is smaller; ticks is pulled down to it. */
    method SetSteps(n: int)
      modifies this
      ensures steps == (if n < 1 then 1 else n)
      ensures ticks == (if old(ticks) > steps then steps else old(ticks))
      ensures old(ticks) >= 0 ==> Valid(State())
    {
      var m := n;
      if m < 1 {
        m := 1;
      }
      steps := m;
      if ticks > steps {
        ticks := steps;
      }
    }

    /** steps grows by n; ticks is left alone. */
    method AddSteps(n: int)
      modifies this`steps
      ensures steps == old(steps) + n
      ensures old(Valid(State())) && n >= 0 ==> Valid(State())
    {
      steps := steps + n;
    }

    /** steps shrinks by n, but not below 1; ticks is pulled down to it. */
    method RemoveSteps(n: int)
      modifies this
      ensures steps == (if old(steps) - n < 1 then 1 else old(steps) - n)
      ensures ticks == (if old(ticks) > steps then steps else old(ticks))
      ensures old(ticks) >= 0 ==> Valid(State())
    {
      steps := steps - n;
      if steps < 1 {
        steps := 1;
      }
      if ticks > steps {
        ticks := steps;
      }
    }

    method Fill()
      modifies this`ticks
      ensures ticks == steps && IsFull()
      ensures old(Valid(State())) ==> Valid(State())
    {
      ticks := steps;
    }

    method Empty()
      modifies this`ticks
      ensures ticks == 0 && IsEmpty()
      ensures old(Valid(State())) ==> Valid(State())
    {
      ticks := 0;
    }

    /** The same as Empty: back to no ticks. */
    method Reset()
      modifies this`ticks
      ensures ticks == 0 && IsEmpty()
      ensures old(Valid(State())) ==> Valid(State())
    {
      ticks := 0;
    }

    /** The clock's text; a valid clock decodes back to itself into any receiver. */
    function MarshalJSON(): (j: string)
      reads this
      ensures Valid(State()) ==> forall s :: Decode(s, j) == Outcome(State(), None)
      ensures !Valid(State()) ==> forall s :: Decode(s, j) == Outcome(s, Check(State()))
    {
      DecodeEncodeAll(State());
      Encode(State())
    }

    method UnmarshalJSON(data: string) returns (err: Option<Error>)
      modifies this
      ensures Outcome(State(), err) == Decode(old(State()), data)
    {
      var r := Sscan(Format, data);
      if !r.complete {
        return Some(ScanFailed);
      }
      var s, t := r.values[0], r.values[1];
      if s < 1 {
        return Some(StepsBelowOne);
      }
      if t < 0 {
        return Some(TicksNegative);
      }
      if t > s {
        return Some(TicksAboveSteps);
      }
      steps, ticks := s, t;
      return None;
    }
  }

  lemma DecodeEncodeAll(c: ClockState)
    ensures Valid(c) ==> forall s :: Decode(s, Encode(c)) == Outcome(c, None)
    ensures !Valid(c) ==> forall s :: Decode(s, Encode(c)) == Outcome(s, Check(c))
  {
    forall s ensures Decode(s, Encode(c)) == if Valid(c) then Outcome(c, None) else Outcome(s, Check(c)) {
      DecodeEncode(s, c);
    }
  }

  /** NewFromJSON: decode into a zero clock and return it with the error. */
  method NewFromJSON(data: string) returns (c: Clock, err: Option<Error>)
    ensures fresh(c)
    ensures Outcome(c.State(), err) == Decode(ClockState(0, 0), data)
  {
    c := new Clock.Zero();
    err := c.UnmarshalJSON(data);
  }
}
