# The incrementer family of chadeldridge/clock, in Dafny

This project models the bounded-integer incrementers of the Go repository
chadeldridge/clock and proves properties of the model. An incrementer is a small
value object: a current value, a step, sometimes an original value and bounds.
Its mutators add, subtract or overwrite the value and then clamp it. Each kind
writes itself as a fixed text and reads itself back through `fmt.Sscanf`,
validating what it read.

Modules, one per source file:

- `ClampMath` (incrementers/math.go): `Clamp`, `ClampMin`, `ClampMax`.
- `Inc` (incrementers/inc.go): the unbounded `Incrementer{inc, val, orig}`.
- `ClampedInc` (incrementers/clamped_inc.go): `ClampedIncrementer`, an Incrementer
  with `min` and `max`, where a `max` of 0 means there is no upper bound.
- `UInc` (incrementers/uinc.go): `UIncrementer`, an Incrementer kept at 0 or above.
- `IncClock`, `IncCounter` (incrementers/clock.go, incrementers/counter.go): the
  constructors and JSON validators that produce ClampedIncrementers shaped as a
  clock (0 to steps, step 1) or a counter (0 upwards).
- `RootClock` (clock.go) and `RootUInc` (uinc.go): the older stand-alone
  `Clock{Steps, ticks}` and `UIncrementer{max, val, inc}` of the root package.

Helper modules:

- `Wrappers` holds `Option` and `Result`.
- `Errors` has one case per error the code can return. Every `fmt.Sscanf` failure
  is the single case `ScanFailed`.
- `Text` models the two uses of package fmt the formats rest on. A pattern is a
  sequence of literal pieces and `%d` verbs. `Sprint` prints the integers. `Sscan`
  reads them back the way `fmt.Sscanf` does: an optional sign, the longest run of
  digits, and literal text matched exactly. It keeps each integer as soon as it is
  read, and ignores input after the pattern. `SscanSprint` proves that scanning a
  printed pattern gives back exactly the printed integers, whenever each `%d` is
  followed by literal text that does not start with a digit.

Form of the model:

- Each Go type whose pointer-receiver methods change fields is a Dafny class with
  those fields. ClampedIncrementer's fields sit side by side, because Go embeds
  the Incrementer by value.
- Each method's `modifies` clause names the fields the Go method assigns.
- Each UnmarshalJSON is a method whose new state and error equal a pure `Decode`
  of the old state and the input. Round trips and validation order are lemmas
  about `Decode`.
- Each MarshalJSON is a function whose contract is the round trip. It holds for
  every receiver the text is decoded into.
- A Go byte slice handed to UnmarshalJSON in package incrementers is `Input`,
  either `Nil` or `Bytes(text)`, because that code tells nil apart from text. The
  root package converts it with `string(data)`, so a nil slice is the empty text
  there, and the model passes a string.

Where a doc comment says something the code does not do, the model follows the code:

- `Incrementer` has no upper bound, takes negative values, and its zero value
  has step 0, although its comment (incrementers/inc.go:7-8) calls it a positive
  incrementer between 0 and max whose step defaults to 1.
- `Incrementer.SetValue` stores its argument unclamped, although its comment
  (incrementers/inc.go:60) says the value is clamped.
- `NewClampedIncrementer` keeps the bounds it is given and starts at value 0
  without clamping it, although its comment (incrementers/clamped_inc.go:13)
  speaks of a minimum of 0 and no maximum.
- `NewClockWithTicks` stores the ticks as they are, even outside 0 to steps,
  although its comment (incrementers/clock.go:36) describes a clock over that range.
- `ClampedIncrementer.Clamp` with `min > max` (and `max` not 0) sets `max`, since
  the upper bound is applied last, although its comment
  (incrementers/clamped_inc.go:69) promises a value within the bounds.

Other behaviour a reader might not expect, which the model follows as written:

- `ClampedIncrementer.SetMin` and `SetMax` store the new bound as given, even
  when it crosses the other bound. They re-clamp `val` but never `orig`.
- The inherited `Empty`, `Reset` and `SetIncrementer` of a ClampedIncrementer do
  not clamp. `Empty` sets 0 even when `min` is above 0.
- `null` and `""` leave an Incrementer or ClampedIncrementer unchanged.
  incrementers/uinc.go decodes into a fresh zero Incrementer, so for a
  UIncrementer they store the zero value.
- ClampedIncrementer.UnmarshalJSON leaves `min` and `max` written when a later
  step fails. It also leaves the nested Incrementer stored when a range check
  fails.

## Model

| member | source | states |
|---|---|---|
| `ClampMath.ClampMin` | incrementers/math.go:15-21 | the result is at least `min` and at least `v`, and is one of the two |
| `ClampMath.ClampMax` | incrementers/math.go:7-13 | the result is at most `max` and at most `v`, and is one of the two |
| `ClampMath.Clamp` | incrementers/math.go:3-5 | with `min <= max` the result lies in `[min, max]`, is `v` when `v` is in range and the nearer bound otherwise; with `min > max` it is always `max` |
| `ClampMath.ClampIdempotent` | incrementers/math.go:3-5 | with `min <= max`, clamping a clamped value again changes nothing |
| `ClampMath.ClampNearest` | incrementers/math.go:3-5 | the clamped value is as close to `v` as any point of `[min, max]` |
| `Text.SprintLitDec` | incrementers/inc.go:77 | printing literal text followed by a `%d` writes that text, then the decimal of the first argument, then the rest of the pattern on the remaining arguments |
| `Text.IntToStringSpec` | incrementers/inc.go:77 | `%d` prints a minus sign exactly for negative numbers, and only digits otherwise |
| `Text.ScanIntSpec` | incrementers/inc.go:91 | `%d` fails exactly when no digit follows the optional sign; otherwise it consumes at least one character, stops at the first non-digit, and yields a negative number only after a minus sign |
| `Text.Sscan` | incrementers/inc.go:91 | the scan yields at most one value per `%d`, and exactly one per `%d` when the whole pattern matched |
| `Text.SscanRest` | incrementers/inc.go:91 | the scan reads from the left only: the unread text is a suffix of the input |
| `Text.ScanIntToString` | incrementers/inc.go:91 | a `%d` scan of what `%d` printed, followed by a non-digit or the end, reads back the same integer and leaves the rest unread |
| `Text.SscanSprint` | incrementers/inc.go:76-93 | scanning a printed pattern, with every `%d` followed by non-digit literal text, reads back exactly the printed integers, completes, and leaves any trailing text unread |
| `Inc.Decode` | incrementers/inc.go:81-100 | nil data is an error; `null` and `""` succeed and change nothing; any failure leaves all three fields as they were and is either the nil error or a scan failure |
| `Inc.EncodeNotSpecial` | incrementers/inc.go:76-78 | the text of a state starts with `{`, so it is never `null` or `""` |
| `Inc.EncodeText` | incrementers/inc.go:77 | MarshalJSON's text is exactly `{"inc":`, the decimal of inc, `,"val":`, the decimal of val, `,"orig":`, the decimal of orig, `}` |
| `Inc.EncodeExample` | incrementers/inc_test.go:326-330 | the Incrementer with inc 1, val 2, orig 3 marshals to `{"inc":1,"val":2,"orig":3}` |
| `Inc.DecodeEncode` | incrementers/inc.go:76-97 | decoding MarshalJSON's text into any receiver restores inc, val and orig exactly, with no error |
| `Inc.DecodeMissingOrig` | incrementers/inc.go:90-93 | `{"inc":A,"val":B}` fails to scan and leaves the receiver's fields untouched |
| `Inc.Incrementer.Zero` | incrementers/inc.go:25 | the zero value has every field 0 |
| `Inc.Incrementer.New` | incrementers/inc.go:16 | NewIncrementer has step 1 and value and original value 0 |
| `Inc.Incrementer.WithValue` | incrementers/inc.go:19-21 | NewIncrementerWithValue(v) has step 1 and `val == orig == v` |
| `Inc.Incrementer.Increment` | incrementers/inc.go:46 | val grows by inc, unbounded, even when inc is negative; only val changes |
| `Inc.Incrementer.Decrement` | incrementers/inc.go:49 | val shrinks by inc, unbounded; only val changes |
| `Inc.Incrementer.Add` | incrementers/inc.go:52 | val grows by n; only val changes |
| `Inc.Incrementer.Remove` | incrementers/inc.go:55 | val shrinks by n; only val changes |
| `Inc.Incrementer.SetIncrementer` | incrementers/inc.go:58 | inc becomes n; only inc changes |
| `Inc.Incrementer.SetValue` | incrementers/inc.go:61 | val becomes n exactly, with no clamping |
| `Inc.Incrementer.SetOriginalValue` | incrementers/inc.go:64 | orig becomes n; only orig changes |
| `Inc.Incrementer.Empty` | incrementers/inc.go:67 | val becomes 0, so IsEmpty holds; inc and orig do not change |
| `Inc.Incrementer.Reset` | incrementers/inc.go:70 | val becomes orig, so IsUnchanged holds; orig does not change |
| `Inc.Incrementer.MarshalJSON` | incrementers/inc.go:76-78 | the text, decoded into any receiver, gives back the current state with no error |
| `Inc.Incrementer.UnmarshalJSON` | incrementers/inc.go:81-100 | the new fields and the error are those of `Inc.Decode` on the old fields |
| `Inc.NewIncrementerFromJSON` | incrementers/inc.go:24-28 | a fresh Incrementer holding `Inc.Decode` of the zero value, with its error |
| `Inc.StepAndBack` | incrementers/inc.go:46-55 | Increment then Decrement, and Add(n) then Remove(n), leave every field as it was |
| `ClampedInc.ClampValue` | incrementers/clamped_inc.go:70-77 | with no maximum or `min <= max` the result is within the bounds, a value inside them is kept, one below `min` becomes `min` and one above a nonzero `max` becomes `max`; with `min > max != 0` it is `max`; the result is always `v`, `min` or `max` |
| `ClampedInc.ClampValueIdempotent` | incrementers/clamped_inc.go:70-77 | under ordered bounds, clamping twice is clamping once |
| `ClampedInc.Check` | incrementers/clamped_inc.go:121-145 | the checks pass exactly when `max` is 0 or above `min`, and val and orig both lie within the bounds |
| `ClampedInc.WithScanned` | incrementers/clamped_inc.go:117 | the scan writes only min and max, and leaves the Incrementer alone |
| `ClampedInc.DecodeRest` | incrementers/clamped_inc.go:121-147 | after the scan, success means every check passes; the Incrementer is replaced only past the bound check; min and max stay as scanned |
| `ClampedInc.Decode` | incrementers/clamped_inc.go:105-148 | nil data is an error; `null` and `""` change nothing; success leaves the receiver either untouched or passing every check; the Incrementer changes only if the scan and the bound check passed |
| `ClampedInc.EncodeShape` | incrementers/clamped_inc.go:116 | the text of a state is at least two characters long and is not `null` or `""`; cutting its two ends leaves the header followed by the nested Incrementer text |
| `ClampedInc.EncodeText` | incrementers/clamped_inc.go:102 | MarshalJSON's text is exactly `{"min":`, the decimal of min, `,"max":`, the decimal of max, `,"incrementer":`, the nested Incrementer's text, `}` |
| `ClampedInc.EncodeExample` | incrementers/clamped_inc_test.go:443-448 | bounds -4 and 4 around the Incrementer (1, 2, 3) marshal to `{"min":-4,"max":4,"incrementer":{"inc":1,"val":2,"orig":3}}` |
| `ClampedInc.DecodeEncodeScan` | incrementers/clamped_inc.go:116-117 | the text of c scans completely; then min and max are c's and the nested text is c's Incrementer text |
| `ClampedInc.DecodeRestEncode` | incrementers/clamped_inc.go:121-147 | a failed bound check keeps the old Incrementer; otherwise the nested text is stored and the range checks run on it |
| `ClampedInc.DecodeEncode` | incrementers/clamped_inc.go:100-148 | decoding the text of c into any receiver returns c's first failing check, in source order; on the bound failure only min and max were written, otherwise the receiver holds all of c |
| `ClampedInc.DecodeEncodeValid` | incrementers/clamped_inc.go:100-148 | a ClampedIncrementer that passes every check decodes back to itself with no error |
| `ClampedInc.ClampedIncrementer.Zero` | incrementers/clamped_inc.go:31 | the zero value has every field 0 |
| `ClampedInc.ClampedIncrementer.FromState` | incrementers/clamped_inc.go:7-11 | a struct literal holds the given fields, unclamped |
| `ClampedInc.ClampedIncrementer.New` | incrementers/clamped_inc.go:14-16 | NewClampedIncrementer keeps the bounds as given, with step 1 and val and orig 0, unclamped |
| `ClampedInc.ClampedIncrementer.WithValue` | incrementers/clamped_inc.go:19-27 | step 1; `val == orig` is v clamped by the bound rule, within the bounds when they are ordered, and v itself when v is in range |
| `ClampedInc.ClampedIncrementer.Clamp` | incrementers/clamped_inc.go:70-77 | val is re-clamped by the bound rule and lands within ordered bounds; only val changes |
| `ClampedInc.ClampedIncrementer.ClampOriginalValue` | incrementers/clamped_inc.go:81-88 | orig is re-clamped by the same rule; only orig changes |
| `ClampedInc.ClampedIncrementer.Increment` | incrementers/clamped_inc.go:46 | val becomes `val + inc` clamped: in bounds when they are ordered, and exact inside them; only val changes |
| `ClampedInc.ClampedIncrementer.Decrement` | incrementers/clamped_inc.go:49 | val becomes `val - inc` clamped, with the same guarantees |
| `ClampedInc.ClampedIncrementer.Add` | incrementers/clamped_inc.go:52 | val becomes `val + n` clamped, with the same guarantees |
| `ClampedInc.ClampedIncrementer.Remove` | incrementers/clamped_inc.go:55 | val becomes `val - n` clamped, with the same guarantees |
| `ClampedInc.ClampedIncrementer.SetMin` | incrementers/clamped_inc.go:58 | min is stored verbatim and val is re-clamped against it; orig is untouched |
| `ClampedInc.ClampedIncrementer.SetMax` | incrementers/clamped_inc.go:61 | max is stored verbatim and val is re-clamped against it; orig is untouched |
| `ClampedInc.ClampedIncrementer.SetValue` | incrementers/clamped_inc.go:64 | val is n clamped by the bound rule, within ordered bounds |
| `ClampedInc.ClampedIncrementer.SetOriginalValue` | incrementers/clamped_inc.go:67 | orig is n clamped by the same rule; val is untouched |
| `ClampedInc.ClampedIncrementer.Fill` | incrementers/clamped_inc.go:91 | val becomes max, so IsFull holds |
| `ClampedInc.ClampedIncrementer.Floor` | incrementers/clamped_inc.go:94 | val becomes min |
| `ClampedInc.ClampedIncrementer.SetIncrementer` | incrementers/inc.go:58 | the inherited setter changes only inc |
| `ClampedInc.ClampedIncrementer.Empty` | incrementers/inc.go:67 | the inherited Empty sets val to 0 whatever the bounds |
| `ClampedInc.ClampedIncrementer.Reset` | incrementers/inc.go:70 | the inherited Reset sets val to orig, unclamped |
| `ClampedInc.ClampedIncrementer.MarshalJSON` | incrementers/clamped_inc.go:100-103 | decoding the text into any receiver reports the state's first failing check; a state passing every check comes back unchanged |
| `ClampedInc.ClampedIncrementer.UnmarshalJSON` | incrementers/clamped_inc.go:105-148 | the new fields and the error are those of `ClampedInc.Decode` on the old fields |
| `ClampedInc.ClampedIncrementer.UnmarshalRest` | incrementers/clamped_inc.go:121-147 | the steps after the scan leave the fields and error of `ClampedInc.DecodeRest` |
| `ClampedInc.NewClampedIncrementerFromJSON` | incrementers/clamped_inc.go:30-34 | a fresh ClampedIncrementer holding `ClampedInc.Decode` of the zero value, with its error |
| `UInc.Check` | incrementers/uinc.go:57-63 | the checks pass exactly when val and orig are both at least 0 |
| `UInc.Decode` | incrementers/uinc.go:50-66 | nil data is an error that changes nothing; `null` and `""` store the zero Incrementer; success means val and orig are at least 0; a nil or scan error leaves the receiver as it was |
| `UInc.DecodeEncode` | incrementers/uinc.go:50-66 | decoding any Incrementer text stores it and reports its first negative field, val before orig |
| `UInc.UIncrementer.Zero` | incrementers/uinc.go:27 | the zero value has every field 0 |
| `UInc.UIncrementer.New` | incrementers/uinc.go:12-14 | NewUIncrementer has step 1 and val and orig 0 |
| `UInc.UIncrementer.WithValue` | incrementers/uinc.go:17-23 | step 1 and `val == orig`: v itself when v is at least 0, and 0 when v is negative |
| `UInc.UIncrementer.Increment` | incrementers/uinc.go:33 | val becomes `val + inc` when that is at least 0, and 0 otherwise; there is no upper bound |
| `UInc.UIncrementer.Decrement` | incrementers/uinc.go:36 | val becomes `val - inc`, floored at 0, so a negative inc raises it |
| `UInc.UIncrementer.Add` | incrementers/uinc.go:39 | val becomes `val + n`, floored at 0 |
| `UInc.UIncrementer.Remove` | incrementers/uinc.go:42 | val becomes `val - n`, floored at 0 |
| `UInc.UIncrementer.SetValue` | incrementers/uinc.go:45 | val becomes n, floored at 0 |
| `UInc.UIncrementer.SetOriginalValue` | incrementers/uinc.go:48 | orig becomes n, floored at 0; val is untouched |
| `UInc.UIncrementer.SetIncrementer` | incrementers/inc.go:58 | the inherited setter changes only inc |
| `UInc.UIncrementer.Empty` | incrementers/inc.go:67 | the inherited Empty sets val to 0 |
| `UInc.UIncrementer.Reset` | incrementers/inc.go:70 | the inherited Reset sets val to orig |
| `UInc.UIncrementer.MarshalJSON` | incrementers/inc.go:76-78 | the inherited text, decoded into any receiver, stores the state and reports its first negative field |
| `UInc.UIncrementer.UnmarshalJSON` | incrementers/uinc.go:50-66 | the new fields and the error are those of `UInc.Decode` on the old fields |
| `UInc.NewUIncrementerFromJSON` | incrementers/uinc.go:26-30 | a fresh UIncrementer holding `UInc.Decode` of the zero value, with its error |
| `UInc.NegativeSteps` | incrementers/uinc.go:36-42 | from 0: Decrement with step -1 gives 1, Remove(-4) gives 4, Remove(4) gives 0 |
| `IncClock.FromJSON` | incrementers/clock.go:42-61 | nil data is an error; `null` and `""` fail on max; every success is a clock: valid, min 0, max at least 1, step 1 |
| `IncClock.FromJSONEncode` | incrementers/clock.go:42-61 | for the text of any ClampedIncrementer c: c's own failing check first, then min, then max (so a max of 0 is rejected), then inc; success exactly for clocks, which come back unchanged |
| `IncClock.NewClock` | incrementers/clock.go:32-34 | min 0, max steps, step 1, val and orig 0 |
| `IncClock.NewClockWithTicks` | incrementers/clock.go:37-39 | as NewClock, with ticks as val and orig, unclamped |
| `IncClock.NewClockFromJSON` | incrementers/clock.go:42-61 | a fresh clock holding `IncClock.FromJSON`'s value on success, no clock and its error on failure |
| `IncClock.FourSteps` | incrementers/clock_test.go:60-85 | a 4-step clock starts empty; Increment, Fill, Increment, Decrement, Empty, Decrement give 1, 4 (full), 4, 3, 0, 0 |
| `IncCounter.FromJSON` | incrementers/counter.go:45-60 | nil data is an error; `null` and `""` give the zero ClampedIncrementer; every success is a counter: valid, min 0, no maximum |
| `IncCounter.FromJSONEncode` | incrementers/counter.go:45-60 | for the text of any ClampedIncrementer c: c's own failing check first, then min, then max; success exactly for counters, which come back unchanged |
| `IncCounter.NewCounter` | incrementers/counter.go:32-34 | min 0, no maximum, step 1, val and orig 0 |
| `IncCounter.NewCounterWithValue` | incrementers/counter.go:37-43 | min 0, no maximum, step 1, `val == orig`: v itself when v is at least 0, and 0 when v is negative |
| `IncCounter.NewCounterFromJSON` | incrementers/counter.go:45-60 | a fresh counter holding `IncCounter.FromJSON`'s value on success, no counter and its error on failure |
| `IncCounter.Unbounded` | incrementers/counter.go:32-34 | a new counter climbs to any n + 1 and stops at 0 going down |
| `RootClock.Check` | clock.go:127-137 | the checks pass exactly for a valid clock: steps at least 1 and ticks within 0 and steps |
| `RootClock.EncodeText` | clock.go:116 | MarshalJSON's text is exactly `{"steps":`, the decimal of steps, `,"ticks":`, the decimal of ticks, `}` |
| `RootClock.EncodeExample` | clock_test.go:230-243 | the clock with 4 steps and 3 ticks marshals to `{"steps":4,"ticks":3}` |
| `RootClock.Decode` | clock.go:120-143 | any failure leaves the clock unchanged; success always stores a valid clock; empty (nil) data fails to scan |
| `RootClock.DecodeEncode` | clock.go:115-143 | decoding a clock's text gives the clock when it is valid, and otherwise its first failing check with the receiver untouched |
| `RootClock.Clock.Zero` | clock.go:18 | the zero clock has no steps and no ticks |
| `RootClock.Clock.New` | clock.go:11 | steps as given, no ticks |
| `RootClock.Clock.WithTicks` | clock.go:14 | steps and ticks as given, unchecked |
| `RootClock.Clock.Tick` | clock.go:33-39 | ticks grows by exactly 1 unless it equals steps; validity is preserved |
| `RootClock.Clock.Add` | clock.go:42-52 | nothing when full; otherwise ticks grows by n, capped at steps; validity is preserved for n at least 0 |
| `RootClock.Clock.Remove` | clock.go:55-61 | ticks shrinks by n, floored at 0; validity is preserved for n at least 0 |
| `RootClock.Clock.SetSteps` | clock.go:64-74 | steps becomes n or 1, whichever is larger, and ticks is pulled down to it; the result is valid when ticks was at least 0 |
| `RootClock.Clock.AddSteps` | clock.go:77-79 | only steps changes, by n; validity is preserved for n at least 0 |
| `RootClock.Clock.RemoveSteps` | clock.go:82-92 | steps shrinks by n but not below 1, and ticks is pulled down to it; the result is valid when ticks was at least 0 |
| `RootClock.Clock.Fill` | clock.go:95-97 | ticks becomes steps, so IsFull holds |
| `RootClock.Clock.Empty` | clock.go:100-102 | ticks becomes 0, so IsEmpty holds |
| `RootClock.Clock.Reset` | clock.go:105-107 | ticks becomes 0, so IsEmpty holds |
| `RootClock.Clock.MarshalJSON` | clock.go:115-117 | a valid clock's text decodes back to it into any receiver; an invalid one's is rejected with its first failing check |
| `RootClock.Clock.UnmarshalJSON` | clock.go:120-143 | the new fields and the error are those of `RootClock.Decode` on the old fields |
| `RootClock.NewFromJSON` | clock.go:17-21 | a fresh clock holding `RootClock.Decode` of the zero clock, with its error |
| `RootUInc.Check` | uinc.go:176-190 | the checks pass exactly when max is at least 1, val lies within 0 and max, and inc is at least 0 |
| `RootUInc.EncodeText` | uinc.go:165 | MarshalJSON's text is exactly `{"max":`, the decimal of max, `,"val":`, the decimal of val, `,"inc":`, the decimal of inc, `}` |
| `RootUInc.Decode` | uinc.go:169-196 | any failure leaves the receiver unchanged; success stores a valid max and val and never changes inc; empty (nil) data fails to scan |
| `RootUInc.DecodeEncode` | uinc.go:164-196 | decoding the text of e takes e's max and val and keeps the receiver's inc when e passes the checks, and otherwise reports e's first failing check |
| `RootUInc.UIncrementer.Zero` | uinc.go:25 | the zero value has every field 0 |
| `RootUInc.UIncrementer.New` | uinc.go:16 | max as given, val 0, step 1 |
| `RootUInc.UIncrementer.WithValue` | uinc.go:19-21 | max and val as given, unchecked, step 1 |
| `RootUInc.UIncrementer.GetInc` | uinc.go:30-36 | the effective step is never 0: inc itself, or 1 when inc is 0 |
| `RootUInc.UIncrementer.IncrementBy` | uinc.go:54-56 | only inc changes |
| `RootUInc.UIncrementer.Increment` | uinc.go:62-67 | val grows by the effective step and becomes max once it reaches max; validity is preserved for inc at least 0 |
| `RootUInc.UIncrementer.Advance` | uinc.go:59 | the same as Increment |
| `RootUInc.UIncrementer.Decrement` | uinc.go:70-75 | val shrinks by the effective step and becomes 0 once it reaches 0; validity is preserved for inc at least 0 |
| `RootUInc.UIncrementer.Add` | uinc.go:78-88 | nothing when full; otherwise val grows by n, capped at max; validity is preserved for n at least 0 |
| `RootUInc.UIncrementer.Remove` | uinc.go:91-97 | val shrinks by n, floored at 0; validity is preserved for n at least 0 |
| `RootUInc.UIncrementer.SetValue` | uinc.go:100-110 | val is n raised to 0 and then lowered to max: within 0 and max when max is at least 0, and n itself when n is in range |
| `RootUInc.UIncrementer.SetMax` | uinc.go:113-123 | max becomes n or 1, whichever is larger, and val is pulled down to it; the result is valid when val was at least 0 |
| `RootUInc.UIncrementer.AddMax` | uinc.go:126-128 | only max changes, by n; validity is preserved for n at least 0 |
| `RootUInc.UIncrementer.RemoveMax` | uinc.go:131-141 | max shrinks by n but not below 1, and val is pulled down to it; the result is valid when val was at least 0 |
| `RootUInc.UIncrementer.Fill` | uinc.go:144-146 | val becomes max, so IsFull holds |
| `RootUInc.UIncrementer.Empty` | uinc.go:149-151 | val becomes 0, so IsEmpty holds |
| `RootUInc.UIncrementer.Reset` | uinc.go:154-156 | val becomes 0, so IsEmpty holds |
| `RootUInc.UIncrementer.MarshalJSON` | uinc.go:164-166 | decoding the text back into the same UIncrementer restores it when it passes the checks; into another receiver only max and val are taken |
| `RootUInc.UIncrementer.UnmarshalJSON` | uinc.go:169-196 | the new fields and the error are those of `RootUInc.Decode` on the old fields |
| `RootUInc.NewUIncrementerFromJSON` | uinc.go:24-28 | a fresh UIncrementer holding `RootUInc.Decode` of the zero value, with its error |
| `RootUInc.CapsAndFloors` | uinc.go:78-97 | at max 4 and value 3: Add(3) stops at 4; Add(1) then leaves it there; Remove(10) stops at 0; with stored step 0, Increment moves by 1 |

## Left out

- Getters that only read a field (`Inc`, `Value`, `Original`, `Min`, `Max`, `Ticks`) are left out, because Dafny reads the class fields directly. The root UIncrementer's `Incrementer()` accessor is `GetInc`.
- The `String()` methods are left out. Their `%d/%d` text adds nothing to the decimal printing used by MarshalJSON.
- fmt.Sscanf's whitespace handling is not modelled. It skips spaces before a `%d` and ends a `%s` at the first space, so here the nested text of a ClampedIncrementer is all of the remaining input.
- fmt.Sscanf's library error messages are not modelled. Every scan failure is `ScanFailed`, and the repository's own `fmt.Errorf` messages are enum cases.
- Go's 64-bit `int` is modelled as an unbounded integer. Wrap-around in the mutators is left out, and so is Sscanf's out-of-range error on a number too large for 64 bits.
- Text is a Dafny `string`, not a byte sequence. The formats are ASCII, and no encoding is modelled.
- ClampedInc.Decode: on non-nil text shorter than two bytes other than `null` and `""`, the Go code panics on `data[1:len(data)-1]`. The model returns the error `SlicePanic` and changes nothing.
- The `Clock` and `Counter` interfaces (incrementers/clock.go:5-29 and incrementers/counter.go:5-29) and Go's interface dispatch are left out. A clock or counter is a ClampedIncrementer, and a nil interface result is `null`.
- `IsEmpty`, `IsUnchanged` and `IsFull` are predicates with no row. The mutators and lemmas above state them.
- vectors/vector2.go, vectors/vector3.go and common/math.go are not part of this model. They are float64 arithmetic.
- dice.go is not part of this model. Its results come from a random source.
- tokens/counter.go is not part of this model. It is a display helper with no stated contract.
- The root counter.go is not part of this model. It calls incrementer constructors with signatures that no shown source defines.
- `IsClamped` is tested in incrementers/math_test.go but not defined in incrementers/math.go, so it is not part of this model.
