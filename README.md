# Dynamic bandwidth allocation simulator — endpoint, terminator and result naming

This project models, in Dafny, the core of an early version of a dynamic bandwidth
allocation (DBA) simulator for a passive optical network. There are three parts.

- **The optical network unit (ONU)**, module `Onu`, file `onu.dfy`. The ONU is a class whose methods update
  its fields in place. Its parts are:
  - a bounded FIFO of pending message lengths, where a message that arrives at a full queue is
    counted as blocked;
  - a send state machine over `Idle | Waiting | Sending`, with a resumable `Message` whose
    progress grows across pauses;
  - the accumulated waiting time `waited`;
  - the scheduling of the next message arrival from two random draws, which are passed in as
    parameters.

  The class invariant `Valid()` is the queue bound. `QueueMessage` keeps it, and no other method
  touches the queue.
- **The optical line terminator (OLT)**, module `Olt`, file `olt.dfy`. It has:
  - a constructor that refuses a window vector whose length differs from the number of units
    (`Create`);
  - the selection of the unit whose event comes next on the circular clock (`GetNextEvent`), as
    a loop proved against the specification predicate `IsEarliest`;
  - the fitness, the reciprocal of the total wait (`FitnessFunction`), as a loop proved against
    the specification function `Sum`.
- **The numbering of saved result files**, module `ResultFiles`, file `result_files.dfy`. From a
  directory listing it computes the next `NN.pkl` name, as pure functions over a sequence of
  strings.

The circular time domain is in module `Clock`, file `clock.dfy`. It holds:
- the timer ceiling `TIMER_MAX` = 1 000 000;
- the forward distance `ForwardDelta`, which the OLT's selection and the ONU's waiting-time
  update share;
- Python's float remainder `ModTimer`.

Times are `real`.

This version's ONU keeps the waiting/sending state machine and the `waited` latency. It has
no per-round demand counters and no dequeue or flush operation.

`schedule_events` takes the remainder of each draw only, not of the sum. So event times are not
kept in `[0, TIMER_MAX)`: `ScheduleEvents` only promises that they move forward by less than
two turns.

## Model

| member | source | states |
|---|---|---|
| `Clock.ModTimer` | ONU.py:55-56 | Python's `x % TIMER_MAX` on floats: the result lies in [0, TIMER_MAX) and differs from x by a whole multiple of TIMER_MAX, for every real x; so it is x itself when x is already on the circle, and never exceeds a non-negative x |
| `Clock.ForwardDelta` | OLT.py:40-44 | the circular delta is `to - from` when `to >= from` and otherwise `to - from + TIMER_MAX`; with both ends in [0, TIMER_MAX) the delta lies in [0, TIMER_MAX) |
| `Clock.ForwardDeltaNonNegative` | ONU.py:87-90 | the delta added to the wait is never negative when the time is ≥ 0 and the wait started at or below TIMER_MAX |
| `Clock.ForwardDeltaArrives` | OLT.py:40-44 | going forward by the delta from the clock, modulo TIMER_MAX, lands on the event time |
| `Onu.Message.constructor` | ONU.py:8-13 | a new message has the given amount and zero progress |
| `Onu.ONU.constructor` | ONU.py:34-45 | stores the means and the queue capacity; state IDLE, next event MESSAGE, both event times 0, empty queue, no current message, zero counters and zero wait; the queue bound holds |
| `Onu.ONU.ScheduleEvents` | ONU.py:48-56 | the message length becomes the second draw; the message event is the old idle event plus the first draw modulo TIMER_MAX; the idle event is the message event plus the length modulo TIMER_MAX; so old idle ≤ message event ≤ new idle, and the event time the unit then reports (`NextEvent`, ONU.py:66-75) lies between the old and the new idle point |
| `Onu.ONU.QueueMessage` | ONU.py:59-63 | at or above capacity, blocked count + 1 and queue unchanged, even before any length is drawn; below it, the drawn length is appended and the blocked count is unchanged; the queue bound is preserved; nothing else changes |
| `Onu.ONU.StartMessageIntent` | ONU.py:78-81 | a fresh current message with amount = the drawn length and progress 0; state WAITING, waiting since `time` (default 0.0); the queue and counters are untouched |
| `Onu.ONU.StartMessageSend` | ONU.py:84-90 | state SENDING; the wait grows, for `time` (default 0.0), by `time - waitingSince`, or by `time + TIMER_MAX - waitingSince` when `time` is behind; the wait never decreases when time ≥ 0 and waitingSince ≤ TIMER_MAX |
| `Onu.ONU.PauseMessageSend` | ONU.py:93-99 | with no current message nothing changes; otherwise its progress grows by `progress`, state WAITING, waiting since `time` (both default 0.0) |
| `Onu.ONU.EndMessageSend` | ONU.py:102-105 | sent count + 1, no current message, state IDLE, nothing else changes |
| `Olt.Create` | OLT.py:14-22 | fails with a length mismatch exactly when the window vector and the ONU list differ in length; otherwise a new terminator stores both unchanged |
| `Olt.OLT.constructor` | OLT.py:21-22 | stores the ONU list, the window vector and the clock as given |
| `Olt.OLT.GetNextEvent` | OLT.py:31-55 | with no ONU: index 0, infinite time, kind IDLE; otherwise the chosen index has a delta ≤ every ONU's delta and strictly < every lower index's delta, and the time and kind are the ones that ONU reports through `NextEvent` (ONU.py:66-75); it modifies nothing |
| `Olt.EarliestIsUnique` | OLT.py:46-50 | the strict comparison leaves exactly one admissible index: two earliest indices are equal |
| `Olt.EarliestComesFirst` | OLT.py:46 | any ONU at least as close as the chosen one has an index no lower |
| `Olt.EarliestWithinOneTurn` | OLT.py:40-44 | with the clock and all event times on the circle, the chosen delta lies in [0, TIMER_MAX) |
| `Olt.Sum` | OLT.py:26-28 | the left-to-right total of the waits; non-negative waits have a non-negative total |
| `Olt.OLT.FitnessFunction` | OLT.py:25-29 | a division error exactly when the summed wait is 0; otherwise success with exactly `1 / (summed wait)`, whose product with the summed wait is 1 |
| `Olt.SumZeroIffAllZero` | OLT.py:26-29 | with non-negative waits, the fitness is undefined exactly when every ONU's wait is 0 |
| `ResultFiles.Stem` | simulator.py:24-25 | the stem is a prefix of the name with no '.', followed in the name by '.' when shorter than it |
| `ResultFiles.Contributes` | simulator.py:23-25 | the two filters: a name ends in ".pkl" and its stem is non-empty and all digits |
| `ResultFiles.ExistingNumbers` | simulator.py:23-26 | a number is in use exactly when some listed name ends in ".pkl" and has an all-digit stem of that value |
| `ResultFiles.MaxOrZero` | simulator.py:27 | the maximum is ≥ every number and is one of them, or 0 for none |
| `ResultFiles.NextNumber` | simulator.py:27 | the next number is ≥ 1 and above every number in use; it is 1 or one past a number in use; it is 1 when nothing contributes |
| `ResultFiles.Decimal` | simulator.py:29 | the decimal notation is a non-empty digit string without a leading zero that reads back as the number |
| `ResultFiles.PadTwo` | simulator.py:29 | the zero-padded notation is all digits, at least two long, has a leading zero only at length two, and reads back as the number |
| `ResultFiles.StemOfDigitsName` | simulator.py:24-29 | the stem of `<digits>.pkl` is the digits |
| `ResultFiles.NextFileName` | simulator.py:23-29 | the new name is exactly the padded next number followed by ".pkl" (its stem is the padded number and nothing else precedes the extension), so it would itself contribute that number; it is not already in the listing |

## Left out

- Random draws: `numpy.random.exponential` in `schedule_events` is replaced by the two draws passed as parameters to `ScheduleEvents`. The means stored in the ONU are kept but not used.
- Floating point: times, lengths and waits are exact reals, with no rounding, NaN or overflow. The infinite start value of the OLT's search is the datatype value `Infinity`.
- `message_queue` is only annotated in the source and never assigned. The model starts every ONU with an empty queue.
- `next_message_length` is only set by `schedule_events`. The ghost flag `lengthDrawn` records that it exists. `StartMessageIntent` requires it, and so does `QueueMessage` when the queue has room and the length is appended. A full queue blocks without reading the length, so it needs no draw. This matches the attribute error that Python raises on reading the length before the first schedule.
- The OLT's clock `time` is only annotated in the source. The model makes it a constructor parameter.
- The `next_event` tag is never changed from MESSAGE in the source. It is kept as a field, and `NextEvent` models both branches.
- The ONU methods other than `QueueMessage` neither require nor restate the queue bound. Their frames leave the queue untouched, so the bound carries over.
- The aliasing of one `Message` between several ONUs is not ruled out. The source never shares one.
- The stubs `DBA`, `schedule_messages` and `update` (OLT.py:59-68) have empty bodies and are not modelled.
- The save step's filesystem work is not modelled: creating the directory, listing it, opening the file, pickling and printing. Only the name computation over a given listing is.
- "Digit" means the ASCII digits 0-9. Python's `str.isdigit` also accepts other Unicode digits.
- constants.py is not part of this model. It holds a different ceiling (10 000 000) and a display scaling. The ceiling here is the 1 000 000 of ONU.py and OLT.py.
- The experiment driver in simulator.py (lines 40-118) is not part of this model. It calls the ONU with keyword arguments that its constructor does not take, and uses an optimizer class that OLT.py does not define.
- Features of the full simulator are not in this version of ONU.py, OLT.py and simulator.py, and are not modelled: the pheromone optimizer, the frame and window loop, per-round demand counters and their flush, and the metrics.
