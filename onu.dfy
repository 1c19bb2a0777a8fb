/** The optical network unit: a message source with a bounded FIFO of pending message
    lengths, a three-state send machine and counters of sent and blocked messages. */
module Onu {
  import opened Clock

  /** The unit's send state, the string tags 'IDLE' | 'WAITING' | 'SENDING'. */
  datatype State = Idle | Waiting | Sending

  /** The kind of the unit's next event, the string tags 'MESSAGE' | 'IDLE'. */
  datatype EventType = MessageEvent | IdleEvent

  /** A message being served; its progress is accumulated across pauses. */
  class Message {
    var amount: real
    var progress: real

    constructor (amount: real)
      ensures this.amount == amount && progress == 0.0
    {
      this.amount := amount;
      progress := 0.0;
    }
  }

  class ONU {
    var state: State
    var meanMssgTime: real
    var meanIdleTime: real
    var messageQueue: seq<real>
    var nextEvent: EventType
    var nextEventMssg: real
    var nextEventIdle: real
    var nextMessageLength: real
    var waitingSince: real
    var waited: real
    const capacity: int
    var blockedMessages: nat
    var sentMessages: nat
    var currentMessage: Message?

    /** Whether a message length has been drawn yet: the length exists only after the
        first schedule, and reading it earlier is an error. */
    ghost var lengthDrawn: bool

    /** The queue bound: the queue never holds more than `capacity` lengths (and stays
        empty when the capacity is not positive). */
    ghost predicate Valid()
      reads this
    {
      |messageQueue| <= capacity || messageQueue == []
    }

    constructor (meanMssgTime: real, meanIdleTime: real, capacity: int)
      ensures Valid()
      ensures this.meanMssgTime == meanMssgTime && this.meanIdleTime == meanIdleTime
      ensures this.capacity == capacity
      ensures state == Idle && nextEvent == MessageEvent
      ensures nextEventIdle == 0.0 && nextEventMssg == 0.0
      ensures messageQueue == [] && currentMessage == null
      ensures waitingSince == 0.0 && waited == 0.0
      ensures blockedMessages == 0 && sentMessages == 0
      ensures !lengthDrawn
    {
      this.meanMssgTime := meanMssgTime;
      this.meanIdleTime := meanIdleTime;
      this.capacity := capacity;
      nextEventIdle := 0.0;
      nextEventMssg := 0.0;
      state := Idle;
      messageQueue := [];
      nextEvent := MessageEvent;
      waitingSince := 0.0;
      waited := 0.0;
      blockedMessages := 0;
      sentMessages := 0;
      currentMessage := null;
      lengthDrawn := false;
    }

    /** Schedules the next message arrival after a gap of `gap` from the end of the last
        idle period, and the following idle point after the message's length. The two
        exponential draws are parameters; the remainder is taken of each draw alone,
        not of the sum. */
    method ScheduleEvents(gap: real, length: real)
      modifies this`nextMessageLength, this`nextEventMssg, this`nextEventIdle, this`lengthDrawn
      ensures nextMessageLength == length && lengthDrawn
      ensures nextEventMssg == old(nextEventIdle) + ModTimer(gap)
      ensures nextEventIdle == nextEventMssg + ModTimer(length)
      ensures old(nextEventIdle) <= nextEventMssg <= nextEventIdle
      ensures old(nextEventIdle) <= NextEvent().1 <= nextEventIdle
      ensures nextEventIdle < old(nextEventIdle) + 2.0 * TIMER_MAX
    {
      nextMessageLength := length;
      nextEventMssg := nextEventIdle + ModTimer(gap);
      nextEventIdle := nextEventMssg + ModTimer(length);
      lengthDrawn := true;
    }

    /** Admits the drawn message length to the queue, or counts it as blocked when the
        queue is full. */
    method QueueMessage()
      requires Valid() && (|messageQueue| < capacity ==> lengthDrawn)
      modifies this`messageQueue, this`blockedMessages
      ensures Valid()
      ensures old(|messageQueue|) >= capacity ==>
                blockedMessages == old(blockedMessages) + 1 && messageQueue == old(messageQueue)
      ensures old(|messageQueue|) < capacity ==>
                messageQueue == old(messageQueue) + [nextMessageLength] &&
                blockedMessages == old(blockedMessages)
    {
      if |messageQueue| >= capacity {
        blockedMessages := blockedMessages + 1;
      } else {
        messageQueue := messageQueue + [nextMessageLength];
      }
    }

    /** The kind and time of the unit's next event. */
    function NextEvent(): (EventType, real)
      reads this
    {
      var time := if nextEvent == IdleEvent then nextEventIdle else nextEventMssg;
      (nextEvent, time)
    }

    /** Opens a new message of the drawn length, with no progress, and starts waiting
        for the channel at `time`. The queue is not touched. */
    method StartMessageIntent(time: real := 0.0)
      requires lengthDrawn
      modifies this`currentMessage, this`state, this`waitingSince
      ensures fresh(currentMessage)
      ensures currentMessage != null && currentMessage.amount == nextMessageLength
      ensures currentMessage.progress == 0.0
      ensures state == Waiting && waitingSince == time
    {
      currentMessage := new Message(nextMessageLength);
      state := Waiting;
      waitingSince := time;
    }

    /** Starts sending at `time`, adding the circular time spent waiting since
        `waitingSince` to the accumulated wait. */
    method StartMessageSend(time: real := 0.0)
      modifies this`state, this`waited
      ensures state == Sending
      ensures waited == old(waited) + ForwardDelta(waitingSince, time)
      ensures time >= waitingSince ==> waited == old(waited) + (time - waitingSince)
      ensures time < waitingSince ==> waited == old(waited) + (time + TIMER_MAX - waitingSince)
      ensures 0.0 <= time && waitingSince <= TIMER_MAX ==> waited >= old(waited)
    {
      state := Sending;
      if time < waitingSince {
        waited := waited + (time + (TIMER_MAX - waitingSince));
      } else {
        waited := waited + (time - waitingSince);
      }
    }

    /** Interrupts the current message at `time`, crediting it with `progress`, and
        waits again. Without a current message nothing happens. */
    method PauseMessageSend(time: real := 0.0, progress: real := 0.0)
      modifies this`state, this`waitingSince, currentMessage
      ensures currentMessage == old(currentMessage)
      ensures old(currentMessage) == null ==>
                state == old(state) && waitingSince == old(waitingSince)
      ensures old(currentMessage) != null ==>
                currentMessage.progress == old(currentMessage.progress) + progress &&
                currentMessage.amount == old(currentMessage.amount) &&
                state == Waiting && waitingSince == time
    {
      if currentMessage == null {
        return;
      }
      state := Waiting;
      currentMessage.progress := currentMessage.progress + progress;
      waitingSince := time;
    }

    /** Finishes the current message: one more message sent, and the unit is idle. */
    method EndMessageSend()
      modifies this`sentMessages, this`currentMessage, this`state
      ensures sentMessages == old(sentMessages) + 1
      ensures currentMessage == null && state == Idle
    {
      sentMessages := sentMessages + 1;
      currentMessage := null;
      state := Idle;
    }
  }
}
