/**
  `TimeoutTask`, the test helper that races an operation against a timer. Reading
  `value` stores a continuation; the timer task, the operation task and `cancle()` each
  resume it if it is still stored and then clear it. Events are taken one at a time.
 */
module Timeout {
  import opened Common
  import opened OneShot

  /** The errors the wrapper itself throws: `TimeoutError` and Swift's `CancellationError`. */
  datatype TimeoutFailure = TimeoutError | CancellationError

  /** `errorDescription` of the wrapper's errors; only `TimeoutError` declares one. */
  function ErrorDescription(e: TimeoutFailure): (d: Option<string>)
    ensures d.Some? <==> e == TimeoutError
    ensures d.Some? ==> d.value == "The operation timed out."
  {
    if e == TimeoutError then Some("The operation timed out.") else None
  }

  /** The events that touch the slot. */
  datatype Event<+T, +E> =
    | ReadValue                                // the `value` getter stores a continuation
    | TimerFired                               // the sleep of the timer task ended
    | OperationFinished(result: Result<T, E>)  // the operation returned (Ok) or threw (Err)
    | Cancel                                   // `cancle()`

  type TimeoutSlot<T> = Slot<T, TimeoutFailure>

  /** The effect of one event on the slot. */
  function Step<T, E>(s: TimeoutSlot<T>, e: Event<T, E>): (t: TimeoutSlot<T>)
    requires Valid(s)
    ensures Valid(t)
    ensures e.ReadValue? ==> t == Install(s)
    ensures e.TimerFired? ==> t == Resume(s, Throwing(TimeoutError))
    ensures e.Cancel? ==> t == Resume(s, Throwing(CancellationError))
    ensures e.OperationFinished? && e.result.Ok? ==> t == Resume(s, Returning(e.result.value))
    ensures e.OperationFinished? && e.result.Err? ==> t == s
  {
    match e
    case ReadValue => Install(s)
    case TimerFired => Resume(s, Throwing(TimeoutError))
    case Cancel => Resume(s, Throwing(CancellationError))
    case OperationFinished(r) =>
      // `try await operation()` leaves the task before the slot is touched
      if r.Ok? then Resume(s, Returning(r.value)) else s
  }

  /** The slot after a sequence of events, taken in order. */
  function Run<T, E>(s: TimeoutSlot<T>, events: seq<Event<T, E>>): (t: TimeoutSlot<T>)
    requires Valid(s)
    ensures Valid(t)
    ensures |s.log| <= |t.log| && t.log[..|s.log|] == s.log
    decreases |events|
  {
    if events == [] then s else Run(Step(s, events[0]), events[1..])
  }

  /** The slot of a freshly made `TimeoutTask`. */
  function Initial<T>(): (s: TimeoutSlot<T>)
    ensures Valid(s) && s.pending.None? && s.log == []
  {
    Slot(None, 0, [])
  }

  /** Under any order of events, every stored continuation is resumed at most once. */
  lemma EachContinuationResumedAtMostOnce<T, E>(events: seq<Event<T, E>>, c: nat)
    ensures TimesResumed(Run(Initial<T>(), events).log, c) <= 1
  {
    ResumedAtMostOnceCount(Run(Initial<T>(), events).log, c);
  }

  /** An operation that throws resolves nothing: without timer or cancel, the log stays as it was. */
  lemma {:induction false} ThrowingOperationResolvesNothing<T, E>(s: TimeoutSlot<T>, events: seq<Event<T, E>>)
    requires Valid(s)
    requires forall i :: 0 <= i < |events| ==> events[i].ReadValue? || (events[i].OperationFinished? && events[i].result.Err?)
    ensures Run(s, events).log == s.log
    decreases |events|
  {
    if events != [] {
      ThrowingOperationResolvesNothing(Step(s, events[0]), events[1..]);
    }
  }

  /** When the operation throws, the reader of `value` gets the timer's `TimeoutError`, not the operation's error. */
  lemma ThrowingOperationEndsInTimeout<T, E>(err: E)
    ensures Run(Initial<T>(), [Event<T, E>.ReadValue, Event<T, E>.OperationFinished(Err(err)), Event<T, E>.TimerFired]).log
         == [Resolution(0, Throwing(TimeoutError))]
  {
    var events: seq<Event<T, E>> := [ReadValue, OperationFinished(Err(err)), TimerFired];
    var s1 := Step(Initial<T>(), events[0]);
    var s2 := Step(s1, events[1]);
    assert Run(Initial<T>(), events) == Run(s1, events[1..]);
    assert Run(s1, events[1..]) == Run(s2, events[2..]);
    assert Run(s2, events[2..]) == Run(Step(s2, events[2]), events[3..]);
  }

  /** Whichever of timer and operation comes first decides the result; the later one is a no-op. */
  lemma FirstResolverWins<T, E>(v: T)
    ensures Run(Initial<T>(), [Event<T, E>.ReadValue, Event<T, E>.TimerFired, Event<T, E>.OperationFinished(Ok(v))]).log
         == [Resolution(0, Throwing(TimeoutError))]
    ensures Run(Initial<T>(), [Event<T, E>.ReadValue, Event<T, E>.OperationFinished(Ok(v)), Event<T, E>.TimerFired]).log
         == [Resolution(0, Returning(v))]
  {
    var a: seq<Event<T, E>> := [ReadValue, TimerFired, OperationFinished(Ok(v))];
    var b: seq<Event<T, E>> := [ReadValue, OperationFinished(Ok(v)), TimerFired];
    var s1 := Step(Initial<T>(), a[0]);
    assert Run(Initial<T>(), a) == Run(s1, a[1..]);
    assert Run(s1, a[1..]) == Run(Step(s1, a[1]), a[2..]);
    assert Run(Initial<T>(), b) == Run(s1, b[1..]);
    assert Run(s1, b[1..]) == Run(Step(s1, b[1]), b[2..]);
  }

  /** The resumption an event applies to a stored continuation, if it resumes one at all. */
  function ResumptionOf<T, E>(e: Event<T, E>): Option<Resumption<T, TimeoutFailure>> {
    match e
    case TimerFired => Some(Throwing(TimeoutError))
    case Cancel => Some(Throwing(CancellationError))
    case OperationFinished(r) => if r.Ok? then Some(Returning(r.value)) else None
    case ReadValue => None
  }

  /** With no continuation stored and no further read of `value`, no event changes anything. */
  lemma {:induction false} ClearedSlotStaysCleared<T, E>(s: TimeoutSlot<T>, events: seq<Event<T, E>>)
    requires Valid(s) && s.pending.None?
    requires forall i :: 0 <= i < |events| ==> !events[i].ReadValue?
    ensures Run(s, events) == s
    decreases |events|
  {
    if events != [] {
      ClearedSlotStaysCleared(Step(s, events[0]), events[1..]);
    }
  }

  /**
    Whichever of the timer, a successful operation and `cancle()` comes first decides the
    stored continuation's result, whatever events other than a new read follow.
   */
  lemma FirstResolverDecides<T, E>(s: TimeoutSlot<T>, events: seq<Event<T, E>>)
    requires Valid(s) && s.pending.Some?
    requires events != [] && ResumptionOf(events[0]).Some?
    requires forall i :: 0 <= i < |events| ==> !events[i].ReadValue?
    ensures Run(s, events).log == s.log + [Resolution(s.pending.value, ResumptionOf(events[0]).value)]
  {
    var t := Step(s, events[0]);
    assert t == Resume(s, ResumptionOf(events[0]).value);
    ClearedSlotStaysCleared(t, events[1..]);
  }

  class TimeoutTask<T, E> {
    /** The stored continuation, if any. */
    var continuation: Option<nat>
    /** How many continuations `value` has stored so far. */
    var installed: nat
    /** Every resumption made, in order. */
    var resumed: seq<Resolution<T, TimeoutFailure>>

    function State(): TimeoutSlot<T>
      reads this
    {
      Slot(continuation, installed, resumed)
    }

    /** `init(seconds:operation:)`; the deadline and the operation are not kept by this model. */
    constructor ()
      ensures State() == Initial<T>()
    {
      continuation := None;
      installed := 0;
      resumed := [];
    }

    /** The `value` getter: stores a fresh continuation, whose number is returned. */
    method Value() returns (c: nat)
      requires Valid(State())
      modifies this
      ensures State() == Step(old(State()), Event<T, E>.ReadValue) && c == old(installed)
    {
      c := installed;
      continuation := Some(installed);
      installed := installed + 1;
    }

    /** The timer task after its sleep: resume with `TimeoutError`, then clear. */
    method TimerFired()
      requires Valid(State())
      modifies this
      ensures State() == Step(old(State()), Event<T, E>.TimerFired)
    {
      if continuation.Some? {
        resumed := resumed + [Resolution(continuation.value, Throwing(TimeoutError))];
      }
      continuation := None;
    }

    /** The operation task: on success resume with the result and clear; a throw ends the task first. */
    method OperationFinished(result: Result<T, E>)
      requires Valid(State())
      modifies this
      ensures State() == Step(old(State()), Event<T, E>.OperationFinished(result))
    {
      if result.Err? {
        return;
      }
      if continuation.Some? {
        resumed := resumed + [Resolution(continuation.value, Returning(result.value))];
      }
      continuation := None;
    }

    /** `cancle()` (so spelled in the source): resume with `CancellationError`, then clear. */
    method Cancle()
      requires Valid(State())
      modifies this
      ensures State() == Step(old(State()), Event<T, E>.Cancel)
    {
      if continuation.Some? {
        resumed := resumed + [Resolution(continuation.value, Throwing(CancellationError))];
      }
      continuation := None;
    }
  }
}
