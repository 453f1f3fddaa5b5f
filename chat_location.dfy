/**
  `ChatLocationDelegate`: the location-manager delegate that bridges the manager's
  callbacks to the one continuation it is given when created. Each callback is an
  event taken one at a time.
 */
module ChatLocation {
  import opened Common
  import opened OneShot

  /** The authorization states of the location manager. */
  datatype AuthorizationStatus = NotDetermined | Restricted | Denied | AuthorizedAlways | AuthorizedWhenInUse

  /** What the continuation is resumed with when it fails: not authorized, or the manager's own error. */
  datatype LocationError<+E> = NotAuthorized | ManagerFailed(error: E)

  /** The text of the error thrown for a refused authorization. */
  function LocationErrorMessage<E>(e: LocationError<E>): (m: Option<string>)
    ensures m.Some? <==> e.NotAuthorized?
    ensures m.Some? ==> m.value == "The app isn't authorized to use location data"
  {
    if e.NotAuthorized? then Some("The app isn't authorized to use location data") else None
  }

  /** The three delegate callbacks. */
  datatype Callback<+L, +E> =
    | DidChangeAuthorization(status: AuthorizationStatus)
    | DidUpdateLocations(locations: seq<L>)
    | DidFailWithError(error: E)

  type LocationSlot<L, E> = Slot<L, LocationError<E>>

  /** The states in which the delegate asks the manager to start location updates. */
  predicate StartsUpdating(status: AuthorizationStatus) {
    status == AuthorizedAlways || status == AuthorizedWhenInUse
  }

  /** The effect of one callback on the slot. */
  function Step<L, E>(s: LocationSlot<L, E>, cb: Callback<L, E>): (t: LocationSlot<L, E>)
    requires Valid(s)
    ensures Valid(t) && t.installed == s.installed
    ensures cb.DidChangeAuthorization? ==>
      t == if cb.status == NotDetermined || StartsUpdating(cb.status) then s else Resume(s, Throwing(NotAuthorized))
    ensures cb.DidUpdateLocations? ==>
      t == if cb.locations == [] then s else Resume(s, Returning(cb.locations[0]))
    ensures cb.DidFailWithError? ==> t == Resume(s, Throwing(ManagerFailed(cb.error)))
  {
    match cb
    case DidChangeAuthorization(status) =>
      (match status
       case NotDetermined => s
       case AuthorizedAlways => s
       case AuthorizedWhenInUse => s
       case _ => Resume(s, Throwing(NotAuthorized)))
    case DidUpdateLocations(locations) =>
      if locations == [] then s else Resume(s, Returning(locations[0]))
    case DidFailWithError(error) => Resume(s, Throwing(ManagerFailed(error)))
  }

  /** The slot after a sequence of callbacks, taken in order. */
  function Run<L, E>(s: LocationSlot<L, E>, cbs: seq<Callback<L, E>>): (t: LocationSlot<L, E>)
    requires Valid(s)
    ensures Valid(t) && t.installed == s.installed
    ensures |s.log| <= |t.log| && t.log[..|s.log|] == s.log
    decreases |cbs|
  {
    if cbs == [] then s else Run(Step(s, cbs[0]), cbs[1..])
  }

  /** The slot right after `init(continuation:)`: the given continuation is stored. */
  function Initial<L, E>(): (s: LocationSlot<L, E>)
    ensures Valid(s) && s.pending == Some(0) && s.installed == 1 && s.log == []
  {
    Slot(Some(0), 1, [])
  }

  /** Whatever callbacks arrive, in whatever order, the continuation is resumed at most once. */
  lemma ResumedAtMostOnceOverall<L, E>(cbs: seq<Callback<L, E>>)
    ensures |Run(Initial<L, E>(), cbs).log| <= 1
  {
    var t := Run(Initial<L, E>(), cbs);
    OnlyOneResumed(t.log, 0);
    ResumedAtMostOnceCount(t.log, 0);
  }

  /** Callbacks that neither refuse authorization, deliver a location nor fail leave the continuation stored. */
  lemma {:induction false} QuietCallbacksKeepWaiting<L, E>(s: LocationSlot<L, E>, cbs: seq<Callback<L, E>>)
    requires Valid(s)
    requires forall i :: 0 <= i < |cbs| ==>
      (cbs[i].DidChangeAuthorization? && (cbs[i].status == NotDetermined || StartsUpdating(cbs[i].status)))
      || (cbs[i].DidUpdateLocations? && cbs[i].locations == [])
    ensures Run(s, cbs) == s
    decreases |cbs|
  {
    if cbs != [] {
      QuietCallbacksKeepWaiting(Step(s, cbs[0]), cbs[1..]);
    }
  }

  /** The first callback that resumes decides the outcome; later ones change nothing. */
  lemma {:induction false} FirstResumptionIsFinal<L, E>(s: LocationSlot<L, E>, cbs: seq<Callback<L, E>>)
    requires Valid(s) && s.pending.None?
    ensures Run(s, cbs) == s
    decreases |cbs|
  {
    if cbs != [] {
      FirstResumptionIsFinal(Step(s, cbs[0]), cbs[1..]);
    }
  }

  class ChatLocationDelegate<L, E> {
    /** The stored continuation, if it has not been resumed yet. */
    var continuation: Option<nat>
    var installed: nat
    /** Every resumption made, in order. */
    var resumed: seq<Resolution<L, LocationError<E>>>

    function State(): LocationSlot<L, E>
      reads this
    {
      Slot(continuation, installed, resumed)
    }

    /** `init(continuation:)`: stores the continuation it is given (number 0). */
    constructor ()
      ensures State() == Initial<L, E>()
    {
      continuation := Some(0);
      installed := 1;
      resumed := [];
    }

    /** `locationManagerDidChangeAuthorization`; returns whether location updates are started. */
    method DidChangeAuthorization(status: AuthorizationStatus) returns (startsUpdating: bool)
      requires Valid(State())
      modifies this
      ensures State() == Step(old(State()), Callback<L, E>.DidChangeAuthorization(status))
      ensures startsUpdating == StartsUpdating(status)
    {
      startsUpdating := false;
      match status {
        case NotDetermined =>
        case AuthorizedAlways =>
          startsUpdating := true;
        case AuthorizedWhenInUse =>
          startsUpdating := true;
        case _ =>
          if continuation.Some? {
            resumed := resumed + [Resolution(continuation.value, Throwing(NotAuthorized))];
          }
          continuation := None;
      }
    }

    /** `locationManager(_:didUpdateLocations:)`: resumes with the first location, if any. */
    method DidUpdateLocations(locations: seq<L>)
      requires Valid(State())
      modifies this
      ensures State() == Step(old(State()), Callback<L, E>.DidUpdateLocations(locations))
    {
      if locations == [] {
        return;
      }
      var location := locations[0];
      if continuation.Some? {
        resumed := resumed + [Resolution(continuation.value, Returning(location))];
      }
      continuation := None;
    }

    /** `locationManager(_:didFailWithError:)`: resumes with the manager's error. */
    method DidFailWithError(error: E)
      requires Valid(State())
      modifies this
      ensures State() == Step(old(State()), Callback<L, E>.DidFailWithError(error))
    {
      if continuation.Some? {
        resumed := resumed + [Resolution(continuation.value, Throwing(ManagerFailed(error)))];
      }
      continuation := None;
    }
  }
}
