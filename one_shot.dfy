/**
  The one-shot continuation slot that both the test timeout wrapper and the location
  delegate keep in an optional `continuation` field: an event resumes the stored
  continuation only if one is stored, and then clears the field.
 */
module OneShot {
  import opened Common

  /** How a continuation is resumed: with a value or with an error. */
  datatype Resumption<+T, +E> = Returning(value: T) | Throwing(error: E)

  /** One resumption, naming the continuation it resumed. */
  datatype Resolution<+T, +E> = Resolution(continuation: nat, resumption: Resumption<T, E>)

  /**
    The slot: `pending` is the stored continuation that has not been resumed
    (continuations are numbered in the order they are stored), `installed` counts the
    continuations stored so far, and `log` lists every resumption in order.
   */
  datatype Slot<+T, +E> = Slot(pending: Option<nat>, installed: nat, log: seq<Resolution<T, E>>)

  predicate ResumedAtMostOnce<T, E>(log: seq<Resolution<T, E>>) {
    forall i, j :: 0 <= i < j < |log| ==> log[i].continuation != log[j].continuation
  }

  /** The slot invariant: no continuation resumed twice, and the stored one not resumed yet. */
  predicate Valid<T, E>(s: Slot<T, E>) {
    && ResumedAtMostOnce(s.log)
    && (forall i :: 0 <= i < |s.log| ==> s.log[i].continuation < s.installed)
    && (s.pending.Some? ==>
          s.pending.value < s.installed && forall i :: 0 <= i < |s.log| ==> s.log[i].continuation != s.pending.value)
  }

  /** Stores a new continuation; one still stored is overwritten without being resumed. */
  function Install<T, E>(s: Slot<T, E>): (t: Slot<T, E>)
    requires Valid(s)
    ensures Valid(t)
    ensures t.pending == Some(s.installed) && t.installed == s.installed + 1 && t.log == s.log
  {
    Slot(Some(s.installed), s.installed + 1, s.log)
  }

  /** `continuation?.resume(...)` followed by `continuation = nil`. */
  function Resume<T, E>(s: Slot<T, E>, r: Resumption<T, E>): (t: Slot<T, E>)
    requires Valid(s)
    ensures Valid(t)
    ensures t.pending == None && t.installed == s.installed
    ensures s.pending.None? ==> t == s
    ensures s.pending.Some? ==> t.log == s.log + [Resolution(s.pending.value, r)]
  {
    match s.pending
    case None => s
    case Some(c) => Slot(None, s.installed, s.log + [Resolution(c, r)])
  }

  /** How many times continuation `c` appears in the log. */
  function TimesResumed<T, E>(log: seq<Resolution<T, E>>, c: nat): nat {
    if log == [] then 0
    else TimesResumed(log[..|log| - 1], c) + (if log[|log| - 1].continuation == c then 1 else 0)
  }

  lemma {:induction false} NeverResumed<T, E>(log: seq<Resolution<T, E>>, c: nat)
    requires forall i :: 0 <= i < |log| ==> log[i].continuation != c
    ensures TimesResumed(log, c) == 0
  {
    if log != [] {
      NeverResumed(log[..|log| - 1], c);
    }
  }

  /** In a log with distinct continuations, each continuation is resumed at most once. */
  lemma {:induction false} ResumedAtMostOnceCount<T, E>(log: seq<Resolution<T, E>>, c: nat)
    requires ResumedAtMostOnce(log)
    ensures TimesResumed(log, c) <= 1
  {
    if log != [] {
      var init := log[..|log| - 1];
      if log[|log| - 1].continuation == c {
        NeverResumed(init, c);
      } else {
        ResumedAtMostOnceCount(init, c);
      }
    }
  }

  /** A log that names only continuation `c` counts one resumption of `c` per entry. */
  lemma {:induction false} OnlyOneResumed<T, E>(log: seq<Resolution<T, E>>, c: nat)
    requires forall i :: 0 <= i < |log| ==> log[i].continuation == c
    ensures TimesResumed(log, c) == |log|
  {
    if log != [] {
      OnlyOneResumed(log[..|log| - 1], c);
    }
  }
}
