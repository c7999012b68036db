/** The part of the SystemC scheduler that one event and the one process sensitive to it can
    see: IEEE Std 1666-2011, section 4.2 (scheduler) and section 5.10 (sc_event).
    Time and delta counts are unbounded naturals. */
module Kernel {

  /** The at most one pending notification of an event. */
  datatype Notice = NoNotice | DeltaNotice | TimedNotice(at: nat)

  /** `ready` says that the sensitive process is in the set of runnable processes,
      `running` that it is the process now executing. */
  datatype Kernel = Kernel(now: nat, delta: nat, notice: Notice, ready: bool, running: bool)

  /** notify(): cancels whatever is pending and makes the process runnable at once,
      except that a process never triggers itself this way. */
  function NotifyImmediate(k: Kernel): Kernel {
    k.(notice := NoNotice, ready := k.ready || !k.running)
  }

  /** notify(w): a delta notification when w is zero; an earlier notification overrides a
      later one and a later one is dropped. */
  function NotifyAfter(k: Kernel, w: nat): Kernel {
    if w == 0 then k.(notice := DeltaNotice)
    else match k.notice
      case NoNotice => k.(notice := TimedNotice(k.now + w))
      case DeltaNotice => k
      case TimedNotice(at) => if k.now + w < at then k.(notice := TimedNotice(k.now + w)) else k
  }

  /** When a notification takes effect: in the next delta cycle, at a time, or never. */
  ghost predicate NoLater(a: Notice, b: Notice) {
    match b
    case NoNotice => true
    case DeltaNotice => a.DeltaNotice?
    case TimedNotice(t) => a.DeltaNotice? || (a.TimedNotice? && a.at <= t)
  }

  /** Of the notification pending and the one asked for, the earlier one is pending then. */
  lemma EarlierWins(k: Kernel, w: nat)
    ensures var asked := if w == 0 then DeltaNotice else TimedNotice(k.now + w);
      var n := NotifyAfter(k, w).notice;
      (n == k.notice || n == asked) && NoLater(n, k.notice) && NoLater(n, asked)
  {
  }

  function CancelNotice(k: Kernel): Kernel {
    k.(notice := NoNotice)
  }

  function Dispatched(k: Kernel): Kernel {
    k.(ready := false, running := true)
  }

  function Returned(k: Kernel): Kernel {
    k.(running := false)
  }

  /** The evaluation phase ends only when no process is runnable, so both ways to go on need
      that; every evaluation phase has its own delta count. */
  predicate CanStartDelta(k: Kernel) {
    !k.ready && !k.running
  }

  function DeltaStarted(k: Kernel): Kernel {
    k.(delta := k.delta + 1, ready := k.notice.DeltaNotice?,
       notice := if k.notice.DeltaNotice? then NoNotice else k.notice)
  }

  /** Time advances only when no delta notification is left, to the earliest timed
      notification of the whole design: never beyond the one pending here. */
  predicate CanAdvance(k: Kernel, t: nat) {
    && !k.ready && !k.running
    && !k.notice.DeltaNotice?
    && k.now < t
    && (k.notice.TimedNotice? ==> t <= k.notice.at)
  }

  function Advanced(k: Kernel, t: nat): Kernel {
    var fires := k.notice == TimedNotice(t);
    k.(now := t, delta := k.delta + 1, ready := fires, notice := if fires then NoNotice else k.notice)
  }

  /** The scheduler as the object that code under simulation talks to. */
  class Simulator {
    var k: Kernel

    constructor ()
      ensures k == Kernel(0, 0, NoNotice, false, false)
    {
      k := Kernel(0, 0, NoNotice, false, false);
    }

    method Dispatch()
      modifies this
      ensures k == Dispatched(old(k))
    {
      k := k.(ready := false, running := true);
    }

    method Return()
      modifies this
      ensures k == Returned(old(k))
    {
      k := k.(running := false);
    }

    method StartDelta()
      requires CanStartDelta(k)
      modifies this
      ensures k == DeltaStarted(old(k))
    {
      k := k.(delta := k.delta + 1);
      if k.notice.DeltaNotice? {
        k := k.(ready := true, notice := NoNotice);
      }
    }

    method Advance(t: nat)
      requires CanAdvance(k, t)
      modifies this
      ensures k == Advanced(old(k), t)
    {
      k := k.(now := t, delta := k.delta + 1);
      if k.notice == TimedNotice(t) {
        k := k.(ready := true, notice := NoNotice);
      }
    }

    method Notify()
      modifies this
      ensures k == NotifyImmediate(old(k))
    {
      k := k.(notice := NoNotice, ready := k.ready || !k.running);
    }

    method NotifyIn(w: nat)
      modifies this
      ensures k == NotifyAfter(old(k), w)
    {
      if w == 0 {
        k := k.(notice := DeltaNotice);
      } else if k.notice.NoNotice? || (k.notice.TimedNotice? && k.now + w < k.notice.at) {
        k := k.(notice := TimedNotice(k.now + w));
      }
    }

    method Cancel()
      modifies this
      ensures k == CancelNotice(old(k))
    {
      k := k.(notice := NoNotice);
    }
  }
}
