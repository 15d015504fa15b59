/** The toast queue of `src/contexts/ToastProvider.tsx`: a list of toasts that `addToast`
    appends to and `removeToast` filters, and the removal timer each finite toast schedules. */
module Toasts {
  import opened Wrappers
  import Seqs

  datatype ToastType = Success | Error

  /** A display time in milliseconds, or `Number.POSITIVE_INFINITY`. */
  datatype Duration = Millis(ms: int) | Infinite

  /** The value of `duration` when the caller passes none. */
  const DefaultDuration := Millis(3000)

  datatype Toast = Toast(id: string, message: string, kind: ToastType, duration: Duration)

  /** A pending `setTimeout(() => removeToast(id), delay)`. */
  datatype Timer = Timer(id: string, delay: int)

  /** The duration a toast gets: the given one, or 3000 ms. */
  function DurationOrDefault(d: Option<Duration>): (r: Duration)
    ensures d.None? ==> r == Millis(3000)
    ensures d.Some? ==> r == d.value
  {
    if d.Some? then d.value else DefaultDuration
  }

  /** The updater of `addToast`: one toast appended after the unchanged earlier ones. */
  function Added(prev: seq<Toast>, id: string, message: string, kind: ToastType, d: Option<Duration>): (r: seq<Toast>)
    ensures |r| == |prev| + 1 && r[..|prev|] == prev
    ensures r[|prev|] == Toast(id, message, kind, DurationOrDefault(d))
  {
    prev + [Toast(id, message, kind, DurationOrDefault(d))]
  }

  function IdIsNot(id: string): Toast -> bool {
    (t: Toast) => t.id != id
  }

  /** The updater of `removeToast`: every toast with that id dropped, the others kept in order. */
  function Removed(prev: seq<Toast>, id: string): (r: seq<Toast>)
    ensures forall i :: 0 <= i < |r| ==> r[i].id != id && r[i] in prev
    ensures forall i :: 0 <= i < |prev| && prev[i].id != id ==> prev[i] in r
    ensures Seqs.IsSubsequence(r, prev)
    ensures forall t :: multiset(r)[t] == if t.id != id then multiset(prev)[t] else 0
  {
    Seqs.FilterIsSubsequence(prev, IdIsNot(id));
    assert forall t :: multiset(Seqs.Filter(prev, IdIsNot(id)))[t] == if t.id != id then multiset(prev)[t] else 0 by {
      forall t ensures multiset(Seqs.Filter(prev, IdIsNot(id)))[t] == if t.id != id then multiset(prev)[t] else 0 {
        Seqs.FilterCount(prev, IdIsNot(id), t);
      }
    }
    Seqs.Filter(prev, IdIsNot(id))
  }

  /** Removing an id that no toast has changes nothing. */
  lemma RemoveAbsent(prev: seq<Toast>, id: string)
    requires forall i :: 0 <= i < |prev| ==> prev[i].id != id
    ensures Removed(prev, id) == prev
  {
    Seqs.FilterKeepsAll(prev, IdIsNot(id));
  }

  /** Removing twice is removing once. */
  lemma RemoveTwice(prev: seq<Toast>, id: string)
    ensures Removed(Removed(prev, id), id) == Removed(prev, id)
  {
    Seqs.FilterIdempotent(prev, IdIsNot(id));
  }

  /** Adding a toast under a fresh id and then removing that id restores the list. */
  lemma AddThenRemove(prev: seq<Toast>, id: string, message: string, kind: ToastType, d: Option<Duration>)
    requires forall i :: 0 <= i < |prev| ==> prev[i].id != id
    ensures Removed(Added(prev, id, message, kind, d), id) == prev
  {
    var t := Toast(id, message, kind, DurationOrDefault(d));
    Seqs.FilterAppend(prev, [t], IdIsNot(id));
    Seqs.FilterKeepsAll(prev, IdIsNot(id));
    assert Seqs.Filter([t], IdIsNot(id)) == [];
  }

  /** The removal `addToast` schedules: none for an infinite duration. */
  function ScheduledRemoval(id: string, d: Duration): (r: Option<Timer>)
    ensures r.None? <==> d.Infinite?
    ensures r.Some? ==> r.value.id == id && r.value.delay == d.ms
  {
    if d.Infinite? then None else Some(Timer(id, d.ms))
  }

  /** Timers as a sequence; a removal that is scheduled adds one. */
  function Scheduled(timers: seq<Timer>, t: Option<Timer>): seq<Timer> {
    if t.Some? then timers + [t.value] else timers
  }

  /** The timers after one `addToast` with the default duration: a 3000 ms removal of that id. */
  function ScheduledDefault(timers: seq<Timer>, id: string): (r: seq<Timer>)
    ensures r == timers + [Timer(id, 3000)]
  {
    Scheduled(timers, ScheduledRemoval(id, DefaultDuration))
  }

  class Toaster {
    var toasts: seq<Toast>
    /** removals scheduled and not yet run, in the order they were scheduled */
    var timers: seq<Timer>

    constructor ()
      ensures toasts == [] && timers == []
    {
      toasts := [];
      timers := [];
    }

    /** `addToast(message, type, duration)` with `id` standing for the fresh `uuidv4()`. */
    method AddToast(id: string, message: string, kind: ToastType, d: Option<Duration>)
      modifies this
      ensures toasts == Added(old(toasts), id, message, kind, d)
      ensures timers == Scheduled(old(timers), ScheduledRemoval(id, DurationOrDefault(d)))
    {
      var duration := DurationOrDefault(d);
      toasts := Added(toasts, id, message, kind, d);
      if duration != Infinite {
        timers := timers + [Timer(id, duration.ms)];
      }
    }

    /** `removeToast(id)` */
    method RemoveToast(id: string)
      modifies this`toasts
      ensures toasts == Removed(old(toasts), id)
    {
      toasts := Removed(toasts, id);
    }

    /** The timer at position `k` runs: it is discarded and removes its toast. */
    method RunTimer(k: nat)
      requires k < |timers|
      modifies this
      ensures timers == old(timers[..k] + timers[k + 1..])
      ensures toasts == Removed(old(toasts), old(timers[k].id))
    {
      var t := timers[k];
      timers := timers[..k] + timers[k + 1..];
      RemoveToast(t.id);
    }
  }

  /** `useToast()`: the provider's value, or the error thrown outside a provider. */
  function UseToast(context: Option<Toaster>): (r: Result<Toaster>)
    ensures r.Err? <==> context.None?
    ensures r.Ok? ==> r.value == context.value
    ensures r.Err? ==> r.error == "useToast must be used within a ToastProvider"
  {
    match context
    case None => Err("useToast must be used within a ToastProvider")
    case Some(c) => Ok(c)
  }
}
