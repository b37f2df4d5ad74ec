/** The toast queue (web/src/components/Toast.tsx): notifications shown
    in the order they were raised, each removed when clicked or when its
    timer runs out. */
module Toast {
  import opened Types

  datatype ToastType = Success | Error | Warning | Info

  /** One notification. `duration` is in milliseconds; 0 keeps it until it
      is hidden. */
  datatype Toast = Toast(id: string, message: string, kind: ToastType, duration: int)

  const DefaultType: ToastType := Info
  const DefaultDuration: int := 3000

  /** `prev.filter(t => t.id !== id)`. */
  function Without(ts: seq<Toast>, id: string): (r: seq<Toast>)
    ensures |r| <= |ts|
    ensures forall t :: t in r <==> t in ts && t.id != id
  {
    if ts == [] then []
    else if ts[0].id != id then [ts[0]] + Without(ts[1..], id)
    else Without(ts[1..], id)
  }

  /** Removal works toast by toast, keeping the relative order of the
      rest: removing from a concatenation removes from each part. */
  lemma {:induction false} WithoutAppend(a: seq<Toast>, b: seq<Toast>, id: string)
    ensures Without(a + b, id) == Without(a, id) + Without(b, id)
  {
    if a == [] {
      assert a + b == b;
    } else {
      assert (a + b)[1..] == a[1..] + b;
      WithoutAppend(a[1..], b, id);
    }
  }

  /** Removing an id no toast has changes nothing. */
  lemma {:induction false} WithoutAbsent(ts: seq<Toast>, id: string)
    requires forall i :: 0 <= i < |ts| ==> ts[i].id != id
    ensures Without(ts, id) == ts
  {
    if ts != [] {
      assert forall i :: 0 <= i < |ts[1..]| ==> ts[1..][i] == ts[i + 1];
      WithoutAbsent(ts[1..], id);
      assert ts == [ts[0]] + ts[1..];
    }
  }

  /** Removing twice is removing once. */
  lemma {:induction false} WithoutIdempotent(ts: seq<Toast>, id: string)
    ensures Without(Without(ts, id), id) == Without(ts, id)
  {
    var r := Without(ts, id);
    assert forall i :: 0 <= i < |r| ==> r[i] in r;
    WithoutAbsent(r, id);
  }

  /** Showing a toast with a fresh id and then hiding it leaves the queue
      as it was. */
  lemma ShowThenHide(ts: seq<Toast>, t: Toast)
    requires forall i :: 0 <= i < |ts| ==> ts[i].id != t.id
    ensures Without(ts + [t], t.id) == ts
  {
    WithoutAppend(ts, [t], t.id);
    WithoutAbsent(ts, t.id);
    assert Without([t], t.id) == [];
  }

  /** A scheduled removal: after `delay` milliseconds, toasts with `id`
      are removed. */
  datatype Timer = Timer(id: string, delay: int)

  /** The toast container. `toasts` are displayed in this order; `timers`
      are the removals scheduled and not yet run. */
  class ToastProvider {
    var toasts: seq<Toast>
    var timers: seq<Timer>

    constructor ()
      ensures toasts == [] && timers == []
    {
      toasts := [];
      timers := [];
    }

    /** `showToast`: one toast is appended with the given or default type
        and duration; a positive duration schedules the removal of that id
        only. `id` is the generated id. */
    method ShowToast(message: string, kind: Option<ToastType>, duration: Option<int>, id: string)
      modifies this
      ensures var d := if duration.Some? then duration.value else DefaultDuration;
        && toasts == old(toasts) + [Toast(id, message, if kind.Some? then kind.value else DefaultType, d)]
        && timers == old(timers) + (if d > 0 then [Timer(id, d)] else [])
    {
      var k := if kind.Some? then kind.value else DefaultType;
      var d := if duration.Some? then duration.value else DefaultDuration;
      toasts := toasts + [Toast(id, message, k, d)];
      if d > 0 {
        timers := timers + [Timer(id, d)];
      }
    }

    /** `hideToast`: every toast with `id` goes, the rest stay in order. */
    method HideToast(id: string)
      modifies this
      ensures toasts == Without(old(toasts), id)
      ensures timers == old(timers)
    {
      toasts := Without(toasts, id);
    }

    /** The scheduled removal at index `k` runs: toasts with its id go. */
    method TimerFires(k: nat)
      requires k < |timers|
      modifies this
      ensures toasts == Without(old(toasts), old(timers)[k].id)
      ensures timers == old(timers)[..k] + old(timers)[k + 1..]
    {
      toasts := Without(toasts, timers[k].id);
      timers := timers[..k] + timers[k + 1..];
    }
  }
}
