/** The toast queue of `useToast` (src/components/ui/toast.tsx): notifications are
    appended with a generated id and removed by id. */
module Toasts {
  import opened Wrappers
  import opened Seqs

  datatype ToastKind = Success | Error | Info | Warning

  datatype Toast = Toast(id: string, kind: ToastKind, message: string, duration: Option<int>)

  const DefaultDuration: int := 5000

  /** How long a toast stays up: its own duration, or 5000 ms when it has none. */
  function DisplayDuration(t: Toast): (ms: int)
    ensures t.duration.None? ==> ms == DefaultDuration
    ensures t.duration.Some? ==> ms == t.duration.value
  {
    t.duration.GetOr(DefaultDuration)
  }

  /** `prev.filter(toast => toast.id !== id)`. */
  function Without(toasts: seq<Toast>, id: string): (r: seq<Toast>)
  {
    Filter(toasts, (t: Toast) => t.id != id)
  }

  /** Removing an id drops every toast carrying it and keeps every other toast, in
      the order they had. */
  lemma WithoutSpec(toasts: seq<Toast>, id: string)
    ensures forall t :: t in Without(toasts, id) <==> t in toasts && t.id != id
    ensures IsSubsequence(Without(toasts, id), toasts)
    ensures forall t :: multiset(Without(toasts, id))[t] == if t.id != id then multiset(toasts)[t] else 0
  {
    FilterIsSubsequence(toasts, (t: Toast) => t.id != id);
    FilterMultiplicity(toasts, (t: Toast) => t.id != id);
  }

  /** Removing an id no toast carries changes nothing. */
  lemma WithoutAbsent(toasts: seq<Toast>, id: string)
    requires forall i :: 0 <= i < |toasts| ==> toasts[i].id != id
    ensures Without(toasts, id) == toasts
  {
    FilterAll(toasts, (t: Toast) => t.id != id);
  }

  /** Removing the same id twice is removing it once. */
  lemma WithoutIdempotent(toasts: seq<Toast>, id: string)
    ensures Without(Without(toasts, id), id) == Without(toasts, id)
  {
    WithoutAbsent(Without(toasts, id), id);
  }

  /** Adding a toast under an id no other toast uses and then removing that id gives
      back the queue as it was. */
  lemma AddThenRemove(toasts: seq<Toast>, t: Toast)
    requires forall i :: 0 <= i < |toasts| ==> toasts[i].id != t.id
    ensures Without(toasts + [t], t.id) == toasts
  {
    FilterAppend(toasts, [t], (u: Toast) => u.id != t.id);
    WithoutAbsent(toasts, t.id);
  }

  /** The `toasts` state of the hook. */
  class ToastQueue {
    var toasts: seq<Toast>

    constructor ()
      ensures toasts == []
    {
      toasts := [];
    }

    /** `addToast`: appends one toast under the given id and returns that id. The id is
        `Math.random().toString(36).substring(2, 9)` in the component; here it is an
        argument. */
    method AddToast(kind: ToastKind, message: string, duration: Option<int>, newId: string) returns (id: string)
      modifies this
      ensures id == newId
      ensures toasts == old(toasts) + [Toast(newId, kind, message, duration)]
    {
      toasts := toasts + [Toast(newId, kind, message, duration)];
      id := newId;
    }

    /** `removeToast`: keeps the toasts whose id differs. */
    method RemoveToast(id: string)
      modifies this
      ensures toasts == Without(old(toasts), id)
      ensures forall i :: 0 <= i < |toasts| ==> toasts[i].id != id
    {
      toasts := Without(toasts, id);
    }

    /** `success`: `addToast` with the success kind. */
    method ShowSuccess(message: string, duration: Option<int>, newId: string) returns (id: string)
      modifies this
      ensures id == newId && toasts == old(toasts) + [Toast(newId, Success, message, duration)]
    {
      id := AddToast(Success, message, duration, newId);
    }

    /** `error`: `addToast` with the error kind. */
    method ShowError(message: string, duration: Option<int>, newId: string) returns (id: string)
      modifies this
      ensures id == newId && toasts == old(toasts) + [Toast(newId, Error, message, duration)]
    {
      id := AddToast(Error, message, duration, newId);
    }

    /** `info`: `addToast` with the info kind. */
    method ShowInfo(message: string, duration: Option<int>, newId: string) returns (id: string)
      modifies this
      ensures id == newId && toasts == old(toasts) + [Toast(newId, Info, message, duration)]
    {
      id := AddToast(Info, message, duration, newId);
    }

    /** `warning`: `addToast` with the warning kind. */
    method ShowWarning(message: string, duration: Option<int>, newId: string) returns (id: string)
      modifies this
      ensures id == newId && toasts == old(toasts) + [Toast(newId, Warning, message, duration)]
    {
      id := AddToast(Warning, message, duration, newId);
    }
  }
}
