/**
 * `useToast` (src/hooks/useToast.ts): the queue of visible toasts. A toast's
 * id is `Date.now().toString()`; since `toString` is injective on integers
 * the id is kept as the clock value itself.
 */
module ToastQueue {

  datatype ToastType = Success | Error | Warning | Info

  datatype Toast = Toast(id: int, kind: ToastType, message: string)

  /** `showToast`: append one toast stamped with the clock, leaving the others as they were. */
  function ShowToast(ts: seq<Toast>, kind: ToastType, message: string, now: int): (r: seq<Toast>)
    ensures |r| == |ts| + 1
    ensures r[..|ts|] == ts
    ensures r[|ts|] == Toast(now, kind, message)
  {
    ts + [Toast(now, kind, message)]
  }

  /** `dismissToast`: drop every toast carrying `id`, keeping the rest in order. */
  function DismissToast(ts: seq<Toast>, id: int): (r: seq<Toast>)
    ensures |r| <= |ts|
    ensures forall t :: t in r <==> t in ts && t.id != id
  {
    if ts == [] then []
    else (if ts[0].id == id then [] else [ts[0]]) + DismissToast(ts[1..], id)
  }

  /** Dismissal works piecewise, so the survivors keep their relative order. */
  lemma {:induction false} DismissDistributes(a: seq<Toast>, b: seq<Toast>, id: int)
    ensures DismissToast(a + b, id) == DismissToast(a, id) + DismissToast(b, id)
  {
    if a != [] {
      assert (a + b)[1..] == a[1..] + b;
      DismissDistributes(a[1..], b, id);
    } else {
      assert a + b == b;
    }
  }

  /** Dismissing an id no toast carries leaves the queue as it was. */
  lemma {:induction false} DismissAbsentIsIdentity(ts: seq<Toast>, id: int)
    requires forall k :: 0 <= k < |ts| ==> ts[k].id != id
    ensures DismissToast(ts, id) == ts
  {
    if ts != [] {
      DismissAbsentIsIdentity(ts[1..], id);
    }
  }

  /** Showing a toast and dismissing its id removes it again, together with any earlier toast of the same millisecond. */
  lemma ShowThenDismiss(ts: seq<Toast>, kind: ToastType, message: string, now: int)
    ensures DismissToast(ShowToast(ts, kind, message, now), now) == DismissToast(ts, now)
  {
    DismissDistributes(ts, [Toast(now, kind, message)], now);
  }

  function ShowSuccess(ts: seq<Toast>, message: string, now: int): (r: seq<Toast>)
    ensures |r| == |ts| + 1 && r[..|ts|] == ts && r[|ts|].kind == Success && r[|ts|].message == message
  {
    ShowToast(ts, Success, message, now)
  }

  function ShowError(ts: seq<Toast>, message: string, now: int): (r: seq<Toast>)
    ensures |r| == |ts| + 1 && r[..|ts|] == ts && r[|ts|].kind == Error && r[|ts|].message == message
  {
    ShowToast(ts, Error, message, now)
  }

  function ShowWarning(ts: seq<Toast>, message: string, now: int): (r: seq<Toast>)
    ensures |r| == |ts| + 1 && r[..|ts|] == ts && r[|ts|].kind == Warning && r[|ts|].message == message
  {
    ShowToast(ts, Warning, message, now)
  }

  function ShowInfo(ts: seq<Toast>, message: string, now: int): (r: seq<Toast>)
    ensures |r| == |ts| + 1 && r[..|ts|] == ts && r[|ts|].kind == Info && r[|ts|].message == message
  {
    ShowToast(ts, Info, message, now)
  }
}
