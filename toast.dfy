/** The toast bus: a module-level id counter and listener list shared by
    `showToast` and every mounted `useToast`. A listener is identified by the
    number of the `useToast` instance that registered it, and `lists` holds
    each instance's toast list. */
module Toasts {
  import opened Wrappers
  import opened Text

  datatype ToastType = Success | Error | Info

  datatype Toast = Toast(id: string, message: string, kind: ToastType)

  /** `toast-${n}` */
  function ToastId(n: nat): (id: string)
    ensures |id| > 6 && id[..6] == "toast-"
  {
    "toast-" + NatToString(n)
  }

  /** Different counter values give different ids, so an id is never reused. */
  lemma ToastIdInjective(m: nat, n: nat)
    requires ToastId(m) == ToastId(n)
    ensures m == n
  {
    assert NatToString(m) == ToastId(m)[6..];
    assert NatToString(n) == ToastId(n)[6..];
    NatToStringInjective(m, n);
  }

  predicate Distinct(s: seq<nat>) {
    forall i, j :: 0 <= i < j < |s| ==> s[i] != s[j]
  }

  /** The lists after calling, in order, the listeners `ls` with `t`. */
  function Deliver(lists: map<nat, seq<Toast>>, ls: seq<nat>, t: Toast): (r: map<nat, seq<Toast>>)
    requires forall s :: s in ls ==> s in lists
    ensures r.Keys == lists.Keys
  {
    if ls == [] then lists
    else
      var prev := Deliver(lists, ls[..|ls| - 1], t);
      var s := ls[|ls| - 1];
      prev[s := prev[s] + [t]]
  }

  /** Every registered listener gets the toast exactly once, at the end of its list;
      every other list is untouched. */
  lemma {:induction false} DeliverExactlyOnce(lists: map<nat, seq<Toast>>, ls: seq<nat>, t: Toast)
    requires forall s :: s in ls ==> s in lists
    requires Distinct(ls)
    ensures forall s :: s in lists ==>
      Deliver(lists, ls, t)[s] == lists[s] + (if s in ls then [t] else [])
    decreases |ls|
  {
    if ls != [] {
      var init := ls[..|ls| - 1];
      var last := ls[|ls| - 1];
      DeliverExactlyOnce(lists, init, t);
      assert last !in init;
      forall s | s in lists
        ensures Deliver(lists, ls, t)[s] == lists[s] + (if s in ls then [t] else [])
      {
        assert s in ls <==> s in init || s == last;
      }
    }
  }

  /** `prev.filter(t => t.id !== id)` */
  function WithoutId(ts: seq<Toast>, id: string): (r: seq<Toast>)
    ensures |r| <= |ts|
    ensures forall t :: t in r <==> t in ts && t.id != id
  {
    if ts == [] then []
    else if ts[0].id == id then WithoutId(ts[1..], id)
    else [ts[0]] + WithoutId(ts[1..], id)
  }

  /** Removal keeps the remaining toasts in their order: it distributes over concatenation. */
  lemma {:induction false} WithoutIdKeepsOrder(a: seq<Toast>, b: seq<Toast>, id: string)
    ensures WithoutId(a + b, id) == WithoutId(a, id) + WithoutId(b, id)
    decreases |a|
  {
    if a == [] {
      assert a + b == b;
    } else {
      assert (a + b)[1..] == a[1..] + b;
      WithoutIdKeepsOrder(a[1..], b, id);
    }
  }

  /** `toastListeners.indexOf(x)`: the first position of x, or -1. */
  method IndexOf(s: seq<nat>, x: nat) returns (i: int)
    ensures -1 <= i < |s|
    ensures i == -1 <==> x !in s
    ensures 0 <= i ==> s[i] == x && x !in s[..i]
  {
    var k := 0;
    while k < |s|
      invariant 0 <= k <= |s|
      invariant x !in s[..k]
    {
      if s[k] == x {
        return k;
      }
      assert s[..k + 1] == s[..k] + [s[k]];
      k := k + 1;
    }
    assert s[..k] == s;
    return -1;
  }

  class ToastBus {
    var counter: nat                       // toastIdCounter
    var listeners: seq<nat>                // toastListeners, in registration order
    var lists: map<nat, seq<Toast>>        // each useToast instance's `toasts`
    var nextInstance: nat                  // the number the next useToast instance gets

    ghost predicate Valid()
      reads this
    {
      && Distinct(listeners)
      && (forall s :: s in listeners ==> s in lists)
      && (forall s :: s in lists ==> s < nextInstance)
    }

    constructor ()
      ensures Valid() && counter == 0 && listeners == [] && lists == map[]
    {
      counter := 0;
      listeners := [];
      lists := map[];
      nextInstance := 0;
    }

    /** `showToast(message, type = "info")` */
    method Show(message: string, kind: Option<ToastType>) returns (t: Toast)
      requires Valid()
      modifies this
      ensures Valid()
      ensures t == Toast(ToastId(old(counter)), message, kind.GetOr(Info))
      ensures counter == old(counter) + 1
      ensures listeners == old(listeners) && nextInstance == old(nextInstance)
      ensures lists == Deliver(old(lists), listeners, t)
    {
      t := Toast(ToastId(counter), message, kind.GetOr(Info));
      counter := counter + 1;
      var k := 0;
      while k < |listeners|
        invariant 0 <= k <= |listeners|
        invariant listeners == old(listeners) && nextInstance == old(nextInstance) && counter == old(counter) + 1
        invariant lists == Deliver(old(lists), listeners[..k], t) && lists.Keys == old(lists).Keys
      {
        var s := listeners[k];
        assert listeners[..k + 1][..k] == listeners[..k];
        lists := lists[s := lists[s] + [t]];
        k := k + 1;
      }
      assert listeners[..k] == listeners;
    }

    /** A `useToast` instance mounts: its list starts empty and its listener is pushed. */
    method Subscribe() returns (id: nat)
      requires Valid()
      modifies this
      ensures Valid()
      ensures id == old(nextInstance) && id !in old(lists)
      ensures listeners == old(listeners) + [id]
      ensures lists == old(lists)[id := []]
      ensures counter == old(counter)
    {
      id := nextInstance;
      assert id !in listeners;
      nextInstance := nextInstance + 1;
      listeners := listeners + [id];
      lists := lists[id := []];
    }

    /** The instance's cleanup: splice its listener out if it is still registered. */
    method Unsubscribe(id: nat)
      requires Valid()
      modifies this
      ensures Valid()
      ensures id !in listeners
      ensures id in old(listeners) ==>
        exists i :: 0 <= i < |old(listeners)| && old(listeners)[i] == id
                    && listeners == old(listeners)[..i] + old(listeners)[i + 1..]
      ensures id !in old(listeners) ==> listeners == old(listeners)
      ensures lists == old(lists) && counter == old(counter)
    {
      var i := IndexOf(listeners, id);
      if i > -1 {
        ghost var before := listeners;
        listeners := listeners[..i] + listeners[i + 1..];
        assert id !in listeners by {
          forall j | 0 <= j < |listeners| ensures listeners[j] != id {
            if j < i { assert listeners[j] == before[j]; }
            else { assert listeners[j] == before[j + 1]; }
          }
        }
        assert forall x :: x in listeners ==> x in before;
      }
    }

    /** `removeToast(id)` of one instance. */
    method RemoveToast(instance: nat, id: string)
      requires Valid() && instance in lists
      modifies this
      ensures Valid()
      ensures lists == old(lists)[instance := WithoutId(old(lists)[instance], id)]
      ensures listeners == old(listeners) && counter == old(counter)
    {
      lists := lists[instance := WithoutId(lists[instance], id)];
    }
  }
}
