/** The key-rebinding handler inside `setupControlsPanel` of js/ui.js: while
    an action listens for a key, a key press either cancels (Escape and the
    F-keys), is refused because another action already holds it, or becomes
    the action's new binding. The bindings are the saved keybind object, in
    property order. */
module Keybinds {
  import opened Wrappers

  /** One property of the keybind object: an action and its key code. */
  datatype Binding = Binding(action: string, code: string)

  type Bindings = seq<Binding>

  /** An object never holds a property twice. */
  predicate DistinctActions(bs: Bindings)
  {
    forall i, j :: 0 <= i < j < |bs| ==> bs[i].action != bs[j].action
  }

  /** No key is bound to two actions. */
  predicate OneToOne(bs: Bindings)
  {
    forall i, j :: 0 <= i < j < |bs| ==> bs[i].code != bs[j].code
  }

  /** Where action a sits in the object, if it is there. */
  function IndexOf(bs: Bindings, a: string): (i: Option<nat>)
    ensures i.Some? ==> i.value < |bs| && bs[i.value].action == a
    ensures i.None? ==> forall j :: 0 <= j < |bs| ==> bs[j].action != a
  {
    if |bs| == 0 then None
    else if bs[|bs| - 1].action == a then Some(|bs| - 1)
    else IndexOf(bs[..|bs| - 1], a)
  }

  /** `keybinds[a]`. */
  function Lookup(bs: Bindings, a: string): Option<string>
  {
    match IndexOf(bs, a)
    case Some(i) => Some(bs[i].code)
    case None => None
  }

  /** `keybinds[a] = code`: in place when present, a new last property
      otherwise. */
  function SetBinding(bs: Bindings, a: string, code: string): Bindings
  {
    match IndexOf(bs, a)
    case Some(i) => bs[i := Binding(a, code)]
    case None => bs + [Binding(a, code)]
  }

  /** Keys the handler refuses to bind: Escape and every code starting with
      "F". */
  predicate Reserved(code: string)
  {
    code == "Escape" || (|code| > 0 && code[0] == 'F')
  }

  /** Entry j of the object holds `code` for another action. */
  predicate ClashAt(bs: Bindings, a: string, code: string, j: int)
    requires 0 <= j < |bs|
  {
    bs[j].action != a && bs[j].code == code
  }

  /** How a key press ended. */
  datatype Outcome = Cancelled | Refused(holder: string) | Rebound

  /** The keydown handler while action a listens: the new bindings, whether
      a still listens, and the outcome. */
  method KeyDown(bs: Bindings, a: string, code: string) returns (bs': Bindings, listening: bool, outcome: Outcome)
    requires DistinctActions(bs)
    ensures outcome == Cancelled <==> Reserved(code)
    ensures outcome.Refused? <==> !Reserved(code) && exists j :: 0 <= j < |bs| && ClashAt(bs, a, code, j)
    ensures outcome.Refused? ==> exists j :: 0 <= j < |bs| && ClashAt(bs, a, code, j) && bs[j].action == outcome.holder &&
                                   forall k :: 0 <= k < j ==> !ClashAt(bs, a, code, k)
    ensures outcome != Rebound ==> bs' == bs
    ensures listening <==> outcome.Refused?
    ensures outcome == Rebound ==> Lookup(bs', a) == Some(code)
    ensures forall b :: b != a ==> Lookup(bs', b) == Lookup(bs, b)
    ensures DistinctActions(bs')
    ensures OneToOne(bs) ==> OneToOne(bs')
  {
    if Reserved(code) {
      return bs, false, Cancelled;
    }
    var i := 0;
    while i < |bs| && !ClashAt(bs, a, code, i)
      invariant 0 <= i <= |bs|
      invariant forall j :: 0 <= j < i ==> !ClashAt(bs, a, code, j)
    {
      i := i + 1;
    }
    if i < |bs| {
      return bs, true, Refused(bs[i].action);
    }
    bs' := SetBinding(bs, a, code);
    SetBindingLaws(bs, a, code);
    return bs', false, Rebound;
  }

  /** Setting a binding finds it under its action, leaves every other action
      alone, keeps the actions distinct, and keeps keys one-to-one when no
      other action held the new key. */
  lemma SetBindingLaws(bs: Bindings, a: string, code: string)
    requires DistinctActions(bs)
    ensures Lookup(SetBinding(bs, a, code), a) == Some(code)
    ensures forall b :: b != a ==> Lookup(SetBinding(bs, a, code), b) == Lookup(bs, b)
    ensures DistinctActions(SetBinding(bs, a, code))
    ensures OneToOne(bs) && (forall j :: 0 <= j < |bs| ==> !ClashAt(bs, a, code, j)) ==>
              OneToOne(SetBinding(bs, a, code))
  {
    var bs' := SetBinding(bs, a, code);
    var f := IndexOf(bs, a);
    var i := if f.Some? then f.value else |bs|;
    assert i < |bs'| && bs'[i] == Binding(a, code);
    assert forall k :: 0 <= k < |bs'| && k != i ==> bs'[k] == bs[k];
    assert DistinctActions(bs');
    if OneToOne(bs) && forall j :: 0 <= j < |bs| ==> !ClashAt(bs, a, code, j) {
      forall p, q | 0 <= p < q < |bs'|
        ensures bs'[p].code != bs'[q].code
      {
        if p == i {
          assert !ClashAt(bs, a, code, q) && bs[q].action != a;
        } else if q == i {
          assert q < |bs| ==> bs[q].action == a;
          assert !ClashAt(bs, a, code, p) && bs[p].action != a;
        }
      }
    }
    assert IndexOf(bs', a) == Some(i) by {
      IndexAt(bs', a, i);
    }
    forall b | b != a
      ensures Lookup(bs', b) == Lookup(bs, b)
    {
      var g := IndexOf(bs, b);
      if g.Some? {
        IndexAt(bs', b, g.value);
      }
    }
  }

  /** With distinct actions, an entry's index is where `IndexOf` stops. */
  lemma IndexAt(bs: Bindings, a: string, i: nat)
    requires DistinctActions(bs) && i < |bs| && bs[i].action == a
    ensures IndexOf(bs, a) == Some(i)
  {
  }

  /** Pressing the key an action already holds is no clash: the binding is
      set to what it was, so nothing changes. */
  lemma OwnKeyIsNoConflict(bs: Bindings, a: string)
    requires DistinctActions(bs) && OneToOne(bs) && Lookup(bs, a).Some?
    ensures forall j :: 0 <= j < |bs| ==> !ClashAt(bs, a, Lookup(bs, a).value, j)
    ensures SetBinding(bs, a, Lookup(bs, a).value) == bs
  {
    var i := IndexOf(bs, a).value;
    forall j | 0 <= j < |bs|
      ensures !ClashAt(bs, a, bs[i].code, j)
    {
      if j != i && bs[j].code == bs[i].code {
        assert false;
      }
    }
  }
}
