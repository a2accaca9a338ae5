/**
 * The toast list reducer of frontend/src/contexts/ToastContext.tsx: ADD
 * appends a toast, REMOVE drops every toast with a given id, and any other
 * action leaves the list as it is.
 */
module ToastReducer {
  import Wrappers

  datatype ToastType = Success | Error | Warning | Info

  datatype Toast = Toast(id: string, kind: ToastType, title: string, message: Wrappers.Option<string>)

  /**
   * A dispatched action. `Unrecognized` stands for any object whose `type` tag
   * is neither 'ADD' nor 'REMOVE', which the reducer's default branch handles.
   */
  datatype Action = Add(toast: Toast) | Remove(id: string) | Unrecognized(tag: string)

  /** `state.filter((t) => t.id !== id)`. */
  function WithoutId(state: seq<Toast>, id: string): (r: seq<Toast>)
    ensures |r| <= |state|
    ensures forall t :: t in r <==> t in state && t.id != id
    ensures forall i :: 0 <= i < |r| ==> r[i].id != id
  {
    if state == [] then []
    else if state[0].id != id then [state[0]] + WithoutId(state[1..], id)
    else WithoutId(state[1..], id)
  }

  function Reduce(state: seq<Toast>, action: Action): (r: seq<Toast>)
    ensures action.Add? ==> |r| == |state| + 1 && r[..|state|] == state && r[|state|] == action.toast
    ensures action.Remove? ==> r == WithoutId(state, action.id)
    ensures action.Unrecognized? ==> r == state
  {
    match action
    case Add(toast) => state + [toast]
    case Remove(id) => WithoutId(state, id)
    case Unrecognized(_) => state
  }

  /** REMOVE keeps order: filtering a concatenation filters each part. */
  lemma {:induction false} WithoutIdAppend(a: seq<Toast>, b: seq<Toast>, id: string)
    ensures WithoutId(a + b, id) == WithoutId(a, id) + WithoutId(b, id)
  {
    if a == [] {
      assert a + b == b;
    } else {
      assert (a + b)[1..] == a[1..] + b;
      WithoutIdAppend(a[1..], b, id);
    }
  }

  /** REMOVE of an id that no toast carries returns the list unchanged. */
  lemma {:induction false} RemoveAbsentIsIdentity(state: seq<Toast>, id: string)
    requires forall i :: 0 <= i < |state| ==> state[i].id != id
    ensures Reduce(state, Remove(id)) == state
  {
    if state != [] {
      RemoveAbsentIsIdentity(state[1..], id);
    }
  }

  /** REMOVE applied twice equals REMOVE once. */
  lemma RemoveIdempotent(state: seq<Toast>, id: string)
    ensures Reduce(Reduce(state, Remove(id)), Remove(id)) == Reduce(state, Remove(id))
  {
    RemoveAbsentIsIdentity(WithoutId(state, id), id);
  }

  /** REMOVE keeps exactly the toasts whose id differs, each in its original position order. */
  lemma {:induction false} RemoveKeepsOthersInOrder(state: seq<Toast>, id: string, i: nat)
    requires i < |state| && state[i].id != id
    ensures var r := Reduce(state, Remove(id));
      var before := WithoutId(state[..i], id);
      |before| < |r| && r[|before|] == state[i]
  {
    assert state == state[..i] + [state[i]] + state[i+1..];
    WithoutIdAppend(state[..i] + [state[i]], state[i+1..], id);
    WithoutIdAppend(state[..i], [state[i]], id);
    assert WithoutId([state[i]], id) == [state[i]] by {
      assert [state[i]][1..] == [];
    }
  }

  /** Removing a toast that was just added with a fresh id gives back the list before the ADD. */
  lemma AddThenRemoveFresh(state: seq<Toast>, toast: Toast)
    requires forall i :: 0 <= i < |state| ==> state[i].id != toast.id
    ensures Reduce(Reduce(state, Add(toast)), Remove(toast.id)) == state
  {
    WithoutIdAppend(state, [toast], toast.id);
    RemoveAbsentIsIdentity(state, toast.id);
    assert WithoutId([toast], toast.id) == [] by {
      assert [toast][1..] == [];
    }
  }
}
