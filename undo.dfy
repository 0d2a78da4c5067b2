/**
 * The grid's undo/redo stack. An action is a name and two effects, `do_` and
 * `undo`, on the state of the labelling session; the stack keeps the actions
 * that are done and the ones that were undone (top = last element).
 *
 * In the front end the effects are closures that change shared objects; here
 * the state they touch is a value of type `S` that each operation takes and
 * gives back, so what a closure does is the function applied to that value.
 */
module Undo {

  datatype Action<!S> = Action(name: string, do_: S -> S, undo: S -> S)

  /** `undo` takes back exactly what `do_` did in state `w`. */
  ghost predicate UndoesAt<S>(a: Action<S>, w: S)
  {
    a.undo(a.do_(w)) == w
  }

  /** The two stacks of an `ActionStack`. */
  datatype History<!S> = History(done: seq<Action<S>>, undone: seq<Action<S>>)
  {
    function Size(): nat { |done| + |undone| }
  }

  /** A history together with the state the actions act on. */
  datatype Step<!S> = Step(history: History<S>, world: S)

  /** `push`: run `do_` once and put the action on the done stack. */
  function AfterPush<S>(h: History<S>, a: Action<S>, w: S): Step<S>
  {
    Step(History(h.done + [a], h.undone), a.do_(w))
  }

  /** `undo`: pop the done stack; run the popped action's `undo` once and put it
      on the undone stack; with nothing to pop, nothing changes. */
  function AfterUndo<S>(h: History<S>, w: S): Step<S>
  {
    if h.done == [] then Step(h, w)
    else
      var a := h.done[|h.done| - 1];
      Step(History(h.done[..|h.done| - 1], h.undone + [a]), a.undo(w))
  }

  /** `redo`: the mirror image of `undo`, running `do_` again. */
  function AfterRedo<S>(h: History<S>, w: S): Step<S>
  {
    if h.undone == [] then Step(h, w)
    else
      var a := h.undone[|h.undone| - 1];
      Step(History(h.done + [a], h.undone[..|h.undone| - 1]), a.do_(w))
  }

  class ActionStack<S> {
    var doneActions: seq<Action<S>>
    var undoneActions: seq<Action<S>>

    function Stacks(): History<S>
      reads this
    {
      History(doneActions, undoneActions)
    }

    constructor ()
      ensures Stacks() == History([], [])
    {
      doneActions := [];
      undoneActions := [];
    }

    method Push(a: Action<S>, w: S) returns (w': S)
      modifies this
      ensures Step(Stacks(), w') == AfterPush(old(Stacks()), a, w)
    {
      w' := a.do_(w);
      doneActions := doneActions + [a];
    }

    method Undo(w: S) returns (w': S)
      modifies this
      ensures Step(Stacks(), w') == AfterUndo(old(Stacks()), w)
    {
      if |doneActions| > 0 {
        var a := doneActions[|doneActions| - 1];
        doneActions := doneActions[..|doneActions| - 1];
        w' := a.undo(w);
        undoneActions := undoneActions + [a];
      } else {
        w' := w;
      }
    }

    method Redo(w: S) returns (w': S)
      modifies this
      ensures Step(Stacks(), w') == AfterRedo(old(Stacks()), w)
    {
      if |undoneActions| > 0 {
        var a := undoneActions[|undoneActions| - 1];
        undoneActions := undoneActions[..|undoneActions| - 1];
        w' := a.do_(w);
        doneActions := doneActions + [a];
      } else {
        w' := w;
      }
    }
  }

  // ---------------------------------------------------------------------------
  // Properties of the stack.
  // ---------------------------------------------------------------------------

  /** Undoing right after a push restores the state (when the action's `undo`
      reverses its `do_`), restores the done stack, and leaves the action
      ready to be redone. */
  lemma PushThenUndo<S>(h: History<S>, a: Action<S>, w: S)
    requires UndoesAt(a, w)
    ensures AfterUndo(AfterPush(h, a, w).history, AfterPush(h, a, w).world)
         == Step(History(h.done, h.undone + [a]), w)
  {
    var p := AfterPush(h, a, w);
    assert p.history.done[..|p.history.done| - 1] == h.done;
  }

  /** Redo after undo puts back the state and stacks the push produced. */
  lemma PushUndoRedo<S>(h: History<S>, a: Action<S>, w: S)
    requires UndoesAt(a, w)
    ensures var u := AfterUndo(AfterPush(h, a, w).history, AfterPush(h, a, w).world);
            AfterRedo(u.history, u.world) == AfterPush(h, a, w)
  {
    PushThenUndo(h, a, w);
    var u := Step(History(h.done, h.undone + [a]), w);
    assert u.history.undone[..|u.history.undone| - 1] == h.undone;
  }

  /** Undo and redo move one action between the stacks and never lose one;
      a push adds exactly one. */
  lemma SizeKept<S>(h: History<S>, a: Action<S>, w: S)
    ensures AfterUndo(h, w).history.Size() == h.Size()
    ensures AfterRedo(h, w).history.Size() == h.Size()
    ensures AfterPush(h, a, w).history.Size() == h.Size() + 1
  {
  }

  /** A push leaves the undone stack as it was: an action undone before the push
      can still be redone after it, and redo then runs that action's `do_`. */
  lemma PushKeepsRedo<S>(h: History<S>, a: Action<S>, b: Action<S>, w: S)
    requires h.done != []
    ensures var u := AfterUndo(h, w);
            var p := AfterPush(u.history, b, u.world);
            var r := AfterRedo(p.history, p.world);
            r.world == h.done[|h.done| - 1].do_(b.do_(h.done[|h.done| - 1].undo(w)))
            && r.history.done == h.done[..|h.done| - 1] + [b, h.done[|h.done| - 1]]
            && r.history.undone == h.undone
  {
    var top := h.done[|h.done| - 1];
    var u := AfterUndo(h, w);
    assert u.history.undone == h.undone + [top];
    var p := AfterPush(u.history, b, u.world);
    assert p.history.undone[..|p.history.undone| - 1] == h.undone;
    assert p.history.done + [top] == h.done[..|h.done| - 1] + [b, top];
  }

  /** Pushing a sequence of actions one after the other. */
  function PushAll<S>(h: History<S>, acts: seq<Action<S>>, w: S): Step<S>
    decreases |acts|
  {
    if acts == [] then Step(h, w)
    else
      var p := AfterPush(h, acts[0], w);
      PushAll(p.history, acts[1..], p.world)
  }

  /** Undoing `n` times. */
  function UndoTimes<S>(h: History<S>, n: nat, w: S): Step<S>
  {
    if n == 0 then Step(h, w)
    else
      var u := UndoTimes(h, n - 1, w);
      AfterUndo(u.history, u.world)
  }

  /** Every action of `acts`, pushed in order from `w`, is undone by its own `undo`. */
  ghost predicate UndoesAlong<S>(acts: seq<Action<S>>, w: S)
    decreases |acts|
  {
    acts == [] || (UndoesAt(acts[0], w) && UndoesAlong(acts[1..], acts[0].do_(w)))
  }

  lemma {:induction false} PushAllShape<S>(h: History<S>, acts: seq<Action<S>>, w: S)
    ensures PushAll(h, acts, w).history == History(h.done + acts, h.undone)
    decreases |acts|
  {
    if acts != [] {
      var p := AfterPush(h, acts[0], w);
      PushAllShape(p.history, acts[1..], p.world);
      assert h.done + [acts[0]] + acts[1..] == h.done + acts;
    }
  }

  /** `s` backwards. */
  function Reverse<T>(s: seq<T>): (r: seq<T>)
    ensures |r| == |s| && forall i :: 0 <= i < |s| ==> r[i] == s[|s| - 1 - i]
  {
    if s == [] then [] else Reverse(s[1..]) + [s[0]]
  }

  /** Undoing as many times as actions were pushed gives back the starting state
      and the starting done stack; the undone stack then holds the pushed
      actions on top of what it held, most recent lowest. */
  lemma {:induction false} UndoAllAfterPushAll<S>(h: History<S>, acts: seq<Action<S>>, w: S)
    requires UndoesAlong(acts, w)
    ensures var p := PushAll(h, acts, w);
            var u := UndoTimes(p.history, |acts|, p.world);
            u.world == w && u.history.done == h.done && u.history.undone == h.undone + Reverse(acts)
    decreases |acts|
  {
    if acts != [] {
      var a := acts[0];
      var q := AfterPush(h, a, w);
      // Undoing the last |acts| - 1 pushes brings the stacks back to `q`.
      UndoAllAfterPushAll(q.history, acts[1..], q.world);
      var p := PushAll(h, acts, w);
      assert p == PushAll(q.history, acts[1..], q.world);
      var m := UndoTimes(p.history, |acts| - 1, p.world);
      assert m.world == a.do_(w) && m.history.done == h.done + [a];
      assert m.history.undone == h.undone + Reverse(acts[1..]);
      assert UndoTimes(p.history, |acts|, p.world) == AfterUndo(m.history, m.world);
      assert (h.done + [a])[..|h.done|] == h.done;
    }
  }
}
