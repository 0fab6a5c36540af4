/** `src/app/components/LongPressable.tsx`: a wrapper that tells a long
    press from a click. Pressing arms a timer; if the timer fires first the
    long-press callback runs, and releasing runs the click callback only
    when the long press has not fired since the press began. Leaving the
    element disarms the timer without either callback. Time is not
    modelled: the timer firing is an event, and the browser's table of
    scheduled timers is part of the state. */
module LongPress {
  import opened Common

  /** The `delay` prop's default, in milliseconds. */
  const DefaultDelay: nat := 600

  /** A callback the component runs. */
  datatype Callback = LongPressed | Clicked

  /** `timer` is `timeoutRef.current` (a timer handle, or null), `triggered`
      is `longPressTriggered.current`, `pending` holds the handles of the
      timers scheduled and neither fired nor cleared, and `next` is the
      handle the next `setTimeout` returns. */
  datatype PressState = PressState(timer: Option<nat>, triggered: bool, pending: set<nat>, next: nat)

  const Initial := PressState(None, false, {}, 1)

  /** `mousedown`/`touchstart`, the timer with the given handle firing,
      `mouseup`/`touchend`, and `mouseleave`. */
  datatype PressEvent = Start | Fire(handle: nat) | Release | Leave

  /** The result of handling an event: the new state and the callbacks run. */
  datatype Outcome = Outcome(state: PressState, fired: seq<Callback>)

  /** The armed timer is scheduled, and every scheduled handle was issued. */
  predicate Valid(s: PressState)
  {
    (s.timer.Some? ==> s.timer.value in s.pending) && forall h :: h in s.pending ==> h < s.next
  }

  /** `if (timeoutRef.current) { clearTimeout(...); timeoutRef.current = null; }` */
  function Disarm(s: PressState): (t: PressState)
    ensures t.timer.None? && t.triggered == s.triggered && t.next == s.next
    ensures s.timer.Some? ==> t.pending == s.pending - {s.timer.value}
    ensures s.timer.None? ==> t.pending == s.pending
  {
    if s.timer.Some? then s.(timer := None, pending := s.pending - {s.timer.value}) else s
  }

  /** One handler. A cleared or already fired timer never fires again, so
      `Fire` of a handle that is not pending changes nothing. */
  function Step(s: PressState, e: PressEvent): Outcome
  {
    match e
    case Start =>
      Outcome(PressState(Some(s.next), false, s.pending + {s.next}, s.next + 1), [])
    case Fire(h) =>
      if h in s.pending then Outcome(s.(timer := None, triggered := true, pending := s.pending - {h}), [LongPressed])
      else Outcome(s, [])
    case Release =>
      var d := Disarm(s);
      Outcome(d, if !d.triggered then [Clicked] else [])
    case Leave =>
      Outcome(Disarm(s), [])
  }

  /** The state after a sequence of events, and every callback run, in order. */
  function Run(s: PressState, events: seq<PressEvent>): Outcome
    decreases |events|
  {
    if events == [] then Outcome(s, [])
    else
      var first := Step(s, events[0]);
      var rest := Run(first.state, events[1..]);
      Outcome(rest.state, first.fired + rest.fired)
  }

  /** Every handler keeps the state valid; `start` clears the flag and arms
      a fresh timer; a firing timer runs the long-press callback once, sets
      the flag and disarms; release disarms and clicks exactly when the flag
      is clear; leaving disarms and runs nothing. */
  lemma StepProperties(s: PressState, e: PressEvent)
    requires Valid(s)
    ensures Valid(Step(s, e).state)
    ensures e.Start? ==>
      (Step(s, e).fired == [] && !Step(s, e).state.triggered
       && Step(s, e).state.timer == Some(s.next) && s.next !in s.pending)
    ensures e.Fire? && e.handle in s.pending ==>
      (Step(s, e).fired == [LongPressed] && Step(s, e).state.triggered
       && Step(s, e).state.timer.None? && e.handle !in Step(s, e).state.pending)
    ensures e.Fire? && e.handle !in s.pending ==> Step(s, e) == Outcome(s, [])
    ensures e.Release? ==>
      (Step(s, e).state.timer.None?
       && (Step(s, e).fired == [Clicked] <==> !s.triggered) && (Step(s, e).fired == [] <==> s.triggered))
    ensures e.Leave? ==>
      (Step(s, e).fired == [] && Step(s, e).state.timer.None? && Step(s, e).state.triggered == s.triggered)
  {
  }

  /** While the button is held only timers can fire. From the state right
      after `start` with handle `h` as the only pending timer, any sequence
      of firings leaves either that same state with nothing run, or, once
      `Fire(h)` has come, the disarmed, triggered state after exactly one
      long-press callback. */
  lemma {:induction false} HoldPhase(s: PressState, h: nat, mids: seq<PressEvent>)
    requires forall i :: 0 <= i < |mids| ==> mids[i].Fire?
    requires (s.timer == Some(h) && !s.triggered && s.pending == {h})
          || (s.timer.None? && s.triggered && s.pending == {})
    ensures s.timer == Some(h) && (forall i :: 0 <= i < |mids| ==> mids[i] != Fire(h)) ==>
      Run(s, mids) == Outcome(s, [])
    ensures s.timer == Some(h) && (exists i :: 0 <= i < |mids| && mids[i] == Fire(h)) ==>
      Run(s, mids) == Outcome(PressState(None, true, {}, s.next), [LongPressed])
    ensures s.timer.None? ==> Run(s, mids) == Outcome(s, [])
    decreases |mids|
  {
    if mids != [] {
      var first := Step(s, mids[0]);
      HoldPhase(first.state, h, mids[1..]);
      if s.timer == Some(h) && mids[0] != Fire(h) && exists i :: 0 <= i < |mids| && mids[i] == Fire(h) {
        var i :| 0 <= i < |mids| && mids[i] == Fire(h);
        assert mids[1..][i - 1] == Fire(h);
      }
      if s.timer == Some(h) && forall i :: 0 <= i < |mids| ==> mids[i] != Fire(h) {
        assert forall i :: 0 <= i < |mids[1..]| ==> mids[1..][i] == mids[i + 1];
      }
    }
  }

  lemma {:induction false} RunAppend(s: PressState, a: seq<PressEvent>, b: seq<PressEvent>)
    ensures Run(s, a + b) == Outcome(Run(Run(s, a).state, b).state, Run(s, a).fired + Run(Run(s, a).state, b).fired)
    decreases |a|
  {
    if a == [] {
      assert a + b == b;
    } else {
      assert (a + b)[1..] == a[1..] + b;
      RunAppend(Step(s, a[0]).state, a[1..], b);
    }
  }

  /** One press, from a state with no timer pending: `start`, any firings
      while held, then release. Exactly one callback runs: the long press
      when its timer fired, the click otherwise; afterwards no timer is
      left that could fire later. */
  lemma PressFiresOnce(s: PressState, mids: seq<PressEvent>)
    requires Valid(s) && s.pending == {}
    requires forall i :: 0 <= i < |mids| ==> mids[i].Fire?
    ensures Run(s, [Start] + mids + [Release]).fired == [LongPressed] <==> exists i :: 0 <= i < |mids| && mids[i] == Fire(s.next)
    ensures Run(s, [Start] + mids + [Release]).fired == [Clicked] <==> forall i :: 0 <= i < |mids| ==> mids[i] != Fire(s.next)
    ensures Run(s, [Start] + mids + [Release]).state.pending == {}
    ensures Run(s, [Start] + mids + [Release]).state.timer.None?
  {
    var h := s.next;
    var started := Step(s, Start).state;
    var held := Run(started, mids);
    HoldPhase(started, h, mids);
    RunAppend(s, [Start], mids);
    RunAppend(s, [Start] + mids, [Release]);
    assert Run(s, [Start]) == Outcome(started, []);
    assert Run(held.state, [Release]) == Outcome(Step(held.state, Release).state, Step(held.state, Release).fired);
    var all := Run(s, [Start] + mids + [Release]);
    if exists i :: 0 <= i < |mids| && mids[i] == Fire(h) {
      assert all.fired == [LongPressed];
    } else {
      assert all.fired == [Clicked];
      assert all.fired[0] != LongPressed;
    }
  }

  /** `start` does not clear a timer that is still pending, so two starts
      with no release in between leave the first timer armed but no longer
      referenced: release runs the click and cancels only the second timer,
      and the first one still runs the long press afterwards. */
  lemma DoubleStartFiresBoth()
    ensures Run(Initial, [Start, Start, Release, Fire(1)]).fired == [Clicked, LongPressed]
  {
    var s1 := Step(Initial, Start).state;
    var s2 := Step(s1, Start).state;
    var s3 := Step(s2, Release).state;
    assert s2 == PressState(Some(2), false, {1, 2}, 3);
    assert s3 == PressState(None, false, {1}, 3);
    assert Step(s3, Fire(1)).fired == [LongPressed];
    assert [Start, Start, Release, Fire(1)][1..] == [Start, Release, Fire(1)];
    assert [Start, Release, Fire(1)][1..] == [Release, Fire(1)];
    assert [Release, Fire(1)][1..] == [Fire(1)];
    assert [Fire(1)][1..] == [];
  }

  /** The component's refs, with the browser's pending timers. */
  class LongPressable {
    var timer: Option<nat>
    var triggered: bool
    var pending: set<nat>
    var next: nat
    const delay: nat

    function Snapshot(): PressState
      reads this
    {
      PressState(timer, triggered, pending, next)
    }

    /** A freshly mounted component: no timer, flag clear. `delay` is the
        prop, 600 when it is not given. */
    constructor (delayProp: Option<nat>)
      ensures Snapshot() == Initial && Valid(Snapshot())
      ensures delay == (if delayProp.Some? then delayProp.value else DefaultDelay)
    {
      timer, triggered, pending, next := None, false, {}, 1;
      delay := if delayProp.Some? then delayProp.value else DefaultDelay;
    }

    /** `start`: clear the flag and schedule the long-press timer. */
    method StartPress()
      modifies this
      ensures Snapshot() == Step(old(Snapshot()), Start).state
      ensures !triggered && timer == Some(old(next))
    {
      triggered := false;
      timer := Some(next);
      pending := pending + {next};
      next := next + 1;
    }

    /** The timer callback of the timer `h`, when the browser runs it. */
    method TimerFired(h: nat) returns (fired: seq<Callback>)
      modifies this
      ensures Outcome(Snapshot(), fired) == Step(old(Snapshot()), Fire(h))
    {
      if h !in pending {
        return [];
      }
      pending := pending - {h};
      fired := [LongPressed];
      triggered := true;
      timer := None;
    }

    /** `clear`, on `mouseup`/`touchend`. */
    method Clear() returns (fired: seq<Callback>)
      modifies this
      ensures Outcome(Snapshot(), fired) == Step(old(Snapshot()), Release)
      ensures timer.None? && (fired == [Clicked] <==> !old(triggered))
    {
      if timer.Some? {
        pending := pending - {timer.value};
        timer := None;
      }
      fired := if !triggered then [Clicked] else [];
    }

    /** The `mouseleave` handler. */
    method MouseLeave()
      modifies this
      ensures Snapshot() == Step(old(Snapshot()), Leave).state
      ensures timer.None? && triggered == old(triggered)
    {
      if timer.Some? {
        pending := pending - {timer.value};
        timer := None;
      }
    }
  }
}
