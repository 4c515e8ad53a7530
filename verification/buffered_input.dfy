/**
 * The debounced, IME-aware input of `useBufferedInput`. The pending
 * `setTimeout` handle is an optional value: the string the timer will pass to
 * `onFlush` when it fires. Being an `Option`, there is never more than one.
 */
module BufferedInput {
  import opened Wrappers

  datatype BufferState = BufferState(localValue: string, isComposing: bool, timer: Option<string>)

  /** Callback invocations: `onFlush(value)` and `onClear()`. */
  datatype Effect = Flushed(value: string) | Cleared

  datatype Step = Step(state: BufferState, effects: seq<Effect>)

  datatype Event =
    | Input(value: string)     // assignment to `localValue`
    | TimerFires               // the pending timeout elapses
    | Flush
    | Clear
    | Stop
    | CompositionStart
    | CompositionEnd

  /** `unref(initial) || ''`: not composing, no timer. */
  function Init(initial: Option<string>): (s: BufferState)
    ensures s.timer == None && !s.isComposing
    ensures s.localValue == (if initial.Some? then initial.value else "")
  {
    BufferState(initial.GetOr(""), false, None)
  }

  /**
   * Assigning `localValue`. The watcher runs only when the value changes;
   * while composing it returns early and leaves any pending timer alone,
   * otherwise it cancels the pending timer and schedules one carrying `v`.
   */
  function Assign(s: BufferState, v: string): (r: BufferState)
    ensures r.localValue == v && r.isComposing == s.isComposing
    ensures v == s.localValue || s.isComposing ==> r.timer == s.timer
    ensures v != s.localValue && !s.isComposing ==> r.timer == Some(v)
  {
    if v == s.localValue then s
    else if s.isComposing then s.(localValue := v)
    else s.(localValue := v, timer := Some(v))
  }

  /**
   * One event. Only `clear` calls `onClear`; at most one callback runs per
   * event; a composition in progress is only ended by composition end; and
   * a pending timer outside a composition keeps carrying the current value.
   */
  function Apply(s: BufferState, e: Event): (r: Step)
    ensures |r.effects| <= 1
    ensures Cleared in r.effects <==> e.Clear?
    ensures e.Stop? ==> r.effects == [] && r.state.timer.None? && r.state.localValue == s.localValue
    ensures !e.CompositionEnd? && s.isComposing ==> r.state.isComposing
    ensures TimerCarriesValue(s) ==> TimerCarriesValue(r.state)
    ensures e.TimerFires? ==>
      && r.state == s.(timer := None)
      && r.effects == (if s.timer.Some? then [Flushed(s.timer.value)] else [])
    ensures e.CompositionStart? ==> r.state == s.(isComposing := true) && r.effects == []
  {
    match e
    case Input(v) => Step(Assign(s, v), [])
    case TimerFires =>
      if s.timer.Some? then Step(s.(timer := None), [Flushed(s.timer.value)]) else Step(s, [])
    case Flush => Step(s.(timer := None), [Flushed(s.localValue)])
    case Clear => Step(Assign(s.(timer := None), ""), [Cleared])
    case Stop => Step(s.(timer := None), [])
    case CompositionStart => Step(s.(isComposing := true), [])
    case CompositionEnd => Step(s.(isComposing := false, timer := None), [Flushed(s.localValue)])
  }

  /** Runs a sequence of events, collecting the callback invocations in order. */
  function Run(s: BufferState, events: seq<Event>): Step
    decreases |events|
  {
    if events == [] then Step(s, [])
    else
      var first := Apply(s, events[0]);
      var rest := Run(first.state, events[1..]);
      Step(rest.state, first.effects + rest.effects)
  }

  /** Outside a composition, a pending timer carries the current value. */
  predicate TimerCarriesValue(s: BufferState) {
    s.timer.Some? && !s.isComposing ==> s.timer.value == s.localValue
  }

  lemma ApplyKeepsTimerInvariant(s: BufferState, e: Event)
    requires TimerCarriesValue(s)
    ensures TimerCarriesValue(Apply(s, e).state)
  {
  }

  /** Every reachable state keeps the invariant, whatever the event sequence. */
  lemma {:induction false} RunKeepsTimerInvariant(s: BufferState, events: seq<Event>)
    requires TimerCarriesValue(s)
    ensures TimerCarriesValue(Run(s, events).state)
    decreases |events|
  {
    if events != [] {
      ApplyKeepsTimerInvariant(s, events[0]);
      RunKeepsTimerInvariant(Apply(s, events[0]).state, events[1..]);
    }
  }

  /**
   * When the timer fires outside a composition it flushes the value the
   * input currently shows, then no timer is pending.
   */
  lemma TimerFlushesCurrentValue(s: BufferState)
    requires TimerCarriesValue(s) && !s.isComposing && s.timer.Some?
    ensures Apply(s, TimerFires) == Step(s.(timer := None), [Flushed(s.localValue)])
  {
  }

  /**
   * A timer armed before a composition starts is not cancelled by it: when it
   * fires mid-composition it flushes the value captured when it was armed,
   * not the text being composed.
   */
  lemma StaleTimerFiresDuringComposition(u: string, v: string, w: string)
    requires v != u && w != v
    ensures var r := Run(BufferState(u, false, None), [Input(v), CompositionStart, Input(w), TimerFires]);
      && r.effects == [Flushed(v)]
      && r.state == BufferState(w, true, None)
  {
    var s0 := BufferState(u, false, None);
    var s1 := BufferState(v, false, Some(v));
    var s2 := BufferState(v, true, Some(v));
    var s3 := BufferState(w, true, Some(v));
    var events := [Input(v), CompositionStart, Input(w), TimerFires];
    assert Apply(s0, events[0]) == Step(s1, []);
    assert Apply(s1, events[1]) == Step(s2, []);
    assert Apply(s2, events[2]) == Step(s3, []);
    var done := BufferState(w, true, None);
    assert Apply(s3, events[3]) == Step(done, [Flushed(v)]);
    assert events[3..][1..] == [];
    assert Run(s3, events[3..]) == Step(done, [Flushed(v)]);
    assert events[2..][1..] == events[3..];
    assert Run(s2, events[2..]) == Step(done, [Flushed(v)]);
    assert events[1..][1..] == events[2..];
    assert Run(s1, events[1..]) == Step(done, [Flushed(v)]);
  }

  /** While composing, typing schedules nothing and calls nothing. */
  lemma ComposingInputSchedulesNothing(s: BufferState, v: string)
    requires s.isComposing
    ensures Apply(s, Input(v)).state.timer == s.timer
    ensures Apply(s, Input(v)).effects == []
  {
  }

  /**
   * `flush` and composition end cancel the timer and call `onFlush` once with
   * the current value; `stop` cancels without calling and is idempotent.
   */
  lemma FlushStopCompositionEnd(s: BufferState)
    ensures Apply(s, Flush).state.timer.None? && Apply(s, Flush).effects == [Flushed(s.localValue)]
    ensures Apply(s, Stop).state.timer.None? && Apply(s, Stop).effects == []
    ensures Apply(Apply(s, Stop).state, Stop) == Apply(s, Stop)
    ensures var c := Apply(s, CompositionEnd);
      !c.state.isComposing && c.state.timer.None? && c.effects == [Flushed(s.localValue)]
  {
  }

  /**
   * `clear` empties the value and calls `onClear` once. The assignment
   * re-triggers the watcher, so outside a composition a non-empty input
   * ends with a timer that will flush `''`.
   */
  lemma ClearEmptiesValue(s: BufferState)
    ensures var c := Apply(s, Clear);
      c.state.localValue == "" && c.effects == [Cleared]
      && (c.state.timer.Some? <==> s.localValue != "" && !s.isComposing)
      && (c.state.timer.Some? ==> c.state.timer.value == "")
  {
  }

  /** Typing outside a composition and letting the timer fire flushes the last value typed. */
  lemma {:induction false} DebouncedTypingFlushesLast(s: BufferState, values: seq<string>)
    requires !s.isComposing && |values| > 0
    requires values[0] != s.localValue
    requires forall i :: 0 < i < |values| ==> values[i] != values[i - 1]
    ensures var typed := seq(|values|, i requires 0 <= i < |values| => Input(values[i]));
      var r := Run(s, typed + [TimerFires]);
      r.effects == [Flushed(values[|values| - 1])] && r.state.timer.None?
      && r.state.localValue == values[|values| - 1]
  {
    var typed := seq(|values|, i requires 0 <= i < |values| => Input(values[i]));
    TypingLeavesOneTimer(s, values);
    RunAppend(s, typed, [TimerFires]);
  }

  lemma {:induction false} TypingLeavesOneTimer(s: BufferState, values: seq<string>)
    requires !s.isComposing && |values| > 0
    requires values[0] != s.localValue
    requires forall i :: 0 < i < |values| ==> values[i] != values[i - 1]
    ensures var typed := seq(|values|, i requires 0 <= i < |values| => Input(values[i]));
      var r := Run(s, typed);
      r.effects == [] && !r.state.isComposing
      && r.state.localValue == values[|values| - 1] && r.state.timer == Some(values[|values| - 1])
    decreases |values|
  {
    var typed := seq(|values|, i requires 0 <= i < |values| => Input(values[i]));
    var s1 := Assign(s, values[0]);
    assert Apply(s, typed[0]) == Step(s1, []);
    if |values| > 1 {
      var tail := values[1..];
      TypingLeavesOneTimer(s1, tail);
      assert typed[1..] == seq(|tail|, i requires 0 <= i < |tail| => Input(tail[i]));
    } else {
      assert typed[1..] == [];
    }
  }

  lemma {:induction false} RunAppend(s: BufferState, a: seq<Event>, b: seq<Event>)
    ensures Run(s, a + b).state == Run(Run(s, a).state, b).state
    ensures Run(s, a + b).effects == Run(s, a).effects + Run(Run(s, a).state, b).effects
    decreases |a|
  {
    if a == [] {
      assert a + b == b;
    } else {
      assert (a + b)[0] == a[0];
      assert (a + b)[1..] == a[1..] + b;
      RunAppend(Apply(s, a[0]).state, a[1..], b);
    }
  }
}
