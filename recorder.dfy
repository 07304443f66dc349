/** The page-context recorder of src/contents/plasmo.ts: a recording flag, a
    buffer of captured events and the capture engine's stop function, driven
    by `GET`/`SET` runtime messages and by the engine's `emit` callback.

    The pure functions below give the meaning of each step on a
    `RecorderState`; the class `ContentScript` holds the module-level
    variables and its methods are proved to make exactly those steps. */
module Recorder {
  import opened Types

  /** `capturing` stands for "a stop function is held" (`stopFn !== null`). */
  datatype RecorderState = RecorderState(flag: bool, records: seq<Event>, capturing: bool)

  /** Result of a step that may hand a finished session to the background. */
  datatype Stepped = Stepped(state: RecorderState, sent: Option<Draft>)

  /** What the message listener does with one message: the new state, the
      value passed to `sendResponse` (if any), whether the listener returned
      `true` to keep the reply channel open, and the session it sent. */
  datatype Handled = Handled(state: RecorderState, reply: Option<bool>, keepOpen: bool, sent: Option<Draft>)

  /** The state when the content script is loaded: not recording, nothing
      buffered, no stop function. */
  const Initial: RecorderState := RecorderState(false, [], false)

  /** The flag always says whether capture is running. */
  predicate Consistent(s: RecorderState)
  {
    s.flag == s.capturing
  }

  /** Consistent, and the buffer is empty whenever capture is off. */
  predicate Settled(s: RecorderState)
  {
    Consistent(s) && (!s.capturing ==> s.records == [])
  }

  /** The engine's `emit` callback: the event goes to the end of the buffer. */
  function Emitted(s: RecorderState, e: Event): (r: RecorderState)
    ensures |r.records| == |s.records| + 1 && r.records[|s.records|] == e
    ensures r.records[..|s.records|] == s.records
    ensures r.flag == s.flag && r.capturing == s.capturing
  {
    s.(records := s.records + [e])
  }

  /** `startRecord`: the engine is started and its stop function kept. */
  function Started(s: RecorderState): (r: RecorderState)
    ensures r.capturing
    ensures r.flag == s.flag && r.records == s.records
  {
    s.(capturing := true)
  }

  /** `stopRecord`: with no stop function nothing happens; otherwise capture
      stops, a non-empty buffer is sent as one session, and the buffer is
      cleared whether or not anything was sent. */
  function Stopped(s: RecorderState, now: int, url: string): (r: Stepped)
    ensures !s.capturing ==> r.state == s && r.sent == None
    ensures s.capturing ==> !r.state.capturing && r.state.records == [] && r.state.flag == s.flag
    ensures r.sent.Some? <==> s.capturing && |s.records| > 0
    ensures r.sent.Some? ==>
      && r.sent.value.records == s.records
      && r.sent.value.duration == s.records[|s.records| - 1].timestamp - s.records[0].timestamp
      && r.sent.value.timestamp == now
      && r.sent.value.url == url
  {
    if s.capturing then
      var sent := if |s.records| > 0 then Some(Draft(now, url, s.records, Duration(s.records))) else None;
      Stepped(s.(capturing := false, records := []), sent)
    else
      Stepped(s, None)
  }

  /** `toggleRecord`: the flag is flipped first, then capture is started or
      stopped according to its new value. */
  function Toggled(s: RecorderState, now: int, url: string): (r: Stepped)
    ensures r.state.flag == !s.flag
    ensures r.state.flag ==> r.state.capturing && r.state.records == s.records && r.sent == None
    ensures !r.state.flag ==> r == Stopped(s.(flag := false), now, url)
    ensures Consistent(r.state)
  {
    var flipped := s.(flag := !s.flag);
    if flipped.flag then Stepped(Started(flipped), None) else Stopped(flipped, now, url)
  }

  /** The runtime message listener. `now` and `url` are `Date.now()` and
      `window.location.href` at the moment a `SET` stops a recording. */
  function Answered(s: RecorderState, msg: Message, now: int, url: string): (r: Handled)
    ensures msg.Get? ==> r == Handled(s, Some(s.flag), false, None)
    ensures msg.Set? ==> r.reply == Some(r.state.flag) && r.state.flag == !s.flag && r.keepOpen
    ensures msg.Set? ==> r.state == Toggled(s, now, url).state && r.sent == Toggled(s, now, url).sent
    ensures !msg.Get? && !msg.Set? ==> r == Handled(s, None, false, None)
  {
    match msg
    case Get => Handled(s, Some(s.flag), false, None)
    case Set =>
      var t := Toggled(s, now, url);
      Handled(t.state, Some(t.state.flag), true, t.sent)
    case _ => Handled(s, None, false, None)
  }

  /** Every step keeps the state settled when the engine emits only while it
      runs; `Stopped` then sends exactly the non-empty sessions. */
  lemma ToggleKeepsSettled(s: RecorderState, now: int, url: string)
    requires Settled(s)
    ensures Settled(Toggled(s, now, url).state)
    ensures s.flag ==> Toggled(s, now, url).state == Initial
  {
  }

  // ---------------------------------------------------------------------
  // Runs: the listener and the engine's callbacks as one sequence of inputs.

  /** One thing that happens to the content script: a runtime message (with
      the clock and page address at that moment) or an engine callback. */
  datatype Input = Deliver(msg: Message, now: int, url: string) | Emit(e: Event)

  /** Final state and, in order, every session sent to the background. */
  datatype Run = Run(state: RecorderState, outbox: seq<Draft>)

  /** One input. The capture engine calls `emit` only between `record()` and
      its stop function, so an event arriving while no capture runs is never
      delivered. */
  function Step(s: RecorderState, i: Input): (r: Stepped)
    ensures r.sent.Some? ==>
      i.Deliver? && i.msg.Set? && s.capturing && |s.records| > 0 && r.sent.value.records == s.records
  {
    match i
    case Emit(e) => Stepped(if s.capturing then Emitted(s, e) else s, None)
    case Deliver(m, now, url) =>
      var h := Answered(s, m, now, url);
      Stepped(h.state, h.sent)
  }

  /** What one input does: an emit while idle changes nothing; an emit while
      capturing appends the event and keeps the flag; a message other than
      `SET` leaves the state as it was; a `SET` flips the flag. */
  lemma StepMeaning(s: RecorderState, i: Input)
    ensures i.Emit? && !s.capturing ==> Step(s, i) == Stepped(s, None)
    ensures i.Emit? && s.capturing ==>
      && Step(s, i).state.records == s.records + [i.e]
      && Step(s, i).state.flag == s.flag && Step(s, i).state.capturing && Step(s, i).sent == None
    ensures i.Deliver? && !i.msg.Set? ==> Step(s, i).state == s
    ensures i.Deliver? && i.msg.Set? ==> Step(s, i).state.flag == !s.flag
  {
  }

  function Outbox(o: Option<Draft>): seq<Draft>
  {
    if o.Some? then [o.value] else []
  }

  function Execute(s: RecorderState, inputs: seq<Input>): Run
    decreases |inputs|
  {
    if inputs == [] then Run(s, [])
    else
      var t := Step(s, inputs[0]);
      var rest := Execute(t.state, inputs[1..]);
      Run(rest.state, Outbox(t.sent) + rest.outbox)
  }

  function SetCount(inputs: seq<Input>): nat
    decreases |inputs|
  {
    if inputs == [] then 0
    else (if inputs[0].Deliver? && inputs[0].msg.Set? then 1 else 0) + SetCount(inputs[1..])
  }

  /** Only `SET` moves the flag, and each `SET` flips it once: after k of
      them, from the initial state, the flag is on exactly when k is odd.
      Every step keeps the state settled, and every session sent has at
      least one event. */
  lemma {:induction false} FlagParity(s: RecorderState, inputs: seq<Input>)
    requires Settled(s)
    ensures Settled(Execute(s, inputs).state)
    ensures Execute(s, inputs).state.flag == (s.flag != (SetCount(inputs) % 2 == 1))
    ensures forall d :: d in Execute(s, inputs).outbox ==> |d.records| > 0
    decreases |inputs|
  {
    if inputs != [] {
      var t := Step(s, inputs[0]);
      if inputs[0].Deliver? && inputs[0].msg.Set? {
        ToggleKeepsSettled(s, inputs[0].now, inputs[0].url);
      }
      FlagParity(t.state, inputs[1..]);
    }
  }

  lemma InitialFlagParity(inputs: seq<Input>)
    ensures Execute(Initial, inputs).state.flag == (SetCount(inputs) % 2 == 1)
  {
    FlagParity(Initial, inputs);
  }

  /** The inputs made of the engine emitting `es`, in order. */
  function Emits(es: seq<Event>): (r: seq<Input>)
    ensures |r| == |es|
    ensures forall i :: 0 <= i < |es| ==> r[i] == Emit(es[i])
  {
    seq(|es|, i requires 0 <= i < |es| => Emit(es[i]))
  }

  lemma StepEmit(s: RecorderState, e: Event)
    requires s.capturing
    ensures Step(s, Emit(e)) == Stepped(Emitted(s, e), None)
  {
  }

  /** While capture runs, emitted events are appended to the buffer in
      arrival order and nothing else changes. */
  lemma {:induction false} EmitsAppend(s: RecorderState, es: seq<Event>)
    requires s.capturing
    ensures Execute(s, Emits(es)) == Run(s.(records := s.records + es), [])
    decreases |es|
  {
    if es != [] {
      var t := Emitted(s, es[0]);
      assert t.(records := t.records + es[1..]) == s.(records := s.records + es) by {
        assert es == [es[0]] + es[1..];
      }
      EmitFirst(s, es);
      EmitsAppend(t, es[1..]);
    }
  }

  /** The first of a run of emits, while capturing, is appended and sends
      nothing. */
  lemma EmitFirst(s: RecorderState, es: seq<Event>)
    requires s.capturing && es != []
    ensures Execute(s, Emits(es)) == Execute(Emitted(s, es[0]), Emits(es[1..]))
  {
    EmitsSplit(es);
    StepEmit(s, es[0]);
    ExecuteFirst(s, Emits(es));
  }

  lemma EmitsSplit(es: seq<Event>)
    requires es != []
    ensures Emits(es)[0] == Emit(es[0])
    ensures Emits(es)[1..] == Emits(es[1..])
  {
    assert Emits(es)[1..] == Emits(es[1..]);
  }

  /** `Execute` takes the first input, then the rest. */
  lemma ExecuteFirst(s: RecorderState, inputs: seq<Input>)
    requires inputs != []
    ensures var t := Step(s, inputs[0]);
      Execute(s, inputs) == Run(Execute(t.state, inputs[1..]).state, Outbox(t.sent) + Execute(t.state, inputs[1..]).outbox)
  {
  }

  lemma {:induction false} ExecuteAppend(s: RecorderState, a: seq<Input>, b: seq<Input>)
    ensures Execute(s, a + b) ==
      Run(Execute(Execute(s, a).state, b).state, Execute(s, a).outbox + Execute(Execute(s, a).state, b).outbox)
    decreases |a|
  {
    if a == [] {
      assert a + b == b;
    } else {
      var t := Step(s, a[0]);
      assert (a + b)[0] == a[0];
      assert (a + b)[1..] == a[1..] + b;
      ExecuteAppend(t.state, a[1..], b);
      var mid := Execute(t.state, a[1..]);
      var tail := Execute(mid.state, b);
      assert Execute(s, a) == Run(mid.state, Outbox(t.sent) + mid.outbox);
      assert Execute(s, a + b) == Run(tail.state, Outbox(t.sent) + (mid.outbox + tail.outbox));
      assert Outbox(t.sent) + (mid.outbox + tail.outbox) == (Outbox(t.sent) + mid.outbox) + tail.outbox;
    }
  }

  /** The `SET` that starts a session from idle. */
  lemma StartSession(start: int, startUrl: string)
    ensures Execute(Initial, [Deliver(Set, start, startUrl)]) == Run(RecorderState(true, [], true), [])
  {
  }

  /** The `SET` that ends a session holding `es`. */
  lemma StopSession(es: seq<Event>, now: int, url: string)
    ensures Execute(RecorderState(true, es, true), [Deliver(Set, now, url)]) ==
      Run(Initial, if es == [] then [] else [Draft(now, url, es, Duration(es))])
  {
    var t := Step(RecorderState(true, es, true), Deliver(Set, now, url));
    assert t == Stepped(Initial, if es == [] then None else Some(Draft(now, url, es, Duration(es))));
  }

  /** A whole session: from idle, one `SET`, the engine emitting `es`, one
      more `SET`. The recorder is idle again and has sent at most one session,
      which holds exactly `es` and their time span; none when `es` is empty. */
  lemma SessionCaptured(es: seq<Event>, start: int, startUrl: string, now: int, url: string)
    ensures Execute(Initial, [Deliver(Set, start, startUrl)] + Emits(es) + [Deliver(Set, now, url)]) ==
      Run(Initial, if es == [] then [] else [Draft(now, url, es, Duration(es))])
  {
    var on := [Deliver(Set, start, startUrl)];
    var off := [Deliver(Set, now, url)];
    var s1 := RecorderState(true, [], true);
    var s2 := RecorderState(true, es, true);
    StartSession(start, startUrl);
    assert Execute(Initial, on + Emits(es)) == Run(s2, []) by {
      ExecuteAppend(Initial, on, Emits(es));
      EmitsAppend(s1, es);
      assert s1.(records := s1.records + es) == s2;
    }
    ExecuteAppend(Initial, on + Emits(es), off);
    StopSession(es, now, url);
  }

  /** When the engine's timestamps never go back, every session a whole
      session sends lasts a non-negative time that covers all its events. */
  lemma SessionSpan(es: seq<Event>, start: int, startUrl: string, now: int, url: string)
    requires NonDecreasing(es)
    ensures forall d :: d in Execute(Initial, [Deliver(Set, start, startUrl)] + Emits(es) + [Deliver(Set, now, url)]).outbox ==>
      d.duration >= 0 && forall i :: 0 <= i < |d.records| ==> d.records[i].timestamp <= d.records[0].timestamp + d.duration
  {
    SessionCaptured(es, start, startUrl, now, url);
    DurationIsSpan(es);
  }

  /** The example session: events at 100, 250 and 400 ms give one saved
      session of three events lasting 300 ms. */
  lemma ThreeEventSession(a: Event, b: Event, c: Event, now: int, url: string)
    requires a.timestamp == 100 && b.timestamp == 250 && c.timestamp == 400
    ensures Execute(Initial, [Deliver(Set, 0, url)] + Emits([a, b, c]) + [Deliver(Set, now, url)]).outbox ==
      [Draft(now, url, [a, b, c], 300)]
  {
    SessionCaptured([a, b, c], 0, url, now, url);
  }

  // ---------------------------------------------------------------------
  // The content script's module-level variables and its functions.

  class ContentScript {
    var flag: bool
    var records: seq<Event>
    /** Whether `stopFn` holds the engine's stop function. */
    var hasStopFn: bool

    ghost function State(): RecorderState
      reads this
    {
      RecorderState(flag, records, hasStopFn)
    }

    constructor ()
      ensures State() == Initial
    {
      flag := false;
      records := [];
      hasStopFn := false;
    }

    /** The `emit` callback handed to the capture engine. */
    method Emit(e: Event)
      modifies this
      ensures State() == Emitted(old(State()), e)
    {
      records := records + [e];
    }

    method StartRecord()
      modifies this
      ensures State() == Started(old(State()))
    {
      hasStopFn := true;
    }

    method StopRecord(now: int, url: string) returns (sent: Option<Draft>)
      modifies this
      ensures Stepped(State(), sent) == Stopped(old(State()), now, url)
    {
      sent := None;
      if hasStopFn {
        hasStopFn := false;
        if |records| > 0 {
          sent := Some(Draft(now, url, records, Duration(records)));
        }
        records := [];
      }
    }

    /** Whatever the state, the flag agrees with the engine afterwards. */
    method ToggleRecord(now: int, url: string) returns (sent: Option<Draft>)
      modifies this
      ensures Consistent(State())
      ensures Stepped(State(), sent) == Toggled(old(State()), now, url)
    {
      flag := !flag;
      if flag {
        StartRecord();
        sent := None;
      } else {
        sent := StopRecord(now, url);
      }
    }

    /** The runtime message listener; `reply` is what `sendResponse` gets
        and `keepOpen` what the listener returns. */
    method OnMessage(msg: Message, now: int, url: string) returns (reply: Option<bool>, keepOpen: bool, sent: Option<Draft>)
      modifies this
      ensures old(Consistent(State())) || msg.Set? ==> Consistent(State())
      ensures Handled(State(), reply, keepOpen, sent) == Answered(old(State()), msg, now, url)
    {
      reply, keepOpen, sent := None, false, None;
      match msg
      case Get =>
        reply := Some(flag);
      case Set =>
        sent := ToggleRecord(now, url);
        reply := Some(flag);
        keepOpen := true;
      case _ =>
    }
  }
}
