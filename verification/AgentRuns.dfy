/** What every run of the reconnect loop keeps: the backoff has a closed form, and each
    message taken from MCP is accounted for. */
module AgentRuns {
  import opened Wrappers
  import opened Text
  import opened Agent

  // ---- Backoff ----

  function Pow2(k: nat): (r: nat)
    ensures r >= 1
  {
    if k == 0 then 1 else 2 * Pow2(k - 1)
  }

  /** The wait after `k` failures in a row. */
  function Delay(c: Config, k: nat): nat {
    if k == 0 then c.initial else Min(c.initial * Pow2(k), c.max)
  }

  lemma DelayNext(c: Config, k: nat)
    ensures Min(Delay(c, k) * 2, c.max) == Delay(c, k + 1)
  {
    assert c.initial * Pow2(k + 1) == c.initial * Pow2(k) * 2;
  }

  lemma DelayCapped(c: Config, k: nat)
    requires c.initial <= c.max
    ensures Delay(c, k) == Min(c.initial * Pow2(k), c.max)
  {
  }

  lemma DelayAboveMax(c: Config, k: nat)
    requires c.initial > c.max
    ensures Delay(c, k) == if k == 0 then c.initial else c.max
  {
    if k > 0 {
      assert c.initial * Pow2(k) >= c.initial;
    }
  }

  /** The sleeps since the start or the last Welcome. */
  function Failures(log: seq<Action>): (k: nat) {
    if log == [] then 0
    else
      var before, last := log[..|log| - 1], log[|log| - 1];
      if last == Heard(Welcome) then 0
      else if last.Sleep? then Failures(before) + 1
      else Failures(before)
  }

  ghost predicate SleepsRight(c: Config, log: seq<Action>) {
    forall k :: 0 <= k < |log| && log[k].Sleep? ==> log[k].wait == Delay(c, Failures(log[..k]))
  }

  ghost predicate WaitRight(c: Config, st: State) {
    && SleepsRight(c, st.log)
    && if st.phase == Sleeping
       then Failures(st.log) > 0 && st.wait == Delay(c, Failures(st.log) - 1)
       else st.wait == Delay(c, Failures(st.log))
  }

  lemma LogOne(c: Config, log: seq<Action>, a: Action)
    requires SleepsRight(c, log)
    requires a.Sleep? ==> a.wait == Delay(c, Failures(log))
    ensures SleepsRight(c, log + [a])
    ensures Failures(log + [a]) ==
              if a == Heard(Welcome) then 0
              else if a.Sleep? then Failures(log) + 1
              else Failures(log)
  {
    var all := log + [a];
    assert all[..|all| - 1] == log;
    forall k | 0 <= k < |all| && all[k].Sleep?
      ensures all[k].wait == Delay(c, Failures(all[..k]))
    {
      if k < |log| {
        assert all[..k] == log[..k];
      }
    }
  }

  lemma RestRight(c: Config, st: State)
    requires SleepsRight(c, st.log) && st.wait == Delay(c, Failures(st.log))
    ensures WaitRight(c, Rest(st))
  {
    hide SleepsRight, Failures, Delay;
    LogOne(c, st.log, Sleep(st.wait));
  }

  /** Logs two actions that are neither sleeps nor a Welcome. */
  lemma LogTwo(c: Config, log: seq<Action>, a: Action, b: Action)
    requires SleepsRight(c, log)
    requires !a.Sleep? && a != Heard(Welcome) && !b.Sleep? && b != Heard(Welcome)
    ensures SleepsRight(c, log + [a]) && Failures(log + [a]) == Failures(log)
    ensures SleepsRight(c, log + [a, b]) && Failures(log + [a, b]) == Failures(log)
  {
    LogOne(c, log, a);
    LogOne(c, log + [a], b);
    assert log + [a] + [b] == log + [a, b];
  }

  lemma DrainRight(c: Config, st: State, ev: Event)
    requires WaitRight(c, st)
    ensures WaitRight(c, Drain(st, ev))
  {
    hide SleepsRight, Failures, Delay;
    if ev.Mcp? {
      LogTwo(c, st.log, Took(ev.msg), Dropped(ev.msg));
    }
  }

  lemma FrameRight(c: Config, st: State, frame: Frame)
    requires WaitRight(c, st) && st.phase == Session
    ensures WaitRight(c, OnFrame(c, st, frame))
  {
    hide SleepsRight, Failures;
    LogOne(c, st.log, Heard(frame));
    var heard := Log(st, [Heard(frame)]);
    match frame
    case Inbound(chatId, user, text) => LogOne(c, heard.log, Offered(ChannelNotification(chatId, user, text)));
    case Verdict(id, behavior) => LogOne(c, heard.log, Offered(PermissionNotification(id, behavior)));
    case Error => RestRight(c, heard);
    case Broken => RestRight(c, heard);
    case Ended => RestRight(c, heard);
    case _ =>
  }

  lemma MessageRight(c: Config, st: State, m: AgentMsg, sent: bool)
    requires WaitRight(c, st) && st.phase == Session
    ensures WaitRight(c, OnMessage(st, m, sent))
  {
    hide SleepsRight, Failures, Delay;
    LogOne(c, st.log, Took(m));
    var took := Log(st, [Took(m)]);
    if m.json.Some? {
      var text := m.json.value;
      LogOne(c, took.log, if sent then Sent(text) else Failed(text));
      if !sent {
        RestRight(c, Log(took, [Failed(text)]));
      }
    }
  }

  lemma StepRight(c: Config, st: State, ev: Event)
    requires WaitRight(c, st)
    ensures WaitRight(c, Step(c, st, ev))
  {
    hide SleepsRight, Failures, Delay;
    match st.phase
    case Connecting =>
      if ev.Connected? {
        LogOne(c, st.log, Opened);
        RestRight(c, if ev.ok then Log(st, [Opened]) else st);
      } else {
        DrainRight(c, st, ev);
      }
    case Greeting =>
      if ev.HelloSent? {
        var text := if c.hello.Some? then c.hello.value else "";
        LogOne(c, st.log, Sent(text));
        LogOne(c, st.log, Failed(text));
        RestRight(c, Log(st, [Failed(text)]));
      }
    case Session =>
      match ev {
        case Relay(frame) => FrameRight(c, st, frame);
        case Mcp(m, sent) => MessageRight(c, st, m, sent);
        case McpClosed => RestRight(c, st.(open := false));
        case _ =>
      }
    case Sleeping =>
      if ev.Timer? {
        DelayNext(c, Failures(st.log) - 1);
        RestRight(c, st.(wait := Min(st.wait * 2, c.max)));
      } else {
        DrainRight(c, st, ev);
      }
  }

  lemma {:induction false} RunRight(c: Config, script: seq<Event>)
    ensures WaitRight(c, After(c, script))
  {
    if script == [] {
      RestRight(c, State(Connecting, c.initial, true, []));
    } else {
      RunRight(c, script[..|script| - 1]);
      StepRight(c, After(c, script[..|script| - 1]), script[|script| - 1]);
    }
  }

  /** Every sleep of every run, in closed form: after `k` failures since the start or the
      last Welcome, `min(initial * 2^k, max)` when `initial <= max`. Otherwise only the
      sleep right after the start or a Welcome is longer than `max`. */
  lemma WaitClosedForm(c: Config, script: seq<Event>, i: nat)
    requires i < |After(c, script).log| && After(c, script).log[i].Sleep?
    ensures var log := After(c, script).log;
            var k := Failures(log[..i]);
            && (c.initial <= c.max ==> log[i].wait == Min(c.initial * Pow2(k), c.max))
            && (c.initial > c.max ==> log[i].wait == if k == 0 then c.initial else c.max)
  {
    RunRight(c, script);
    hide After, Failures, Delay, Pow2;
    var k := Failures(After(c, script).log[..i]);
    if c.initial <= c.max {
      DelayCapped(c, k);
    } else {
      DelayAboveMax(c, k);
    }
  }

  // ---- Conservation ----

  /** A stretch of a run: one connection, or the time before the next one. */
  datatype Segment = Segment(
    online: bool,
    taken: seq<AgentMsg>,
    dropped: seq<AgentMsg>,
    sent: seq<string>,
    unsent: seq<string>
  )

  const OFFLINE := Segment(false, [], [], [], [])
  const ONLINE := Segment(true, [], [], [], [])

  function Extend(s: Segment, a: Action): Segment {
    match a
    case Took(m) => s.(taken := s.taken + [m])
    case Dropped(m) => s.(dropped := s.dropped + [m])
    case Sent(t) => s.(sent := s.sent + [t])
    case Failed(t) => s.(unsent := s.unsent + [t])
    case _ => s
  }

  /** Cuts a log where a socket opens and where a connection is given up. */
  function Segments(log: seq<Action>): (r: seq<Segment>)
    ensures r != []
  {
    if log == [] then [OFFLINE]
    else
      var r, a := Segments(log[..|log| - 1]), log[|log| - 1];
      var s := r[|r| - 1];
      if a.Opened? then r + [ONLINE]
      else if a.Sleep? && s.online then r + [OFFLINE]
      else r[..|r| - 1] + [Extend(s, a)]
  }

  /** The messages received from MCP, in order. */
  function Taken(log: seq<Action>): (r: seq<AgentMsg>) {
    if log == [] then []
    else
      var r, a := Taken(log[..|log| - 1]), log[|log| - 1];
      if a.Took? then r + [a.msg] else r
  }

  /** The JSON texts of the messages that have one. */
  function Texts(msgs: seq<AgentMsg>): (r: seq<string>) {
    if msgs == [] then []
    else
      var r, m := Texts(msgs[..|msgs| - 1]), msgs[|msgs| - 1];
      if m.json.Some? then r + [m.json.value] else r
  }

  predicate DropsAll(s: Segment) {
    !s.online && s.dropped == s.taken && s.sent == [] && s.unsent == []
  }

  /** Hello and then the texts of exactly the messages taken, in order; only the very last
      of these may have failed to go out, and nothing is taken after a failure. */
  predicate ForwardsAll(c: Config, s: Segment) {
    && s.online && s.dropped == []
    && (s.sent == [] ==> s.taken == [])
    && (s.sent + s.unsent == [] || (c.hello.Some? && s.sent + s.unsent == [c.hello.value] + Texts(s.taken)))
    && |s.unsent| <= 1
    && (s.unsent != [] && s.taken != [] ==> s.taken[|s.taken| - 1].json == Some(s.unsent[0]))
  }

  predicate Accounted(c: Config, s: Segment) {
    if s.online then ForwardsAll(c, s) else DropsAll(s)
  }

  ghost predicate AllAccounted(c: Config, r: seq<Segment>) {
    forall i :: 0 <= i < |r| ==> r[i].online == (i % 2 == 1) && Accounted(c, r[i])
  }

  /** The segment that the run is in. */
  predicate Current(c: Config, phase: Phase, s: Segment) {
    match phase
    case Greeting => s == ONLINE && c.hello.Some?
    case Session => ForwardsAll(c, s) && s.unsent == [] && s.sent != []
    case _ => DropsAll(s)
  }

  ghost predicate Good(c: Config, phase: Phase, r: seq<Segment>) {
    r != [] && AllAccounted(c, r) && Current(c, phase, r[|r| - 1])
  }

  function Next(r: seq<Segment>, a: Action): seq<Segment>
    requires r != []
  {
    var s := r[|r| - 1];
    if a.Opened? then r + [ONLINE]
    else if a.Sleep? && s.online then r + [OFFLINE]
    else r[..|r| - 1] + [Extend(s, a)]
  }

  lemma SegmentsNext(log: seq<Action>, a: Action)
    ensures Segments(log + [a]) == Next(Segments(log), a)
  {
    assert (log + [a])[..|log + [a]| - 1] == log;
  }

  lemma SegmentsTwo(log: seq<Action>, a: Action, b: Action)
    ensures Segments(log + [a, b]) == Next(Next(Segments(log), a), b)
  {
    SegmentsNext(log, a);
    SegmentsNext(log + [a], b);
    assert log + [a] + [b] == log + [a, b];
  }

  lemma TextsNext(msgs: seq<AgentMsg>, m: AgentMsg)
    ensures Texts(msgs + [m]) == Texts(msgs) + (if m.json.Some? then [m.json.value] else [])
  {
    assert (msgs + [m])[..|msgs + [m]| - 1] == msgs;
  }

  /** Giving up from a segment in good order starts the next offline one. */
  lemma RestGood(c: Config, r: seq<Segment>, wait: nat)
    requires r != [] && AllAccounted(c, r)
    ensures Good(c, Sleeping, Next(r, Sleep(wait)))
  {
    var s := r[|r| - 1];
    var next := Next(r, Sleep(wait));
    if !s.online {
      assert next == r;
    }
  }

  lemma RestingGood(c: Config, st: State)
    requires AllAccounted(c, Segments(st.log))
    ensures Good(c, Sleeping, Segments(Rest(st).log))
  {
    RestGood(c, Segments(st.log), st.wait);
    SegmentsNext(st.log, Sleep(st.wait));
  }

  lemma ReplaceLast(c: Config, r: seq<Segment>, s: Segment)
    requires r != [] && AllAccounted(c, r) && s.online == r[|r| - 1].online && Accounted(c, s)
    ensures AllAccounted(c, r[..|r| - 1] + [s])
  {
  }

  lemma DropGood(c: Config, phase: Phase, r: seq<Segment>, m: AgentMsg)
    requires (phase == Connecting || phase == Sleeping) && Good(c, phase, r)
    ensures Good(c, phase, Next(Next(r, Took(m)), Dropped(m)))
  {
    hide AllAccounted;
    var s := r[|r| - 1];
    var s' := Extend(Extend(s, Took(m)), Dropped(m));
    ReplaceLast(c, r, s');
    assert Next(Next(r, Took(m)), Dropped(m)) == r[..|r| - 1] + [s'];
  }

  lemma DrainGood(c: Config, st: State, ev: Event)
    requires st.phase == Connecting || st.phase == Sleeping
    requires Good(c, st.phase, Segments(st.log))
    ensures Good(c, st.phase, Segments(Drain(st, ev).log))
  {
    hide Segments, AllAccounted;
    if ev.Mcp? && st.open {
      DropGood(c, st.phase, Segments(st.log), ev.msg);
      SegmentsTwo(st.log, Took(ev.msg), Dropped(ev.msg));
    }
  }

  lemma ForwardOne(c: Config, s: Segment, m: AgentMsg)
    requires Current(c, Session, s)
    ensures m.json.None? ==> Current(c, Session, Extend(s, Took(m)))
    ensures m.json.Some? ==> Current(c, Session, Extend(Extend(s, Took(m)), Sent(m.json.value)))
    ensures m.json.Some? ==> ForwardsAll(c, Extend(Extend(s, Took(m)), Failed(m.json.value)))
  {
    TextsNext(s.taken, m);
    assert s.sent + s.unsent == s.sent;
    if m.json.Some? {
      var text := m.json.value;
      var all := [c.hello.value] + Texts(s.taken);
      assert all + [text] == [c.hello.value] + (Texts(s.taken) + [text]);
      assert Extend(Extend(s, Took(m)), Sent(text)).sent + [] == all + [text];
      assert Extend(Extend(s, Took(m)), Failed(text)).unsent == [text];
    } else {
      assert Extend(s, Took(m)).sent + Extend(s, Took(m)).unsent == s.sent;
    }
  }

  lemma TakeGood(c: Config, r: seq<Segment>, m: AgentMsg)
    requires Good(c, Session, r) && m.json.None?
    ensures Good(c, Session, Next(r, Took(m)))
  {
    hide AllAccounted;
    ForwardOne(c, r[|r| - 1], m);
    ReplaceLast(c, r, Extend(r[|r| - 1], Took(m)));
  }

  lemma ForwardGood(c: Config, r: seq<Segment>, m: AgentMsg, a: Action)
    requires Good(c, Session, r) && m.json.Some? && (a == Sent(m.json.value) || a == Failed(m.json.value))
    ensures AllAccounted(c, Next(Next(r, Took(m)), a))
    ensures a.Sent? ==> Good(c, Session, Next(Next(r, Took(m)), a))
  {
    hide AllAccounted;
    var s := r[|r| - 1];
    ForwardOne(c, s, m);
    var s' := Extend(Extend(s, Took(m)), a);
    hide Extend, ForwardsAll;
    ReplaceLast(c, r, s');
    assert Next(Next(r, Took(m)), a) == r[..|r| - 1] + [s'];
  }

  lemma MessageGood(c: Config, st: State, m: AgentMsg, sent: bool)
    requires st.phase == Session && Good(c, Session, Segments(st.log))
    ensures var after := OnMessage(st, m, sent); Good(c, after.phase, Segments(after.log))
  {
    hide Segments, AllAccounted;
    var r := Segments(st.log);
    SegmentsNext(st.log, Took(m));
    if m.json.None? {
      TakeGood(c, r, m);
    } else {
      var a := if sent then Sent(m.json.value) else Failed(m.json.value);
      ForwardGood(c, r, m, a);
      SegmentsNext(st.log + [Took(m)], a);
      if !sent {
        RestingGood(c, Log(Log(st, [Took(m)]), [a]));
      }
    }
  }

  lemma Quiet(log: seq<Action>, a: Action)
    requires a.Heard? || a.Offered?
    ensures Segments(log + [a]) == Segments(log)
  {
    SegmentsNext(log, a);
  }

  lemma FrameGood(c: Config, st: State, frame: Frame)
    requires st.phase == Session && Good(c, Session, Segments(st.log))
    ensures var after := OnFrame(c, st, frame); Good(c, after.phase, Segments(after.log))
  {
    hide Segments, AllAccounted;
    var log := st.log + [Heard(frame)];
    Quiet(st.log, Heard(frame));
    match frame
    case Inbound(chatId, user, text) => Quiet(log, Offered(ChannelNotification(chatId, user, text)));
    case Verdict(id, behavior) => Quiet(log, Offered(PermissionNotification(id, behavior)));
    case Welcome =>
    case Unparsed =>
    case NotText =>
    case _ =>
      RestingGood(c, Log(st, [Heard(frame)]));
  }

  lemma OpenGood(c: Config, r: seq<Segment>)
    requires Good(c, Connecting, r)
    ensures AllAccounted(c, Next(r, Opened))
    ensures c.hello.Some? ==> Good(c, Greeting, Next(r, Opened))
  {
  }

  lemma ConnectGood(c: Config, st: State, ok: bool)
    requires st.phase == Connecting && Good(c, Connecting, Segments(st.log))
    ensures var after := OnConnect(c, st, ok); Good(c, after.phase, Segments(after.log))
  {
    hide Segments;
    if !ok {
      RestingGood(c, st);
    } else {
      OpenGood(c, Segments(st.log));
      SegmentsNext(st.log, Opened);
      if c.hello.None? {
        RestingGood(c, Log(st, [Opened]));
      }
    }
  }

  lemma HelloForwarded(c: Config, a: Action)
    requires c.hello.Some? && (a == Sent(c.hello.value) || a == Failed(c.hello.value))
    ensures ForwardsAll(c, Extend(ONLINE, a))
    ensures a.Sent? ==> Current(c, Session, Extend(ONLINE, a))
  {
    var s := Extend(ONLINE, a);
    assert s.sent + s.unsent == [c.hello.value] == [c.hello.value] + Texts([]);
  }

  lemma HelloGood(c: Config, st: State, ok: bool)
    requires st.phase == Greeting && Good(c, Greeting, Segments(st.log))
    ensures var after := OnHello(c, st, ok); Good(c, after.phase, Segments(after.log))
  {
    hide Segments, AllAccounted;
    var r := Segments(st.log);
    var a := if ok then Sent(c.hello.value) else Failed(c.hello.value);
    SegmentsNext(st.log, a);
    HelloForwarded(c, a);
    ReplaceLast(c, r, Extend(ONLINE, a));
    if !ok {
      RestingGood(c, Log(st, [a]));
    }
  }

  lemma StepGood(c: Config, st: State, ev: Event)
    requires Good(c, st.phase, Segments(st.log))
    ensures var after := Step(c, st, ev); Good(c, after.phase, Segments(after.log))
  {
    hide Segments, AllAccounted;
    match st.phase
    case Connecting => if ev.Connected? { ConnectGood(c, st, ev.ok); } else { DrainGood(c, st, ev); }
    case Greeting => if ev.HelloSent? { HelloGood(c, st, ev.ok); }
    case Session =>
      match ev {
        case Relay(frame) => FrameGood(c, st, frame);
        case Mcp(m, sent) => MessageGood(c, st, m, sent);
        case McpClosed => RestingGood(c, st.(open := false));
        case _ =>
      }
    case Sleeping => if ev.Timer? { RestingGood(c, st.(wait := Min(st.wait * 2, c.max))); } else { DrainGood(c, st, ev); }
  }

  lemma {:induction false} RunGood(c: Config, script: seq<Event>)
    ensures Good(c, After(c, script).phase, Segments(After(c, script).log))
  {
    if script == [] {
      var st := State(Connecting, c.initial, true, []);
      assert AllAccounted(c, Segments([]));
      RestingGood(c, st);
    } else {
      RunGood(c, script[..|script| - 1]);
      StepGood(c, After(c, script[..|script| - 1]), script[|script| - 1]);
    }
  }

  function Takens(r: seq<Segment>): (t: seq<seq<AgentMsg>>)
    ensures |t| == |r|
    ensures forall i :: 0 <= i < |r| ==> t[i] == r[i].taken
  {
    seq(|r|, i requires 0 <= i < |r| => r[i].taken)
  }

  lemma FlattenLast<T>(t: seq<seq<T>>)
    requires t != []
    ensures Flatten(t) == Flatten(t[..|t| - 1]) + t[|t| - 1]
  {
    assert t == t[..|t| - 1] + [t[|t| - 1]];
    FlattenSnoc(t[..|t| - 1], t[|t| - 1]);
  }

  lemma TakensNext(r: seq<Segment>, a: Action)
    requires r != []
    ensures Flatten(Takens(Next(r, a))) == Flatten(Takens(r)) + (if a.Took? then [a.msg] else [])
  {
    var t, t' := Takens(r), Takens(Next(r, a));
    FlattenLast(t);
    FlattenLast(t');
    if |t'| > |t| {
      assert t'[..|t|] == t;
    } else {
      assert t'[..|t| - 1] == t[..|t| - 1];
    }
  }

  /** Cutting a log loses no message: the segments hold what was taken, in order. */
  lemma {:induction false} SegmentsHoldTaken(log: seq<Action>)
    ensures Flatten(Takens(Segments(log))) == Taken(log)
  {
    if log == [] {
      assert Takens([OFFLINE]) == [[]];
      assert Flatten([[]]) == Flatten<AgentMsg>([]);
    } else {
      var before, a := log[..|log| - 1], log[|log| - 1];
      SegmentsHoldTaken(before);
      TakensNext(Segments(before), a);
    }
  }

  /** Every message that the agent takes from MCP is accounted for. In order, they fall into
      alternating stretches: taken while offline and dropped, or taken on one connection,
      which carried Hello and then exactly their texts, save perhaps a last one whose send
      failed. */
  lemma MessagesAreConserved(c: Config, script: seq<Event>)
    ensures var log := After(c, script).log;
            var r := Segments(log);
            && Flatten(Takens(r)) == Taken(log)
            && forall i :: 0 <= i < |r| ==>
                 && r[i].online == (i % 2 == 1)
                 && if r[i].online then ForwardsAll(c, r[i]) else DropsAll(r[i])
  {
    RunGood(c, script);
    SegmentsHoldTaken(After(c, script).log);
  }
}
