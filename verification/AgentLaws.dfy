/** What a run of the reconnect loop makes of its script, said without the step function:
    which notifications Claude gets, which messages are taken, and when a session begins
    and ends. */
module AgentLaws {
  import opened Wrappers
  import opened Agent
  import opened AgentRuns
  import V = Verdict

  /** The notifications offered to standard output, in order. */
  function Offers(log: seq<Action>): (r: seq<Notification>) {
    if log == [] then []
    else
      var r, a := Offers(log[..|log| - 1]), log[|log| - 1];
      if a.Offered? then r + [a.note] else r
  }

  /** `note` tells what `frame` says. */
  predicate Tells(frame: Frame, note: Notification) {
    match note
    case ChannelNote(content, chatId, user) => frame == Inbound(chatId, user, content)
    case PermissionNote(id, word) =>
      || (word == "allow" && frame == Verdict(id, V.Allow))
      || (word == "deny" && frame == Verdict(id, V.Deny))
  }

  /** The messages and verdicts that the script lets the sessions read. */
  function ReadFrames(c: Config, script: seq<Event>): (r: seq<Frame>) {
    if script == [] then []
    else
      var before, ev := script[..|script| - 1], script[|script| - 1];
      ReadFrames(c, before)
      + if After(c, before).phase == Session && ev.Relay? && (ev.frame.Inbound? || ev.frame.Verdict?)
        then [ev.frame] else []
  }

  /** MCP was heard to be closed; while Hello is being sent nobody listens. */
  predicate HeardClosed(c: Config, script: seq<Event>) {
    script != []
    && (HeardClosed(c, script[..|script| - 1])
        || (script[|script| - 1].McpClosed? && After(c, script[..|script| - 1]).phase != Greeting))
  }

  /** The messages that the script lets the agent receive from MCP. */
  function ReadMessages(c: Config, script: seq<Event>): (r: seq<AgentMsg>) {
    if script == [] then []
    else
      var before, ev := script[..|script| - 1], script[|script| - 1];
      ReadMessages(c, before)
      + if ev.Mcp? && After(c, before).phase != Greeting && !HeardClosed(c, before) then [ev.msg] else []
  }

  ghost predicate AllTold(frames: seq<Frame>, notes: seq<Notification>) {
    |frames| == |notes| && forall i :: 0 <= i < |frames| ==> Tells(frames[i], notes[i])
  }

  lemma {:induction false} OffersConcat(log: seq<Action>, more: seq<Action>)
    ensures Offers(log + more) == Offers(log) + Offers(more)
    ensures Taken(log + more) == Taken(log) + Taken(more)
    decreases |more|
  {
    if more == [] {
      assert log + more == log;
    } else {
      OffersConcat(log, more[..|more| - 1]);
      assert (log + more)[..|log + more| - 1] == log + more[..|more| - 1];
    }
  }

  lemma One(a: Action)
    ensures Offers([a]) == if a.Offered? then [a.note] else []
    ensures Taken([a]) == if a.Took? then [a.msg] else []
  {
    assert [a][..0] == [];
  }

  lemma Two(a: Action, b: Action)
    ensures Offers([a, b]) == Offers([a]) + Offers([b])
    ensures Taken([a, b]) == Taken([a]) + Taken([b])
  {
    OffersConcat([a], [b]);
    assert [a] + [b] == [a, b];
  }

  lemma FrameOffers(c: Config, st: State, frame: Frame)
    ensures var log := OnFrame(c, st, frame).log;
            && Taken(log) == Taken(st.log)
            && (if frame.Inbound? || frame.Verdict?
                then |Offers(log)| == |Offers(st.log)| + 1 && Offers(log)[..|Offers(st.log)|] == Offers(st.log)
                     && Tells(frame, Offers(log)[|Offers(st.log)|])
                else Offers(log) == Offers(st.log))
  {
    hide Offers, Taken;
    var more := if frame.Inbound? then [Heard(frame), Offered(ChannelNote(frame.text, frame.chatId, frame.user))]
                else if frame.Verdict? then [Heard(frame), Offered(PermissionNotification(frame.requestId, frame.behavior))]
                else if frame.Error? || frame.Broken? || frame.Ended? then [Heard(frame), Sleep(st.wait)]
                else [Heard(frame)];
    assert OnFrame(c, st, frame).log == st.log + more;
    OffersConcat(st.log, more);
    One(more[0]);
    if |more| == 2 {
      Two(more[0], more[1]);
      One(more[1]);
      assert more == [more[0], more[1]];
    }
  }

  /** Actions that neither take a message nor offer a notification. */
  lemma {:induction false} Quiet(log: seq<Action>, more: seq<Action>)
    requires forall i :: 0 <= i < |more| ==> !more[i].Took? && !more[i].Offered?
    ensures Offers(log + more) == Offers(log) && Taken(log + more) == Taken(log)
    decreases |more|
  {
    if more == [] {
      assert log + more == log;
    } else {
      Quiet(log, more[..|more| - 1]);
      assert (log + more)[..|log + more| - 1] == log + more[..|more| - 1];
    }
  }

  lemma TakesOne(log: seq<Action>, m: AgentMsg, more: seq<Action>)
    requires forall i :: 0 <= i < |more| ==> !more[i].Took? && !more[i].Offered?
    ensures Offers(log + [Took(m)] + more) == Offers(log) && Taken(log + [Took(m)] + more) == Taken(log) + [m]
  {
    Quiet(log + [Took(m)], more);
    OffersConcat(log, [Took(m)]);
    One(Took(m));
  }

  lemma MessageTaken(st: State, m: AgentMsg, sent: bool)
    ensures var log := OnMessage(st, m, sent).log; Offers(log) == Offers(st.log) && Taken(log) == Taken(st.log) + [m]
  {
    var more := if m.json.None? then []
                else if sent then [Sent(m.json.value)]
                else [Failed(m.json.value), Sleep(st.wait)];
    TakesOne(st.log, m, more);
    assert OnMessage(st, m, sent).log == st.log + [Took(m)] + more;
  }

  lemma DrainTakes(st: State, ev: Event)
    ensures var log := Drain(st, ev).log;
            Offers(log) == Offers(st.log) && Taken(log) == Taken(st.log) + if ev.Mcp? && st.open then [ev.msg] else []
  {
    if ev.Mcp? && st.open {
      TakesOne(st.log, ev.msg, [Dropped(ev.msg)]);
      assert Drain(st, ev).log == st.log + [Took(ev.msg)] + [Dropped(ev.msg)];
    }
  }

  lemma RestQuiet(st: State)
    ensures Offers(Rest(st).log) == Offers(st.log) && Taken(Rest(st).log) == Taken(st.log)
  {
    Quiet(st.log, [Sleep(st.wait)]);
  }

  lemma ConnectQuiet(c: Config, st: State, ok: bool)
    ensures Offers(OnConnect(c, st, ok).log) == Offers(st.log) && Taken(OnConnect(c, st, ok).log) == Taken(st.log)
  {
    hide Offers, Taken;
    Quiet(st.log, [Opened]);
    RestQuiet(if ok then Log(st, [Opened]) else st);
  }

  lemma HelloQuiet(c: Config, st: State, ok: bool)
    ensures Offers(OnHello(c, st, ok).log) == Offers(st.log) && Taken(OnHello(c, st, ok).log) == Taken(st.log)
  {
    hide Offers, Taken;
    var text := if c.hello.Some? then c.hello.value else "";
    Quiet(st.log, [if ok then Sent(text) else Failed(text)]);
    RestQuiet(Log(st, [Failed(text)]));
  }

  lemma StepTakes(c: Config, st: State, ev: Event)
    ensures Taken(Step(c, st, ev).log)
            == Taken(st.log) + if ev.Mcp? && st.open && st.phase != Greeting then [ev.msg] else []
    ensures !(st.phase == Session && ev.Relay? && (ev.frame.Inbound? || ev.frame.Verdict?)) ==>
              Offers(Step(c, st, ev).log) == Offers(st.log)
  {
    hide OnConnect, OnHello, OnFrame, OnMessage, Drain, Rest, Offers, Taken;
    match st.phase
    case Connecting => if ev.Connected? { ConnectQuiet(c, st, ev.ok); } else { DrainTakes(st, ev); }
    case Greeting => if ev.HelloSent? { HelloQuiet(c, st, ev.ok); }
    case Session =>
      match ev {
        case Relay(frame) => FrameOffers(c, st, frame);
        case Mcp(m, sent) => MessageTaken(st, m, sent);
        case McpClosed => RestQuiet(st.(open := false));
        case _ =>
      }
    case Sleeping =>
      if ev.Timer? {
        RestQuiet(st.(wait := Min(st.wait * 2, c.max)));
      } else {
        DrainTakes(st, ev);
      }
  }

  lemma {:induction false} RunOpen(c: Config, script: seq<Event>)
    ensures After(c, script).open <==> !HeardClosed(c, script)
  {
    if script != [] {
      RunOpen(c, script[..|script| - 1]);
    }
  }

  lemma StepOffers(c: Config, st: State, ev: Event)
    ensures var (notes, notes') := (Offers(st.log), Offers(Step(c, st, ev).log));
            if st.phase == Session && ev.Relay? && (ev.frame.Inbound? || ev.frame.Verdict?)
            then |notes'| == |notes| + 1 && notes'[..|notes|] == notes && Tells(ev.frame, notes'[|notes|])
            else notes' == notes
  {
    hide OnConnect, OnHello, OnFrame, OnMessage, Drain, Rest, Offers, Taken, Tells;
    StepTakes(c, st, ev);
    if st.phase == Session && ev.Relay? {
      FrameOffers(c, st, ev.frame);
    }
  }

  /** Claude is offered, in order and once, exactly the messages and verdicts that the
      relay sent into a session, field by field. */
  lemma {:induction false} FramesReachClaude(c: Config, script: seq<Event>)
    ensures AllTold(ReadFrames(c, script), Offers(After(c, script).log))
  {
    if script == [] {
      RestQuiet(State(Connecting, c.initial, true, []));
    } else {
      hide Step, Tells, Offers, Start;
      var before, ev := script[..|script| - 1], script[|script| - 1];
      FramesReachClaude(c, before);
      StepOffers(c, After(c, before), ev);
    }
  }

  /** The agent takes, in order, exactly the messages that MCP hands over outside the
      sending of Hello, until it hears that MCP is closed. */
  lemma {:induction false} MessagesAreRead(c: Config, script: seq<Event>)
    ensures Taken(After(c, script).log) == ReadMessages(c, script)
  {
    if script == [] {
      RestQuiet(State(Connecting, c.initial, true, []));
    } else {
      var before, ev := script[..|script| - 1], script[|script| - 1];
      MessagesAreRead(c, before);
      RunOpen(c, before);
      hide Step, Taken;
      StepTakes(c, After(c, before), ev);
    }
  }

  // --- when sessions begin and end ----------------------------------------------------

  /** The connection is lost or given up in `phase` at `ev`. */
  predicate GivesUp(c: Config, phase: Phase, open: bool, ev: Event) {
    match phase
    case Connecting => ev == Connected(false) || (ev == Connected(true) && c.hello == None)
    case Greeting => ev == HelloSent(false)
    case Session =>
      || ev in {Relay(Error), Relay(Broken), Relay(Ended), McpClosed}
      || (open && ev.Mcp? && ev.msg.json != None && !ev.sent)
    case Sleeping => false
  }

  /** An attempt that fails goes to sleep with the present wait; one that succeeds opens,
      greets and serves; a sleeper tries again, or sleeps again if there is no valid
      request; nothing else moves the loop. */
  ghost predicate Moves(c: Config, st: State, ev: Event, st': State) {
    if GivesUp(c, st.phase, st.open, ev) then
      st'.phase == Sleeping && st'.log != [] && st'.log[|st'.log| - 1] == Sleep(st.wait)
    else if st.phase == Connecting && ev == Connected(true) then
      st'.phase == Greeting && st'.log == st.log + [Opened]
    else if st.phase == Greeting && ev == HelloSent(true) then
      st'.phase == Session && (c.hello != None ==> st'.log == st.log + [Sent(c.hello.value)])
    else if st.phase == Sleeping && ev == Timer then
      if c.valid then st'.phase == Connecting && st'.log == st.log
      else st'.phase == Sleeping && st'.log == st.log + [Sleep(st'.wait)]
    else st'.phase == st.phase
  }

  lemma Lifecycle(c: Config, script: seq<Event>, ev: Event)
    ensures After(c, []).phase == if c.valid then Connecting else Sleeping
    ensures Moves(c, After(c, script), ev, After(c, script + [ev]))
  {
    var all := script + [ev];
    assert all[..|all| - 1] == script;
    StepMoves(c, After(c, script), ev);
    hide Moves, Step;
  }

  lemma StepMoves(c: Config, st: State, ev: Event)
    ensures Moves(c, st, ev, Step(c, st, ev))
  {
  }
}
