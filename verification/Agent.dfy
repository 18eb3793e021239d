/** `crates/agent/src/ws.rs`: the reconnect loop. A run is driven by a script that says, in
    order, how the agent's awaits complete; the loop logs everything it does. */
module Agent {
  import opened Wrappers
  import V = Verdict

  /** A message from MCP, with its JSON text if it can be serialised. */
  datatype AgentMsg = AgentMsg(kind: string, json: Option<string>)

  /** What `ws.next()` may yield. */
  datatype Frame =
    | Welcome
    | Inbound(chatId: string, user: string, text: string)
    | Verdict(requestId: string, behavior: V.Behavior)
    | Error
    | Unparsed
    | NotText
    | Broken
    | Ended

  /** The parameters of a JSON-RPC notification to Claude. */
  datatype Notification =
    | ChannelNote(content: string, chatId: string, user: string)
    | PermissionNote(requestId: string, behavior: string)

  /** The completion of an await. The awaits of one moment race; one that nobody awaits
      does not happen. */
  datatype Event =
    | Connected(ok: bool)
    | HelloSent(ok: bool)
    | Relay(frame: Frame)
    /** A message is received from MCP; `sent` says whether the socket would take it. */
    | Mcp(msg: AgentMsg, sent: bool)
    /** The MCP side is closed and empty. */
    | McpClosed
    | Timer

  datatype Action =
    | Opened
    | Took(msg: AgentMsg)
    | Dropped(msg: AgentMsg)
    | Sent(text: string)
    | Failed(text: string)
    | Heard(frame: Frame)
    /** Offered to standard output; whether that was taken is ignored. */
    | Offered(note: Notification)
    | Sleep(wait: nat)

  datatype Config = Config(
    initial: nat,
    max: nat,
    /** Whether the url and the token make a valid request. */
    valid: bool,
    hello: Option<string>
  )

  datatype Phase = Connecting | Greeting | Session | Sleeping

  datatype State = State(phase: Phase, wait: nat, open: bool, log: seq<Action>)

  function ChannelNotification(chatId: string, user: string, text: string): Notification {
    ChannelNote(text, chatId, user)
  }

  function PermissionNotification(requestId: string, behavior: V.Behavior): Notification {
    PermissionNote(requestId, if behavior == V.Allow then "allow" else "deny")
  }

  function Min(a: nat, b: nat): nat { if a <= b then a else b }

  function Log(st: State, actions: seq<Action>): State {
    st.(log := st.log + actions)
  }

  function Rest(st: State): State {
    Log(st, [Sleep(st.wait)]).(phase := Sleeping)
  }

  /** The top of the outer loop. */
  function Attempt(c: Config, st: State): State {
    if c.valid then st.(phase := Connecting) else Rest(st)
  }

  function Start(c: Config): State {
    Attempt(c, State(Connecting, c.initial, true, []))
  }

  /** One event of `drain_while` other than the awaited one. */
  function Drain(st: State, ev: Event): State {
    match ev
    case Mcp(m, _) => if st.open then Log(st, [Took(m), Dropped(m)]) else st
    case McpClosed => st.(open := false)
    case _ => st
  }

  function OnFrame(c: Config, st: State, frame: Frame): State {
    var heard := Log(st, [Heard(frame)]);
    match frame
    case Welcome => heard.(wait := c.initial)
    case Inbound(chatId, user, text) => Log(heard, [Offered(ChannelNotification(chatId, user, text))])
    case Verdict(id, behavior) => Log(heard, [Offered(PermissionNotification(id, behavior))])
    case Unparsed => heard
    case NotText => heard
    case _ => Rest(heard)
  }

  function OnMessage(st: State, m: AgentMsg, sent: bool): State {
    var took := Log(st, [Took(m)]);
    if m.json.None? then took
    else if sent then Log(took, [Sent(m.json.value)])
    else Rest(Log(took, [Failed(m.json.value)]))
  }

  function OnConnect(c: Config, st: State, ok: bool): State {
    if !ok then Rest(st)
    else if c.hello.None? then Rest(Log(st, [Opened]))
    else Log(st, [Opened]).(phase := Greeting)
  }

  function OnHello(c: Config, st: State, ok: bool): State {
    var text := if c.hello.Some? then c.hello.value else "";
    if ok then Log(st, [Sent(text)]).(phase := Session) else Rest(Log(st, [Failed(text)]))
  }

  function InSession(c: Config, st: State, ev: Event): State {
    match ev
    case Relay(frame) => OnFrame(c, st, frame)
    case Mcp(m, sent) => if st.open then OnMessage(st, m, sent) else st
    case McpClosed => Rest(st.(open := false))
    case _ => st
  }

  function Step(c: Config, st: State, ev: Event): State {
    match st.phase
    case Connecting => if ev.Connected? then OnConnect(c, st, ev.ok) else Drain(st, ev)
    case Greeting => if ev.HelloSent? then OnHello(c, st, ev.ok) else st
    case Session => InSession(c, st, ev)
    case Sleeping => if ev.Timer? then Attempt(c, st.(wait := Min(st.wait * 2, c.max))) else Drain(st, ev)
  }

  function After(c: Config, script: seq<Event>): State {
    if script == [] then Start(c)
    else Step(c, After(c, script[..|script| - 1]), script[|script| - 1])
  }

  lemma AfterNext(c: Config, script: seq<Event>, i: nat)
    requires i < |script|
    ensures After(c, script[..i + 1]) == Step(c, After(c, script[..i]), script[i])
  {
    assert script[..i + 1][..i] == script[..i];
  }

  /** The loop at work: the script read so far and the variables of `run`. */
  class Loop {
    const config: Config
    const script: seq<Event>
    var done: nat
    var wait: nat
    /** Whether MCP can still deliver. */
    var open: bool
    var log: seq<Action>

    constructor (config: Config, script: seq<Event>)
      ensures this.config == config && this.script == script
      ensures done == 0 && wait == config.initial && open && log == []
    {
      this.config, this.script := config, script;
      done, wait, open, log := 0, config.initial, true, [];
    }

    ghost function At(phase: Phase): State
      reads this
    {
      State(phase, wait, open, log)
    }

    /** The variables are what the script makes of them. */
    ghost predicate Follows(phase: Phase)
      reads this
    {
      done <= |script| && After(config, script[..done]) == At(phase)
    }

    /** `drain_while`: drops what MCP sends until the awaited event comes. */
    method DrainWhile(phase: Phase) returns (out: Option<Event>)
      requires phase == Connecting || phase == Sleeping
      requires Follows(phase)
      modifies this`done, this`open, this`log
      ensures out.None? ==> done == |script| && Follows(phase)
      ensures out.Some? ==>
                && old(done) < done <= |script| && out.value == script[done - 1]
                && (if phase == Connecting then out.value.Connected? else out.value.Timer?)
                && After(config, script[..done]) == Step(config, At(phase), out.value)
    {
      while done < |script|
        invariant old(done) <= done && Follows(phase)
      {
        AfterNext(config, script, done);
        var ev := script[done];
        done := done + 1;
        if if phase == Connecting then ev.Connected? else ev.Timer? {
          return Some(ev);
        }
        match ev {
          case Mcp(m, _) =>
            if open {
              log := log + [Took(m), Dropped(m)];
            }
          case McpClosed =>
            open := false;
          case _ =>
        }
      }
      out := None;
    }

    /** Sleeps, draining, then doubles the wait. */
    method BackOff() returns (woke: bool)
      requires done <= |script| && After(config, script[..done]) == Rest(At(Sleeping))
      modifies this`done, this`open, this`log, this`wait
      ensures !woke ==> done == |script| && Follows(Sleeping)
      ensures woke ==> old(done) < done <= |script|
                       && After(config, script[..done]) == Attempt(config, At(Connecting))
    {
      log := log + [Sleep(wait)];
      var out := DrainWhile(Sleeping);
      if out.None? {
        return false;
      }
      wait := Min(wait * 2, config.max);
      woke := true;
    }

    /** The socket takes Hello, or fails; nothing else is awaited. */
    method Greet() returns (out: Option<bool>)
      requires Follows(Greeting)
      modifies this`done
      ensures out.None? ==> done == |script| && Follows(Greeting)
      ensures out.Some? ==>
                && old(done) < done <= |script|
                && After(config, script[..done]) == OnHello(config, At(Greeting), out.value)
    {
      while done < |script|
        invariant old(done) <= done && Follows(Greeting)
      {
        AfterNext(config, script, done);
        var ev := script[done];
        done := done + 1;
        if ev.HelloSent? {
          return Some(ev.ok);
        }
      }
      out := None;
    }

    /** `'session`: forwards both ways until the connection or the MCP side ends. */
    method Serve() returns (ended: bool)
      requires Follows(Session)
      modifies this`done, this`open, this`log, this`wait
      ensures !ended ==> done == |script| && Follows(Session)
      ensures ended ==> old(done) < done <= |script|
                        && After(config, script[..done]) == Rest(At(Sleeping))
    {
      hide Attempt, Drain, OnConnect, OnHello, After;
      while done < |script|
        invariant old(done) <= done && Follows(Session)
      {
        AfterNext(config, script, done);
        var ev := script[done];
        done := done + 1;
        match ev {
          case Relay(frame) =>
            log := log + [Heard(frame)];
            match frame {
              case Welcome => wait := config.initial;
              case Inbound(chatId, user, text) => log := log + [Offered(ChannelNotification(chatId, user, text))];
              case Verdict(id, behavior) => log := log + [Offered(PermissionNotification(id, behavior))];
              case Unparsed =>
              case NotText =>
              case _ => return true;
            }
          case Mcp(m, sent) =>
            if open {
              log := log + [Took(m)];
              if m.json.Some? {
                if !sent {
                  log := log + [Failed(m.json.value)];
                  return true;
                }
                log := log + [Sent(m.json.value)];
              }
            }
          case McpClosed =>
            open := false;
            return true;
          case _ =>
        }
      }
      ended := false;
    }

    /** Connects and greets: up to the session, or to a failure that is followed by a backoff. */
    method Connect() returns (up: Option<bool>)
      requires Follows(Connecting)
      modifies this`done, this`open, this`log
      ensures up.None? ==> done == |script| && After(config, script).log == log && After(config, script).wait == wait
      ensures up.Some? ==> old(done) < done <= |script|
                           && After(config, script[..done]) == if up.value then At(Session) else Rest(At(Sleeping))
    {
      hide After, Drain, InSession, Attempt;
      var out := DrainWhile(Connecting);
      if out.None? {
        assert script[..done] == script;
        return None;
      }
      if !out.value.ok {
        return Some(false);
      }
      log := log + [Opened];
      if config.hello.None? {
        return Some(false);
      }
      var greeted := Greet();
      if greeted.None? {
        assert script[..done] == script;
        return None;
      }
      log := log + [if greeted.value then Sent(config.hello.value) else Failed(config.hello.value)];
      up := greeted;
    }

    /** `run`, observed until the script ends: it does exactly what the step function says. */
    method Run()
      requires done == 0 && wait == config.initial && open && log == []
      modifies this
      ensures log == After(config, script).log
      ensures wait == After(config, script).wait
    {
      assert script[..0] == [];
      assert After(config, script[..0]) == Attempt(config, At(Connecting));
      hide After;
      while true
        invariant done <= |script| && After(config, script[..done]) == Attempt(config, At(Connecting))
        decreases |script| - done
      {
        var awake;
        if !config.valid {
          awake := BackOff();
          if !awake { break; }
          continue;
        }
        var up := Connect();
        if up.None? { return; }
        if !up.value {
          awake := BackOff();
          if !awake { break; }
          continue;
        }
        var ended := Serve();
        if !ended { break; }
        awake := BackOff();
        if !awake { break; }
      }
      assert script[..done] == script;
    }
  }
}
