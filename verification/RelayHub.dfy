/** Who owns a name in the hub, and in what order frames leave: properties of every
    interleaving of the relay's handlers. */
module RelayHub {
  import opened Text
  import opened Permission
  import opened Verdict
  import Chunk
  import opened Relay

  // --- names ----------------------------------------------------------------

  /** The hub holds exactly the connections between `register` and `unregister`. */
  ghost predicate HubMatches(hub: map<string, nat>, conns: seq<Conn>) {
    && (forall n :: n in hub ==>
          hub[n] < |conns| && conns[hub[n]].name == n && InHub(conns[hub[n]].phase))
    && (forall k :: 0 <= k < |conns| && InHub(conns[k].phase) ==>
          conns[k].name in hub && hub[conns[k].name] == k)
  }

  ghost predicate LogMatchesConn(log: seq<Event>, k: nat, conn: Conn) {
    && (forall n :: ERegistered(k, n) in log <==> n == conn.name && (InHub(conn.phase) || conn.phase.Gone?))
    && (forall n :: EUnregistered(k, n) in log <==> n == conn.name && conn.phase.Gone?)
  }

  ghost predicate LogMatches(log: seq<Event>, conns: seq<Conn>) {
    && (forall k :: 0 <= k < |conns| ==> LogMatchesConn(log, k, conns[k]))
    && (forall k: nat, n :: k >= |conns| ==> ERegistered(k, n) !in log && EUnregistered(k, n) !in log)
  }

  ghost predicate HubInv(s: State) { HubMatches(s.hub, s.conns) && LogMatches(s.log, s.conns) }

  /** The same names in the same standing. */
  ghost predicate SameStanding(c: Conn, d: Conn) {
    c.name == d.name && (InHub(c.phase) <==> InHub(d.phase)) && (c.phase.Gone? <==> d.phase.Gone?)
  }

  ghost predicate NoRegistration(es: seq<Event>) {
    forall i :: 0 <= i < |es| ==> !es[i].ERegistered? && !es[i].EUnregistered?
  }

  lemma StandingKept(hub: map<string, nat>, log: seq<Event>, conns: seq<Conn>, conns': seq<Conn>, es: seq<Event>)
    requires HubMatches(hub, conns) && LogMatches(log, conns) && |conns'| == |conns| && NoRegistration(es)
    requires forall k :: 0 <= k < |conns| ==> SameStanding(conns[k], conns'[k])
    ensures HubMatches(hub, conns') && LogMatches(log + es, conns')
  {
    forall k: nat, n
      ensures ERegistered(k, n) in log + es <==> ERegistered(k, n) in log
      ensures EUnregistered(k, n) in log + es <==> EUnregistered(k, n) in log
    {
    }
    forall k | 0 <= k < |conns'|
      ensures LogMatchesConn(log + es, k, conns'[k])
    {
      assert LogMatchesConn(log, k, conns[k]) && SameStanding(conns[k], conns'[k]);
    }
  }

  lemma RegisterKeepsHub(hub: map<string, nat>, conns: seq<Conn>, k: nat, next: Conn)
    requires HubMatches(hub, conns)
    requires k < |conns| && !InHub(conns[k].phase) && InHub(next.phase) && next.name !in hub
    ensures HubMatches(hub[next.name := k], conns[k := next])
  {
  }

  lemma UnregisterKeepsHub(hub: map<string, nat>, conns: seq<Conn>, k: nat, next: Conn)
    requires HubMatches(hub, conns)
    requires k < |conns| && InHub(conns[k].phase) && !InHub(next.phase)
    ensures HubMatches(hub - {conns[k].name}, conns[k := next])
  {
  }

  lemma RegisterLogged(log: seq<Event>, conns: seq<Conn>, k: nat, next: Conn)
    requires LogMatches(log, conns)
    requires k < |conns| && conns[k].phase.Greeting? && next.phase.Admitted?
    ensures LogMatches(log + [ERegistered(k, next.name)], conns[k := next])
  {
    var log', conns' := log + [ERegistered(k, next.name)], conns[k := next];
    forall j | 0 <= j < |conns'|
      ensures LogMatchesConn(log', j, conns'[j])
    {
      assert LogMatchesConn(log, j, conns[j]);
    }
  }

  lemma UnregisterLogged(log: seq<Event>, conns: seq<Conn>, k: nat, next: Conn)
    requires LogMatches(log, conns)
    requires k < |conns| && conns[k].phase.Left? && next.phase.Gone? && next.name == conns[k].name
    ensures LogMatches(log + [EUnregistered(k, next.name)], conns[k := next])
  {
    var log', conns' := log + [EUnregistered(k, next.name)], conns[k := next];
    forall j | 0 <= j < |conns'|
      ensures LogMatchesConn(log', j, conns'[j])
    {
      assert LogMatchesConn(log, j, conns[j]);
    }
  }

  lemma TaskKeepsHub(s: State, st: Step)
    requires HubInv(s) && TaskStep(st) && Enabled(s, st)
    ensures HubInv(ApplyTask(s, st))
  {
    TaskStanding(s, st);
    StandingKept(s.hub, s.log, s.conns, TaskConns(s, s.tasks[st.t], st), TaskEvents(s, st.t, s.tasks[st.t], st));
  }

  lemma TaskStanding(s: State, st: Step)
    requires TaskStep(st) && Enabled(s, st)
    ensures NoRegistration(TaskEvents(s, st.t, s.tasks[st.t], st))
    ensures var conns' := TaskConns(s, s.tasks[st.t], st);
            |conns'| == |s.conns| && forall k :: 0 <= k < |s.conns| ==> SameStanding(s.conns[k], conns'[k])
  {
  }

  /** How one connection step touches the hub: it registers a free name, removes the
      connection's own name, or leaves the hub and the connection's standing alone. */
  lemma HubEffect(s: State, k: nat, conn: Conn, st: Step) returns (registers: bool)
    requires ConnStep(st) && ConnReady(s, conn, st)
    ensures var next, es := NextConn(s, conn, st), ConnEvents(s, k, conn, st);
            && (registers ==>
                  conn.phase.Greeting? && next.phase.Admitted? && next.name !in s.hub
                  && es == [ERegistered(k, next.name)] && ConnHub(s, k, conn, st) == s.hub[next.name := k])
            && (st.Unregister? ==>
                  !registers && conn.phase.Left? && next.phase.Gone? && next.name == conn.name
                  && es == [EUnregistered(k, conn.name)] && ConnHub(s, k, conn, st) == s.hub - {conn.name})
            && (!registers && !st.Unregister? ==>
                  SameStanding(conn, next) && ConnHub(s, k, conn, st) == s.hub && NoRegistration(es))
  {
    registers := st.Handshake? && Refusal(s.hub.Keys, st.first).None?;
  }

  lemma ConnKeepsHub(s: State, st: Step)
    requires HubInv(s) && ConnStep(st) && Enabled(s, st)
    ensures HubInv(ApplyConn(s, st))
  {
    hide NextConn, ConnEvents, ConnHub, ConnPending, HubMatches, LogMatches;
    hide ConnReady, NoRegistration;
    var conn := s.conns[st.k];
    var registers := HubEffect(s, st.k, conn, st);
    var next, es := NextConn(s, conn, st), ConnEvents(s, st.k, conn, st);
    if registers {
      RegisterKeepsHub(s.hub, s.conns, st.k, next);
      RegisterLogged(s.log, s.conns, st.k, next);
    } else if st.Unregister? {
      UnregisterKeepsHub(s.hub, s.conns, st.k, next);
      UnregisterLogged(s.log, s.conns, st.k, next);
    } else {
      StandingKept(s.hub, s.log, s.conns, s.conns[st.k := next], es);
    }
  }

  lemma StepKeepsHub(s: State, st: Step)
    requires HubInv(s) && Enabled(s, st)
    ensures HubInv(Apply(s, st))
  {
    if TaskStep(st) {
      TaskKeepsHub(s, st);
    } else if ConnStep(st) {
      ConnKeepsHub(s, st);
    } else {
      OtherKeepsHub(s, st);
    }
  }

  lemma OtherKeepsHub(s: State, st: Step)
    requires HubInv(s) && Enabled(s, st) && !TaskStep(st) && !ConnStep(st)
    ensures HubInv(Apply(s, st))
  {
    hide HubMatches, LogMatches;
    if st.Admit? {
      StandingKept(s.hub, s.log, s.conns, s.conns, [EAdmitted(st.user)]);
    } else if st.Connect? {
      ConnectKeepsHub(s.hub, s.log, s.conns);
    }
  }

  lemma ConnectKeepsHub(hub: map<string, nat>, log: seq<Event>, conns: seq<Conn>)
    requires HubMatches(hub, conns) && LogMatches(log, conns)
    ensures var conns' := conns + [Conn("", Greeting, [], [])];
            HubMatches(hub, conns') && LogMatches(log, conns')
  {
    var conns' := conns + [Conn("", Greeting, [], [])];
    forall j | 0 <= j < |conns'|
      ensures LogMatchesConn(log, j, conns'[j])
    {
      assert j < |conns| ==> LogMatchesConn(log, j, conns[j]);
    }
  }

  lemma {:induction false} RunKeepsHub(s0: State, steps: seq<Step>)
    requires Initial(s0) && Feasible(s0, steps)
    ensures HubInv(Run(s0, steps))
    decreases |steps|
  {
    if steps != [] {
      var before := steps[..|steps| - 1];
      RunKeepsHub(s0, before);
      StepKeepsHub(Run(s0, before), steps[|steps| - 1]);
    }
  }

  /** In every run the hub maps a name to a connection exactly when that connection has
      registered the name and not yet unregistered it; so a name has at most one owner,
      and a refused or failed handshake never touches it. */
  lemma HubIsRegistrations(s0: State, steps: seq<Step>, n: string, k: nat)
    requires Initial(s0) && Feasible(s0, steps)
    ensures var s := Run(s0, steps);
            n in s.hub && s.hub[n] == k <==> ERegistered(k, n) in s.log && EUnregistered(k, n) !in s.log
  {
    hide InHub;
    RunKeepsHub(s0, steps);
    var s := Run(s0, steps);
    if k < |s.conns| {
      assert LogMatchesConn(s.log, k, s.conns[k]);
      GoneNotInHub(s.conns[k].phase);
    }
  }

  /** Only the connection that owns a name gives it up: a rejected duplicate, a failed
      handshake or anything else leaves the incumbent where it is. */
  lemma IncumbentStays(s0: State, steps: seq<Step>, st: Step, n: string)
    requires Initial(s0) && Feasible(s0, steps) && Enabled(Run(s0, steps), st) && n in Run(s0, steps).hub
    ensures var s := Run(s0, steps);
            st == Unregister(s.hub[n]) || (n in Apply(s, st).hub && Apply(s, st).hub[n] == s.hub[n])
  {
    hide LogMatches, NextConn, ConnEvents, ConnPending, NextTask, TaskEvents, TaskOrder, TaskPending, TaskBindings,
      TaskConns, Run, Feasible, LatestIs, ValidSessionName, Padded;
    RunKeepsHub(s0, steps);
  }

  lemma GoneNotInHub(p: Phase)
    ensures !(InHub(p) && p.Gone?)
  {
  }

  // --- frames ---------------------------------------------------------------

  /** The messages put on the queue of connection `k`, in order. */
  function Queued(log: seq<Event>, k: nat): (q: seq<RelayMsg>) {
    if log == [] then []
    else
      var q, e := Queued(log[..|log| - 1], k), log[|log| - 1];
      if e.EQueued? && e.conn == k then q + [e.msg] else q
  }

  /** The frames connection `k` has written to its socket, in order. */
  function Frames(log: seq<Event>, k: nat): (f: seq<RelayMsg>) {
    if log == [] then []
    else
      var f, e := Frames(log[..|log| - 1], k), log[|log| - 1];
      if e.EFrame? && e.conn == k then f + [e.msg] else f
  }

  lemma {:induction false} HistoryAppend(log: seq<Event>, es: seq<Event>, k: nat)
    ensures Queued(log + es, k) == Queued(log, k) + Queued(es, k)
    ensures Frames(log + es, k) == Frames(log, k) + Frames(es, k)
    decreases |es|
  {
    if es == [] {
      assert log + es == log;
    } else {
      HistoryAppend(log, es[..|es| - 1], k);
      assert (log + es)[..|log + es| - 1] == log + es[..|es| - 1];
    }
  }

  function InFlight(p: Phase): seq<RelayMsg> { if p.Sending? then [p.msg] else [] }

  /** What has been queued is what was sent, is on its way, still waits, or was lost when
      the receiver was dropped. */
  ghost predicate Conserved(queued: seq<RelayMsg>, frames: seq<RelayMsg>, conn: Conn) {
    match conn.phase
    case Greeting => queued == [] && frames == [] && conn.queue == [] && conn.lost == []
    case Rejecting(_) => queued == [] && frames == [] && conn.queue == [] && conn.lost == []
    case Refused => queued == [] && |frames| <= 1 && (frames != [] ==> frames[0].Error?)
                    && conn.queue == [] && conn.lost == []
    case Admitted => frames == [] && conn.lost == [] && queued == conn.queue
    case Left => Departed(queued, frames, conn)
    case Gone => Departed(queued, frames, conn)
    case _ => frames != [] && frames[0] == Welcome(conn.name) && conn.lost == []
              && queued == frames[1..] + (InFlight(conn.phase) + conn.queue)
  }

  ghost predicate Departed(queued: seq<RelayMsg>, frames: seq<RelayMsg>, conn: Conn) {
    && conn.queue == []
    && (frames == [] ==> queued == conn.lost)
    && (frames != [] ==> frames[0] == Welcome(conn.name) && queued == frames[1..] + conn.lost)
  }

  ghost predicate FramesMatch(log: seq<Event>, conns: seq<Conn>) {
    && (forall k :: 0 <= k < |conns| ==>
          Conserved(Queued(log, k), Frames(log, k), conns[k]) && |conns[k].queue| <= QUEUE_SIZE)
    && (forall k: nat :: k >= |conns| ==> Queued(log, k) == [] && Frames(log, k) == [])
  }

  ghost predicate FramesInv(s: State) { FramesMatch(s.log, s.conns) }

  /** The events say nothing about the queue and socket of any connection but `k`. */
  ghost predicate ConcernsOnly(es: seq<Event>, k: nat) {
    forall j: nat :: j != k ==> Queued(es, j) == [] && Frames(es, j) == []
  }

  lemma FramesKept(log: seq<Event>, conns: seq<Conn>, es: seq<Event>, k: nat, next: Conn)
    requires FramesMatch(log, conns) && k < |conns| && ConcernsOnly(es, k)
    requires Conserved(Queued(log, k) + Queued(es, k), Frames(log, k) + Frames(es, k), next)
    requires |next.queue| <= QUEUE_SIZE
    ensures FramesMatch(log + es, conns[k := next])
  {
    hide Conserved, Queued, Frames;
    HistoryAppend(log, es, k);
    forall j: nat | j != k
      ensures Queued(log + es, j) == Queued(log, j) && Frames(log + es, j) == Frames(log, j)
    {
      HistoryAppend(log, es, j);
    }
  }

  lemma SilentKept(log: seq<Event>, conns: seq<Conn>, es: seq<Event>)
    requires FramesMatch(log, conns)
    requires forall j: nat :: Queued(es, j) == [] && Frames(es, j) == []
    ensures FramesMatch(log + es, conns)
  {
    hide Conserved, Queued, Frames;
    forall j: nat
      ensures Queued(log + es, j) == Queued(log, j) && Frames(log + es, j) == Frames(log, j)
    {
      HistoryAppend(log, es, j);
    }
  }

  /** The part of a connection step that the frame history sees. */
  ghost predicate ConservesStep(s: State, k: nat, conn: Conn, st: Step, queued: seq<RelayMsg>, frames: seq<RelayMsg>)
    requires ConnStep(st) && ConnReady(s, conn, st)
  {
    var es, next := ConnEvents(s, k, conn, st), NextConn(s, conn, st);
    && ConcernsOnly(es, k) && Queued(es, k) == []
    && Conserved(queued, frames + Frames(es, k), next)
    && |next.queue| <= |conn.queue|
  }

  lemma OneEvent(e: Event, k: nat)
    ensures Queued([e], k) == if e.EQueued? && e.conn == k then [e.msg] else []
    ensures Frames([e], k) == if e.EFrame? && e.conn == k then [e.msg] else []
  {
    assert [e][..0] == [];
  }

  /** No frame, or one frame of `k`. */
  lemma ConcernsOf(es: seq<Event>, k: nat)
    requires es == [] || (|es| == 1 && !es[0].EQueued? && (es[0].EFrame? ==> es[0].conn == k))
    ensures ConcernsOnly(es, k) && Queued(es, k) == []
    ensures Frames(es, k) == if es != [] && es[0].EFrame? then [es[0].msg] else []
  {
    if es != [] {
      forall j: nat
        ensures Queued(es, j) == [] && Frames(es, j) == if es[0].EFrame? && j == k then [es[0].msg] else []
      {
        OneEvent(es[0], j);
        assert es == [es[0]];
      }
    }
  }

  lemma ConnStepConserves(s: State, k: nat, conn: Conn, st: Step, queued: seq<RelayMsg>, frames: seq<RelayMsg>)
    requires ConnStep(st) && ConnReady(s, conn, st) && Conserved(queued, frames, conn)
    ensures ConservesStep(s, k, conn, st, queued, frames)
  {
    if st.Handshake? || st.Reject? {
      GreetingConserves(s, k, conn, st, queued, frames);
    } else if st.SendWelcome? || st.Hangup? || st.Unregister? {
      SocketConserves(s, k, conn, st, queued, frames);
    } else if st.Take? || st.Send? {
      ForwardConserves(s, k, conn, st, queued, frames);
    } else if st.Request? || st.Reply? {
      RequestConserves(s, k, conn, st, queued, frames);
    } else {
      PostConserves(s, k, conn, st, queued, frames);
    }
  }

  lemma GreetingConserves(s: State, k: nat, conn: Conn, st: Step, queued: seq<RelayMsg>, frames: seq<RelayMsg>)
    requires ConnStep(st) && ConnReady(s, conn, st) && Conserved(queued, frames, conn)
    requires st.Handshake? || st.Reject?
    ensures ConservesStep(s, k, conn, st, queued, frames)
  {
    hide Queued, Frames, ConcernsOnly, LatestIs, SplitOnce, Chunk.Pieces, Chunk.Destination, PromptText, Refusal;
    ConcernsOf(ConnEvents(s, k, conn, st), k);
  }

  lemma SocketConserves(s: State, k: nat, conn: Conn, st: Step, queued: seq<RelayMsg>, frames: seq<RelayMsg>)
    requires ConnStep(st) && ConnReady(s, conn, st) && Conserved(queued, frames, conn)
    requires st.SendWelcome? || st.Hangup? || st.Unregister?
    ensures ConservesStep(s, k, conn, st, queued, frames)
  {
    hide Queued, Frames, ConcernsOnly, LatestIs, SplitOnce, Chunk.Pieces, Chunk.Destination, PromptText, Refusal;
    ConcernsOf(ConnEvents(s, k, conn, st), k);
    assert frames + [] == frames;
    assert frames == [] ==> (frames + [Welcome(conn.name)])[1..] == [];
  }

  lemma ForwardConserves(s: State, k: nat, conn: Conn, st: Step, queued: seq<RelayMsg>, frames: seq<RelayMsg>)
    requires ConnStep(st) && ConnReady(s, conn, st) && Conserved(queued, frames, conn)
    requires st.Take? || st.Send?
    ensures ConservesStep(s, k, conn, st, queued, frames)
  {
    hide Queued, Frames, ConcernsOnly, LatestIs, SplitOnce, Chunk.Pieces, Chunk.Destination, PromptText, Refusal;
    ConcernsOf(ConnEvents(s, k, conn, st), k);
    if st.Take? {
      assert conn.queue == [conn.queue[0]] + conn.queue[1..];
      assert frames + [] == frames;
    } else {
      SentOrLost(queued, frames, conn);
    }
  }

  /** A message in flight either joins the frames or heads the losses. */
  lemma SentOrLost(queued: seq<RelayMsg>, frames: seq<RelayMsg>, conn: Conn)
    requires conn.phase.Sending? && Conserved(queued, frames, conn)
    ensures Conserved(queued, frames + [conn.phase.msg], conn.(phase := Serving))
    ensures Conserved(queued, frames + [], Leave(conn, [conn.phase.msg]))
  {
    assert (frames + [conn.phase.msg])[1..] == frames[1..] + [conn.phase.msg];
    assert frames + [] == frames;
  }

  lemma RequestConserves(s: State, k: nat, conn: Conn, st: Step, queued: seq<RelayMsg>, frames: seq<RelayMsg>)
    requires ConnStep(st) && ConnReady(s, conn, st) && Conserved(queued, frames, conn)
    requires st.Request? || st.Reply?
    ensures ConservesStep(s, k, conn, st, queued, frames)
  {
    hide Queued, Frames, ConcernsOnly, LatestIs, SplitOnce, Chunk.Pieces, Chunk.Destination, PromptText, Refusal;
    ConcernsOf(ConnEvents(s, k, conn, st), k);
    assert frames + [] == frames;
  }

  lemma PostConserves(s: State, k: nat, conn: Conn, st: Step, queued: seq<RelayMsg>, frames: seq<RelayMsg>)
    requires ConnStep(st) && ConnReady(s, conn, st) && Conserved(queued, frames, conn)
    requires st.PostPrompt? || st.Withdraw? || st.PostPiece?
    ensures ConservesStep(s, k, conn, st, queued, frames)
  {
    hide Queued, Frames, ConcernsOnly, LatestIs, SplitOnce, Chunk.Pieces, Chunk.Destination, PromptText, Refusal;
    ConcernsOf(ConnEvents(s, k, conn, st), k);
    assert frames + [] == frames;
  }

  lemma EnqueueConserves(conn: Conn, msg: RelayMsg, queued: seq<RelayMsg>, frames: seq<RelayMsg>)
    requires Conserved(queued, frames, conn) && Receiving(conn.phase)
    ensures Conserved(queued + [msg], frames, conn.(queue := conn.queue + [msg]))
  {
  }

  lemma TaskKeepsFrames(s: State, st: Step)
    requires FramesInv(s) && TaskStep(st) && Enabled(s, st)
    ensures FramesInv(ApplyTask(s, st))
  {
    var task := s.tasks[st.t];
    var es := TaskEvents(s, st.t, task, st);
    hide Queued, Frames, Conserved, FramesMatch;
    if st.Enqueue? && Receiving(s.conns[task.conn].phase) {
      EnqueueKeepsFrames(s.log, s.conns, st.t, task);
    } else {
      TaskSilent(s, st);
      SilentKept(s.log, s.conns, es);
    }
  }

  lemma EnqueueKeepsFrames(log: seq<Event>, conns: seq<Conn>, t: nat, task: Task)
    requires FramesMatch(log, conns) && task.Enqueuing? && task.conn < |conns|
    requires Receiving(conns[task.conn].phase) && |conns[task.conn].queue| < QUEUE_SIZE
    ensures FramesMatch(log + [EQueued(t, task.eventId, task.conn, task.session, task.msg)],
                        conns[task.conn := conns[task.conn].(queue := conns[task.conn].queue + [task.msg])])
  {
    var k, e := task.conn, EQueued(t, task.eventId, task.conn, task.session, task.msg);
    EnqueueConserves(conns[k], task.msg, Queued(log, k), Frames(log, k));
    forall j: nat
      ensures Queued([e], j) == (if j == k then [task.msg] else []) && Frames([e], j) == []
    {
      OneEvent(e, j);
    }
    hide Queued, Frames, Conserved, Receiving;
    assert Frames(log, k) + [] == Frames(log, k);
    FramesKept(log, conns, [e], k, conns[k].(queue := conns[k].queue + [task.msg]));
  }

  lemma TaskSilent(s: State, st: Step)
    requires TaskStep(st) && Enabled(s, st)
    requires !(st.Enqueue? && Receiving(s.conns[s.tasks[st.t].conn].phase))
    ensures forall j: nat ::
              Queued(TaskEvents(s, st.t, s.tasks[st.t], st), j) == [] && Frames(TaskEvents(s, st.t, s.tasks[st.t], st), j) == []
    ensures TaskConns(s, s.tasks[st.t], st) == s.conns
  {
    var es := TaskEvents(s, st.t, s.tasks[st.t], st);
    assert |es| <= 1 && (es != [] ==> !es[0].EQueued? && !es[0].EFrame?);
    forall j: nat
      ensures Queued(es, j) == [] && Frames(es, j) == []
    {
      ConcernsOf(es, j);
    }
  }

  lemma ConnKeepsFrames(s: State, st: Step)
    requires FramesInv(s) && ConnStep(st) && Enabled(s, st)
    ensures FramesInv(ApplyConn(s, st))
  {
    hide NextConn, ConnEvents, ConnHub, ConnPending, ConnReady, Conserved, Queued, Frames;
    var conn, es := s.conns[st.k], ConnEvents(s, st.k, s.conns[st.k], st);
    ConnStepConserves(s, st.k, conn, st, Queued(s.log, st.k), Frames(s.log, st.k));
    assert Queued(s.log, st.k) + Queued(es, st.k) == Queued(s.log, st.k);
    FramesKept(s.log, s.conns, es, st.k, NextConn(s, conn, st));
  }

  lemma StepKeepsFrames(s: State, st: Step)
    requires FramesInv(s) && Enabled(s, st)
    ensures FramesInv(Apply(s, st))
  {
    if TaskStep(st) {
      TaskKeepsFrames(s, st);
    } else if ConnStep(st) {
      ConnKeepsFrames(s, st);
    } else if st.Admit? {
      forall j: nat
        ensures Queued([EAdmitted(st.user)], j) == [] && Frames([EAdmitted(st.user)], j) == []
      {
        OneEvent(EAdmitted(st.user), j);
      }
      SilentKept(s.log, s.conns, [EAdmitted(st.user)]);
    }
  }

  lemma {:induction false} RunKeepsFrames(s0: State, steps: seq<Step>)
    requires Initial(s0) && Feasible(s0, steps)
    ensures FramesInv(Run(s0, steps))
    decreases |steps|
  {
    if steps != [] {
      var before := steps[..|steps| - 1];
      RunKeepsFrames(s0, before);
      StepKeepsFrames(Run(s0, before), steps[|steps| - 1]);
    }
  }

  /** What the invariant means for one connection. */
  ghost predicate Fifo(queued: seq<RelayMsg>, frames: seq<RelayMsg>, conn: Conn) {
    && (frames == [] || (|frames| == 1 && frames[0].Error? && queued == [])
        || (frames[0] == Welcome(conn.name) && frames[1..] <= queued))
    && (conn.phase.Refused? ||
        queued == (if frames == [] then [] else frames[1..]) + (InFlight(conn.phase) + (conn.queue + conn.lost)))
    && (Receiving(conn.phase) ==> conn.lost == [])
  }

  lemma ConservedIsFifo(queued: seq<RelayMsg>, frames: seq<RelayMsg>, conn: Conn)
    requires Conserved(queued, frames, conn)
    ensures Fifo(queued, frames, conn)
  {
    var rest := InFlight(conn.phase) + (conn.queue + conn.lost);
    assert conn.lost == [] ==> rest == InFlight(conn.phase) + conn.queue;
    assert conn.queue == [] && InFlight(conn.phase) == [] ==> rest == conn.lost;
  }

  /** On every connection, in every run: what goes out is nothing, one Error, or Welcome
      followed by a prefix of the queued messages, in order; and every queued message is
      sent, in flight, waiting, or lost when the receiver was dropped. */
  lemma FramesAreFifo(s0: State, steps: seq<Step>, k: nat)
    requires Initial(s0) && Feasible(s0, steps) && k < |Run(s0, steps).conns|
    ensures var s := Run(s0, steps); Fifo(Queued(s.log, k), Frames(s.log, k), s.conns[k])
  {
    hide Fifo, Conserved;
    RunKeepsFrames(s0, steps);
    var s := Run(s0, steps);
    ConservedIsFifo(Queued(s.log, k), Frames(s.log, k), s.conns[k]);
  }
}
