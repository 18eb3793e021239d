/** A schedule in which two handlers race in the sense of `RelayAnswers.Races`: two answers
    to one prompt, the second matched before the first is removed, and both delivered. */
module RelayRace {
  import opened Wrappers
  import opened Text
  import opened Verdict
  import opened Permission
  import opened Relay
  import opened Counting
  import opened RelayCounts
  import Chunk
  import Dedupe

  const ID: string := "abcde"
  const THREAD: Binding := Binding("s", "U", 0)
  const REQUEST: Pending := Pending("C:1", "s", 0)
  const ANSWER: Candidate := Candidate("C:1", "C", "1", "U", YesAnswer(ID))
  const VERDICT: RelayMsg := PermissionVerdict(ID, Allow)

  const S0: State := State([], ["U"], map["C:1" := THREAD], map[], map[], [], [], [])

  lemma Extend(s0: State, steps: seq<Step>, st: Step)
    requires Feasible(s0, steps) && Enabled(Run(s0, steps), st)
    ensures Feasible(s0, steps + [st]) && Run(s0, steps + [st]) == Apply(Run(s0, steps), st)
  {
    assert (steps + [st])[..|steps + [st]| - 1] == steps;
  }

  lemma AnswerParses()
    ensures ParseVerdict(ANSWER.text) == Some((ID, Allow))
  {
    hide ParseVerdict, YesAnswer;
    assert WellFormedId("abcde");
    QuotedAnswers(ID);
  }

  /** One agent is connected and has asked; two deliveries are being handled. */
  ghost predicate Stage(s: State, first: Task, second: Task, order: seq<string>, pending: map<string, Pending>, queued: nat) {
    && s.users == ["U"] && s.bindings == map["C:1" := THREAD] && s.hub == map["s" := 0]
    && s.tasks == [first, second] && s.order == order && s.pending == pending
    && |s.conns| == 1 && Receiving(s.conns[0].phase) && |s.conns[0].queue| == queued
    && Count(s.log, InsertOf(ID)) == 1 && Count(s.log, VerdictOf(ID)) == queued
  }

  lemma Asked() returns (steps: seq<Step>)
    ensures Feasible(S0, steps)
    ensures var s := Run(S0, steps);
            && s.users == ["U"] && s.bindings == map["C:1" := THREAD] && s.hub == map["s" := 0]
            && s.tasks == [] && s.order == [] && s.pending == map[ID := REQUEST]
            && |s.conns| == 1 && Receiving(s.conns[0].phase) && s.conns[0].queue == []
            && s.log == [ERegistered(0, "s")] + [EFrame(0, Welcome("s"))] + [EInserted(0, "s", ID, "C:1", 0)]
  {
    hide Enabled, Apply;
    var request := Request(0, ID, "", "", "", 0, Some("C:1"));
    steps := [];
    assert Feasible(S0, steps) && Run(S0, steps) == S0;
    hide Feasible, Run;
    ConnectStep();
    Extend(S0, steps, Connect);
    steps := steps + [Connect];
    HandshakeStep(Run(S0, steps));
    Extend(S0, steps, Handshake(0, Hello(1, "s")));
    steps := steps + [Handshake(0, Hello(1, "s"))];
    WelcomeStep(Run(S0, steps));
    Extend(S0, steps, SendWelcome(0, true));
    steps := steps + [SendWelcome(0, true)];
    RequestStep(Run(S0, steps), request);
    Extend(S0, steps, request);
    steps := steps + [request];
  }

  lemma ConnectStep()
    ensures Enabled(S0, Connect) && Apply(S0, Connect) == S0.(conns := [Conn("", Greeting, [], [])])
  {
  }

  lemma HandshakeStep(s: State)
    requires s == S0.(conns := [Conn("", Greeting, [], [])])
    ensures Enabled(s, Handshake(0, Hello(1, "s")))
    ensures Apply(s, Handshake(0, Hello(1, "s")))
            == s.(hub := map["s" := 0], conns := [Conn("s", Admitted, [], [])], log := [ERegistered(0, "s")])
  {
    assert ValidSessionName("s");
  }

  lemma WelcomeStep(s: State)
    requires s.conns == [Conn("s", Admitted, [], [])]
    ensures Enabled(s, SendWelcome(0, true))
    ensures Apply(s, SendWelcome(0, true))
            == s.(conns := [Conn("s", Serving, [], [])], log := s.log + [EFrame(0, Welcome("s"))])
  {
  }

  lemma RequestStep(s: State, st: Step)
    requires st == Request(0, ID, "", "", "", 0, Some("C:1"))
    requires s.conns == [Conn("s", Serving, [], [])] && s.bindings == map["C:1" := THREAD] && s.pending == map[]
    ensures Enabled(s, st)
    ensures var s' := Apply(s, st);
            && s'.users == s.users && s'.bindings == s.bindings && s'.hub == s.hub && s'.tasks == s.tasks
            && s'.order == s.order && s'.pending == map[ID := REQUEST] && |s'.conns| == 1
            && Receiving(s'.conns[0].phase) && s'.conns[0].queue == []
            && s'.log == s.log + [EInserted(0, "s", ID, "C:1", 0)]
  {
    hide Chunk.Pieces, PromptText, SplitOnce;
  }

  lemma CountsOf(log: seq<Event>)
    requires log == [ERegistered(0, "s")] + [EFrame(0, Welcome("s"))] + [EInserted(0, "s", ID, "C:1", 0)]
    ensures Count(log, InsertOf(ID)) == 1 && Count(log, VerdictOf(ID)) == 0
  {
    hide Count;
    var a, b, c := ERegistered(0, "s"), EFrame(0, Welcome("s")), EInserted(0, "s", ID, "C:1", 0);
    CountConcat([a] + [b], [c], InsertOf(ID));
    CountConcat([a], [b], InsertOf(ID));
    CountConcat([a] + [b], [c], VerdictOf(ID));
    CountConcat([a], [b], VerdictOf(ID));
    CountOne(a, InsertOf(ID));
    CountOne(b, InsertOf(ID));
    CountOne(c, InsertOf(ID));
    CountOne(a, VerdictOf(ID));
    CountOne(b, VerdictOf(ID));
    CountOne(c, VerdictOf(ID));
  }

  function Set(first: Task, second: Task, t: nat, task: Task): (Task, Task) {
    if t == 0 then (task, second) else (first, task)
  }

  lemma Quiet(s: State, t: nat, task: Task, st: Step)
    requires TaskStep(st) && TaskReady(s, task, st) && !st.Enqueue? && !st.Bind? && !st.Unbind?
    ensures TaskConns(s, task, st) == s.conns && TaskBindings(s, task, st) == s.bindings
    ensures Count(TaskEvents(s, t, task, st), InsertOf(ID)) == 0
    ensures Count(TaskEvents(s, t, task, st), VerdictOf(ID)) == 0
  {
    hide MatchVerdict, Sweep, Dedupe.Next, Count;
    CountEvents(TaskEvents(s, t, task, st), InsertOf(ID));
    CountEvents(TaskEvents(s, t, task, st), VerdictOf(ID));
  }

  /** A handler's step that queues nothing. */
  lemma Advance(s: State, st: Step, first: Task, second: Task, order: seq<string>, pending: map<string, Pending>, queued: nat)
    requires Stage(s, first, second, order, pending, queued)
    requires TaskStep(st) && st.t < 2 && TaskReady(s, s.tasks[st.t], st)
    requires !st.Enqueue? && !st.Bind? && !st.Unbind?
    ensures Enabled(s, st)
    ensures var task := s.tasks[st.t];
            var (x, y) := Set(first, second, st.t, NextTask(s, task, st));
            Stage(Apply(s, st), x, y, TaskOrder(s, task, st), TaskPending(s, task, st), queued)
  {
    hide Count, NextTask, TaskEvents, TaskConns, TaskBindings, TaskOrder, TaskPending, TaskReady, InsertOf, VerdictOf;
    var task, es := s.tasks[st.t], TaskEvents(s, st.t, s.tasks[st.t], st);
    Quiet(s, st.t, task, st);
    CountConcat(s.log, es, InsertOf(ID));
    CountConcat(s.log, es, VerdictOf(ID));
    var next := NextTask(s, task, st);
    assert [first, second][0 := next] == [next, second] && [first, second][1 := next] == [first, next];
  }

  lemma Deliverable(s: State, st: Step, first: Task, second: Task, order: seq<string>, pending: map<string, Pending>,
                    queued: nat, eventId: string)
    requires Stage(s, first, second, order, pending, queued) && queued < QUEUE_SIZE
    requires st.Enqueue? && st.t < 2 && s.tasks[st.t] == Enqueuing(eventId, ANSWER, "s", VERDICT, 0)
    ensures Enabled(s, st)
    ensures var (x, y) := Set(first, second, st.t, Finished);
            Stage(Apply(s, st), x, y, order, pending, queued + 1)
  {
    var task, es := s.tasks[st.t], TaskEvents(s, st.t, s.tasks[st.t], st);
    assert es == [EQueued(st.t, eventId, 0, "s", VERDICT)];
    CountConcat(s.log, es, InsertOf(ID));
    CountConcat(s.log, es, VerdictOf(ID));
    CountEvents(es, InsertOf(ID));
    CountEvents(es, VerdictOf(ID));
    hide Count;
  }

  lemma StillPending()
    ensures Sweep(map[ID := REQUEST], 0) == map[ID := REQUEST]
    ensures MatchVerdict(map[ID := REQUEST], ANSWER, THREAD) == Some((ID, Allow))
  {
    AnswerParses();
  }

  lemma Spawned(s: State)
    requires s.users == ["U"] && s.bindings == map["C:1" := THREAD] && s.hub == map["s" := 0]
    requires s.tasks == [] && s.order == [] && s.pending == map[ID := REQUEST]
    requires |s.conns| == 1 && Receiving(s.conns[0].phase) && s.conns[0].queue == []
    requires Count(s.log, InsertOf(ID)) == 1 && Count(s.log, VerdictOf(ID)) == 0
    ensures var s' := Apply(Apply(s, Deliver("E1", Some(ANSWER))), Deliver("E2", Some(ANSWER)));
            Stage(s', Delivered("E1", Some(ANSWER)), Delivered("E2", Some(ANSWER)), [], map[ID := REQUEST], 0)
  {
    hide Count, InsertOf, VerdictOf;
  }

  lemma FirstSeenBoth()
    ensures Dedupe.Next([], DEDUPE_CAPACITY, "E1") == (["E1"], true)
    ensures Dedupe.Next(["E1"], DEDUPE_CAPACITY, "E2") == (["E1", "E2"], true)
  {
    assert [] + ["E1"] == ["E1"] && ["E1"] + ["E2"] == ["E1", "E2"];
    assert "E2" !in ["E1"];
  }

  /** Appends one quiet step of handler `t` to a feasible run. */
  lemma Go(steps: seq<Step>, st: Step, first: Task, second: Task, order: seq<string>, pending: map<string, Pending>,
           queued: nat, next: Task, order': seq<string>, pending': map<string, Pending>)
    returns (steps': seq<Step>)
    requires Feasible(S0, steps) && Stage(Run(S0, steps), first, second, order, pending, queued)
    requires TaskStep(st) && st.t < 2 && !st.Enqueue? && !st.Bind? && !st.Unbind?
    requires var (s, task) := (Run(S0, steps), if st.t == 0 then first else second);
             && TaskReady(s, task, st) && NextTask(s, task, st) == next
             && TaskOrder(s, task, st) == order' && TaskPending(s, task, st) == pending'
    ensures Feasible(S0, steps')
    ensures var (x, y) := Set(first, second, st.t, next); Stage(Run(S0, steps'), x, y, order', pending', queued)
  {
    hide NextTask, TaskOrder, TaskPending, TaskReady, Apply, Enabled, Feasible, Run;
    Advance(Run(S0, steps), st, first, second, order, pending, queued);
    Extend(S0, steps, st);
    steps' := steps + [st];
  }

  lemma Arriving() returns (steps: seq<Step>)
    ensures Feasible(S0, steps)
    ensures Stage(Run(S0, steps), Delivered("E1", Some(ANSWER)), Delivered("E2", Some(ANSWER)), [], map[ID := REQUEST], 0)
  {
    hide Feasible, Run, Stage;
    steps := Asked();
    CountsOf(Run(S0, steps).log);
    Spawned(Run(S0, steps));
    Extend(S0, steps, Deliver("E1", Some(ANSWER)));
    steps := steps + [Deliver("E1", Some(ANSWER))];
    Extend(S0, steps, Deliver("E2", Some(ANSWER)));
    steps := steps + [Deliver("E2", Some(ANSWER))];
  }

  lemma Delivering() returns (steps: seq<Step>)
    ensures Feasible(S0, steps)
    ensures Stage(Run(S0, steps), Fresh("E1", ANSWER), Fresh("E2", ANSWER), ["E1", "E2"], map[ID := REQUEST], 0)
  {
    hide Feasible, Run, Stage, Dedupe.Next;
    steps := Arriving();
    FirstSeenBoth();
    var (d1, d2) := (Delivered("E1", Some(ANSWER)), Delivered("E2", Some(ANSWER)));
    Orders(Run(S0, steps), d1, d2, [], map[ID := REQUEST], 0);
    steps := Go(steps, FirstSeen(0), d1, d2, [], map[ID := REQUEST], 0, Fresh("E1", ANSWER), ["E1"], map[ID := REQUEST]);
    Orders(Run(S0, steps), Fresh("E1", ANSWER), d2, ["E1"], map[ID := REQUEST], 0);
    steps := Go(steps, FirstSeen(1), Fresh("E1", ANSWER), d2, ["E1"], map[ID := REQUEST], 0,
                Fresh("E2", ANSWER), ["E1", "E2"], map[ID := REQUEST]);
  }

  /** What a stage says about the shared state. */
  lemma Orders(s: State, first: Task, second: Task, order: seq<string>, pending: map<string, Pending>, queued: nat)
    requires Stage(s, first, second, order, pending, queued)
    ensures s.order == order && s.pending == pending && s.users == ["U"] && s.bindings == map["C:1" := THREAD]
    ensures s.hub == map["s" := 0]
  {
  }

  const ORDER: seq<string> := ["E1", "E2"]

  function Held(eventId: string): Task { Answered(eventId, ANSWER, THREAD, ID, Allow) }

  function Ready(eventId: string): Task { Forwarding(eventId, ANSWER, "s", VERDICT) }

  function Bearing(eventId: string): Task { Enqueuing(eventId, ANSWER, "s", VERDICT, 0) }

  /** Both handlers match before either removes. */
  lemma MatchedTwice() returns (steps: seq<Step>)
    ensures Feasible(S0, steps) && Stage(Run(S0, steps), Held("E1"), Held("E2"), ORDER, map[ID := REQUEST], 0)
  {
    hide Feasible, Run, Stage, MatchVerdict, Sweep;
    steps := Delivering();
    StillPending();
    var (f1, f2) := (Fresh("E1", ANSWER), Fresh("E2", ANSWER));
    var (b1, b2) := (Bound("E1", ANSWER, THREAD), Bound("E2", ANSWER, THREAD));
    Orders(Run(S0, steps), f1, f2, ORDER, map[ID := REQUEST], 0);
    steps := Go(steps, Lookup(0), f1, f2, ORDER, map[ID := REQUEST], 0, b1, ORDER, map[ID := REQUEST]);
    Orders(Run(S0, steps), b1, f2, ORDER, map[ID := REQUEST], 0);
    steps := Go(steps, Lookup(1), b1, f2, ORDER, map[ID := REQUEST], 0, b2, ORDER, map[ID := REQUEST]);
    Orders(Run(S0, steps), b1, b2, ORDER, map[ID := REQUEST], 0);
    steps := Go(steps, Match(0, 0), b1, b2, ORDER, map[ID := REQUEST], 0, Held("E1"), ORDER, map[ID := REQUEST]);
    Orders(Run(S0, steps), Held("E1"), b2, ORDER, map[ID := REQUEST], 0);
    steps := Go(steps, Match(1, 0), Held("E1"), b2, ORDER, map[ID := REQUEST], 0, Held("E2"), ORDER, map[ID := REQUEST]);
  }

  /** Both remove the entry, which is there for the first only. */
  lemma BothReady() returns (steps: seq<Step>)
    ensures Feasible(S0, steps) && Stage(Run(S0, steps), Ready("E1"), Ready("E2"), ORDER, map[], 0)
  {
    hide Feasible, Run, Stage;
    steps := MatchedTwice();
    var none: map<string, Pending> := map[];
    assert map[ID := REQUEST] - {ID} == none && none - {ID} == none;
    Orders(Run(S0, steps), Held("E1"), Held("E2"), ORDER, map[ID := REQUEST], 0);
    steps := Go(steps, Forget(0), Held("E1"), Held("E2"), ORDER, map[ID := REQUEST], 0, Ready("E1"), ORDER, map[]);
    Orders(Run(S0, steps), Ready("E1"), Held("E2"), ORDER, map[], 0);
    steps := Go(steps, Forget(1), Ready("E1"), Held("E2"), ORDER, map[], 0, Ready("E2"), ORDER, map[]);
  }

  lemma BothBearing() returns (steps: seq<Step>)
    ensures Feasible(S0, steps) && Stage(Run(S0, steps), Bearing("E1"), Bearing("E2"), ORDER, map[], 0)
  {
    hide Feasible, Run, Stage;
    steps := BothReady();
    Orders(Run(S0, steps), Ready("E1"), Ready("E2"), ORDER, map[], 0);
    steps := Go(steps, FindSender(0), Ready("E1"), Ready("E2"), ORDER, map[], 0, Bearing("E1"), ORDER, map[]);
    Orders(Run(S0, steps), Bearing("E1"), Ready("E2"), ORDER, map[], 0);
    steps := Go(steps, FindSender(1), Bearing("E1"), Ready("E2"), ORDER, map[], 0, Bearing("E2"), ORDER, map[]);
  }

  /** A feasible run in which one permission request is recorded once and answered by two
      verdicts on the agent's queue. */
  lemma TwoVerdictsForOneRequest() returns (steps: seq<Step>)
    ensures Initial(S0) && Feasible(S0, steps)
    ensures Count(Run(S0, steps).log, InsertOf(ID)) == 1 && Count(Run(S0, steps).log, VerdictOf(ID)) == 2
  {
    hide Feasible, Run, Apply, Enabled;
    steps := BothBearing();
    Deliverable(Run(S0, steps), Enqueue(0), Bearing("E1"), Bearing("E2"), ORDER, map[], 0, "E1");
    Extend(S0, steps, Enqueue(0));
    steps := steps + [Enqueue(0)];
    Deliverable(Run(S0, steps), Enqueue(1), Finished, Bearing("E2"), ORDER, map[], 1, "E2");
    Extend(S0, steps, Enqueue(1));
    steps := steps + [Enqueue(1)];
  }
}
