/** Each login state is used once for each time it is begun, and one callback uses one
    state and sets one cookie, over every run of the login handlers. */
module LoginUses {
  import opened Wrappers
  import opened Sessions
  import opened Admin
  import Durability

  predicate Concerns(e: Event, state: string) { (e.Begun? || e.Consumed?) && e.state == state }

  /** What last happened to a state, or -1. */
  function LastOf(log: seq<Event>, state: string): (i: int)
    ensures -1 <= i < |log|
    ensures i >= 0 ==> Concerns(log[i], state)
    ensures forall j :: i < j < |log| ==> !Concerns(log[j], state)
  {
    if log == [] then -1
    else if Concerns(log[|log| - 1], state) then |log| - 1
    else LastOf(log[..|log| - 1], state)
  }

  lemma LastAppend(log: seq<Event>, e: Event, state: string)
    ensures LastOf(log + [e], state) == if Concerns(e, state) then |log| else LastOf(log, state)
  {
    assert (log + [e])[..|log + [e]| - 1] == log;
  }

  /** The last thing that happened to the state is that it was begun, with this nonce. */
  ghost predicate Open(log: seq<Event>, state: string, login: Login) {
    var b := LastOf(log, state);
    b >= 0 && log[b] == Begun(state, login.nonce, login.expires - LOGIN_SECS)
  }

  ghost predicate PendingOpen(log: seq<Event>, memory: Option<Memory>) {
    memory.Some? ==> forall state :: state in memory.value.pending ==> Open(log, state, memory.value.pending[state])
  }

  predicate Matches(b: Event, e: Event)
    requires e.Consumed?
  {
    b.Begun? && b.nonce == e.nonce && (e.valid <==> e.now < b.now + LOGIN_SECS)
  }

  /** A use follows the latest beginning of the state, and is in time or not by its clock. */
  ghost predicate Answers(pre: seq<Event>, e: Event)
    requires e.Consumed?
  {
    var b := LastOf(pre, e.state);
    b >= 0 && Matches(pre[b], e)
  }

  ghost predicate UsesFit(log: seq<Event>) {
    forall n :: 0 <= n < |log| && log[n].Consumed? ==> Answers(log[..n], log[n])
  }

  // --- one use and one cookie for each callback --------------------------------------

  predicate OfCallback(e: Event) { e.Consumed? || e.CookieSet? }

  /** The callback that logged `e` has gone on from there. */
  predicate Behind(e: Event, task: Task)
    requires OfCallback(e)
  {
    if e.Consumed? then !task.Callback? else task.Finished?
  }

  ghost predicate AllBehind(log: seq<Event>, tasks: seq<Task>) {
    forall n :: 0 <= n < |log| && OfCallback(log[n]) ==> log[n].task < |tasks| && Behind(log[n], tasks[log[n].task])
  }

  predicate Apart(e: Event, f: Event) {
    (e.Consumed? && f.Consumed?) || (e.CookieSet? && f.CookieSet?) ==> e.task != f.task
  }

  ghost predicate AllApart(log: seq<Event>) {
    forall m, n :: 0 <= m < n < |log| ==> Apart(log[m], log[n])
  }

  ghost predicate UseInv(w: World) {
    PendingOpen(w.log, w.memory) && UsesFit(w.log) && AllBehind(w.log, w.tasks) && AllApart(w.log)
  }

  lemma FitNext(log: seq<Event>, e: Event)
    requires UsesFit(log) && (e.Consumed? ==> Answers(log, e))
    ensures UsesFit(log + [e])
  {
    hide Answers;
    var all := log + [e];
    forall n | 0 <= n < |all| && all[n].Consumed?
      ensures Answers(all[..n], all[n])
    {
      assert all[..n] == log[..n];
      assert log[..|log|] == log;
    }
  }

  /** One step of a handler, seen by the events that it has logged. */
  lemma TaskMoves(cfg: Config, w: World, st: Step)
    requires Enabled(w, st) && TaskStep(st)
    ensures var (mem, task) := (w.memory.value, w.tasks[st.t]);
            var es, next := TaskEvents(cfg, mem, st.t, task, st), NextTask(cfg, mem, task, st);
            && |es| <= 1
            && (forall e :: OfCallback(e) && Behind(e, task) ==> Behind(e, next))
            && (es != [] && OfCallback(es[0]) ==> es[0].task == st.t && !Behind(es[0], task) && Behind(es[0], next))
            && (es != [] ==> !es[0].Begun?)
            && (es != [] && es[0].Consumed? ==>
                  st.TakeState? && es[0].state == task.state && es[0].state in mem.pending
                  && var login := mem.pending[es[0].state];
                     es[0].nonce == login.nonce && (es[0].valid <==> es[0].now < login.expires))
  {
    hide ClaimsOk, GoodLabel, Changed, UserFor;
  }

  /** A handler's step takes at most the state it uses out of `pending`. */
  lemma PendingMoves(cfg: Config, w: World, st: Step)
    requires Enabled(w, st) && TaskStep(st)
    ensures var (mem, task) := (w.memory.value, w.tasks[st.t]);
            TaskMemory(mem, w.main, task, st).pending == if st.TakeState? then mem.pending - {task.state} else mem.pending
  {
    hide Changed;
  }

  lemma OpenNext(log: seq<Event>, e: Event, pending: map<string, Login>, pending': map<string, Login>)
    requires forall state :: state in pending ==> Open(log, state, pending[state])
    requires !e.Begun?
    requires forall state :: state in pending' ==>
               state in pending && pending'[state] == pending[state] && !Concerns(e, state)
    ensures forall state :: state in pending' ==> Open(log + [e], state, pending'[state])
  {
    hide LastOf;
    forall state | state in pending'
      ensures Open(log + [e], state, pending'[state])
    {
      LastAppend(log, e, state);
    }
  }

  lemma BehindNext(log: seq<Event>, e: Event, tasks: seq<Task>, t: nat, next: Task)
    requires AllBehind(log, tasks) && AllApart(log) && t < |tasks|
    requires forall f :: OfCallback(f) && Behind(f, tasks[t]) ==> Behind(f, next)
    requires OfCallback(e) ==> e.task == t && !Behind(e, tasks[t]) && Behind(e, next)
    ensures AllBehind(log + [e], tasks[t := next]) && AllApart(log + [e])
  {
    var all := log + [e];
    forall m, n | 0 <= m < n < |all|
      ensures Apart(all[m], all[n])
    {
      if n < |log| {
        assert Apart(log[m], log[n]);
      }
    }
  }

  lemma TaskKeepsUses(cfg: Config, w: World, st: Step)
    requires UseInv(w) && Enabled(w, st) && TaskStep(st)
    ensures UseInv(ApplyTask(cfg, w, st))
  {
    var (mem, task) := (w.memory.value, w.tasks[st.t]);
    var es, next := TaskEvents(cfg, mem, st.t, task, st), NextTask(cfg, mem, task, st);
    TaskMoves(cfg, w, st);
    PendingMoves(cfg, w, st);
    hide TaskEvents, NextTask, TaskMemory, LastOf, Behind, UsesFit, AllApart;
    if es == [] {
      assert w.log + es == w.log;
    } else {
      assert es == [es[0]];
      OpenNext(w.log, es[0], mem.pending, TaskMemory(mem, w.main, task, st).pending);
      BehindNext(w.log, es[0], w.tasks, st.t, next);
      FitNext(w.log, es[0]);
    }
  }

  lemma BeginKeepsUses(log: seq<Event>, mem: Memory, state: string, nonce: string, now: int)
    requires PendingOpen(log, Some(mem)) && UsesFit(log)
    ensures PendingOpen(log + [Begun(state, nonce, now)],
                        Some(mem.(pending := mem.pending[state := Login(nonce, now + LOGIN_SECS)])))
    ensures UsesFit(log + [Begun(state, nonce, now)])
  {
    hide LastOf, Answers;
    var e := Begun(state, nonce, now);
    FitNext(log, e);
    forall s
      ensures LastOf(log + [e], s) == if Concerns(e, s) then |log| else LastOf(log, s)
    {
      LastAppend(log, e, s);
    }
  }

  lemma QuietNext(log: seq<Event>, e: Event, tasks: seq<Task>)
    requires AllBehind(log, tasks) && AllApart(log) && !OfCallback(e)
    ensures AllBehind(log + [e], tasks) && AllApart(log + [e])
  {
    hide Behind;
    var all := log + [e];
    forall m, n | 0 <= m < n < |all|
      ensures Apart(all[m], all[n])
    {
      if n < |log| {
        assert Apart(log[m], log[n]);
      }
    }
  }

  lemma OtherKeepsUses(cfg: Config, w: World, st: Step)
    requires UseInv(w) && Enabled(w, st) && !TaskStep(st) && Durability.OwnerWaits(w)
    ensures UseInv(Apply(cfg, w, st))
  {
    hide LastOf, UsesFit, AllApart, Open, Changed;
    if st.BeginLogin? {
      BeginKeepsUses(w.log, w.memory.value, st.state, st.nonce, st.now);
      QuietNext(w.log, Begun(st.state, st.nonce, st.now), w.tasks);
    } else if st.Boot? {
      FitNext(w.log, Restarted);
      QuietNext(w.log, Restarted, w.tasks);
    }
  }

  lemma {:induction false} RunKeepsUses(cfg: Config, w0: World, steps: seq<Step>)
    requires Initial(w0) && Feasible(cfg, w0, steps)
    ensures UseInv(Run(cfg, w0, steps))
    decreases |steps|
  {
    if steps != [] {
      hide UseInv;
      var before, st := steps[..|steps| - 1], steps[|steps| - 1];
      RunKeepsUses(cfg, w0, before);
      if TaskStep(st) {
        TaskKeepsUses(cfg, Run(cfg, w0, before), st);
      } else {
        Durability.RunKeepsFile(cfg, w0, before);
        hide Apply, Run, Feasible;
        OtherKeepsUses(cfg, Run(cfg, w0, before), st);
      }
    }
  }

  /** Every use of a state follows a beginning of it with the same nonce, `b`, since which
      the state was neither used nor begun again; it is valid exactly within 600 seconds.
      So a state is used at most once for each time it is begun. */
  lemma StatesAreUsedOnce(cfg: Config, w0: World, steps: seq<Step>, n: nat) returns (b: nat)
    requires Initial(w0) && Feasible(cfg, w0, steps)
    requires n < |Run(cfg, w0, steps).log| && Run(cfg, w0, steps).log[n].Consumed?
    ensures var log := Run(cfg, w0, steps).log;
            && b < n && log[b].Begun? && log[b].state == log[n].state && log[b].nonce == log[n].nonce
            && (log[n].valid <==> log[n].now < log[b].now + LOGIN_SECS)
            && forall j :: b < j < n ==> !Concerns(log[j], log[n].state)
  {
    RunKeepsUses(cfg, w0, steps);
    hide Run, Feasible, LastOf;
    var log := Run(cfg, w0, steps).log;
    assert Answers(log[..n], log[n]);
    b := LastOf(log[..n], log[n].state);
    forall j | b < j < n
      ensures !Concerns(log[j], log[n].state)
    {
      assert log[..n][j] == log[j];
    }
  }

  /** One callback uses at most one state and sets at most one cookie. */
  lemma OneCookiePerCallback(cfg: Config, w0: World, steps: seq<Step>, m: nat, n: nat)
    requires Initial(w0) && Feasible(cfg, w0, steps) && m < n < |Run(cfg, w0, steps).log|
    ensures var log := Run(cfg, w0, steps).log;
            && (log[m].Consumed? && log[n].Consumed? ==> log[m].task != log[n].task)
            && (log[m].CookieSet? && log[n].CookieSet? ==> log[m].task != log[n].task)
  {
    RunKeepsUses(cfg, w0, steps);
    hide Run, Feasible;
    assert Apart(Run(cfg, w0, steps).log[m], Run(cfg, w0, steps).log[n]);
  }
}
