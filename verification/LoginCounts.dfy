/** Cookies, used and begun login states compared over every run, restarts included: in
    total, and one by one. */
module LoginCounts {
  import opened Wrappers
  import opened Counting
  import opened Permission
  import opened Sessions
  import opened Store
  import opened Admin
  import LoginUses

  function IsBegun(): Event -> bool { (e: Event) => e.Begun? }

  function IsConsumed(): Event -> bool { (e: Event) => e.Consumed? }

  function IsValidUse(): Event -> bool { (e: Event) => e.Consumed? && e.valid }

  function IsCookie(): Event -> bool { (e: Event) => e.CookieSet? }

  /** Callbacks that have used a valid state and may still set a cookie. */
  function IsLogin(): Task -> bool {
    (task: Task) =>
      task.Exchanging? || ((task.Wants? || task.Saving? || task.Resumed?) && task.next.SetCookie?)
  }

  function PendingCount(memory: Option<Memory>): nat {
    if memory.None? then 0 else |memory.value.pending|
  }

  ghost predicate Counted(w: World) {
    && Count(w.log, IsCookie()) + Count(w.tasks, IsLogin()) <= Count(w.log, IsValidUse())
    && Count(w.log, IsValidUse()) <= Count(w.log, IsConsumed())
    && Count(w.log, IsConsumed()) + PendingCount(w.memory) <= Count(w.log, IsBegun())
  }

  lemma CountEvents(es: seq<Event>, p: Event -> bool)
    requires |es| <= 1
    ensures Count(es, p) == One(es != [] && p(es[0]))
  {
    if es != [] {
      assert es == [es[0]];
      CountOne(es[0], p);
    }
  }

  lemma CookieDelta(cfg: Config, w: World, st: Step)
    requires Enabled(w, st) && TaskStep(st)
    ensures var (mem, task) := (w.memory.value, w.tasks[st.t]);
            var es, next := TaskEvents(cfg, mem, st.t, task, st), NextTask(cfg, mem, task, st);
            Count(es, IsCookie()) + One(IsLogin()(next)) <= Count(es, IsValidUse()) + One(IsLogin()(task))
  {
    hide Count, ClaimsOk, GoodLabel, Changed, UserFor;
    var es := TaskEvents(cfg, w.memory.value, st.t, w.tasks[st.t], st);
    CountEvents(es, IsCookie());
    CountEvents(es, IsValidUse());
  }

  lemma TakeDelta(cfg: Config, mem: Memory, main: File, task: Task, st: Step)
    requires st.TakeState? && task.Callback?
    ensures var es := TaskEvents(cfg, mem, st.t, task, st);
            && Count(es, IsValidUse()) <= Count(es, IsConsumed())
            && Count(es, IsConsumed()) + |TaskMemory(mem, main, task, st).pending| == |mem.pending|
            && Count(es, IsBegun()) == 0
  {
    hide Count;
    var es := TaskEvents(cfg, mem, st.t, task, st);
    CountEvents(es, IsValidUse());
    CountEvents(es, IsConsumed());
    CountEvents(es, IsBegun());
    RemoveSize(mem.pending, task.state);
  }

  lemma StateDelta(cfg: Config, w: World, st: Step)
    requires Enabled(w, st) && TaskStep(st)
    ensures var (mem, task) := (w.memory.value, w.tasks[st.t]);
            var es := TaskEvents(cfg, mem, st.t, task, st);
            && Count(es, IsValidUse()) <= Count(es, IsConsumed())
            && Count(es, IsConsumed()) + |TaskMemory(mem, w.main, task, st).pending| <= |mem.pending|
            && Count(es, IsBegun()) == 0
  {
    hide Count, ClaimsOk, GoodLabel, Changed, UserFor, Taken;
    var (mem, task) := (w.memory.value, w.tasks[st.t]);
    if st.TakeState? {
      hide TaskEvents, TaskMemory;
      TakeDelta(cfg, mem, w.main, task, st);
    } else {
      var es := TaskEvents(cfg, mem, st.t, task, st);
      CountEvents(es, IsValidUse());
      CountEvents(es, IsConsumed());
      CountEvents(es, IsBegun());
    }
  }

  lemma RemoveSize<V>(m: map<string, V>, k: string)
    ensures |m - {k}| == if k in m then |m| - 1 else |m|
  {
    if k in m {
      assert m.Keys == (m - {k}).Keys + {k};
    } else {
      assert m - {k} == m;
    }
  }

  lemma AddSize<V>(m: map<string, V>, k: string, v: V)
    ensures |m[k := v]| <= |m| + 1
  {
    assert m[k := v].Keys == m.Keys + {k};
  }

  lemma CountsAppend(log: seq<Event>, es: seq<Event>)
    ensures Count(log + es, IsCookie()) == Count(log, IsCookie()) + Count(es, IsCookie())
    ensures Count(log + es, IsValidUse()) == Count(log, IsValidUse()) + Count(es, IsValidUse())
    ensures Count(log + es, IsConsumed()) == Count(log, IsConsumed()) + Count(es, IsConsumed())
    ensures Count(log + es, IsBegun()) == Count(log, IsBegun()) + Count(es, IsBegun())
  {
    CountConcat(log, es, IsCookie());
    CountConcat(log, es, IsValidUse());
    CountConcat(log, es, IsConsumed());
    CountConcat(log, es, IsBegun());
  }

  lemma TaskKeepsCounts(cfg: Config, w: World, st: Step)
    requires Counted(w) && Enabled(w, st) && TaskStep(st)
    ensures Counted(ApplyTask(cfg, w, st))
  {
    hide Count, TaskEvents, NextTask, TaskMemory, IsCookie, IsValidUse, IsConsumed, IsBegun, IsLogin;
    var (mem, task) := (w.memory.value, w.tasks[st.t]);
    CookieDelta(cfg, w, st);
    StateDelta(cfg, w, st);
    CountsAppend(w.log, TaskEvents(cfg, mem, st.t, task, st));
    CountUpdate(w.tasks, st.t, NextTask(cfg, mem, task, st), IsLogin());
  }

  /** A save that ends well hands the task on; one that fails ends it. */
  lemma OwnerCount(tasks: seq<Task>, owner: nat, next: Task)
    requires owner < |tasks| && (IsLogin()(next) ==> IsLogin()(tasks[owner]))
    ensures Count(tasks[owner := next], IsLogin()) <= Count(tasks, IsLogin())
  {
    hide Count, IsLogin;
    CountUpdate(tasks, owner, next, IsLogin());
  }

  lemma NewTask(tasks: seq<Task>, task: Task)
    requires !IsLogin()(task)
    ensures Count(tasks + [task], IsLogin()) == Count(tasks, IsLogin())
  {
    CountConcat(tasks, [task], IsLogin());
    CountOne(task, IsLogin());
  }

  lemma OtherKeepsCounts(cfg: Config, w: World, st: Step)
    requires Counted(w) && Enabled(w, st) && !TaskStep(st)
    ensures Counted(Apply(cfg, w, st))
  {
    hide Count, Changed, Unbound;
    match st {
      case Boot =>
        CountsAppend(w.log, [Restarted]);
        CountEvents([Restarted], IsCookie());
        CountEvents([Restarted], IsValidUse());
        CountEvents([Restarted], IsConsumed());
        CountEvents([Restarted], IsBegun());
      case Crash => CountZero(Apply(cfg, w, Crash).tasks, IsLogin());
      case BeginLogin(state, nonce, now) =>
        var es := [Begun(state, nonce, now)];
        CountsAppend(w.log, es);
        CountEvents(es, IsCookie());
        CountEvents(es, IsValidUse());
        CountEvents(es, IsConsumed());
        CountEvents(es, IsBegun());
        AddSize(w.memory.value.pending, state, Login(nonce, now + LOGIN_SECS));
      case Visit(state) => NewTask(w.tasks, Callback(state));
      case Ask(sid, title) => NewTask(w.tasks, Tokens(sid, title));
      case ChangeBindings(change) => NewTask(w.tasks, Wants(change, Nothing));
      case FileOp(ok) =>
        if !ok {
          var job := w.memory.value.job.value;
          OwnerCount(w.tasks, job.owner, if SavesFirst(job.change) then Finished else Resumed(Nothing));
        }
      case Assign =>
        var owner := w.memory.value.job.value.owner;
        var task := w.tasks[owner];
        OwnerCount(w.tasks, owner, if task.Saving? then Resumed(task.next) else task);
    }
  }

  lemma {:induction false} RunKeepsCounts(cfg: Config, w0: World, steps: seq<Step>)
    requires Initial(w0) && Feasible(cfg, w0, steps)
    ensures Counted(Run(cfg, w0, steps))
    decreases |steps|
  {
    if steps != [] {
      hide Counted;
      var before, st := steps[..|steps| - 1], steps[|steps| - 1];
      RunKeepsCounts(cfg, w0, before);
      if TaskStep(st) {
        TaskKeepsCounts(cfg, Run(cfg, w0, before), st);
      } else {
        OtherKeepsCounts(cfg, Run(cfg, w0, before), st);
      }
    } else {
      assert Counted(w0);
    }
  }

  /** Between two uses of a state it is begun again. */
  ghost predicate UsedOncePerBegin(log: seq<Event>) {
    forall m, n :: 0 <= m < n < |log| && log[m].Consumed? && log[n].Consumed? && log[m].state == log[n].state ==>
      exists b :: m < b < n && log[b].Begun? && log[b].state == log[n].state
  }

  /** A callback sets no second cookie and uses no second state. */
  ghost predicate OncePerCallback(log: seq<Event>) {
    forall m, n :: 0 <= m < n < |log|
                   && ((log[m].CookieSet? && log[n].CookieSet?) || (log[m].Consumed? && log[n].Consumed?)) ==>
      log[m].task != log[n].task
  }

  lemma UsesAreOnce(cfg: Config, w0: World, steps: seq<Step>)
    requires Initial(w0) && Feasible(cfg, w0, steps)
    ensures UsedOncePerBegin(Run(cfg, w0, steps).log)
  {
    hide Run, Feasible, LoginUses.Concerns;
    var log := Run(cfg, w0, steps).log;
    forall m, n | 0 <= m < n < |log| && log[m].Consumed? && log[n].Consumed? && log[m].state == log[n].state
      ensures exists b :: m < b < n && log[b].Begun? && log[b].state == log[n].state
    {
      var b := LoginUses.StatesAreUsedOnce(cfg, w0, steps, n);
      UseConcerns(log[m]);
    }
  }

  lemma UseConcerns(e: Event)
    requires e.Consumed?
    ensures LoginUses.Concerns(e, e.state) && !e.Begun?
  {
  }

  lemma CallbacksAreOnce(cfg: Config, w0: World, steps: seq<Step>)
    requires Initial(w0) && Feasible(cfg, w0, steps)
    ensures OncePerCallback(Run(cfg, w0, steps).log)
  {
    hide Run, Feasible;
    var log := Run(cfg, w0, steps).log;
    forall m, n | 0 <= m < n < |log|
                  && ((log[m].CookieSet? && log[n].CookieSet?) || (log[m].Consumed? && log[n].Consumed?))
      ensures log[m].task != log[n].task
    {
      LoginUses.OneCookiePerCallback(cfg, w0, steps, m, n);
    }
  }

  /** Over all interleavings of logins and callbacks: no more cookies than states used in
      time, no more states used than were begun; each state is used at most once for each
      time it is begun, and each callback uses one state and sets one cookie at most. */
  lemma CookiesAreEarned(cfg: Config, w0: World, steps: seq<Step>)
    requires Initial(w0) && Feasible(cfg, w0, steps)
    ensures var log := Run(cfg, w0, steps).log;
            && Count(log, IsCookie()) <= Count(log, IsValidUse()) <= Count(log, IsConsumed()) <= Count(log, IsBegun())
            && UsedOncePerBegin(log) && OncePerCallback(log)
  {
    hide Run, Feasible, Count, UsedOncePerBegin, OncePerCallback;
    RunKeepsCounts(cfg, w0, steps);
    UsesAreOnce(cfg, w0, steps);
    CallbacksAreOnce(cfg, w0, steps);
  }
}
