/** How often one request is answered. Matching a verdict and removing the request are two
    steps, so the position of the handler that matched first decides. */
module RelayAnswers {
  import opened Verdict
  import opened Permission
  import opened Relay
  import opened RelayHistory
  import Dedupe

  // --- where a handler stands after each of its events ----------------------------

  /** Events that a delivery's handler logs at most once. */
  predicate OfHandler(e: Event) { e.EAccepted? || e.EMatched? || e.EQueued? }

  predicate SameKind(e: Event, f: Event) {
    (e.EAccepted? && f.EAccepted?) || (e.EMatched? && f.EMatched?) || (e.EQueued? && f.EQueued?)
  }

  /** The handler that logged `e` has gone on from there. */
  predicate Behind(e: Event, task: Task)
    requires OfHandler(e)
  {
    match e
    case EAccepted(_, _) => !task.Delivered?
    case EMatched(_, _, _, id, behavior, _) =>
      if task.Answered? then task.requestId == id && task.behavior == behavior
      else if task.Forwarding? || task.Enqueuing? then task.msg == PermissionVerdict(id, behavior)
      else task.Noticing? || task.Finished?
    case EQueued(_, _, _, _, _) => task.Finished?
  }

  ghost predicate RemovedSince(log: seq<Event>, m: nat, t: nat, id: string) {
    exists r :: m < r < |log| && log[r] == ERemoved(id, t)
  }

  ghost predicate Traced(log: seq<Event>, n: nat, tasks: seq<Task>)
    requires n < |log|
  {
    var e := log[n];
    OfHandler(e) ==>
      && e.task < |tasks| && Behind(e, tasks[e.task])
      && (e.EMatched? && !tasks[e.task].Answered? ==> RemovedSince(log, n, e.task, e.requestId))
  }

  ghost predicate AllTraced(log: seq<Event>, tasks: seq<Task>) {
    forall n :: 0 <= n < |log| ==> Traced(log, n, tasks)
  }

  /** No handler logs two events of one kind, and what a handler that matched puts on a
      queue is its verdict. */
  ghost predicate Fits(e: Event, f: Event) {
    OfHandler(e) && OfHandler(f) && e.task == f.task ==>
      && !SameKind(e, f)
      && (e.EMatched? && f.EQueued? ==> f.msg == PermissionVerdict(e.requestId, e.behavior))
      && !(e.EQueued? && f.EMatched?)
  }

  ghost predicate AllFit(log: seq<Event>) {
    forall m, n :: 0 <= m < n < |log| ==> Fits(log[m], log[n])
  }

  ghost predicate AnswerInv(s: State) { AllTraced(s.log, s.tasks) && AllFit(s.log) }

  /** One step of a handler, seen by the events it has logged. */
  lemma TaskMoves(s: State, st: Step)
    requires TaskStep(st) && Enabled(s, st)
    ensures var task, next, es := s.tasks[st.t], NextTask(s, s.tasks[st.t], st), TaskEvents(s, st.t, s.tasks[st.t], st);
            && |es| <= 1
            && (forall e :: OfHandler(e) && Behind(e, task) ==> Behind(e, next))
            && (es != [] && OfHandler(es[0]) ==> es[0].task == st.t && Behind(es[0], next))
            && (es != [] && es[0].EMatched? ==> st.Match? && next.Answered? && next.requestId == es[0].requestId)
            && (task.Answered? ==> es == [ERemoved(task.requestId, st.t)])
            && (next.Answered? ==> es != [] && es[0].EMatched?)
  {
    hide MatchVerdict, Sweep, Dedupe.Next, Unbound;
  }

  lemma TaskFits(s: State, st: Step, e: Event)
    requires TaskStep(st) && Enabled(s, st) && OfHandler(e) && e.task == st.t && Behind(e, s.tasks[st.t])
    ensures var es := TaskEvents(s, st.t, s.tasks[st.t], st); es != [] ==> Fits(e, es[0])
  {
    hide MatchVerdict, Sweep, Dedupe.Next, Unbound;
  }

  lemma TracedOn(log: seq<Event>, es: seq<Event>, n: nat, tasks: seq<Task>, tasks': seq<Task>)
    requires n < |log| && Traced(log, n, tasks) && |tasks| <= |tasks'|
    requires OfHandler(log[n]) ==> tasks'[log[n].task] == tasks[log[n].task]
    ensures Traced(log + es, n, tasks')
  {
    if log[n].EMatched? && !tasks[log[n].task].Answered? {
      var r :| n < r < |log| && log[r] == ERemoved(log[n].requestId, log[n].task);
      assert (log + es)[r] == ERemoved(log[n].requestId, log[n].task);
    }
  }

  lemma TaskTraces(s: State, st: Step, n: nat)
    requires TaskStep(st) && Enabled(s, st) && AllTraced(s.log, s.tasks) && n < |ApplyTask(s, st).log|
    ensures Traced(ApplyTask(s, st).log, n, ApplyTask(s, st).tasks)
  {
    TaskMoves(s, st);
    hide TaskEvents, NextTask, TaskOrder, TaskPending, TaskBindings, TaskConns, Behind;
    var log, tasks := s.log, s.tasks;
    var es, tasks' := TaskEvents(s, st.t, tasks[st.t], st), ApplyTask(s, st).tasks;
    if n < |log| {
      assert Traced(log, n, tasks);
      if OfHandler(log[n]) && log[n].task == st.t {
        var e := log[n];
        if e.EMatched? {
          if tasks[st.t].Answered? {
            MatchedId(e, tasks[st.t]);
            assert (log + es)[|log|] == ERemoved(e.requestId, st.t);
          } else {
            var r :| n < r < |log| && log[r] == ERemoved(e.requestId, st.t);
            assert (log + es)[r] == ERemoved(e.requestId, st.t);
          }
        }
      } else {
        TracedOn(log, es, n, tasks, tasks');
      }
    }
  }

  lemma MatchedId(e: Event, task: Task)
    requires e.EMatched? && task.Answered? && Behind(e, task)
    ensures task.requestId == e.requestId
  {
  }

  lemma TaskKeepsAnswers(s: State, st: Step)
    requires TaskStep(st) && Enabled(s, st) && AnswerInv(s)
    ensures AnswerInv(ApplyTask(s, st))
  {
    hide TaskEvents, NextTask, TaskOrder, TaskPending, TaskBindings, TaskConns, Behind, Fits, Traced;
    TaskMoves(s, st);
    var log', es := ApplyTask(s, st).log, TaskEvents(s, st.t, s.tasks[st.t], st);
    forall n | 0 <= n < |log'|
      ensures Traced(log', n, ApplyTask(s, st).tasks)
    {
      TaskTraces(s, st, n);
    }
    forall m, n | 0 <= m < n < |log'|
      ensures Fits(log'[m], log'[n])
    {
      if n < |s.log| {
        assert Fits(s.log[m], s.log[n]);
      } else {
        NextFits(s, st, m);
      }
    }
  }

  lemma NextFits(s: State, st: Step, m: nat)
    requires TaskStep(st) && Enabled(s, st) && AllTraced(s.log, s.tasks) && m < |s.log|
    ensures var es := TaskEvents(s, st.t, s.tasks[st.t], st); es != [] ==> Fits(s.log[m], es[0])
  {
    TaskMoves(s, st);
    assert Traced(s.log, m, s.tasks);
    hide TaskEvents, NextTask, Behind;
    if OfHandler(s.log[m]) && s.log[m].task == st.t {
      TaskFits(s, st, s.log[m]);
    }
  }

  lemma FitsInOrder(log: seq<Event>, m: nat, n: nat)
    requires AllFit(log) && m < n < |log|
    ensures Fits(log[m], log[n])
  {
  }

  lemma OneOfAKind(log: seq<Event>, m: nat, n: nat)
    requires AllFit(log) && m < |log| && n < |log| && m != n && SameKind(log[m], log[n])
    ensures log[m].task != log[n].task
  {
    if m < n {
      assert Fits(log[m], log[n]);
    } else {
      assert Fits(log[n], log[m]);
    }
  }

  /** Steps of connections and of the outside change no position of a handler. */
  lemma QuietKeepsAnswers(log: seq<Event>, es: seq<Event>, tasks: seq<Task>, tasks': seq<Task>)
    requires AllTraced(log, tasks) && AllFit(log) && tasks <= tasks'
    requires |es| <= 1 && (es != [] ==> !OfHandler(es[0]))
    ensures AllTraced(log + es, tasks') && AllFit(log + es)
  {
    hide Behind;
    forall n | 0 <= n < |log + es|
      ensures Traced(log + es, n, tasks')
    {
      if n < |log| {
        assert Traced(log, n, tasks);
        TracedOn(log, es, n, tasks, tasks');
      }
    }
    forall m, n | 0 <= m < n < |log + es|
      ensures Fits((log + es)[m], (log + es)[n])
    {
      if n < |log| {
        assert Fits(log[m], log[n]);
      }
    }
  }

  lemma ConnLogs(s: State, st: Step)
    requires ConnStep(st) && Enabled(s, st)
    ensures var es := ConnEvents(s, st.k, s.conns[st.k], st); |es| <= 1 && (es != [] ==> !OfHandler(es[0]))
  {
    hide Refusal, LatestIs;
  }

  /** What a step logs, and that only a match step logs a match. */
  lemma StepLogs(s: State, st: Step) returns (es: seq<Event>)
    requires Enabled(s, st)
    ensures Apply(s, st).log == s.log + es && |es| <= 1
    ensures es != [] && es[0].EMatched? ==>
              st.Match? && es[0].task == st.t && st.t < |s.tasks| && TaskReady(s, s.tasks[st.t], st)
              && NextTask(s, s.tasks[st.t], st).Answered?
              && NextTask(s, s.tasks[st.t], st).requestId == es[0].requestId
    ensures st.Match? && NextTask(s, s.tasks[st.t], st).Answered? ==> es != [] && es[0].EMatched?
  {
    if TaskStep(st) {
      TaskMoves(s, st);
      hide TaskEvents, NextTask, Behind;
      es := TaskEvents(s, st.t, s.tasks[st.t], st);
    } else if ConnStep(st) {
      ConnLogs(s, st);
      hide ConnEvents, NextConn;
      es := ConnEvents(s, st.k, s.conns[st.k], st);
    } else {
      es := if st.Admit? && st.user !in s.users then [EAdmitted(st.user)] else [];
    }
  }

  lemma StepKeepsAnswers(s: State, st: Step)
    requires AnswerInv(s) && Enabled(s, st)
    ensures AnswerInv(Apply(s, st))
  {
    hide AllTraced, AllFit;
    if TaskStep(st) {
      TaskKeepsAnswers(s, st);
    } else if ConnStep(st) {
      ConnLogs(s, st);
      hide ConnEvents, NextConn;
      QuietKeepsAnswers(s.log, ConnEvents(s, st.k, s.conns[st.k], st), s.tasks, s.tasks);
    } else {
      var es := if st.Admit? && st.user !in s.users then [EAdmitted(st.user)] else [];
      QuietKeepsAnswers(s.log, es, s.tasks, Apply(s, st).tasks);
      assert s.log + [] == s.log;
    }
  }

  lemma {:induction false} RunKeepsAnswers(s0: State, steps: seq<Step>)
    requires Initial(s0) && Feasible(s0, steps)
    ensures AnswerInv(Run(s0, steps))
    decreases |steps|
  {
    if steps != [] {
      RunKeepsAnswers(s0, steps[..|steps| - 1]);
      hide AnswerInv;
      StepKeepsAnswers(Run(s0, steps[..|steps| - 1]), steps[|steps| - 1]);
    }
  }

  // --- two answers to one request ---------------------------------------------------

  predicate BothMatch(log: seq<Event>, m1: nat, m2: nat) {
    m1 < m2 < |log| && log[m1].EMatched? && log[m2].EMatched? && log[m1].requestId == log[m2].requestId
  }

  /** Where `id` was recorded last, or -1. */
  function LastInsertion(log: seq<Event>, id: string): (i: int)
    ensures -1 <= i < |log|
    ensures i >= 0 ==> log[i].EInserted? && log[i].requestId == id
    ensures forall j :: i < j < |log| ==> !(log[j].EInserted? && log[j].requestId == id)
  {
    if log == [] then -1
    else
      var e := log[|log| - 1];
      if e.EInserted? && e.requestId == id then |log| - 1 else LastInsertion(log[..|log| - 1], id)
  }

  /** Where the request that match `m` answers was recorded. */
  function RequestOf(log: seq<Event>, m: nat): (i: int)
    requires m < |log| && log[m].EMatched?
  {
    LastInsertion(log[..m], log[m].requestId)
  }

  /** The handler of match `m` still stands between its match and its removal, and the
      request has not been recorded anew. */
  ghost predicate Holds(s: State, m: nat) {
    && m < |s.log| && s.log[m].EMatched?
    && var (t, id) := (s.log[m].task, s.log[m].requestId);
       && t < |s.tasks| && s.tasks[t].Answered? && s.tasks[t].requestId == id
       && forall j :: m < j < |s.log| ==> !(s.log[j].EInserted? && s.log[j].requestId == id)
  }

  lemma InsertionIs(log: seq<Event>, id: string, i: nat)
    requires i < |log| && log[i].EInserted? && log[i].requestId == id
    requires forall j :: i < j < |log| ==> !(log[j].EInserted? && log[j].requestId == id)
    ensures LastInsertion(log, id) == i
  {
  }

  /** The request of a match is the one that `AnswersRequest` finds. */
  lemma RequestFound(s0: State, steps: seq<Step>, m: nat) returns (l: nat)
    requires Initial(s0) && Feasible(s0, steps)
    requires m < |Run(s0, steps).log| && Run(s0, steps).log[m].EMatched?
    ensures var log, e := Run(s0, steps).log, Run(s0, steps).log[m];
            && 0 <= RequestOf(log, m)
            && AnswersRequest(s0, log, RequestOf(log, m), l, m, e.task, e.binding.session, e.requestId, e.behavior)
  {
    hide ParseVerdict, IsLatest, BindingsAfter, Allowed, Run, Feasible, LastInsertion;
    var log := Run(s0, steps).log;
    var i;
    i, l := MatchAnswersRequest(s0, steps, m);
    forall j | i < j < m
      ensures !Touches(log[j], log[m].requestId)
    {
    }
    InsertionIs(log[..m], log[m].requestId, i);
  }

  lemma Untouched(s0: State, steps: seq<Step>, m: nat)
    requires Initial(s0) && Feasible(s0, steps)
    requires m < |Run(s0, steps).log| && Run(s0, steps).log[m].EMatched?
    ensures var log := Run(s0, steps).log;
            && 0 <= RequestOf(log, m) < m
            && forall j :: RequestOf(log, m) < j < m ==> !Touches(log[j], log[m].requestId)
  {
    hide ParseVerdict, IsLatest, BindingsAfter, Allowed, Run, Feasible, LastInsertion;
    var l := RequestFound(s0, steps, m);
  }

  /** Run `before` ends in the state in which step `st` logs match `m2`. */
  lemma MatchesAgain(s0: State, before: seq<Step>, st: Step, m1: nat)
    requires Initial(s0) && Feasible(s0, before) && Enabled(Run(s0, before), st)
    ensures var (log, m2) := (Apply(Run(s0, before), st).log, |Run(s0, before).log|);
            BothMatch(log, m1, m2) ==> (RequestOf(log, m1) == RequestOf(log, m2) <==> Holds(Run(s0, before), m1))
  {
    hide Apply, Enabled;
    var s, steps := Run(s0, before), before + [st];
    if !BothMatch(Apply(s, st).log, m1, |s.log|) {
      return;
    }
    assert steps[..|steps| - 1] == before;
    assert Feasible(s0, steps) && Run(s0, steps) == Apply(s, st);
    hide Run, Feasible, LastInsertion, AllFit, RequestOf;
    var log, m2: nat, id := Apply(s, st).log, |s.log|, Apply(s, st).log[m1].requestId;
    LogsGrow(s, st);
    RunKeepsAnswers(s0, before);
    Untouched(s0, steps, m1);
    Untouched(s0, steps, m2);
    assert Traced(s.log, m1, s.tasks);
    var (i1, i2) := (RequestOf(log, m1), RequestOf(log, m2));
    assert log[..m2] == s.log;
    if i1 == i2 {
      HeldWhenUntouched(s.log, m1, s.tasks, id);
    }
    if Holds(s, m1) {
      SameInsertion(log, m1, m2);
    }
  }

  lemma HeldWhenUntouched(log: seq<Event>, m: nat, tasks: seq<Task>, id: string)
    requires m < |log| && log[m].EMatched? && log[m].requestId == id && Traced(log, m, tasks)
    requires forall j :: m < j < |log| ==> !Touches(log[j], id)
    ensures tasks[log[m].task].Answered? && tasks[log[m].task].requestId == id
    ensures forall j :: m < j < |log| ==> !(log[j].EInserted? && log[j].requestId == id)
  {
  }

  lemma SameInsertion(log: seq<Event>, m1: nat, m2: nat)
    requires BothMatch(log, m1, m2) && RequestOf(log, m2) >= 0
    requires forall j :: m1 < j < m2 ==> !(log[j].EInserted? && log[j].requestId == log[m1].requestId)
    ensures RequestOf(log, m1) == RequestOf(log, m2)
  {
    hide LastInsertion;
    var i, id := RequestOf(log, m2), log[m1].requestId;
    assert log[..m2][i] == log[i] && log[..m2][m1] == log[m1];
    assert i < m1;
    forall j | i < j < m1
      ensures !(log[..m1][j].EInserted? && log[..m1][j].requestId == id)
    {
      assert log[..m2][j] == log[j];
    }
    InsertionIs(log[..m1], id, i);
  }

  /** `st`, taken from `s`, logged the match at position `m` of `log`. */
  ghost predicate Logged(s: State, st: Step, log: seq<Event>, m: nat)
    requires m < |log| && log[m].EMatched?
  {
    Enabled(s, st) && st.Match? && st.t == log[m].task && s.log == log[..m] && Apply(s, st).log == log[..m + 1]
  }

  lemma LoggedLast(s: State, st: Step)
    requires Enabled(s, st)
    ensures var log := Apply(s, st).log;
            |s.log| < |log| && log[|s.log|].EMatched? ==> Logged(s, st, log, |s.log|)
  {
    var es := StepLogs(s, st);
    hide Apply, Enabled;
    var log := Apply(s, st).log;
    assert |s.log| < |log| ==> log[..|s.log| + 1] == log;
  }

  lemma LoggedOn(s: State, st: Step, log: seq<Event>, log': seq<Event>, m: nat)
    requires m < |log| && log[m].EMatched? && Logged(s, st, log, m) && log <= log'
    ensures Logged(s, st, log', m)
  {
    hide Apply, Enabled;
    assert log'[..m] == log[..m] && log'[..m + 1] == log[..m + 1];
  }

  lemma LogsGrow(s: State, st: Step)
    requires Enabled(s, st)
    ensures s.log <= Apply(s, st).log && |Apply(s, st).log| <= |s.log| + 1
  {
    var es := StepLogs(s, st);
  }

  lemma {:induction false} StepOf(s0: State, steps: seq<Step>, m: nat) returns (k: nat)
    requires Initial(s0) && Feasible(s0, steps)
    requires m < |Run(s0, steps).log| && Run(s0, steps).log[m].EMatched?
    ensures k < |steps| && Feasible(s0, steps[..k]) && Logged(Run(s0, steps[..k]), steps[k], Run(s0, steps).log, m)
    decreases |steps|
  {
    hide Logged, Apply, Enabled;
    var before, st := steps[..|steps| - 1], steps[|steps| - 1];
    var s := Run(s0, before);
    LogsGrow(s, st);
    if m < |s.log| {
      k := StepOf(s0, before, m);
      assert before[..k] == steps[..k];
      LoggedOn(Run(s0, before[..k]), before[k], s.log, Run(s0, steps).log, m);
    } else {
      k := |steps| - 1;
      LoggedLast(s, st);
    }
  }

  /** Two matches of one id answer the same recorded request exactly when the second is
      made while the first handler still stands between its match and its removal and the
      request has not been recorded anew. `k` is the step of the second match. */
  lemma TwoAnswersOnlyInGap(s0: State, steps: seq<Step>, m1: nat, m2: nat) returns (k: nat)
    requires Initial(s0) && Feasible(s0, steps) && BothMatch(Run(s0, steps).log, m1, m2)
    ensures k < |steps| && Feasible(s0, steps[..k]) && steps[k].Match?
    ensures var log, s := Run(s0, steps).log, Run(s0, steps[..k]);
            && s.log == log[..m2] && steps[k].t == log[m2].task
            && (RequestOf(log, m1) == RequestOf(log, m2) <==> Holds(s, m1))
  {
    k := StepOf(s0, steps, m2);
    var log, s := Run(s0, steps).log, Run(s0, steps[..k]);
    hide Run, Feasible, Apply, Enabled, Holds, LastInsertion;
    assert Logged(s, steps[k], log, m2);
    var log' := Apply(s, steps[k]).log;
    assert log'[m1] == log[m1] && log'[m2] == log[m2] && log'[..m1] == log[..m1] && log'[..m2] == log[..m2];
    MatchesAgain(s0, steps[..k], steps[k], m1);
  }

  // --- whole runs ---------------------------------------------------------------------

  /** Step `st` matches a request whose entry an earlier handler has matched and not yet
      removed, both handlers being in `among`. */
  ghost predicate Races(s: State, st: Step, among: nat -> bool)
    requires Enabled(s, st)
  {
    st.Match? && NextTask(s, s.tasks[st.t], st).Answered? && among(st.t)
    && exists m: nat :: Holds(s, m) && among(s.log[m].task)
                        && s.log[m].requestId == NextTask(s, s.tasks[st.t], st).requestId
  }

  ghost predicate RaceFree(s0: State, steps: seq<Step>, among: nat -> bool)
    requires Feasible(s0, steps)
  {
    steps == []
    || (RaceFree(s0, steps[..|steps| - 1], among)
        && !Races(Run(s0, steps[..|steps| - 1]), steps[|steps| - 1], among))
  }

  /** No recorded request is answered by two of the handlers. */
  ghost predicate AnsweredOnce(log: seq<Event>, among: nat -> bool) {
    forall m1: nat, m2: nat :: BothMatch(log, m1, m2) && among(log[m1].task) && among(log[m2].task) ==>
      RequestOf(log, m1) != RequestOf(log, m2)
  }

  ghost predicate AnsweredAgain(log: seq<Event>, n: nat, among: nat -> bool)
    requires n < |log|
  {
    exists m: nat :: BothMatch(log, m, n) && among(log[m].task) && among(log[n].task)
                     && RequestOf(log, m) == RequestOf(log, n)
  }

  lemma AnsweredOnceNext(log: seq<Event>, e: Event, among: nat -> bool)
    ensures AnsweredOnce(log + [e], among) <==>
              AnsweredOnce(log, among) && !AnsweredAgain(log + [e], |log|, among)
  {
    var all := log + [e];
    forall m: nat | m < |log| && log[m].EMatched?
      ensures RequestOf(all, m) == RequestOf(log, m)
    {
      assert all[..m] == log[..m];
    }
    hide LastInsertion, RequestOf;
    if AnsweredOnce(log, among) && !AnsweredAgain(all, |log|, among) {
      forall m1: nat, m2: nat | BothMatch(all, m1, m2) && among(all[m1].task) && among(all[m2].task)
        ensures RequestOf(all, m1) != RequestOf(all, m2)
      {
        assert m2 < |log| ==> BothMatch(log, m1, m2);
      }
    }
    if AnsweredOnce(all, among) {
      forall m1: nat, m2: nat | BothMatch(log, m1, m2) && among(log[m1].task) && among(log[m2].task)
        ensures RequestOf(log, m1) != RequestOf(log, m2)
      {
        assert BothMatch(all, m1, m2);
      }
    }
  }

  lemma RacesIsAgain(s0: State, before: seq<Step>, st: Step, among: nat -> bool)
    requires Initial(s0) && Feasible(s0, before) && Enabled(Run(s0, before), st)
    ensures var (s, log) := (Run(s0, before), Apply(Run(s0, before), st).log);
            Races(s, st, among) <==> |log| > |s.log| && AnsweredAgain(log, |s.log|, among)
  {
    var s, log := Run(s0, before), Apply(Run(s0, before), st).log;
    var es := StepLogs(s, st);
    hide Run, Feasible, Apply, Enabled, NextTask, LastInsertion, Holds, RequestOf;
    if Races(s, st, among) {
      var m: nat :| Holds(s, m) && among(s.log[m].task)
                    && s.log[m].requestId == NextTask(s, s.tasks[st.t], st).requestId;
      HoldsMatch(s, m);
      assert BothMatch(log, m, |s.log|);
      MatchesAgain(s0, before, st, m);
    }
    if |log| > |s.log| && AnsweredAgain(log, |s.log|, among) {
      var m: nat :| BothMatch(log, m, |s.log|) && among(log[m].task) && among(log[|s.log|].task)
                    && RequestOf(log, m) == RequestOf(log, |s.log|);
      MatchesAgain(s0, before, st, m);
    }
  }

  lemma HoldsMatch(s: State, m: nat)
    requires Holds(s, m)
    ensures m < |s.log| && s.log[m].EMatched?
  {
  }

  /** A recorded request is answered at most once exactly in the runs in which no handler
      matches a request that another has matched, not yet removed and nobody has recorded
      anew. */
  lemma {:induction false} OneAnswerPerRequest(s0: State, steps: seq<Step>, among: nat -> bool)
    requires Initial(s0) && Feasible(s0, steps)
    ensures AnsweredOnce(Run(s0, steps).log, among) <==> RaceFree(s0, steps, among)
    decreases |steps|
  {
    if steps != [] {
      var before, st := steps[..|steps| - 1], steps[|steps| - 1];
      var s := Run(s0, before);
      OneAnswerPerRequest(s0, before, among);
      RacesIsAgain(s0, before, st, among);
      var es := StepLogs(s, st);
      hide Apply, Enabled, AnsweredOnce, AnsweredAgain, Races;
      if es == [] {
        assert s.log + es == s.log;
      } else {
        assert es == [es[0]];
        AnsweredOnceNext(s.log, es[0], among);
      }
    }
  }

  // --- verdicts -------------------------------------------------------------------------

  predicate IsVerdict(log: seq<Event>, q: nat) {
    q < |log| && log[q].EQueued? && log[q].msg.PermissionVerdict?
  }

  /** Where handler `t` matched, or -1. */
  function MatchBy(log: seq<Event>, t: nat): (m: int)
    ensures -1 <= m < |log|
    ensures m >= 0 ==> log[m].EMatched? && log[m].task == t
    ensures m < 0 ==> forall j :: 0 <= j < |log| ==> !(log[j].EMatched? && log[j].task == t)
  {
    if log == [] then -1
    else
      var e := log[|log| - 1];
      if e.EMatched? && e.task == t then |log| - 1 else MatchBy(log[..|log| - 1], t)
  }

  /** Where the request that the queued verdict `q` answers was recorded, or -1. */
  function InsertionOf(log: seq<Event>, q: nat): (i: int)
    requires IsVerdict(log, q)
  {
    var m := MatchBy(log, log[q].task);
    if m < 0 then -1 else RequestOf(log, m)
  }

  /** Every queued verdict has a match by the same handler, of the same id and behaviour,
      and `InsertionOf` is the request it answers. */
  lemma VerdictAnswers(s0: State, steps: seq<Step>, q: nat) returns (l: nat)
    requires Initial(s0) && Feasible(s0, steps) && IsVerdict(Run(s0, steps).log, q)
    ensures var log := Run(s0, steps).log;
            var (e, m) := (log[q], MatchBy(log, log[q].task));
            && 0 <= m < q && log[m].requestId == e.msg.requestId && log[m].behavior == e.msg.behavior
            && 0 <= InsertionOf(log, q)
            && AnswersRequest(s0, log, InsertionOf(log, q), l, m, e.task, e.session, e.msg.requestId, e.msg.behavior)
  {
    hide ParseVerdict, IsLatest, BindingsAfter, Allowed, LastTouch, Run, Feasible, RequestOf;
    var log := Run(s0, steps).log;
    LogIsJustified(s0, steps, q);
    var r, m := AnswerIndices(log, q, log[q].task, log[q].session, log[q].msg.requestId, log[q].msg.behavior);
    RunKeepsAnswers(s0, steps);
    OneMatch(log, m);
    l := RequestFound(s0, steps, m);
  }

  lemma OneMatch(log: seq<Event>, m: nat)
    requires AllFit(log) && m < |log| && log[m].EMatched?
    ensures MatchBy(log, log[m].task) == m
  {
    hide MatchBy, AllFit;
    var n := MatchBy(log, log[m].task);
    if n != m {
      OneOfAKind(log, m, n);
    }
  }

  /** Handlers that put a message on a queue. */
  ghost function Senders(log: seq<Event>): nat -> bool {
    t => exists q :: 0 <= q < |log| && log[q].EQueued? && log[q].task == t
  }

  predicate BothVerdicts(log: seq<Event>, q1: nat, q2: nat) {
    q1 < q2 && IsVerdict(log, q1) && IsVerdict(log, q2) && log[q1].msg.requestId == log[q2].msg.requestId
  }

  ghost predicate VerdictsDiffer(log: seq<Event>) {
    forall q1: nat, q2: nat :: BothVerdicts(log, q1, q2) ==> InsertionOf(log, q1) != InsertionOf(log, q2)
  }

  ghost predicate HasMatch(log: seq<Event>, q: nat)
    requires IsVerdict(log, q)
  {
    var m := MatchBy(log, log[q].task);
    0 <= m < q && log[m].requestId == log[q].msg.requestId
  }

  lemma VerdictsFromAnswers(log: seq<Event>, q1: nat, q2: nat)
    requires AllFit(log) && AnsweredOnce(log, Senders(log))
    requires BothVerdicts(log, q1, q2) && HasMatch(log, q1) && HasMatch(log, q2)
    ensures InsertionOf(log, q1) != InsertionOf(log, q2)
  {
    hide MatchBy, RequestOf;
    OneOfAKind(log, q1, q2);
    var m1: nat, m2: nat := MatchBy(log, log[q1].task), MatchBy(log, log[q2].task);
    if m1 < m2 {
      assert BothMatch(log, m1, m2);
    } else {
      assert BothMatch(log, m2, m1);
    }
  }

  /** Two answering handlers that both send, send two verdicts. */
  lemma AnswersFromVerdicts(log: seq<Event>, m1: nat, m2: nat)
    requires AllFit(log) && VerdictsDiffer(log)
    requires BothMatch(log, m1, m2) && Senders(log)(log[m1].task) && Senders(log)(log[m2].task)
    ensures RequestOf(log, m1) != RequestOf(log, m2)
  {
    var q1: nat :| q1 < |log| && log[q1].EQueued? && log[q1].task == log[m1].task;
    var q2: nat :| q2 < |log| && log[q2].EQueued? && log[q2].task == log[m2].task;
    OneOfAKind(log, m1, m2);
    SentVerdict(log, m1, q1);
    SentVerdict(log, m2, q2);
    OneMatch(log, m1);
    OneMatch(log, m2);
    hide MatchBy, RequestOf, AllFit;
    assert BothVerdicts(log, q1, q2) || BothVerdicts(log, q2, q1);
  }

  lemma SentVerdict(log: seq<Event>, m: nat, q: nat)
    requires AllFit(log) && m < |log| && q < |log| && log[m].EMatched? && log[q].EQueued? && log[q].task == log[m].task
    ensures log[q].msg == PermissionVerdict(log[m].requestId, log[m].behavior)
  {
    hide AllFit;
    if m < q {
      FitsInOrder(log, m, q);
    } else if q < m {
      FitsInOrder(log, q, m);
    }
  }

  /** Each recorded request yields at most one verdict exactly in the runs in which no two
      handlers that both deliver race for it. */
  lemma OneVerdictPerInsertion(s0: State, steps: seq<Step>)
    requires Initial(s0) && Feasible(s0, steps)
    ensures var log := Run(s0, steps).log; VerdictsDiffer(log) <==> RaceFree(s0, steps, Senders(log))
  {
    hide RaceFree, InsertionOf, RequestOf, MatchBy;
    var log := Run(s0, steps).log;
    OneAnswerPerRequest(s0, steps, Senders(log));
    RunKeepsAnswers(s0, steps);
    if AnsweredOnce(log, Senders(log)) {
      forall q1: nat, q2: nat | BothVerdicts(log, q1, q2)
        ensures InsertionOf(log, q1) != InsertionOf(log, q2)
      {
        var l1 := VerdictAnswers(s0, steps, q1);
        var l2 := VerdictAnswers(s0, steps, q2);
        VerdictsFromAnswers(log, q1, q2);
      }
    }
    if VerdictsDiffer(log) {
      forall m1: nat, m2: nat | BothMatch(log, m1, m2) && Senders(log)(log[m1].task) && Senders(log)(log[m2].task)
        ensures RequestOf(log, m1) != RequestOf(log, m2)
      {
        AnswersFromVerdicts(log, m1, m2);
      }
    }
  }

  /** Each message on a queue belongs to one accepted delivery, and no accepted delivery
      has two: `a` and `b` are the acceptances of the messages `q` and `r`. */
  lemma OneMessagePerAcceptance(s0: State, steps: seq<Step>, q: nat, r: nat) returns (a: nat, b: nat)
    requires Initial(s0) && Feasible(s0, steps)
    requires q < r < |Run(s0, steps).log| && Run(s0, steps).log[q].EQueued? && Run(s0, steps).log[r].EQueued?
    ensures var log := Run(s0, steps).log;
            && a < q && log[a] == EAccepted(log[q].task, log[q].eventId)
            && b < r && log[b] == EAccepted(log[r].task, log[r].eventId)
            && a != b
            && forall j :: 0 <= j < |log| && log[j].EAccepted? && log[j].task == log[q].task ==> j == a
  {
    hide ParseVerdict, IsLatest, BindingsAfter, Allowed, LastTouch, Run, Feasible, MessageJustified, AllFit;
    var log := Run(s0, steps).log;
    LogIsJustified(s0, steps, q);
    LogIsJustified(s0, steps, r);
    a := IndexOf(log[..q], EAccepted(log[q].task, log[q].eventId));
    b := IndexOf(log[..r], EAccepted(log[r].task, log[r].eventId));
    RunKeepsAnswers(s0, steps);
    OneOfAKind(log, q, r);
    forall j | 0 <= j < |log| && log[j].EAccepted? && log[j].task == log[q].task
      ensures j == a
    {
      if j != a {
        OneOfAKind(log, j, a);
      }
    }
  }
}
