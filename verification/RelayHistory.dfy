/** Where verdicts and messages come from: every frame that reaches an agent is traced
    back through the log of the run, whatever the interleaving. */
module RelayHistory {
  import opened Wrappers
  import opened Text
  import opened Verdict
  import opened Permission
  import opened Relay
  import RelayHub
  import Chunk
  import Dedupe

  // --- replaying the log ------------------------------------------------------

  function Replay(bindings: map<string, Binding>, e: Event): map<string, Binding> {
    match e
    case EBound(chatId, binding) => bindings[chatId := binding]
    case EUnbound(channel, user) => Unbound(bindings, channel, user)
    case _ => bindings
  }

  /** The bindings after `log`, starting from those loaded from the state file. */
  function BindingsAfter(loaded: map<string, Binding>, log: seq<Event>): map<string, Binding> {
    if log == [] then loaded
    else Replay(BindingsAfter(loaded, log[..|log| - 1]), log[|log| - 1])
  }

  predicate Allowed(loaded: seq<string>, log: seq<Event>, user: string) {
    user in loaded || EAdmitted(user) in log
  }

  predicate Touches(e: Event, id: string) {
    (e.EInserted? || e.ERemoved? || e.EWithdrawn?) && e.requestId == id
  }

  /** The last insertion or removal of a pending request. */
  function LastTouch(log: seq<Event>, id: string): Option<Event> {
    if log == [] then None
    else if Touches(log[|log| - 1], id) then Some(log[|log| - 1])
    else LastTouch(log[..|log| - 1], id)
  }

  predicate InsertedAs(e: Option<Event>, session: string, chatId: string, created: int) {
    e.Some? && e.value.EInserted? && e.value.session == session && e.value.chatId == chatId
    && e.value.created == created
  }

  lemma ReplayAppend(loaded: map<string, Binding>, log: seq<Event>, e: Event)
    ensures BindingsAfter(loaded, log + [e]) == Replay(BindingsAfter(loaded, log), e)
  {
    assert (log + [e])[..|log + [e]| - 1] == log;
  }

  lemma TouchAppend(log: seq<Event>, e: Event, id: string)
    ensures LastTouch(log + [e], id) == if Touches(e, id) then Some(e) else LastTouch(log, id)
  {
    assert (log + [e])[..|log + [e]| - 1] == log;
  }

  /** The position of the last touch, and nothing touches the entry after it. */
  lemma {:induction false} LastTouchIndex(log: seq<Event>, id: string) returns (i: nat)
    requires LastTouch(log, id).Some?
    ensures i < |log| && Some(log[i]) == LastTouch(log, id) && Touches(log[i], id)
    ensures forall j :: i < j < |log| ==> !Touches(log[j], id)
  {
    if Touches(log[|log| - 1], id) {
      i := |log| - 1;
    } else {
      i := LastTouchIndex(log[..|log| - 1], id);
    }
  }

  // --- what each event presupposes --------------------------------------------

  /** Task `t` matched the verdict `behavior` on request `id` of `session`. */
  ghost predicate MatchedBy(log: seq<Event>, t: nat, session: string, id: string, behavior: Behavior) {
    exists c, b: Binding, now :: EMatched(t, c, b, id, behavior, now) in log && b.session == session
  }

  /** ... and then removed the request. */
  ghost predicate AnsweredBy(log: seq<Event>, t: nat, session: string, id: string, behavior: Behavior) {
    exists r :: 0 <= r < |log| && log[r] == ERemoved(id, t) && MatchedBy(log[..r], t, session, id, behavior)
  }

  ghost predicate LookedUp(log: seq<Event>, t: nat, session: string, msg: RelayMsg) {
    exists c, b: Binding :: ELooked(t, c, b) in log && b.session == session
                            && msg == Inbound(c.chatId, c.user, c.text)
  }

  ghost predicate MessageJustified(log: seq<Event>, t: nat, session: string, msg: RelayMsg) {
    match msg
    case PermissionVerdict(id, behavior) => AnsweredBy(log, t, session, id, behavior)
    case Inbound(_, _, _) => LookedUp(log, t, session, msg)
    case _ => false
  }

  ghost predicate QueuedFor(log: seq<Event>, k: nat, msg: RelayMsg) {
    exists t, eventId, session :: EQueued(t, eventId, k, session, msg) in log
  }

  /** `e` may follow the log `pre` in a run that starts from the state `s0`. */
  ghost predicate Justified(s0: State, pre: seq<Event>, e: Event) {
    match e
    case ELooked(t, c, b) =>
      && Allowed(s0.users, pre, c.user)
      && c.chatId in BindingsAfter(s0.bindings, pre) && BindingsAfter(s0.bindings, pre)[c.chatId] == b
    case EMatched(t, c, b, id, behavior, now) =>
      && ELooked(t, c, b) in pre && c.user == b.user
      && ParseVerdict(c.text) == Some((id, behavior))
      && LastTouch(pre, id).Some? && LastTouch(pre, id).value.EInserted?
      && InsertedAs(LastTouch(pre, id), b.session, c.chatId, LastTouch(pre, id).value.created)
      && now - LastTouch(pre, id).value.created <= PENDING_TTL_SECS
    case EInserted(k, session, id, chatId, created) =>
      ERegistered(k, session) in pre && IsLatest(BindingsAfter(s0.bindings, pre), session, chatId)
    case EQueued(t, eventId, k, session, msg) =>
      && ERegistered(k, session) in pre && EAccepted(t, eventId) in pre
      && MessageJustified(pre, t, session, msg)
    case EFrame(k, msg) =>
      msg.Inbound? || msg.PermissionVerdict? ==> QueuedFor(pre, k, msg)
    case _ => true
  }

  ghost predicate LogJustified(s0: State, log: seq<Event>) {
    forall n :: 0 <= n < |log| ==> Justified(s0, log[..n], log[n])
  }

  ghost predicate TaskJustified(log: seq<Event>, t: nat, task: Task) {
    match task
    case Fresh(eventId, c) => EAccepted(t, eventId) in log
    case Bound(eventId, c, b) => EAccepted(t, eventId) in log && ELooked(t, c, b) in log
    case Answered(eventId, c, b, id, behavior) =>
      EAccepted(t, eventId) in log && MatchedBy(log, t, b.session, id, behavior)
    case Forwarding(eventId, c, session, msg) =>
      EAccepted(t, eventId) in log && MessageJustified(log, t, session, msg)
    case Enqueuing(eventId, c, session, msg, k) =>
      EAccepted(t, eventId) in log && MessageJustified(log, t, session, msg) && ERegistered(k, session) in log
    case _ => true
  }

  ghost predicate TasksJustified(log: seq<Event>, tasks: seq<Task>) {
    forall t :: 0 <= t < |tasks| ==> TaskJustified(log, t, tasks[t])
  }

  ghost predicate PendingJustified(log: seq<Event>, pending: map<string, Pending>) {
    forall id :: id in pending ==>
      InsertedAs(LastTouch(log, id), pending[id].session, pending[id].chatId, pending[id].created)
  }

  ghost predicate StoreReplayed(s0: State, s: State) {
    && s.bindings == BindingsAfter(s0.bindings, s.log)
    && (forall u :: u in s.users ==> Allowed(s0.users, s.log, u))
  }

  ghost predicate HistoryInv(s0: State, s: State) {
    && RelayHub.HubInv(s) && RelayHub.FramesInv(s)
    && StoreReplayed(s0, s) && PendingJustified(s.log, s.pending)
    && TasksJustified(s.log, s.tasks) && LogJustified(s0, s.log)
  }

  // --- growing the log keeps what it justifies ----------------------------------

  lemma MessageStays(log: seq<Event>, es: seq<Event>, t: nat, session: string, msg: RelayMsg)
    requires MessageJustified(log, t, session, msg)
    ensures MessageJustified(log + es, t, session, msg)
  {
    if msg.PermissionVerdict? {
      var r :| 0 <= r < |log| && log[r] == ERemoved(msg.requestId, t)
               && MatchedBy(log[..r], t, session, msg.requestId, msg.behavior);
      assert (log + es)[r] == log[r] && (log + es)[..r] == log[..r];
    } else {
      var c, b: Binding :| ELooked(t, c, b) in log && b.session == session
                           && msg == Inbound(c.chatId, c.user, c.text);
      assert ELooked(t, c, b) in log + es;
    }
  }

  lemma TaskStays(log: seq<Event>, es: seq<Event>, t: nat, task: Task)
    requires TaskJustified(log, t, task)
    ensures TaskJustified(log + es, t, task)
  {
    hide MessageJustified;
    if task.Forwarding? || task.Enqueuing? {
      MessageStays(log, es, t, task.session, task.msg);
    } else if task.Answered? {
      var c, b: Binding, now :| EMatched(t, c, b, task.requestId, task.behavior, now) in log
                                && b.session == task.binding.session;
      assert EMatched(t, c, b, task.requestId, task.behavior, now) in log + es;
    }
  }

  lemma TasksStay(log: seq<Event>, es: seq<Event>, tasks: seq<Task>)
    requires TasksJustified(log, tasks)
    ensures TasksJustified(log + es, tasks)
  {
    hide TaskJustified;
    forall t | 0 <= t < |tasks|
      ensures TaskJustified(log + es, t, tasks[t])
    {
      TaskStays(log, es, t, tasks[t]);
    }
  }

  lemma LogGrows(s0: State, log: seq<Event>, es: seq<Event>)
    requires LogJustified(s0, log) && |es| <= 1
    requires es != [] ==> Justified(s0, log, es[0])
    ensures LogJustified(s0, log + es)
  {
    hide Justified;
    forall n | 0 <= n < |log + es|
      ensures Justified(s0, (log + es)[..n], (log + es)[n])
    {
      if n < |log| {
        assert (log + es)[..n] == log[..n];
      } else {
        assert (log + es)[..n] == log;
      }
    }
  }

  /** Events that touch no request leave the table justified. */
  lemma PendingStays(log: seq<Event>, es: seq<Event>, pending: map<string, Pending>, pending': map<string, Pending>)
    requires PendingJustified(log, pending) && |es| <= 1
    requires forall id :: id in pending' ==> id in pending && pending'[id] == pending[id]
    requires es != [] ==> forall id :: id in pending' ==> !Touches(es[0], id)
    ensures PendingJustified(log + es, pending')
  {
    hide LastTouch, InsertedAs, Touches;
    if es == [] {
      assert log + es == log;
    } else {
      assert es == [es[0]];
      forall id | id in pending'
        ensures LastTouch(log + es, id) == LastTouch(log, id)
      {
        TouchAppend(log, es[0], id);
      }
    }
  }

  // --- steps of Slack handlers ---------------------------------------------------

  lemma MatchJustified(s0: State, s: State, t: nat, task: Task, now: int)
    requires PendingJustified(s.log, s.pending) && task.Bound? && TaskJustified(s.log, t, task)
    requires MatchVerdict(Sweep(s.pending, now), task.c, task.binding).Some?
    ensures var v := MatchVerdict(Sweep(s.pending, now), task.c, task.binding).value;
            Justified(s0, s.log, EMatched(t, task.c, task.binding, v.0, v.1, now))
  {
    hide ParseVerdict, LastTouch;
    var v := MatchVerdict(Sweep(s.pending, now), task.c, task.binding).value;
    assert v.0 in s.pending && now - s.pending[v.0].created <= PENDING_TTL_SECS;
  }

  lemma TaskEventJustified(s0: State, s: State, st: Step)
    requires HistoryInv(s0, s) && TaskStep(st) && Enabled(s, st)
    ensures var es := TaskEvents(s, st.t, s.tasks[st.t], st);
            |es| <= 1 && (es != [] ==> Justified(s0, s.log, es[0]))
  {
    hide RelayHub.HubInv, RelayHub.FramesInv, PendingJustified, LogJustified, MessageJustified;
    hide ParseVerdict, LastTouch, MatchVerdict, Sweep, BindingsAfter, Allowed, Dedupe.Next, Unbound;
    var task := s.tasks[st.t];
    assert TaskJustified(s.log, st.t, task);
    if st.Match? && MatchVerdict(Sweep(s.pending, st.now), task.c, task.binding).Some? {
      MatchJustified(s0, s, st.t, task, st.now);
    }
  }

  lemma SenderRegistered(s: State, session: string)
    requires RelayHub.HubInv(s) && session in s.hub
    ensures ERegistered(s.hub[session], session) in s.log
  {
    assert RelayHub.LogMatchesConn(s.log, s.hub[session], s.conns[s.hub[session]]);
  }

  lemma MatchedNow(log: seq<Event>, t: nat, c: Candidate, b: Binding, id: string, behavior: Behavior, now: int)
    ensures MatchedBy(log + [EMatched(t, c, b, id, behavior, now)], t, b.session, id, behavior)
  {
    assert EMatched(t, c, b, id, behavior, now) in log + [EMatched(t, c, b, id, behavior, now)];
  }

  lemma RemovedNow(log: seq<Event>, t: nat, session: string, id: string, behavior: Behavior)
    requires MatchedBy(log, t, session, id, behavior)
    ensures MessageJustified(log + [ERemoved(id, t)], t, session, PermissionVerdict(id, behavior))
  {
    var log' := log + [ERemoved(id, t)];
    assert log'[|log|] == ERemoved(id, t) && log'[..|log|] == log;
  }

  lemma InboundJustified(log: seq<Event>, t: nat, c: Candidate, b: Binding)
    requires ELooked(t, c, b) in log
    ensures MessageJustified(log, t, b.session, Inbound(c.chatId, c.user, c.text))
  {
  }

  lemma TaskNextJustified(s0: State, s: State, st: Step)
    requires HistoryInv(s0, s) && TaskStep(st) && Enabled(s, st)
    ensures var task := s.tasks[st.t];
            TaskJustified(s.log + TaskEvents(s, st.t, task, st), st.t, NextTask(s, task, st))
  {
    hide RelayHub.HubInv, RelayHub.FramesInv, PendingJustified, LogJustified, StoreReplayed;
    hide MatchVerdict, Sweep, Dedupe.Next, Unbound, MatchedBy, MessageJustified;
    var task := s.tasks[st.t];
    var es := TaskEvents(s, st.t, task, st);
    assert TaskJustified(s.log, st.t, task);
    match st {
      case Match(_, now) =>
        var v := MatchVerdict(Sweep(s.pending, now), task.c, task.binding);
        if v.Some? {
          MatchedNow(s.log, st.t, task.c, task.binding, v.value.0, v.value.1, now);
        } else {
          InboundJustified(s.log, st.t, task.c, task.binding);
          assert s.log + es == s.log;
        }
      case Forget(_) =>
        RemovedNow(s.log, st.t, task.binding.session, task.requestId, task.behavior);
      case FindSender(_) =>
        if task.session in s.hub {
          SenderRegistered(s, task.session);
          assert s.log + es == s.log;
        }
      case _ =>
    }
  }

  lemma TaskKeepsTasks(s0: State, s: State, st: Step)
    requires HistoryInv(s0, s) && TaskStep(st) && Enabled(s, st)
    ensures TasksJustified(ApplyTask(s, st).log, ApplyTask(s, st).tasks)
  {
    TaskNextJustified(s0, s, st);
    hide TaskJustified, NextTask, TaskEvents, TaskConns, TaskPending, TaskBindings, TaskOrder;
    hide RelayHub.HubInv, RelayHub.FramesInv, PendingJustified, LogJustified, StoreReplayed, TaskReady;
    TasksStay(s.log, TaskEvents(s, st.t, s.tasks[st.t], st), s.tasks);
  }

  lemma TaskKeepsPending(s0: State, s: State, st: Step)
    requires PendingJustified(s.log, s.pending) && TaskStep(st) && Enabled(s, st)
    ensures PendingJustified(ApplyTask(s, st).log, ApplyTask(s, st).pending)
  {
    hide PendingJustified, MatchVerdict, Dedupe.Next, Unbound;
    var task := s.tasks[st.t];
    PendingStays(s.log, TaskEvents(s, st.t, task, st), s.pending, TaskPending(s, task, st));
  }

  lemma TaskKeepsStore(s0: State, s: State, st: Step)
    requires StoreReplayed(s0, s) && TaskStep(st) && Enabled(s, st)
    ensures StoreReplayed(s0, ApplyTask(s, st))
  {
    hide MatchVerdict, Sweep, Dedupe.Next, Unbound, BindingsAfter;
    var task := s.tasks[st.t];
    var es := TaskEvents(s, st.t, task, st);
    if es == [] {
      assert s.log + es == s.log;
    } else {
      assert es == [es[0]];
      ReplayAppend(s0.bindings, s.log, es[0]);
    }
  }

  // --- steps of agent connections ---------------------------------------------------

  lemma {:induction false} QueuedMember(log: seq<Event>, k: nat, msg: RelayMsg)
    requires msg in RelayHub.Queued(log, k)
    ensures QueuedFor(log, k, msg)
  {
    var e, before := log[|log| - 1], log[..|log| - 1];
    if msg in RelayHub.Queued(before, k) {
      QueuedMember(before, k, msg);
      var t, eventId, session :| EQueued(t, eventId, k, session, msg) in before;
      assert EQueued(t, eventId, k, session, msg) in log;
    } else {
      assert e == EQueued(e.task, e.eventId, k, e.session, msg) && e in log;
    }
  }

  lemma InFlightQueued(s: State, k: nat)
    requires RelayHub.FramesInv(s) && k < |s.conns| && s.conns[k].phase.Sending?
    ensures QueuedFor(s.log, k, s.conns[k].phase.msg)
  {
    hide RelayHub.Queued, RelayHub.Frames;
    var conn, queued, frames := s.conns[k], RelayHub.Queued(s.log, k), RelayHub.Frames(s.log, k);
    assert RelayHub.Conserved(queued, frames, conn);
    assert queued[|frames| - 1] == conn.phase.msg;
    QueuedMember(s.log, k, conn.phase.msg);
  }

  lemma ConnRegistered(s: State, k: nat)
    requires RelayHub.HubInv(s) && k < |s.conns| && InHub(s.conns[k].phase)
    ensures ERegistered(k, s.conns[k].name) in s.log
  {
    assert RelayHub.LogMatchesConn(s.log, k, s.conns[k]);
  }

  lemma ConnEventJustified(s0: State, s: State, st: Step)
    requires HistoryInv(s0, s) && ConnStep(st) && Enabled(s, st)
    ensures var es := ConnEvents(s, st.k, s.conns[st.k], st);
            |es| <= 1 && (es != [] ==> Justified(s0, s.log, es[0]))
  {
    hide RelayHub.HubInv, RelayHub.FramesInv, PendingJustified, LogJustified, TasksJustified;
    hide IsLatest, BindingsAfter, Refusal, QueuedFor;
    if st.Send? {
      InFlightQueued(s, st.k);
    } else if st.Request? {
      ConnRegistered(s, st.k);
    }
  }

  lemma InsertKeepsPending(log: seq<Event>, pending: map<string, Pending>, k: nat, id: string, p: Pending)
    requires PendingJustified(log, pending)
    ensures PendingJustified(log + [EInserted(k, p.session, id, p.chatId, p.created)], pending[id := p])
  {
    hide LastTouch;
    var e := EInserted(k, p.session, id, p.chatId, p.created);
    forall x
      ensures LastTouch(log + [e], x) == if x == id then Some(e) else LastTouch(log, x)
    {
      TouchAppend(log, e, x);
    }
  }

  lemma ConnKeepsPending(s: State, st: Step)
    requires PendingJustified(s.log, s.pending) && ConnStep(st) && Enabled(s, st)
    ensures PendingJustified(ApplyConn(s, st).log, ApplyConn(s, st).pending)
  {
    hide PendingJustified, NextConn, LatestIs, Refusal;
    var conn := s.conns[st.k];
    var es := ConnEvents(s, st.k, conn, st);
    if st.Request? {
      var swept := Sweep(s.pending, st.now);
      PendingStays(s.log, [], s.pending, swept);
      assert s.log + [] == s.log;
      if st.chat.Some? {
        InsertKeepsPending(s.log, swept, st.k, st.requestId, Pending(st.chat.value, conn.name, st.now));
      }
    } else {
      PendingStays(s.log, es, s.pending, ConnPending(s, conn, st));
    }
  }

  lemma ConnKeepsStore(s0: State, s: State, st: Step)
    requires StoreReplayed(s0, s) && ConnStep(st) && Enabled(s, st)
    ensures StoreReplayed(s0, ApplyConn(s, st))
  {
    hide NextConn, LatestIs, Refusal, BindingsAfter, ConnHub, ConnPending;
    var es := ConnEvents(s, st.k, s.conns[st.k], st);
    if es == [] {
      assert s.log + es == s.log;
    } else {
      assert es == [es[0]] && Replay(s.bindings, es[0]) == s.bindings;
      ReplayAppend(s0.bindings, s.log, es[0]);
    }
  }

  // --- every run -----------------------------------------------------------------

  lemma TaskKeepsHistory(s0: State, s: State, st: Step)
    requires HistoryInv(s0, s) && TaskStep(st) && Enabled(s, st)
    ensures HistoryInv(s0, ApplyTask(s, st))
  {
    TaskEventJustified(s0, s, st);
    TaskKeepsTasks(s0, s, st);
    TaskKeepsPending(s0, s, st);
    TaskKeepsStore(s0, s, st);
    RelayHub.TaskKeepsHub(s, st);
    RelayHub.TaskKeepsFrames(s, st);
    hide RelayHub.HubInv, RelayHub.FramesInv, PendingJustified, LogJustified, StoreReplayed, TasksJustified;
    hide TaskEvents, Justified;
    LogGrows(s0, s.log, TaskEvents(s, st.t, s.tasks[st.t], st));
  }

  lemma ConnKeepsHistory(s0: State, s: State, st: Step)
    requires HistoryInv(s0, s) && ConnStep(st) && Enabled(s, st)
    ensures HistoryInv(s0, ApplyConn(s, st))
  {
    hide RelayHub.HubInv, RelayHub.FramesInv, PendingJustified, LogJustified, StoreReplayed, TasksJustified;
    hide ConnEvents, ConnHub, ConnPending, NextConn, ConnReady, Justified;
    var es := ConnEvents(s, st.k, s.conns[st.k], st);
    ConnEventJustified(s0, s, st);
    ConnKeepsPending(s, st);
    ConnKeepsStore(s0, s, st);
    RelayHub.ConnKeepsHub(s, st);
    RelayHub.ConnKeepsFrames(s, st);
    LogGrows(s0, s.log, es);
    TasksStay(s.log, es, s.tasks);
  }

  lemma AdmitKeepsHistory(s0: State, s: State, user: string)
    requires HistoryInv(s0, s) && user !in s.users
    ensures HistoryInv(s0, Apply(s, Admit(user)))
  {
    RelayHub.OtherKeepsHub(s, Admit(user));
    RelayHub.StepKeepsFrames(s, Admit(user));
    hide RelayHub.HubInv, RelayHub.FramesInv, PendingJustified, LogJustified, BindingsAfter, TasksJustified, TaskStep,
      ConnStep, ApplyTask, ApplyConn, LastTouch;
    var es := [EAdmitted(user)];
    TasksStay(s.log, es, s.tasks);
    PendingStays(s.log, es, s.pending, s.pending);
    LogGrows(s0, s.log, es);
    ReplayAppend(s0.bindings, s.log, es[0]);
  }

  lemma OtherKeepsHistory(s0: State, s: State, st: Step)
    requires HistoryInv(s0, s) && Enabled(s, st) && !TaskStep(st) && !ConnStep(st)
    ensures HistoryInv(s0, Apply(s, st))
  {
    if st.Admit? {
      if st.user !in s.users {
        AdmitKeepsHistory(s0, s, st.user);
      }
    } else {
      RelayHub.OtherKeepsHub(s, st);
      RelayHub.StepKeepsFrames(s, st);
      hide RelayHub.HubInv, RelayHub.FramesInv, PendingJustified, LogJustified, StoreReplayed;
    }
  }

  lemma {:induction false} RunKeepsHistory(s0: State, steps: seq<Step>)
    requires Initial(s0) && Feasible(s0, steps)
    ensures HistoryInv(s0, Run(s0, steps))
    decreases |steps|
  {
    if steps == [] {
      RelayHub.RunKeepsHub(s0, steps);
      RelayHub.RunKeepsFrames(s0, steps);
    } else {
      hide HistoryInv;
      var before, st := steps[..|steps| - 1], steps[|steps| - 1];
      RunKeepsHistory(s0, before);
      if TaskStep(st) {
        TaskKeepsHistory(s0, Run(s0, before), st);
      } else if ConnStep(st) {
        ConnKeepsHistory(s0, Run(s0, before), st);
      } else {
        OtherKeepsHistory(s0, Run(s0, before), st);
      }
    }
  }

  // --- what the log of any run shows -----------------------------------------------

  lemma IndexOf(log: seq<Event>, e: Event) returns (i: nat)
    requires e in log
    ensures i < |log| && log[i] == e
  {
    i :| 0 <= i < |log| && log[i] == e;
  }

  lemma LogIsJustified(s0: State, steps: seq<Step>, n: nat)
    requires Initial(s0) && Feasible(s0, steps) && n < |Run(s0, steps).log|
    ensures Justified(s0, Run(s0, steps).log[..n], Run(s0, steps).log[n])
  {
    hide Justified;
    RunKeepsHistory(s0, steps);
  }

  /** A request recorded by a connection of `session` for its then latest thread,
      untouched until the match, at most 1800 seconds old by the matching clock, and
      answered by the user who bound that thread to that session. */
  ghost predicate AnswersRequest(s0: State, log: seq<Event>, i: nat, l: nat, m: nat, t: nat, session: string,
                                 id: string, behavior: Behavior)
  {
    && i < m < |log| && l < m
    && log[m].EMatched? && log[m].task == t && log[m].requestId == id && log[m].behavior == behavior
    && var c, b := log[m].c, log[m].binding;
       && ParseVerdict(c.text) == Some((id, behavior))
       && log[l] == ELooked(t, c, b) && b.session == session && b.user == c.user
       && Allowed(s0.users, log[..l], c.user)
       && c.chatId in BindingsAfter(s0.bindings, log[..l]) && BindingsAfter(s0.bindings, log[..l])[c.chatId] == b
       && log[i].EInserted? && log[i].session == session && log[i].requestId == id && log[i].chatId == c.chatId
       && log[m].now - log[i].created <= PENDING_TTL_SECS
       && ERegistered(log[i].conn, session) in log[..i]
       && IsLatest(BindingsAfter(s0.bindings, log[..i]), session, c.chatId)
       && forall j :: i < j < m ==> !Touches(log[j], id)
  }

  lemma MatchAnswersRequest(s0: State, steps: seq<Step>, m: nat) returns (i: nat, l: nat)
    requires Initial(s0) && Feasible(s0, steps)
    requires m < |Run(s0, steps).log| && Run(s0, steps).log[m].EMatched?
    ensures var log := Run(s0, steps).log;
            AnswersRequest(s0, log, i, l, m, log[m].task, log[m].binding.session, log[m].requestId, log[m].behavior)
  {
    hide ParseVerdict, IsLatest, BindingsAfter, LastTouch, Touches, Allowed;
    var log := Run(s0, steps).log;
    var e, pre := log[m], log[..m];
    LogIsJustified(s0, steps, m);
    i := LastTouchIndex(pre, e.requestId);
    assert log[i] == pre[i] && log[..i] == pre[..i];
    LogIsJustified(s0, steps, i);
    l := IndexOf(pre, ELooked(e.task, e.c, e.binding));
    LogIsJustified(s0, steps, l);
    TouchedId(log[i], e.requestId);
    forall j | i < j < m
      ensures !Touches(log[j], e.requestId)
    {
      assert pre[j] == log[j];
    }
  }

  lemma TouchedId(e: Event, id: string)
    requires Touches(e, id)
    ensures (e.EInserted? || e.ERemoved? || e.EWithdrawn?) && e.requestId == id
  {
  }

  /** A frame was queued earlier on the same connection, for the name it registered. */
  lemma FrameWasQueued(s0: State, steps: seq<Step>, n: nat) returns (q: nat)
    requires Initial(s0) && Feasible(s0, steps) && n < |Run(s0, steps).log| && Run(s0, steps).log[n].EFrame?
    requires Run(s0, steps).log[n].msg.PermissionVerdict? || Run(s0, steps).log[n].msg.Inbound?
    ensures var log := Run(s0, steps).log;
            && q < n && log[q].EQueued? && log[q].conn == log[n].conn && log[q].msg == log[n].msg
            && ERegistered(log[n].conn, log[q].session) in log[..q]
            && EAccepted(log[q].task, log[q].eventId) in log[..q]
            && MessageJustified(log[..q], log[q].task, log[q].session, log[q].msg)
  {
    hide MessageJustified, IsLatest, BindingsAfter, LastTouch, ParseVerdict, Allowed, Run, Feasible;
    var log := Run(s0, steps).log;
    var (k, msg) := (log[n].conn, log[n].msg);
    LogIsJustified(s0, steps, n);
    var t, eventId, session :| EQueued(t, eventId, k, session, msg) in log[..n];
    q := IndexOf(log[..n], EQueued(t, eventId, k, session, msg));
    LogIsJustified(s0, steps, q);
  }

  lemma AnswerIndices(log: seq<Event>, q: nat, t: nat, session: string, id: string, behavior: Behavior)
    returns (r: nat, m: nat)
    requires q <= |log| && AnsweredBy(log[..q], t, session, id, behavior)
    ensures m < r < q && log[r] == ERemoved(id, t)
    ensures log[m].EMatched? && log[m].task == t && log[m].binding.session == session
    ensures log[m].requestId == id && log[m].behavior == behavior
  {
    r :| 0 <= r < |log[..q]| && log[..q][r] == ERemoved(id, t)
         && MatchedBy(log[..q][..r], t, session, id, behavior);
    assert log[..q][..r] == log[..r];
    var c, b: Binding, now :| EMatched(t, c, b, id, behavior, now) in log[..r] && b.session == session;
    m := IndexOf(log[..r], EMatched(t, c, b, id, behavior, now));
  }

  /** Every verdict frame on the socket of an agent was queued for the session that agent
      registered, by a handler that matched it and then removed the request; the match
      answers a request of that very session (`AnswersRequest`). */
  lemma VerdictProvenance(s0: State, steps: seq<Step>, n: nat)
    returns (q: nat, r: nat, m: nat, l: nat, i: nat)
    requires Initial(s0) && Feasible(s0, steps) && n < |Run(s0, steps).log|
    requires Run(s0, steps).log[n].EFrame? && Run(s0, steps).log[n].msg.PermissionVerdict?
    ensures var log := Run(s0, steps).log;
            var (k, msg) := (log[n].conn, log[n].msg);
            && m < r < q < n
            && log[q].EQueued? && log[q].conn == k && log[q].msg == msg
            && ERegistered(k, log[q].session) in log[..q]
            && log[r] == ERemoved(msg.requestId, log[q].task)
            && AnswersRequest(s0, log, i, l, m, log[q].task, log[q].session, msg.requestId, msg.behavior)
  {
    hide AnswersRequest, AnsweredBy;
    q := FrameWasQueued(s0, steps, n);
    var log := Run(s0, steps).log;
    var e, id := log[q], log[n].msg.requestId;
    r, m := AnswerIndices(log, q, e.task, e.session, id, log[n].msg.behavior);
    i, l := MatchAnswersRequest(s0, steps, m);
  }

  /** Every inbound frame carries an accepted message of an allowed user from a thread
      that was bound, when it was looked up, to the session the agent registered. */
  lemma InboundProvenance(s0: State, steps: seq<Step>, n: nat) returns (q: nat, l: nat)
    requires Initial(s0) && Feasible(s0, steps) && n < |Run(s0, steps).log|
    requires Run(s0, steps).log[n].EFrame? && Run(s0, steps).log[n].msg.Inbound?
    ensures var log := Run(s0, steps).log;
            var (k, msg) := (log[n].conn, log[n].msg);
            && l < q < n
            && log[q].EQueued? && log[q].conn == k && log[q].msg == msg
            && ERegistered(k, log[q].session) in log[..q] && EAccepted(log[q].task, log[q].eventId) in log[..q]
            && log[l].ELooked? && log[l].task == log[q].task
            && msg == Inbound(log[l].c.chatId, log[l].c.user, log[l].c.text)
            && Allowed(s0.users, log[..l], msg.user)
            && msg.chatId in BindingsAfter(s0.bindings, log[..l])
            && BindingsAfter(s0.bindings, log[..l])[msg.chatId].session == log[q].session
  {
    hide BindingsAfter, LastTouch, Allowed, IsLatest;
    q := FrameWasQueued(s0, steps, n);
    var log := Run(s0, steps).log;
    var e := log[q];
    var c, b: Binding :| ELooked(e.task, c, b) in log[..q] && b.session == e.session
                         && e.msg == Inbound(c.chatId, c.user, c.text);
    l := IndexOf(log[..q], ELooked(e.task, c, b));
    LogIsJustified(s0, steps, l);
  }

  /** Once a request has been removed, no handler matches it again until an agent asks
      for it anew. */
  lemma RemovalIsFinal(s0: State, steps: seq<Step>, r: nat, m: nat) returns (i: nat)
    requires Initial(s0) && Feasible(s0, steps)
    requires r < m < |Run(s0, steps).log| && Run(s0, steps).log[m].EMatched?
    requires Run(s0, steps).log[r].ERemoved? || Run(s0, steps).log[r].EWithdrawn?
    requires Run(s0, steps).log[r].requestId == Run(s0, steps).log[m].requestId
    ensures r < i < m && Run(s0, steps).log[i].EInserted?
    ensures Run(s0, steps).log[i].requestId == Run(s0, steps).log[m].requestId
  {
    hide ParseVerdict, IsLatest, BindingsAfter, Allowed;
    var l;
    i, l := MatchAnswersRequest(s0, steps, m);
    assert Touches(Run(s0, steps).log[r], Run(s0, steps).log[m].requestId);
  }

  // --- invalid chat ids ---------------------------------------------------------

  lemma {:induction false} BoundIdsSplit(s0: State, steps: seq<Step>, chat: string)
    requires Initial(s0) && Feasible(s0, steps) && chat in Run(s0, steps).bindings
    ensures chat in s0.bindings || SplitOnce(chat, ':').Some?
    decreases |steps|
  {
    if steps != [] {
      var before, st := steps[..|steps| - 1], steps[|steps| - 1];
      var s := Run(s0, before);
      hide NextTask, TaskEvents, TaskOrder, TaskPending, TaskConns, NextConn, ConnEvents, ConnPending, ConnHub, SplitOnce;
      if chat in s.bindings {
        BoundIdsSplit(s0, before, chat);
      } else {
        PrefixOfChatId(s.tasks[st.t].channel, s.tasks[st.t].ts);
      }
    }
  }

  /** A thread bound from Slack always has a channel and a timestamp: a request can only be
      withdrawn for an invalid chat id if that binding was loaded from the state file. */
  lemma InvalidIdsAreLoaded(s0: State, steps: seq<Step>, st: Step)
    requires Initial(s0) && Feasible(s0, steps) && st.Request? && Enabled(Run(s0, steps), st)
    ensures var s := Run(s0, steps);
            NextConn(s, s.conns[st.k], st).phase.Withdrawing? ==> st.chat.Some? && st.chat.value in s0.bindings
  {
    if st.chat.Some? {
      BoundIdsSplit(s0, steps, st.chat.value);
    }
  }
}
