/** What becomes of every delivery that was looked up, and of every prompt that Slack
    refused, over every run of the relay. */
module RelayLookups {
  import opened Text
  import opened Counting
  import opened Permission
  import opened Relay
  import opened Verdict
  import opened RelayCounts
  import Dedupe

  // --- lookups are conserved -----------------------------------------------------------

  /** The message that forwards what was said, word for word. */
  predicate Carries(c: Candidate, chatId: string, user: string, text: string) {
    c.chatId == chatId && c.user == user && c.text == text
  }

  function LookedUp(t: nat, chatId: string, user: string, text: string): Event -> bool {
    (e: Event) => e.ELooked? && e.task == t && Carries(e.c, chatId, user, text)
  }

  function Matched(t: nat, chatId: string, user: string, text: string): Event -> bool {
    (e: Event) => e.EMatched? && e.task == t && Carries(e.c, chatId, user, text)
  }

  function InboundQueued(t: nat, chatId: string, user: string, text: string): Event -> bool {
    (e: Event) => e.EQueued? && e.task == t && e.msg == Inbound(chatId, user, text)
  }

  function InboundOffline(t: nat, chatId: string, user: string, text: string): Event -> bool {
    (e: Event) => e.EOffline? && e.task == t && e.msg == Inbound(chatId, user, text)
  }

  /** The handler has looked its delivery up and has yet to match or forward it. */
  predicate OnItsWay(task: Task, chatId: string, user: string, text: string) {
    || (task.Bound? && Carries(task.c, chatId, user, text))
    || ((task.Forwarding? || task.Enqueuing?) && task.msg == Inbound(chatId, user, text))
  }

  predicate Stands(tasks: seq<Task>, t: nat, chatId: string, user: string, text: string) {
    t < |tasks| && OnItsWay(tasks[t], chatId, user, text)
  }

  ghost predicate Balanced(log: seq<Event>, tasks: seq<Task>, t: nat, chatId: string, user: string, text: string) {
    Count(log, LookedUp(t, chatId, user, text))
    == Count(log, Matched(t, chatId, user, text))
       + Count(log, InboundQueued(t, chatId, user, text))
       + Count(log, InboundOffline(t, chatId, user, text))
       + One(Stands(tasks, t, chatId, user, text))
  }

  lemma Added(log: seq<Event>, es: seq<Event>, t: nat, chatId: string, user: string, text: string)
    requires |es| <= 1
    ensures Count(log + es, LookedUp(t, chatId, user, text)) == Count(log, LookedUp(t, chatId, user, text))
            + One(es != [] && LookedUp(t, chatId, user, text)(es[0]))
    ensures Count(log + es, Matched(t, chatId, user, text)) == Count(log, Matched(t, chatId, user, text))
            + One(es != [] && Matched(t, chatId, user, text)(es[0]))
    ensures Count(log + es, InboundQueued(t, chatId, user, text)) == Count(log, InboundQueued(t, chatId, user, text))
            + One(es != [] && InboundQueued(t, chatId, user, text)(es[0]))
    ensures Count(log + es, InboundOffline(t, chatId, user, text)) == Count(log, InboundOffline(t, chatId, user, text))
            + One(es != [] && InboundOffline(t, chatId, user, text)(es[0]))
  {
    hide Count, LookedUp, Matched, InboundQueued, InboundOffline;
    CountConcat(log, es, LookedUp(t, chatId, user, text));
    CountConcat(log, es, Matched(t, chatId, user, text));
    CountConcat(log, es, InboundQueued(t, chatId, user, text));
    CountConcat(log, es, InboundOffline(t, chatId, user, text));
    CountEvents(es, LookedUp(t, chatId, user, text));
    CountEvents(es, Matched(t, chatId, user, text));
    CountEvents(es, InboundQueued(t, chatId, user, text));
    CountEvents(es, InboundOffline(t, chatId, user, text));
  }

  /** One step of handler `u`, as the balance of handler `t` sees it. */
  lemma TaskDelta(s: State, u: nat, task: Task, st: Step, t: nat, chatId: string, user: string, text: string)
    requires TaskStep(st) && TaskReady(s, task, st)
    ensures var es, next := TaskEvents(s, u, task, st), NextTask(s, task, st);
            && |es| <= 1
            && (var looked := One(es != [] && LookedUp(t, chatId, user, text)(es[0]));
                var gone := One(es != [] && Matched(t, chatId, user, text)(es[0]))
                            + One(es != [] && InboundQueued(t, chatId, user, text)(es[0]))
                            + One(es != [] && InboundOffline(t, chatId, user, text)(es[0]));
                if u == t
                then looked + One(OnItsWay(task, chatId, user, text)) == gone + One(OnItsWay(next, chatId, user, text))
                else looked == gone == 0)
  {
    hide MatchVerdict, Sweep, Dedupe.Next, Unbound;
  }

  lemma TaskKeeps(s: State, st: Step, t: nat, chatId: string, user: string, text: string)
    requires TaskStep(st) && Enabled(s, st) && Balanced(s.log, s.tasks, t, chatId, user, text)
    ensures Balanced(ApplyTask(s, st).log, ApplyTask(s, st).tasks, t, chatId, user, text)
  {
    TaskDelta(s, st.t, s.tasks[st.t], st, t, chatId, user, text);
    Added(s.log, TaskEvents(s, st.t, s.tasks[st.t], st), t, chatId, user, text);
    hide Count, TaskEvents, NextTask, TaskOrder, TaskPending, TaskBindings, TaskConns, OnItsWay, LookedUp, Matched,
      InboundQueued, InboundOffline;
  }

  lemma OtherLogs(s: State, st: Step) returns (es: seq<Event>)
    requires Enabled(s, st) && !TaskStep(st)
    ensures Apply(s, st).log == s.log + es && |es| <= 1
    ensures es != [] ==> !es[0].ELooked? && !es[0].EMatched? && !es[0].EQueued? && !es[0].EOffline?
  {
    hide Refusal, LatestIs, NextConn, ConnPending, ConnHub;
    es := if ConnStep(st) then ConnEvents(s, st.k, s.conns[st.k], st)
          else if st.Admit? && st.user !in s.users then [EAdmitted(st.user)] else [];
  }

  lemma OtherTasks(s: State, st: Step, t: nat, chatId: string, user: string, text: string)
    requires Enabled(s, st) && !TaskStep(st)
    ensures Stands(Apply(s, st).tasks, t, chatId, user, text) == Stands(s.tasks, t, chatId, user, text)
  {
    hide Refusal, LatestIs, NextConn, ConnPending, ConnHub, ConnEvents;
  }

  lemma OtherKeeps(s: State, st: Step, t: nat, chatId: string, user: string, text: string)
    requires !TaskStep(st) && Enabled(s, st) && Balanced(s.log, s.tasks, t, chatId, user, text)
    ensures Balanced(Apply(s, st).log, Apply(s, st).tasks, t, chatId, user, text)
  {
    hide Count, Apply, Enabled, Stands;
    var es := OtherLogs(s, st);
    OtherTasks(s, st, t, chatId, user, text);
    Added(s.log, es, t, chatId, user, text);
  }

  lemma NothingYet(t: nat, chatId: string, user: string, text: string)
    ensures Balanced([], [], t, chatId, user, text)
  {
  }

  /** Every lookup of a handler is accounted for: it matched a verdict, its message was
      queued or found the session offline, or the handler still stands before that; and the
      message carries the very chat id, user and text that were looked up. */
  lemma {:induction false} LookupsAreConserved(s0: State, steps: seq<Step>, t: nat, chatId: string, user: string,
                                               text: string)
    requires Initial(s0) && Feasible(s0, steps)
    ensures var s := Run(s0, steps);
            Count(s.log, LookedUp(t, chatId, user, text))
            == Count(s.log, Matched(t, chatId, user, text))
               + Count(s.log, InboundQueued(t, chatId, user, text))
               + Count(s.log, InboundOffline(t, chatId, user, text))
               + One(Stands(s.tasks, t, chatId, user, text))
    decreases |steps|
  {
    if steps == [] {
      NothingYet(t, chatId, user, text);
    } else {
      hide Stands, Count;
      var before, st := steps[..|steps| - 1], steps[|steps| - 1];
      LookupsAreConserved(s0, before, t, chatId, user, text);
      if TaskStep(st) {
        TaskKeeps(Run(s0, before), st, t, chatId, user, text);
      } else {
        OtherKeeps(Run(s0, before), st, t, chatId, user, text);
      }
    }
  }

  // --- refused prompts are withdrawn -----------------------------------------------------

  /** What connection `k` itself did. */
  predicate Own(e: Event, k: nat) {
    (e.EInserted? || e.EWithdrawn? || e.ERefused? || e.EFrame? || e.ERegistered? || e.EUnregistered?) && e.conn == k
  }

  function LastOwn(log: seq<Event>, k: nat): (e: seq<Event>)
    ensures |e| <= 1 && (e != [] ==> Own(e[0], k))
  {
    if log == [] then []
    else if Own(log[|log| - 1], k) then [log[|log| - 1]]
    else LastOwn(log[..|log| - 1], k)
  }

  lemma LastOwnNext(log: seq<Event>, e: Event, k: nat)
    ensures LastOwn(log + [e], k) == if Own(e, k) then [e] else LastOwn(log, k)
  {
    assert (log + [e])[..|log + [e]| - 1] == log;
  }

  /** The last act of a connection that is withdrawing: a refused post, or a request
      whose thread has no valid id. */
  predicate Unposted(before: seq<Event>, id: string, k: nat) {
    before != []
    && (before[0] == ERefused(id, k)
        || (before[0].EInserted? && before[0].requestId == id && SplitOnce(before[0].chatId, ':').None?))
  }

  ghost predicate PhaseFits(log: seq<Event>, k: nat, phase: Phase) {
    var last := LastOwn(log, k);
    && (phase.Withdrawing? ==> Unposted(last, phase.requestId, k))
    && (last != [] && last[0].ERefused? ==> phase == Withdrawing(last[0].requestId))
  }

  /** A refused post is followed by the withdrawal of that request, and a withdrawal
      follows nothing but a refused post or an invalid chat id. */
  ghost predicate Followed(log: seq<Event>, j: nat, k: nat)
    requires j < |log|
  {
    var (last, e) := (LastOwn(log[..j], k), log[j]);
    Own(e, k) ==>
      && (last != [] && last[0].ERefused? ==> e == EWithdrawn(last[0].requestId, k))
      && (e.EWithdrawn? ==> Unposted(last, e.requestId, k))
  }

  ghost predicate RefusalInv(log: seq<Event>, conns: seq<Conn>) {
    && (forall k :: 0 <= k < |conns| ==> PhaseFits(log, k, conns[k].phase))
    && (forall k: nat :: k >= |conns| ==> LastOwn(log, k) == [])
    && (forall j, k: nat :: 0 <= j < |log| ==> Followed(log, j, k))
  }

  lemma ConnMoves(s: State, st: Step)
    requires ConnStep(st) && Enabled(s, st)
    ensures var conn, es := s.conns[st.k], ConnEvents(s, st.k, s.conns[st.k], st);
            var next := NextConn(s, conn, st).phase;
            && |es| <= 1 && (es != [] ==> Own(es[0], st.k))
            && (conn.phase.Withdrawing? ==> es == [EWithdrawn(conn.phase.requestId, st.k)] && !next.Withdrawing?)
            && (es != [] && es[0].EWithdrawn? ==> conn.phase.Withdrawing?)
            && (es != [] && es[0].ERefused? ==> next == Withdrawing(es[0].requestId))
            && (next.Withdrawing? ==> Unposted(es, next.requestId, st.k))
  {
    hide Refusal, LatestIs, PromptText, Chunk.Pieces, Chunk.Destination, SplitOnce, ValidSessionName;
  }

  lemma FollowedNext(log: seq<Event>, e: Event, j: nat, k: nat)
    requires j <= |log| && (j < |log| ==> Followed(log, j, k))
    requires j == |log| && Own(e, k) ==>
               var last := LastOwn(log, k);
               && (last != [] && last[0].ERefused? ==> e == EWithdrawn(last[0].requestId, k))
               && (e.EWithdrawn? ==> Unposted(last, e.requestId, k))
    ensures Followed(log + [e], j, k)
  {
    assert (log + [e])[..j] == log[..j];
    assert log[..|log|] == log;
  }

  lemma OwnNext(log: seq<Event>, conns: seq<Conn>, k: nat, next: Conn, e: Event)
    requires RefusalInv(log, conns) && k < |conns| && Own(e, k)
    requires conns[k].phase.Withdrawing? ==> e == EWithdrawn(conns[k].phase.requestId, k) && !next.phase.Withdrawing?
    requires e.EWithdrawn? ==> conns[k].phase.Withdrawing?
    requires e.ERefused? ==> next.phase == Withdrawing(e.requestId)
    requires next.phase.Withdrawing? ==> Unposted([e], next.phase.requestId, k)
    ensures RefusalInv(log + [e], conns[k := next])
  {
    assert PhaseFits(log, k, conns[k].phase);
    hide LastOwn, Unposted, Followed;
    forall j: nat
      ensures LastOwn(log + [e], j) == if j == k then [e] else LastOwn(log, j)
    {
      LastOwnNext(log, e, j);
    }
    forall j, i: nat | 0 <= j <= |log|
      ensures Followed(log + [e], j, i)
    {
      FollowedNext(log, e, j, i);
    }
  }

  lemma QuietNext(log: seq<Event>, conns: seq<Conn>, es: seq<Event>, conns': seq<Conn>)
    requires RefusalInv(log, conns) && |es| <= 1 && (es != [] ==> forall k: nat :: !Own(es[0], k))
    requires |conns| <= |conns'|
    requires forall k :: 0 <= k < |conns| && conns'[k].phase != conns[k].phase ==>
               !conns[k].phase.Withdrawing? && !conns'[k].phase.Withdrawing?
    requires forall k :: |conns| <= k < |conns'| ==> conns'[k].phase.Greeting?
    ensures RefusalInv(log + es, conns')
  {
    hide LastOwn, Unposted, Followed;
    if es == [] {
      assert log + es == log;
    } else {
      assert es == [es[0]];
      forall j: nat
        ensures LastOwn(log + es, j) == LastOwn(log, j)
      {
        LastOwnNext(log, es[0], j);
      }
      forall j, i: nat | 0 <= j <= |log|
        ensures Followed(log + es, j, i)
      {
        FollowedNext(log, es[0], j, i);
      }
    }
  }

  lemma ConnKeepsRefusals(s: State, st: Step)
    requires ConnStep(st) && Enabled(s, st) && RefusalInv(s.log, s.conns)
    ensures RefusalInv(ApplyConn(s, st).log, ApplyConn(s, st).conns)
  {
    ConnMoves(s, st);
    hide ConnEvents, NextConn, ConnPending, ConnHub, RefusalInv;
    var es, next := ConnEvents(s, st.k, s.conns[st.k], st), NextConn(s, s.conns[st.k], st);
    if es == [] {
      QuietNext(s.log, s.conns, es, s.conns[st.k := next]);
    } else {
      assert es == [es[0]];
      OwnNext(s.log, s.conns, st.k, next, es[0]);
    }
  }

  lemma TaskKeepsRefusals(s: State, st: Step)
    requires TaskStep(st) && Enabled(s, st) && RefusalInv(s.log, s.conns)
    ensures RefusalInv(ApplyTask(s, st).log, ApplyTask(s, st).conns)
  {
    hide MatchVerdict, Sweep, Dedupe.Next, Unbound, RefusalInv;
    QuietNext(s.log, s.conns, TaskEvents(s, st.t, s.tasks[st.t], st), ApplyTask(s, st).conns);
  }

  lemma StepKeepsRefusals(s: State, st: Step)
    requires Enabled(s, st) && RefusalInv(s.log, s.conns)
    ensures RefusalInv(Apply(s, st).log, Apply(s, st).conns)
  {
    hide RefusalInv;
    if TaskStep(st) {
      TaskKeepsRefusals(s, st);
    } else if ConnStep(st) {
      ConnKeepsRefusals(s, st);
    } else {
      var es := if st.Admit? && st.user !in s.users then [EAdmitted(st.user)] else [];
      QuietNext(s.log, s.conns, es, Apply(s, st).conns);
      assert s.log + [] == s.log;
    }
  }

  lemma {:induction false} RunKeepsRefusals(s0: State, steps: seq<Step>)
    requires Initial(s0) && Feasible(s0, steps)
    ensures RefusalInv(Run(s0, steps).log, Run(s0, steps).conns)
    decreases |steps|
  {
    if steps != [] {
      RunKeepsRefusals(s0, steps[..|steps| - 1]);
      hide RefusalInv;
      StepKeepsRefusals(Run(s0, steps[..|steps| - 1]), steps[|steps| - 1]);
    }
  }

  /** After a refused piece of a prompt, the next thing its connection does is to withdraw
      that request, and until then it stands before doing so. A request is withdrawn for no
      other reason than a refused piece or an invalid chat id. */
  lemma RefusedPromptsAreWithdrawn(s0: State, steps: seq<Step>, j: nat, k: nat)
    requires Initial(s0) && Feasible(s0, steps) && j < |Run(s0, steps).log| && Own(Run(s0, steps).log[j], k)
    ensures var log := Run(s0, steps).log;
            var last := LastOwn(log[..j], k);
            && (last != [] && last[0].ERefused? ==> log[j] == EWithdrawn(last[0].requestId, k))
            && (log[j].EWithdrawn? ==> Unposted(last, log[j].requestId, k))
    ensures var (s, last) := (Run(s0, steps), LastOwn(Run(s0, steps).log, k));
            last != [] && last[0].ERefused? ==> k < |s.conns| && s.conns[k].phase == Withdrawing(last[0].requestId)
  {
    RunKeepsRefusals(s0, steps);
    hide Run, Feasible, LastOwn, Unposted;
    assert Followed(Run(s0, steps).log, j, k);
    assert k < |Run(s0, steps).conns| ==> PhaseFits(Run(s0, steps).log, k, Run(s0, steps).conns[k].phase);
  }
}
