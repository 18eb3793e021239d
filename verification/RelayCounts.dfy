/** How often things happen: verdicts against matches, hub messages against accepted
    deliveries, over every run of the relay. */
module RelayCounts {
  import opened Counting
  import opened Permission
  import opened Relay
  import Dedupe

  // --- what is counted --------------------------------------------------------------

  function MatchOf(id: string): Event -> bool { (e: Event) => e.EMatched? && e.requestId == id }

  function InsertOf(id: string): Event -> bool { (e: Event) => e.EInserted? && e.requestId == id }

  predicate IsVerdict(msg: RelayMsg, id: string) { msg.PermissionVerdict? && msg.requestId == id }

  function VerdictOf(id: string): Event -> bool { (e: Event) => e.EQueued? && IsVerdict(e.msg, id) }

  function UnsentOf(id: string): Event -> bool { (e: Event) => e.EOffline? && IsVerdict(e.msg, id) }

  /** Handlers that have matched `id` and not yet delivered the verdict. */
  function HolderOf(id: string): Task -> bool {
    (task: Task) =>
      (task.Answered? && task.requestId == id)
      || ((task.Forwarding? || task.Enqueuing?) && IsVerdict(task.msg, id))
  }

  function AcceptOf(eventId: string): Event -> bool { (e: Event) => e.EAccepted? && e.eventId == eventId }

  function MessageOf(eventId: string): Event -> bool { (e: Event) => e.EQueued? && e.eventId == eventId }

  /** Handlers that may still put a message for the delivery on a queue. */
  function CarrierOf(eventId: string): Task -> bool {
    (task: Task) =>
      (task.Fresh? || task.Bound? || task.Answered? || task.Forwarding? || task.Enqueuing?) && task.eventId == eventId
  }

  // --- one step ----------------------------------------------------------------------

  lemma CountEvents(es: seq<Event>, p: Event -> bool)
    requires |es| <= 1
    ensures Count(es, p) == One(es != [] && p(es[0]))
  {
    if es != [] {
      assert es == [es[0]];
      CountOne(es[0], p);
    }
  }

  /** What a handler's step means for one request and one delivery. */
  lemma TaskDelta(s: State, t: nat, task: Task, st: Step, id: string, eventId: string)
    requires TaskStep(st) && TaskReady(s, task, st)
    ensures var es, next := TaskEvents(s, t, task, st), NextTask(s, task, st);
            && Count(es, MatchOf(id)) + One(HolderOf(id)(task))
               == Count(es, VerdictOf(id)) + Count(es, UnsentOf(id)) + One(HolderOf(id)(next))
            && Count(es, MessageOf(eventId)) + One(CarrierOf(eventId)(next))
               <= Count(es, AcceptOf(eventId)) + One(CarrierOf(eventId)(task))
            && Count(es, InsertOf(id)) == 0
  {
    hide MatchVerdict, Sweep, Dedupe.Next, Unbound, Count;
    var es := TaskEvents(s, t, task, st);
    CountEvents(es, MatchOf(id));
    CountEvents(es, VerdictOf(id));
    CountEvents(es, UnsentOf(id));
    CountEvents(es, MessageOf(eventId));
    CountEvents(es, AcceptOf(eventId));
    CountEvents(es, InsertOf(id));
  }

  /** A connection's step counts for nothing but insertions. */
  lemma ConnDelta(s: State, k: nat, conn: Conn, st: Step, id: string, eventId: string)
    requires ConnStep(st) && ConnReady(s, conn, st)
    ensures var es := ConnEvents(s, k, conn, st);
            && Count(es, MatchOf(id)) == Count(es, VerdictOf(id)) == Count(es, UnsentOf(id)) == 0
            && Count(es, MessageOf(eventId)) == Count(es, AcceptOf(eventId)) == 0
            && Count(es, InsertOf(id)) == One(st.Request? && st.chat.Some? && st.requestId == id)
  {
    hide Refusal, LatestIs, Count;
    var es := ConnEvents(s, k, conn, st);
    CountEvents(es, MatchOf(id));
    CountEvents(es, VerdictOf(id));
    CountEvents(es, UnsentOf(id));
    CountEvents(es, MessageOf(eventId));
    CountEvents(es, AcceptOf(eventId));
    CountEvents(es, InsertOf(id));
  }

  ghost predicate Balanced(s: State, id: string, eventId: string) {
    && Count(s.log, MatchOf(id)) == Count(s.log, VerdictOf(id)) + Count(s.log, UnsentOf(id)) + Count(s.tasks, HolderOf(id))
    && Count(s.log, MessageOf(eventId)) + Count(s.tasks, CarrierOf(eventId)) <= Count(s.log, AcceptOf(eventId))
  }

  lemma CountsAppend(log: seq<Event>, es: seq<Event>, id: string, eventId: string)
    ensures Count(log + es, MatchOf(id)) == Count(log, MatchOf(id)) + Count(es, MatchOf(id))
    ensures Count(log + es, VerdictOf(id)) == Count(log, VerdictOf(id)) + Count(es, VerdictOf(id))
    ensures Count(log + es, UnsentOf(id)) == Count(log, UnsentOf(id)) + Count(es, UnsentOf(id))
    ensures Count(log + es, MessageOf(eventId)) == Count(log, MessageOf(eventId)) + Count(es, MessageOf(eventId))
    ensures Count(log + es, AcceptOf(eventId)) == Count(log, AcceptOf(eventId)) + Count(es, AcceptOf(eventId))
    ensures Count(log + es, InsertOf(id)) == Count(log, InsertOf(id)) + Count(es, InsertOf(id))
  {
    CountConcat(log, es, MatchOf(id));
    CountConcat(log, es, VerdictOf(id));
    CountConcat(log, es, UnsentOf(id));
    CountConcat(log, es, MessageOf(eventId));
    CountConcat(log, es, AcceptOf(eventId));
    CountConcat(log, es, InsertOf(id));
  }

  lemma StepKeepsBalance(s: State, st: Step, id: string, eventId: string)
    requires Balanced(s, id, eventId) && Enabled(s, st)
    ensures Balanced(Apply(s, st), id, eventId)
  {
    hide Count, TaskEvents, NextTask, TaskReady, ConnReady, ConnEvents, NextConn, ConnHub, ConnPending;
    hide TaskConns, TaskPending, TaskBindings, TaskOrder, MatchOf, VerdictOf, UnsentOf, MessageOf, AcceptOf, InsertOf;
    if TaskStep(st) {
      var task := s.tasks[st.t];
      hide HolderOf, CarrierOf;
      TaskDelta(s, st.t, task, st, id, eventId);
      CountsAppend(s.log, TaskEvents(s, st.t, task, st), id, eventId);
      CountUpdate(s.tasks, st.t, NextTask(s, task, st), HolderOf(id));
      CountUpdate(s.tasks, st.t, NextTask(s, task, st), CarrierOf(eventId));
    } else if ConnStep(st) {
      ConnDelta(s, st.k, s.conns[st.k], st, id, eventId);
      CountsAppend(s.log, ConnEvents(s, st.k, s.conns[st.k], st), id, eventId);
    } else {
      OtherKeepsBalance(s, st, id, eventId);
    }
  }

  lemma OtherKeepsBalance(s: State, st: Step, id: string, eventId: string)
    requires Balanced(s, id, eventId) && Enabled(s, st) && !TaskStep(st) && !ConnStep(st)
    ensures Balanced(Apply(s, st), id, eventId)
  {
    hide Count;
    if st.Admit? {
      var es := [EAdmitted(st.user)];
      CountsAppend(s.log, es, id, eventId);
      CountEvents(es, MatchOf(id));
      CountEvents(es, VerdictOf(id));
      CountEvents(es, UnsentOf(id));
      CountEvents(es, MessageOf(eventId));
      CountEvents(es, AcceptOf(eventId));
      CountEvents(es, InsertOf(id));
    } else if st.Deliver? || st.Select? || st.Command? {
      var task := Apply(s, st).tasks[|s.tasks|];
      assert Apply(s, st).tasks == s.tasks + [task];
      CountConcat(s.tasks, [task], HolderOf(id));
      CountConcat(s.tasks, [task], CarrierOf(eventId));
      CountOne(task, HolderOf(id));
      CountOne(task, CarrierOf(eventId));
    }
  }

  lemma {:induction false} RunBalanced(s0: State, steps: seq<Step>, id: string, eventId: string)
    requires Initial(s0) && Feasible(s0, steps)
    ensures Balanced(Run(s0, steps), id, eventId)
    decreases |steps|
  {
    if steps != [] {
      RunBalanced(s0, steps[..|steps| - 1], id, eventId);
      StepKeepsBalance(Run(s0, steps[..|steps| - 1]), steps[|steps| - 1], id, eventId);
    }
  }

  /** Verdicts are conserved: every match of a request is a verdict queued, a verdict
      that found the session offline, or a handler still on its way. */
  lemma VerdictsAreConserved(s0: State, steps: seq<Step>, id: string)
    requires Initial(s0) && Feasible(s0, steps)
    ensures var s := Run(s0, steps);
            Count(s.log, MatchOf(id))
            == Count(s.log, VerdictOf(id)) + Count(s.log, UnsentOf(id)) + Count(s.tasks, HolderOf(id))
  {
    RunBalanced(s0, steps, id, "");
  }

  // --- one hub message for each delivery ------------------------------------------------

  /** The event ids `first_seen` accepted, oldest first. */
  function AcceptedIds(log: seq<Event>): (ids: seq<string>) {
    if log == [] then []
    else
      var ids, e := AcceptedIds(log[..|log| - 1]), log[|log| - 1];
      if e.EAccepted? then ids + [e.eventId] else ids
  }

  lemma AcceptedAppend(log: seq<Event>, es: seq<Event>)
    requires |es| <= 1
    ensures AcceptedIds(log + es) ==
              if es != [] && es[0].EAccepted? then AcceptedIds(log) + [es[0].eventId] else AcceptedIds(log)
  {
    if es == [] {
      assert log + es == log;
    } else {
      assert (log + es)[..|log + es| - 1] == log;
    }
  }

  ghost predicate DedupeInv(s: State) {
    s.order == Dedupe.Window(AcceptedIds(s.log), DEDUPE_CAPACITY)
    && Dedupe.Spaced(AcceptedIds(s.log), DEDUPE_CAPACITY)
  }

  lemma AcceptKeepsDedupe(ids: seq<string>, id: string)
    requires Dedupe.Spaced(ids, DEDUPE_CAPACITY)
    ensures var (order, isNew) := Dedupe.Next(Dedupe.Window(ids, DEDUPE_CAPACITY), DEDUPE_CAPACITY, id);
            var ids' := if isNew then ids + [id] else ids;
            order == Dedupe.Window(ids', DEDUPE_CAPACITY) && Dedupe.Spaced(ids', DEDUPE_CAPACITY)
  {
    hide Dedupe.Spaced, Dedupe.Window;
    Dedupe.WindowAppend(ids, DEDUPE_CAPACITY, id);
    if id !in Dedupe.Window(ids, DEDUPE_CAPACITY) {
      Dedupe.SpacedAppend(ids, DEDUPE_CAPACITY, id);
    }
  }

  lemma StepKeepsDedupe(s: State, st: Step)
    requires DedupeInv(s) && Enabled(s, st)
    ensures DedupeInv(Apply(s, st))
  {
    hide MatchVerdict, Sweep, Unbound, Dedupe.Spaced, Dedupe.Window, Refusal, LatestIs, AcceptedIds;
    if TaskStep(st) {
      var task := s.tasks[st.t];
      AcceptedAppend(s.log, TaskEvents(s, st.t, task, st));
      if st.FirstSeen? {
        AcceptKeepsDedupe(AcceptedIds(s.log), task.eventId);
      }
    } else if ConnStep(st) {
      AcceptedAppend(s.log, ConnEvents(s, st.k, s.conns[st.k], st));
    } else if st.Admit? {
      AcceptedAppend(s.log, [EAdmitted(st.user)]);
    }
  }

  lemma {:induction false} RunKeepsDedupe(s0: State, steps: seq<Step>)
    requires Initial(s0) && Feasible(s0, steps)
    ensures DedupeInv(Run(s0, steps))
    decreases |steps|
  {
    if steps != [] {
      RunKeepsDedupe(s0, steps[..|steps| - 1]);
      StepKeepsDedupe(Run(s0, steps[..|steps| - 1]), steps[|steps| - 1]);
    }
  }

  /** `eventId` was accepted only within the last 1001 acceptances. */
  ghost predicate RecentOnly(ids: seq<string>, eventId: string) {
    forall i :: 0 <= i < |ids| && ids[i] == eventId ==> |ids| - i <= DEDUPE_CAPACITY + 1
  }

  lemma {:induction false} AcceptCount(log: seq<Event>, eventId: string)
    requires eventId !in AcceptedIds(log)
    ensures Count(log, AcceptOf(eventId)) == 0
  {
    if log != [] {
      AcceptCount(log[..|log| - 1], eventId);
    }
  }

  lemma NotBefore(ids: seq<string>, eventId: string)
    requires Dedupe.Spaced(ids + [eventId], DEDUPE_CAPACITY) && RecentOnly(ids + [eventId], eventId)
    ensures eventId !in ids
  {
    var all := ids + [eventId];
    forall i | 0 <= i < |ids|
      ensures ids[i] != eventId
    {
      assert all[i] == ids[i] && all[|ids|] == eventId;
    }
  }

  lemma {:induction false} AcceptedOnce(log: seq<Event>, eventId: string)
    requires Dedupe.Spaced(AcceptedIds(log), DEDUPE_CAPACITY) && RecentOnly(AcceptedIds(log), eventId)
    ensures Count(log, AcceptOf(eventId)) <= 1
  {
    if log != [] {
      var before, e := log[..|log| - 1], log[|log| - 1];
      if e.EAccepted? && e.eventId == eventId {
        NotBefore(AcceptedIds(before), eventId);
        AcceptCount(before, eventId);
      } else {
        assert AcceptedIds(before) <= AcceptedIds(log);
        AcceptedOnce(before, eventId);
      }
    }
  }

  /** Over concurrent handlers: any 1001 consecutive accepted deliveries have distinct
      event ids, hub messages for an id never outnumber its accepted deliveries, and an
      id accepted only within the last 1001 acceptances has caused at most one hub
      message: a verdict or an Inbound, never both. */
  lemma OneMessagePerDelivery(s0: State, steps: seq<Step>, eventId: string)
    requires Initial(s0) && Feasible(s0, steps)
    ensures var log := Run(s0, steps).log;
            && Dedupe.Spaced(AcceptedIds(log), DEDUPE_CAPACITY)
            && Count(log, MessageOf(eventId)) <= Count(log, AcceptOf(eventId))
            && (RecentOnly(AcceptedIds(log), eventId) ==> Count(log, MessageOf(eventId)) <= 1)
  {
    hide Count, AcceptedIds, RecentOnly, Dedupe.Spaced, Dedupe.Window;
    RunBalanced(s0, steps, "", eventId);
    RunKeepsDedupe(s0, steps);
    if RecentOnly(AcceptedIds(Run(s0, steps).log), eventId) {
      AcceptedOnce(Run(s0, steps).log, eventId);
    }
  }
}
