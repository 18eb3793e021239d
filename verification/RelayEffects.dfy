/** What one handler or connection does when nothing else steps in between, told by what
    an observer finds afterwards, from any state of the relay. */
module RelayEffects {
  import opened Wrappers
  import opened Text
  import opened Verdict
  import opened Permission
  import opened Relay
  import Chunk

  lemma Extend(s: State, steps: seq<Step>, st: Step)
    requires Feasible(s, steps) && Enabled(Run(s, steps), st)
    ensures Feasible(s, steps + [st]) && Run(s, steps + [st]) == Apply(Run(s, steps), st)
  {
    hide Enabled, Apply;
    assert (steps + [st])[..|steps + [st]| - 1] == steps;
  }

  // --- a message from Slack ---------------------------------------------------------------

  /** The text answers a pending request of this very thread, session and user. */
  ghost predicate Answers(s: State, c: Candidate, b: Binding, now: int, id: string, behavior: Behavior) {
    && Matches(c.text, id, behavior) && c.user == b.user
    && id in s.pending && s.pending[id].chatId == c.chatId && s.pending[id].session == b.session
    && now <= s.pending[id].created + 1800
  }

  /** Requests older than 1800 seconds are gone, and `except` if given; the others are as
      they were. */
  ghost predicate Swept(before: map<string, Pending>, after: map<string, Pending>, now: int, except: Option<string>) {
    && (forall id :: id in after <==> id in before && now <= before[id].created + 1800 && Some(id) != except)
    && (forall id :: id in after ==> after[id] == before[id])
  }

  /** `msg` is last in the queue of the connection that owns the session, if that still
      receives; no other queue changes. */
  ghost predicate Delivers(s: State, conns: seq<Conn>, session: string, msg: RelayMsg) {
    if session in s.hub && s.hub[session] < |s.conns| && Receiving(s.conns[s.hub[session]].phase) then
      var k := s.hub[session];
      conns == s.conns[k := s.conns[k].(queue := s.conns[k].queue + [msg])]
    else conns == s.conns
  }

  /** The session is unknown, or its connection has room or does not receive any more. */
  ghost predicate Reachable(s: State, session: string) {
    session in s.hub ==>
      && s.hub[session] < |s.conns|
      && (Receiving(s.conns[s.hub[session]].phase) ==> |s.conns[s.hub[session]].queue| < 64)
  }

  /** What a fresh message leads to: nothing for a stranger or an unbound thread; a verdict
      to the session if the text answers a request of the thread, which is then no longer
      pending; else the message itself, word for word. */
  ghost predicate Handled(s: State, s': State, c: Candidate, now: int) {
    if c.user !in s.users || c.chatId !in s.bindings then s'.conns == s.conns && s'.pending == s.pending
    else
      var b := s.bindings[c.chatId];
      && (forall id, behavior :: Answers(s, c, b, now, id, behavior) ==>
            && Delivers(s, s'.conns, b.session, PermissionVerdict(id, behavior))
            && Swept(s.pending, s'.pending, now, Some(id)))
      && ((forall id, behavior :: !Answers(s, c, b, now, id, behavior)) ==>
            && Delivers(s, s'.conns, b.session, Inbound(c.chatId, c.user, c.text))
            && Swept(s.pending, s'.pending, now, None))
  }

  /** Users, bindings and the hub are as before. */
  ghost predicate SameTables(s: State, s': State) {
    s'.users == s.users && s'.bindings == s.bindings && s'.hub == s.hub
  }

  /** Only the handler itself steps. */
  predicate Alone(steps: seq<Step>, t: nat) {
    forall i :: 0 <= i < |steps| ==> TaskStep(steps[i]) && steps[i].t == t
  }

  lemma AloneNext(steps: seq<Step>, st: Step, t: nat)
    requires Alone(steps, t) && TaskStep(st) && st.t == t
    ensures Alone(steps + [st], t)
  {
  }

  lemma SeenStep(s: State, t: nat, eventId: string, c: Candidate)
    requires t < |s.tasks| && s.tasks[t] == Delivered(eventId, Some(c))
    ensures Enabled(s, FirstSeen(t))
    ensures var (s', all) := (Apply(s, FirstSeen(t)), s.order + [eventId]);
            && SameTables(s, s') && s'.pending == s.pending && s'.conns == s.conns
            && s'.tasks == s.tasks[t := if eventId in s.order then Finished else Fresh(eventId, c)]
            && s'.order == if eventId in s.order then s.order
                           else if |all| <= 1000 then all else all[|all| - 1000..]
  {
  }

  lemma LookupStep(s: State, t: nat, eventId: string, c: Candidate)
    requires t < |s.tasks| && s.tasks[t] == Fresh(eventId, c)
    ensures Enabled(s, Lookup(t))
    ensures var s' := Apply(s, Lookup(t));
            && SameTables(s, s') && s'.pending == s.pending && s'.conns == s.conns && s'.order == s.order
            && s'.tasks == s.tasks[t := if c.user in s.users && c.chatId in s.bindings
                                        then Bound(eventId, c, s.bindings[c.chatId]) else Finished]
  {
  }

  /** The match decides as the text, the table and the binding say. */
  lemma MatchMeans(pending: map<string, Pending>, c: Candidate, b: Binding, now: int, id: string, behavior: Behavior)
    ensures MatchVerdict(Sweep(pending, now), c, b) == Some((id, behavior))
            <==> && Matches(c.text, id, behavior) && c.user == b.user
                 && id in pending && pending[id].chatId == c.chatId && pending[id].session == b.session
                 && now <= pending[id].created + 1800
  {
    ParseIffMatches(c.text, id, behavior);
    hide ParseVerdict, Matches;
  }

  lemma MatchStep(s: State, t: nat, eventId: string, c: Candidate, b: Binding, now: int)
    requires t < |s.tasks| && s.tasks[t] == Bound(eventId, c, b)
    ensures Enabled(s, Match(t, now))
    ensures var s' := Apply(s, Match(t, now));
            && SameTables(s, s') && s'.conns == s.conns && s'.order == s.order && Swept(s.pending, s'.pending, now, None)
            && (forall id, behavior :: Answers(s, c, b, now, id, behavior) ==>
                  s'.tasks == s.tasks[t := Answered(eventId, c, b, id, behavior)])
            && ((forall id, behavior :: !Answers(s, c, b, now, id, behavior)) ==>
                  s'.tasks == s.tasks[t := Forwarding(eventId, c, b.session, Inbound(c.chatId, c.user, c.text))])
  {
    hide MatchVerdict, Matches;
    forall id, behavior
      ensures MatchVerdict(Sweep(s.pending, now), c, b) == Some((id, behavior)) <==> Answers(s, c, b, now, id, behavior)
    {
      MatchMeans(s.pending, c, b, now, id, behavior);
    }
  }

  lemma ForgetStep(s: State, t: nat, eventId: string, c: Candidate, b: Binding, id: string, behavior: Behavior)
    requires t < |s.tasks| && s.tasks[t] == Answered(eventId, c, b, id, behavior)
    ensures Enabled(s, Forget(t))
    ensures var s' := Apply(s, Forget(t));
            && SameTables(s, s') && s'.conns == s.conns && s'.order == s.order && s'.pending == s.pending - {id}
            && s'.tasks == s.tasks[t := Forwarding(eventId, c, b.session, PermissionVerdict(id, behavior))]
  {
  }

  lemma FindStep(s: State, t: nat, eventId: string, c: Candidate, session: string, msg: RelayMsg)
    requires t < |s.tasks| && s.tasks[t] == Forwarding(eventId, c, session, msg)
    ensures Enabled(s, FindSender(t))
    ensures var s' := Apply(s, FindSender(t));
            && SameTables(s, s') && s'.conns == s.conns && s'.order == s.order && s'.pending == s.pending
            && s'.tasks == s.tasks[t := if session in s.hub then Enqueuing(eventId, c, session, msg, s.hub[session])
                                        else Noticing(c, session)]
  {
  }

  lemma EnqueueStep(s: State, t: nat, eventId: string, c: Candidate, session: string, msg: RelayMsg)
    requires session in s.hub && Reachable(s, session)
    requires t < |s.tasks| && s.tasks[t] == Enqueuing(eventId, c, session, msg, s.hub[session])
    ensures Enabled(s, Enqueue(t))
    ensures var s' := Apply(s, Enqueue(t));
            && SameTables(s, s') && s'.order == s.order && s'.pending == s.pending
            && Delivers(s, s'.conns, session, msg)
            && s'.tasks == s.tasks[t := if Receiving(s.conns[s.hub[session]].phase) then Finished else Noticing(c, session)]
  {
  }

  lemma NoticeStep(s: State, t: nat, c: Candidate, session: string)
    requires t < |s.tasks| && s.tasks[t] == Noticing(c, session)
    ensures Enabled(s, Notice(t))
    ensures var s' := Apply(s, Notice(t));
            && SameTables(s, s') && s'.conns == s.conns && s'.order == s.order && s'.pending == s.pending
            && s'.tasks == s.tasks[t := Finished]
  {
  }

  /** From the lookup of the sender to the end: the message is delivered or its author is
      told that the session is offline. */
  lemma Forward(s: State, before: seq<Step>, t: nat, eventId: string, c: Candidate, session: string, msg: RelayMsg)
    returns (steps: seq<Step>)
    requires Feasible(s, before) && t < |Run(s, before).tasks|
    requires Run(s, before).tasks[t] == Forwarding(eventId, c, session, msg) && Reachable(Run(s, before), session)
    requires Alone(before, t)
    ensures Feasible(s, steps) && Alone(steps, t)
    ensures var (m, s') := (Run(s, before), Run(s, steps));
            && SameTables(m, s') && s'.order == m.order && s'.pending == m.pending
            && Delivers(m, s'.conns, session, msg) && s'.tasks == m.tasks[t := Finished]
  {
    hide Feasible, Run, Enabled, Apply;
    var m := Run(s, before);
    FindStep(m, t, eventId, c, session, msg);
    Extend(s, before, FindSender(t));
    steps := before + [FindSender(t)];
    var found := Run(s, steps);
    if session in m.hub {
      EnqueueStep(found, t, eventId, c, session, msg);
      Extend(s, steps, Enqueue(t));
      steps := steps + [Enqueue(t)];
    }
    var last := Run(s, steps);
    if last.tasks[t] == Noticing(c, session) {
      NoticeStep(last, t, c, session);
      Extend(s, steps, Notice(t));
      steps := steps + [Notice(t)];
    }
  }

  /** The handler of a delivery, running alone from any state, ends; a duplicate does
      nothing, and any other event is remembered among the last 1000 and handled. */
  lemma MessageAlone(s: State, t: nat, eventId: string, c: Candidate, now: int) returns (steps: seq<Step>)
    requires t < |s.tasks| && s.tasks[t] == Delivered(eventId, Some(c))
    requires c.chatId in s.bindings ==> Reachable(s, s.bindings[c.chatId].session)
    ensures Feasible(s, steps) && Alone(steps, t)
    ensures var (s', all) := (Run(s, steps), s.order + [eventId]);
            && SameTables(s, s') && s'.tasks == s.tasks[t := Finished]
            && if eventId in s.order then s'.conns == s.conns && s'.pending == s.pending && s'.order == s.order
               else Handled(s, s', c, now) && s'.order == if |all| <= 1000 then all else all[|all| - 1000..]
  {
    hide Enabled, Apply, Swept, Delivers, Answers, Handled, Reachable;
    steps := [];
    assert Run(s, []) == s && Feasible(s, []);
    hide Feasible, Run;
    SeenStep(s, t, eventId, c);
    Extend(s, steps, FirstSeen(t));
    steps := steps + [FirstSeen(t)];
    if eventId !in s.order {
      steps := FromFresh(s, steps, t, eventId, c, now);
    }
  }

  lemma FromFresh(s: State, before: seq<Step>, t: nat, eventId: string, c: Candidate, now: int) returns (steps: seq<Step>)
    requires Feasible(s, before) && Alone(before, t) && t < |s.tasks|
    requires var m := Run(s, before);
             && SameTables(s, m) && m.conns == s.conns && m.pending == s.pending
             && m.tasks == s.tasks[t := Fresh(eventId, c)]
    requires c.chatId in s.bindings ==> Reachable(s, s.bindings[c.chatId].session)
    ensures Feasible(s, steps) && Alone(steps, t)
    ensures var (m, s') := (Run(s, before), Run(s, steps));
            && SameTables(s, s') && s'.tasks == s.tasks[t := Finished] && Handled(s, s', c, now)
            && s'.order == m.order
  {
    hide Enabled, Apply, Handled, Reachable, Feasible, Run;
    LookupStep(Run(s, before), t, eventId, c);
    Extend(s, before, Lookup(t));
    steps := before + [Lookup(t)];
    if c.user in s.users && c.chatId in s.bindings {
      steps := FromBound(s, steps, t, eventId, c, now);
    } else {
      HandledNothing(s, Run(s, steps), c, now);
    }
  }

  lemma HandledNothing(s: State, s': State, c: Candidate, now: int)
    requires (c.user !in s.users || c.chatId !in s.bindings) && s'.conns == s.conns && s'.pending == s.pending
    ensures Handled(s, s', c, now)
  {
  }

  lemma FromBound(s: State, before: seq<Step>, t: nat, eventId: string, c: Candidate, now: int) returns (steps: seq<Step>)
    requires Feasible(s, before) && t < |s.tasks| && c.user in s.users && c.chatId in s.bindings
    requires var m := Run(s, before);
             && SameTables(s, m) && m.conns == s.conns && m.pending == s.pending
             && m.tasks == s.tasks[t := Bound(eventId, c, s.bindings[c.chatId])]
    requires Reachable(s, s.bindings[c.chatId].session) && Alone(before, t)
    ensures Feasible(s, steps) && Alone(steps, t)
    ensures var (m, s') := (Run(s, before), Run(s, steps));
            && SameTables(s, s') && s'.tasks == s.tasks[t := Finished] && Handled(s, s', c, now)
            && s'.order == m.order
  {
    hide Enabled, Apply, Feasible, Run, Matches, Handled;
    var m, b := Run(s, before), s.bindings[c.chatId];
    MatchStep(m, t, eventId, c, b, now);
    Extend(s, before, Match(t, now));
    steps := before + [Match(t, now)];
    if id, behavior :| Answers(m, c, b, now, id, behavior) {
      ForgetStep(Run(s, steps), t, eventId, c, b, id, behavior);
      Extend(s, steps, Forget(t));
      steps := steps + [Forget(t)];
      assert Swept(s.pending, Run(s, steps).pending, now, Some(id));
      steps := Forward(s, steps, t, eventId, c, b.session, PermissionVerdict(id, behavior));
      assert Answers(s, c, b, now, id, behavior);
      HandledVerdict(s, Run(s, steps), c, now, id, behavior);
    } else {
      assert forall id, behavior :: Answers(s, c, b, now, id, behavior) ==> Answers(m, c, b, now, id, behavior);
      steps := Forward(s, steps, t, eventId, c, b.session, Inbound(c.chatId, c.user, c.text));
      HandledInbound(s, Run(s, steps), c, now);
    }
  }

  lemma HandledVerdict(s: State, s': State, c: Candidate, now: int, id: string, behavior: Behavior)
    requires c.user in s.users && c.chatId in s.bindings && Answers(s, c, s.bindings[c.chatId], now, id, behavior)
    requires Delivers(s, s'.conns, s.bindings[c.chatId].session, PermissionVerdict(id, behavior))
    requires Swept(s.pending, s'.pending, now, Some(id))
    ensures Handled(s, s', c, now)
  {
    OneAnswer(s, c, s.bindings[c.chatId], now, id, behavior);
    hide Answers, Delivers, Swept;
  }

  lemma HandledInbound(s: State, s': State, c: Candidate, now: int)
    requires c.user in s.users && c.chatId in s.bindings
    requires forall id, behavior :: !Answers(s, c, s.bindings[c.chatId], now, id, behavior)
    requires Delivers(s, s'.conns, s.bindings[c.chatId].session, Inbound(c.chatId, c.user, c.text))
    requires Swept(s.pending, s'.pending, now, None)
    ensures Handled(s, s', c, now)
  {
    hide Answers, Delivers, Swept;
  }

  lemma OneAnswer(s: State, c: Candidate, b: Binding, now: int, id: string, behavior: Behavior)
    requires Answers(s, c, b, now, id, behavior)
    ensures forall id', behavior' :: Answers(s, c, b, now, id', behavior') ==> id' == id && behavior' == behavior
  {
    hide ParseVerdict, Matches;
    forall id', behavior' | Answers(s, c, b, now, id', behavior')
      ensures id' == id && behavior' == behavior
    {
      ParseIffMatches(c.text, id, behavior);
      ParseIffMatches(c.text, id', behavior');
    }
  }

  // --- binding and unbinding --------------------------------------------------------------

  /** Only the bindings may differ. */
  ghost predicate SameButBindings(s: State, s': State) {
    s'.users == s.users && s'.hub == s.hub && s'.conns == s.conns && s'.pending == s.pending && s'.order == s.order
  }

  lemma CheckStep(s: State, t: nat, task: Task)
    requires t < |s.tasks| && s.tasks[t] == task && (task.Selecting? || task.Commanding?)
    ensures Enabled(s, CheckUser(t))
    ensures var s' := Apply(s, CheckUser(t));
            && SameButBindings(s, s') && s'.bindings == s.bindings
            && s'.tasks == s.tasks[t := if task.user !in s.users then Finished
                                        else if task.Selecting? then Rooting(task.session, task.channel, task.user)
                                        else Unbinding(task.channel, task.user)]
  {
  }

  lemma RootStep(s: State, t: nat, session: string, channel: string, user: string, ts: Option<string>)
    requires t < |s.tasks| && s.tasks[t] == Rooting(session, channel, user)
    ensures Enabled(s, PostRoot(t, ts))
    ensures var s' := Apply(s, PostRoot(t, ts));
            && SameButBindings(s, s') && s'.bindings == s.bindings
            && s'.tasks == s.tasks[t := if ts.Some? then Rooted(session, channel, user, ts.value) else Finished]
  {
  }

  lemma BindStep(s: State, t: nat, session: string, channel: string, user: string, ts: string, now: int)
    requires t < |s.tasks| && s.tasks[t] == Rooted(session, channel, user, ts)
    ensures Enabled(s, Bind(t, now))
    ensures var s' := Apply(s, Bind(t, now));
            && SameButBindings(s, s') && s'.bindings == s.bindings[channel + ":" + ts := Binding(session, user, now)]
            && s'.tasks == s.tasks[t := Finished]
  {
  }

  /** The bindings of this user in this channel are gone; the others are as they were. */
  ghost predicate UnboundIn(before: map<string, Binding>, after: map<string, Binding>, channel: string, user: string) {
    && (forall k :: k in after ==> k in before && after[k] == before[k])
    && (forall k :: k in before ==>
          (k in after <==> before[k].user != user || SplitOnce(k, ':').None? || SplitOnce(k, ':').value.0 != channel))
  }

  lemma UnbindStep(s: State, t: nat, channel: string, user: string)
    requires t < |s.tasks| && s.tasks[t] == Unbinding(channel, user) && ':' !in channel
    ensures Enabled(s, Unbind(t))
    ensures var s' := Apply(s, Unbind(t));
            && SameButBindings(s, s') && UnboundIn(s.bindings, s'.bindings, channel, user)
            && s'.tasks == s.tasks[t := Finished]
  {
    hide SplitOnce;
    forall k | k in s.bindings
      ensures channel + ":" <= k <==> SplitOnce(k, ':').Some? && SplitOnce(k, ':').value.0 == channel
    {
      PrefixIsChannel(channel, k);
    }
  }

  /** An allowed user's choice of a session binds the new thread to it, with the time of the
      binding; a stranger's choice, or a refused root post, binds nothing. */
  lemma SelectAlone(s: State, t: nat, session: string, channel: string, user: string, ts: Option<string>, now: int)
    returns (steps: seq<Step>)
    requires t < |s.tasks| && s.tasks[t] == Selecting(session, channel, user)
    ensures Feasible(s, steps) && Alone(steps, t)
    ensures var s' := Run(s, steps);
            && SameButBindings(s, s') && s'.tasks == s.tasks[t := Finished]
            && s'.bindings == if user in s.users && ts.Some?
                              then s.bindings[channel + ":" + ts.value := Binding(session, user, now)] else s.bindings
  {
    steps := [];
    assert Run(s, []) == s && Feasible(s, []) && Alone([], t);
    hide Feasible, Run, Apply, Enabled, Alone;
    CheckStep(s, t, s.tasks[t]);
    Extend(s, steps, CheckUser(t));
    AloneNext(steps, CheckUser(t), t);
    steps := steps + [CheckUser(t)];
    if user in s.users {
      steps := FromRooting(s, steps, t, session, channel, user, ts, now);
    }
  }

  lemma FromRooting(s: State, before: seq<Step>, t: nat, session: string, channel: string, user: string,
                    ts: Option<string>, now: int) returns (steps: seq<Step>)
    requires Feasible(s, before) && Alone(before, t) && t < |Run(s, before).tasks|
    requires Run(s, before).tasks[t] == Rooting(session, channel, user)
    ensures Feasible(s, steps) && Alone(steps, t)
    ensures var (m, s') := (Run(s, before), Run(s, steps));
            && SameButBindings(m, s') && s'.tasks == m.tasks[t := Finished]
            && s'.bindings == if ts.Some? then m.bindings[channel + ":" + ts.value := Binding(session, user, now)]
                              else m.bindings
  {
    hide Feasible, Run, Apply, Enabled, Alone;
    RootStep(Run(s, before), t, session, channel, user, ts);
    Extend(s, before, PostRoot(t, ts));
    AloneNext(before, PostRoot(t, ts), t);
    steps := before + [PostRoot(t, ts)];
    if ts.Some? {
      BindStep(Run(s, steps), t, session, channel, user, ts.value, now);
      Extend(s, steps, Bind(t, now));
      AloneNext(steps, Bind(t, now), t);
      steps := steps + [Bind(t, now)];
    }
  }

  /** An allowed user's `unbind` removes exactly this user's threads in the channel; a
      stranger's removes nothing. */
  lemma UnbindAlone(s: State, t: nat, channel: string, user: string) returns (steps: seq<Step>)
    requires t < |s.tasks| && s.tasks[t] == Commanding(channel, user) && ':' !in channel
    ensures Feasible(s, steps) && Alone(steps, t)
    ensures var s' := Run(s, steps);
            && SameButBindings(s, s') && s'.tasks == s.tasks[t := Finished]
            && if user in s.users then UnboundIn(s.bindings, s'.bindings, channel, user) else s'.bindings == s.bindings
  {
    steps := [];
    assert Run(s, []) == s && Feasible(s, []) && Alone([], t);
    hide Feasible, Run, Apply, Enabled, UnboundIn, Alone;
    CheckStep(s, t, s.tasks[t]);
    Extend(s, steps, CheckUser(t));
    AloneNext(steps, CheckUser(t), t);
    steps := steps + [CheckUser(t)];
    if user in s.users {
      UnbindStep(Run(s, steps), t, channel, user);
      Extend(s, steps, Unbind(t));
      AloneNext(steps, Unbind(t), t);
      steps := steps + [Unbind(t)];
    }
  }

  // --- connections ------------------------------------------------------------------------

  /** Who is let in, and what the others are told. */
  lemma Admission(names: set<string>, first: FirstFrame)
    ensures Refusal(names, first).None?
            <==> && first.Hello? && first.version == 1 && 1 <= |first.name| <= 150 && first.name !in names
                 && forall i :: 0 <= i < |first.name| ==>
                      var ch := first.name[i] as int; 32 <= ch < 127 || 160 <= ch
    ensures first.Timeout? ==> Refusal(names, first) == Some("hello timeout")
    ensures first.Other? ==> Refusal(names, first) == Some("first frame must be hello")
    ensures first.Hello? && first.version != 1 ==>
              Refusal(names, first) == Some("unsupported protocol version: " + Padded(first.version, 0))
    ensures first.Hello? && first.version == 1 && !(1 <= |first.name| <= 150) ==>
              Refusal(names, first) == Some("invalid session name")
    ensures first.Hello? && first.version == 1 && (exists i :: 0 <= i < |first.name| && IsControl(first.name[i])) ==>
              Refusal(names, first) == Some("invalid session name")
    ensures first.Hello? && Refusal(names, first).Some? && first.version == 1 && first.name in names
            && 1 <= |first.name| <= 150 && (forall i :: 0 <= i < |first.name| ==> !IsControl(first.name[i])) ==>
              Refusal(names, first) == Some("session name already connected: " + first.name)
  {
  }

  /** Connection `k` is in `phase` and has this queue; it lost what `lost` says. */
  ghost predicate Is(s: State, k: nat, name: string, phase: Phase, queue: seq<RelayMsg>, lost: seq<RelayMsg>) {
    k < |s.conns| && s.conns[k] == Conn(name, phase, queue, lost)
  }

  lemma HandshakeStep(s: State, k: nat, first: FirstFrame)
    requires k < |s.conns| && s.conns[k] == Conn("", Greeting, [], [])
    ensures Enabled(s, Handshake(k, first))
    ensures var (s', refusal) := (Apply(s, Handshake(k, first)), Refusal(s.hub.Keys, first));
            if refusal.None?
            then s' == s.(conns := s.conns[k := Conn(first.name, Admitted, [], [])], hub := s.hub[first.name := k],
                          log := s.log + [ERegistered(k, first.name)])
            else s' == s.(conns := s.conns[k := Conn("", Rejecting(refusal.value), [], [])])
  {
    hide Refusal, LatestIs;
    assert s.log + [] == s.log;
  }

  lemma WelcomeStep(s: State, k: nat, name: string)
    requires Is(s, k, name, Admitted, [], [])
    ensures Enabled(s, SendWelcome(k, true))
    ensures Apply(s, SendWelcome(k, true))
            == s.(conns := s.conns[k := Conn(name, Serving, [], [])], log := s.log + [EFrame(k, Welcome(name))])
  {
  }

  lemma RejectStep(s: State, k: nat, message: string)
    requires Is(s, k, "", Rejecting(message), [], [])
    ensures Enabled(s, Reject(k, true))
    ensures Apply(s, Reject(k, true))
            == s.(conns := s.conns[k := Conn("", Refused, [], [])], log := s.log + [EFrame(k, Error(message))])
  {
  }

  lemma ConnectStep(s: State)
    ensures Enabled(s, Connect) && Apply(s, Connect) == s.(conns := s.conns + [Conn("", Greeting, [], [])])
  {
  }

  /** A new connection that is let in is registered, welcomed and served; another one gets
      its error and never appears in the hub. */
  lemma ConnectAlone(s: State, first: FirstFrame) returns (steps: seq<Step>)
    ensures Feasible(s, steps)
    ensures var (s', k, refusal) := (Run(s, steps), |s.conns|, Refusal(s.hub.Keys, first));
            if refusal.None?
            then s' == s.(conns := s.conns + [Conn(first.name, Serving, [], [])], hub := s.hub[first.name := k],
                          log := s.log + [ERegistered(k, first.name)] + [EFrame(k, Welcome(first.name))])
            else s' == s.(conns := s.conns + [Conn("", Refused, [], [])],
                          log := s.log + [EFrame(k, Error(refusal.value))])
  {
    steps := [];
    assert Run(s, []) == s && Feasible(s, []);
    hide Feasible, Run, Refusal, Apply, Enabled;
    ConnectStep(s);
    Extend(s, steps, Connect);
    steps := steps + [Connect];
    if Refusal(s.hub.Keys, first).None? {
      steps := LetIn(s, steps, first);
    } else {
      steps := TurnedAway(s, steps, first);
    }
  }

  lemma LetIn(s: State, before: seq<Step>, first: FirstFrame) returns (steps: seq<Step>)
    requires Feasible(s, before) && Run(s, before) == s.(conns := s.conns + [Conn("", Greeting, [], [])])
    requires Refusal(s.hub.Keys, first).None?
    ensures Feasible(s, steps)
    ensures var k := |s.conns|;
            Run(s, steps) == s.(conns := s.conns + [Conn(first.name, Serving, [], [])], hub := s.hub[first.name := k],
                                log := s.log + [ERegistered(k, first.name)] + [EFrame(k, Welcome(first.name))])
  {
    assert first.Hello?;
    hide Feasible, Run, Refusal, Apply, Enabled;
    var k, m := |s.conns|, Run(s, before);
    HandshakeStep(m, k, first);
    Extend(s, before, Handshake(k, first));
    steps := before + [Handshake(k, first)];
    assert m.conns[k := Conn(first.name, Admitted, [], [])] == s.conns + [Conn(first.name, Admitted, [], [])];
    WelcomeStep(Run(s, steps), k, first.name);
    Extend(s, steps, SendWelcome(k, true));
    steps := steps + [SendWelcome(k, true)];
    assert Run(s, steps).conns == s.conns + [Conn(first.name, Serving, [], [])];
  }

  lemma TurnedAway(s: State, before: seq<Step>, first: FirstFrame) returns (steps: seq<Step>)
    requires Feasible(s, before) && Run(s, before) == s.(conns := s.conns + [Conn("", Greeting, [], [])])
    requires Refusal(s.hub.Keys, first).Some?
    ensures Feasible(s, steps)
    ensures var k := |s.conns|;
            Run(s, steps) == s.(conns := s.conns + [Conn("", Refused, [], [])],
                                log := s.log + [EFrame(k, Error(Refusal(s.hub.Keys, first).value))])
  {
    hide Feasible, Run, Refusal, Apply, Enabled;
    var k, m := |s.conns|, Run(s, before);
    var message := Refusal(s.hub.Keys, first).value;
    HandshakeStep(m, k, first);
    Extend(s, before, Handshake(k, first));
    steps := before + [Handshake(k, first)];
    assert m.conns[k := Conn("", Rejecting(message), [], [])] == s.conns + [Conn("", Rejecting(message), [], [])];
    RejectStep(Run(s, steps), k, message);
    Extend(s, steps, Reject(k, true));
    steps := steps + [Reject(k, true)];
    assert Run(s, steps).conns == s.conns + [Conn("", Refused, [], [])];
  }

  lemma TakeStep(s: State, k: nat, name: string, msg: RelayMsg, rest: seq<RelayMsg>)
    requires Is(s, k, name, Serving, [msg] + rest, [])
    ensures Enabled(s, Take(k))
    ensures Apply(s, Take(k)) == s.(conns := s.conns[k := Conn(name, Sending(msg), rest, [])])
  {
    assert s.log + [] == s.log;
    assert ([msg] + rest)[1..] == rest;
  }

  lemma SendStep(s: State, k: nat, name: string, msg: RelayMsg, rest: seq<RelayMsg>, sent: bool)
    requires Is(s, k, name, Sending(msg), rest, [])
    ensures Enabled(s, Send(k, sent))
    ensures Apply(s, Send(k, sent))
            == if sent then s.(conns := s.conns[k := Conn(name, Serving, rest, [])], log := s.log + [EFrame(k, msg)])
               else s.(conns := s.conns[k := Conn(name, Left, [], [msg] + rest)])
  {
    assert s.log + [] == s.log;
  }

  lemma UnregisterStep(s: State, k: nat, name: string, lost: seq<RelayMsg>)
    requires Is(s, k, name, Left, [], lost)
    ensures Enabled(s, Unregister(k))
    ensures Apply(s, Unregister(k))
            == s.(conns := s.conns[k := Conn(name, Gone, [], lost)], hub := s.hub - {name},
                  log := s.log + [EUnregistered(k, name)])
  {
  }

  /** A serving connection sends what is first in its queue; if that fails it ends, loses
      the rest, and frees its name. */
  lemma ServeAlone(s: State, k: nat, name: string, msg: RelayMsg, rest: seq<RelayMsg>, sent: bool)
    returns (steps: seq<Step>)
    requires Is(s, k, name, Serving, [msg] + rest, [])
    ensures Feasible(s, steps)
    ensures Run(s, steps)
            == if sent then s.(conns := s.conns[k := Conn(name, Serving, rest, [])], log := s.log + [EFrame(k, msg)])
               else s.(conns := s.conns[k := Conn(name, Gone, [], [msg] + rest)], hub := s.hub - {name},
                       log := s.log + [EUnregistered(k, name)])
  {
    steps := [];
    assert Run(s, []) == s && Feasible(s, []);
    hide Feasible, Run, Apply, Enabled;
    TakeStep(s, k, name, msg, rest);
    Extend(s, steps, Take(k));
    steps := steps + [Take(k)];
    SendStep(Run(s, steps), k, name, msg, rest, sent);
    Extend(s, steps, Send(k, sent));
    steps := steps + [Send(k, sent)];
    if !sent {
      UnregisterStep(Run(s, steps), k, name, [msg] + rest);
      Extend(s, steps, Unregister(k));
      steps := steps + [Unregister(k)];
    }
  }

  // --- prompts and replies --------------------------------------------------------------

  function PromptPieces(tool: string, description: string, preview: string, id: string): seq<string> {
    Chunk.Pieces(PromptText(tool, description, preview, id), 3900)
  }

  lemma RequestStep(s: State, k: nat, name: string, queue: seq<RelayMsg>, id: string, tool: string,
                    description: string, preview: string, now: int, chat: string)
    requires Is(s, k, name, Serving, queue, []) && IsLatest(s.bindings, name, chat)
    ensures var (st, pieces) := (Request(k, id, tool, description, preview, now, Some(chat)),
                                 PromptPieces(tool, description, preview, id));
            && Enabled(s, st)
            && var s' := Apply(s, st);
               && SameTables(s, s') && s'.tasks == s.tasks
               && s'.conns == s.conns[k := Conn(name, if SplitOnce(chat, ':').Some? then Prompting(id, pieces)
                                                      else Withdrawing(id), queue, [])]
               && id in s'.pending && s'.pending[id] == Pending(chat, name, now)
               && Swept(s.pending, s'.pending - {id}, now, Some(id))
  {
    hide Chunk.Pieces, PromptText, IsLatest, SplitOnce, Refusal, Chunk.Destination;
  }

  lemma PostStep(s: State, k: nat, name: string, queue: seq<RelayMsg>, id: string, piece: string, rest: seq<string>,
                 posted: bool)
    requires Is(s, k, name, Prompting(id, [piece] + rest), queue, [])
    ensures Enabled(s, PostPrompt(k, posted))
    ensures var s' := Apply(s, PostPrompt(k, posted));
            && SameTables(s, s') && s'.tasks == s.tasks && s'.pending == s.pending
            && s'.conns == s.conns[k := Conn(name, if !posted then Withdrawing(id)
                                                   else if rest == [] then Serving else Prompting(id, rest), queue, [])]
  {
    assert ([piece] + rest)[1..] == rest;
  }

  lemma WithdrawStep(s: State, k: nat, name: string, queue: seq<RelayMsg>, id: string)
    requires Is(s, k, name, Withdrawing(id), queue, [])
    ensures Enabled(s, Withdraw(k))
    ensures var s' := Apply(s, Withdraw(k));
            && SameTables(s, s') && s'.tasks == s.tasks && s'.pending == s.pending - {id}
            && s'.conns == s.conns[k := Conn(name, Serving, queue, [])]
  {
  }

  /** The first `n` posts of a prompt whose pieces are `pieces`, all taken by Slack. */
  lemma {:induction false} Posts(s: State, before: seq<Step>, k: nat, name: string, queue: seq<RelayMsg>, id: string,
                                 pieces: seq<string>, n: nat) returns (steps: seq<Step>)
    requires Feasible(s, before) && Is(Run(s, before), k, name, Prompting(id, pieces), queue, []) && n <= |pieces|
    requires pieces != []
    ensures Feasible(s, steps) && steps == before + seq(n, _ => PostPrompt(k, true))
    ensures var (m, s') := (Run(s, before), Run(s, steps));
            && SameTables(m, s') && s'.tasks == m.tasks && s'.pending == m.pending
            && s'.conns == m.conns[k := Conn(name, if n < |pieces| then Prompting(id, pieces[n..]) else Serving, queue, [])]
    decreases n
  {
    hide Feasible, Run, Apply, Enabled;
    if n == 0 {
      steps := before;
      assert pieces[0..] == pieces;
    } else {
      steps := Posts(s, before, k, name, queue, id, pieces, n - 1);
      assert pieces[n - 1..] == [pieces[n - 1]] + pieces[n..];
      PostStep(Run(s, steps), k, name, queue, id, pieces[n - 1], pieces[n..], true);
      Extend(s, steps, PostPrompt(k, true));
      steps := steps + [PostPrompt(k, true)];
    }
  }

  /** A request for a bound session: it is pending for the latest thread once every piece of
      its prompt was posted; if the thread has no valid id, or Slack refuses piece `n`, it is
      withdrawn and no trace of it is left. */
  lemma RequestAlone(s: State, k: nat, name: string, queue: seq<RelayMsg>, id: string, tool: string,
                     description: string, preview: string, now: int, chat: string, n: nat) returns (steps: seq<Step>)
    requires Is(s, k, name, Serving, queue, []) && IsLatest(s.bindings, name, chat)
    requires n <= |PromptPieces(tool, description, preview, id)|
    ensures Feasible(s, steps)
    ensures var (pieces, valid) := (PromptPieces(tool, description, preview, id), SplitOnce(chat, ':').Some?);
            var (request, posts) := (Request(k, id, tool, description, preview, now, Some(chat)),
                                     seq(n, _ => PostPrompt(k, true)));
            steps == if !valid then [request, Withdraw(k)]
                     else if n == |pieces| then [request] + posts
                     else [request] + posts + [PostPrompt(k, false), Withdraw(k)]
    ensures var s' := Run(s, steps);
            && SameTables(s, s') && s'.tasks == s.tasks && s'.conns == s.conns
            && if SplitOnce(chat, ':').Some? && n == |PromptPieces(tool, description, preview, id)|
               then && id in s'.pending && s'.pending[id] == Pending(chat, name, now)
                    && Swept(s.pending, s'.pending - {id}, now, Some(id))
               else Swept(s.pending, s'.pending, now, Some(id))
  {
    var pieces, request := PromptPieces(tool, description, preview, id), Request(k, id, tool, description, preview, now, Some(chat));
    steps := [];
    assert Run(s, []) == s && Feasible(s, []);
    PromptHasPieces(tool, description, preview, id);
    hide Feasible, Run, Apply, Enabled, PromptPieces, SplitOnce, Swept, IsLatest;
    RequestStep(s, k, name, queue, id, tool, description, preview, now, chat);
    Extend(s, steps, request);
    steps := steps + [request];
    var asked := Run(s, steps);
    if SplitOnce(chat, ':').Some? {
      steps := PostAll(s, steps, k, name, queue, id, pieces, n);
    } else {
      WithdrawStep(asked, k, name, queue, id);
      Extend(s, steps, Withdraw(k));
      steps := steps + [Withdraw(k)];
    }
    assert s.conns[k := s.conns[k]] == s.conns;
    assert asked.conns[k := s.conns[k]] == s.conns;
  }

  /** From the first piece of a prompt to the end of the request. */
  lemma PostAll(s: State, before: seq<Step>, k: nat, name: string, queue: seq<RelayMsg>, id: string,
                pieces: seq<string>, n: nat) returns (steps: seq<Step>)
    requires Feasible(s, before) && Is(Run(s, before), k, name, Prompting(id, pieces), queue, []) && n <= |pieces|
    requires pieces != []
    ensures Feasible(s, steps)
    ensures var posts := seq(n, _ => PostPrompt(k, true));
            steps == if n == |pieces| then before + posts else before + posts + [PostPrompt(k, false), Withdraw(k)]
    ensures var (m, s') := (Run(s, before), Run(s, steps));
            && SameTables(m, s') && s'.tasks == m.tasks
            && s'.conns == m.conns[k := Conn(name, Serving, queue, [])]
            && s'.pending == if n == |pieces| then m.pending else m.pending - {id}
  {
    hide Feasible, Run, Apply, Enabled;
    steps := Posts(s, before, k, name, queue, id, pieces, n);
    if n < |pieces| {
      assert pieces[n..] == [pieces[n]] + pieces[n + 1..];
      PostStep(Run(s, steps), k, name, queue, id, pieces[n], pieces[n + 1..], false);
      Extend(s, steps, PostPrompt(k, false));
      var steps' := steps + [PostPrompt(k, false)];
      WithdrawStep(Run(s, steps'), k, name, queue, id);
      Extend(s, steps', Withdraw(k));
      assert steps' + [Withdraw(k)] == steps + [PostPrompt(k, false), Withdraw(k)];
      steps := steps' + [Withdraw(k)];
    }
  }

  lemma PromptHasPieces(tool: string, description: string, preview: string, id: string)
    ensures PromptPieces(tool, description, preview, id) != []
  {
    hide PromptText;
  }

  /** A reply to `channel:thread`, both parts given, is posted in pieces; a reply elsewhere,
      or an empty one, is dropped. */
  lemma ReplyStep(s: State, k: nat, name: string, queue: seq<RelayMsg>, chatId: string, text: string)
    requires Is(s, k, name, Serving, queue, [])
    ensures Enabled(s, Reply(k, chatId, text))
    ensures var s' := Apply(s, Reply(k, chatId, text));
            && SameTables(s, s') && s'.tasks == s.tasks && s'.pending == s.pending
            && (forall channel, thread ::
                  chatId == channel + ":" + thread && ':' !in channel && channel != "" && thread != "" && text != "" ==>
                    s'.conns == s.conns[k := Conn(name, Replying(Chunk.Pieces(text, 3900)), queue, [])])
            && (text == "" ==> s'.conns == s.conns)
            && ((forall channel, thread :: channel != "" && thread != "" && ':' !in channel ==>
                   chatId != channel + ":" + thread) ==> s'.conns == s.conns)
  {
    hide Chunk.Pieces, Chunk.Destination;
    forall channel, thread
      ensures Chunk.Destination(chatId) == Some((channel, thread))
              <==> chatId == channel + ":" + thread && ':' !in channel && channel != "" && thread != ""
    {
      Chunk.DestinationParts(chatId, channel, thread);
    }
    if Chunk.Destination(chatId).Some? {
      var (channel, thread) := Chunk.Destination(chatId).value;
      assert chatId == channel + ":" + thread;
    }
  }

  /** Replies go on with the next piece until one is refused or none is left; a refusal
      posts no further piece and leaves the connection serving. */
  lemma PieceStep(s: State, k: nat, name: string, queue: seq<RelayMsg>, piece: string, rest: seq<string>, posted: bool)
    requires Is(s, k, name, Replying([piece] + rest), queue, [])
    ensures Enabled(s, PostPiece(k, posted))
    ensures var s' := Apply(s, PostPiece(k, posted));
            && SameTables(s, s') && s'.tasks == s.tasks && s'.pending == s.pending
            && s'.conns == s.conns[k := Conn(name, if posted && rest != [] then Replying(rest) else Serving, queue, [])]
  {
    assert ([piece] + rest)[1..] == rest;
  }

  lemma HangupStep(s: State, k: nat, name: string, queue: seq<RelayMsg>)
    requires Is(s, k, name, Serving, queue, [])
    ensures Enabled(s, Hangup(k))
    ensures Apply(s, Hangup(k)) == s.(conns := s.conns[k := Conn(name, Left, [], queue)])
  {
    assert s.log + [] == s.log;
    assert [] + queue == queue;
  }
}
