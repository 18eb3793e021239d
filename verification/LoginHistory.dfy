/** Where cookies and agent tokens come from, over every run of the login and token
    handlers, with crashes and restarts. */
module LoginHistory {
  import opened Wrappers
  import opened Sessions
  import opened Admin

  // --- provenance -------------------------------------------------------------------

  /** Task `t` used up, before it expired, a state issued together with `nonce`. */
  ghost predicate StateUsed(log: seq<Event>, t: nat, nonce: string) {
    exists state, begun: int, now: int ::
      Begun(state, nonce, begun) in log && Consumed(t, state, nonce, now, true) in log && now < begun + LOGIN_SECS
  }

  /** Task `t` verified an id_token of `user` carrying the nonce of the state it used. */
  ghost predicate LoggedIn(cfg: Config, log: seq<Event>, t: nat, user: string) {
    && user == cfg.adminUser && cfg.adminUser != ""
    && exists claims :: Verified(t, claims) in log && claims.sub == user && StateUsed(log, t, claims.nonce)
  }

  ghost predicate HasCookie(log: seq<Event>, sid: string, user: string, since: int) {
    exists t :: CookieSet(t, sid, user, since) in log
  }

  ghost predicate CookieLogged(log: seq<Event>, sid: string, cookie: Cookie) {
    HasCookie(log, sid, cookie.user, cookie.expires - COOKIE_SECS)
  }

  /** At `now` the cookie was set and not yet expired. */
  ghost predicate Bearer(log: seq<Event>, sid: string, user: string, now: int) {
    exists since: int :: HasCookie(log, sid, user, since) && now < since + COOKIE_SECS
  }

  ghost predicate Justified(cfg: Config, pre: seq<Event>, e: Event) {
    match e
    case Verified(t, claims) =>
      StateUsed(pre, t, claims.nonce) && claims.iss == SLACK_ISSUER && claims.aud == cfg.clientId
      && claims.sub == cfg.adminUser && cfg.adminUser != ""
    case CookieSet(t, sid, user, now) => LoggedIn(cfg, pre, t, user)
    case Authorized(t, sid, user, now) => Bearer(pre, sid, user, now)
    case Issued(t, token) => exists sid, user, now: int :: Authorized(t, sid, user, now) in pre
    case _ => true
  }

  ghost predicate LogJustified(cfg: Config, log: seq<Event>) {
    forall n :: 0 <= n < |log| ==> Justified(cfg, log[..n], log[n])
  }

  ghost predicate ThenJustified(cfg: Config, log: seq<Event>, t: nat, next: Then) {
    match next
    case SetCookie(user, now) => LoggedIn(cfg, log, t, user)
    case ShowToken(token) => exists sid, user, now: int :: Authorized(t, sid, user, now) in log
    case Nothing => true
  }

  ghost predicate TaskJustified(cfg: Config, log: seq<Event>, t: nat, task: Task) {
    match task
    case Exchanging(state, nonce, now) => StateUsed(log, t, nonce)
    case Wants(change, next) => ThenJustified(cfg, log, t, next)
    case Saving(change, next) => ThenJustified(cfg, log, t, next)
    case Resumed(next) => ThenJustified(cfg, log, t, next)
    case _ => true
  }

  ghost predicate TasksJustified(cfg: Config, log: seq<Event>, tasks: seq<Task>) {
    forall t :: 0 <= t < |tasks| ==> TaskJustified(cfg, log, t, tasks[t])
  }

  ghost predicate MemoryJustified(log: seq<Event>, memory: Option<Memory>) {
    memory.Some? ==>
      && (forall state :: state in memory.value.pending ==>
            Begun(state, memory.value.pending[state].nonce, memory.value.pending[state].expires - LOGIN_SECS) in log)
      && (forall sid :: sid in memory.value.cookies ==> CookieLogged(log, sid, memory.value.cookies[sid]))
  }

  ghost predicate LoginInv(cfg: Config, w: World) {
    MemoryJustified(w.log, w.memory) && TasksJustified(cfg, w.log, w.tasks) && LogJustified(cfg, w.log)
  }

  lemma StateUsedStays(log: seq<Event>, es: seq<Event>, t: nat, nonce: string)
    requires StateUsed(log, t, nonce)
    ensures StateUsed(log + es, t, nonce)
  {
    var state, begun: int, now: int :|
      Begun(state, nonce, begun) in log && Consumed(t, state, nonce, now, true) in log && now < begun + LOGIN_SECS;
    assert Begun(state, nonce, begun) in log + es && Consumed(t, state, nonce, now, true) in log + es;
  }

  lemma LoggedInStays(cfg: Config, log: seq<Event>, es: seq<Event>, t: nat, user: string)
    requires LoggedIn(cfg, log, t, user)
    ensures LoggedIn(cfg, log + es, t, user)
  {
    hide StateUsed;
    var claims :| Verified(t, claims) in log && claims.sub == user && StateUsed(log, t, claims.nonce);
    StateUsedStays(log, es, t, claims.nonce);
    assert Verified(t, claims) in log + es;
  }

  lemma ThenStays(cfg: Config, log: seq<Event>, es: seq<Event>, t: nat, next: Then)
    requires ThenJustified(cfg, log, t, next)
    ensures ThenJustified(cfg, log + es, t, next)
  {
    hide LoggedIn;
    match next {
      case SetCookie(user, now) => LoggedInStays(cfg, log, es, t, user);
      case ShowToken(token) =>
        var sid, user, now: int :| Authorized(t, sid, user, now) in log;
        assert Authorized(t, sid, user, now) in log + es;
      case Nothing =>
    }
  }

  lemma TasksStay(cfg: Config, log: seq<Event>, es: seq<Event>, tasks: seq<Task>)
    requires TasksJustified(cfg, log, tasks)
    ensures TasksJustified(cfg, log + es, tasks)
  {
    hide ThenJustified, StateUsed;
    forall t | 0 <= t < |tasks|
      ensures TaskJustified(cfg, log + es, t, tasks[t])
    {
      assert TaskJustified(cfg, log, t, tasks[t]);
      var task := tasks[t];
      if task.Exchanging? {
        StateUsedStays(log, es, t, task.nonce);
      } else if task.Wants? || task.Saving? || task.Resumed? {
        ThenStays(cfg, log, es, t, task.next);
      }
    }
  }

  lemma MemoryStays(log: seq<Event>, es: seq<Event>, memory: Option<Memory>)
    requires MemoryJustified(log, memory)
    ensures MemoryJustified(log + es, memory)
  {
    if memory.Some? {
      forall sid | sid in memory.value.cookies
        ensures CookieLogged(log + es, sid, memory.value.cookies[sid])
      {
        var cookie := memory.value.cookies[sid];
        var t :| CookieSet(t, sid, cookie.user, cookie.expires - COOKIE_SECS) in log;
        assert CookieSet(t, sid, cookie.user, cookie.expires - COOKIE_SECS) in log + es;
      }
    }
  }

  lemma LogGrows(cfg: Config, log: seq<Event>, es: seq<Event>)
    requires LogJustified(cfg, log) && |es| <= 1
    requires es != [] ==> Justified(cfg, log, es[0])
    ensures LogJustified(cfg, log + es)
  {
    hide Justified;
    forall n | 0 <= n < |log + es|
      ensures Justified(cfg, (log + es)[..n], (log + es)[n])
    {
      if n < |log| {
        assert (log + es)[..n] == log[..n];
      } else {
        assert (log + es)[..n] == log;
      }
    }
  }

  lemma EventJustified(cfg: Config, w: World, st: Step)
    requires LoginInv(cfg, w) && Enabled(w, st) && TaskStep(st)
    ensures var es := TaskEvents(cfg, w.memory.value, st.t, w.tasks[st.t], st);
            |es| <= 1 && (es != [] ==> Justified(cfg, w.log, es[0]))
  {
    hide LogJustified, StateUsed, LoggedIn, HasCookie, GoodLabel;
    assert TaskJustified(cfg, w.log, st.t, w.tasks[st.t]);
  }

  lemma UsedNow(log: seq<Event>, t: nat, state: string, nonce: string, begun: int, now: int)
    requires Begun(state, nonce, begun) in log && now < begun + LOGIN_SECS
    ensures StateUsed(log + [Consumed(t, state, nonce, now, true)], t, nonce)
  {
    var log' := log + [Consumed(t, state, nonce, now, true)];
    assert Begun(state, nonce, begun) in log' && Consumed(t, state, nonce, now, true) in log';
  }

  lemma LoggedInNow(cfg: Config, log: seq<Event>, t: nat, claims: Claims)
    requires StateUsed(log, t, claims.nonce) && claims.sub == cfg.adminUser && cfg.adminUser != ""
    ensures LoggedIn(cfg, log + [Verified(t, claims)], t, claims.sub)
  {
    StateUsedStays(log, [Verified(t, claims)], t, claims.nonce);
    assert Verified(t, claims) in log + [Verified(t, claims)];
  }

  lemma AuthorizedNow(cfg: Config, log: seq<Event>, t: nat, sid: string, user: string, now: int, token: string)
    ensures ThenJustified(cfg, log + [Authorized(t, sid, user, now)], t, ShowToken(token))
  {
    assert Authorized(t, sid, user, now) in log + [Authorized(t, sid, user, now)];
  }

  lemma NextJustified(cfg: Config, w: World, st: Step)
    requires LoginInv(cfg, w) && Enabled(w, st) && TaskStep(st)
    ensures var task := w.tasks[st.t];
            TaskJustified(cfg, w.log + TaskEvents(cfg, w.memory.value, st.t, task, st), st.t,
                          NextTask(cfg, w.memory.value, task, st))
  {
    hide LogJustified, StateUsed, LoggedIn, HasCookie, GoodLabel, ThenJustified;
    var mem, task := w.memory.value, w.tasks[st.t];
    var es := TaskEvents(cfg, mem, st.t, task, st);
    assert TaskJustified(cfg, w.log, st.t, task);
    match st {
      case TakeState(_, now) =>
        if Taken(mem.pending, task.state, now).Some? {
          var login := mem.pending[task.state];
          UsedNow(w.log, st.t, task.state, login.nonce, login.expires - LOGIN_SECS, now);
        }
      case Exchange(_, reply) =>
        if es != [] {
          LoggedInNow(cfg, w.log, st.t, reply.value);
          LoginThen(cfg, w.log + es, st.t, reply.value.sub, task.now);
        }
      case Authorize(_, now, token, _) =>
        if es != [] {
          AuthorizedNow(cfg, w.log, st.t, task.sid, UserFor(mem.cookies, task.sid, now).value, now, token);
        }
      case Acquire(_) => assert w.log + es == w.log;
      case Resume(_, _) =>
    }
  }

  lemma LoginThen(cfg: Config, log: seq<Event>, t: nat, user: string, now: int)
    requires LoggedIn(cfg, log, t, user)
    ensures ThenJustified(cfg, log, t, SetCookie(user, now))
  {
  }

  lemma TaskMemoryJustified(cfg: Config, w: World, st: Step)
    requires LoginInv(cfg, w) && Enabled(w, st) && TaskStep(st)
    ensures var mem, task := w.memory.value, w.tasks[st.t];
            MemoryJustified(w.log + TaskEvents(cfg, mem, st.t, task, st), Some(TaskMemory(mem, w.main, task, st)))
  {
    hide LogJustified, TasksJustified, GoodLabel, ClaimsOk, HasCookie, Changed;
    var mem, task := w.memory.value, w.tasks[st.t];
    var es := TaskEvents(cfg, mem, st.t, task, st);
    MemoryStays(w.log, es, w.memory);
    if st.Resume? && task.next.SetCookie? {
      CookieNow(w.log, st.t, st.sid, task.next.user, task.next.now);
    }
  }

  lemma CookieNow(log: seq<Event>, t: nat, sid: string, user: string, now: int)
    ensures HasCookie(log + [CookieSet(t, sid, user, now)], sid, user, now)
  {
    assert CookieSet(t, sid, user, now) in log + [CookieSet(t, sid, user, now)];
  }

  lemma TaskKeepsLogin(cfg: Config, w: World, st: Step)
    requires LoginInv(cfg, w) && Enabled(w, st) && TaskStep(st)
    ensures LoginInv(cfg, ApplyTask(cfg, w, st))
  {
    hide TaskEvents, NextTask, TaskMemory, LogJustified, Justified, TaskJustified, MemoryJustified;
    var es := TaskEvents(cfg, w.memory.value, st.t, w.tasks[st.t], st);
    EventJustified(cfg, w, st);
    NextJustified(cfg, w, st);
    TaskMemoryJustified(cfg, w, st);
    LogGrows(cfg, w.log, es);
    TasksStay(cfg, w.log, es, w.tasks);
  }

  lemma ServerKeepsLogin(cfg: Config, w: World, st: Step)
    requires LoginInv(cfg, w) && Enabled(w, st) && (st.BeginLogin? || st.Boot?)
    ensures LoginInv(cfg, Apply(cfg, w, st))
  {
    hide LogJustified, TasksJustified, StateUsed, HasCookie;
    var es := if st.BeginLogin? then [Begun(st.state, st.nonce, st.now)] else [Restarted];
    LogGrows(cfg, w.log, es);
    TasksStay(cfg, w.log, es, w.tasks);
    MemoryStays(w.log, es, w.memory);
  }

  lemma SaveKeepsLogin(cfg: Config, w: World, st: Step)
    requires LoginInv(cfg, w) && Enabled(w, st) && (st.FileOp? || st.Assign?)
    ensures LoginInv(cfg, Apply(cfg, w, st))
  {
    hide LogJustified, ThenJustified, StateUsed, HasCookie, Changed, TaskReady, ApplyTask, SavesFirst;
    var owner := w.memory.value.job.value.owner;
    assert TaskJustified(cfg, w.log, owner, w.tasks[owner]);
    NothingJustified(cfg, w.log, owner);
  }

  lemma OtherKeepsLogin(cfg: Config, w: World, st: Step)
    requires LoginInv(cfg, w) && Enabled(w, st) && !TaskStep(st)
    ensures LoginInv(cfg, Apply(cfg, w, st))
  {
    if st.BeginLogin? || st.Boot? {
      hide LoginInv, Apply;
      ServerKeepsLogin(cfg, w, st);
    } else if st.FileOp? || st.Assign? {
      hide LoginInv, Apply;
      SaveKeepsLogin(cfg, w, st);
    } else {
      hide LogJustified, ThenJustified, StateUsed, HasCookie, Changed;
      NothingJustified(cfg, w.log, |w.tasks|);
    }
  }

  lemma NothingJustified(cfg: Config, log: seq<Event>, t: nat)
    ensures ThenJustified(cfg, log, t, Nothing)
  {
  }

  lemma {:induction false} RunKeepsLogin(cfg: Config, w0: World, steps: seq<Step>)
    requires Initial(w0) && Feasible(cfg, w0, steps)
    ensures LoginInv(cfg, Run(cfg, w0, steps))
    decreases |steps|
  {
    if steps != [] {
      hide LoginInv;
      var before, st := steps[..|steps| - 1], steps[|steps| - 1];
      RunKeepsLogin(cfg, w0, before);
      if TaskStep(st) {
        TaskKeepsLogin(cfg, Run(cfg, w0, before), st);
      } else {
        OtherKeepsLogin(cfg, Run(cfg, w0, before), st);
      }
    }
  }

  lemma JustifiedAt(cfg: Config, w0: World, steps: seq<Step>, n: nat)
    requires Initial(w0) && Feasible(cfg, w0, steps) && n < |Run(cfg, w0, steps).log|
    ensures Justified(cfg, Run(cfg, w0, steps).log[..n], Run(cfg, w0, steps).log[n])
  {
    hide Justified, TasksJustified, MemoryJustified;
    RunKeepsLogin(cfg, w0, steps);
  }

  /** Every cookie ever set names the non-empty admin user and follows an id_token of that
      user, carrying the nonce issued with a login state that the same callback used up
      less than 600 seconds after it was begun. */
  lemma CookiesFollowLogins(cfg: Config, w0: World, steps: seq<Step>, n: nat)
    requires Initial(w0) && Feasible(cfg, w0, steps)
    requires n < |Run(cfg, w0, steps).log| && Run(cfg, w0, steps).log[n].CookieSet?
    ensures var log := Run(cfg, w0, steps).log; LoggedIn(cfg, log[..n], log[n].task, log[n].user)
  {
    hide LoggedIn, Run, Feasible;
    JustifiedAt(cfg, w0, steps, n);
  }

  /** Every agent token was shown to a request that carried a cookie set earlier for the
      admin, less than 86400 seconds before the request by the clock that checked it. */
  lemma TokensFollowCookies(cfg: Config, w0: World, steps: seq<Step>, n: nat) returns (a: nat, c: nat)
    requires Initial(w0) && Feasible(cfg, w0, steps)
    requires n < |Run(cfg, w0, steps).log| && Run(cfg, w0, steps).log[n].Issued?
    ensures var log := Run(cfg, w0, steps).log;
            && c < a < n && log[a].Authorized? && log[a].task == log[n].task
            && log[c].CookieSet? && log[c].sid == log[a].sid && log[c].user == log[a].user == cfg.adminUser
            && log[a].now < log[c].now + COOKIE_SECS
  {
    hide StateUsed, Run, Feasible;
    var log := Run(cfg, w0, steps).log;
    JustifiedAt(cfg, w0, steps, n);
    var sid, user, now: int :| Authorized(log[n].task, sid, user, now) in log[..n];
    a :| 0 <= a < n && log[a] == Authorized(log[n].task, sid, user, now);
    JustifiedAt(cfg, w0, steps, a);
    var since: int :| HasCookie(log[..a], sid, user, since) && now < since + COOKIE_SECS;
    var t :| CookieSet(t, sid, user, since) in log[..a];
    c :| 0 <= c < a && log[c] == CookieSet(t, sid, user, since);
    JustifiedAt(cfg, w0, steps, c);
  }
}
