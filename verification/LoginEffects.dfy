/** What a login, a token request and a change of bindings lead to when nothing else steps
    in between and every save succeeds, from any state with the store lock free. */
module LoginEffects {
  import opened Wrappers
  import opened Verdict
  import opened Permission
  import opened Sessions
  import opened Store
  import opened Admin

  lemma Extend(cfg: Config, w: World, steps: seq<Step>, st: Step)
    requires Feasible(cfg, w, steps) && Enabled(Run(cfg, w, steps), st)
    ensures Feasible(cfg, w, steps + [st]) && Run(cfg, w, steps + [st]) == Apply(cfg, Run(cfg, w, steps), st)
  {
    hide Enabled, Apply;
    assert (steps + [st])[..|steps + [st]| - 1] == steps;
  }

  /** The process runs and nobody saves. */
  ghost predicate Idle(w: World) {
    w.memory.Some? && w.memory.value.job.None?
  }

  /** The claims that a login with this nonce must carry. */
  predicate Genuine(cfg: Config, claims: Claims, nonce: string, now: int) {
    && claims.iss == "https://slack.com" && claims.aud == cfg.clientId && claims.nonce == nonce && now < claims.exp
    && claims.sub == cfg.adminUser && |cfg.adminUser| > 0
  }

  lemma TakeStep(cfg: Config, w: World, t: nat, state: string, now: int)
    requires Idle(w) && t < |w.tasks| && w.tasks[t] == Callback(state)
    ensures Enabled(w, TakeState(t, now))
    ensures var (mem, w') := (w.memory.value, Apply(cfg, w, TakeState(t, now)));
            && Idle(w') && w'.main == w.main
            && w'.memory.value.store == mem.store && w'.memory.value.cookies == mem.cookies
            && w'.memory.value.pending == mem.pending - {state}
            && w'.tasks == w.tasks[t := if state in mem.pending && now < mem.pending[state].expires
                                        then Exchanging(state, mem.pending[state].nonce, now) else Finished]
  {
  }

  lemma ExchangeStep(cfg: Config, w: World, t: nat, state: string, nonce: string, now: int, reply: Option<Claims>)
    requires Idle(w) && t < |w.tasks| && w.tasks[t] == Exchanging(state, nonce, now)
    ensures Enabled(w, Exchange(t, reply))
    ensures var w' := Apply(cfg, w, Exchange(t, reply));
            && w'.memory == w.memory && w'.main == w.main
            && w'.tasks == w.tasks[t := if reply.Some? && Genuine(cfg, reply.value, nonce, now)
                                        then Wants(AddUser(cfg.adminUser), SetCookie(cfg.adminUser, now)) else Finished]
  {
  }

  lemma AuthorizeStep(cfg: Config, w: World, t: nat, sid: string, title: string, now: int, token: string, created: string)
    requires Idle(w) && t < |w.tasks| && w.tasks[t] == Tokens(sid, title)
    ensures Enabled(w, Authorize(t, now, token, created))
    ensures var (cookies, w') := (w.memory.value.cookies, Apply(cfg, w, Authorize(t, now, token, created)));
            && w'.memory == w.memory && w'.main == w.main
            && w'.tasks == w.tasks[t := if sid in cookies && now < cookies[sid].expires && 1 <= |Trim(title)| <= 64
                                        then Wants(AddToken(TokenRecord(cfg.hash(token), Trim(title), created)),
                                                   ShowToken(token))
                                        else Finished]
  {
  }

  /** What a change makes of the store, said by its parts. */
  ghost predicate Makes(before: Store, change: Change, after: Store) {
    match change
    case AddUser(user) =>
      && after.users == (if user in before.users then before.users else before.users + [user])
      && after.tokens == before.tokens && after.bindings == before.bindings
    case AddToken(record) =>
      after.users == before.users && after.tokens == before.tokens + [record] && after.bindings == before.bindings
    case AddBinding(chatId, binding) =>
      && after.users == before.users && after.tokens == before.tokens
      && chatId in after.bindings && after.bindings[chatId] == binding
      && (forall k :: k != chatId ==> (k in after.bindings <==> k in before.bindings))
      && (forall k :: k != chatId && k in after.bindings ==> after.bindings[k] == before.bindings[k])
    case DropBindings(channel, user) =>
      && after.users == before.users && after.tokens == before.tokens
      && (forall k :: k in after.bindings <==>
            k in before.bindings && !(channel + ":" <= k && before.bindings[k].user == user))
      && (forall k :: k in after.bindings ==> after.bindings[k] == before.bindings[k])
  }

  lemma ChangeMakes(store: Store, change: Change)
    ensures Makes(store, change, Changed(store, change))
  {
  }

  lemma AcquireStep(cfg: Config, w: World, t: nat, change: Change, next: Then)
    requires Idle(w) && t < |w.tasks| && w.tasks[t] == Wants(change, next)
    ensures Enabled(w, Acquire(t))
    ensures var (mem, w') := (w.memory.value, Apply(cfg, w, Acquire(t)));
            var made := Changed(mem.store, change);
            if (change.AddUser? || change.AddToken?) && made == mem.store
            then w'.memory == w.memory && w'.main == w.main && w'.tasks == w.tasks[t := Resumed(next)]
            else && w'.main == w.main && w'.tasks == w.tasks[t := Saving(change, next)]
                 && w'.memory.Some? && w'.memory.value.job == Some(Job(t, change, made, Opening, w.main))
                 && w'.memory.value.cookies == mem.cookies && w'.memory.value.pending == mem.pending
                 && w'.memory.value.store == if change.AddUser? || change.AddToken? then mem.store else made
  {
    hide Changed;
  }

  /** The save under way is at `stage`. */
  ghost predicate At(w: World, t: nat, change: Change, made: Store, stage: Stage, before: File) {
    w.memory.Some? && w.memory.value.job == Some(Job(t, change, made, stage, before)) && t < |w.tasks|
  }

  /** From the first file operation to the release of the lock. */
  lemma SaveAlone(cfg: Config, w: World, before: seq<Step>, t: nat, change: Change, next: Then, made: Store)
    returns (steps: seq<Step>)
    requires Feasible(cfg, w, before)
    requires var m := Run(cfg, w, before); At(m, t, change, made, Opening, m.main) && m.tasks[t] == Saving(change, next)
    requires var m := Run(cfg, w, before);
             !(change.AddUser? || change.AddToken?) ==> m.memory.value.store == made
    ensures Feasible(cfg, w, steps)
    ensures var (m, w') := (Run(cfg, w, before), Run(cfg, w, steps));
            && Idle(w') && w'.main == Written(made) && w'.memory.value.store == made && w'.memory.value.saved
            && w'.memory.value.cookies == m.memory.value.cookies && w'.memory.value.pending == m.memory.value.pending
            && w'.tasks == m.tasks[t := Resumed(next)] && w'.log == m.log
  {
    hide Feasible, Run, Enabled, Apply, Changed;
    steps := before;
    var m := Run(cfg, w, steps);
    var file := m.main;
    OpenStep(cfg, m, t, change, made, file);
    Extend(cfg, w, steps, FileOp(true));
    steps := steps + [FileOp(true)];
    WriteStep(cfg, Run(cfg, w, steps), t, change, made, file);
    Extend(cfg, w, steps, FileOp(true));
    steps := steps + [FileOp(true)];
    SyncStep(cfg, Run(cfg, w, steps), t, change, made, file);
    Extend(cfg, w, steps, FileOp(true));
    steps := steps + [FileOp(true)];
    RenameStep(cfg, Run(cfg, w, steps), t, change, made, file);
    Extend(cfg, w, steps, FileOp(true));
    steps := steps + [FileOp(true)];
    AssignStep(cfg, Run(cfg, w, steps), t, change, next, made, file);
    Extend(cfg, w, steps, Assign);
    steps := steps + [Assign];
  }

  /** Memory, tasks and log are as before but for the job. */
  ghost predicate SameButJob(w: World, w': World) {
    && w.memory.Some? && w'.memory.Some? && w'.tasks == w.tasks && w'.log == w.log
    && w'.memory.value.(job := None) == w.memory.value.(job := None)
  }

  lemma OpenStep(cfg: Config, w: World, t: nat, change: Change, made: Store, file: File)
    requires At(w, t, change, made, Opening, file)
    ensures Enabled(w, FileOp(true))
    ensures var w' := Apply(cfg, w, FileOp(true));
            SameButJob(w, w') && At(w', t, change, made, Writing, file) && w'.main == w.main && w'.tmp == Torn
  {
  }

  lemma WriteStep(cfg: Config, w: World, t: nat, change: Change, made: Store, file: File)
    requires At(w, t, change, made, Writing, file)
    ensures Enabled(w, FileOp(true))
    ensures var w' := Apply(cfg, w, FileOp(true));
            SameButJob(w, w') && At(w', t, change, made, Syncing, file) && w'.main == w.main && w'.tmp == Written(made)
  {
  }

  lemma SyncStep(cfg: Config, w: World, t: nat, change: Change, made: Store, file: File)
    requires At(w, t, change, made, Syncing, file)
    ensures Enabled(w, FileOp(true))
    ensures var w' := Apply(cfg, w, FileOp(true));
            SameButJob(w, w') && At(w', t, change, made, Renaming, file) && w'.main == w.main && w'.tmp == w.tmp
  {
  }

  lemma RenameStep(cfg: Config, w: World, t: nat, change: Change, made: Store, file: File)
    requires At(w, t, change, made, Renaming, file)
    ensures Enabled(w, FileOp(true))
    ensures var w' := Apply(cfg, w, FileOp(true));
            SameButJob(w, w') && At(w', t, change, made, Renamed, file) && w'.main == w.tmp
  {
  }

  lemma AssignStep(cfg: Config, w: World, t: nat, change: Change, next: Then, made: Store, file: File)
    requires At(w, t, change, made, Renamed, file) && w.tasks[t] == Saving(change, next)
    requires !(change.AddUser? || change.AddToken?) ==> w.memory.value.store == made
    ensures Enabled(w, Assign)
    ensures var w' := Apply(cfg, w, Assign);
            && Idle(w') && w'.main == w.main && w'.memory.value.store == made && w'.memory.value.saved
            && w'.memory.value.cookies == w.memory.value.cookies && w'.memory.value.pending == w.memory.value.pending
            && w'.tasks == w.tasks[t := Resumed(next)] && w'.log == w.log
  {
  }

  /** From the wish for a change to the change in memory and, unless it was there already,
      on file. */
  lemma ChangeAlone(cfg: Config, w: World, before: seq<Step>, t: nat, change: Change, next: Then) returns (steps: seq<Step>)
    requires Feasible(cfg, w, before) && Idle(Run(cfg, w, before)) && t < |Run(cfg, w, before).tasks|
    requires Run(cfg, w, before).tasks[t] == Wants(change, next)
    ensures Feasible(cfg, w, steps)
    ensures var (m, w') := (Run(cfg, w, before), Run(cfg, w, steps));
            && Idle(w') && Makes(m.memory.value.store, change, w'.memory.value.store)
            && (w'.memory.value.store != m.memory.value.store ==> w'.main == Written(w'.memory.value.store))
            && w'.memory.value.cookies == m.memory.value.cookies && w'.memory.value.pending == m.memory.value.pending
            && w'.tasks == m.tasks[t := Resumed(next)]
  {
    hide Feasible, Run, Enabled, Apply, Changed, Makes;
    var m := Run(cfg, w, before);
    var made := Changed(m.memory.value.store, change);
    ChangeMakes(m.memory.value.store, change);
    AcquireStep(cfg, m, t, change, next);
    Extend(cfg, w, before, Acquire(t));
    steps := before + [Acquire(t)];
    if !((change.AddUser? || change.AddToken?) && made == m.memory.value.store) {
      steps := SaveAlone(cfg, w, steps, t, change, next, made);
    }
  }

  lemma ResumeStep(cfg: Config, w: World, t: nat, next: Then, sid: string)
    requires Idle(w) && t < |w.tasks| && w.tasks[t] == Resumed(next)
    ensures Enabled(w, Resume(t, sid))
    ensures var (mem, w') := (w.memory.value, Apply(cfg, w, Resume(t, sid)));
            && Idle(w') && w'.main == w.main && w'.memory.value.store == mem.store
            && w'.memory.value.pending == mem.pending && w'.tasks == w.tasks[t := Finished]
            && w'.memory.value.cookies == (if next.SetCookie?
                                           then mem.cookies[sid := Cookie(next.user, next.now + 86400)] else mem.cookies)
            && (next.SetCookie? ==> w'.log == w.log + [CookieSet(t, sid, next.user, next.now)])
            && (next.ShowToken? ==> w'.log == w.log + [Issued(t, next.token)])
  {
  }

  /** A callback with a state that is pending and not expired, and a genuine id_token of the
      admin for its nonce, signs the admin in: the user is in the store and on file if new,
      and the cookie answers for 86400 seconds. Any other callback changes nothing but that
      the state is used up. */
  lemma LoginAlone(cfg: Config, w: World, t: nat, state: string, now: int, reply: Option<Claims>, sid: string)
    returns (steps: seq<Step>)
    requires Idle(w) && t < |w.tasks| && w.tasks[t] == Callback(state)
    ensures Feasible(cfg, w, steps)
    ensures var (mem, w') := (w.memory.value, Run(cfg, w, steps));
            && Idle(w') && w'.tasks == w.tasks[t := Finished] && state !in w'.memory.value.pending
            && if state in mem.pending && now < mem.pending[state].expires && reply.Some?
                  && Genuine(cfg, reply.value, mem.pending[state].nonce, now)
               then && Makes(mem.store, AddUser(cfg.adminUser), w'.memory.value.store)
                    && (w'.memory.value.store != mem.store ==> w'.main == Written(w'.memory.value.store))
                    && w'.memory.value.cookies == mem.cookies[sid := Cookie(cfg.adminUser, now + 86400)]
               else w'.memory.value.store == mem.store && w'.memory.value.cookies == mem.cookies && w'.main == w.main
  {
    steps := [];
    assert Run(cfg, w, []) == w && Feasible(cfg, w, []);
    hide Feasible, Run, Enabled, Apply, Makes, Genuine, Taken;
    TakeStep(cfg, w, t, state, now);
    Extend(cfg, w, steps, TakeState(t, now));
    steps := steps + [TakeState(t, now)];
    var pending := w.memory.value.pending;
    if state in pending && now < pending[state].expires {
      ExchangeStep(cfg, Run(cfg, w, steps), t, state, pending[state].nonce, now, reply);
      Extend(cfg, w, steps, Exchange(t, reply));
      steps := steps + [Exchange(t, reply)];
      if reply.Some? && Genuine(cfg, reply.value, pending[state].nonce, now) {
        steps := SignIn(cfg, w, steps, t, now, sid);
      }
    }
  }

  lemma SignIn(cfg: Config, w: World, before: seq<Step>, t: nat, now: int, sid: string) returns (steps: seq<Step>)
    requires Feasible(cfg, w, before) && Idle(Run(cfg, w, before)) && t < |Run(cfg, w, before).tasks|
    requires Run(cfg, w, before).tasks[t] == Wants(AddUser(cfg.adminUser), SetCookie(cfg.adminUser, now))
    ensures Feasible(cfg, w, steps)
    ensures var (m, w') := (Run(cfg, w, before), Run(cfg, w, steps));
            && Idle(w') && w'.tasks == m.tasks[t := Finished]
            && Makes(m.memory.value.store, AddUser(cfg.adminUser), w'.memory.value.store)
            && (w'.memory.value.store != m.memory.value.store ==> w'.main == Written(w'.memory.value.store))
            && w'.memory.value.cookies == m.memory.value.cookies[sid := Cookie(cfg.adminUser, now + 86400)]
            && w'.memory.value.pending == m.memory.value.pending
  {
    hide Feasible, Run, Enabled, Apply, Makes;
    var next := SetCookie(cfg.adminUser, now);
    steps := ChangeAlone(cfg, w, before, t, AddUser(cfg.adminUser), next);
    ResumeStep(cfg, Run(cfg, w, steps), t, next, sid);
    Extend(cfg, w, steps, Resume(t, sid));
    steps := steps + [Resume(t, sid)];
  }

  /** A token request with a valid cookie and a label of 1 to 64 characters after trimming
      stores the hash, the trimmed label and the time, on file too, and shows the token; any
      other request changes nothing. */
  lemma TokenAlone(cfg: Config, w: World, t: nat, sid: string, title: string, now: int, token: string, created: string)
    returns (steps: seq<Step>)
    requires Idle(w) && t < |w.tasks| && w.tasks[t] == Tokens(sid, title)
    ensures Feasible(cfg, w, steps)
    ensures var (mem, w') := (w.memory.value, Run(cfg, w, steps));
            && Idle(w') && w'.tasks == w.tasks[t := Finished]
            && w'.memory.value.cookies == mem.cookies && w'.memory.value.pending == mem.pending
            && if sid in mem.cookies && now < mem.cookies[sid].expires && 1 <= |Trim(title)| <= 64
               then && Makes(mem.store, AddToken(TokenRecord(cfg.hash(token), Trim(title), created)), w'.memory.value.store)
                    && w'.main == Written(w'.memory.value.store)
                    && w'.log != [] && w'.log[|w'.log| - 1] == Issued(t, token)
               else w'.memory.value.store == mem.store && w'.main == w.main
  {
    steps := [];
    assert Run(cfg, w, []) == w && Feasible(cfg, w, []);
    hide Feasible, Run, Enabled, Apply, Makes, Trim;
    AuthorizeStep(cfg, w, t, sid, title, now, token, created);
    Extend(cfg, w, steps, Authorize(t, now, token, created));
    steps := steps + [Authorize(t, now, token, created)];
    var cookies := w.memory.value.cookies;
    if sid in cookies && now < cookies[sid].expires && 1 <= |Trim(title)| <= 64 {
      var record := TokenRecord(cfg.hash(token), Trim(title), created);
      steps := ChangeAlone(cfg, w, steps, t, AddToken(record), ShowToken(token));
      TokenIsNew(w.memory.value.store, record, Run(cfg, w, steps).memory.value.store);
      ResumeStep(cfg, Run(cfg, w, steps), t, ShowToken(token), "");
      Extend(cfg, w, steps, Resume(t, ""));
      steps := steps + [Resume(t, "")];
    }
  }

  lemma TokenIsNew(before: Store, record: TokenRecord, after: Store)
    requires Makes(before, AddToken(record), after)
    ensures after != before
  {
    assert |after.tokens| == |before.tokens| + 1;
  }

  /** A start with no state file has an empty store, one with a file has what it holds, and
      a file that does not parse stops the start. */
  lemma BootStep(cfg: Config, w: World)
    requires w.memory.None?
    ensures Enabled(w, Boot) <==> !w.main.Torn?
    ensures w.main.Absent? ==> var store := Apply(cfg, w, Boot).memory.value.store;
                               store.users == [] && store.tokens == [] && store.bindings == map[]
    ensures w.main.Written? ==> Apply(cfg, w, Boot).memory.value.store == w.main.store
    ensures !w.main.Torn? ==> Idle(Apply(cfg, w, Boot)) && Apply(cfg, w, Boot).memory.value.pending == map[]
                              && Apply(cfg, w, Boot).memory.value.cookies == map[]
  {
  }
}
