/** What the state file holds, over every run with failing file operations, crashes and
    restarts. */
module Durability {
  import opened Wrappers
  import opened Permission
  import opened Sessions
  import opened Store
  import opened Admin

  /** The store a restart would load. */
  function OnFile(w: World): (s: Store)
    requires !w.main.Torn?
  {
    Load(w.main).value
  }

  ghost predicate SameCore(a: Store, b: Store) { a.users == b.users && a.tokens == b.tokens }

  /** What is true of a save in progress. */
  ghost predicate JobOk(main: File, tmp: File, mem: Memory, job: Job) {
    && !job.before.Torn?
    && (if job.stage.Renamed? then main == Written(job.next) else main == job.before)
    && (job.stage.Syncing? || job.stage.Renaming? ==> tmp == Written(job.next))
    && SameCore(mem.store, Load(job.before).value)
    && (if SavesFirst(job.change)
        then job.next == Changed(mem.store, job.change) && (mem.saved ==> mem.store == Load(job.before).value)
        else job.next == mem.store)
  }

  ghost predicate FilesMatch(main: File, tmp: File, memory: Option<Memory>) {
    && !main.Torn?
    && (memory.Some? ==>
          var mem := memory.value;
          if mem.job.None? then
            SameCore(mem.store, Load(main).value) && (mem.saved ==> mem.store == Load(main).value)
          else JobOk(main, tmp, mem, mem.job.value))
  }

  /** The lock holder waits for its save. */
  ghost predicate OwnerWaits(w: World) {
    w.memory.Some? && w.memory.value.job.Some? ==>
      var job := w.memory.value.job.value;
      job.owner < |w.tasks| && w.tasks[job.owner].Saving? && w.tasks[job.owner].change == job.change
  }

  ghost predicate FileInv(w: World) { FilesMatch(w.main, w.tmp, w.memory) && OwnerWaits(w) }

  lemma TaskKeepsFile(cfg: Config, w: World, st: Step)
    requires FileInv(w) && Enabled(w, st) && TaskStep(st)
    ensures FileInv(ApplyTask(cfg, w, st))
  {
    hide Unbound, ClaimsOk, GoodLabel, Taken, UserFor;
    if st.Acquire? {
      CoreKept(w.memory.value.store, w.tasks[st.t].change);
    }
  }

  /** A change of bindings leaves users and tokens alone. */
  lemma CoreKept(store: Store, change: Change)
    ensures !SavesFirst(change) ==> SameCore(store, Changed(store, change))
  {
    hide Unbound;
  }

  lemma FileOpKeepsFile(w: World, ok: bool)
    requires FileInv(w) && Enabled(w, FileOp(ok))
    ensures FileInv(ApplyFileOp(w, ok))
  {
    hide Unbound;
    CoreKept(w.memory.value.store, w.memory.value.job.value.change);
  }

  lemma AssignKeepsFile(w: World)
    requires FileInv(w) && Enabled(w, Assign)
    ensures FileInv(ApplyAssign(w))
  {
  }

  lemma StepKeepsFile(cfg: Config, w: World, st: Step)
    requires FileInv(w) && Enabled(w, st)
    ensures FileInv(Apply(cfg, w, st))
  {
    if TaskStep(st) {
      TaskKeepsFile(cfg, w, st);
    } else if st.FileOp? {
      FileOpKeepsFile(w, st.ok);
    } else if st.Assign? {
      AssignKeepsFile(w);
    }
  }

  lemma {:induction false} RunKeepsFile(cfg: Config, w0: World, steps: seq<Step>)
    requires Initial(w0) && Feasible(cfg, w0, steps)
    ensures FileInv(Run(cfg, w0, steps))
    decreases |steps|
  {
    if steps != [] {
      RunKeepsFile(cfg, w0, steps[..|steps| - 1]);
      StepKeepsFile(cfg, Run(cfg, w0, steps[..|steps| - 1]), steps[|steps| - 1]);
    }
  }

  /** Whenever the store lock is free, memory and file hold the same users and tokens;
      and the same bindings too, if no save has been attempted or the last succeeded. */
  lemma LockFreeAgreement(cfg: Config, w0: World, steps: seq<Step>)
    requires Initial(w0) && Feasible(cfg, w0, steps)
    ensures var w := Run(cfg, w0, steps);
            w.memory.Some? && w.memory.value.job.None? ==>
              && !w.main.Torn?
              && w.memory.value.store.users == OnFile(w).users
              && w.memory.value.store.tokens == OnFile(w).tokens
              && (w.memory.value.saved ==> w.memory.value.store.bindings == OnFile(w).bindings)
  {
    RunKeepsFile(cfg, w0, steps);
  }

  /** A crash at any moment leaves a file that loads; in the middle of a save it is
      exactly the store before or exactly the store being saved. */
  lemma CrashLeavesOldOrNew(cfg: Config, w0: World, steps: seq<Step>)
    requires Initial(w0) && Feasible(cfg, w0, steps) && Run(cfg, w0, steps).memory.Some?
    ensures var w := Run(cfg, w0, steps);
            var crashed := Apply(cfg, w, Crash);
            && Enabled(crashed, Boot)
            && var loaded := Apply(cfg, crashed, Boot).memory.value.store;
               match w.memory.value.job
               case None => SameCore(loaded, w.memory.value.store)
               case Some(job) =>
                 !job.before.Torn? && (loaded == Load(job.before).value || loaded == job.next)
                 && (loaded != job.next ==> !job.stage.Renamed?)
                 && (job.stage.Renamed? ==> loaded == job.next)
  {
    RunKeepsFile(cfg, w0, steps);
  }

  // --- tokens ----------------------------------------------------------------------

  ghost predicate Holds(main: File, cfg: Config, token: string) {
    !main.Torn? && TokenOk(Load(main).value, cfg.hash, token)
  }

  ghost predicate TokenTaskOk(main: File, cfg: Config, task: Task) {
    match task
    case Wants(change, next) => TokenChange(cfg, change, next)
    case Saving(change, next) => TokenChange(cfg, change, next)
    case Resumed(next) => next.ShowToken? ==> Holds(main, cfg, next.token)
    case _ => true
  }

  ghost predicate TokenChange(cfg: Config, change: Change, next: Then) {
    next.ShowToken? ==> change.AddToken? && change.record.sha256 == cfg.hash(next.token)
  }

  ghost predicate TokenInv(cfg: Config, w: World) {
    && (forall t :: 0 <= t < |w.tasks| ==> TokenTaskOk(w.main, cfg, w.tasks[t]))
    && (forall t, token :: Issued(t, token) in w.log ==> Holds(w.main, cfg, token))
  }

  lemma AddedTokenHeld(store: Store, record: TokenRecord, hash: string -> string, token: string)
    requires record.sha256 == hash(token)
    ensures TokenOk(Changed(store, AddToken(record)), hash, token)
    ensures Changed(store, AddToken(record)) != store
  {
    var s := Changed(store, AddToken(record));
    assert s.tokens[|store.tokens|].sha256 == hash(token);
    assert |s.tokens| != |store.tokens|;
  }

  lemma TokenKept(store: Store, change: Change, hash: string -> string, token: string)
    requires TokenOk(store, hash, token)
    ensures TokenOk(Changed(store, change), hash, token)
  {
    hide Unbound;
    var i :| 0 <= i < |store.tokens| && store.tokens[i].sha256 == hash(token);
    assert Changed(store, change).tokens[i] == store.tokens[i];
  }

  lemma TaskKeepsTokens(cfg: Config, w: World, st: Step)
    requires FileInv(w) && TokenInv(cfg, w) && Enabled(w, st) && TaskStep(st)
    ensures TokenInv(cfg, ApplyTask(cfg, w, st))
  {
    hide FileInv, Unbound, ClaimsOk, GoodLabel, Taken, UserFor, TokenOk;
    var task := w.tasks[st.t];
    assert TokenTaskOk(w.main, cfg, task);
    if st.Acquire? && task.change.AddToken? && task.next.ShowToken? {
      AddedTokenHeld(w.memory.value.store, task.change.record, cfg.hash, task.next.token);
    }
  }

  /** The rename only ever adds to what the file holds. */
  lemma RenameKeepsTokens(cfg: Config, w: World, token: string)
    requires FileInv(w) && Enabled(w, FileOp(true)) && w.memory.value.job.value.stage.Renaming?
    requires Holds(w.main, cfg, token)
    ensures Holds(ApplyFileOp(w, true).main, cfg, token)
  {
    var mem := w.memory.value;
    var job := mem.job.value;
    assert mem.store.tokens == Load(w.main).value.tokens;
    assert TokenOk(mem.store, cfg.hash, token);
    if SavesFirst(job.change) {
      TokenKept(mem.store, job.change, cfg.hash, token);
    }
  }

  lemma FileOpKeepsTokens(cfg: Config, w: World, ok: bool)
    requires FileInv(w) && TokenInv(cfg, w) && Enabled(w, FileOp(ok))
    ensures TokenInv(cfg, ApplyFileOp(w, ok))
  {
    var w' := ApplyFileOp(w, ok);
    forall token | Holds(w.main, cfg, token)
      ensures Holds(w'.main, cfg, token)
    {
      if ok && w.memory.value.job.value.stage.Renaming? {
        RenameKeepsTokens(cfg, w, token);
      }
    }
    hide FileInv, Holds;
  }

  lemma AssignKeepsTokens(cfg: Config, w: World)
    requires FileInv(w) && TokenInv(cfg, w) && Enabled(w, Assign)
    ensures TokenInv(cfg, ApplyAssign(w))
  {
    var mem := w.memory.value;
    var job := mem.job.value;
    var task := w.tasks[job.owner];
    assert TokenTaskOk(w.main, cfg, task);
    if task.next.ShowToken? {
      AddedTokenHeld(mem.store, job.change.record, cfg.hash, task.next.token);
    }
  }

  lemma OtherKeepsTokens(cfg: Config, w: World, st: Step)
    requires TokenInv(cfg, w) && Enabled(w, st) && !TaskStep(st) && !st.FileOp? && !st.Assign?
    ensures TokenInv(cfg, Apply(cfg, w, st))
  {
    hide Holds, Unbound;
  }

  lemma {:induction false} RunKeepsTokens(cfg: Config, w0: World, steps: seq<Step>)
    requires Initial(w0) && Feasible(cfg, w0, steps)
    ensures TokenInv(cfg, Run(cfg, w0, steps))
    decreases |steps|
  {
    hide TokenInv, FileInv;
    if steps == [] {
      NoTokensYet(cfg, w0);
    } else {
      var before, st := steps[..|steps| - 1], steps[|steps| - 1];
      RunKeepsTokens(cfg, w0, before);
      RunKeepsFile(cfg, w0, before);
      var w := Run(cfg, w0, before);
      if TaskStep(st) {
        TaskKeepsTokens(cfg, w, st);
      } else if st.FileOp? {
        FileOpKeepsTokens(cfg, w, st.ok);
      } else if st.Assign? {
        AssignKeepsTokens(cfg, w);
      } else {
        OtherKeepsTokens(cfg, w, st);
      }
    }
  }

  lemma NoTokensYet(cfg: Config, w0: World)
    requires Initial(w0)
    ensures TokenInv(cfg, w0)
  {
  }

  /** Every token shown by a successful request is on file ever after: whatever fails,
      crashes or restarts later, the store that a restart loads accepts it. */
  lemma IssuedTokensSurvive(cfg: Config, w0: World, steps: seq<Step>, t: nat, token: string)
    requires Initial(w0) && Feasible(cfg, w0, steps) && Issued(t, token) in Run(cfg, w0, steps).log
    ensures var w := Run(cfg, w0, steps); Load(w.main).Some? && TokenOk(Load(w.main).value, cfg.hash, token)
  {
    RunKeepsTokens(cfg, w0, steps);
  }

  // --- users -----------------------------------------------------------------------

  /** The users of the original file, and possibly the admin after them. */
  predicate UsersGrew(cfg: Config, users0: seq<string>, users: seq<string>) {
    users == users0
    || (cfg.adminUser != "" && cfg.adminUser !in users0 && users == users0 + [cfg.adminUser])
  }

  ghost predicate UserTaskOk(cfg: Config, task: Task) {
    task.Wants? || task.Saving? ==>
      (task.change.AddUser? ==> cfg.adminUser != "" && task.change.user == cfg.adminUser)
  }

  ghost predicate UserInv(cfg: Config, users0: seq<string>, w: World) {
    && !w.main.Torn? && UsersGrew(cfg, users0, Load(w.main).value.users)
    && (forall t :: 0 <= t < |w.tasks| ==> UserTaskOk(cfg, w.tasks[t]))
  }

  lemma ChangeKeepsUsers(cfg: Config, users0: seq<string>, store: Store, change: Change)
    requires UsersGrew(cfg, users0, store.users)
    requires change.AddUser? ==> cfg.adminUser != "" && change.user == cfg.adminUser
    ensures UsersGrew(cfg, users0, Changed(store, change).users)
  {
    hide Unbound;
  }

  lemma StepKeepsUsers(cfg: Config, users0: seq<string>, w: World, st: Step)
    requires FileInv(w) && UserInv(cfg, users0, w) && Enabled(w, st)
    ensures UserInv(cfg, users0, Apply(cfg, w, st))
  {
    hide UsersGrew, Unbound, ClaimsOk, GoodLabel, Taken, UserFor;
    if st.FileOp? && st.ok && w.memory.value.job.value.stage.Renaming? {
      var mem := w.memory.value;
      var job := mem.job.value;
      assert UserTaskOk(cfg, w.tasks[job.owner]);
      ChangeKeepsUsers(cfg, users0, mem.store, job.change);
    }
  }

  lemma {:induction false} RunKeepsUsers(cfg: Config, w0: World, steps: seq<Step>)
    requires Initial(w0) && Feasible(cfg, w0, steps)
    ensures UserInv(cfg, Load(w0.main).value.users, Run(cfg, w0, steps))
    decreases |steps|
  {
    if steps != [] {
      var before := steps[..|steps| - 1];
      RunKeepsUsers(cfg, w0, before);
      RunKeepsFile(cfg, w0, before);
      StepKeepsUsers(cfg, Load(w0.main).value.users, Run(cfg, w0, before), steps[|steps| - 1]);
    }
  }

  /** The user list is what the file held at the start, plus at most the admin, once. */
  lemma UsersGrowByAdmin(cfg: Config, w0: World, steps: seq<Step>)
    requires Initial(w0) && Feasible(cfg, w0, steps)
    ensures var w := Run(cfg, w0, steps);
            && !w.main.Torn? && UsersGrew(cfg, Load(w0.main).value.users, Load(w.main).value.users)
            && (w.memory.Some? && w.memory.value.job.None? ==>
                  UsersGrew(cfg, Load(w0.main).value.users, w.memory.value.store.users))
  {
    hide UsersGrew;
    RunKeepsUsers(cfg, w0, steps);
    RunKeepsFile(cfg, w0, steps);
  }
}
