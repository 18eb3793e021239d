/** Login, token issue and binding changes over the durable store, as a state machine in
    which every file operation may fail and the process may stop between any two steps.
    The log survives restarts; memory does not. */
module Admin {
  import opened Wrappers
  import opened Verdict
  import opened Permission
  import opened Sessions
  import opened Store

  const MAX_LABEL_CHARS: nat := 64
  const SLACK_ISSUER: string := "https://slack.com"

  /** The configuration; `hash` is SHA-256 in hexadecimal. */
  datatype Config = Config(adminUser: string, clientId: string, hash: string -> string)

  /** The claims of a well-formed id_token. */
  datatype Claims = Claims(iss: string, aud: string, nonce: string, exp: int, sub: string)

  predicate ClaimsOk(cfg: Config, claims: Claims, nonce: string, now: int) {
    claims.iss == SLACK_ISSUER && claims.aud == cfg.clientId && claims.nonce == nonce && claims.exp > now
  }

  datatype Change =
    | AddUser(user: string)
    | AddToken(record: TokenRecord)
    | AddBinding(chatId: string, binding: Binding)
    | DropBindings(channel: string, user: string)

  function Changed(store: Store, change: Change): Store {
    match change
    case AddUser(user) => if user in store.users then store else store.(users := store.users + [user])
    case AddToken(record) => store.(tokens := store.tokens + [record])
    case AddBinding(chatId, binding) => store.(bindings := store.bindings[chatId := binding])
    case DropBindings(channel, user) => store.(bindings := Unbound(store.bindings, channel, user))
  }

  /** Users and tokens are saved before memory changes, bindings after. */
  predicate SavesFirst(change: Change) { change.AddUser? || change.AddToken? }

  /** What a handler does once its change has been dealt with. */
  datatype Then = SetCookie(user: string, now: int) | ShowToken(token: string) | Nothing

  datatype Task =
    | Callback(state: string)
    | Exchanging(state: string, nonce: string, now: int)
    | Tokens(sid: string, title: string)
    /** About to take the store lock. */
    | Wants(change: Change, next: Then)
    | Saving(change: Change, next: Then)
    | Resumed(next: Then)
    | Finished

  datatype Stage = Opening | Writing | Syncing | Renaming | Renamed

  /** A save in progress, under the store lock. */
  datatype Job = Job(owner: nat, change: Change, next: Store, stage: Stage, before: File)

  /** `saved`: no save has been attempted since the start, or the last one succeeded. */
  datatype Memory = Memory(store: Store, saved: bool, job: Option<Job>,
                           pending: map<string, Login>, cookies: map<string, Cookie>)

  datatype Event =
    | Begun(state: string, nonce: string, now: int)
    /** A state was used up; `valid` if it had not expired. */
    | Consumed(task: nat, state: string, nonce: string, now: int, valid: bool)
    | Verified(task: nat, claims: Claims)
    /** `now` is the clock that the cookie's 86400 seconds start from. */
    | CookieSet(task: nat, sid: string, user: string, now: int)
    | Authorized(task: nat, sid: string, user: string, now: int)
    | Issued(task: nat, token: string)
    | Restarted

  datatype World = World(main: File, tmp: File, memory: Option<Memory>, tasks: seq<Task>, log: seq<Event>)

  predicate Initial(w: World) {
    !w.main.Torn? && w.memory.None? && w.tasks == [] && w.log == []
  }

  datatype Step =
    | Boot
    | Crash
    | BeginLogin(state: string, nonce: string, now: int)
    | Visit(state: string)
    | TakeState(t: nat, now: int)
    | Exchange(t: nat, reply: Option<Claims>)
    | Ask(sid: string, title: string)
    | Authorize(t: nat, now: int, token: string, created: string)
    | ChangeBindings(change: Change)
    | Acquire(t: nat)
    | FileOp(ok: bool)
    | Assign
    | Resume(t: nat, sid: string)

  predicate TaskStep(st: Step) {
    st.TakeState? || st.Exchange? || st.Authorize? || st.Acquire? || st.Resume?
  }

  predicate TaskReady(mem: Memory, task: Task, st: Step)
    requires TaskStep(st)
  {
    match st
    case TakeState(_, _) => task.Callback?
    case Exchange(_, _) => task.Exchanging?
    case Authorize(_, _, _, _) => task.Tokens?
    case Acquire(_) => task.Wants? && mem.job.None?
    case Resume(_, _) => task.Resumed?
  }

  predicate Enabled(w: World, st: Step) {
    if st.Boot? then w.memory.None? && Load(w.main).Some?
    else if w.memory.None? then false
    else if TaskStep(st) then st.t < |w.tasks| && TaskReady(w.memory.value, w.tasks[st.t], st)
    else if st.FileOp? then w.memory.value.job.Some? && !w.memory.value.job.value.stage.Renamed?
                            && w.memory.value.job.value.owner < |w.tasks|
    else if st.Assign? then w.memory.value.job.Some? && w.memory.value.job.value.stage.Renamed?
                            && w.memory.value.job.value.owner < |w.tasks|
    else if st.ChangeBindings? then st.change.AddBinding? || st.change.DropBindings?
    else true
  }

  predicate GoodLabel(title: string) { 1 <= |Trim(title)| <= MAX_LABEL_CHARS }

  function NextTask(cfg: Config, mem: Memory, task: Task, st: Step): Task
    requires TaskStep(st) && TaskReady(mem, task, st)
  {
    match st
    case TakeState(_, now) =>
      var nonce := Taken(mem.pending, task.state, now);
      if nonce.Some? then Exchanging(task.state, nonce.value, now) else Finished
    case Exchange(_, reply) =>
      if reply.None? || !ClaimsOk(cfg, reply.value, task.nonce, task.now)
         || cfg.adminUser == "" || reply.value.sub != cfg.adminUser then Finished
      else Wants(AddUser(reply.value.sub), SetCookie(reply.value.sub, task.now))
    case Authorize(_, now, token, created) =>
      if UserFor(mem.cookies, task.sid, now).None? || !GoodLabel(task.title) then Finished
      else Wants(AddToken(TokenRecord(cfg.hash(token), Trim(task.title), created)), ShowToken(token))
    case Acquire(_) =>
      if SavesFirst(task.change) && Changed(mem.store, task.change) == mem.store then Resumed(task.next)
      else Saving(task.change, task.next)
    case Resume(_, _) => Finished
  }

  function TaskEvents(cfg: Config, mem: Memory, t: nat, task: Task, st: Step): seq<Event>
    requires TaskStep(st) && TaskReady(mem, task, st)
  {
    match st
    case TakeState(_, now) =>
      if task.state in mem.pending
      then [Consumed(t, task.state, mem.pending[task.state].nonce, now, now < mem.pending[task.state].expires)]
      else []
    case Exchange(_, reply) =>
      if reply.None? || !ClaimsOk(cfg, reply.value, task.nonce, task.now)
         || cfg.adminUser == "" || reply.value.sub != cfg.adminUser then []
      else [Verified(t, reply.value)]
    case Authorize(_, now, token, created) =>
      if UserFor(mem.cookies, task.sid, now).None? || !GoodLabel(task.title) then []
      else [Authorized(t, task.sid, UserFor(mem.cookies, task.sid, now).value, now)]
    case Acquire(_) => []
    case Resume(_, sid) =>
      match task.next
      case SetCookie(user, now) => [CookieSet(t, sid, user, now)]
      case ShowToken(token) => [Issued(t, token)]
      case Nothing => []
  }

  function TaskMemory(mem: Memory, main: File, task: Task, st: Step): Memory
    requires TaskStep(st) && TaskReady(mem, task, st)
  {
    match st
    case TakeState(_, _) => mem.(pending := mem.pending - {task.state})
    case Acquire(_) =>
      var next := Changed(mem.store, task.change);
      if SavesFirst(task.change) && next == mem.store then mem
      else
        var job := Job(st.t, task.change, next, Opening, main);
        if SavesFirst(task.change) then mem.(job := Some(job)) else mem.(store := next, job := Some(job))
    case Resume(_, sid) =>
      if task.next.SetCookie?
      then mem.(cookies := mem.cookies[sid := Cookie(task.next.user, task.next.now + COOKIE_SECS)]) else mem
    case _ => mem
  }

  function ApplyTask(cfg: Config, w: World, st: Step): World
    requires Enabled(w, st) && TaskStep(st)
  {
    var mem, task := w.memory.value, w.tasks[st.t];
    World(w.main, w.tmp, Some(TaskMemory(mem, w.main, task, st)), w.tasks[st.t := NextTask(cfg, mem, task, st)],
          w.log + TaskEvents(cfg, mem, st.t, task, st))
  }

  /** One operation of `save`; a failure ends it and frees the lock. */
  function ApplyFileOp(w: World, ok: bool): World
    requires Enabled(w, FileOp(ok))
  {
    var mem := w.memory.value;
    var job := mem.job.value;
    if !ok then
      World(w.main, if job.stage.Writing? then Torn else w.tmp,
            Some(mem.(job := None, saved := false)),
            w.tasks[job.owner := if SavesFirst(job.change) then Finished else Resumed(Nothing)], w.log)
    else match job.stage
      case Opening => w.(tmp := Torn, memory := Some(mem.(job := Some(job.(stage := Writing)))))
      case Writing => w.(tmp := Written(job.next), memory := Some(mem.(job := Some(job.(stage := Syncing)))))
      case Syncing => w.(memory := Some(mem.(job := Some(job.(stage := Renaming)))))
      case Renaming => w.(main := w.tmp, tmp := Absent, memory := Some(mem.(job := Some(job.(stage := Renamed)))))
  }

  /** `save` has returned: memory takes over what was saved and the lock is released. */
  function ApplyAssign(w: World): World
    requires Enabled(w, Assign)
  {
    var mem := w.memory.value;
    var job := mem.job.value;
    var task := w.tasks[job.owner];
    w.(memory := Some(mem.(store := if SavesFirst(job.change) then job.next else mem.store, saved := true, job := None)),
       tasks := w.tasks[job.owner := if task.Saving? then Resumed(task.next) else task])
  }

  function Apply(cfg: Config, w: World, st: Step): World
    requires Enabled(w, st)
  {
    if TaskStep(st) then ApplyTask(cfg, w, st)
    else match st
      case Boot => w.(memory := Some(Memory(Load(w.main).value, true, None, map[], map[])), log := w.log + [Restarted])
      case Crash => w.(memory := None, tasks := seq(|w.tasks|, _ => Finished))
      case BeginLogin(state, nonce, now) =>
        var mem := w.memory.value;
        w.(memory := Some(mem.(pending := mem.pending[state := Login(nonce, now + LOGIN_SECS)])),
           log := w.log + [Begun(state, nonce, now)])
      case Visit(state) => w.(tasks := w.tasks + [Callback(state)])
      case Ask(sid, title) => w.(tasks := w.tasks + [Tokens(sid, title)])
      case ChangeBindings(change) => w.(tasks := w.tasks + [Wants(change, Nothing)])
      case FileOp(ok) => ApplyFileOp(w, ok)
      case Assign => ApplyAssign(w)
  }

  ghost predicate Feasible(cfg: Config, w: World, steps: seq<Step>)
    decreases |steps|, 0
  {
    steps == []
    || (Feasible(cfg, w, steps[..|steps| - 1])
        && Enabled(Run(cfg, w, steps[..|steps| - 1]), steps[|steps| - 1]))
  }

  ghost function Run(cfg: Config, w: World, steps: seq<Step>): World
    requires Feasible(cfg, w, steps)
    decreases |steps|, 1
  {
    if steps == [] then w else Apply(cfg, Run(cfg, w, steps[..|steps| - 1]), steps[|steps| - 1])
  }
}
