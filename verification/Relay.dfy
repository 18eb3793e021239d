/** The relay as a state machine: Slack event tasks, `/cc` commands and agent
    connections that interleave. One step is the work a handler does between two
    points where another may run: one acquisition of a lock, one socket operation or
    one Slack call. The log records what happened, in order. */
module Relay {
  import opened Wrappers
  import opened Text
  import opened Verdict
  import opened Permission
  import Chunk
  import Dedupe

  const DEDUPE_CAPACITY: nat := 1000
  const QUEUE_SIZE: nat := 64
  const PROTOCOL_VERSION: int := 1

  datatype RelayMsg =
    | Welcome(name: string)
    | Inbound(chatId: string, user: string, text: string)
    | PermissionVerdict(requestId: string, behavior: Behavior)
    | Error(message: string)

  /** Where a Slack handler stands. */
  datatype Task =
    | Delivered(eventId: string, candidate: Option<Candidate>)
    | Fresh(eventId: string, c: Candidate)
    | Bound(eventId: string, c: Candidate, binding: Binding)
    /** A verdict matched; the entry is still in the table. */
    | Answered(eventId: string, c: Candidate, binding: Binding, requestId: string, behavior: Behavior)
    /** About to look the session up in the hub. */
    | Forwarding(eventId: string, c: Candidate, session: string, msg: RelayMsg)
    /** Holds a clone of the sender of connection `conn`. */
    | Enqueuing(eventId: string, c: Candidate, session: string, msg: RelayMsg, conn: nat)
    | Noticing(c: Candidate, session: string)
    | Selecting(session: string, channel: string, user: string)
    | Rooting(session: string, channel: string, user: string)
    | Rooted(session: string, channel: string, user: string, ts: string)
    | Commanding(channel: string, user: string)
    | Unbinding(channel: string, user: string)
    | Finished

  /** Where an agent connection stands. */
  datatype Phase =
    | Greeting
    | Rejecting(message: string)
    | Refused
    /** Registered in the hub; Welcome not sent yet. */
    | Admitted
    | Serving
    /** A message was taken off the queue and is being written to the socket. */
    | Sending(msg: RelayMsg)
    /** Inside `handle_request`, posting the rest of the prompt. */
    | Prompting(requestId: string, rest: seq<string>)
    | Withdrawing(requestId: string)
    /** Inside `post_reply`. */
    | Replying(rest: seq<string>)
    /** `serve` has returned and dropped the queue; still in the hub. */
    | Left
    | Gone

  datatype Conn = Conn(name: string, phase: Phase, queue: seq<RelayMsg>, lost: seq<RelayMsg>)

  datatype FirstFrame = Timeout | Other | Hello(version: int, name: string)

  datatype Event =
    | EAccepted(task: nat, eventId: string)
    | ELooked(task: nat, c: Candidate, binding: Binding)
    | EMatched(task: nat, c: Candidate, binding: Binding, requestId: string, behavior: Behavior, now: int)
    | ERemoved(requestId: string, task: nat)
    | EWithdrawn(requestId: string, conn: nat)
    /** Slack refused a piece of the prompt. */
    | ERefused(requestId: string, conn: nat)
    | EInserted(conn: nat, session: string, requestId: string, chatId: string, created: int)
    | EQueued(task: nat, eventId: string, conn: nat, session: string, msg: RelayMsg)
    | EOffline(task: nat, eventId: string, msg: RelayMsg)
    | EBound(chatId: string, binding: Binding)
    | EUnbound(channel: string, user: string)
    | EAdmitted(user: string)
    | ERegistered(conn: nat, name: string)
    | EUnregistered(conn: nat, name: string)
    | EFrame(conn: nat, msg: RelayMsg)

  datatype State = State(
    order: seq<string>, users: seq<string>, bindings: map<string, Binding>,
    pending: map<string, Pending>, hub: map<string, nat>,
    tasks: seq<Task>, conns: seq<Conn>, log: seq<Event>)

  predicate Initial(s: State) {
    s.order == [] && s.pending == map[] && s.hub == map[] && s.tasks == [] && s.conns == [] && s.log == []
  }

  datatype Step =
    // Slack handlers
    | Deliver(eventId: string, candidate: Option<Candidate>)
    | FirstSeen(t: nat)
    | Lookup(t: nat)
    | Match(t: nat, now: int)
    | Forget(t: nat)
    | FindSender(t: nat)
    | Enqueue(t: nat)
    | Notice(t: nat)
    | Select(session: string, channel: string, user: string)
    | Command(channel: string, user: string)
    | CheckUser(t: nat)
    | PostRoot(t: nat, ts: Option<string>)
    | Bind(t: nat, now: int)
    | Unbind(t: nat)
    | Admit(user: string)
    // agent connections
    | Connect
    | Handshake(k: nat, first: FirstFrame)
    | Reject(k: nat, sent: bool)
    | SendWelcome(k: nat, sent: bool)
    | Take(k: nat)
    | Send(k: nat, sent: bool)
    | Request(k: nat, requestId: string, toolName: string, description: string, inputPreview: string,
              now: int, chat: Option<string>)
    | PostPrompt(k: nat, posted: bool)
    | Withdraw(k: nat)
    | Reply(k: nat, chatId: string, text: string)
    | PostPiece(k: nat, posted: bool)
    | Hangup(k: nat)
    | Unregister(k: nat)

  predicate IsControl(c: char) { c as int < 32 || 127 <= c as int < 160 }

  predicate ValidSessionName(name: string) {
    1 <= |name| <= 150 && forall i :: 0 <= i < |name| ==> !IsControl(name[i])
  }

  /** The receiver half of the queue exists. */
  predicate Receiving(p: Phase) {
    p.Admitted? || p.Serving? || p.Sending? || p.Prompting? || p.Withdrawing? || p.Replying?
  }

  /** Past `register`, not yet past `unregister`. */
  predicate InHub(p: Phase) { Receiving(p) || p.Left? }

  predicate TaskStep(st: Step) {
    st.FirstSeen? || st.Lookup? || st.Match? || st.Forget? || st.FindSender? || st.Enqueue? || st.Notice?
    || st.CheckUser? || st.PostRoot? || st.Bind? || st.Unbind?
  }

  predicate ConnStep(st: Step) {
    st.Handshake? || st.Reject? || st.SendWelcome? || st.Take? || st.Send? || st.Request? || st.PostPrompt?
    || st.Withdraw? || st.Reply? || st.PostPiece? || st.Hangup? || st.Unregister?
  }

  predicate TaskReady(s: State, task: Task, st: Step)
    requires TaskStep(st)
  {
    match st
    case FirstSeen(_) => task.Delivered?
    case Lookup(_) => task.Fresh?
    case Match(_, _) => task.Bound?
    case Forget(_) => task.Answered?
    case FindSender(_) => task.Forwarding?
    // a full queue makes the sender wait; a dropped one fails at once
    case Enqueue(_) => task.Enqueuing? && task.conn < |s.conns|
                       && (Receiving(s.conns[task.conn].phase) ==> |s.conns[task.conn].queue| < QUEUE_SIZE)
    case Notice(_) => task.Noticing?
    case CheckUser(_) => task.Selecting? || task.Commanding?
    case PostRoot(_, _) => task.Rooting?
    case Bind(_, _) => task.Rooted?
    case Unbind(_) => task.Unbinding?
  }

  ghost predicate ConnReady(s: State, conn: Conn, st: Step)
    requires ConnStep(st)
  {
    match st
    case Handshake(_, _) => conn.phase.Greeting?
    case Reject(_, _) => conn.phase.Rejecting?
    case SendWelcome(_, _) => conn.phase.Admitted?
    case Take(_) => conn.phase.Serving? && conn.queue != []
    case Send(_, _) => conn.phase.Sending?
    case Request(_, _, _, _, _, _, chat) => conn.phase.Serving? && LatestIs(s.bindings, conn.name, chat)
    case PostPrompt(_, _) => conn.phase.Prompting?
    case Withdraw(_) => conn.phase.Withdrawing?
    case Reply(_, _, _) => conn.phase.Serving?
    case PostPiece(_, _) => conn.phase.Replying?
    case Hangup(_) => conn.phase.Serving?
    case Unregister(_) => conn.phase.Left?
  }

  ghost predicate Enabled(s: State, st: Step) {
    if TaskStep(st) then st.t < |s.tasks| && TaskReady(s, s.tasks[st.t], st)
    else if ConnStep(st) then st.k < |s.conns| && ConnReady(s, s.conns[st.k], st)
    else true
  }

  /** The handler's next position. */
  function NextTask(s: State, task: Task, st: Step): Task
    requires TaskStep(st) && TaskReady(s, task, st)
  {
    match st
    case FirstSeen(_) =>
      if !Dedupe.Next(s.order, DEDUPE_CAPACITY, task.eventId).1 || task.candidate.None? then Finished
      else Fresh(task.eventId, task.candidate.value)
    case Lookup(_) =>
      if task.c.user in s.users && task.c.chatId in s.bindings
      then Bound(task.eventId, task.c, s.bindings[task.c.chatId]) else Finished
    case Match(_, now) =>
      var v := MatchVerdict(Sweep(s.pending, now), task.c, task.binding);
      if v.Some? then Answered(task.eventId, task.c, task.binding, v.value.0, v.value.1)
      else Forwarding(task.eventId, task.c, task.binding.session, Inbound(task.c.chatId, task.c.user, task.c.text))
    case Forget(_) =>
      Forwarding(task.eventId, task.c, task.binding.session, PermissionVerdict(task.requestId, task.behavior))
    case FindSender(_) =>
      if task.session in s.hub
      then Enqueuing(task.eventId, task.c, task.session, task.msg, s.hub[task.session])
      else Noticing(task.c, task.session)
    case Enqueue(_) =>
      if Receiving(s.conns[task.conn].phase) then Finished else Noticing(task.c, task.session)
    case Notice(_) => Finished
    case CheckUser(_) =>
      if task.user !in s.users then Finished
      else if task.Selecting? then Rooting(task.session, task.channel, task.user)
      else Unbinding(task.channel, task.user)
    case PostRoot(_, ts) =>
      if ts.Some? then Rooted(task.session, task.channel, task.user, ts.value) else Finished
    case Bind(_, _) => Finished
    case Unbind(_) => Finished
  }

  /** What the step writes in the log. */
  function TaskEvents(s: State, t: nat, task: Task, st: Step): seq<Event>
    requires TaskStep(st) && TaskReady(s, task, st)
  {
    match st
    case FirstSeen(_) =>
      if Dedupe.Next(s.order, DEDUPE_CAPACITY, task.eventId).1 then [EAccepted(t, task.eventId)] else []
    case Lookup(_) =>
      if task.c.user in s.users && task.c.chatId in s.bindings
      then [ELooked(t, task.c, s.bindings[task.c.chatId])] else []
    case Match(_, now) =>
      var v := MatchVerdict(Sweep(s.pending, now), task.c, task.binding);
      if v.Some? then [EMatched(t, task.c, task.binding, v.value.0, v.value.1, now)] else []
    case Forget(_) => [ERemoved(task.requestId, t)]
    case FindSender(_) => if task.session in s.hub then [] else [EOffline(t, task.eventId, task.msg)]
    case Enqueue(_) =>
      if Receiving(s.conns[task.conn].phase)
      then [EQueued(t, task.eventId, task.conn, task.session, task.msg)]
      else [EOffline(t, task.eventId, task.msg)]
    case Bind(_, now) => [EBound(ChatId(task.channel, task.ts), Binding(task.session, task.user, now))]
    case Unbind(_) => [EUnbound(task.channel, task.user)]
    case _ => []
  }

  function TaskOrder(s: State, task: Task, st: Step): seq<string>
    requires TaskStep(st) && TaskReady(s, task, st)
  {
    if st.FirstSeen? then Dedupe.Next(s.order, DEDUPE_CAPACITY, task.eventId).0 else s.order
  }

  function TaskPending(s: State, task: Task, st: Step): map<string, Pending>
    requires TaskStep(st) && TaskReady(s, task, st)
  {
    if st.Match? then Sweep(s.pending, st.now)
    else if st.Forget? then s.pending - {task.requestId}
    else s.pending
  }

  function TaskBindings(s: State, task: Task, st: Step): map<string, Binding>
    requires TaskStep(st) && TaskReady(s, task, st)
  {
    if st.Bind? then s.bindings[ChatId(task.channel, task.ts) := Binding(task.session, task.user, st.now)]
    else if st.Unbind? then Unbound(s.bindings, task.channel, task.user)
    else s.bindings
  }

  function TaskConns(s: State, task: Task, st: Step): seq<Conn>
    requires TaskStep(st) && TaskReady(s, task, st)
  {
    if st.Enqueue? && Receiving(s.conns[task.conn].phase)
    then s.conns[task.conn := s.conns[task.conn].(queue := s.conns[task.conn].queue + [task.msg])]
    else s.conns
  }

  function ApplyTask(s: State, st: Step): State
    requires TaskStep(st) && Enabled(s, st)
  {
    var task := s.tasks[st.t];
    State(TaskOrder(s, task, st), s.users, TaskBindings(s, task, st), TaskPending(s, task, st), s.hub,
          s.tasks[st.t := NextTask(s, task, st)], TaskConns(s, task, st), s.log + TaskEvents(s, st.t, task, st))
  }

  /** What the connection is told when its first frame is not acceptable. */
  function Refusal(names: set<string>, first: FirstFrame): Option<string> {
    match first
    case Timeout => Some("hello timeout")
    case Other => Some("first frame must be hello")
    case Hello(version, name) =>
      if version != PROTOCOL_VERSION then Some("unsupported protocol version: " + Padded(version, 0))
      else if !ValidSessionName(name) then Some("invalid session name")
      else if name in names then Some("session name already connected: " + name)
      else None
  }

  /** `serve` returns: everything still queued is lost with the receiver. */
  function Leave(conn: Conn, inFlight: seq<RelayMsg>): Conn {
    conn.(phase := Left, queue := [], lost := inFlight + conn.queue)
  }

  ghost function NextConn(s: State, conn: Conn, st: Step): Conn
    requires ConnStep(st) && ConnReady(s, conn, st)
  {
    match st
    case Handshake(_, first) =>
      var refusal := Refusal(s.hub.Keys, first);
      if refusal.Some? then conn.(phase := Rejecting(refusal.value))
      else conn.(name := first.name, phase := Admitted)
    case Reject(_, _) => conn.(phase := Refused)
    case SendWelcome(_, sent) => if sent then conn.(phase := Serving) else Leave(conn, [])
    case Take(_) => conn.(phase := Sending(conn.queue[0]), queue := conn.queue[1..])
    case Send(_, sent) => if sent then conn.(phase := Serving) else Leave(conn, [conn.phase.msg])
    case Request(_, id, tool, description, preview, _, chat) =>
      if chat.None? then conn
      else if SplitOnce(chat.value, ':').None? then conn.(phase := Withdrawing(id))
      else conn.(phase := Prompting(id, Chunk.Pieces(PromptText(tool, description, preview, id), Chunk.CHUNK_CHARS)))
    case PostPrompt(_, posted) =>
      if !posted then conn.(phase := Withdrawing(conn.phase.requestId))
      else if |conn.phase.rest| <= 1 then conn.(phase := Serving)
      else conn.(phase := Prompting(conn.phase.requestId, conn.phase.rest[1..]))
    case Withdraw(_) => conn.(phase := Serving)
    case Reply(_, chatId, text) =>
      if Chunk.Destination(chatId).None? || text == "" then conn
      else conn.(phase := Replying(Chunk.Pieces(text, Chunk.CHUNK_CHARS)))
    case PostPiece(_, posted) =>
      if !posted || |conn.phase.rest| <= 1 then conn.(phase := Serving)
      else conn.(phase := Replying(conn.phase.rest[1..]))
    case Hangup(_) => Leave(conn, [])
    case Unregister(_) => conn.(phase := Gone)
  }

  ghost function ConnEvents(s: State, k: nat, conn: Conn, st: Step): seq<Event>
    requires ConnStep(st) && ConnReady(s, conn, st)
  {
    match st
    case Handshake(_, first) => if Refusal(s.hub.Keys, first).None? then [ERegistered(k, first.name)] else []
    case Reject(_, sent) => if sent then [EFrame(k, Error(conn.phase.message))] else []
    case SendWelcome(_, sent) => if sent then [EFrame(k, Welcome(conn.name))] else []
    case Send(_, sent) => if sent then [EFrame(k, conn.phase.msg)] else []
    case Request(_, id, _, _, _, now, chat) =>
      if chat.Some? then [EInserted(k, conn.name, id, chat.value, now)] else []
    case PostPrompt(_, posted) => if posted then [] else [ERefused(conn.phase.requestId, k)]
    case Withdraw(_) => [EWithdrawn(conn.phase.requestId, k)]
    case Unregister(_) => [EUnregistered(k, conn.name)]
    case _ => []
  }

  ghost function ConnPending(s: State, conn: Conn, st: Step): map<string, Pending>
    requires ConnStep(st) && ConnReady(s, conn, st)
  {
    if st.Request? then
      var swept := Sweep(s.pending, st.now);
      if st.chat.None? then swept
      else swept[st.requestId := Pending(st.chat.value, conn.name, st.now)]
    else if st.Withdraw? then s.pending - {conn.phase.requestId}
    else s.pending
  }

  /** `register` inserts only a name that is absent; `unregister` removes by name. */
  ghost function ConnHub(s: State, k: nat, conn: Conn, st: Step): map<string, nat>
    requires ConnStep(st) && ConnReady(s, conn, st)
  {
    if st.Handshake? && Refusal(s.hub.Keys, st.first).None? then s.hub[st.first.name := k]
    else if st.Unregister? then s.hub - {conn.name}
    else s.hub
  }

  ghost function ApplyConn(s: State, st: Step): State
    requires ConnStep(st) && Enabled(s, st)
  {
    var conn := s.conns[st.k];
    State(s.order, s.users, s.bindings, ConnPending(s, conn, st), ConnHub(s, st.k, conn, st), s.tasks,
          s.conns[st.k := NextConn(s, conn, st)], s.log + ConnEvents(s, st.k, conn, st))
  }

  ghost function Apply(s: State, st: Step): State
    requires Enabled(s, st)
  {
    if TaskStep(st) then ApplyTask(s, st)
    else if ConnStep(st) then ApplyConn(s, st)
    else match st
      case Deliver(eventId, candidate) => s.(tasks := s.tasks + [Delivered(eventId, candidate)])
      case Select(session, channel, user) => s.(tasks := s.tasks + [Selecting(session, channel, user)])
      case Command(channel, user) => s.(tasks := s.tasks + [Commanding(channel, user)])
      case Connect => s.(conns := s.conns + [Conn("", Greeting, [], [])])
      case Admit(user) =>
        if user in s.users then s
        else s.(users := s.users + [user], log := s.log + [EAdmitted(user)])
  }

  /** `steps` can be taken one after the other from `s`. */
  ghost predicate Feasible(s: State, steps: seq<Step>)
    decreases |steps|, 0
  {
    steps == []
    || (Feasible(s, steps[..|steps| - 1])
        && Enabled(Run(s, steps[..|steps| - 1]), steps[|steps| - 1]))
  }

  ghost function Run(s: State, steps: seq<Step>): State
    requires Feasible(s, steps)
    decreases |steps|, 1
  {
    if steps == [] then s else Apply(Run(s, steps[..|steps| - 1]), steps[|steps| - 1])
  }
}
