/** `hub.rs` and the connection handler of `agent_ws.rs` as objects: the table of connected
    agents and their queues, changed in place. */
module Hub {
  import opened Wrappers
  import opened Text
  import opened Relay

  /** One bounded queue: both halves of `mpsc::channel`. */
  class Channel {
    var queue: seq<RelayMsg>
    /** False once the receiver has been dropped. */
    var open: bool

    constructor ()
      ensures queue == [] && open
    {
      queue, open := [], true;
    }

    predicate Full()
      reads this
    {
      open && |queue| >= QUEUE_SIZE
    }

    /** One poll of a send: nothing while the queue is full, else whether it was taken. */
    method Send(msg: RelayMsg) returns (done: Option<bool>)
      modifies this
      ensures done == if old(Full()) then None else Some(old(open))
      ensures open == old(open)
      ensures queue == if done == Some(true) then old(queue) + [msg] else old(queue)
    {
      if open && |queue| >= QUEUE_SIZE {
        return None;
      }
      if open {
        queue := queue + [msg];
      }
      done := Some(open);
    }
  }

  predicate Ascending(names: seq<string>) {
    forall i, j :: 0 <= i < j < |names| ==> Less(names[i], names[j])
  }

  /** Inserts a name into its place. */
  function Insert(names: seq<string>, n: string): (r: seq<string>)
    ensures |r| == |names| + 1
    ensures forall x :: x in r <==> x in names || x == n
  {
    if names == [] then [n]
    else if Less(n, names[0]) then [n] + names
    else
      var rest := Insert(names[1..], n);
      assert names == [names[0]] + names[1..];
      [names[0]] + rest
  }

  lemma {:induction false} InsertAscending(names: seq<string>, n: string)
    requires Ascending(names) && n !in names
    ensures Ascending(Insert(names, n))
  {
    if names != [] {
      if Less(n, names[0]) {
        forall j | 0 <= j < |names|
          ensures Less(n, names[j])
        {
          if j > 0 {
            LessTransitive(n, names[0], names[j]);
          }
        }
      } else {
        LessTotal(n, names[0]);
        InsertAscending(names[1..], n);
        var rest := Insert(names[1..], n);
        forall j | 0 <= j < |rest|
          ensures Less(names[0], rest[j])
        {
          if rest[j] != n {
            assert rest[j] in names[1..];
          }
        }
      }
    }
  }

  class Hub {
    var agents: map<string, Channel>

    constructor ()
      ensures agents == map[]
    {
      agents := map[];
    }

    /** A name that is connected keeps its connection. */
    method Register(name: string, tx: Channel) returns (ok: bool)
      modifies this
      ensures ok <==> name !in old(agents)
      ensures agents == if ok then old(agents)[name := tx] else old(agents)
    {
      if name in agents {
        return false;
      }
      agents := agents[name := tx];
      ok := true;
    }

    /** The name is free again; every other connection keeps its queue. */
    method Unregister(name: string)
      modifies this
      ensures name !in agents
      ensures forall n :: n != name ==> (n in agents <==> n in old(agents))
      ensures forall n :: n in agents ==> agents[n] == old(agents)[n]
    {
      agents := agents - {name};
    }

    /** Exactly the connected names, sorted ascending. */
    method List() returns (names: seq<string>)
      ensures Ascending(names)
      ensures forall n :: n in names <==> n in agents
    {
      names := [];
      var left := agents.Keys;
      while left != {}
        invariant left <= agents.Keys && Ascending(names)
        invariant forall n :: n in names <==> n in agents && n !in left
        decreases |left|
      {
        var n :| n in left;
        InsertAscending(names, n);
        names := Insert(names, n);
        left := left - {n};
      }
    }

    /** Delivers to the connection that owns the name, or reports that it is offline; no
        other queue is touched. While that queue is full the sender waits (`None`). */
    method Send(name: string, msg: RelayMsg) returns (done: Option<bool>)
      modifies if name in agents then {agents[name]} else {}
      ensures done.None? <==> name in agents && old(agents[name].open && |agents[name].queue| >= 64)
      ensures done == Some(true) ==> name in agents && old(agents[name].open)
      ensures done == Some(false) ==> name !in agents || !old(agents[name].open)
      ensures name in agents ==>
                agents[name].queue == old(agents[name].queue) + (if done == Some(true) then [msg] else [])
      ensures name in agents ==> agents[name].open == old(agents[name].open)
    {
      if name !in agents {
        return Some(false);
      }
      done := agents[name].Send(msg);
    }
  }

  /** What may happen next while `serve` waits. */
  datatype Happening =
    | Arrives(msg: RelayMsg)
    /** A text, binary or control frame of the agent, handled without touching the queue. */
    | FromAgent
    | Closed
    /** The queue is polled and the socket takes the message, or fails. */
    | Forward(sent: bool)

  function Arrivals(script: seq<Happening>): (a: seq<RelayMsg>) {
    if script == [] then []
    else Arrivals(script[..|script| - 1]) + (if script[|script| - 1].Arrives? then [script[|script| - 1].msg] else [])
  }

  lemma ArrivalsNext(script: seq<Happening>, n: nat)
    requires n < |script|
    ensures Arrivals(script[..n + 1]) ==
              Arrivals(script[..n]) + (if script[n].Arrives? then [script[n].msg] else [])
  {
    assert script[..n + 1][..n] == script[..n];
  }

  lemma Forwarded(frames: seq<RelayMsg>, queue: seq<RelayMsg>)
    requires frames != [] && queue != []
    ensures (frames + [queue[0]])[1..] + queue[1..] == frames[1..] + queue
  {
  }

  /** `serve`: sends Welcome, then forwards the queue until the socket closes or fails.
      Returns the frames sent, the messages lost and how far the script was followed. */
  method Serve(rx: Channel, name: string, welcomed: bool, script: seq<Happening>)
    returns (frames: seq<RelayMsg>, lost: seq<RelayMsg>, done: nat)
    requires rx.open
    modifies rx
    ensures !rx.open && rx.queue == [] && done <= |script|
    ensures !welcomed ==> frames == [] && done == 0 && lost == old(rx.queue)
    ensures welcomed ==> frames != [] && frames[0] == Welcome(name)
                         && frames[1..] + lost == old(rx.queue) + Arrivals(script[..done])
    ensures welcomed && done < |script| ==> script[done] == Closed || script[done] == Forward(false)
  {
    frames, lost, done := [], [], 0;
    if welcomed {
      frames := [Welcome(name)];
      assert script[..0] == [];
      assert frames[1..] + rx.queue == rx.queue;
      while done < |script| && script[done] != Closed && !(script[done] == Forward(false) && rx.queue != [])
        invariant done <= |script| && rx.open && frames != [] && frames[0] == Welcome(name)
        invariant frames[1..] + rx.queue == old(rx.queue) + Arrivals(script[..done])
      {
        ArrivalsNext(script, done);
        ghost var total := frames[1..] + rx.queue;
        match script[done] {
          case Arrives(msg) =>
            rx.queue := rx.queue + [msg];
          case Forward(sent) =>
            if rx.queue != [] {
              Forwarded(frames, rx.queue);
              frames := frames + [rx.queue[0]];
              rx.queue := rx.queue[1..];
            }
          case _ =>
        }
        assert frames[1..] + rx.queue == total + (if script[done].Arrives? then [script[done].msg] else []);
        done := done + 1;
      }
    }
    lost := rx.queue;
    rx.queue, rx.open := [], false;
  }

  /** `run`, the life of a connection while no other connects or leaves. It refuses exactly
      what `Refusal` names, and in every case leaves the table as it found it. */
  method Run(hub: Hub, first: FirstFrame, told: bool, welcomed: bool, script: seq<Happening>)
    returns (frames: seq<RelayMsg>, lost: seq<RelayMsg>, done: nat)
    modifies hub
    ensures hub.agents == old(hub.agents) && done <= |script|
    ensures var refusal := Refusal(old(hub.agents.Keys), first);
            && (refusal.Some? ==> frames == (if told then [Error(refusal.value)] else []) && lost == [])
            && (refusal.None? ==> (frames == [] <==> !welcomed) && (welcomed ==> frames[0] == Welcome(first.name)))
            && (refusal.None? ==> (if frames == [] then [] else frames[1..]) + lost == Arrivals(script[..done]))
            && (refusal.None? && welcomed && done < |script| ==> script[done] == Closed || script[done] == Forward(false))
  {
    var tx := new Channel();
    var refused := None;
    if first.Timeout? {
      refused := Some("hello timeout");
    } else if !first.Hello? {
      refused := Some("first frame must be hello");
    } else if first.version != PROTOCOL_VERSION {
      refused := Some("unsupported protocol version: " + Padded(first.version, 0));
    } else if !ValidSessionName(first.name) {
      refused := Some("invalid session name");
    } else {
      var ok := hub.Register(first.name, tx);
      if !ok {
        refused := Some("session name already connected: " + first.name);
      }
    }
    if refused.Some? {
      return if told then [Error(refused.value)] else [], [], 0;
    }
    frames, lost, done := Serve(tx, first.name, welcomed, script);
    hub.Unregister(first.name);
  }
}
