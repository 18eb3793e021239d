/** The pending table and the choice of thread in `permission.rs`, and the bindings
    that `routes/slack.rs` changes in place. */
module Permission {
  import opened Wrappers
  import opened Text
  import opened Verdict
  import Chunk

  const PENDING_TTL_SECS: int := 1800

  datatype Pending = Pending(chatId: string, session: string, created: int)

  datatype Binding = Binding(session: string, user: string, created: int)

  datatype Candidate = Candidate(chatId: string, channel: string, threadTs: string, user: string, text: string)

  function Sweep(pending: map<string, Pending>, now: int): (r: map<string, Pending>) {
    map id | id in pending && now - pending[id].created <= PENDING_TTL_SECS :: pending[id]
  }

  /** The order of `max_by`: by creation time, then by chat id. */
  predicate Earlier(k: string, b: Binding, l: string, c: Binding) {
    b.created < c.created || (b.created == c.created && Less(k, l))
  }

  /** `filter(..).max_by(..)` over the entries in the order they are listed. */
  function LatestIn(items: seq<(string, Binding)>, session: string): (r: Option<(string, Binding)>) {
    if items == [] then None
    else
      var best, item := LatestIn(items[..|items| - 1], session), items[|items| - 1];
      if item.1.session != session then best
      else if best.Some? && Earlier(item.0, item.1, best.value.0, best.value.1) then best
      else Some(item)
  }

  /** `chat` is bound to `session`, and every other such binding was created before, or at
      the same time under a smaller chat id. */
  ghost predicate IsLatest(bindings: map<string, Binding>, session: string, chat: string) {
    && chat in bindings && bindings[chat].session == session
    && forall k :: k in bindings && bindings[k].session == session && k != chat ==>
                     || bindings[k].created < bindings[chat].created
                     || (bindings[k].created == bindings[chat].created && Less(k, chat))
  }

  ghost predicate LatestIs(bindings: map<string, Binding>, session: string, chat: Option<string>) {
    if chat.None? then forall k :: k in bindings ==> bindings[k].session != session
    else IsLatest(bindings, session, chat.value)
  }

  ghost predicate Agrees(items: seq<(string, Binding)>, bindings: map<string, Binding>) {
    forall i :: 0 <= i < |items| ==> items[i].0 in bindings && bindings[items[i].0] == items[i].1
  }

  /** `items` lists the entries of the map, in any order. */
  ghost predicate Lists(items: seq<(string, Binding)>, bindings: map<string, Binding>) {
    && Agrees(items, bindings)
    && (forall k :: k in bindings ==> exists i :: 0 <= i < |items| && items[i].0 == k)
  }

  lemma EarlierTotal(k: string, b: Binding, l: string, c: Binding)
    ensures Earlier(k, b, l, c) || Earlier(l, c, k, b) || k == l
  {
    LessTotal(k, l);
  }

  lemma EarlierTransitive(k: string, b: Binding, l: string, c: Binding, m: string, d: Binding)
    requires Earlier(k, b, l, c) && Earlier(l, c, m, d)
    ensures Earlier(k, b, m, d)
  {
    if b.created == c.created == d.created {
      LessTransitive(k, l, m);
    }
  }

  lemma {:induction false} LatestInDominates(
    items: seq<(string, Binding)>, bindings: map<string, Binding>, session: string)
    requires Agrees(items, bindings)
    ensures var r := LatestIn(items, session);
            && (r.Some? ==> r.value in items && r.value.1.session == session)
            && forall i :: 0 <= i < |items| && items[i].1.session == session ==>
                 r.Some? && (items[i].0 == r.value.0
                             || Earlier(items[i].0, items[i].1, r.value.0, r.value.1))
  {
    hide Earlier;
    if items != [] {
      var init, item := items[..|items| - 1], items[|items| - 1];
      LatestInDominates(init, bindings, session);
      var best, r := LatestIn(init, session), LatestIn(items, session);
      assert items == init + [item];
      forall i | 0 <= i < |items| && items[i].1.session == session
        ensures r.Some? && (items[i].0 == r.value.0 || Earlier(items[i].0, items[i].1, r.value.0, r.value.1))
      {
        if i < |init| && r == Some(item) {
          EarlierTotal(best.value.0, best.value.1, item.0, item.1);
          assert init[i] == items[i];
          if items[i].0 != best.value.0 && best.value.0 != item.0 {
            EarlierTransitive(items[i].0, items[i].1, best.value.0, best.value.1, item.0, item.1);
          }
        }
      }
    }
  }

  /** In whatever order the map is walked, the result is the latest binding. */
  lemma LatestInIsLatest(items: seq<(string, Binding)>, bindings: map<string, Binding>, session: string)
    requires Lists(items, bindings)
    ensures var r := LatestIn(items, session);
            LatestIs(bindings, session, if r.Some? then Some(r.value.0) else None)
  {
    LatestInDominates(items, bindings, session);
  }

  lemma LatestUnique(bindings: map<string, Binding>, session: string, c: Option<string>, d: Option<string>)
    requires LatestIs(bindings, session, c) && LatestIs(bindings, session, d)
    ensures c == d
  {
    if c.Some? && d.Some? && c != d {
      LessTotal(c.value, d.value);
    }
  }

  function MatchVerdict(pending: map<string, Pending>, candidate: Candidate, binding: Binding)
    : (r: Option<(string, Behavior)>)
  {
    var v := ParseVerdict(candidate.text);
    if v.None? || v.value.0 !in pending then None
    else
      var p := pending[v.value.0];
      if p.chatId == candidate.chatId && p.session == binding.session && candidate.user == binding.user
      then v else None
  }

  /** `chat_id.starts_with("{channel}:") && b.user == user`. */
  predicate Removes(channel: string, user: string, chatId: string, b: Binding) {
    channel + ":" <= chatId && b.user == user
  }

  function Unbound(bindings: map<string, Binding>, channel: string, user: string): map<string, Binding> {
    map k | k in bindings && !Removes(channel, user, k, bindings[k]) :: bindings[k]
  }

  function ChatId(channel: string, ts: string): string { channel + ":" + ts }

  lemma PrefixOfChatId(channel: string, ts: string)
    ensures SplitOnce(ChatId(channel, ts), ':').Some?
  {
    assert ChatId(channel, ts)[|channel|] == ':';
  }

  /** For a channel without a colon, the prefix test compares the part before the first
      colon. */
  lemma PrefixIsChannel(channel: string, chatId: string)
    requires ':' !in channel
    ensures channel + ":" <= chatId <==> SplitOnce(chatId, ':').Some? && SplitOnce(chatId, ':').value.0 == channel
  {
    if channel + ":" <= chatId {
      assert chatId[|channel|] == (channel + ":")[|channel|] == ':';
      assert forall i :: 0 <= i < |channel| ==> chatId[i] == (channel + ":")[i] == channel[i];
      var first := SplitOnce(chatId, ':').value.0;
      assert forall i :: 0 <= i < |first| ==> chatId[i] == first[i];
      assert chatId[|first|] == ':';
      assert |first| == |channel|;
      assert first == channel;
    }
  }

  /** A thread is unbound by its own user in its own channel, and not in another one. */
  lemma BoundThenUnbound(bindings: map<string, Binding>, channel: string, ts: string, b: Binding, other: string)
    requires ':' !in channel && ':' !in other && other != channel
    ensures var bound := bindings[channel + ":" + ts := b];
            && channel + ":" + ts !in Unbound(bound, channel, b.user)
            && channel + ":" + ts in Unbound(bound, other, b.user)
            && forall user :: user != b.user ==> channel + ":" + ts in Unbound(bound, channel, user)
  {
    var chatId := channel + ":" + ts;
    assert channel + ":" <= chatId;
    PrefixIsChannel(channel, chatId);
    PrefixIsChannel(other, chatId);
  }

  /** The tables behind `AppState.pending` and `Store.bindings`. Each method body is the
      work done under one acquisition of the lock (`HandleRequest`: of all of them). */
  class Tables {
    var pending: map<string, Pending>
    var bindings: map<string, Binding>

    constructor (bindings: map<string, Binding>)
      ensures pending == map[] && this.bindings == bindings
    {
      this.pending, this.bindings := map[], bindings;
    }

    /** An entry goes exactly when it is more than 1800 seconds old; the others stay as
        they were. */
    method SweepOld(now: int)
      modifies this`pending
      ensures pending == Sweep(old(pending), now)
      ensures forall id :: id in old(pending) ==> (id !in pending <==> now > old(pending)[id].created + 1800)
      ensures forall id :: id in pending ==> id in old(pending) && pending[id] == old(pending)[id]
    {
      pending := map id | id in pending && now - pending[id].created <= PENDING_TTL_SECS :: pending[id];
    }

    /** The two-lock block of `handle_request`. */
    method Record(session: string, requestId: string, now: int, items: seq<(string, Binding)>)
      returns (chat: Option<string>)
      requires Lists(items, bindings)
      modifies this`pending
      ensures LatestIs(bindings, session, chat)
      ensures pending == if chat.None? then Sweep(old(pending), now)
                         else Sweep(old(pending), now)[requestId := Pending(chat.value, session, now)]
    {
      SweepOld(now);
      LatestInIsLatest(items, bindings, session);
      var latest := LatestIn(items, session);
      if latest.None? {
        return None;
      }
      pending := pending[requestId := Pending(latest.value.0, session, now)];
      chat := Some(latest.value.0);
    }

    method Forget(requestId: string)
      modifies this`pending
      ensures pending == old(pending) - {requestId}
    {
      pending := pending - {requestId};
    }

    /** Sweeps, then matches, under one lock; the entry stays. A verdict is found exactly
        when its text names a request that is not too old, was recorded for this very
        thread and session, and is answered by the user who bound the thread. */
    method Match(candidate: Candidate, binding: Binding, now: int) returns (v: Option<(string, Behavior)>)
      modifies this`pending
      ensures pending == Sweep(old(pending), now)
      ensures v == MatchVerdict(pending, candidate, binding)
      ensures v.Some? <==>
                && ParseVerdict(candidate.text).Some? && candidate.user == binding.user
                && var id := ParseVerdict(candidate.text).value.0;
                   && id in old(pending) && now - old(pending)[id].created <= PENDING_TTL_SECS
                   && old(pending)[id].chatId == candidate.chatId && old(pending)[id].session == binding.session
      ensures v.Some? ==> v == ParseVerdict(candidate.text)
                          && v.value.0 in pending && pending[v.value.0] == old(pending)[v.value.0]
    {
      SweepOld(now);
      v := MatchVerdict(pending, candidate, binding);
    }

    /** All of `handle_request`, run without interference; `accepts(i)` says whether Slack
        takes the i-th post of the prompt. */
    method HandleRequest(session: string, requestId: string, toolName: string, description: string,
                         inputPreview: string, now: int, items: seq<(string, Binding)>, accepts: nat -> bool)
      returns (chat: Option<string>, posts: seq<Chunk.Post>)
      requires Lists(items, bindings)
      modifies this`pending
      ensures LatestIs(bindings, session, chat)
      ensures forall i :: 0 <= i < |posts| ==> accepts(i)
      ensures var pieces := Chunk.Pieces(PromptText(toolName, description, inputPreview, requestId), Chunk.CHUNK_CHARS);
              var parts := if chat.None? then None else SplitOnce(chat.value, ':');
              && (parts.None? ==> posts == [])
              && (parts.Some? ==> Chunk.FirstPieces(posts, parts.value, pieces) && (|posts| < |pieces| ==> !accepts(|posts|)))
              && (chat.Some? ==> (requestId in pending <==> parts.Some? && |posts| == |pieces|))
      ensures chat.Some? && requestId in pending ==> pending[requestId] == Pending(chat.value, session, now)
      ensures forall id :: id != requestId || chat.None? ==>
                (id in pending <==> id in old(pending) && now <= old(pending)[id].created + 1800)
      ensures forall id :: id in pending && (id != requestId || chat.None?) ==> pending[id] == old(pending)[id]
    {
      hide Chunk.Pieces, Chunk.IsSplit, LatestIs, PromptText;
      posts := [];
      chat := Record(session, requestId, now, items);
      if chat.None? {
        return;
      }
      var parts := SplitOnce(chat.value, ':');
      if parts.None? {
        Forget(requestId);
        return;
      }
      var prompt := PromptText(toolName, description, inputPreview, requestId);
      var pieces := Chunk.Chunk(prompt, Chunk.CHUNK_CHARS);
      for i := 0 to |pieces|
        invariant |posts| == i && Chunk.FirstPieces(posts, parts.value, pieces)
        invariant forall j :: 0 <= j < i ==> accepts(j)
        invariant pending == Sweep(old(pending), now)[requestId := Pending(chat.value, session, now)]
      {
        if !accepts(i) {
          Forget(requestId);
          return;
        }
        posts := posts + [Chunk.Post(parts.value.0, parts.value.1, pieces[i])];
      }
    }

    /** `/cc unbind`: every binding the user made in the channel, and no other, goes; the
        channel is what precedes the first colon of the chat id. */
    method Unbind(channel: string, user: string) returns (count: nat)
      modifies this`bindings
      ensures bindings == Unbound(old(bindings), channel, user)
      ensures forall k :: k in bindings ==> k in old(bindings) && bindings[k] == old(bindings)[k]
      ensures ':' !in channel ==> forall k :: k in old(bindings) ==>
                (k in bindings <==> old(bindings)[k].user != user
                                    || SplitOnce(k, ':').None? || SplitOnce(k, ':').value.0 != channel)
      ensures count == |old(bindings).Keys - bindings.Keys|
    {
      ghost var gone := set k | k in bindings && Removes(channel, user, k, bindings[k]);
      var before := |bindings|;
      bindings := map k | k in bindings && !Removes(channel, user, k, bindings[k]) :: bindings[k];
      assert old(bindings).Keys == bindings.Keys + gone;
      assert old(bindings).Keys - bindings.Keys == gone;
      count := before - |bindings|;
      if ':' !in channel {
        forall k | k in old(bindings)
          ensures channel + ":" <= k <==> SplitOnce(k, ':').Some? && SplitOnce(k, ':').value.0 == channel
        {
          PrefixIsChannel(channel, k);
        }
      }
    }

    /** The thread belongs to the session and every other binding stays. A thread bound
        later than all others of its session is where the session asks next. */
    method Bind(channel: string, ts: string, binding: Binding)
      modifies this`bindings
      ensures bindings == old(bindings)[ChatId(channel, ts) := binding]
      ensures channel + ":" + ts in bindings && bindings[channel + ":" + ts] == binding
      ensures forall k :: k in bindings && k != ChatId(channel, ts) <==> k in old(bindings) && k != ChatId(channel, ts)
      ensures forall k :: k in bindings && k != ChatId(channel, ts) ==> bindings[k] == old(bindings)[k]
      ensures (forall k :: k in old(bindings) && old(bindings)[k].session == binding.session ==>
                             old(bindings)[k].created < binding.created) ==>
                IsLatest(bindings, binding.session, ChatId(channel, ts))
    {
      bindings := bindings[channel + ":" + ts := binding];
    }
  }
}
