/** `chunk.rs` and the posting loop of `post_reply`: cutting a reply into pieces that
    fit one Slack message, and posting them until a post fails. */
module Chunk {
  import opened Wrappers
  import opened Text

  const CHUNK_CHARS: nat := 3900

  /** `rposition` of a newline. */
  function LastNewline(window: string): (r: Option<nat>)
    ensures r.Some? ==> r.value < |window| && window[r.value] == '\n'
    ensures forall i :: (if r.Some? then r.value + 1 else 0) <= i < |window| ==> window[i] != '\n'
  {
    if window == [] then None
    else if window[|window| - 1] == '\n' then Some(|window| - 1)
    else LastNewline(window[..|window| - 1])
  }

  function CutLength(window: string): (n: nat)
    ensures n <= |window|
    ensures |window| > 0 ==> n > 0
  {
    var r := LastNewline(window);
    if r.Some? then r.value + 1 else |window|
  }

  /** `piece` ends after the last newline of the next `max` characters of `rest`, or,
      when these hold no newline, is all of them. */
  ghost predicate CutFrom(piece: string, rest: string, max: nat) {
    && 0 < |piece| <= max < |rest|
    && piece == rest[..|piece|]
    && if '\n' in rest[..max] then piece[|piece| - 1] == '\n' && '\n' !in rest[|piece|..max]
       else |piece| == max
  }

  /** The promise of `chunk`: pieces of 1 to `max` characters that concatenate to the
      text, a cut being made only where the rest does not fit, and at the right place. */
  ghost predicate IsSplit(pieces: seq<string>, text: string, max: nat) {
    && |pieces| > 0
    && Flatten(pieces) == text
    && (forall i :: 0 <= i < |pieces| ==> 0 < |pieces[i]| <= max)
    && (forall i :: 0 <= i < |pieces| - 1 ==> CutFrom(pieces[i], Flatten(pieces[i..]), max))
  }

  function Pieces(text: string, max: nat): (pieces: seq<string>)
    requires max > 0 || text == ""
    decreases |text|
  {
    if |text| <= max then [text]
    else
      var n := CutLength(text[..max]);
      [text[..n]] + Pieces(text[n..], max)
  }

  method Chunk(text: string, max: nat) returns (pieces: seq<string>)
    requires max > 0 || text == ""
    ensures pieces == Pieces(text, max)
    ensures text != "" ==> IsSplit(pieces, text, max)
  {
    if text == "" {
      return [""];
    }
    hide CutLength, Pieces, IsSplit, Cutting;
    pieces := [];
    var start := 0;
    StartCutting(text, max);
    while |text| - start > max
      invariant start <= |text| && Cutting(pieces, text, start, max)
      decreases |text| - start
    {
      var n := CutLength(text[start..start + max]);
      CutAnother(pieces, text, start, max);
      pieces := pieces + [text[start..start + n]];
      start := start + n;
    }
    FinishCutting(pieces, text, start, max);
    pieces := pieces + [text[start..]];
  }

  /** The pieces cut so far, followed by those of the rest, are those of the text. */
  ghost predicate Cutting(done: seq<string>, text: string, start: nat, max: nat)
    requires max > 0 && start <= |text|
  {
    done + Pieces(text[start..], max) == Pieces(text, max)
  }

  lemma StartCutting(text: string, max: nat)
    requires max > 0
    ensures Cutting([], text, 0, max)
  {
    assert text[0..] == text;
  }

  lemma CutAnother(done: seq<string>, text: string, start: nat, max: nat)
    requires max > 0 && start + max < |text| && Cutting(done, text, start, max)
    ensures var n := CutLength(text[start..start + max]);
            0 < n <= max && Cutting(done + [text[start..start + n]], text, start + n, max)
  {
    NextPiece(text, start, max);
    hide Pieces;
    var n := CutLength(text[start..start + max]);
    var piece, rest := text[start..start + n], Pieces(text[start + n..], max);
    assert done + [piece] + rest == done + ([piece] + rest);
  }

  lemma NextPiece(text: string, start: nat, max: nat)
    requires max > 0 && start + max < |text|
    ensures var n := CutLength(text[start..start + max]);
            0 < n <= max
            && Pieces(text[start..], max) == [text[start..start + n]] + Pieces(text[start + n..], max)
  {
    var rest, n := text[start..], CutLength(text[start..start + max]);
    assert rest[..max] == text[start..start + max];
    assert rest[..n] == text[start..start + n] && rest[n..] == text[start + n..];
  }

  lemma FinishCutting(done: seq<string>, text: string, start: nat, max: nat)
    requires max > 0 && text != "" && start <= |text| <= start + max && Cutting(done, text, start, max)
    ensures done + [text[start..]] == Pieces(text, max)
    ensures IsSplit(done + [text[start..]], text, max)
  {
    PiecesSplit(text, max);
  }

  lemma CutLengthCuts(text: string, max: nat)
    requires 0 < max < |text|
    ensures CutFrom(text[..CutLength(text[..max])], text, max)
  {
    var window := text[..max];
    var n := CutLength(window);
    assert window[n..] == text[n..max];
    assert text[..n][n - 1] == window[n - 1];
  }

  lemma {:induction false} PiecesSplit(text: string, max: nat)
    requires max > 0 && text != ""
    ensures IsSplit(Pieces(text, max), text, max)
    decreases |text|
  {
    hide IsSplit, CutFrom;
    if |text| <= max {
      WholeText(text, max);
    } else {
      var n := CutLength(text[..max]);
      CutLengthCuts(text, max);
      PiecesSplit(text[n..], max);
      assert text == text[..n] + text[n..];
      ConsSplit(text[..n], Pieces(text[n..], max), text[n..], max);
    }
  }

  lemma WholeText(text: string, max: nat)
    requires 0 < |text| <= max
    ensures IsSplit([text], text, max)
  {
    assert Flatten([text]) == text + Flatten<char>([]) == text;
  }

  lemma ConsSplit(p: string, tail: seq<string>, rest: string, max: nat)
    requires CutFrom(p, p + rest, max) && IsSplit(tail, rest, max)
    ensures IsSplit([p] + tail, p + rest, max)
  {
    var pieces := [p] + tail;
    assert 0 < |p| <= max;
    hide CutFrom;
    assert pieces[1..] == tail && pieces[0..] == pieces;
    forall i | 0 <= i < |pieces| - 1
      ensures CutFrom(pieces[i], Flatten(pieces[i..]), max)
    {
      if i > 0 {
        assert pieces[i..] == tail[i - 1..];
      }
    }
  }

  lemma SplitTail(pieces: seq<string>, text: string, max: nat)
    requires IsSplit(pieces, text, max) && |pieces| > 1
    ensures pieces[0] <= text && IsSplit(pieces[1..], text[|pieces[0]|..], max)
    ensures CutFrom(pieces[0], text, max)
  {
    var tail := pieces[1..];
    assert pieces[0..] == pieces;
    assert text == pieces[0] + Flatten(tail);
    forall i | 0 <= i < |tail| - 1
      ensures CutFrom(tail[i], Flatten(tail[i..]), max)
    {
      assert tail[i..] == pieces[i + 1..];
    }
  }

  lemma CutUnique(p: string, q: string, rest: string, max: nat)
    requires CutFrom(p, rest, max) && CutFrom(q, rest, max)
    ensures p == q
  {
    if '\n' in rest[..max] {
      assert rest[|p| - 1] == '\n' == rest[|q| - 1];
    }
  }

  /** No other split keeps the promise. */
  lemma {:induction false} SplitUnique(p: seq<string>, q: seq<string>, text: string, max: nat)
    requires IsSplit(p, text, max) && IsSplit(q, text, max)
    ensures p == q
    decreases |p|
  {
    if |p| == 1 {
      SingleSplit(p, q, text, max);
    } else if |q| == 1 {
      SingleSplit(q, p, text, max);
    } else {
      SplitTail(p, text, max);
      SplitTail(q, text, max);
      CutUnique(p[0], q[0], text, max);
      SplitUnique(p[1..], q[1..], text[|p[0]|..], max);
      assert p == [p[0]] + p[1..] && q == [q[0]] + q[1..];
    }
  }

  lemma SingleSplit(p: seq<string>, q: seq<string>, text: string, max: nat)
    requires IsSplit(p, text, max) && IsSplit(q, text, max) && |p| == 1
    ensures p == q
  {
    assert Flatten(p) == p[0] + Flatten(p[1..]) == p[0];
    if |q| > 1 {
      SplitTail(q, text, max);
    } else {
      assert Flatten(q) == q[0] + Flatten(q[1..]) == q[0];
    }
  }

  /** Two neighbouring pieces never fit one message together. */
  lemma NeighboursExceed(pieces: seq<string>, text: string, max: nat, i: nat)
    requires IsSplit(pieces, text, max) && i + 1 < |pieces|
    ensures |pieces[i]| + |pieces[i + 1]| > max
  {
    assert pieces[i..][1..] == pieces[i + 1..];
    if i + 2 == |pieces| {
      assert pieces[i + 1..] == [pieces[i + 1]];
      assert Flatten([pieces[i + 1]]) == pieces[i + 1] + Flatten<char>([]) == pieces[i + 1];
    } else {
      CutsExceed(pieces[i], pieces[i + 1], Flatten(pieces[i + 1..]), max);
    }
  }

  lemma CutsExceed(p: string, q: string, after: string, max: nat)
    requires CutFrom(p, p + after, max) && CutFrom(q, after, max)
    ensures |p| + |q| > max
  {
    if '\n' in after[..max] {
      var rest := p + after;
      assert rest[|p| + |q| - 1] == q[|q| - 1] == '\n';
    }
  }

  lemma FirstTwo(pieces: seq<string>, text: string, max: nat) returns (tail: string)
    requires IsSplit(pieces, text, max) && |pieces| >= 2
    ensures |pieces[0]| + |pieces[1]| + |tail| == |text| && |pieces[0]| + |pieces[1]| > max
    ensures |pieces| > 2 ==> IsSplit(pieces[2..], tail, max)
  {
    hide CutFrom;
    NeighboursExceed(pieces, text, max, 0);
    SplitTail(pieces, text, max);
    var rest := text[|pieces[0]|..];
    assert Flatten(pieces[1..]) == pieces[1] + Flatten(pieces[1..][1..]);
    tail := rest[|pieces[1]|..];
    if |pieces| > 2 {
      SplitTail(pieces[1..], rest, max);
      assert pieces[1..][1..] == pieces[2..];
    }
  }

  /** So n characters make at most 2 * (n / (max + 1)) + 1 pieces. */
  lemma {:induction false} PieceCount(pieces: seq<string>, text: string, max: nat)
    requires IsSplit(pieces, text, max)
    ensures |pieces| <= 2 * (|text| / (max + 1)) + 1
    decreases |pieces|
  {
    hide IsSplit;
    if |pieces| >= 2 {
      var tail := FirstTwo(pieces, text, max);
      QuotientDrop(|text|, |pieces[0]| + |pieces[1]|, max + 1);
      if |pieces| > 2 {
        PieceCount(pieces[2..], tail, max);
      }
    }
  }

  lemma QuotientDrop(n: nat, k: nat, m: nat)
    requires m > 0 && m <= k <= n
    ensures (n - k) / m + 1 <= n / m
  {
    var a := (n - k) / m;
    assert m * a <= n - k;
    assert m * (a + 1) == m * a + m <= n;
    QuotientAtLeast(a + 1, n, m);
  }

  lemma QuotientAtLeast(x: nat, n: nat, m: nat)
    requires m > 0 && m * x <= n
    ensures x <= n / m
  {
    var q, r := n / m, n % m;
    assert n == m * q + r && r < m;
    assert m * (q + 1) > n;
    if x >= q + 1 {
      ScaleOrder(m, q + 1, x);
      assert false;
    }
  }

  lemma ScaleOrder(m: nat, x: nat, y: nat)
    requires x <= y
    ensures m * x <= m * y
  {
  }

  datatype Post = Post(channel: string, thread: string, text: string)

  function PostedText(posts: seq<Post>): (t: string) {
    if posts == [] then "" else posts[0].text + PostedText(posts[1..])
  }

  /** A reply's destination: `channel:thread_ts`, neither part empty. */
  function Destination(chatId: string): (r: Option<(string, string)>) {
    var parts := SplitOnce(chatId, ':');
    if parts.Some? && parts.value.0 != "" && parts.value.1 != "" then parts else None
  }

  /** The destination is the part before the first colon and the part after it, if both
      are there. */
  lemma DestinationParts(chatId: string, channel: string, thread: string)
    ensures Destination(chatId) == Some((channel, thread))
            <==> chatId == channel + ":" + thread && ':' !in channel && channel != "" && thread != ""
  {
    if chatId == channel + ":" + thread && ':' !in channel {
      assert chatId[|channel|] == ':';
      var first := SplitOnce(chatId, ':').value.0;
      assert chatId[|first|] == ':';
      assert forall i :: 0 <= i < |channel| ==> chatId[i] == channel[i];
      assert forall i :: 0 <= i < |first| ==> chatId[i] == first[i];
      assert |first| == |channel|;
      var rest := SplitOnce(chatId, ':').value.1;
      assert first == channel;
      assert chatId[|first| + 1..] == rest && chatId[|channel| + 1..] == thread;
    }
  }

  /** The posts are the first pieces, in order and in the right thread, up to the first
      one that Slack refuses. */
  ghost predicate FirstPieces(posts: seq<Post>, dest: (string, string), pieces: seq<string>) {
    |posts| <= |pieces|
    && forall i :: 0 <= i < |posts| ==> posts[i] == Post(dest.0, dest.1, pieces[i])
  }

  /** Posts a reply piece by piece; `accepts(i)` says whether Slack takes the i-th post. */
  method PostReply(chatId: string, text: string, accepts: nat -> bool) returns (posts: seq<Post>)
    ensures Destination(chatId).None? || text == "" ==> posts == []
    ensures forall i :: 0 <= i < |posts| ==>
              && chatId == posts[i].channel + ":" + posts[i].thread && ':' !in posts[i].channel
              && posts[i].channel != "" && posts[i].thread != ""
    ensures Destination(chatId).Some? && text != "" ==>
              && FirstPieces(posts, Destination(chatId).value, Pieces(text, CHUNK_CHARS))
              && (|posts| < |Pieces(text, CHUNK_CHARS)| ==> !accepts(|posts|))
    ensures forall i :: 0 <= i < |posts| ==> accepts(i)
  {
    hide IsSplit, Pieces, Destination;
    posts := [];
    var dest := Destination(chatId);
    if dest.None? || text == "" {
      return;
    }
    var (channel, thread) := dest.value;
    DestinationParts(chatId, channel, thread);
    var pieces := Chunk(text, CHUNK_CHARS);
    for i := 0 to |pieces|
      invariant |posts| == i && FirstPieces(posts, (channel, thread), pieces)
      invariant forall j :: 0 <= j < i ==> accepts(j)
    {
      if !accepts(i) {
        return;
      }
      posts := posts + [Post(channel, thread, pieces[i])];
    }
  }

  /** Whatever fails, the thread shows a prefix of the reply, and all of it exactly when
      every piece was posted. */
  lemma PostsArePrefix(posts: seq<Post>, dest: (string, string), text: string)
    requires text != "" && FirstPieces(posts, dest, Pieces(text, CHUNK_CHARS))
    ensures PostedText(posts) <= text
    ensures PostedText(posts) == text <==> |posts| == |Pieces(text, CHUNK_CHARS)|
  {
    hide Pieces;
    var pieces := Pieces(text, CHUNK_CHARS);
    PiecesSplit(text, CHUNK_CHARS);
    PostedIsFlatten(posts, dest, pieces);
    if |posts| < |pieces| {
      PrefixFlatten(pieces, |posts|);
    } else {
      assert pieces[..|posts|] == pieces;
    }
  }

  lemma {:induction false} PostedIsFlatten(posts: seq<Post>, dest: (string, string), pieces: seq<string>)
    requires FirstPieces(posts, dest, pieces)
    ensures PostedText(posts) == Flatten(pieces[..|posts|])
  {
    if posts != [] {
      PostedIsFlatten(posts[1..], dest, pieces[1..]);
      assert pieces[..|posts|][1..] == pieces[1..][..|posts| - 1];
    }
  }

  /** Leaving pieces out, the first of them not empty, leaves text out. */
  lemma {:induction false} PrefixFlatten(pieces: seq<string>, i: nat)
    requires i < |pieces| && |pieces[i]| > 0
    ensures Flatten(pieces[..i]) < Flatten(pieces)
  {
    if i == 0 {
      assert pieces[..0] == [];
    } else {
      assert pieces[..i][1..] == pieces[1..][..i - 1];
      PrefixFlatten(pieces[1..], i - 1);
    }
  }
}
