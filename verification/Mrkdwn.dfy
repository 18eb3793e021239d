/** `escape_mrkdwn` of `slack/api.rs`: three whole-string replacements, in order. */
module Mrkdwn {
  /** `str::replace` of one character. */
  function Replace(s: string, c: char, to: string): string {
    if s == "" then "" else (if s[0] == c then to else [s[0]]) + Replace(s[1..], c, to)
  }

  function Escape(value: string): string {
    Replace(Replace(Replace(value, '&', "&amp;"), '<', "&lt;"), '>', "&gt;")
  }

  /** What the three passes amount to, character by character. */
  function Entity(c: char): (e: string)
    ensures |e| > 0
  {
    if c == '&' then "&amp;" else if c == '<' then "&lt;" else if c == '>' then "&gt;" else [c]
  }

  function OnePass(s: string): string {
    if s == "" then "" else Entity(s[0]) + OnePass(s[1..])
  }

  /** A left-to-right entity decoder; a lone ampersand stands for itself. */
  function Unescape(s: string): string {
    if s == "" then ""
    else if "&amp;" <= s then "&" + Unescape(s[5..])
    else if "&lt;" <= s then "<" + Unescape(s[4..])
    else if "&gt;" <= s then ">" + Unescape(s[4..])
    else [s[0]] + Unescape(s[1..])
  }

  lemma {:induction false} ReplaceConcat(s: string, t: string, c: char, to: string)
    ensures Replace(s + t, c, to) == Replace(s, c, to) + Replace(t, c, to)
  {
    if s == "" {
      assert s + t == t;
    } else {
      assert (s + t)[1..] == s[1..] + t;
      ReplaceConcat(s[1..], t, c, to);
    }
  }

  lemma {:induction false} ReplaceAbsent(s: string, c: char, to: string)
    requires c !in s
    ensures Replace(s, c, to) == s
  {
    if s != "" {
      ReplaceAbsent(s[1..], c, to);
      assert s == [s[0]] + s[1..];
    }
  }

  lemma ReplaceOne(c: char, d: char, to: string)
    ensures Replace([c], d, to) == if c == d then to else [c]
  {
    assert [c][1..] == "";
    assert Replace("", d, to) == "";
  }

  lemma EscapeChar(c: char)
    ensures Escape([c]) == Entity(c)
  {
    ReplaceOne(c, '&', "&amp;");
    if c == '&' {
      ReplaceAbsent("&amp;", '<', "&lt;");
      ReplaceAbsent("&amp;", '>', "&gt;");
    } else {
      ReplaceOne(c, '<', "&lt;");
      if c == '<' {
        ReplaceAbsent("&lt;", '>', "&gt;");
      } else {
        ReplaceOne(c, '>', "&gt;");
      }
    }
  }

  /** Escaping distributes over concatenation. */
  lemma EscapeConcat(s: string, t: string)
    ensures Escape(s + t) == Escape(s) + Escape(t)
  {
    ReplaceConcat(s, t, '&', "&amp;");
    var (s1, t1) := (Replace(s, '&', "&amp;"), Replace(t, '&', "&amp;"));
    ReplaceConcat(s1, t1, '<', "&lt;");
    ReplaceConcat(Replace(s1, '<', "&lt;"), Replace(t1, '<', "&lt;"), '>', "&gt;");
  }

  /** The three passes never rewrite one another's output: they are one pass. */
  lemma {:induction false} EscapeIsOnePass(s: string)
    ensures Escape(s) == OnePass(s)
  {
    hide Escape;
    if s == "" {
      EscapeEmpty();
    } else {
      assert s == [s[0]] + s[1..];
      EscapeConcat([s[0]], s[1..]);
      EscapeChar(s[0]);
      EscapeIsOnePass(s[1..]);
    }
  }

  lemma EscapeEmpty()
    ensures Escape("") == ""
  {
  }

  /** No bracket survives, so the text holds no mention and no link. */
  lemma {:induction false} NoBrackets(s: string)
    ensures '<' !in Escape(s) && '>' !in Escape(s)
  {
    hide Escape;
    EscapeIsOnePass(s);
    if s != "" {
      NoBrackets(s[1..]);
      EscapeIsOnePass(s[1..]);
    }
  }

  lemma {:induction false} UnescapeOnePass(s: string)
    ensures Unescape(OnePass(s)) == s
  {
    if s != "" {
      UnescapeOnePass(s[1..]);
      UnescapeEntity(s[0], OnePass(s[1..]));
      assert s == [s[0]] + s[1..];
    }
  }

  lemma UnescapeEntity(c: char, rest: string)
    ensures Unescape(Entity(c) + rest) == [c] + Unescape(rest)
  {
    var t := Entity(c) + rest;
    assert t[|Entity(c)|..] == rest;
    assert t[0] == Entity(c)[0];
    if c == '<' {
      assert t[1] == 'l';
    } else if c == '>' {
      assert t[1] == 'g';
    }
  }

  /** Decoding undoes escaping, so no two values are shown alike. */
  lemma EscapeInjective(s: string, t: string)
    ensures Unescape(Escape(s)) == s
    ensures Escape(s) == Escape(t) ==> s == t
  {
    hide Escape, OnePass, Unescape;
    EscapeIsOnePass(s);
    EscapeIsOnePass(t);
    UnescapeOnePass(s);
    UnescapeOnePass(t);
  }
}
