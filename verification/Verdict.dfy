/** `parse_verdict` and `prompt_text` of `permission.rs`. */
module Verdict {
  import opened Wrappers
  import Mrkdwn

  datatype Behavior = Allow | Deny

  /** `char::is_whitespace`: the Unicode White_Space property. */
  predicate IsWhitespace(c: char) {
    var n := c as int;
    9 <= n <= 13 || n == 32 || n == 0x85 || n == 0xA0 || n == 0x1680 || 0x2000 <= n <= 0x200A
    || n == 0x2028 || n == 0x2029 || n == 0x202F || n == 0x205F || n == 0x3000
  }

  function LowerChar(c: char): char {
    if 'A' <= c <= 'Z' then (c as int + 32) as char else c
  }

  function Lower(s: string): (r: string)
    ensures |r| == |s| && forall i :: 0 <= i < |s| ==> r[i] == LowerChar(s[i])
  {
    seq(|s|, i requires 0 <= i < |s| => LowerChar(s[i]))
  }

  function TrimStart(s: string): (r: string)
    ensures |r| <= |s|
  {
    if s != "" && IsWhitespace(s[0]) then TrimStart(s[1..]) else s
  }

  function TrimEnd(s: string): (r: string)
    ensures |r| <= |s|
  {
    if s != "" && IsWhitespace(s[|s| - 1]) then TrimEnd(s[..|s| - 1]) else s
  }

  function Trim(s: string): string { TrimEnd(TrimStart(s)) }

  /** `find(char::is_whitespace)`. */
  function FindWhitespace(s: string): (r: Option<nat>)
    ensures r.Some? ==> r.value < |s|
  {
    if s == "" then None
    else if IsWhitespace(s[0]) then Some(0)
    else
      var r := FindWhitespace(s[1..]);
      if r.None? then None else Some(r.value + 1)
  }

  /** Five lower-case letters, none of them `l`. */
  predicate ValidId(id: string) {
    |id| == 5 && forall i :: 0 <= i < 5 ==> 'a' <= id[i] <= 'z' && id[i] != 'l'
  }

  function BehaviorOf(word: string): (r: Option<Behavior>) {
    if word == "y" || word == "yes" then Some(Allow)
    else if word == "n" || word == "no" then Some(Deny)
    else None
  }

  function ParseVerdict(text: string): (r: Option<(string, Behavior)>) {
    var trimmed := Trim(text);
    var splitAt := FindWhitespace(trimmed);
    if splitAt.None? then None
    else
      var word1, rest := trimmed[..splitAt.value], trimmed[splitAt.value..];
      var word2 := TrimStart(rest);
      if FindWhitespace(word2).Some? then None
      else
        var behavior := BehaviorOf(Lower(word1));
        if behavior.None? then None
        else
          var id := Lower(word2);
          if ValidId(id) then Some((id, behavior.value)) else None
  }

  // --- the reference expression, in literals ------------------------------------------

  /** `\s`: the code points with the White_Space property. */
  predicate White(c: char) {
    c as int in {0x9, 0xA, 0xB, 0xC, 0xD, 0x20, 0x85, 0xA0, 0x1680, 0x2000, 0x2001, 0x2002, 0x2003, 0x2004, 0x2005,
                 0x2006, 0x2007, 0x2008, 0x2009, 0x200A, 0x2028, 0x2029, 0x202F, 0x205F, 0x3000}
  }

  predicate Blank(s: string) { forall i :: 0 <= i < |s| ==> White(s[i]) }

  /** `y|yes` for Allow and `n|no` for Deny, each letter in either case. */
  predicate Word(word: string, behavior: Behavior) {
    match behavior
    case Allow =>
      || (|word| == 1 && word[0] in {'y', 'Y'})
      || (|word| == 3 && word[0] in {'y', 'Y'} && word[1] in {'e', 'E'} && word[2] in {'s', 'S'})
    case Deny =>
      || (|word| == 1 && word[0] in {'n', 'N'})
      || (|word| == 2 && word[0] in {'n', 'N'} && word[1] in {'o', 'O'})
  }

  /** `[a-km-z]{5}`. */
  predicate WellFormedId(id: string) {
    |id| == 5 && forall i :: 0 <= i < 5 ==> 'a' <= id[i] <= 'k' || 'm' <= id[i] <= 'z'
  }

  /** The letters of `id`, each in either case: upper case lies 32 below. */
  predicate Spells(letters: string, id: string) {
    && WellFormedId(id) && |letters| == 5
    && forall i :: 0 <= i < 5 ==> letters[i] == id[i] || letters[i] as int + 32 == id[i] as int
  }

  /** `text` matches `^\s*(y|yes|n|no)\s+([a-km-z]{5})\s*$` under ASCII case folding. */
  ghost predicate Matches(text: string, id: string, behavior: Behavior) {
    exists lead: string, word: string, gap: string, letters: string, trail: string ::
      Factors(text, lead, word, gap, letters, trail, id, behavior)
  }

  ghost predicate Factors(text: string, lead: string, word: string, gap: string, letters: string, trail: string,
                          id: string, behavior: Behavior)
  {
    && text == lead + (word + (gap + (letters + trail)))
    && Blank(lead) && Blank(gap) && |gap| > 0 && Blank(trail)
    && Word(word, behavior) && Spells(letters, id)
  }

  // --- the parser against it -------------------------------------------------------------

  predicate Solid(s: string) { forall i :: 0 <= i < |s| ==> !IsWhitespace(s[i]) }

  lemma WhiteTable(c: char)
    ensures IsWhitespace(c) <==> White(c)
  {
  }

  lemma WordFolds(word: string, behavior: Behavior)
    ensures BehaviorOf(Lower(word)) == Some(behavior) <==> Word(word, behavior)
  {
    var w := Lower(word);
    assert w == "y" <==> |w| == 1 && w[0] == 'y';
    assert w == "n" <==> |w| == 1 && w[0] == 'n';
    assert w == "no" <==> |w| == 2 && w[0] == 'n' && w[1] == 'o';
    assert w == "yes" <==> |w| == 3 && w[0] == 'y' && w[1] == 'e' && w[2] == 's';
  }

  lemma LetterFolds(c: char, d: char)
    ensures (LowerChar(c) == d && 'a' <= d <= 'z') <==> ('a' <= d <= 'z' && (c == d || c as int + 32 == d as int))
  {
  }

  lemma IdFolds(letters: string, id: string)
    ensures (Lower(letters) == id && ValidId(id)) <==> Spells(letters, id)
  {
    hide LowerChar, Lower;
    forall i | 0 <= i < |letters| && i < |id|
      ensures (LowerChar(letters[i]) == id[i] && 'a' <= id[i] <= 'z')
              <==> ('a' <= id[i] <= 'z' && (letters[i] == id[i] || letters[i] as int + 32 == id[i] as int))
    {
      LetterFolds(letters[i], id[i]);
    }
    if Spells(letters, id) {
      assert Lower(letters) == id;
    }
  }

  lemma {:induction false} TrimStartFactors(s: string) returns (lead: string)
    ensures s == lead + TrimStart(s) && Blank(lead)
    ensures TrimStart(s) == "" || !IsWhitespace(TrimStart(s)[0])
  {
    hide IsWhitespace, White;
    if s != "" && IsWhitespace(s[0]) {
      WhiteTable(s[0]);
      var rest := TrimStartFactors(s[1..]);
      lead := [s[0]] + rest;
      assert s == [s[0]] + s[1..];
    } else {
      lead := "";
    }
  }

  lemma {:induction false} TrimEndFactors(s: string) returns (trail: string)
    ensures s == TrimEnd(s) + trail && Blank(trail)
    ensures TrimEnd(s) == "" || !IsWhitespace(TrimEnd(s)[|TrimEnd(s)| - 1])
  {
    hide IsWhitespace, White;
    if s != "" && IsWhitespace(s[|s| - 1]) {
      WhiteTable(s[|s| - 1]);
      var rest := TrimEndFactors(s[..|s| - 1]);
      trail := rest + [s[|s| - 1]];
      assert s == s[..|s| - 1] + [s[|s| - 1]];
    } else {
      trail := "";
    }
  }

  lemma {:induction false} TrimStartBlank(lead: string, s: string)
    requires Blank(lead) && s != "" && !IsWhitespace(s[0])
    ensures TrimStart(lead + s) == s
  {
    hide IsWhitespace, White;
    if lead == "" {
      assert lead + s == s;
    } else {
      WhiteTable(lead[0]);
      assert (lead + s)[1..] == lead[1..] + s;
      TrimStartBlank(lead[1..], s);
    }
  }

  lemma {:induction false} TrimEndBlank(s: string, trail: string)
    requires Blank(trail) && s != "" && !IsWhitespace(s[|s| - 1])
    ensures TrimEnd(s + trail) == s
  {
    hide IsWhitespace, White;
    if trail == "" {
      assert s + trail == s;
    } else {
      var t := s + trail;
      assert t[..|t| - 1] == s + trail[..|trail| - 1];
      WhiteTable(trail[|trail| - 1]);
      TrimEndBlank(s, trail[..|trail| - 1]);
    }
  }

  lemma {:induction false} FindFactors(s: string)
    ensures FindWhitespace(s).None? <==> Solid(s)
    ensures FindWhitespace(s).Some? ==>
              Solid(s[..FindWhitespace(s).value]) && IsWhitespace(s[FindWhitespace(s).value])
  {
    hide IsWhitespace, White;
    if s != "" && !IsWhitespace(s[0]) {
      FindFactors(s[1..]);
      var r := FindWhitespace(s);
      assert s == [s[0]] + s[1..];
      if r.Some? {
        assert s[..r.value] == [s[0]] + s[1..][..r.value - 1];
      }
    }
  }

  lemma {:induction false} FindAfter(word: string, rest: string)
    requires Solid(word) && rest != "" && IsWhitespace(rest[0])
    ensures FindWhitespace(word + rest) == Some(|word|)
  {
    hide IsWhitespace, White;
    if word == "" {
      assert word + rest == rest;
    } else {
      assert (word + rest)[1..] == word[1..] + rest;
      FindAfter(word[1..], rest);
    }
  }

  lemma LowerSolid(s: string)
    requires ValidId(Lower(s)) || BehaviorOf(Lower(s)).Some?
    ensures Solid(s) && s != ""
  {
    forall i | 0 <= i < |s|
      ensures !IsWhitespace(s[i])
    {
      assert 'a' <= Lower(s)[i] <= 'z';
    }
  }

  /** Soundness: what the parser accepts, the expression matches. */
  lemma ParseMatches(text: string)
    requires ParseVerdict(text).Some?
    ensures Matches(text, ParseVerdict(text).value.0, ParseVerdict(text).value.1)
  {
    hide IsWhitespace, ValidId, BehaviorOf, Lower, TrimStart, TrimEnd, FindWhitespace, Word, Spells, Blank;
    var lead := TrimStartFactors(text);
    var trail := TrimEndFactors(TrimStart(text));
    var trimmed := Trim(text);
    var at := FindWhitespace(trimmed).value;
    var word1, gap, word2 := SplitFactors(trimmed, at);
    Regroup(lead, word1, gap, word2, trail);
    var (id, behavior) := ParseVerdict(text).value;
    WordFolds(word1, behavior);
    IdFolds(word2, id);
    assert Factors(text, lead, word1, gap, word2, trail, id, behavior);
  }

  lemma SplitFactors(s: string, at: nat) returns (word1: string, gap: string, word2: string)
    requires FindWhitespace(s) == Some(at) && at < |s|
    ensures word1 == s[..at] && word2 == TrimStart(s[at..])
    ensures s == word1 + (gap + word2) && Blank(gap) && gap != ""
  {
    FindFactors(s);
    hide FindWhitespace, IsWhitespace;
    word1, word2 := s[..at], TrimStart(s[at..]);
    gap := TrimStartFactors(s[at..]);
    assert s == s[..at] + s[at..];
  }

  lemma Regroup(a: string, b: string, c: string, d: string, e: string)
    ensures a + (b + (c + d) + e) == a + (b + (c + (d + e)))
  {
  }

  /** Completeness: what the expression matches, the parser reads the same way. */
  lemma MatchParses(text: string, lead: string, word: string, gap: string, letters: string, trail: string,
                    id: string, behavior: Behavior)
    requires Factors(text, lead, word, gap, letters, trail, id, behavior)
    ensures ParseVerdict(text) == Some((id, behavior))
  {
    WordFolds(word, behavior);
    IdFolds(letters, id);
    LowerSolid(word);
    LowerSolid(letters);
    WhiteTable(gap[0]);
    hide IsWhitespace, White, ValidId, BehaviorOf, Lower, Word, Spells;
    var rest := gap + letters;
    var trimmed := word + rest;
    assert text == lead + (trimmed + trail);
    assert (trimmed + trail)[0] == word[0];
    TrimStartBlank(lead, trimmed + trail);
    assert trimmed[|trimmed| - 1] == letters[|letters| - 1];
    TrimEndBlank(trimmed, trail);
    assert Trim(text) == trimmed;
    assert rest[0] == gap[0];
    FindAfter(word, rest);
    assert trimmed[..|word|] == word && trimmed[|word|..] == rest;
    TrimStartBlank(gap, letters);
    FindFactors(letters);
  }

  /** The hand-written parser decides the reference expression, and finds the only
      identifier and behaviour that match. */
  lemma ParseIffMatches(text: string, id: string, behavior: Behavior)
    ensures ParseVerdict(text) == Some((id, behavior)) <==> Matches(text, id, behavior)
  {
    hide ParseVerdict, Factors;
    if ParseVerdict(text) == Some((id, behavior)) {
      ParseMatches(text);
    }
    if Matches(text, id, behavior) {
      var lead, word, gap, letters, trail :| Factors(text, lead, word, gap, letters, trail, id, behavior);
      MatchParses(text, lead, word, gap, letters, trail, id, behavior);
    }
  }

  function YesAnswer(requestId: string): string { "yes " + requestId }

  function NoAnswer(requestId: string): string { "no " + requestId }

  function PromptText(toolName: string, description: string, inputPreview: string, requestId: string): string {
    "Claude wants to run *" + Mrkdwn.Escape(toolName) + "*: " + Mrkdwn.Escape(description)
    + "\n```" + Mrkdwn.Escape(inputPreview) + "```\nReply \"" + YesAnswer(requestId) + "\" or \""
    + NoAnswer(requestId) + "\" in this thread."
  }

  /** The answers the prompt quotes are read as Allow and Deny of that very request
      exactly for identifiers of the documented form. */
  lemma QuotedAnswers(id: string)
    ensures ParseVerdict(YesAnswer(id)) == Some((id, Allow)) <==> WellFormedId(id)
    ensures ParseVerdict(NoAnswer(id)) == Some((id, Deny)) <==> WellFormedId(id)
  {
    AnswerReads("yes", id, Allow);
    AnswerReads("no", id, Deny);
    assert YesAnswer(id) == "yes" + (" " + id) && NoAnswer(id) == "no" + (" " + id);
  }

  lemma AnswerReads(word: string, id: string, behavior: Behavior)
    requires (word == "yes" && behavior == Allow) || (word == "no" && behavior == Deny)
    ensures ParseVerdict(word + (" " + id)) == Some((id, behavior)) <==> WellFormedId(id)
  {
    var text := word + (" " + id);
    if WellFormedId(id) {
      assert text == "" + (word + (" " + (id + "")));
      MatchParses(text, "", word, " ", id, "", id, behavior);
    }
    if ParseVerdict(text) == Some((id, behavior)) {
      ParseIffMatches(text, id, behavior);
    }
  }

  /** The prompt, in order: the tool, its description and the input, each as escaped
      character by character, and the two answers with the identifier as it came. */
  lemma PromptShows(toolName: string, description: string, inputPreview: string, requestId: string)
    ensures PromptText(toolName, description, inputPreview, requestId)
            == "Claude wants to run *" + Mrkdwn.OnePass(toolName) + "*: " + Mrkdwn.OnePass(description)
               + "\n```" + Mrkdwn.OnePass(inputPreview) + "```\n"
               + ("Reply \"yes " + requestId + "\" or \"no " + requestId + "\" in this thread.")
  {
    Mrkdwn.EscapeIsOnePass(toolName);
    Mrkdwn.EscapeIsOnePass(description);
    Mrkdwn.EscapeIsOnePass(inputPreview);
    hide Mrkdwn.Escape, Mrkdwn.OnePass;
    assert "```\nReply \"" == "```\n" + "Reply \"";
    assert "Reply \"" + YesAnswer(requestId) == "Reply \"yes " + requestId;
    assert "\" or \"" + NoAnswer(requestId) == "\" or \"no " + requestId;
  }

  predicate NoBrackets(s: string) { '<' !in s && '>' !in s }

  lemma NoBracketsConcat(s: string, t: string)
    ensures NoBrackets(s + t) <==> NoBrackets(s) && NoBrackets(t)
  {
    assert NoBrackets(s + t) ==> forall c :: c in s || c in t ==> c in s + t;
  }

  /** Escaping keeps brackets out of the prompt; the identifier goes in as it came. */
  lemma PromptBrackets(toolName: string, description: string, inputPreview: string, requestId: string)
    ensures NoBrackets(PromptText(toolName, description, inputPreview, requestId)) <==> NoBrackets(requestId)
  {
    hide NoBrackets, Mrkdwn.Escape;
    var (x, y, z) := (Mrkdwn.Escape(toolName), Mrkdwn.Escape(description), Mrkdwn.Escape(inputPreview));
    EscapedPlain(toolName);
    EscapedPlain(description);
    EscapedPlain(inputPreview);
    PromptWords();
    var s1 := "Claude wants to run *" + x;
    NoBracketsConcat("Claude wants to run *", x);
    NoBracketsConcat(s1, "*: ");
    NoBracketsConcat(s1 + "*: ", y);
    var s2 := s1 + "*: " + y;
    NoBracketsConcat(s2, "\n```");
    NoBracketsConcat(s2 + "\n```", z);
    var s3 := s2 + "\n```" + z;
    NoBracketsConcat(s3, "```\nReply \"");
    NoBracketsConcat("yes ", requestId);
    NoBracketsConcat("no ", requestId);
    var s4 := s3 + "```\nReply \"";
    NoBracketsConcat(s4, YesAnswer(requestId));
    NoBracketsConcat(s4 + YesAnswer(requestId), "\" or \"");
    var s5 := s4 + YesAnswer(requestId) + "\" or \"";
    NoBracketsConcat(s5, NoAnswer(requestId));
    NoBracketsConcat(s5 + NoAnswer(requestId), "\" in this thread.");
  }

  lemma EscapedPlain(s: string)
    ensures NoBrackets(Mrkdwn.Escape(s))
  {
    Mrkdwn.NoBrackets(s);
  }

  lemma PromptWords()
    ensures NoBrackets("Claude wants to run *") && NoBrackets("*: ") && NoBrackets("\n```")
    ensures NoBrackets("```\nReply \"") && NoBrackets("yes ") && NoBrackets("no ")
    ensures NoBrackets("\" or \"") && NoBrackets("\" in this thread.")
  {
    PromptOpening();
    PromptClosing();
    hide NoBrackets;
  }

  lemma PromptOpening()
    ensures NoBrackets("Claude wants to run *") && NoBrackets("*: ") && NoBrackets("\n```")
  {
  }

  lemma PromptClosing()
    ensures NoBrackets("```\nReply \"") && NoBrackets("yes ") && NoBrackets("no ")
    ensures NoBrackets("\" or \"") && NoBrackets("\" in this thread.")
  {
  }
}
