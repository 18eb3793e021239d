/** `percent_encode` and `authorize_url` of `auth/oidc.rs`. Values are UTF-8 byte
    strings; everything written is ASCII. */
module PercentEncoding {
  import opened Wrappers
  import opened Text

  type Byte = b: int | 0 <= b < 256

  /** Section 2.3 of RFC 3986. */
  predicate Unreserved(c: char) {
    'A' <= c <= 'Z' || 'a' <= c <= 'z' || '0' <= c <= '9' || c == '-' || c == '.' || c == '_' || c == '~'
  }

  const HEX: string := "0123456789ABCDEF"

  function EncodeByte(b: Byte): (s: string)
    ensures |s| > 0
  {
    if b < 128 && Unreserved(b as char) then [b as char] else ['%', HEX[b / 16], HEX[b % 16]]
  }

  function Encoded(bytes: seq<Byte>): string {
    if bytes == [] then "" else EncodeByte(bytes[0]) + Encoded(bytes[1..])
  }

  lemma {:induction false} EncodedSnoc(bytes: seq<Byte>, b: Byte)
    ensures Encoded(bytes + [b]) == Encoded(bytes) + EncodeByte(b)
  {
    if bytes == [] {
      assert Encoded([b]) == EncodeByte(b) + Encoded([]);
    } else {
      assert (bytes + [b])[1..] == bytes[1..] + [b];
      EncodedSnoc(bytes[1..], b);
    }
  }

  method PercentEncode(bytes: seq<Byte>) returns (out: string)
    ensures out == Encoded(bytes)
  {
    out := "";
    for i := 0 to |bytes|
      invariant out == Encoded(bytes[..i])
    {
      assert bytes[..i + 1] == bytes[..i] + [bytes[i]];
      EncodedSnoc(bytes[..i], bytes[i]);
      var b := bytes[i];
      if b < 128 && Unreserved(b as char) {
        out := out + [b as char];
      } else {
        out := out + ['%', HEX[b / 16], HEX[b % 16]];
      }
    }
    assert bytes[..|bytes|] == bytes;
  }

  /** A hexadecimal digit of section 2.1 of RFC 3986, either case. */
  function HexValue(c: char): (v: Option<int>)
    ensures v.Some? ==> 0 <= v.value < 16
  {
    if '0' <= c <= '9' then Some(c as int - '0' as int)
    else if 'A' <= c <= 'F' then Some(c as int - 'A' as int + 10)
    else if 'a' <= c <= 'f' then Some(c as int - 'a' as int + 10)
    else None
  }

  /** A decoder for percent-encoded ASCII text. */
  function Decode(s: string): (r: Option<seq<Byte>>)
    decreases |s|
  {
    if s == "" then Some([])
    else if s[0] == '%' then
      if |s| < 3 || HexValue(s[1]).None? || HexValue(s[2]).None? then None
      else
        var rest := Decode(s[3..]);
        if rest.None? then None
        else Some([16 * HexValue(s[1]).value + HexValue(s[2]).value] + rest.value)
    else if s[0] as int >= 128 then None
    else
      var rest := Decode(s[1..]);
      if rest.None? then None else Some([s[0] as int] + rest.value)
  }

  lemma HexDigit(n: int)
    requires 0 <= n < 16
    ensures HexValue(HEX[n]) == Some(n) && HEX[n] != '&' && HEX[n] != '=' && HEX[n] != '?'
  {
  }

  lemma DecodeByte(b: Byte, rest: string)
    ensures Decode(EncodeByte(b) + rest) ==
              if Decode(rest).None? then None else Some([b] + Decode(rest).value)
  {
    HexDigit(b / 16);
    HexDigit(b % 16);
    var s := EncodeByte(b) + rest;
    assert s[|EncodeByte(b)|..] == rest;
  }

  /** Percent-decoding recovers every byte string. */
  lemma {:induction false} DecodeEncoded(bytes: seq<Byte>)
    ensures Decode(Encoded(bytes)) == Some(bytes)
  {
    if bytes != [] {
      DecodeEncoded(bytes[1..]);
      DecodeByte(bytes[0], Encoded(bytes[1..]));
      assert bytes == [bytes[0]] + bytes[1..];
    }
  }

  predicate UpperHex(c: char) { '0' <= c <= '9' || 'A' <= c <= 'F' }

  /** Nothing but unreserved characters and `%XX` triplets in upper-case hexadecimal. */
  predicate WellEncoded(s: string)
    decreases |s|
  {
    s == ""
    || (Unreserved(s[0]) && WellEncoded(s[1..]))
    || (|s| >= 3 && s[0] == '%' && UpperHex(s[1]) && UpperHex(s[2]) && WellEncoded(s[3..]))
  }

  lemma {:induction false} EncodedWellFormed(bytes: seq<Byte>)
    ensures WellEncoded(Encoded(bytes))
  {
    if bytes != [] {
      EncodedWellFormed(bytes[1..]);
      var s := Encoded(bytes);
      assert s[|EncodeByte(bytes[0])|..] == Encoded(bytes[1..]);
    }
  }

  lemma {:induction false} WellEncodedPlain(s: string)
    requires WellEncoded(s)
    ensures '&' !in s && '=' !in s && '?' !in s
    decreases |s|
  {
    if s != "" {
      if Unreserved(s[0]) && WellEncoded(s[1..]) {
        WellEncodedPlain(s[1..]);
      } else {
        WellEncodedPlain(s[3..]);
        assert s == s[..3] + s[3..];
      }
    }
  }

  const BASE: string := "https://slack.com/openid/connect/authorize"

  /** The format string, parameter by parameter. */
  function AuthorizeUrl(clientId: seq<Byte>, redirectUri: seq<Byte>, state: seq<Byte>, nonce: seq<Byte>): string {
    BASE + "?"
    + ("response_type" + "=" + "code" + "&"
       + ("scope" + "=" + "openid%20profile" + "&"
          + ("client_id" + "=" + Encoded(clientId) + "&"
             + ("state" + "=" + Encoded(state) + "&"
                + ("nonce" + "=" + Encoded(nonce) + "&"
                   + ("redirect_uri" + "=" + Encoded(redirectUri)))))))
  }

  /** `str::split`. */
  function Split(s: string, c: char): (parts: seq<string>)
    ensures |parts| > 0
    decreases |s|
  {
    var cut := SplitOnce(s, c);
    if cut.None? then [s] else [cut.value.0] + Split(cut.value.1, c)
  }

  /** One `name=value` of a query, the value percent-decoded. */
  function Parameter(part: string): Option<(string, seq<Byte>)> {
    var cut := SplitOnce(part, '=');
    if cut.None? || Decode(cut.value.1).None? then None
    else Some((cut.value.0, Decode(cut.value.1).value))
  }

  function Parameters(parts: seq<string>): seq<Option<(string, seq<Byte>)>> {
    if parts == [] then [] else [Parameter(parts[0])] + Parameters(parts[1..])
  }

  /** The parameters a server reads from a URL: after `?`, split at `&` and `=`. */
  function Query(url: string): seq<Option<(string, seq<Byte>)>> {
    var cut := SplitOnce(url, '?');
    if cut.None? then [] else Parameters(Split(cut.value.1, '&'))
  }

  lemma {:induction false} SplitOnceAt(a: string, c: char, b: string)
    requires c !in a
    ensures SplitOnce(a + [c] + b, c) == Some((a, b))
  {
    var s := a + [c] + b;
    if a == "" {
      assert s[1..] == b;
    } else {
      assert s[1..] == a[1..] + [c] + b;
      SplitOnceAt(a[1..], c, b);
      assert a == [a[0]] + a[1..];
    }
  }

  lemma SplitNone(a: string, c: char)
    requires c !in a
    ensures SplitOnce(a, c).None?
  {
  }

  lemma SplitCons(a: string, c: char, b: string)
    requires c !in a
    ensures Split(a + [c] + b, c) == [a] + Split(b, c)
  {
    SplitOnceAt(a, c, b);
  }

  lemma ParameterOf(name: string, value: string, bytes: seq<Byte>)
    requires '=' !in name && Decode(value) == Some(bytes)
    ensures Parameter(name + "=" + value) == Some((name, bytes))
  {
    SplitOnceAt(name, '=', value);
  }

  function Ascii(s: string): (b: seq<Byte>)
    requires forall i :: 0 <= i < |s| ==> s[i] as int < 128
    ensures |b| == |s| && forall i :: 0 <= i < |s| ==> b[i] == s[i] as int
  {
    seq(|s|, i requires 0 <= i < |s| => s[i] as int)
  }

  lemma {:induction false} DecodePlain(s: string)
    requires forall i :: 0 <= i < |s| ==> s[i] as int < 128 && s[i] != '%'
    ensures Decode(s) == Some(Ascii(s))
  {
    if s != "" {
      DecodePlain(s[1..]);
      assert Ascii(s) == [s[0] as int] + Ascii(s[1..]);
    }
  }

  lemma DecodeSpace(rest: string)
    requires Decode(rest).Some?
    ensures Decode("%20" + rest) == Some([32] + Decode(rest).value)
  {
    var s := "%20" + rest;
    assert s[3..] == rest;
  }

  lemma DecodeScope()
    ensures Decode("openid%20profile") == Some(Ascii("openid profile"))
  {
    hide Decode, Ascii;
    DecodePlain("profile");
    DecodeSpace("profile");
    DecodePlainThen("openid", "%20" + "profile");
    assert "openid%20profile" == "openid" + ("%20" + "profile");
    AsciiScope();
  }

  lemma AsciiScope()
    ensures Ascii("openid profile") == Ascii("openid") + ([32] + Ascii("profile"))
  {
  }

  lemma {:induction false} DecodePlainThen(s: string, t: string)
    requires forall i :: 0 <= i < |s| ==> s[i] as int < 128 && s[i] != '%'
    requires Decode(t).Some?
    ensures Decode(s + t) == Some(Ascii(s) + Decode(t).value)
  {
    if s == "" {
      assert s + t == t && Ascii(s) + Decode(t).value == Decode(t).value;
    } else {
      assert (s + t)[1..] == s[1..] + t;
      DecodePlainThen(s[1..], t);
      assert Ascii(s) == [s[0] as int] + Ascii(s[1..]);
      assert (s + t)[0] == s[0] && |s + t| > 0;
      assert Ascii(s) + Decode(t).value == [s[0] as int] + (Ascii(s[1..]) + Decode(t).value);
    }
  }

  ghost function SixParameters(clientId: seq<Byte>, redirectUri: seq<Byte>, state: seq<Byte>, nonce: seq<Byte>)
    : seq<Option<(string, seq<Byte>)>>
  {
    [Some(("response_type", Ascii("code"))), Some(("scope", Ascii("openid profile"))),
     Some(("client_id", clientId)), Some(("state", state)), Some(("nonce", nonce)),
     Some(("redirect_uri", redirectUri))]
  }

  lemma PlainValue(name: string, bytes: seq<Byte>)
    requires '&' !in name && '=' !in name
    ensures '&' !in name + "=" + Encoded(bytes)
    ensures Parameter(name + "=" + Encoded(bytes)) == Some((name, bytes))
  {
    EncodedWellFormed(bytes);
    WellEncodedPlain(Encoded(bytes));
    DecodeEncoded(bytes);
    ParameterOf(name, Encoded(bytes), bytes);
  }

  /** Whatever the four values contain, a server that splits the query at `&` and `=`
      and then decodes sees exactly the six parameters that were meant. */
  lemma AuthorizeUrlParameters(clientId: seq<Byte>, redirectUri: seq<Byte>, state: seq<Byte>, nonce: seq<Byte>)
    ensures Query(AuthorizeUrl(clientId, redirectUri, state, nonce))
            == SixParameters(clientId, redirectUri, state, nonce)
    ensures "https://slack.com/openid/connect/authorize?" <= AuthorizeUrl(clientId, redirectUri, state, nonce)
  {
    hide Encoded, Decode, Split, SplitOnce, Parameter, Parameters, Ascii;
    var p1, p2 := "response_type" + "=" + "code", "scope" + "=" + "openid%20profile";
    var p3, p4 := "client_id" + "=" + Encoded(clientId), "state" + "=" + Encoded(state);
    var p5, p6 := "nonce" + "=" + Encoded(nonce), "redirect_uri" + "=" + Encoded(redirectUri);
    var parts := [p1, p2, p3, p4, p5, p6];
    FixedParameters();
    PlainValue("client_id", clientId);
    PlainValue("state", state);
    PlainValue("nonce", nonce);
    PlainValue("redirect_uri", redirectUri);
    SplitAll(p1, p2, p3, p4, p5, p6);
    NoQuestionMark();
    SplitOnceAt(BASE, '?', p1 + "&" + (p2 + "&" + (p3 + "&" + (p4 + "&" + (p5 + "&" + p6)))));
    ParametersOf(parts);
    var six := SixParameters(clientId, redirectUri, state, nonce);
    assert forall i :: 0 <= i < 6 ==> Parameter(parts[i]) == six[i];
    assert Parameters(parts) == six;
  }

  lemma FixedParameters()
    ensures '&' !in "response_type" + "=" + "code" && '&' !in "scope" + "=" + "openid%20profile"
    ensures Parameter("response_type" + "=" + "code") == Some(("response_type", Ascii("code")))
    ensures Parameter("scope" + "=" + "openid%20profile") == Some(("scope", Ascii("openid profile")))
  {
    hide Decode, Ascii, Parameter;
    DecodePlain("code");
    ParameterOf("response_type", "code", Ascii("code"));
    DecodeScope();
    ParameterOf("scope", "openid%20profile", Ascii("openid profile"));
  }

  lemma NoQuestionMark()
    ensures '?' !in BASE
  {
  }

  lemma SplitThree(p1: string, p2: string, p3: string, rest: string)
    requires '&' !in p1 && '&' !in p2 && '&' !in p3
    ensures Split(p1 + "&" + (p2 + "&" + (p3 + "&" + rest)), '&') == [p1, p2, p3] + Split(rest, '&')
  {
    hide Split;
    SplitCons(p3, '&', rest);
    SplitCons(p2, '&', p3 + "&" + rest);
    SplitCons(p1, '&', p2 + "&" + (p3 + "&" + rest));
  }

  lemma SplitAll(p1: string, p2: string, p3: string, p4: string, p5: string, p6: string)
    requires '&' !in p1 && '&' !in p2 && '&' !in p3 && '&' !in p4 && '&' !in p5 && '&' !in p6
    ensures Split(p1 + "&" + (p2 + "&" + (p3 + "&" + (p4 + "&" + (p5 + "&" + p6)))), '&')
            == [p1, p2, p3, p4, p5, p6]
  {
    assert Split(p6, '&') == [p6] by {
      SplitNone(p6, '&');
    }
    hide Split;
    SplitCons(p5, '&', p6);
    SplitCons(p4, '&', p5 + "&" + p6);
    SplitThree(p1, p2, p3, p4 + "&" + (p5 + "&" + p6));
  }

  lemma {:induction false} ParametersOf(parts: seq<string>)
    ensures |Parameters(parts)| == |parts|
    ensures forall i :: 0 <= i < |parts| ==> Parameters(parts)[i] == Parameter(parts[i])
  {
    if parts != [] {
      ParametersOf(parts[1..]);
    }
  }
}
