/** Extracting the token from an `Authorization` header in the bearer form of
    section 2.1 of RFC 6750, exactly as `sscanf($header, 'Bearer %s')` does:
    the literal `Bearer`, then any run of white space (possibly none), then a
    maximal run of non-white-space characters. Anything after that run is
    ignored. */
module Bearer {
  import opened Base

  predicate NoSpace(s: string) {
    forall i :: 0 <= i < |s| ==> !IsSpace(s[i])
  }

  /** The input with its leading white space removed (what a white-space
      directive of the scanf format consumes). */
  function SkipSpace(s: string): (r: string)
    ensures |r| <= |s| && r == s[|s| - |r|..]
    ensures r == [] || !IsSpace(r[0])
    ensures forall i :: 0 <= i < |s| - |r| ==> IsSpace(s[i])
  {
    if s != [] && IsSpace(s[0]) then SkipSpace(s[1..]) else s
  }

  /** The longest prefix without white space (what `%s` stores). */
  function TakeWord(s: string): (r: string)
    ensures |r| <= |s| && r == s[..|r|]
    ensures NoSpace(r)
    ensures |r| < |s| ==> IsSpace(s[|r|])
  {
    if s != [] && !IsSpace(s[0]) then [s[0]] + TakeWord(s[1..]) else []
  }

  const Prefix: string := "Bearer"

  /** `list($jwt) = sscanf($header, 'Bearer %s')`: `None` when the literal
      does not match or nothing follows it (PHP then leaves `$jwt` null). */
  function ExtractBearer(header: string): (t: Option<string>)
    ensures t.Some? ==> |t.value| > 0 && NoSpace(t.value)
    ensures t.Some? ==> |Prefix| <= |header| && header[..|Prefix|] == Prefix
  {
    if |header| < |Prefix| || header[..|Prefix|] != Prefix then None
    else
      var rest := SkipSpace(header[|Prefix|..]);
      if rest == [] then None else Some(TakeWord(rest))
  }

  lemma {:induction false} TakeWordOfWord(w: string, tail: string)
    requires NoSpace(w)
    requires tail == [] || IsSpace(tail[0])
    ensures TakeWord(w + tail) == w
  {
    if w != [] {
      assert (w + tail)[1..] == w[1..] + tail;
      TakeWordOfWord(w[1..], tail);
    } else {
      assert w + tail == tail;
    }
  }

  predicate AllSpace(s: string) {
    forall i :: 0 <= i < |s| ==> IsSpace(s[i])
  }

  lemma {:induction false} SkipSpaceOfSpaces(ws: string, rest: string)
    requires AllSpace(ws)
    requires rest == [] || !IsSpace(rest[0])
    ensures SkipSpace(ws + rest) == rest
  {
    if ws != [] {
      assert (ws + rest)[1..] == ws[1..] + rest;
      SkipSpaceOfSpaces(ws[1..], rest);
    } else {
      assert ws + rest == rest;
    }
  }

  /** Every header of the shape `Bearer` + white space + token + (white space
      and anything) yields exactly that token; the white space after `Bearer`
      may be empty, so `Bearerabc` yields `abc`. */
  lemma ExtractBearerOf(ws: string, token: string, tail: string)
    requires AllSpace(ws)
    requires |token| > 0 && NoSpace(token)
    requires tail == [] || IsSpace(tail[0])
    ensures ExtractBearer(Prefix + ws + token + tail) == Some(token)
  {
    var h := Prefix + ws + token + tail;
    assert h[..|Prefix|] == Prefix;
    assert h[|Prefix|..] == ws + (token + tail);
    SkipSpaceOfSpaces(ws, token + tail);
    TakeWordOfWord(token, tail);
  }

  /** The round trip the client relies on: the header `Bearer <token>` yields
      the token back. */
  lemma BearerRoundTrip(token: string)
    requires |token| > 0 && NoSpace(token)
    ensures ExtractBearer("Bearer " + token) == Some(token)
  {
    ExtractBearerOf(" ", token, []);
    assert Prefix + " " + token + [] == "Bearer " + token;
  }

  /** `header` is `Bearer`, white space `ws`, the token, and a tail that
      starts with white space. */
  predicate BearerShape(header: string, ws: string, token: string, tail: string) {
    AllSpace(ws) && (tail == [] || IsSpace(tail[0])) && header == Prefix + ws + token + tail
  }

  lemma SkipSpaceSplit(s: string) returns (ws: string)
    ensures AllSpace(ws) && s == ws + SkipSpace(s)
  {
    var r := SkipSpace(s);
    var n := |s| - |r|;
    ws := s[..n];
    assert r == s[n..];
    assert s == s[..n] + s[n..];
    assert forall i :: 0 <= i < n ==> ws[i] == s[i];
  }

  lemma TakeWordSplit(s: string) returns (tail: string)
    ensures (tail == [] || IsSpace(tail[0])) && s == TakeWord(s) + tail
  {
    tail := s[|TakeWord(s)|..];
  }

  /** Conversely, whatever is extracted came from a header of that shape. */
  lemma ExtractBearerShape(header: string) returns (ws: string, tail: string)
    ensures ExtractBearer(header).Some? ==> BearerShape(header, ws, ExtractBearer(header).value, tail)
  {
    ws, tail := "", "";
    if ExtractBearer(header).Some? {
      var after := header[|Prefix|..];
      var rest := SkipSpace(after);
      var token := TakeWord(rest);
      assert ExtractBearer(header) == Some(token);
      assert header == Prefix + after;
      ws := SkipSpaceSplit(after);
      tail := TakeWordSplit(rest);
      calc {
        header;
        Prefix + after;
        Prefix + (ws + (token + tail));
        { AppendAssoc(Prefix, ws, token, tail); }
        Prefix + ws + token + tail;
      }
    }
  }

  lemma AppendAssoc(a: string, b: string, c: string, d: string)
    ensures a + (b + (c + d)) == a + b + c + d
  {
  }

  /** A header that does not start with the case-sensitive literal `Bearer`,
      or has nothing but white space after it, yields nothing. */
  lemma NoBearerToken(header: string)
    requires |header| < |Prefix| || header[..|Prefix|] != Prefix
             || forall i :: |Prefix| <= i < |header| ==> IsSpace(header[i])
    ensures ExtractBearer(header).None?
  {
  }
}
