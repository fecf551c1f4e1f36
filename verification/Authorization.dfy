/** The pure checks and the bounded body reader of the Shared Auth adapter (src/auth.rs). */
module Authorization {
  import opened Results
  import opened Hex
  import opened Streams
  import opened Text

  const MAX_CREDENTIAL_BYTES: nat := 16 * 1024
  const MAX_RESPONSE_BYTES: nat := 1024 * 1024
  const USIZE_LIMIT: nat := 0x1_0000_0000_0000_0000
  const WRITE_SCOPE: string := "hhm:intake:write"

  datatype AuthError = Missing | Invalid | Forbidden | Unavailable

  datatype Introspection = Introspection(
    active: bool,
    sub: Option<string>,
    aud: Option<string>,
    scope: Option<string>)

  predicate IsAsciiWhitespace(c: char) {
    c == ' ' || c == '\t' || c == '\n' || c == '\r' || c as int == 0x0C
  }

  // ----- scope tokens -----------------------------------------------------------------------

  /** The length of the leading run of non-whitespace characters. */
  function WordLength(s: string): (n: nat)
    ensures n <= |s|
    ensures forall i :: 0 <= i < n ==> !IsAsciiWhitespace(s[i])
    ensures n < |s| ==> IsAsciiWhitespace(s[n])
  {
    if s == "" || IsAsciiWhitespace(s[0]) then 0 else 1 + WordLength(s[1..])
  }

  /** `split_ascii_whitespace`: the non-empty words, in order. */
  function Words(s: string): seq<string>
    decreases |s|
  {
    if s == "" then []
    else if IsAsciiWhitespace(s[0]) then Words(s[1..])
    else [s[..WordLength(s)]] + Words(s[WordLength(s)..])
  }

  predicate HasScope(introspection: Introspection, required: string) {
    introspection.active && introspection.scope.Some? && required in Words(introspection.scope.value)
  }

  /** Tab, line feed, form feed, carriage return or space. */
  predicate IsBlank(c: char) {
    c as int in {9, 10, 12, 13, 32}
  }

  predicate IsWord(word: string) {
    word != "" && forall i :: 0 <= i < |word| ==> !IsBlank(word[i])
  }

  /** `word` stands at `at`, delimited on each side by ASCII whitespace or an end of `s`. */
  predicate StandsAt(s: string, word: string, at: nat) {
    && at + |word| <= |s|
    && s[at..at + |word|] == word
    && (at == 0 || IsBlank(s[at - 1]))
    && (at + |word| == |s| || IsBlank(s[at + |word|]))
  }

  ghost predicate Stands(s: string, word: string) {
    exists at: nat :: StandsAt(s, word, at)
  }

  /** A word standing in the rest of `s` stands in `s`, if whitespace follows or precedes the cut. */
  lemma StandsAfter(s: string, word: string, n: nat, at: nat)
    requires IsWord(word) && n <= |s| && StandsAt(s[n..], word, at)
    requires n < |s| && n > 0 && (IsAsciiWhitespace(s[n - 1]) || IsAsciiWhitespace(s[n]))
    ensures StandsAt(s, word, at + n)
  {
  }

  lemma {:induction false} WordsStand(s: string, word: string)
    requires word in Words(s)
    ensures IsWord(word) && Stands(s, word)
    decreases |s|
  {
    var n := if IsAsciiWhitespace(s[0]) then 1 else WordLength(s);
    if !IsAsciiWhitespace(s[0]) && word == s[..n] {
      assert StandsAt(s, word, 0);
    } else {
      WordsStand(s[n..], word);
      var at: nat :| StandsAt(s[n..], word, at);
      StandsAfter(s, word, n, at);
    }
  }

  lemma {:induction false} StandingWordsAreFound(s: string, word: string, at: nat)
    requires IsWord(word) && StandsAt(s, word, at)
    ensures word in Words(s)
    decreases |s|
  {
    assert s[at] == word[0];
    if IsAsciiWhitespace(s[0]) {
      assert s[1..][at - 1..at - 1 + |word|] == s[at..at + |word|];
      StandingWordsAreFound(s[1..], word, at - 1);
    } else {
      var n := WordLength(s);
      if at == 0 {
        forall i | 0 <= i < |word| ensures !IsAsciiWhitespace(s[i]) {
          assert s[i] == s[0..|word|][i] == word[i];
        }
        assert n == |word|;
      } else {
        assert at - 1 >= n;
        assert s[n..][at - n..at - n + |word|] == s[at..at + |word|];
        StandingWordsAreFound(s[n..], word, at - n);
      }
    }
  }

  /** A scope is granted exactly when it stands in the scope text as a word of its own. */
  lemma HasScopeExactly(introspection: Introspection, required: string)
    requires IsWord(required)
    ensures HasScope(introspection, required) <==>
            introspection.active && introspection.scope.Some? && Stands(introspection.scope.value, required)
  {
    if introspection.scope.Some? {
      var s := introspection.scope.value;
      if required in Words(s) {
        WordsStand(s, required);
      }
      forall at: nat | StandsAt(s, required, at) ensures required in Words(s) {
        StandingWordsAreFound(s, required, at);
      }
    }
  }

  function AuthorizeIntrospection(introspection: Introspection, audience: string): Result<(), AuthError> {
    if !introspection.active || introspection.aud != Some(audience) then Err(Invalid)
    else if !HasScope(introspection, WRITE_SCOPE) then Err(Forbidden)
    else Ok(())
  }

  /**
   A token is authorized exactly when it is active, for this very audience, and carries the
   write scope as a whole word; a wrong audience is reported before a missing scope.
   */
  lemma AuthorizationExactly(introspection: Introspection, audience: string)
    ensures var r := AuthorizeIntrospection(introspection, audience);
            var known := introspection.active && introspection.aud == Some(audience);
            var granted := introspection.scope.Some? && Stands(introspection.scope.value, "hhm:intake:write");
            && (r.Ok? <==> known && granted)
            && (r == Err(Invalid) <==> !known)
            && (r == Err(Forbidden) <==> known && !granted)
  {
    HasScopeExactly(introspection, WRITE_SCOPE);
  }

  // ----- bearer token -----------------------------------------------------------------------

  /** `HeaderValue::to_str`: visible ASCII and tab only. */
  predicate IsHeaderText(raw: string) {
    forall i :: 0 <= i < |raw| ==> ' ' <= raw[i] <= '~' || raw[i] == '\t'
  }

  predicate EqualsIgnoreAsciiCase(left: string, right: string) {
    |left| == |right| && forall i :: 0 <= i < |left| ==> AsciiLower(left[i]) == AsciiLower(right[i])
  }

  /** The index of the first space, as `split_once(' ')` finds it. */
  function FirstSpace(raw: string): (at: Option<nat>)
    ensures at.None? <==> ' ' !in raw
    ensures at.Some? ==> at.value < |raw| && raw[at.value] == ' ' && ' ' !in raw[..at.value]
  {
    if raw == "" then None
    else if raw[0] == ' ' then Some(0)
    else
      match FirstSpace(raw[1..])
      case None => assert raw == [raw[0]] + raw[1..]; None
      case Some(at) => assert raw[..at + 1] == [raw[0]] + raw[1..][..at]; Some(at + 1)
  }

  predicate ContainsWhitespace(token: string) {
    exists i :: 0 <= i < |token| && IsAsciiWhitespace(token[i])
  }

  function BearerToken(header: Option<string>): Result<Option<string>, AuthError> {
    match header
    case None => Ok(None)
    case Some(raw) =>
      if !IsHeaderText(raw) then Err(Invalid)
      else
        match FirstSpace(raw)
        case None => Err(Invalid)
        case Some(at) =>
          var scheme, token := raw[..at], raw[at + 1..];
          if !EqualsIgnoreAsciiCase(scheme, "bearer") || token == "" || |token| > MAX_CREDENTIAL_BYTES
             || ContainsWhitespace(token)
          then Err(Invalid)
          else Ok(Some(token))
  }

  /** The six letters, each in either case. */
  predicate IsBearerScheme(scheme: string) {
    |scheme| == 6 && forall i :: 0 <= i < 6 ==> scheme[i] == "bearer"[i] || scheme[i] == "BEARER"[i]
  }

  lemma BearerInAnyCase(scheme: string)
    ensures EqualsIgnoreAsciiCase(scheme, "bearer") <==> IsBearerScheme(scheme)
  {
    if |scheme| == 6 {
      forall i | 0 <= i < 6 ensures AsciiLower(scheme[i]) == AsciiLower("bearer"[i])
                                    <==> scheme[i] == "bearer"[i] || scheme[i] == "BEARER"[i] {
        LetterInAnyCase(scheme[i], i);
      }
    }
  }

  lemma LetterInAnyCase(c: char, i: nat)
    requires i < 6
    ensures AsciiLower(c) == AsciiLower("bearer"[i]) <==> c == "bearer"[i] || c == "BEARER"[i]
  {
    assert "bearer" == ['b', 'e', 'a', 'r', 'e', 'r'] && "BEARER" == ['B', 'E', 'A', 'R', 'E', 'R'];
  }

  /** What a usable `Authorization` header looks like, said without parsing it. */
  predicate IsBearerHeader(raw: string, scheme: string, token: string) {
    && raw == scheme + " " + token
    && IsBearerScheme(scheme)
    && 0 < |token| <= 16384
    && forall i :: 0 <= i < |token| ==> '!' <= token[i] <= '~'
  }

  lemma SchemeHasNoSpace(scheme: string)
    requires EqualsIgnoreAsciiCase(scheme, "bearer")
    ensures forall i :: 0 <= i < |scheme| ==> '!' <= scheme[i] <= '~'
  {
  }

  lemma {:induction false} SpaceEndsScheme(scheme: string, token: string)
    requires ' ' !in scheme
    ensures FirstSpace(scheme + " " + token) == Some(|scheme|)
  {
    var raw := scheme + " " + token;
    if scheme != "" {
      assert raw[0] == scheme[0] && scheme[0] in scheme;
      assert raw[1..] == scheme[1..] + " " + token;
      SpaceEndsScheme(scheme[1..], token);
    }
  }

  /** Among header characters, the visible ones are those that are no whitespace. */
  lemma VisibleExactly(token: string)
    requires IsHeaderText(token)
    ensures !ContainsWhitespace(token) <==> forall i :: 0 <= i < |token| ==> '!' <= token[i] <= '~'
  {
  }

  lemma AcceptedHeaderIsBearer(raw: string, token: string)
    requires BearerToken(Some(raw)) == Ok(Some(token))
    ensures exists scheme :: IsBearerHeader(raw, scheme, token)
  {
    hide IsBearerScheme, EqualsIgnoreAsciiCase, ContainsWhitespace;
    var at := FirstSpace(raw).value;
    assert raw == raw[..at] + " " + raw[at + 1..];
    VisibleExactly(token);
    BearerInAnyCase(raw[..at]);
    assert IsBearerHeader(raw, raw[..at], token);
  }

  lemma BearerHeaderIsAccepted(raw: string, scheme: string, token: string)
    requires IsBearerHeader(raw, scheme, token)
    ensures BearerToken(Some(raw)) == Ok(Some(token))
  {
    hide IsBearerScheme, EqualsIgnoreAsciiCase, ContainsWhitespace;
    BearerInAnyCase(scheme);
    SchemeHasNoSpace(scheme);
    forall i | 0 <= i < |raw| ensures ' ' <= raw[i] <= '~' {
      if i > |scheme| {
        assert raw[i] == token[i - |scheme| - 1];
      }
    }
    SpaceEndsScheme(scheme, token);
    VisibleExactly(token);
    var at := FirstSpace(raw).value;
    assert raw[..at] == scheme && raw[at + 1..] == token;
  }

  /** The parser returns a token exactly for the headers of that shape, and it is that token. */
  lemma BearerTokenExactly(raw: string, token: string)
    ensures BearerToken(Some(raw)) == Ok(Some(token)) <==> exists scheme :: IsBearerHeader(raw, scheme, token)
  {
    hide BearerToken, IsBearerHeader;
    if BearerToken(Some(raw)) == Ok(Some(token)) {
      AcceptedHeaderIsBearer(raw, token);
    }
    forall scheme | IsBearerHeader(raw, scheme, token) ensures BearerToken(Some(raw)) == Ok(Some(token)) {
      BearerHeaderIsAccepted(raw, scheme, token);
    }
  }

  /** No header is no token; any other header than those is an invalid credential, never an anonymous caller. */
  lemma RefusedHeaderExactly(header: Option<string>)
    ensures BearerToken(header) == Ok(None) <==> header.None?
    ensures BearerToken(header) == Err(Invalid) <==>
              header.Some? && forall scheme, token :: !IsBearerHeader(header.value, scheme, token)
    ensures BearerToken(header).Err? ==> BearerToken(header).error == Invalid
  {
    if header.Some? {
      forall scheme, token | IsBearerHeader(header.value, scheme, token)
        ensures BearerToken(header) == Ok(Some(token))
      {
        BearerTokenExactly(header.value, token);
      }
      if BearerToken(header).Ok? && BearerToken(header).value.Some? {
        BearerTokenExactly(header.value, BearerToken(header).value.value);
      }
    }
  }

  /** An accepted header can be read in one way only. */
  lemma BearerDecompositionUnique(raw: string, scheme: string, token: string, scheme': string, token': string)
    requires IsBearerHeader(raw, scheme, token) && IsBearerHeader(raw, scheme', token')
    ensures scheme == scheme' && token == token'
  {
    BearerTokenExactly(raw, token);
    BearerTokenExactly(raw, token');
    assert |scheme| == |scheme'| == 6;
    assert scheme == raw[..6] == scheme';
  }

  // ----- bounded response body --------------------------------------------------------------

  /** `bounded_response`: the whole body when it is complete and within one MiB. */
  method BoundedResponse(chunks: seq<StreamItem>) returns (r: Result<seq<byte>, AuthError>)
    requires forall i :: 0 <= i < |chunks| && chunks[i].Some? ==> |chunks[i].value| < USIZE_LIMIT
    ensures r.Ok? <==> NoFailure(chunks) && |Body(chunks)| <= 1048576
    ensures r.Ok? ==> r.value == Body(chunks)
    ensures r == Err(Unavailable) <==> exists n: nat :: FailsAt(chunks, n, 1048576)
    ensures r.Err? ==> r.error in {Unavailable, Invalid}
  {
    var body: seq<byte> := [];
    for i := 0 to |chunks|
      invariant NoFailure(chunks[..i]) && body == Body(chunks[..i]) && |body| <= MAX_RESPONSE_BYTES
    {
      if chunks[i].None? {
        assert FailsAt(chunks, i, MAX_RESPONSE_BYTES);
        return Err(Unavailable);
      }
      var chunk := chunks[i].value;
      assert chunks[..i + 1][..i] == chunks[..i];
      assert Body(chunks[..i + 1]) == Body(chunks[..i]) + chunk;
      var nextLength := |body| + |chunk|;
      if nextLength >= USIZE_LIMIT || nextLength > MAX_RESPONSE_BYTES {
        OverflowIsFinal(chunks, i, MAX_RESPONSE_BYTES);
        return Err(Invalid);
      }
      body := body + chunk;
    }
    assert chunks[..|chunks|] == chunks;
    return Ok(body);
  }
}
