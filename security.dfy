/** The bearer-token check that guards every protected endpoint. The secret is
    read once from the environment when the service starts; a request passes
    when its `Authorization` header is `Bearer <token>` and the token equals
    that secret. */
module Security {
  import opened Wrappers
  import opened PyStr

  const Unauthorized: int := 401
  const BearerPrefix := "Bearer "

  const MissingSecretMessage := "FATAL ERROR: APP_SECRET_KEY environment variable is not set!"
  const MissingHeaderMessage := "Authorization header is missing."
  const BadFormatMessage := "Invalid Authorization header format. Must be 'Bearer <token>'."
  const BadKeyMessage := "Invalid API Key provided."

  /** Start-up: a missing or empty `APP_SECRET_KEY` stops the service;
      otherwise it is the secret every request is checked against. */
  function ConfigureSecret(env: Option<string>): (r: Result<string, string>)
    ensures r.Success? <==> env.Some? && env.value != ""
    ensures r.Success? ==> r.value == env.value && r.value != ""
    ensures r.Failure? ==> r.error == MissingSecretMessage
  {
    if env.None? || env.value == "" then Failure(MissingSecretMessage) else Success(env.value)
  }

  /** What the dependency does with a request: hand back the token, or raise
      an HTTP error with a status and a detail. */
  datatype AuthOutcome = Authorized(token: string) | Rejected(status: int, detail: string)

  /** The token as the header layout defines it: what follows `"Bearer "`, up
      to the next space or the end. */
  function TokenAfterPrefix(header: string): string
    requires StartsWith(header, BearerPrefix)
  {
    var rest := header[|BearerPrefix|..];
    rest[..IndexOf(rest, ' ')]
  }

  /** `get_api_key` against a secret that start-up has made non-empty. An
      absent header and an empty one are alike (`not api_key`). */
  function GetApiKey(header: Option<string>, secret: string): (r: AuthOutcome)
    requires secret != ""
    ensures r.Rejected? ==> r.status == Unauthorized
    ensures header.None? || header.value == "" ==> r == Rejected(Unauthorized, MissingHeaderMessage)
    ensures header.Some? && header.value != "" && !StartsWith(header.value, BearerPrefix) ==>
              r == Rejected(Unauthorized, BadFormatMessage)
    ensures r.Authorized? ==> r.token == secret
  {
    if header.None? || header.value == "" then Rejected(Unauthorized, MissingHeaderMessage)
    else if !StartsWith(header.value, BearerPrefix) then Rejected(Unauthorized, BadFormatMessage)
    else
      var h := header.value;
      SplitPrefixed(h);
      var token := Split(h, ' ')[1];
      if token == secret then Authorized(token) else Rejected(Unauthorized, BadKeyMessage)
  }

  /** After the prefix check `split(" ")` has at least two pieces, and the
      second is the token as the layout defines it: `[1]` never fails. */
  lemma SplitPrefixed(h: string)
    requires StartsWith(h, BearerPrefix)
    ensures |Split(h, ' ')| >= 2
    ensures Split(h, ' ')[1] == TokenAfterPrefix(h)
  {
    var rest := h[|BearerPrefix|..];
    assert h == "Bearer" + [' '] + rest by {
      assert h[..|BearerPrefix|] == BearerPrefix;
    }
    SplitAfterHead("Bearer", ' ', rest);
    SplitFirst(rest, ' ');
  }

  /** A header is accepted exactly when it has the prefix and the segment
      between the first and the second space is the secret; the result is
      that token. */
  lemma AcceptedIff(h: string, secret: string)
    requires secret != ""
    ensures GetApiKey(Some(h), secret).Authorized? <==>
              StartsWith(h, BearerPrefix) && TokenAfterPrefix(h) == secret
    ensures GetApiKey(Some(h), secret).Authorized? ==> GetApiKey(Some(h), secret).token == TokenAfterPrefix(h)
  {
    if StartsWith(h, BearerPrefix) {
      SplitPrefixed(h);
    }
  }

  /** Anything after a second space is ignored: `"Bearer <secret> extra"` passes. */
  lemma TrailingSegmentsIgnored(secret: string, extra: string)
    requires secret != "" && forall k :: 0 <= k < |secret| ==> secret[k] != ' '
    ensures GetApiKey(Some(BearerPrefix + secret + " " + extra), secret) == Authorized(secret)
  {
    var h := BearerPrefix + secret + " " + extra;
    assert StartsWith(h, BearerPrefix) by { assert h[..|BearerPrefix|] == BearerPrefix; }
    SplitPrefixed(h);
    var rest := h[|BearerPrefix|..];
    assert rest == secret + [' '] + extra;
    IndexOfAfterHead(secret, ' ', extra);
    assert rest[..|secret|] == secret;
  }

  lemma {:induction false} IndexOfAfterHead(head: string, c: char, tail: string)
    requires forall k :: 0 <= k < |head| ==> head[k] != c
    ensures IndexOf(head + [c] + tail, c) == |head|
  {
    if head != [] {
      assert (head + [c] + tail)[1..] == head[1..] + [c] + tail;
      IndexOfAfterHead(head[1..], c, tail);
    }
  }

  /** The exact header `"Bearer <secret>"` passes for a secret without spaces. */
  lemma ExactHeaderAccepted(secret: string)
    requires secret != "" && forall k :: 0 <= k < |secret| ==> secret[k] != ' '
    ensures GetApiKey(Some(BearerPrefix + secret), secret) == Authorized(secret)
  {
    var h := BearerPrefix + secret;
    assert StartsWith(h, BearerPrefix) by { assert h[..|BearerPrefix|] == BearerPrefix; }
    SplitPrefixed(h);
    assert h[|BearerPrefix|..] == secret;
    assert secret[..|secret|] == secret;
  }

  /** Two spaces after `Bearer` give the empty token, which never equals the
      non-empty secret: `"Bearer  <secret>"` is rejected as an invalid key. */
  lemma DoubleSpaceRejected(rest: string, secret: string)
    requires secret != ""
    ensures GetApiKey(Some(BearerPrefix + " " + rest), secret) == Rejected(Unauthorized, BadKeyMessage)
  {
    var h := BearerPrefix + " " + rest;
    assert StartsWith(h, BearerPrefix) by { assert h[..|BearerPrefix|] == BearerPrefix; }
    SplitPrefixed(h);
    assert h[|BearerPrefix|..] == " " + rest;
  }

  /** A secret that contains a space can never be presented: the token stops
      at the first space. */
  lemma SpacedSecretNeverAccepted(h: string, secret: string)
    requires secret != "" && exists k :: 0 <= k < |secret| && secret[k] == ' '
    ensures GetApiKey(Some(h), secret).Rejected?
  {
    AcceptedIff(h, secret);
    if StartsWith(h, BearerPrefix) {
      var rest := h[|BearerPrefix|..];
      var t := TokenAfterPrefix(h);
      assert forall k :: 0 <= k < |t| ==> t[k] == rest[k];
    }
  }

  /** The prefix is case-sensitive: `bearer <secret>` is a format error. */
  lemma LowerCasePrefixRejected(secret: string)
    requires secret != ""
    ensures GetApiKey(Some("bearer " + secret), secret) == Rejected(Unauthorized, BadFormatMessage)
  {
    var h := "bearer " + secret;
    assert h[0] == 'b';
  }
}
