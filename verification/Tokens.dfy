/** Signed, timed link tokens: base64url of a JSON payload, a dot, base64url of a keyed hash. */
module Tokens {
  import opened Wrappers
  import opened Base64

  datatype Purpose = Confirm | ResetPassword | ChangeEmail | Invite | Preview

  function PurposeString(p: Purpose): string {
    match p
    case Confirm => "confirm"
    case ResetPassword => "reset"
    case ChangeEmail => "change_email"
    case Invite => "invite"
    case Preview => "preview"
  }

  lemma PurposesAreDistinct(p: Purpose, q: Purpose)
    ensures PurposeString(p) == PurposeString(q) ==> p == q
  {
    assert "confirm"[0] == 'c' && "change_email"[1] == 'h' && "confirm"[1] == 'o';
  }

  datatype Json = Str(text: string) | Int(number: int) | Other(raw: string)

  type Claims = map<string, Json>

  /** What the token code calls and does not define. `dump` fails on text that is not UTF-8;
      `parse` fails on bytes that are no JSON, and gives no claims for JSON that is no object. */
  datatype Env = Env(
    hmac: (seq<byte>, string) -> seq<byte>,
    dump: Claims -> Option<seq<byte>>,
    parse: seq<byte> -> Option<Claims>)

  ghost predicate Lossless(env: Env) {
    forall c :: env.dump(c).Some? ==> env.parse(env.dump(c).value) == Some(c)
  }

  const RESERVED: set<string> := {"sub", "purpose", "iat", "exp"}

  datatype Failure = NoSecret | Undumpable | Malformed | InvalidSignature | WrongPurpose | NoExp | Expired | NoSub

  datatype Verified = Verified(sub: string, extra: Claims)

  function Key(env: Env, secret: seq<byte>, p: Purpose): seq<byte> {
    env.hmac(secret, "tokens:" + PurposeString(p))
  }

  function Standard(sub: string, p: Purpose, now: int, ttl: int): Claims {
    map["sub" := Str(sub), "purpose" := Str(PurposeString(p)), "iat" := Int(now), "exp" := Int(now + ttl)]
  }

  /** The token over a payload text. */
  function Signed(env: Env, secret: seq<byte>, p: Purpose, payload: string): string {
    payload + "." + Encoded(env.hmac(Key(env, secret, p), payload))
  }

  /** Claims given by the caller win over the standard ones; `None` stands for JSON that is no
      object, which adds nothing. */
  function Payload(sub: string, p: Purpose, now: int, ttl: int, extra: Option<Claims>): Claims {
    Standard(sub, p, now, ttl) + if extra.Some? then extra.value else map[]
  }

  function Issued(env: Env, secret: seq<byte>, sub: string, p: Purpose, now: int, ttl: int, extra: Option<Claims>)
    : Result<string, Failure>
  {
    if secret == [] then Err(NoSecret)
    else match env.dump(Payload(sub, p, now, ttl, extra))
      case None => Err(Undumpable)
      case Some(raw) => Ok(Signed(env, secret, p, Encoded(raw)))
  }

  method Merge(base: Claims, extra: Claims) returns (payload: Claims)
    ensures payload == base + extra
  {
    payload := base;
    var todo := extra.Keys;
    assert extra - extra.Keys == map[] && base + map[] == base;
    while todo != {}
      invariant todo <= extra.Keys
      invariant payload == base + (extra - todo)
      decreases |todo|
    {
      var k :| k in todo;
      MergeOne(base, extra, todo, k);
      payload := payload[k := extra[k]];
      todo := todo - {k};
    }
    assert extra - {} == extra;
  }

  lemma MergeOne(base: Claims, extra: Claims, todo: set<string>, k: string)
    requires k in todo && todo <= extra.Keys
    ensures (base + (extra - todo))[k := extra[k]] == base + (extra - (todo - {k}))
  {}

  method Issue(env: Env, secret: seq<byte>, sub: string, p: Purpose, now: int, ttl: int, extra: Option<Claims>)
    returns (r: Result<string, Failure>)
    ensures r == Issued(env, secret, sub, p, now, ttl, extra)
  {
    if secret == [] { return Err(NoSecret); }
    var payload := Standard(sub, p, now, ttl);
    if extra.Some? { payload := Merge(payload, extra.value); }
    assert payload == Payload(sub, p, now, ttl, extra);
    var raw := env.dump(payload);
    if raw.None? { return Err(Undumpable); }
    var text := UrlEncode(raw.value);
    var signature := UrlEncode(env.hmac(Key(env, secret, p), text));
    return Ok(text + "." + signature);
  }

  function FirstDot(token: string): (at: Option<nat>)
    ensures at.None? <==> '.' !in token
    ensures at.Some? ==> at.value < |token| && token[at.value] == '.' && '.' !in token[..at.value]
  {
    if token == [] then None
    else if token[0] == '.' then Some(0)
    else match FirstDot(token[1..])
      case None => None
      case Some(i) => assert token[..i + 1] == [token[0]] + token[1..][..i]; Some(i + 1)
  }

  /** The checks on the claims of a token whose signature is right. */
  function Accept(c: Claims, p: Purpose, now: int): Result<Verified, Failure> {
    if "purpose" !in c || c["purpose"] != Str(PurposeString(p)) then Err(WrongPurpose)
    else if "exp" !in c || !c["exp"].Int? then Err(NoExp)
    else if c["exp"].number < now then Err(Expired)
    else if "sub" !in c || !c["sub"].Str? then Err(NoSub)
    else Ok(Verified(c["sub"].text, c - RESERVED))
  }

  function Checked(env: Env, secret: seq<byte>, token: string, p: Purpose, now: int): Result<Verified, Failure> {
    if secret == [] then Err(NoSecret)
    else match FirstDot(token)
      case None => Err(Malformed)
      case Some(dot) =>
        var payload, signature := token[..dot], Decoded(token[dot + 1..]);
        var raw := Decoded(payload);
        if signature.Err? || raw.Err? then Err(Malformed)
        else if env.hmac(Key(env, secret, p), payload) != signature.value then Err(InvalidSignature)
        else match env.parse(raw.value)
          case None => Err(Malformed)
          case Some(c) => Accept(c, p, now)
  }

  method Verify(env: Env, secret: seq<byte>, token: string, p: Purpose, now: int)
    returns (r: Result<Verified, Failure>)
    ensures r == Checked(env, secret, token, p, now)
  {
    if secret == [] { return Err(NoSecret); }
    var dot := FirstDot(token);
    if dot.None? { return Err(Malformed); }
    var payload := token[..dot.value];
    var signature := UrlDecode(token[dot.value + 1..]);
    if signature.Err? { return Err(Malformed); }
    var raw := UrlDecode(payload);
    if raw.Err? { return Err(Malformed); }
    if env.hmac(Key(env, secret, p), payload) != signature.value { return Err(InvalidSignature); }
    var claims := env.parse(raw.value);
    if claims.None? { return Err(Malformed); }
    var c := claims.value;
    if "purpose" !in c || c["purpose"] != Str(PurposeString(p)) { return Err(WrongPurpose); }
    if "exp" !in c || !c["exp"].Int? { return Err(NoExp); }
    if c["exp"].number < now { return Err(Expired); }
    if "sub" !in c || !c["sub"].Str? { return Err(NoSub); }
    var extra: Claims := map[];
    var todo := c.Keys;
    while todo != {}
      invariant todo <= c.Keys
      invariant extra.Keys == c.Keys - todo - RESERVED
      invariant forall k :: k in extra ==> extra[k] == c[k]
      decreases |todo|
    {
      var k :| k in todo;
      todo := todo - {k};
      if k !in RESERVED { extra := extra[k := c[k]]; }
    }
    assert extra == c - RESERVED;
    return Ok(Verified(c["sub"].text, extra));
  }

  // ---- What a token is for -------------------------------------------------------------------

  lemma {:induction false} FirstDotIs(t: string, n: nat)
    requires n < |t| && t[n] == '.' && '.' !in t[..n]
    ensures FirstDot(t) == Some(n)
  {
    if n > 0 {
      assert t[0] in t[..n] && t[..n][1..] == t[1..][..n - 1];
      FirstDotIs(t[1..], n - 1);
    }
  }

  /** The first dot is the one that the signer put there, whatever the payload and the hash. */
  lemma SplitsWhereItWasJoined(a: seq<byte>, b: seq<byte>)
    ensures var t := Encoded(a) + "." + Encoded(b);
      && FirstDot(t) == Some(|Encoded(a)|)
      && t[..|Encoded(a)|] == Encoded(a) && t[|Encoded(a)| + 1..] == Encoded(b)
  {
    var x, t := Encoded(a), Encoded(a) + "." + Encoded(b);
    RoundTrip(a);
    assert t[..|x|] == x;
    FirstDotIs(t, |x|);
  }

  /** A token issued under one secret for purpose p, verified under another for purpose q: the signature
      test compares two keyed hashes of one and the same payload text, each under the key that the secret
      and the purpose give, and then the claims put in are the claims read. */
  lemma IssuedIsRead(env: Env, secret: seq<byte>, other: seq<byte>, sub: string, p: Purpose, q: Purpose,
                     at: int, ttl: int, extra: Option<Claims>, now: int)
    requires Lossless(env) && other != []
    requires Issued(env, secret, sub, p, at, ttl, extra).Ok?
    ensures var token, c := Issued(env, secret, sub, p, at, ttl, extra).value, Payload(sub, p, at, ttl, extra);
      var text := Encoded(env.dump(c).value);
      var signature := env.hmac(env.hmac(secret, "tokens:" + PurposeString(p)), text);
      && token == text + "." + Encoded(signature)
      && Checked(env, other, token, q, now) ==
           if env.hmac(env.hmac(other, "tokens:" + PurposeString(q)), text) != signature
           then Err(InvalidSignature) else Accept(c, q, now)
  {
    var c := Payload(sub, p, at, ttl, extra);
    var raw := env.dump(c).value;
    var hash := env.hmac(Key(env, secret, p), Encoded(raw));
    SplitsWhereItWasJoined(raw, hash);
    RoundTrip(raw);
    RoundTrip(hash);
  }

  ghost predicate Injective(hmac: (seq<byte>, string) -> seq<byte>) {
    forall k, k', m, m' :: hmac(k, m) == hmac(k', m') ==> k == k' && m == m'
  }

  /** With a keyed hash that never collides, a token passes the signature test of exactly the secret and the
      purpose it was issued under. */
  lemma TheSecretAndThePurposeDecide(env: Env, secret: seq<byte>, other: seq<byte>, sub: string, p: Purpose, q: Purpose,
                                     at: int, ttl: int, extra: Option<Claims>, now: int)
    requires Lossless(env) && Injective(env.hmac) && other != []
    requires Issued(env, secret, sub, p, at, ttl, extra).Ok?
    ensures Checked(env, other, Issued(env, secret, sub, p, at, ttl, extra).value, q, now) != Err(InvalidSignature)
      <==> secret == other && p == q
  {
    var text := Encoded(env.dump(Payload(sub, p, at, ttl, extra)).value);
    hide Checked, Issued, PurposeString, Injective, Accept, Encoded, Payload;
    IssuedIsRead(env, secret, other, sub, p, q, at, ttl, extra, now);
    KeysAreApart(env.hmac, secret, other, p, q, text);
    AcceptTestsNoSignature(Payload(sub, p, at, ttl, extra), q, now);
  }

  lemma KeysAreApart(hmac: (seq<byte>, string) -> seq<byte>, secret: seq<byte>, other: seq<byte>, p: Purpose, q: Purpose, text: string)
    requires Injective(hmac)
    ensures hmac(hmac(other, "tokens:" + PurposeString(q)), text) == hmac(hmac(secret, "tokens:" + PurposeString(p)), text)
      <==> secret == other && p == q
  {
    PurposesAreDistinct(p, q);
    var a, b := "tokens:" + PurposeString(p), "tokens:" + PurposeString(q);
    assert a[7..] == PurposeString(p) && b[7..] == PurposeString(q);
    hide PurposeString;
  }

  lemma AcceptTestsNoSignature(c: Claims, p: Purpose, now: int)
    ensures Accept(c, p, now) != Err(InvalidSignature)
  {}

  /** What the claims of a token say when the extra ones leave the standard ones alone. */
  lemma StandardClaimsStay(sub: string, p: Purpose, at: int, ttl: int, extra: Claims)
    requires extra.Keys !! RESERVED
    ensures var c := Payload(sub, p, at, ttl, Some(extra));
      && c.Keys == extra.Keys + RESERVED && c - RESERVED == extra
      && c["sub"] == Str(sub) && c["purpose"] == Str(PurposeString(p)) && c["exp"] == Int(at + ttl) && c["iat"] == Int(at)
  {
    var c, base := Payload(sub, p, at, ttl, Some(extra)), Standard(sub, p, at, ttl);
    assert base.Keys == RESERVED;
    forall k | k in RESERVED ensures k in c && c[k] == base[k] {}
    assert "purpose" in RESERVED && "exp" in RESERVED && "sub" in RESERVED && "iat" in RESERVED;
  }

  /** Extra claims that leave the four standard ones alone: the token verifies for its purpose
      exactly until it expires, with the subject and the extra claims it was issued for. Extra
      claims that do not are never given back whole. */
  lemma IssuedTokenVerifiesUntilItExpires(env: Env, secret: seq<byte>, sub: string, p: Purpose,
                                          at: int, ttl: int, extra: Claims, now: int)
    requires Lossless(env)
    requires Issued(env, secret, sub, p, at, ttl, Some(extra)).Ok?
    ensures var r := Checked(env, secret, Issued(env, secret, sub, p, at, ttl, Some(extra)).value, p, now);
      && (r == Ok(Verified(sub, extra)) ==> extra.Keys !! RESERVED)
      && (extra.Keys !! RESERVED ==> r == if now <= at + ttl then Ok(Verified(sub, extra)) else Err(Expired))
  {
    IssuedIsRead(env, secret, secret, sub, p, p, at, ttl, Some(extra), now);
    if extra.Keys !! RESERVED { StandardClaimsStay(sub, p, at, ttl, extra); }
  }

  /** A token for one purpose is refused for every other, even if the keyed hashes collide. */
  lemma OtherPurposesAreRefused(env: Env, secret: seq<byte>, sub: string, p: Purpose, q: Purpose,
                                at: int, ttl: int, extra: Option<Claims>, now: int)
    requires Lossless(env) && p != q
    requires extra.Some? ==> "purpose" !in extra.value
    requires Issued(env, secret, sub, p, at, ttl, extra).Ok?
    ensures Checked(env, secret, Issued(env, secret, sub, p, at, ttl, extra).value, q, now)
      in {Err(InvalidSignature), Err(WrongPurpose)}
  {
    IssuedIsRead(env, secret, secret, sub, p, q, at, ttl, extra, now);
    PurposesAreDistinct(p, q);
  }

  lemma PurposeReplaced(sub: string, p: Purpose, q: Purpose, at: int, ttl: nat, text: Json)
    ensures Accept(Payload(sub, p, at, ttl, Some(map["purpose" := text])), q, at) ==
            if text == Str(PurposeString(q)) then Ok(Verified(sub, map[])) else Err(WrongPurpose)
  {
    assert Payload(sub, p, at, ttl, Some(map["purpose" := text])) ==
           map["sub" := Str(sub), "purpose" := text, "iat" := Int(at), "exp" := Int(at + ttl)];
    assert Payload(sub, p, at, ttl, Some(map["purpose" := text])) - RESERVED == map[];
  }

  /** That the extra claims leave the purpose alone is needed: they win over it, and then only
      the keys are left to tell two purposes apart. */
  lemma AnExtraPurposeWins(env: Env, secret: seq<byte>, sub: string, p: Purpose, q: Purpose, at: int, ttl: nat)
    requires Lossless(env) && Key(env, secret, p) == Key(env, secret, q)
    requires Issued(env, secret, sub, p, at, ttl, Some(map["purpose" := Str(PurposeString(q))])).Ok?
    ensures var extra := map["purpose" := Str(PurposeString(q))];
      var token := Issued(env, secret, sub, p, at, ttl, Some(extra)).value;
      && Checked(env, secret, token, q, at) == Ok(Verified(sub, map[]))
      && (p != q ==> Checked(env, secret, token, p, at) == Err(WrongPurpose))
  {
    var extra := map["purpose" := Str(PurposeString(q))];
    IssuedIsRead(env, secret, secret, sub, p, q, at, ttl, Some(extra), at);
    IssuedIsRead(env, secret, secret, sub, p, p, at, ttl, Some(extra), at);
    PurposesAreDistinct(p, q);
    PurposeReplaced(sub, p, q, at, ttl, Str(PurposeString(q)));
    PurposeReplaced(sub, p, p, at, ttl, Str(PurposeString(q)));
  }

  /** One token text for one payload: an accepted token without '=', CR and LF is exactly what
      signing its payload text gives. */
  lemma AcceptedTokensAreCanonical(env: Env, secret: seq<byte>, token: string, p: Purpose, now: int)
    requires Checked(env, secret, token, p, now).Ok?
    requires forall c :: c in token ==> !Ignored(c)
    ensures exists raw :: token == Signed(env, secret, p, Encoded(raw))
  {
    hide FirstDot, Decoded, Encoded, Accept;
    var dot := FirstDot(token).value;
    var payload, signature := token[..dot], token[dot + 1..];
    assert token == payload + "." + signature;
    forall c | c in payload + payload ensures !Ignored(c) { assert c in token; }
    forall c | c in signature + signature ensures !Ignored(c) { assert c in token; }
    DecodingIsInjective(payload, payload);
    DecodingIsInjective(signature, signature);
    assert token == Signed(env, secret, p, Encoded(Decoded(payload).value));
  }
}
