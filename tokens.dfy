/** The mock JWT of the frontend's in-memory backend
    (mock/in-memory-data.service.ts, `generateMockToken` and `decodeToken`):
    three base64 pieces joined by dots, the middle one holding the JSON
    payload. `btoa`, `atob`, `JSON.stringify` and `JSON.parse` are abstract
    operations; `btoa` and `atob` may throw, and so may `JSON.parse`. Time
    is `Date.now()`, in milliseconds, passed in as `now`. */
module Tokens {
  import opened Wrappers
  import opened Text

  /** `TokenPayload`; a payload read back from JSON may lack `exp`. */
  datatype TokenPayload = TokenPayload(userId: int, username: string, tenantId: int, iat: int, exp: Option<int>)

  datatype TokenCodec = TokenCodec(
    btoa: string -> Option<string>,
    atob: string -> Option<string>,
    stringify: TokenPayload -> string,
    parse: string -> Option<TokenPayload>)

  /** What the browser's functions guarantee: base64 text has no '.', `atob`
      undoes `btoa`, and `JSON.parse` undoes `JSON.stringify`. */
  ghost predicate WellBehaved(c: TokenCodec) {
    && (forall s :: c.btoa(s).Some? ==> '.' !in c.btoa(s).value && c.atob(c.btoa(s).value) == Some(s))
    && (forall p :: c.parse(c.stringify(p)) == Some(p))
  }

  /** `JSON.stringify({ alg: 'HS256', typ: 'JWT' })`. */
  const HeaderJson: string := "{\"alg\":\"HS256\",\"typ\":\"JWT\"}"

  /** One day in seconds. */
  const TokenLifetime: int := 24 * 60 * 60

  /** `Math.floor(Date.now() / 1000)`. */
  function Seconds(now: int): int {
    now / 1000
  }

  /** The payload of a token issued at `now`; both instants come from one
      reading of the clock. */
  function MockPayload(userId: int, username: string, tenantId: int, now: int): (p: TokenPayload)
    ensures p.exp == Some(p.iat + 86400) && p.iat == Seconds(now)
  {
    TokenPayload(userId, username, tenantId, Seconds(now), Some(Seconds(now) + TokenLifetime))
  }

  /** `generateMockToken`; `None` when a `btoa` throws. */
  function GenerateMockToken(userId: int, username: string, tenantId: int, now: int, c: TokenCodec): (t: Option<string>)
    ensures t.Some? <==>
              && c.btoa(HeaderJson).Some?
              && c.btoa(c.stringify(MockPayload(userId, username, tenantId, now))).Some?
              && c.btoa("mock-signature-" + IntToString(userId)).Some?
    ensures t.Some? ==>
              t.value == c.btoa(HeaderJson).value + "." +
                         c.btoa(c.stringify(MockPayload(userId, username, tenantId, now))).value + "." +
                         c.btoa("mock-signature-" + IntToString(userId)).value
  {
    var header := c.btoa(HeaderJson);
    var payload := c.btoa(c.stringify(MockPayload(userId, username, tenantId, now)));
    var signature := c.btoa("mock-signature-" + IntToString(userId));
    if header.None? || payload.None? || signature.None? then None
    else Some(header.value + "." + payload.value + "." + signature.value)
  }

  /** Whether `payload.exp && payload.exp < now` rejects the payload: an
      absent or zero `exp` never expires. */
  predicate Expired(p: TokenPayload, now: int) {
    p.exp.Some? && p.exp.value != 0 && p.exp.value < Seconds(now)
  }

  /** A payload that has expired stays expired as the clock moves on. */
  lemma ExpiredStaysExpired(p: TokenPayload, now: int, later: int)
    requires now <= later && Expired(p, now)
    ensures Expired(p, later)
  {
  }

  /** `decodeToken`: exactly three dot-separated parts, a middle part that
      decodes and parses, and no expiry in the past; otherwise null. */
  function DecodeToken(token: string, now: int, c: TokenCodec): (r: Option<TokenPayload>)
    ensures r.Some? ==> !Expired(r.value, now)
    ensures r.Some? <==>
              && |Split(token, '.')| == 3
              && c.atob(Split(token, '.')[1]).Some?
              && c.parse(c.atob(Split(token, '.')[1]).value).Some?
              && !Expired(c.parse(c.atob(Split(token, '.')[1]).value).value, now)
  {
    var parts := Split(token, '.');
    if |parts| != 3 then None
    else
      match c.atob(parts[1])
      case None => None
      case Some(json) =>
        match c.parse(json)
        case None => None
        case Some(payload) => if Expired(payload, now) then None else Some(payload)
  }

  /** A generated token has three parts and its middle part is its payload. */
  lemma GeneratedTokenParts(userId: int, username: string, tenantId: int, now: int, c: TokenCodec)
    requires WellBehaved(c)
    requires GenerateMockToken(userId, username, tenantId, now, c).Some?
    ensures var t := GenerateMockToken(userId, username, tenantId, now, c).value;
            && |Split(t, '.')| == 3
            && c.atob(Split(t, '.')[1]) == Some(c.stringify(MockPayload(userId, username, tenantId, now)))
  {
    var h := c.btoa(HeaderJson).value;
    var p := c.btoa(c.stringify(MockPayload(userId, username, tenantId, now))).value;
    var s := c.btoa("mock-signature-" + IntToString(userId)).value;
    var t := GenerateMockToken(userId, username, tenantId, now, c).value;
    assert t == h + ['.'] + p + ['.'] + s;
    assert '.' !in h && '.' !in p && '.' !in s;
    SplitThreeParts(h, p, s, '.');
    SplitWithoutSeparator(p, '.');
    SplitWithoutSeparator(s, '.');
    assert Split(t, '.') == [h, p, s];
  }

  /** A generated token decodes to its payload for a whole day: until the
      second it expires, that second included. */
  lemma GeneratedTokenDecodes(userId: int, username: string, tenantId: int, issued: int, now: int, c: TokenCodec)
    requires WellBehaved(c)
    requires GenerateMockToken(userId, username, tenantId, issued, c).Some?
    requires Seconds(now) <= Seconds(issued) + TokenLifetime
    ensures DecodeToken(GenerateMockToken(userId, username, tenantId, issued, c).value, now, c)
         == Some(MockPayload(userId, username, tenantId, issued))
  {
    GeneratedTokenParts(userId, username, tenantId, issued, c);
  }

  /** After a day (and a second) it is refused. */
  lemma GeneratedTokenExpires(userId: int, username: string, tenantId: int, issued: int, now: int, c: TokenCodec)
    requires WellBehaved(c)
    requires GenerateMockToken(userId, username, tenantId, issued, c).Some?
    requires Seconds(now) > Seconds(issued) + TokenLifetime
    requires Seconds(issued) + TokenLifetime != 0
    ensures DecodeToken(GenerateMockToken(userId, username, tenantId, issued, c).value, now, c) == None
  {
    GeneratedTokenParts(userId, username, tenantId, issued, c);
  }

  /** A token with two, or four, parts is refused whatever it holds. */
  lemma WrongPartCountRefused(token: string, now: int, c: TokenCodec)
    requires |Split(token, '.')| != 3
    ensures DecodeToken(token, now, c) == None
  {
  }
}
