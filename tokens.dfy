/** Signed, expiring bearer tokens, modelled without cryptography: a token
  * records its claims, its issue and expiry instants (whole seconds) and the
  * key it was signed with, and it verifies exactly when that key is the
  * verifier's key and the current instant is before the expiry. Its wire
  * form is a dot-separated string that contains no space, so it travels in
  * an `Authorization: Bearer <token>` header unchanged. */
module Tokens {
  import opened Options
  import opened Text

  /** The claims a login signs: the main server's `{ id, email }` or the
    * auth router's `{ userId, email }`. */
  datatype Claims = IdClaims(id: nat, email: string) | UserIdClaims(userId: nat, email: string)

  /** What verification hands back: the claims with `iat` and `exp`. */
  datatype Payload = Payload(claims: Claims, iat: nat, exp: nat)

  /** A signed token; the signature is represented by the signing key. */
  datatype Token = Token(payload: Payload, key: string)

  /** `expiresIn: '1h'`, in seconds. */
  const OneHour: nat := 3600

  /** `process.env.JWT_SECRET || fallback`: an unset or empty setting falls back. */
  function KeyOrDefault(configured: Option<string>, fallback: string): (key: string)
    ensures configured.Some? && configured.value != "" ==> key == configured.value
    ensures configured.None? || configured.value == "" ==> key == fallback
  {
    if configured.Some? && configured.value != "" then configured.value else fallback
  }

  // ---- decimal numerals ----

  predicate IsDigit(c: char) { '0' as int <= c as int <= '9' as int }

  function DigitChar(d: nat): (c: char)
    requires d < 10
    ensures IsDigit(c) && c as int - '0' as int == d
  {
    ('0' as int + d) as char
  }

  /** The decimal numeral of `n`. */
  function NatToString(n: nat): (s: string)
    ensures |s| >= 1
    ensures forall i :: 0 <= i < |s| ==> IsDigit(s[i])
  {
    if n < 10 then [DigitChar(n)] else NatToString(n / 10) + [DigitChar(n % 10)]
  }

  function DigitValue(c: char): (d: nat)
    requires IsDigit(c)
    ensures d < 10
  {
    c as int - '0' as int
  }

  function DigitsValue(s: string): nat
    requires forall i :: 0 <= i < |s| ==> IsDigit(s[i])
  {
    if s == [] then 0
    else DigitsValue(s[..|s| - 1]) * 10 + DigitValue(s[|s| - 1])
  }

  /** Reads a decimal numeral; anything else is `None`. */
  function ParseNat(s: string): Option<nat>
  {
    if s != [] && forall i :: 0 <= i < |s| ==> IsDigit(s[i]) then Some(DigitsValue(s)) else None
  }

  lemma {:induction false} ParseNatToString(n: nat)
    ensures ParseNat(NatToString(n)) == Some(n)
  {
    if n >= 10 {
      var prefix := NatToString(n / 10);
      var s := prefix + [DigitChar(n % 10)];
      ParseNatToString(n / 10);
      assert s[..|prefix|] == prefix;
      assert DigitsValue(s) == (n / 10) * 10 + n % 10;
    } else {
      var s := [DigitChar(n)];
      assert s[..0] == [];
      assert DigitsValue(s) == n;
    }
  }

  // ---- escaping of free text (emails, keys) ----

  function EscapeChar(c: char): string
  {
    if c == '~' then "~~" else if c == '.' then "~d" else if c == ' ' then "~s" else [c]
  }

  /** Free text with every dot and space escaped away. */
  function Escape(s: string): (e: string)
    ensures '.' !in e && ' ' !in e
  {
    if s == [] then [] else EscapeChar(s[0]) + Escape(s[1..])
  }

  function Unescape(e: string): Option<string>
    decreases |e|
  {
    if e == [] then Some([])
    else if e[0] != '~' then
      match Unescape(e[1..])
      case Some(rest) => Some([e[0]] + rest)
      case None => None
    else if |e| < 2 then None
    else
      var c := e[1];
      if c != '~' && c != 'd' && c != 's' then None
      else
        match Unescape(e[2..])
        case Some(rest) => Some([if c == '~' then '~' else if c == 'd' then '.' else ' '] + rest)
        case None => None
  }

  lemma {:induction false} UnescapeEscape(s: string)
    ensures Unescape(Escape(s)) == Some(s)
  {
    if s != [] {
      UnescapeEscape(s[1..]);
      var e := Escape(s);
      assert e == EscapeChar(s[0]) + Escape(s[1..]);
      if s[0] == '~' || s[0] == '.' || s[0] == ' ' {
        assert e[2..] == Escape(s[1..]);
      } else {
        assert e[1..] == Escape(s[1..]);
      }
      assert s == [s[0]] + s[1..];
    }
  }

  // ---- wire form ----

  function ClaimsTag(c: Claims): string
  {
    match c
    case IdClaims(_, _) => "id"
    case UserIdClaims(_, _) => "userId"
  }

  function SubjectId(c: Claims): nat
  {
    match c
    case IdClaims(id, _) => id
    case UserIdClaims(userId, _) => userId
  }

  function Fields(t: Token): (fields: seq<string>)
    ensures |fields| == 6
    ensures forall i :: 0 <= i < 6 ==> '.' !in fields[i] && ' ' !in fields[i]
  {
    var fields := [ClaimsTag(t.payload.claims), NatToString(SubjectId(t.payload.claims)),
                   Escape(t.payload.claims.email), NatToString(t.payload.iat),
                   NatToString(t.payload.exp), Escape(t.key)];
    assert forall i :: 0 <= i < |fields[1]| ==> fields[1][i] != '.' && fields[1][i] != ' ';
    assert forall i :: 0 <= i < |fields[3]| ==> fields[3][i] != '.' && fields[3][i] != ' ';
    assert forall i :: 0 <= i < |fields[4]| ==> fields[4][i] != '.' && fields[4][i] != ' ';
    fields
  }

  /** The token as it travels: its fields joined by dots. */
  function Encode(t: Token): (s: string)
    ensures s != [] && ' ' !in s
  {
    JoinAvoids(Fields(t), '.', ' ');
    Join(Fields(t), '.')
  }

  function DecodeClaims(tag: string, id: string, email: string): Option<Claims>
  {
    match (ParseNat(id), Unescape(email))
    case (Some(n), Some(e)) =>
      if tag == "id" then Some(IdClaims(n, e))
      else if tag == "userId" then Some(UserIdClaims(n, e))
      else None
    case _ => None
  }

  /** Reads a token's wire form; anything malformed is `None`. */
  function Decode(s: string): Option<Token>
  {
    var f := Split(s, '.');
    if |f| != 6 then None
    else
      match (DecodeClaims(f[0], f[1], f[2]), ParseNat(f[3]), ParseNat(f[4]), Unescape(f[5]))
      case (Some(c), Some(iat), Some(exp), Some(key)) => Some(Token(Payload(c, iat, exp), key))
      case _ => None
  }

  /** The wire form loses nothing. */
  lemma DecodeEncode(t: Token)
    ensures Decode(Encode(t)) == Some(t)
  {
    var f := Fields(t);
    SplitJoin(f, '.');
    ParseNatToString(SubjectId(t.payload.claims));
    ParseNatToString(t.payload.iat);
    ParseNatToString(t.payload.exp);
    UnescapeEscape(t.payload.claims.email);
    UnescapeEscape(t.key);
  }

  /** A string without a dot is not a token. */
  lemma DecodeUndotted(s: string)
    requires '.' !in s
    ensures Decode(s) == None
  {
    SplitWithoutSeparator(s, '.');
  }

  // ---- the two operations ----

  /** `jwt.sign(claims, key, { expiresIn: '1h' })` at instant `now`. */
  function Sign(claims: Claims, key: string, now: nat): (token: string)
    ensures token != [] && ' ' !in token
    ensures Decode(token) == Some(Token(Payload(claims, now, now + OneHour), key))
  {
    var t := Token(Payload(claims, now, now + OneHour), key);
    DecodeEncode(t);
    Encode(t)
  }

  /** `jwt.verify(token, key)` at instant `now`: the decoded payload, or
    * `None` for a malformed token, a foreign key or an expired token. */
  function Verify(token: string, key: string, now: nat): Option<Payload>
  {
    match Decode(token)
    case Some(t) => if t.key == key && now < t.payload.exp then Some(t.payload) else None
    case None => None
  }

  /** A signed token verifies exactly under its own key and before its expiry,
    * and then yields the claims it was signed with. */
  lemma VerifySigned(claims: Claims, key: string, iat: nat, verifierKey: string, now: nat)
    ensures Verify(Sign(claims, key, iat), verifierKey, now)
         == if key == verifierKey && now < iat + OneHour
            then Some(Payload(claims, iat, iat + OneHour)) else None
  {
  }
}
