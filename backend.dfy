/** The main server: the bearer-token gate, `/login`, the read-only account
  * routes and the `/pay-bill` transition over the shared transaction ledger.
  * The signing-key setting (`JWT_SECRET`), the current instant, the random
  * draw and today's date are parameters. */
module Backend {
  import opened Options
  import opened Text
  import opened Tokens
  import opened Accounts
  import opened Http
  import opened AuthRoutes

  // ---- seed data ----

  const Users: seq<User> := [User(1, "test@example.com", "testpassword123")]

  const Cards: seq<Card> := [Card(1, "4242", "12", "2025"), Card(2, "5678", "06", "2024")]

  const PaymentDescription := "Credit Card Payment"

  const SeedTransactions: seq<TransactionRecord> := [
    TransactionRecord(1, PaymentDescription, -5000, "2024-02-15"),
    TransactionRecord(2, "Cashback Reward", 250, "2024-02-14"),
    TransactionRecord(3, PaymentDescription, -3000, "2024-02-10"),
    TransactionRecord(4, "Cashback Reward", 150, "2024-02-09"),
    TransactionRecord(5, PaymentDescription, -2000, "2024-02-05")
  ]

  const CreditScore: int := 750

  const FallbackSecret := "your-secret-key"

  // ---- fixed answers ----

  const NoToken := Response(401, Message("No token provided"))
  const InvalidToken := Response(403, Message("Invalid token"))
  const InvalidCredentials := Response(401, Message("Invalid credentials"))
  const MissingFields := Response(400, Message("Missing required fields"))
  const PaymentFailed := Response(500, PaymentResult(false, "Payment failed"))
  const PaymentSucceeded := Response(200, PaymentResult(true, "Payment successful"))

  function ServerKey(jwtSecret: Option<string>): string
  {
    KeyOrDefault(jwtSecret, FallbackSecret)
  }

  // ---- the gate ----

  /** `authHeader && authHeader.split(' ')[1]`, kept only when truthy: the
    * second space-separated word of the header; the first is never checked. */
  function BearerToken(header: Option<string>): (token: Option<string>)
    ensures header.None? ==> token.None?
    ensures token.Some? ==> token.value != "" && ' ' !in token.value
  {
    if header.None? then None
    else
      var words := Split(header.value, ' ');
      if |words| >= 2 && words[1] != "" then Some(words[1]) else None
  }

  /** Any scheme word followed by one space and a space-free token yields
    * that token, whatever follows after a further space: "Bearer t",
    * "Token t" and "Bearer t extra" alike. */
  lemma BearerTokenOfHeader(scheme: string, token: string, rest: string)
    requires ' ' !in scheme && ' ' !in token && token != ""
    requires rest == [] || rest[0] == ' '
    ensures BearerToken(Some(scheme + " " + token + rest)) == Some(token)
  {
    assert scheme + " " + token + rest == scheme + [' '] + (token + rest);
    SplitAtFirst(scheme, token + rest, ' ');
    if rest == [] {
      assert token + rest == token;
      SplitWithoutSeparator(token, ' ');
    } else {
      assert token + rest == token + [' '] + rest[1..];
      SplitAtFirst(token, rest[1..], ' ');
    }
  }

  /** The two-word case of `BearerTokenOfHeader`: `<scheme> <token>`. */
  lemma BearerTokenOfTwoWords(scheme: string, token: string)
    requires ' ' !in scheme && ' ' !in token && token != ""
    ensures BearerToken(Some(scheme + " " + token)) == Some(token)
  {
    BearerTokenOfHeader(scheme, token, []);
    assert scheme + " " + token + [] == scheme + " " + token;
  }

  /** An empty second word, as in "Bearer " or "Bearer  t", is falsy: no token. */
  lemma BearerTokenEmptyWord(scheme: string, rest: string)
    requires ' ' !in scheme
    requires rest == [] || rest[0] == ' '
    ensures BearerToken(Some(scheme + " " + rest)) == None
  {
    assert scheme + " " + rest == scheme + [' '] + rest;
    SplitAtFirst(scheme, rest, ' ');
    if rest != [] {
      assert rest == [] + [' '] + rest[1..];
      SplitAtFirst([], rest[1..], ' ');
    }
  }

  /** A header without a space has no second word, hence no token. */
  lemma BearerTokenNeedsSpace(header: string)
    requires ' ' !in header
    ensures BearerToken(Some(header)) == None
  {
    SplitWithoutSeparator(header, ' ');
  }

  datatype GateResult = Admit(user: Payload) | Reject(response: Response)

  /** `authenticateToken`: 401 without a token, 403 when verification fails,
    * otherwise the decoded payload is attached and the handler runs. */
  function Authenticate(header: Option<string>, key: string, now: nat): (g: GateResult)
    ensures g == Reject(NoToken) <==> BearerToken(header).None?
    ensures g == Reject(InvalidToken) <==>
      BearerToken(header).Some? && Verify(BearerToken(header).value, key, now).None?
    ensures g.Admit? <==> BearerToken(header).Some? && Verify(BearerToken(header).value, key, now).Some?
    ensures g.Admit? ==> Verify(BearerToken(header).value, key, now) == Some(g.user)
  {
    match BearerToken(header)
    case None => Reject(NoToken)
    case Some(token) =>
      match Verify(token, key, now)
      case None => Reject(InvalidToken)
      case Some(user) => Admit(user)
  }

  /** A gated route: the handler's answer when admitted, the gate's otherwise. */
  function Guarded(gate: GateResult, handler: Response): Response
  {
    match gate
    case Admit(_) => handler
    case Reject(rejection) => rejection
  }

  // ---- routes without state ----

  /** `POST /login` with body `{ email, password }` at instant `now`. */
  function Login(jwtSecret: Option<string>, email: Option<string>, password: Option<string>, now: nat): (r: Response)
    ensures r.status == 200 <==> exists u :: u in Users && Matches(u, email, password)
    ensures r.status != 200 ==> r == InvalidCredentials
    ensures r.status == 200 ==>
      r == Response(200, TokenIssued(Sign(IdClaims(1, "test@example.com"), ServerKey(jwtSecret), now)))
  {
    match Find(Users, email, password)
    case None => InvalidCredentials
    case Some(u) => Response(200, TokenIssued(Sign(IdClaims(u.id, u.email), ServerKey(jwtSecret), now)))
  }

  function VerifyTokenRoute(header: Option<string>, jwtSecret: Option<string>, now: nat): Response
  {
    Guarded(Authenticate(header, ServerKey(jwtSecret), now), Response(200, Verified))
  }

  function CreditScoreRoute(header: Option<string>, jwtSecret: Option<string>, now: nat): Response
  {
    Guarded(Authenticate(header, ServerKey(jwtSecret), now), Response(200, Score(CreditScore)))
  }

  function CardsRoute(header: Option<string>, jwtSecret: Option<string>, now: nat): Response
  {
    Guarded(Authenticate(header, ServerKey(jwtSecret), now), Response(200, CardList(Cards)))
  }

  function TransactionsRoute(header: Option<string>, jwtSecret: Option<string>, now: nat,
                             ledger: seq<TransactionRecord>): Response
  {
    Guarded(Authenticate(header, ServerKey(jwtSecret), now), Response(200, Ledger(ledger)))
  }

  /** Every protected GET answers its data once admitted and the gate's
    * rejection otherwise. */
  lemma ProtectedRoutes(header: Option<string>, jwtSecret: Option<string>, now: nat,
                        ledger: seq<TransactionRecord>)
    ensures Authenticate(header, ServerKey(jwtSecret), now).Admit? ==>
      && VerifyTokenRoute(header, jwtSecret, now) == Response(200, Verified)
      && CreditScoreRoute(header, jwtSecret, now) == Response(200, Score(750))
      && CardsRoute(header, jwtSecret, now) == Response(200, CardList(Cards))
      && TransactionsRoute(header, jwtSecret, now, ledger) == Response(200, Ledger(ledger))
    ensures Authenticate(header, ServerKey(jwtSecret), now).Reject? ==>
      var rejection := Authenticate(header, ServerKey(jwtSecret), now).response;
      && rejection.status in {401, 403}
      && VerifyTokenRoute(header, jwtSecret, now) == rejection
      && CreditScoreRoute(header, jwtSecret, now) == rejection
      && CardsRoute(header, jwtSecret, now) == rejection
      && TransactionsRoute(header, jwtSecret, now, ledger) == rejection
  {
  }

  /** A token from a successful `/login`, sent as `<scheme> <token>`, passes
    * the gate with claims `{ id: 1, email }` exactly until one hour after
    * issue; from then on it is answered 403. */
  lemma LoginTokenPassesGate(jwtSecret: Option<string>, email: Option<string>, password: Option<string>,
                             now: nat, scheme: string, later: nat)
    requires Matches(Users[0], email, password)
    requires ' ' !in scheme
    ensures
      var header := Some(scheme + " " + Login(jwtSecret, email, password, now).body.token);
      Authenticate(header, ServerKey(jwtSecret), later)
        == if later < now + OneHour
           then Admit(Payload(IdClaims(1, "test@example.com"), now, now + OneHour))
           else Reject(InvalidToken)
  {
    var token := Sign(IdClaims(1, "test@example.com"), ServerKey(jwtSecret), now);
    BearerTokenOfTwoWords(scheme, token);
    VerifySigned(IdClaims(1, "test@example.com"), ServerKey(jwtSecret), now, ServerKey(jwtSecret), later);
  }

  /** The directory pair is accepted; wrong pairs and the router's password
    * are refused. */
  lemma MainDirectory(jwtSecret: Option<string>, now: nat)
    ensures Login(jwtSecret, Some("test@example.com"), Some("testpassword123"), now).status == 200
    ensures Login(jwtSecret, Some("test@example.com"), Some("password123"), now) == InvalidCredentials
    ensures Login(jwtSecret, Some("wrong@example.com"), Some("wrongpassword"), now) == InvalidCredentials
  {
    assert Matches(Users[0], Some("test@example.com"), Some("testpassword123"));
  }

  /** A token word without a dot (such as "invalid-token") is not a token:
    * whatever the key, the request is answered 403. */
  lemma MalformedTokenForbidden(scheme: string, word: string, rest: string, key: string, now: nat)
    requires ' ' !in scheme && ' ' !in word && word != ""
    requires rest == [] || rest[0] == ' '
    requires '.' !in word
    ensures Authenticate(Some(scheme + " " + word + rest), key, now) == Reject(InvalidToken)
  {
    BearerTokenOfHeader(scheme, word, rest);
    DecodeUndotted(word);
  }

  /** A request without an `Authorization` header is answered 401. */
  lemma MissingHeaderUnauthorized(key: string, now: nat)
    ensures Authenticate(None, key, now) == Reject(NoToken)
  {
  }

  /** A header whose second word is empty ("Bearer ", "Bearer  t") is
    * answered 401, as if there were no header at all. */
  lemma EmptyTokenWordUnauthorized(scheme: string, rest: string, key: string, now: nat)
    requires ' ' !in scheme
    requires rest == [] || rest[0] == ' '
    ensures Authenticate(Some(scheme + " " + rest), key, now) == Reject(NoToken)
  {
    BearerTokenEmptyWord(scheme, rest);
  }

  // ---- the two logins side by side ----

  /** The two directories hold different passwords, so no credential pair is
    * accepted by both `/login` and `/api/auth/login`. */
  lemma LoginsNeverBothAccept(jwtSecret: Option<string>, email: Option<string>, password: Option<string>, now: nat)
    ensures !(Login(jwtSecret, email, password, now).status == 200
              && RouterLogin(jwtSecret, email, password, now).status == 200)
  {
  }

  /** Each directory pair is accepted by its own endpoint only. */
  lemma EachPairHasOneEndpoint(jwtSecret: Option<string>, now: nat)
    ensures Login(jwtSecret, Some("test@example.com"), Some("testpassword123"), now).status == 200
    ensures RouterLogin(jwtSecret, Some("test@example.com"), Some("testpassword123"), now).status == 401
    ensures RouterLogin(jwtSecret, Some("test@example.com"), Some("password123"), now).status == 200
    ensures Login(jwtSecret, Some("test@example.com"), Some("password123"), now).status == 401
  {
    MainDirectory(jwtSecret, now);
    RouterDirectory(jwtSecret, now);
  }

  /** Both logins refuse with 401, but with differently shaped bodies. */
  lemma LoginRefusalsDiffer(jwtSecret: Option<string>, email: Option<string>, password: Option<string>, now: nat)
    requires Login(jwtSecret, email, password, now).status != 200
    requires RouterLogin(jwtSecret, email, password, now).status != 200
    ensures Login(jwtSecret, email, password, now).status == 401
    ensures RouterLogin(jwtSecret, email, password, now).status == 401
    ensures Login(jwtSecret, email, password, now).body.Message?
    ensures RouterLogin(jwtSecret, email, password, now).body.ErrorDetail?
  {
  }

  lemma FallbackKeysDiffer()
    ensures RouterFallbackSecret != FallbackSecret
  {
  }

  /** With no signing key configured the router signs with its own fallback,
    * which the gate does not accept: its tokens are answered 403. */
  lemma RouterTokenRejectedByDefault(jwtSecret: Option<string>, email: Option<string>, password: Option<string>,
                                     now: nat, scheme: string, later: nat)
    requires jwtSecret.None? || jwtSecret.value == ""
    requires Matches(RouterUsers[0], email, password)
    requires ' ' !in scheme
    ensures
      var header := Some(scheme + " " + RouterLogin(jwtSecret, email, password, now).body.token);
      Authenticate(header, ServerKey(jwtSecret), later) == Reject(InvalidToken)
  {
    var claims := UserIdClaims(1, "test@example.com");
    var token := Sign(claims, RouterFallbackSecret, now);
    BearerTokenOfTwoWords(scheme, token);
    FallbackKeysDiffer();
    VerifySigned(claims, RouterFallbackSecret, now, FallbackSecret, later);
  }

  /** With a signing key configured both sides share it: a router token
    * passes the gate until it expires, carrying `userId` rather than `id`. */
  lemma RouterTokenAcceptedWithSharedKey(jwtSecret: Option<string>, email: Option<string>, password: Option<string>,
                                         now: nat, scheme: string, later: nat)
    requires jwtSecret.Some? && jwtSecret.value != ""
    requires Matches(RouterUsers[0], email, password)
    requires ' ' !in scheme
    ensures
      var header := Some(scheme + " " + RouterLogin(jwtSecret, email, password, now).body.token);
      Authenticate(header, ServerKey(jwtSecret), later)
        == if later < now + OneHour
           then Admit(Payload(UserIdClaims(1, "test@example.com"), now, now + OneHour))
           else Reject(InvalidToken)
  {
    var claims := UserIdClaims(1, "test@example.com");
    var token := Sign(claims, jwtSecret.value, now);
    BearerTokenOfTwoWords(scheme, token);
    VerifySigned(claims, jwtSecret.value, now, jwtSecret.value, later);
  }

  // ---- the ledger ----

  /** The ledger's ids are exactly 1..|ledger|, each used once. */
  predicate IdsOneToN(ledger: seq<TransactionRecord>)
  {
    && (forall i :: 0 <= i < |ledger| ==> 1 <= ledger[i].id <= |ledger|)
    && (forall i, j :: 0 <= i < j < |ledger| ==> ledger[i].id != ledger[j].id)
  }

  function IdSet(ledger: seq<TransactionRecord>): set<nat>
  {
    set i | 0 <= i < |ledger| :: ledger[i].id
  }

  /** The set {1..n}. */
  function Range(n: nat): (r: set<nat>)
    ensures forall k :: k in r <==> 1 <= k <= n
  {
    if n == 0 then {} else Range(n - 1) + {n}
  }

  lemma {:induction false} RangeSize(n: nat)
    ensures |Range(n)| == n
  {
    if n > 0 {
      RangeSize(n - 1);
    }
  }

  lemma {:induction false} IdSetSize(ledger: seq<TransactionRecord>)
    requires forall i, j :: 0 <= i < j < |ledger| ==> ledger[i].id != ledger[j].id
    ensures |IdSet(ledger)| == |ledger|
  {
    if ledger != [] {
      var rest := ledger[1..];
      IdSetSize(rest);
      assert IdSet(ledger) == {ledger[0].id} + IdSet(rest) by {
        forall x | x in IdSet(ledger) ensures x in {ledger[0].id} + IdSet(rest) {
          var i :| 0 <= i < |ledger| && ledger[i].id == x;
          if i > 0 { assert rest[i - 1].id == x; }
        }
        forall x | x in IdSet(rest) ensures x in IdSet(ledger) {
          var i :| 0 <= i < |rest| && rest[i].id == x;
          assert ledger[i + 1].id == x;
        }
      }
      assert ledger[0].id !in IdSet(rest) by {
        forall i | 0 <= i < |rest| ensures rest[i].id != ledger[0].id {
          assert rest[i] == ledger[i + 1];
        }
      }
    }
  }

  lemma SubsetSize(a: set<nat>, c: set<nat>)
    requires a <= c
    ensures |a| <= |c|
  {
    assert c == a + (c - a);
  }

  lemma SubsetOfSameSize(a: set<nat>, b: set<nat>)
    requires a <= b && |a| == |b|
    ensures a == b
  {
    if a != b {
      var x :| x in b && x !in a;
      SubsetSize(a, b - {x});
    }
  }

  /** The ids of a ledger satisfying the invariant are exactly the set {1..n},
    * hence pairwise distinct and gap-free. */
  lemma IdsAreOneToN(ledger: seq<TransactionRecord>)
    requires IdsOneToN(ledger)
    ensures IdSet(ledger) == Range(|ledger|)
  {
    IdSetSize(ledger);
    RangeSize(|ledger|);
    SubsetOfSameSize(IdSet(ledger), Range(|ledger|));
  }

  lemma SeedIdsOneToN()
    ensures IdsOneToN(SeedTransactions)
  {
  }

  /** A truthy JSON number: present and not 0. */
  predicate Truthy(v: Option<int>)
  {
    v.Some? && v.value != 0
  }

  /** `Math.random() > 0.2` decides success. */
  const FailureThreshold: real := 0.2

  /** The `/pay-bill` handler once the gate has admitted the request: the
    * answer and the ledger afterwards, for a draw `draw` and date `today`. */
  function PayBillHandler(ledger: seq<TransactionRecord>, cardId: Option<int>, amount: Option<int>,
                          draw: real, today: string): (result: (Response, seq<TransactionRecord>))
    ensures !Truthy(cardId) || !Truthy(amount) ==> result == (MissingFields, ledger)
    ensures Truthy(cardId) && Truthy(amount) && draw <= FailureThreshold ==> result == (PaymentFailed, ledger)
    ensures result.0.status == 200 <==> Truthy(cardId) && Truthy(amount) && draw > FailureThreshold
    ensures result.0.status == 200 ==>
      && result.0 == PaymentSucceeded
      && |result.1| == |ledger| + 1
      && result.1[0] == TransactionRecord(|ledger| + 1, PaymentDescription, -amount.value, today)
      && forall i :: 0 <= i < |ledger| ==> result.1[i + 1] == ledger[i]
    ensures IdsOneToN(ledger) ==> IdsOneToN(result.1)
  {
    if !Truthy(cardId) || !Truthy(amount) then (MissingFields, ledger)
    else if draw > FailureThreshold then
      (PaymentSucceeded, [TransactionRecord(|ledger| + 1, PaymentDescription, -amount.value, today)] + ledger)
    else (PaymentFailed, ledger)
  }

  /** The concrete payments: a draw of 0.1 fails and records nothing; a draw
    * of 0.9 succeeds and records a debit of 1000 at the head; a missing
    * amount is refused. */
  lemma PayBillScenario(ledger: seq<TransactionRecord>, today: string)
    ensures PayBillHandler(ledger, Some(1), Some(1000), 0.1, today) == (PaymentFailed, ledger)
    ensures PayBillHandler(ledger, Some(1), Some(1000), 0.9, today).0 == PaymentSucceeded
    ensures PayBillHandler(ledger, Some(1), Some(1000), 0.9, today).1[0]
         == TransactionRecord(|ledger| + 1, "Credit Card Payment", -1000, today)
    ensures PayBillHandler(ledger, Some(1), None, 0.9, today) == (MissingFields, ledger)
  {
  }

  /** The process-wide state of the main server: its signing-key setting and
    * the transaction ledger, most recent first. */
  class Server {
    const jwtSecret: Option<string>
    var transactions: seq<TransactionRecord>

    ghost predicate Valid()
      reads this
    {
      IdsOneToN(transactions)
    }

    constructor (jwtSecret: Option<string>)
      ensures this.jwtSecret == jwtSecret
      ensures transactions == SeedTransactions
      ensures Valid()
    {
      this.jwtSecret := jwtSecret;
      transactions := SeedTransactions;
      SeedIdsOneToN();
    }

    /** `GET /transactions`: the whole ledger, unchanged. */
    function Transactions(header: Option<string>, now: nat): (r: Response)
      reads this
      ensures Authenticate(header, ServerKey(jwtSecret), now).Admit? ==> r == Response(200, Ledger(transactions))
      ensures Authenticate(header, ServerKey(jwtSecret), now).Reject? ==>
        r == Authenticate(header, ServerKey(jwtSecret), now).response && r.status in {401, 403}
    {
      TransactionsRoute(header, jwtSecret, now, transactions)
    }

    /** `POST /pay-bill` with body `{ cardId, amount }`; `draw` is the value of
      * `Math.random()` and `today` the ISO date of the call. This is the
      * in-place form of `PayBillHandler`: its branches follow that function's,
      * and its postcondition ties the two together. */
    method PayBill(authorization: Option<string>, now: nat, cardId: Option<int>, amount: Option<int>,
                   draw: real, today: string) returns (response: Response)
      requires Valid()
      requires 0.0 <= draw < 1.0
      modifies this
      ensures Valid()
      ensures Authenticate(authorization, ServerKey(jwtSecret), now).Reject? ==>
        response == Authenticate(authorization, ServerKey(jwtSecret), now).response
        && transactions == old(transactions)
      ensures Authenticate(authorization, ServerKey(jwtSecret), now).Admit? ==>
        (response, transactions) == PayBillHandler(old(transactions), cardId, amount, draw, today)
      ensures response.status != 200 ==> transactions == old(transactions)
    {
      var gate := Authenticate(authorization, ServerKey(jwtSecret), now);
      if gate.Reject? {
        return gate.response;
      }
      if !Truthy(cardId) || !Truthy(amount) {
        return MissingFields;
      }
      var success := draw > FailureThreshold;
      if success {
        transactions := [TransactionRecord(|transactions| + 1, PaymentDescription, -amount.value, today)]
                        + transactions;
        response := PaymentSucceeded;
      } else {
        response := PaymentFailed;
      }
    }
  }
}
