# Credit-card demo backend and payment pages, modelled in Dafny

This project models the decision logic of a demonstration financial-services
app: an Express backend that logs users in against a fixed directory, issues
one-hour bearer tokens, gates its account routes (credit score, cards,
transactions) behind a token check and records bill payments in a shared
ledger, plus two pieces of front-end logic: the three-step UPI payment wizard
and the colour of a transaction's status chip.

Files, one module each:

- `options.dfy`: `Options`, an optional value (an absent JSON field, a failed lookup).
- `text.dfy`: `Text`, JavaScript's `split` on one character, its inverse `Join`, and the round trips between them.
- `http.dfy`: `Http`, the JSON bodies the backend sends and a response as status code plus body.
- `tokens.dfy`: `Tokens`, bearer tokens without cryptography. A token holds its claims, its issue and expiry instants in whole seconds, and the key that signed it. It verifies exactly when that key is the verifier's key and the current instant is before the expiry. Its wire form is a dot-separated string with no spaces, proved to decode back to the token.
- `accounts.dfy`: `Accounts`, a user record and the exact-match `users.find` lookup that both logins use.
- `auth_routes.dfy`: `AuthRoutes`, the router mounted at `/api/auth` (backend/src/routes/auth.js).
- `backend.dfy`: `Backend`, the main server (backend/src/index.js). It holds the gate, `/login`, the read-only routes, the ledger invariant and the `/pay-bill` transition. The class `Server` holds the mutable ledger. The module also holds the lemmas that set the two logins side by side.
- `upi.dfy`: `UpiStepper`, the class `UpiPayment` with the wizard's state fields and handlers (frontend/src/pages/UPI.jsx).
- `transactions_page.dfy`: `TransactionsPage`, `getStatusColor` (frontend/src/pages/Transactions.jsx).

The model takes the following as parameters:

- the signing-key setting `JWT_SECRET` (`Option<string>`; unset or empty falls back to the hard-coded key);
- the current instant in seconds;
- the value `draw` of `Math.random()`, a `real` with `0 <= draw < 1`;
- today's ISO date for a new ledger entry;
- the browser's number test on the amount field.

Request fields are `Option` values: `None` is a missing field.

Three behaviours of the code worth stating:

- The gate never checks the scheme word. The token is the second space-separated word of the header, so `Token abc` passes `abc`.
- `/pay-bill` rejects any falsy `cardId` or `amount`, including `0`, not just missing ones.
- The auth router's login is a second, divergent code path. It has its own password, its own `{ userId, email }` claims, its own error body and its own fallback key. It is modelled as the code has it, not merged into the main login.

## Model

| member | source | states |
|---|---|---|
| Text.Split | backend/src/index.js:79 | `split(' ')` gives at least one piece, and no piece contains the separator |
| Text.JoinSplit | backend/src/index.js:79 | splitting loses nothing: joining the pieces with the separator gives back the original string |
| Text.SplitJoin | backend/src/index.js:79 | joining separator-free pieces and splitting again gives back exactly those pieces |
| Tokens.KeyOrDefault | backend/src/index.js:85 | `JWT_SECRET` or else the fallback: a set, non-empty setting is the key; an unset or empty one gives the fallback |
| Tokens.DecodeEncode | backend/src/index.js:107-111 | the token's wire form decodes back to exactly the claims, instants and key it was made from |
| Tokens.Sign | backend/src/index.js:107-111 | a signed token is non-empty, has no space, and carries the given claims, `iat = now` and `exp = now + 3600` under the given key |
| Tokens.VerifySigned | backend/src/index.js:85-88 | a signed token verifies exactly when the verifier's key equals the signing key and `now < iat + 3600`, and then yields its claims, `iat` and `exp` |
| Tokens.DecodeUndotted | backend/src/index.js:85-88 | a string without a dot is not a token |
| Accounts.Find | backend/src/index.js:99-101 | finds a record iff some record equals both the email and the password exactly; the record found matches and no earlier record does |
| Backend.BearerToken | backend/src/index.js:78-79 | no `Authorization` header gives no token; the extracted token, when there is one, is non-empty and has no space |
| Backend.BearerTokenOfHeader | backend/src/index.js:78-79 | for any scheme word and any non-empty space-free token, `<scheme> <token>` yields that token, and so does `<scheme> <token> <more words>` (`split(' ')[1]` is the second word only); the scheme is never checked |
| Backend.BearerTokenEmptyWord | backend/src/index.js:78-82 | an empty second word (`<scheme> ` or `<scheme>  <token>`) is falsy and yields no token |
| Backend.BearerTokenNeedsSpace | backend/src/index.js:78-83 | a header with no space (no second word) yields no token |
| Backend.Authenticate | backend/src/index.js:77-92 | three exclusive outcomes: 401 "No token provided" iff no token; 403 "Invalid token" iff a token is present and fails verification; admitted iff it verifies, with the decoded payload attached |
| Backend.ProtectedRoutes | backend/src/index.js:116-130 | once admitted, `/verify-token` gives 200 `{valid:true}`, `/credit-score` 200 score 750, `/cards` the two seed cards, `/transactions` the ledger; otherwise each gives the gate's 401 or 403 |
| Backend.Login | backend/src/index.js:97-114 | 200 iff some directory record matches email and password exactly, with a token of claims `{id: 1, email}` valid for one hour; otherwise 401 "Invalid credentials" |
| Backend.LoginTokenPassesGate | backend/src/index.js:85-91 | for the directory's credential pair, the `/login` token is admitted with `{id: 1, email}` while `later < now + 3600` and answered 403 from then on |
| Backend.MainDirectory | backend/src/index.js:20-26 | `test@example.com`/`testpassword123` logs in; the router's password and the wrong pair get 401 "Invalid credentials" |
| Backend.MalformedTokenForbidden | backend/src/index.js:85-88 | a dotless token word such as `invalid-token`, as the second word of the header, gets 403 "Invalid token" under any key |
| Backend.MissingHeaderUnauthorized | backend/src/index.js:77-83 | a request without an `Authorization` header gets 401 "No token provided" |
| Backend.EmptyTokenWordUnauthorized | backend/src/index.js:77-83 | a header whose second word is empty gets 401 "No token provided", like a missing header |
| Backend.LoginsNeverBothAccept | backend/src/index.js:24 | the two directory passwords differ, so no credential pair is accepted by both `/login` and `/api/auth/login` |
| Backend.EachPairHasOneEndpoint | backend/src/index.js:20-26 | each directory pair is accepted by its own login endpoint and refused by the other |
| Backend.LoginRefusalsDiffer | backend/src/index.js:103-105 | both logins refuse with 401, the main one with a `{message}` body and the router with an `{error:{message, code}}` body |
| Backend.RouterTokenRejectedByDefault | backend/src/index.js:85-88 | with no key configured, the router's token for its credential pair is signed with `your_jwt_secret_here`, which the gate does not accept: 403 "Invalid token" |
| Backend.RouterTokenAcceptedWithSharedKey | backend/src/index.js:85-91 | with a key configured, the router's token for its credential pair passes the gate until it expires, carrying `userId` instead of `id` |
| Backend.IdsAreOneToN | backend/src/index.js:143-148 | a ledger whose ids lie in 1..n and are pairwise distinct has exactly the id set {1..n} |
| Backend.SeedIdsOneToN | backend/src/index.js:43-74 | the seed ledger's ids are 1..5, each once |
| Backend.PayBillHandler | backend/src/index.js:132-153 | a falsy `cardId` or `amount` gives 400 "Missing required fields"; a draw of at most 0.2 gives 500 `{success:false,"Payment failed"}`. In both cases the ledger is unchanged. The answer is 200 iff both fields are truthy and the draw exceeds 0.2. Then the ledger grows by one, its head is `{id: n+1, "Credit Card Payment", -amount, today}` and every old record is shifted back by one. The id invariant is preserved |
| Backend.PayBillScenario | backend/src/index.js:135-151 | `{cardId:1, amount:1000}` with draw 0.1 gives 500 and no change; with draw 0.9 it gives 200 and a head record of amount -1000; a missing amount gives 400 |
| Backend.Server.constructor | backend/src/index.js:43-74 | the server starts with the seed ledger, which satisfies the id invariant |
| Backend.Server.Transactions | backend/src/index.js:128-130 | `GET /transactions` returns the current ledger unchanged once admitted, the gate's answer otherwise |
| Backend.Server.PayBill | backend/src/index.js:132-153 | the gate runs first; a rejected request gets the gate's answer and leaves the ledger alone. An admitted one changes the ledger and answers exactly as `PayBillHandler` says, in place. The id invariant is kept, and every non-200 answer leaves the ledger unchanged |
| AuthRoutes.RouterLogin | backend/src/routes/auth.js:14-37 | 200 iff some record of the router's own directory matches exactly, with a token of claims `{userId: 1, email}` for one hour under `JWT_SECRET` or `your_jwt_secret_here`; otherwise 401 `{error:{message:"Invalid credentials", code:"INVALID_CREDENTIALS"}}` |
| AuthRoutes.RouterDirectory | backend/src/routes/auth.js:6-12 | `test@example.com`/`password123` logs in at the router; the main server's password is refused |
| UpiStepper.UpiPayment.constructor | frontend/src/pages/UPI.jsx:22-26 | the wizard starts at step 0 with empty id, amount and error and no success, and satisfies its invariant |
| UpiStepper.UpiPayment.SetUpiId | frontend/src/pages/UPI.jsx:71-78 | editing the UPI id (shown on step 0 only) changes only the id and keeps the invariant |
| UpiStepper.UpiPayment.SetAmount | frontend/src/pages/UPI.jsx:92-98 | editing the amount (shown on step 1 only) changes only the amount and keeps the invariant |
| UpiStepper.UpiPayment.HandleNext | frontend/src/pages/UPI.jsx:35-59 | at step 0, an empty id or one not in `mockUpiIds` sets its error and stays; otherwise it clears the error and goes to step 1. At step 1, an invalid amount sets "Please enter a valid amount" and stays; otherwise it clears the error and goes to step 2. At step 2 it sets `success` without advancing. The step never exceeds 2, and `success` holds only with a listed id and a valid amount |
| UpiStepper.UpiPayment.HandleBack | frontend/src/pages/UPI.jsx:61-64 | from a step above 0 (the button is disabled at 0), goes back exactly one step and clears the error; the invariant is kept |
| UpiStepper.UpiPayment.MakeAnotherPayment | frontend/src/pages/UPI.jsx:142-150 | from the success view, restores exactly the initial state: step 0, empty id and amount, no success, and no error |
| TransactionsPage.ToLower | frontend/src/pages/Transactions.jsx:49 | lower-casing keeps the length, leaves no upper-case letter, and leaves every other character as it was |
| TransactionsPage.ToLowerIdempotent | frontend/src/pages/Transactions.jsx:49 | lower-casing an already lower-cased status changes nothing |
| TransactionsPage.StatusColor | frontend/src/pages/Transactions.jsx:48-59 | "success" iff the lower-cased status is "completed", "warning" iff "pending", "error" iff "failed", "default" for everything else |
| TransactionsPage.StatusColorIgnoresCase | frontend/src/pages/Transactions.jsx:49 | two statuses with the same lower-cased form get the same colour |
| TransactionsPage.StatusColorOfLowerCase | frontend/src/pages/Transactions.jsx:49 | lower-casing a status first does not change its colour |
| TransactionsPage.CompletedInAnyCase | frontend/src/pages/Transactions.jsx:50-51 | "Completed", "COMPLETED" and "completed" all map to "success" |
| TransactionsPage.EveryMockRowIsSuccess | frontend/src/pages/Transactions.jsx:17-45 | every row of the page's mock table has a "success" chip |

## Left out

- JWT cryptography and encoding (the `jsonwebtoken` library): a token's signature is represented by the key that signed it, and its wire form is a simple dot-separated encoding rather than base64 JSON with an HMAC. The model therefore does not capture forged or tampered signatures beyond "signed with another key".
- Clocks: `Date.now()` and `new Date()` are parameters. Time is whole seconds, as the library uses. The ISO date of a new ledger entry is passed in.
- `Math.random()` is the parameter `draw`.
- `isNaN`/`parseFloat` in the UPI wizard: the page takes the number test as an abstract `string -> bool`, and only the explicit empty-string check is spelled out.
- `toLowerCase` is modelled on ASCII letters only; Unicode case mapping is not.
- JSON values of other types: `email` and `password` are strings or absent, and `cardId` and `amount` are integers or absent. Amounts sent as strings, which `-amount` coerces, are not modelled, nor are fractional amounts, `null`, `false` or `NaN`.
- Express plumbing: the cors/json/morgan/helmet middleware and the catch-all 500 error handler (backend/src/index.js:159-168). Also `startServer`, with its port retry and signal handlers (backend/src/index.js:170-215). All of these are I/O and process lifecycle.
- `GET /api/health` (backend/src/index.js:155-157): an ungated constant answer with no decision in it.
- backend/src/index.js never exports `app`, although the API tests import it; module wiring is not modelled.
- Concurrency: the server is modelled as handling one request at a time. Each `PayBill` call is one atomic step.
- The React rendering of the UPI and Transactions pages, React's batching of state updates (each handler is one atomic step), and the other pages, routing and build configuration.
- The test's literal header `Bearer invalid-token` is covered by the general statement for every dotless token word (`Backend.MalformedTokenForbidden`) rather than as a literal instance.
