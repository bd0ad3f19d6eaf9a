# Debt-back: a Dafny model of the debt service, the token parsers and the request guards

Debt-back is an Express and Mongoose back end for tracking debts between users.
This project models the parts of it that hold logic of their own:

- the debt listing behind `GET /api/debts`, with its optional `status` filter and its newest-first order;
- the dashboard summary, which splits a user's unsettled debts into "owed to me" and "owed by me", sums each side and computes the net position;
- the debt-chain finder, which is a stub and always reports no chains;
- Bearer-header parsing in the authentication service (`extractTokenFromHeader`) and in the authentication middleware (`split(' ')[1]`). The model shows where the two agree and where they differ;
- the user listing, which leaves out the caller and the password;
- the `requireAdmin` guard;
- the required-fields check of `POST /api/debts` under JavaScript truthiness, and the rule that the creditor is always the caller.

Everything is modelled as pure functions over values, as the source is written.
Documents from the store are inputs:

- `debts: seq<StoredDebt>` is the debts collection in its natural order;
- `users: Directory` is the users collection as `populate` consults it;
- `users: seq<User>` is the users collection for the user listing.

Outside calls are passed in as function parameters (oracles): `verify` stands for `jwt.verify`, `findById` for `User.findById`, and `persist` for `createDebt`.
The responses and the calls to `next()` are returned as values: `Http.Reply` is a handler's response and `Http.Guard` is a middleware's decision.
Amounts are exact `real`s.

Modules, one per source file plus shared pieces:

- `Wrappers` holds `Option`.
- `Seqs` holds `filter`, `map` and `reduce` with their lemmas.
- `Records` holds the stored documents.
- `Js` holds JSON values, truthiness, `startsWith`, `substring` and `split`.
- `Http` holds replies, guard outcomes and the `"Bearer "` prefix.
- `DebtChainService`, `AuthService`, `Middleware` and `DebtRoutes` model the four source files.

Points where the source does less than its types and names suggest, and the model follows the code:

- src/types/index.ts:35-47 declares `DebtChain` and `SettlementResult`, but nothing computes them: `findDebtChains` (src/services/debtChainService.ts:89-94) returns `[]`.
- The check on `POST` (src/routes/debts.ts:28) rejects only falsy fields. Negative amounts and self-debts get through, and so does an amount such as the string `"0"`.
- The debt schema (src/models/debt.model.ts:4-14) marks the fields as required but checks neither `amount > 0` nor that debtor and creditor differ, so the model does not assume either.
- Each summary item (src/services/debtChainService.ts:70-77) carries both parties' names, including the user's own.

## Model

| member | source | states |
|---|---|---|
| `DebtChainService.GetAllDebts` | src/services/debtChainService.ts:6-33 | Fails exactly when a selected debt (the user is its debtor or creditor, and it matches the status condition) names a party missing from the users collection. On success the listing is newest first by `createdAt`, a permutation of the selected debts (each selected debt is listed once with all of its stored fields), and each entry carries its parties' names from the users collection. |
| `DebtChainService.GetAllDebtsListed` | src/services/debtChainService.ts:7-13 | A debt is listed iff it is in the collection, the user is its debtor or creditor, and it fits the status: `'settled'` lists only settled debts, any other non-empty status lists only unsettled ones, and an absent or empty status lists both kinds. |
| `DebtChainService.SortByCreatedDesc` | src/services/debtChainService.ts:18 | The result is ordered by `createdAt`, non-increasing, and is a permutation (same multiset) of its input. |
| `DebtChainService.Views` | src/services/debtChainService.ts:20-32 | The projection is one-to-one and in order: entry i keeps every stored field of debt i (id, amount, description, debtor and creditor ids, due date, isSettled, timestamps) and adds both parties' names. |
| `DebtChainService.GetDebtSummary` | src/services/debtChainService.ts:55-86 | Fails exactly when an unsettled debt of the user names a missing party. On success `totalOwedToMe` and `totalOwed` are the sums of the amounts of the user's unsettled credits and debts, `netPosition` is their difference, and `owedByOthers` and `owedToOthers` describe the user's unsettled credits and debts respectively, with the same length and in collection order. |
| `DebtChainService.OwedToIsPartition` | src/services/debtChainService.ts:63 | Filtering the considered debts by creditor gives exactly the collection's unsettled debts whose creditor is the user, in collection order. |
| `DebtChainService.OwedByIsPartition` | src/services/debtChainService.ts:64 | Filtering the considered debts by debtor gives exactly the collection's unsettled debts whose debtor is the user, in collection order. |
| `DebtChainService.Items` | src/services/debtChainService.ts:70-77 | `mapDebt` over a list keeps its length and order; item i has the id, description, amount and due date of debt i and both parties' names. |
| `DebtChainService.NetPositionIsBalance` | src/services/debtChainService.ts:66-68 | The net position equals the user's signed balance over the whole collection: unsettled credits count positively, unsettled debts negatively, and a debt owed to oneself counts zero. |
| `DebtChainService.SummaryCoversConsidered` | src/services/debtChainService.ts:56-64 | Every unsettled debt of the user is in at least one of the two lists, and it is in both iff the user is both its debtor and its creditor. |
| `DebtChainService.EmptySideTotalsZero` | src/services/debtChainService.ts:66-67 | When a side has no debts, its total is 0. |
| `DebtChainService.FindDebtChains` | src/services/debtChainService.ts:89-94 | The finder reads nothing and always returns the empty sequence. |
| `AuthService.ExtractTokenFromHeader` | src/services/authService.ts:113-119 | The result is non-null iff a header is present and starts with the exact, case-sensitive `"Bearer "`. When it is non-null, `"Bearer "` followed by the result is the header. |
| `AuthService.ExtractTokenRoundTrip` | src/services/authService.ts:118 | For every token, spaces and the empty token included, the header `"Bearer " + token` yields exactly that token. |
| `AuthService.ExtractTokenExamples` | src/services/authService.ts:113-119 | Absent, empty, `"Bearer"` and `"bearer abc"` give null. `"Bearer "` gives `""` and `"Bearer a b"` gives `"a b"`. |
| `AuthService.GetAllUsers` | src/services/authService.ts:59-67 | The listing has at most as many entries as there are stored users, and no entry has the caller's id. Its full contents are stated by `AuthService.GetAllUsersContents` and `AuthService.ListedOnce`. |
| `AuthService.GetAllUsersContents` | src/services/authService.ts:59-67 | No listed user has the caller's id. Every listed record is the public part (id, name, email, isAdmin) of some stored user. Every other stored user is listed. |
| `AuthService.ListedOnce` | src/services/authService.ts:60-66 | When stored ids are distinct, each user other than the caller appears exactly once. |
| `Middleware.BearerToken` | src/middleware/auth.ts:15-19 | The header passes iff it is present and starts with `"Bearer "`; otherwise 401 "Access token required". The token passed on is the text after `"Bearer "` up to the next space or the end of the header: it contains no space and is followed by a space or by nothing. |
| `Middleware.AuthMiddleware` | src/middleware/auth.ts:14-31 | 401 for a missing or non-Bearer header. 403 when verification fails. Then, by the lookup's answer: `next()` with the found user, 401 "User not found", or 403 when the lookup throws. |
| `Middleware.AuthProceedsOnlyOnSuccess` | src/middleware/auth.ts:20-27 | `next()` is reached iff the header passes, the token verifies and the lookup finds a user. Every rejection is 401 or 403. |
| `Middleware.RejectedBeforeVerification` | src/middleware/auth.ts:15-17 | A missing or non-Bearer header gets 401 whatever the verifier and the lookup would answer: neither is consulted. |
| `Middleware.SameHeadersAccepted` | src/middleware/auth.ts:16 | The middleware accepts exactly the headers for which `extractTokenFromHeader` is non-null. |
| `Middleware.ParsersAgreeWithoutSpaces` | src/middleware/auth.ts:19 | When nothing after `"Bearer "` is a space, the middleware's token equals `extractTokenFromHeader`'s result. |
| `Middleware.ParsersDisagreeOnSpaces` | src/middleware/auth.ts:19 | When a space follows `"Bearer "` somewhere, the middleware's token is a proper prefix of `extractTokenFromHeader`'s result. |
| `Middleware.TokenExampleTwoWords` | src/middleware/auth.ts:19 | For `"Bearer a b"` the middleware passes on `"a"`, while `extractTokenFromHeader` returns `"a b"`. |
| `Middleware.TokenExampleDoubleSpace` | src/middleware/auth.ts:19 | For `"Bearer  x"` (two spaces) the middleware passes on `""`. |
| `Middleware.TokenExampleEmpty` | src/middleware/auth.ts:19 | For `"Bearer "` both parsers yield `""`. |
| `Middleware.RequireAdmin` | src/middleware/auth.ts:33-41 | `next()` is reached iff a user is attached and is an admin, passing that user on. Otherwise 403 "Admin access required". |
| `DebtRoutes.GetDebts` | src/routes/debts.ts:12-20 | The `status` query value and the caller's id go to `getAllDebts` unchanged. The reply is 200 with its listing iff it succeeds, and 500 "Failed to fetch debts" otherwise. |
| `DebtRoutes.PostDebt` | src/routes/debts.ts:23-43 | A body of `null` or `undefined` gives 500 and nothing is submitted. Otherwise the reply is 400 "Missing required fields" iff one of `debtorId`, `amount`, `description` and `dueDate` is falsy, and exactly then nothing is passed to `createDebt`. Otherwise `createDebt` receives the caller's id as creditor plus the four body values; the reply is 201 with what it stored, or 500 "Failed to create debt" when it fails. |
| `DebtRoutes.ZeroAmountRejected` | src/routes/debts.ts:28-29 | An amount of 0 is falsy, so the request gets 400 and nothing is submitted. |
| `DebtRoutes.MissingFieldRejected` | src/routes/debts.ts:28-29 | A body without `description` gets 400 and nothing is submitted. |
| `DebtRoutes.NegativeSelfDebtSubmitted` | src/routes/debts.ts:25-38 | A negative amount with the caller as debtor passes the check and is submitted, with the caller as both debtor and creditor. |
| `DebtRoutes.CreditorIsCaller` | src/routes/debts.ts:26 | A `creditorId` in the body is ignored: whatever is submitted names the caller as creditor. |
| `DebtRoutes.GetSummary` | src/routes/debts.ts:46-53 | The reply is 200 with the caller's summary iff `getDebtSummary` succeeds, and 500 "Failed to fetch summary" otherwise. |
| `DebtRoutes.GetChains` | src/routes/debts.ts:56-63 | The reply is always 200 with an empty chain list. |

## Left out

- The settlement engine (graph building, cycle and chain finding, bottleneck netting, cash injection, transaction emission): the source has no implementation, only the `[]` stub that is modelled.
- Register, login, `generateToken`, `hashPassword` and `comparePassword`: they are store lookups plus bcrypt and JWT calls with no logic of their own.
- `jwt.verify` and `User.findById`: these are oracles. The model fixes only what the middleware does with their answers (and with their exceptions, which land in the `catch`).
- `createDebt`, `new Date(dueDate)` and Mongoose's casting and validation on save: together they form the `persist` oracle. Only the arguments the route hands to it are modelled.
- Store failures other than a dangling party reference (connection errors, cast errors on a malformed id): these would also give 500 but are not modelled.
- `DebtChainService.SortByCreatedDesc`: the store leaves the order of equal `createdAt` values unspecified. The model keeps collection order for them; only "newest first" and "a permutation" are claimed.
- `DebtChainService.GetDebtSummary`: `reduce` runs on IEEE doubles, but the model sums exact reals. No rounding behaviour is modelled.
- `DebtRoutes.GetDebts`: a repeated or nested `status` query value (an array or object from the query-string parser) is not modelled; `status` is a string or absent.
- `Middleware.AuthMiddleware`: an exception thrown by the next handler inside the `try` (which would also give 403) is not modelled.
- The `settledAt` field of a debt: none of the modelled code reads it.
- Express setup, CORS, helmet, logging, the health check, the 404 and error handlers, and the routes in src/routes/auth.ts and src/routes/users.ts: these are plumbing.
