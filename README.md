# Credit ledger and payment settlement of the DIPAK DIGITAL AI mock backend

The web app sells AI image generation for credits. Its mock backend
(`services/mockBackend.ts`) keeps three stores: registered users, a payment
journal and an image log. It also keeps a session copy of the signed-in user.
On these it runs four groups of operations:

- identity: `registerUser`, `loginUser`;
- the credit ledger: `updateUserCredits` adds and subtracts credits;
- the payment journal: `createPayment`, `approvePayment`;
- the generation log and its read side: `saveImage`, `getUserImages`, `getAnalytics`.

This Dafny project models that module.

- `types.dfy` (module `Types`) holds the records and enumerations of
  `types.ts`, the constants of `constants.ts`, and one `Error` per message
  the backend throws. A call that throws is modelled as an `Err` result.
- `arrays.dfy` (module `Arrays`) gives `findIndex`, `find` and `filter` as
  recursive functions. Their contracts state the first match and what the
  filter keeps.
- `mock_backend.dfy` (module `MockBackend`) first gives each operation as a
  pure transition. A transition takes a `Store` (the three stores and the
  session) to the next `Store`, and also yields the call's result or error.
  The class `Backend` then holds the stores as `seq` fields. Its methods
  append, prepend and update one record in place, as the source does. Each
  method is proved to leave exactly the state its transition describes.
  The queries (`Login`, `UserImages`, `GetAnalytics`) are functions of the
  stores.
- `properties.dfy` (module `Properties`) proves properties that span
  several calls:
  - balances stay non-negative;
  - approval is idempotent and credits exactly once;
  - a manual payment credits nothing until it is approved;
  - a new user can log in;
  - revenue and the image history follow every write;
  - the worked scenarios of the design (25 → 23 → refused, 150 credited
    once, revenue 278 with 6 credits consumed).

Ids (`generateId`, which uses `Math.random`) and timestamps (`Date.now()`)
are parameters of the operations. Reads and writes of `localStorage` are
replaced by the `Store` value, or by the fields of `Backend`.

Where the design description and the code disagree, the model follows the
code:

- `createPayment` and `approvePayment` save the SUCCESS status before they
  credit the owner. So when the owner is unknown, a settled record remains
  while the call fails with "User not found". The design asks for the record
  to show FAILED instead; `Purchase` and `Approve` keep the code's behaviour,
  and their contracts state it.
- The password is kept on the user record itself, and `loginUser` returns
  that record. The design asks for a separate credential store.
- `updateUserCredits` does not check that `amount` is positive. So a
  negative add can drive a balance below zero. Non-negativity is proved for
  subtractions and for non-negative adds.

## Model

| member | source | states |
|---|---|---|
| `Arrays.FindIndex` | services/mockBackend.ts:54 | the index of the first element satisfying the test, and None exactly when no element does |
| `Arrays.Find` | services/mockBackend.ts:45 | Some exactly when an element satisfies the test; the value is the first such element of the sequence |
| `Arrays.Filter` | services/mockBackend.ts:153 | every kept element is in the input and passes the test; every input element that passes is kept; never longer than the input |
| `Arrays.FilterConcat` | services/mockBackend.ts:153 | filtering a concatenation is the concatenation of the filtered parts, so kept elements keep their order |
| `MockBackend.UserIndex` | services/mockBackend.ts:54-55 | the first user with the id, or None exactly when no user has it |
| `MockBackend.PaymentIndex` | services/mockBackend.ts:115-116 | the first payment with the id, or None exactly when no payment has it |
| `MockBackend.Register` | services/mockBackend.ts:18-41 | fails with UserAlreadyExists, leaving the store as it was, exactly when some user has the email; otherwise appends one user with 25 credits, role ADMIN iff the email is the admin address, the given fields and password, and changes nothing else |
| `MockBackend.Login` | services/mockBackend.ts:43-50 | succeeds exactly when some stored user matches both email and password, returning the first such stored user; otherwise InvalidCredentials |
| `MockBackend.SyncSession` | services/mockBackend.ts:66-74 | the session copy takes the new balance when it is the same user and is untouched otherwise; it is never created or removed |
| `MockBackend.UpdateCredits` | services/mockBackend.ts:52-77 | unknown id → UserNotFound; subtracting more than the balance → InsufficientCredits; on any error the store is unchanged; otherwise only the first user with that id changes, by exactly +amount or −amount; the session is synced; a successful subtract leaves the balance ≥ 0 |
| `MockBackend.NewPayment` | services/mockBackend.ts:92-101 | status SUCCESS iff the method is RAZORPAY, PENDING iff UPI_MANUAL; transaction id defaults to the empty string; the other fields as given |
| `MockBackend.Purchase` | services/mockBackend.ts:90-111 | appends exactly the new record; a UPI_MANUAL payment leaves users and session alone; a RAZORPAY payment credits its owner by exactly its credits, or fails with UserNotFound after saving the settled record |
| `MockBackend.Approve` | services/mockBackend.ts:113-126 | unknown id → PaymentNotFound with nothing changed; an already settled record → nothing changed; otherwise only that record becomes SUCCESS and its owner is credited once by its credits (UserNotFound, with the status still saved, when the owner is unknown) |
| `MockBackend.LogImage` | services/mockBackend.ts:135-150 | the new record goes to index 0 and the older records follow in their order; the other stores are unchanged |
| `MockBackend.UserImages` | services/mockBackend.ts:152-154 | the result holds only images of that user drawn from the log, and every image of that user |
| `MockBackend.GetAnalytics` | services/mockBackend.ts:156-173 | user and image counts are the store sizes, revenue is the settled revenue, and credits consumed is the image cost times the image count |
| `MockBackend.Backend.constructor` | services/mockBackend.ts:9-12 | the backend opens on the given store contents |
| `MockBackend.Backend.RegisterUser` | services/mockBackend.ts:18-41 | the in-place append leaves exactly the state and result of `Register` |
| `MockBackend.Backend.UpdateUserCredits` | services/mockBackend.ts:52-77 | the in-place update of one user and the session leaves exactly the state and result of `UpdateCredits` |
| `MockBackend.Backend.CreatePayment` | services/mockBackend.ts:90-111 | pushing the record, then crediting through `UpdateUserCredits`, leaves exactly the state and result of `Purchase` |
| `MockBackend.Backend.ApprovePayment` | services/mockBackend.ts:113-126 | rewriting the record in place, then crediting, leaves exactly the state and result of `Approve` |
| `MockBackend.Backend.SaveImage` | services/mockBackend.ts:135-150 | the in-place prepend leaves exactly the state and record of `LogImage` |
| `Properties.RegisterThenLogin` | services/mockBackend.ts:18-50 | registering a fresh email succeeds, and logging in with that email and password then returns the new user |
| `Properties.RegisterTwiceFails` | services/mockBackend.ts:19-22 | a second registration with the same email fails with UserAlreadyExists and leaves every store as the first left it |
| `Properties.UpdateKeepsBalancesNonNegative` | services/mockBackend.ts:57-62 | if all balances are ≥ 0, they stay so after any subtract or non-negative add, successful or not |
| `Properties.SessionFollowsBalance` | services/mockBackend.ts:66-74 | after a successful update of the signed-in user, the session copy shows the stored balance |
| `Properties.PaymentIndexAfterUpdate` | services/mockBackend.ts:115-122 | rewriting a record without changing its id leaves the lookup finding the same index |
| `Properties.ApproveIdempotent` | services/mockBackend.ts:113-126 | approving the outcome of an approval again changes no store, whatever the first call did |
| `Properties.ApproveTwiceCreditsOnce` | services/mockBackend.ts:119-125 | two approvals of a pending payment whose owner exists credit that owner exactly once and leave every other user unchanged |
| `Properties.ManualPaymentThenApprove` | services/mockBackend.ts:90-126 | a UPI_MANUAL payment with a fresh id is PENDING and changes no balance; approving it settles that record and credits the owner by exactly its credits |
| `Properties.InstantPaymentCredits` | services/mockBackend.ts:98-108 | a RAZORPAY payment for an existing user is SUCCESS and raises that user's balance by exactly its credits |
| `Properties.SumAmountsConcat` | services/mockBackend.ts:163-165 | the reduce-sum of concatenated journals is the sum of their sums |
| `Properties.RevenueAppend` | services/mockBackend.ts:163-165 | appending a record adds its amount to the revenue exactly when it is SUCCESS |
| `Properties.RevenueSettle` | services/mockBackend.ts:163-165 | settling one unsettled record adds exactly its amount to the revenue |
| `Properties.RevenueAfterPurchase` | services/mockBackend.ts:90-111 | a purchase raises revenue by its amount exactly when it is RAZORPAY |
| `Properties.RevenueAfterApprove` | services/mockBackend.ts:113-126 | an approval raises revenue by the payment's amount only when it settles an unsettled record, and never otherwise |
| `Properties.SumAmountsNonNegative` | services/mockBackend.ts:165 | a sum of non-negative amounts is non-negative |
| `Properties.RevenueNonNegative` | services/mockBackend.ts:163-165 | revenue is ≥ 0 when no payment amount is negative |
| `Properties.UserImagesAfterLogImage` | services/mockBackend.ts:147-153 | after an image is saved, its owner's history is that image followed by the earlier history; every other user's history is unchanged |
| `Properties.AnalyticsAfterLogImage` | services/mockBackend.ts:161-166 | saving an image adds one image and two consumed credits, with users and revenue unchanged |
| `Properties.RegisterAndDebitScenario` | services/mockBackend.ts:18-64 | a new account holds 25 credits; a debit of 2 leaves 23; a debit of 30 then fails with InsufficientCredits and changes nothing |
| `Properties.ManualSettlementScenario` | services/mockBackend.ts:90-126 | a manual Pro-plan payment (199 for 150 credits) stays pending at balance 25; the first approval brings it to 175; the second changes nothing |
| `Properties.AnalyticsScenario` | services/mockBackend.ts:156-173 | a RAZORPAY payment of 79, an approved manual payment of 199 and three images give revenue 278 and 6 credits consumed |

## Left out

- Reading and writing `localStorage` and the JSON encoding in `getUsers`, `saveUsers`, `getPayments`, `savePayments` and `getImages` are I/O. The stores are a `Store` value, or the fields of `Backend`, and the constructor takes whatever the stores hold.
- `generateId` (`Math.random`) and `createdAt` (`Date.now()`) are not deterministic, so ids and timestamps are parameters. Nothing assumes ids are unique: lookups take the first match, as `findIndex` does. `ManualPaymentThenApprove` requires a fresh payment id.
- Numbers are JavaScript doubles in the source and unbounded integers here. Floating-point amounts, `NaN` and infinities are not modelled.
- The session pointer is written by the sign-in page and cleared by the layout, both UI code. The model only reads the session, and updates it in `updateUserCredits`.
- The `user-updated` window event and the `alert`/`prompt` calls are UI notifications. They have no effect on the stores.
- The generation flow in `pages/Generator.tsx` is an asynchronous UI handler around a network call, so it is not modelled. Its order is: check the balance, call the provider, subtract `IMAGE_COST`, then `saveImage`. `UpdateCredits` and `LogImage` model its two store writes.
- `services/geminiService.ts` wraps an external network client and is not part of this model.
- The race between browser tabs sharing one storage is a concurrency issue. The model is single-threaded.
- No operation produces the `FAILED` status, so the model has no transition into it. Like the source, `Approve` settles any record that is not already SUCCESS.
- The optional `proofUrl` field of a payment is never written by the backend, so it is not modelled.
- The plan lookup and the random transaction ids in `pages/Pricing.tsx` are UI glue. `PLANS` is only used in the worked scenarios.
- MockBackend.UserImages: its own contract states which images are kept, not their order. The order is stated by `Arrays.FilterConcat` and `Properties.UserImagesAfterLogImage`.
