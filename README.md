# Payment flow of the Base Account demo page

This project models the payment flow of the single client component `App`
(app/page.tsx). The component lets a user start a 0.01 USD payment, settled in
USDC, to a fixed recipient on the test network. The user can then ask the
payment SDK for the status of that payment and switch between a light and a
dark theme.

The component holds three state fields:

- `paymentStatus`: the message shown to the user.
- `paymentId`: the id returned by the most recent successful payment. It is `""` before any successful payment, or when the last one returned an empty id.
- `theme`: `light` or `dark`.

Three handlers overwrite these fields:

- `handlePayment` calls the SDK's `pay` with a fixed request. On success it stores the returned id and an "initiated" message. On failure it stores "Payment failed".
- `handleCheckStatus` first checks the stored id. If it is empty, it stores a fixed "no payment ID" message and makes no call. Otherwise it calls `getPaymentStatus` with the stored id on the test network. It then stores `Payment status: <status>` or "Status check failed".
- `toggleTheme` flips the theme.

The model has two files:

- `payment_app.dfy`, module `PaymentApp`. It holds the data model (`Theme`,
  `PaymentRequest`, `StatusQuery`, `Snapshot`), the fixed messages and request
  constants, and one pure transition function per handler (`AfterPayment`,
  `CheckQuery` with `AfterCheck`, `AfterToggle`). It also holds the class `App`,
  whose three mutable fields are overwritten by `HandlePayment`,
  `HandleCheckStatus` and `ToggleTheme`. Each method's postcondition says what
  it writes and what it leaves alone. It also ties the new state to the
  matching transition function.
- `sessions.dfy`, module `Sessions`. It describes sessions: sequences of user
  actions, each handled to completion, starting from a fresh load. Lemmas over
  all sessions relate the final state, and the SDK calls issued, to the actions
  taken.

The SDK calls are not modelled. Each handler takes the outcome of the awaited
call as a parameter, `Outcome<T> = Ok(value) | Err`, where `Err` stands for a
thrown error. `HandleCheckStatus` returns the query it sends, or `None` when
the empty-id guard returns early without a call.

Two facts about the code shape what the model promises:

- A successful payment can store an empty id, because the `@ts-expect-error`
  at app/page.tsx:19 leaves `id` unchecked. The id is written only at
  app/page.tsx:27, after `pay` has resolved, so a non-empty stored id was
  returned by a payment of the session (`Sessions.StoredIdIsLastPaidId` with
  `Sessions.LastPaidIdWasPaid`). The converse fails: an empty stored id does
  not mean that no payment succeeded. After such a payment, the page shows the "initiated" message,
  which tells the user to click "Check Status", but it renders no Check Status
  button (`Sessions.EmptyIdScenario`).
- The only trigger of `handleCheckStatus` is the button at
  app/page.tsx:130-132, which is rendered only while an id is stored. The
  empty-id guard at app/page.tsx:37-40 is therefore defensive: from the
  rendered page it never fires (`Sessions.GuardSilentOnPage`). `Sessions`
  itself allows a status check in any state, so the lemmas about the guard
  describe the handler, not something a user of the page can reach.

The component has no sign-in or connection state.

## Model

| member | source | states |
|---|---|---|
| PaymentApp.Toggled | app/page.tsx:52 | the next theme always differs from the current one; with only two themes, light becomes dark and dark becomes light |
| PaymentApp.InitiationRequest | app/page.tsx:20-24 | every payment request sends a decimal amount to a well-formed 0x-prefixed 40-hex-digit address, with the testnet flag set |
| PaymentApp.QueryFor | app/page.tsx:43 | the status query carries the stored id verbatim and uses the same testnet flag as the payment request |
| PaymentApp.StatusLine | app/page.tsx:44 | the status message is the prefix `Payment status: ` followed by the SDK's status, embedded verbatim |
| PaymentApp.StatusLineInjective | app/page.tsx:44 | two status messages are equal only when the reported statuses are equal |
| PaymentApp.StatusLineIsDistinct | app/page.tsx:28-47 | no status line equals any of the four fixed messages, whatever status the SDK returns |
| PaymentApp.AfterPayment | app/page.tsx:17-33 | success stores the returned id unchanged and sets the initiated message; failure sets "Payment failed" and keeps the previous id; the theme never changes; the status box is shown afterwards |
| PaymentApp.CheckQuery | app/page.tsx:36-43 | a status check queries the SDK if and only if the stored id is non-empty; the query uses the stored id on the payment's network |
| PaymentApp.ShowsCheckButton | app/page.tsx:130-145 | the "Check Payment Status" button is rendered exactly when a status check would get past the guard and query the SDK; it is not rendered on a fresh load |
| PaymentApp.ShowsStatusBox | app/page.tsx:148-152 | the status box is rendered exactly when the message is non-empty; it is not rendered on a fresh load |
| PaymentApp.AfterCheck | app/page.tsx:36-49 | with an empty id the message is the no-payment message whatever the outcome; otherwise it is the status line or "Status check failed"; the id and theme never change |
| PaymentApp.AfterToggle | app/page.tsx:51-53 | the theme flips; the id and message are unchanged |
| PaymentApp.App.constructor | app/page.tsx:9-11 | a fresh component starts with an empty message, no payment id and the light theme |
| PaymentApp.App.HandlePayment | app/page.tsx:17-33 | sends the fixed request; on success stores the returned id verbatim and sets the initiated message; on failure sets "Payment failed" and keeps the id; the theme is untouched |
| PaymentApp.App.HandleCheckStatus | app/page.tsx:36-49 | returns a query exactly when the id is non-empty, and that query holds the stored id on testnet; with no id it sets the no-payment message; otherwise it sets the status line or "Status check failed"; it never changes the id or theme |
| PaymentApp.App.ToggleTheme | app/page.tsx:51-53 | flips the theme and changes neither the id nor the message |
| Sessions.CallOf | app/page.tsx:17-53 | a payment always calls `pay` with the fixed request, even when the call then throws; a status check calls `getPaymentStatus` with the stored id if and only if that id is non-empty; a toggle calls nothing |
| Sessions.StoredIdIsLastPaidId | app/page.tsx:17-49 | after any session, the stored id is the id returned by the most recent successful payment, untransformed, or empty if no payment has succeeded; failed payments and status checks never overwrite it |
| Sessions.LastPaidIdWasPaid | app/page.tsx:27 | a non-empty last id is one that some payment of the session returned |
| Sessions.PaidIdsGrow | app/page.tsx:27 | the set of returned ids only grows as a session goes on |
| Sessions.CheckQueriesLastPaidId | app/page.tsx:27-43 | after any session, a status check queries the SDK if and only if the last successful payment returned a non-empty id, and the query names that id |
| Sessions.StatusCallsUsePaidIds | app/page.tsx:20-43 | every status query a session sends names a non-empty id that a payment of the same session returned, on testnet |
| Sessions.NoStatusCallWithoutPayment | app/page.tsx:37-40 | until a payment succeeds, only payment calls reach the SDK; no status check makes an external call |
| Sessions.NoPaymentNoPaidIds | app/page.tsx:27 | a session without a successful payment has returned no ids |
| Sessions.ThemeFollowsToggles | app/page.tsx:51-53 | the theme after a session is the starting theme after an even number of toggles and the other theme after an odd number; payments and checks never change it |
| Sessions.ToggleTwiceRestores | app/page.tsx:51-53 | toggling twice restores the whole state |
| Sessions.ChecksKeepPaymentId | app/page.tsx:36-49 | a session of status checks and toggles keeps the stored id, whatever the checks return, so status can be checked repeatedly against the same id |
| Sessions.StatusShownIffActed | app/page.tsx:148-152 | from a fresh load, the status box is shown if and only if the user has made at least one payment or status check |
| Sessions.StatusIsLastMessage | app/page.tsx:28-47 | after any session the message is the one produced by its last payment or status check (judged by whether the most recent successful payment returned a non-empty id), or empty if there was none; toggles never change it |
| Sessions.GuardSilentOnPage | app/page.tsx:37-40 | in any session where every status check comes from the rendered check button, the no-payment message never appears, whatever the SDK returns |
| Sessions.StatusAlwaysWellFormed | app/page.tsx:28-47 | the message is always empty, one of the four fixed messages, or a line that starts with the status prefix |
| Sessions.PayThenCheckScenario | app/page.tsx:17-49 | a payment returning "pay_123" and then a check returning "completed" leave id "pay_123" and message "Payment status: completed", and issue exactly one payment call and one status query for "pay_123" |
| Sessions.CheckFirstScenario | app/page.tsx:37-40 | the handler's guard path: a status check on a fresh load (which the page itself never offers) sets the no-payment message and issues no call |
| Sessions.FailedPaymentScenario | app/page.tsx:29-32 | a payment that throws on a fresh load sets "Payment failed" and leaves no id |
| Sessions.EmptyIdScenario | app/page.tsx:19-40 | a successful payment whose result has an empty id shows the initiated message, which points at a check button that is not rendered; a status check made anyway takes the no-id branch without a call |

## Left out

- The SDK calls `pay` and `getPaymentStatus` (app/page.tsx:20, 43) run in an external library over the network. Their results are parameters of the handlers.
- Asynchronous interleaving is not modelled. In the source, each handler awaits its SDK call, so a second click can start before the first completes. Also, `handleCheckStatus` reads the `paymentId` captured when the component was last rendered. The model runs each handler to completion, one at a time, on the current state.
- `Sessions` does not restrict when a status check can happen. It allows a check in any state, which is more than the page offers, since the page renders the check button only while an id is stored. `Sessions.PageSession` names the sessions the page can produce, and only `Sessions.GuardSilentOnPage` is restricted to them.
- The `console.log` and `console.error` diagnostics (app/page.tsx:25, 30, 46) are output only.
- JavaScript's `undefined` is not modelled. A missing `id` in `pay`'s result, or a missing `status` in `getPaymentStatus`'s result, would be `undefined` in JavaScript. The model uses a string in both places. A missing id behaves like `""`, since both fail the `!paymentId` guard. A missing status would be displayed as the text `undefined`.
- The `styles` object, the JSX tree and `BasePayButton` (app/page.tsx:55-155) are presentation only. Two rendering conditions are kept as predicates: `ShowsCheckButton` (app/page.tsx:130) and `ShowsStatusBox` (app/page.tsx:148).
- React's re-rendering and state batching are not modelled. Each `set…` call is treated as an immediate field write.
