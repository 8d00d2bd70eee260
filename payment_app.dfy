/** The payment flow of the `App` component (app/page.tsx): three pieces of
    component state, the request and query sent to the payment SDK, and the
    three event handlers that overwrite the state.

    The SDK calls `pay` and `getPaymentStatus` are not modelled: each handler
    receives the outcome the call would have produced as a parameter.
 */
module PaymentApp {

  /** The two colour schemes; the source's `'light' | 'dark'` union. */
  datatype Theme = Light | Dark

  /** What an awaited SDK call produced: a value, or a thrown error. */
  datatype Outcome<T> = Ok(value: T) | Err

  datatype Option<T> = None | Some(value: T)

  /** The argument object passed to `pay`. */
  datatype PaymentRequest = PaymentRequest(amount: string, to: string, testnet: bool)

  /** The argument object passed to `getPaymentStatus`. */
  datatype StatusQuery = StatusQuery(id: string, testnet: bool)

  /** The three state fields of the component, as a value. */
  datatype Snapshot = Snapshot(paymentStatus: string, paymentId: string, theme: Theme)

  // The messages the handlers write into `paymentStatus`. The two long ones
  // are written as concatenations of shorter literals only so that the
  // verifier can read individual characters of them.
  const InitiatedMessage: string := "Payment initiated! " + "Click \"Check Status\" " + "to see the result."
  const PaymentFailedMessage: string := "Payment failed"
  const NoPaymentIdMessage: string := "No payment ID found." + " Please make a payment first."
  const StatusCheckFailedMessage: string := "Status check failed"
  const StatusPrefix: string := "Payment status: "

  // The fixed configuration of the payment request.
  const Amount: string := "0.01"
  const Recipient: string := "0x0000000000000000000000000000000000000001"
  const UseTestnet: bool := true

  /** The state on every fresh load: no message, no payment, light theme. */
  const Initial: Snapshot := Snapshot("", "", Light)

  predicate IsHexDigit(c: char) {
    '0' <= c <= '9' || 'a' <= c <= 'f' || 'A' <= c <= 'F'
  }

  /** A 20-byte account address written as `0x` and forty hex digits. */
  predicate IsHexAddress(s: string) {
    |s| == 42 && s[0] == '0' && s[1] == 'x' &&
    forall i :: 2 <= i < |s| ==> IsHexDigit(s[i])
  }

  /** A non-negative decimal amount: digits, one point, digits. */
  predicate IsDecimalAmount(s: string) {
    exists p :: 0 < p < |s| - 1 && s[p] == '.' &&
      forall i :: 0 <= i < |s| && i != p ==> '0' <= s[i] <= '9'
  }

  /** `theme === 'light' ? 'dark' : 'light'`: the other theme. With two
      themes, being different from the argument determines the result. */
  function Toggled(t: Theme): (r: Theme)
    ensures r != t
  {
    if t == Light then Dark else Light
  }

  /** The request every payment initiation sends: a decimal amount to a
      well-formed address, on the test network. */
  function InitiationRequest(): (r: PaymentRequest)
    ensures IsDecimalAmount(r.amount) && IsHexAddress(r.to)
    ensures r.testnet
  {
    assert Amount[1] == '.';
    PaymentRequest(Amount, Recipient, UseTestnet)
  }

  /** The status query for a stored id: the id itself, verbatim, on the
      same network as the initiation that produced it. */
  function QueryFor(id: string): (r: StatusQuery)
    ensures r.id == id
    ensures r.testnet == InitiationRequest().testnet
  {
    StatusQuery(id, UseTestnet)
  }

  /** The message shown for a status returned by the SDK: a fixed prefix
      followed by the status, embedded verbatim. */
  function StatusLine(status: string): (r: string)
    ensures |r| == |StatusPrefix| + |status|
    ensures r[..|StatusPrefix|] == StatusPrefix
    ensures r[|StatusPrefix|..] == status
  {
    StatusPrefix + status
  }

  /** The status line determines the status it was built from. */
  lemma StatusLineInjective(a: string, b: string)
    requires StatusLine(a) == StatusLine(b)
    ensures a == b
  {
  }

  /** A reported status can never be mistaken for one of the fixed
      messages, whatever text the SDK returns. */
  lemma StatusLineIsDistinct(status: string)
    ensures StatusLine(status) != InitiatedMessage
    ensures StatusLine(status) != PaymentFailedMessage
    ensures StatusLine(status) != NoPaymentIdMessage
    ensures StatusLine(status) != StatusCheckFailedMessage
  {
    var r := StatusLine(status);
    assert r[0] == StatusPrefix[0] == 'P';
    assert r[8] == StatusPrefix[8] == 's';
    assert InitiatedMessage[8] == 'i';
    assert NoPaymentIdMessage[0] == 'N';
    assert StatusCheckFailedMessage[0] == 'S';
  }

  /** Whether the status box is rendered: only when there is a message,
      so never on a fresh load. */
  predicate ShowsStatusBox(s: Snapshot)
    ensures ShowsStatusBox(s) <==> |s.paymentStatus| > 0
    ensures s == Initial ==> !ShowsStatusBox(s)
  {
    s.paymentStatus != ""
  }

  /** `handlePayment` on a state, given what `pay` produced: on success the
      returned id is stored verbatim and the "initiated" message set; on
      failure only the message changes. The theme is never touched. */
  function AfterPayment(s: Snapshot, paid: Outcome<string>): (r: Snapshot)
    ensures r.theme == s.theme
    ensures paid.Ok? ==> r.paymentId == paid.value && r.paymentStatus == InitiatedMessage
    ensures paid.Err? ==> r.paymentId == s.paymentId && r.paymentStatus == PaymentFailedMessage
    ensures ShowsStatusBox(r)
  {
    match paid
    case Ok(id) => s.(paymentId := id, paymentStatus := InitiatedMessage)
    case Err => s.(paymentStatus := PaymentFailedMessage)
  }

  /** The query `handleCheckStatus` sends, or None when the empty-id guard
      stops it before any call. */
  function CheckQuery(s: Snapshot): (r: Option<StatusQuery>)
    ensures r.Some? <==> s.paymentId != ""
    ensures r.Some? ==> r.value.id == s.paymentId && r.value.testnet == InitiationRequest().testnet
  {
    if s.paymentId == "" then None else Some(QueryFor(s.paymentId))
  }

  /** Whether the "Check Payment Status" button, the only trigger of
      `handleCheckStatus`, is rendered: only when a payment id is stored,
      which is exactly when a status check gets past the guard. So from the
      rendered page the guard never fires. */
  predicate ShowsCheckButton(s: Snapshot)
    ensures ShowsCheckButton(s) <==> CheckQuery(s).Some?
    ensures s == Initial ==> !ShowsCheckButton(s)
  {
    s.paymentId != ""
  }

  /** `handleCheckStatus` on a state, given what `getPaymentStatus` would
      produce. With no stored id the outcome is never consulted. Only the
      message changes: the id and the theme stay as they were. */
  function AfterCheck(s: Snapshot, answer: Outcome<string>): (r: Snapshot)
    ensures r.paymentId == s.paymentId && r.theme == s.theme
    ensures s.paymentId == "" ==> r.paymentStatus == NoPaymentIdMessage
    ensures s.paymentId != "" && answer.Ok? ==> r.paymentStatus == StatusLine(answer.value)
    ensures s.paymentId != "" && answer.Err? ==> r.paymentStatus == StatusCheckFailedMessage
    ensures ShowsStatusBox(r)
  {
    if s.paymentId == "" then
      s.(paymentStatus := NoPaymentIdMessage)
    else
      match answer
      case Ok(status) => s.(paymentStatus := StatusLine(status))
      case Err => s.(paymentStatus := StatusCheckFailedMessage)
  }

  /** `toggleTheme` on a state: flips the theme and nothing else. */
  function AfterToggle(s: Snapshot): (r: Snapshot)
    ensures r.theme != s.theme
    ensures r.paymentId == s.paymentId && r.paymentStatus == s.paymentStatus
  {
    s.(theme := Toggled(s.theme))
  }

  /** The component itself: three fields that the handlers overwrite. */
  class App {
    var paymentStatus: string
    var paymentId: string
    var theme: Theme

    /** The current state as a value. */
    function Current(): Snapshot
      reads this
    {
      Snapshot(paymentStatus, paymentId, theme)
    }

    /** The three `useState` initial values. */
    constructor ()
      ensures paymentStatus == "" && paymentId == "" && theme == Light
      ensures Current() == Initial
    {
      paymentStatus := "";
      paymentId := "";
      theme := Light;
    }

    /** `handlePayment`: sends the fixed request; `paid` is what `pay`
        produced. */
    method HandlePayment(paid: Outcome<string>) returns (request: PaymentRequest)
      modifies this`paymentId, this`paymentStatus
      ensures request == InitiationRequest()
      ensures theme == old(theme)
      ensures paid.Ok? ==> paymentId == paid.value && paymentStatus == InitiatedMessage
      ensures paid.Err? ==> paymentId == old(paymentId) && paymentStatus == PaymentFailedMessage
      ensures Current() == AfterPayment(old(Current()), paid)
    {
      request := InitiationRequest();
      match paid {
        case Ok(id) =>
          paymentId := id;
          paymentStatus := InitiatedMessage;
        case Err =>
          paymentStatus := PaymentFailedMessage;
      }
    }

    /** `handleCheckStatus`: returns the query sent to `getPaymentStatus`,
        or None when the empty-id guard returns early without a call;
        `answer` is what that call would produce. */
    method HandleCheckStatus(answer: Outcome<string>) returns (query: Option<StatusQuery>)
      modifies this`paymentStatus
      ensures paymentId == old(paymentId) && theme == old(theme)
      ensures query.Some? <==> paymentId != ""
      ensures query.Some? ==> query.value == QueryFor(paymentId)
      ensures paymentId == "" ==> paymentStatus == NoPaymentIdMessage
      ensures paymentId != "" && answer.Ok? ==> paymentStatus == StatusLine(answer.value)
      ensures paymentId != "" && answer.Err? ==> paymentStatus == StatusCheckFailedMessage
      ensures query == CheckQuery(old(Current()))
      ensures Current() == AfterCheck(old(Current()), answer)
    {
      if paymentId == "" {
        paymentStatus := NoPaymentIdMessage;
        query := None;
        return;
      }
      query := Some(QueryFor(paymentId));
      match answer {
        case Ok(status) =>
          paymentStatus := StatusLine(status);
        case Err =>
          paymentStatus := StatusCheckFailedMessage;
      }
    }

    /** `toggleTheme`. */
    method ToggleTheme()
      modifies this`theme
      ensures theme == Toggled(old(theme))
      ensures paymentId == old(paymentId) && paymentStatus == old(paymentStatus)
      ensures Current() == AfterToggle(old(Current()))
    {
      theme := Toggled(theme);
    }
  }
}
