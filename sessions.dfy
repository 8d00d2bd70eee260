/** Sessions of the `App` component: sequences of user actions, each handled
    to completion before the next, starting from a fresh load. The lemmas
    here relate the state after a whole session to the actions in it. */
module Sessions {
  import opened PaymentApp

  /** One user action together with the outcome of the SDK call it makes. */
  datatype Event =
    | Pay(paid: Outcome<string>)
    | Check(answer: Outcome<string>)
    | Toggle

  /** An external call issued to the payment SDK. */
  datatype Call = PayCall(request: PaymentRequest) | StatusCall(query: StatusQuery)

  /** The state after one action. */
  function Step(s: Snapshot, e: Event): Snapshot {
    match e
    case Pay(paid) => AfterPayment(s, paid)
    case Check(answer) => AfterCheck(s, answer)
    case Toggle => AfterToggle(s)
  }

  /** The SDK call one action issues from state `s`, if any: a payment
      always calls `pay`, whether or not it then throws; a status check
      calls `getPaymentStatus` only past the empty-id guard; a toggle calls
      nothing. */
  function CallOf(s: Snapshot, e: Event): (r: Option<Call>)
    ensures e.Pay? ==> r == Some(PayCall(InitiationRequest()))
    ensures e.Check? ==> (r.Some? <==> s.paymentId != "")
    ensures e.Check? && r.Some? ==> r.value == StatusCall(QueryFor(s.paymentId))
    ensures e.Toggle? ==> r.None?
  {
    match e
    case Pay(_) => Some(PayCall(InitiationRequest()))
    case Check(_) =>
      (match CheckQuery(s)
       case None => None
       case Some(q) => Some(StatusCall(q)))
    case Toggle => None
  }

  /** The state after a whole session of actions started in `s`. */
  function Run(s: Snapshot, es: seq<Event>): Snapshot
    decreases |es|
  {
    if es == [] then s else Step(Run(s, es[..|es| - 1]), es[|es| - 1])
  }

  /** The SDK calls a session issues, in order. */
  function Calls(s: Snapshot, es: seq<Event>): seq<Call>
    decreases |es|
  {
    if es == [] then []
    else
      var before := es[..|es| - 1];
      Calls(s, before) +
        match CallOf(Run(s, before), es[|es| - 1])
        case None => []
        case Some(c) => [c]
  }

  /** The id returned by the last successful payment, or "" if none. */
  function LastPaidId(es: seq<Event>): string
    decreases |es|
  {
    if es == [] then ""
    else
      match es[|es| - 1]
      case Pay(Ok(id)) => id
      case _ => LastPaidId(es[..|es| - 1])
  }

  /** Every id some payment in the session returned. */
  function PaidIds(es: seq<Event>): set<string>
    decreases |es|
  {
    if es == [] then {}
    else
      match es[|es| - 1]
      case Pay(Ok(id)) => PaidIds(es[..|es| - 1]) + {id}
      case _ => PaidIds(es[..|es| - 1])
  }

  /** The message the last payment or status check of a session leaves,
      or "" before any. A status check's message depends on whether the
      most recent successful payment before it returned a non-empty id. */
  function LastMessage(es: seq<Event>): string
    decreases |es|
  {
    if es == [] then ""
    else
      var before := es[..|es| - 1];
      match es[|es| - 1]
      case Pay(Ok(_)) => InitiatedMessage
      case Pay(Err) => PaymentFailedMessage
      case Check(answer) =>
        if LastPaidId(before) == "" then NoPaymentIdMessage
        else if answer.Ok? then StatusLine(answer.value)
        else StatusCheckFailedMessage
      case Toggle => LastMessage(before)
  }

  /** A session the rendered page can produce: every status check is made
      from the "Check Payment Status" button, so only while it is shown. */
  predicate PageSession(es: seq<Event>) {
    forall i :: 0 <= i < |es| && es[i].Check? ==> ShowsCheckButton(Run(Initial, es[..i]))
  }

  /** How many theme toggles the session holds. */
  function ToggleCount(es: seq<Event>): nat
    decreases |es|
  {
    if es == [] then 0
    else ToggleCount(es[..|es| - 1]) + if es[|es| - 1].Toggle? then 1 else 0
  }

  /** The shapes a status message can take. */
  predicate WellFormedStatus(m: string) {
    m == "" || m == InitiatedMessage || m == PaymentFailedMessage ||
    m == NoPaymentIdMessage || m == StatusCheckFailedMessage ||
    StatusPrefix <= m
  }

  /** The stored id is exactly the id the most recent successful payment
      returned, untransformed, or "" when no payment has succeeded yet: a
      failed payment or a status check never overwrites it. */
  lemma {:induction false} StoredIdIsLastPaidId(es: seq<Event>)
    ensures Run(Initial, es).paymentId == LastPaidId(es)
    decreases |es|
  {
    if es != [] {
      StoredIdIsLastPaidId(es[..|es| - 1]);
    }
  }

  /** A non-empty last id came from some payment of the session. */
  lemma {:induction false} LastPaidIdWasPaid(es: seq<Event>)
    ensures LastPaidId(es) == "" || LastPaidId(es) in PaidIds(es)
    decreases |es|
  {
    if es != [] {
      LastPaidIdWasPaid(es[..|es| - 1]);
    }
  }

  /** Paid ids only accumulate as the session goes on. */
  lemma {:induction false} PaidIdsGrow(es: seq<Event>, n: nat)
    requires n <= |es|
    ensures PaidIds(es[..n]) <= PaidIds(es)
    decreases |es|
  {
    if n < |es| {
      assert es[..|es| - 1][..n] == es[..n];
      PaidIdsGrow(es[..|es| - 1], n);
    } else {
      assert es[..n] == es;
    }
  }

  /** A status check issues a query exactly when the most recent
      successful payment returned a non-empty id, and the query carries that
      id verbatim on the network the payment used. */
  lemma {:induction false} CheckQueriesLastPaidId(es: seq<Event>)
    ensures CheckQuery(Run(Initial, es)).Some? <==> LastPaidId(es) != ""
    ensures CheckQuery(Run(Initial, es)).Some? ==>
      CheckQuery(Run(Initial, es)).value == QueryFor(LastPaidId(es))
  {
    StoredIdIsLastPaidId(es);
  }

  /** Every status query a session sends names a non-empty id that some
      payment of that session returned, on the test network. */
  lemma {:induction false} StatusCallsUsePaidIds(es: seq<Event>)
    ensures forall c :: c in Calls(Initial, es) && c.StatusCall? ==>
      c.query.id != "" && c.query.id in PaidIds(es) && c.query.testnet
    decreases |es|
  {
    if es != [] {
      var before := es[..|es| - 1];
      StatusCallsUsePaidIds(before);
      StoredIdIsLastPaidId(before);
      LastPaidIdWasPaid(before);
      PaidIdsGrow(es, |es| - 1);
    }
  }

  /** Until a payment succeeds, no status check reaches the SDK. */
  lemma NoStatusCallWithoutPayment(es: seq<Event>)
    requires forall i :: 0 <= i < |es| ==> !(es[i].Pay? && es[i].paid.Ok?)
    ensures forall c :: c in Calls(Initial, es) ==> c.PayCall?
  {
    StatusCallsUsePaidIds(es);
    NoPaymentNoPaidIds(es);
  }

  /** A session in which no payment succeeded has returned no ids. */
  lemma {:induction false} NoPaymentNoPaidIds(es: seq<Event>)
    requires forall i :: 0 <= i < |es| ==> !(es[i].Pay? && es[i].paid.Ok?)
    ensures PaidIds(es) == {}
    decreases |es|
  {
    if es != [] {
      var before := es[..|es| - 1];
      assert forall i :: 0 <= i < |before| ==> before[i] == es[i];
      NoPaymentNoPaidIds(before);
    }
  }

  /** The theme alternates with every toggle and with nothing else. */
  lemma {:induction false} ThemeFollowsToggles(s: Snapshot, es: seq<Event>)
    ensures Run(s, es).theme == if ToggleCount(es) % 2 == 0 then s.theme else Toggled(s.theme)
    decreases |es|
  {
    if es != [] {
      ThemeFollowsToggles(s, es[..|es| - 1]);
    }
  }

  /** Toggling twice restores the original state. */
  lemma ToggleTwiceRestores(s: Snapshot)
    ensures Run(s, [Toggle, Toggle]) == s
  {
  }

  /** A session without payments keeps the stored id, however many status
      checks it makes and whatever they return. */
  lemma {:induction false} ChecksKeepPaymentId(s: Snapshot, es: seq<Event>)
    requires forall i :: 0 <= i < |es| ==> !es[i].Pay?
    ensures Run(s, es).paymentId == s.paymentId
    decreases |es|
  {
    if es != [] {
      var before := es[..|es| - 1];
      assert forall i :: 0 <= i < |before| ==> before[i] == es[i];
      ChecksKeepPaymentId(s, before);
    }
  }

  /** The status box is shown exactly when the user has made a payment or
      a status check: toggles never write a message, every handler does. */
  lemma {:induction false} StatusShownIffActed(es: seq<Event>)
    ensures ShowsStatusBox(Run(Initial, es)) <==> exists i :: 0 <= i < |es| && !es[i].Toggle?
    decreases |es|
  {
    if es != [] {
      var before := es[..|es| - 1];
      StatusShownIffActed(before);
      if exists i :: 0 <= i < |before| && !before[i].Toggle? {
        var i :| 0 <= i < |before| && !before[i].Toggle?;
        assert es[i] == before[i];
      }
      if exists i :: 0 <= i < |es| && !es[i].Toggle? {
        var i :| 0 <= i < |es| && !es[i].Toggle?;
        if i < |before| {
          assert before[i] == es[i];
        }
      }
    }
  }

  /** The message is always empty, one of the four fixed messages, or a
      status line: the status prefix followed by what the SDK reported. */
  lemma {:induction false} StatusAlwaysWellFormed(s: Snapshot, es: seq<Event>)
    requires WellFormedStatus(s.paymentStatus)
    ensures WellFormedStatus(Run(s, es).paymentStatus)
    decreases |es|
  {
    if es != [] {
      StatusAlwaysWellFormed(s, es[..|es| - 1]);
    }
  }

  /** After any session the message is the one its last payment or status
      check produced, or "" if there was none; toggles leave it alone. */
  lemma {:induction false} StatusIsLastMessage(es: seq<Event>)
    ensures Run(Initial, es).paymentStatus == LastMessage(es)
    decreases |es|
  {
    if es != [] {
      var before := es[..|es| - 1];
      StatusIsLastMessage(before);
      StoredIdIsLastPaidId(before);
    }
  }

  /** On the rendered page the empty-id guard of `handleCheckStatus` never
      fires: its message never appears, whatever the SDK returns. */
  lemma {:induction false} GuardSilentOnPage(es: seq<Event>)
    requires PageSession(es)
    ensures Run(Initial, es).paymentStatus != NoPaymentIdMessage
    decreases |es|
  {
    if es != [] {
      var before := es[..|es| - 1];
      forall i | 0 <= i < |before| && before[i].Check?
        ensures ShowsCheckButton(Run(Initial, before[..i]))
      {
        assert before[..i] == es[..i];
        assert before[i] == es[i];
      }
      GuardSilentOnPage(before);
      assert es[..|es| - 1] == before;
      var e := es[|es| - 1];
      if e.Check? && e.answer.Ok? {
        StatusLineIsDistinct(e.answer.value);
      }
    }
  }

  /** Pay, returning "pay_123", then check, returning "completed". */
  lemma PayThenCheckScenario()
    ensures Run(Initial, [Pay(Ok("pay_123"))]) ==
      Snapshot(InitiatedMessage, "pay_123", Light)
    ensures Run(Initial, [Pay(Ok("pay_123")), Check(Ok("completed"))]) ==
      Snapshot("Payment status: completed", "pay_123", Light)
    ensures Calls(Initial, [Pay(Ok("pay_123")), Check(Ok("completed"))]) ==
      [PayCall(InitiationRequest()), StatusCall(StatusQuery("pay_123", true))]
  {
  }

  /** A status check on a fresh load makes no call and explains why. */
  lemma CheckFirstScenario(answer: Outcome<string>)
    ensures Run(Initial, [Check(answer)]) == Snapshot(NoPaymentIdMessage, "", Light)
    ensures Calls(Initial, [Check(answer)]) == []
  {
  }

  /** A payment that throws leaves no id behind. */
  lemma FailedPaymentScenario()
    ensures Run(Initial, [Pay(Err)]) == Snapshot(PaymentFailedMessage, "", Light)
  {
  }

  /** A payment whose result carries an empty id shows the "initiated"
      message, which tells the user to click "Check Status", yet the check
      button is not rendered. A status check made anyway would take the
      no-id branch without a call. */
  lemma EmptyIdScenario(answer: Outcome<string>)
    ensures Run(Initial, [Pay(Ok(""))]).paymentStatus == InitiatedMessage
    ensures !ShowsCheckButton(Run(Initial, [Pay(Ok(""))]))
    ensures Run(Initial, [Pay(Ok("")), Check(answer)]).paymentStatus == NoPaymentIdMessage
    ensures Calls(Initial, [Pay(Ok("")), Check(answer)]) == [PayCall(InitiationRequest())]
  {
    var es := [Pay(Ok("")), Check(answer)];
    assert es[..1] == [Pay(Ok(""))];
    assert [Pay(Ok(""))][..0] == [];
  }
}
