/** The premium-upgrade page: the plan list and its selection, the USD/INR
    toggle, the amount charged and the state of the card-payment form. The
    payment backend and the card processor are reduced to the outcome they
    report. */
module Checkout {
  import opened Arith
  import opened Wrappers

  // ---------------------------------------------------------------------
  // Currency

  datatype Currency = USD | INR

  /** Rupees per dollar, a fixed constant of the page. */
  const ExchangeRate: real := 83.33

  /** The header button: USD becomes INR and INR becomes USD. */
  function ToggleCurrency(c: Currency): (d: Currency)
    ensures d != c
  {
    if c == USD then INR else USD
  }

  lemma ToggleTwiceIsIdentity(c: Currency)
    ensures ToggleCurrency(ToggleCurrency(c)) == c
  {
  }

  /** amountToCharge: the dollar price, or the rupee price rounded by
      Math.round. */
  function AmountToCharge(priceUsd: int, currency: Currency): (amount: int)
    ensures currency == USD ==> amount == priceUsd
    ensures currency == INR ==> priceUsd as real * ExchangeRate - 0.5 < amount as real
    ensures currency == INR ==> amount as real <= priceUsd as real * ExchangeRate + 0.5
    ensures priceUsd >= 0 ==> amount >= 0
  {
    if currency == USD then priceUsd
    else
      JsRoundNonNegative(priceUsd as real * ExchangeRate);
      JsRound(priceUsd as real * ExchangeRate)
  }

  /** The amount posted to the payment backend, in cents or paise. */
  function MinorUnits(amount: int): (minor: int)
    ensures minor % 100 == 0 && minor / 100 == amount
  {
    amount * 100
  }

  /** The number formatPrice shows, before toLocaleString. */
  function DisplayedPrice(priceUsd: int, currency: Currency): real
  {
    if currency == USD then priceUsd as real else priceUsd as real * ExchangeRate
  }

  /** toLocaleString with no fraction digits: halves are rounded away from
      zero. */
  function HalfExpandRound(x: real): (r: int)
    ensures x - 0.5 <= r as real <= x + 0.5
    ensures x >= 0.0 ==> r >= 0
  {
    if x >= 0.0 then (JsRoundNonNegative(x); JsRound(x)) else -JsRound(-x)
  }

  /** The price shown on a plan card, once formatted, is the amount the pay
      button charges. */
  lemma DisplayedPriceIsCharged(priceUsd: int, currency: Currency)
    requires priceUsd >= 0
    ensures HalfExpandRound(DisplayedPrice(priceUsd, currency)) == AmountToCharge(priceUsd, currency)
  {
  }

  // ---------------------------------------------------------------------
  // Plans

  datatype Plan = Plan(id: string, name: string, priceUsd: int)

  /** The five plans, in the order the page lists them. */
  const Plans: seq<Plan> := [
    Plan("professional", "Professional", 2000),
    Plan("enterprise", "Enterprise", 5000),
    Plan("corporate", "Corporate", 10000),
    Plan("large-scale", "Large Scale", 1000000),
    Plan("global-ops", "Global Operations", 10000000)
  ]

  /** The plan selected when the page opens. */
  const DefaultPlanId: string := "enterprise"

  predicate UniqueIds(plans: seq<Plan>)
  {
    forall i, j :: 0 <= i < j < |plans| ==> plans[i].id != plans[j].id
  }

  /** plans.find: the first plan with the id, if any. */
  function SelectedPlan(plans: seq<Plan>, id: string): (p: Option<Plan>)
    ensures p.Some? <==> exists k :: 0 <= k < |plans| && plans[k].id == id
    ensures p.Some? ==> p.value in plans && p.value.id == id
  {
    if plans == [] then None
    else if plans[0].id == id then Some(plans[0])
    else
      var rest := SelectedPlan(plans[1..], id);
      assert forall k :: 1 <= k < |plans| ==> plans[k] == plans[1..][k - 1];
      rest
  }

  /** plans.filter: every plan whose id differs, in list order. */
  function OtherPlans(plans: seq<Plan>, id: string): (others: seq<Plan>)
    ensures forall p :: p in others <==> p in plans && p.id != id
  {
    if plans == [] then []
    else (if plans[0].id == id then [] else [plans[0]]) + OtherPlans(plans[1..], id)
  }

  lemma UniqueTail(plans: seq<Plan>)
    requires UniqueIds(plans) && plans != []
    ensures UniqueIds(plans[1..])
  {
    var tail := plans[1..];
    forall a, b | 0 <= a < b < |tail| ensures tail[a].id != tail[b].id {
      assert tail[a] == plans[a + 1] && tail[b] == plans[b + 1];
    }
  }

  /** With unique ids, find returns the plan at the id's index. */
  lemma {:induction false} SelectedAt(plans: seq<Plan>, id: string, i: int)
    requires UniqueIds(plans) && 0 <= i < |plans| && plans[i].id == id
    ensures SelectedPlan(plans, id) == Some(plans[i])
    decreases |plans|
  {
    if i > 0 {
      assert plans[0].id != id;
      UniqueTail(plans);
      SelectedAt(plans[1..], id, i - 1);
    }
  }

  /** With unique ids, filter drops exactly the id's index. */
  lemma {:induction false} OthersWithoutIndex(plans: seq<Plan>, id: string, i: int)
    requires UniqueIds(plans) && 0 <= i < |plans| && plans[i].id == id
    ensures OtherPlans(plans, id) == plans[..i] + plans[i + 1..]
    decreases |plans|
  {
    var tail := plans[1..];
    if i == 0 {
      assert forall k :: 0 <= k < |tail| ==> tail[k] == plans[k + 1];
      NoOtherMatch(tail, id);
    } else {
      assert plans[0].id != id;
      UniqueTail(plans);
      OthersWithoutIndex(tail, id, i - 1);
      assert plans[..i] == [plans[0]] + tail[..i - 1];
      assert plans[i + 1..] == tail[i..];
    }
  }

  /** With unique ids and the selected id at index i, the other plans are
      the list without index i: selection and others partition the plans. */
  lemma SelectionPartitions(plans: seq<Plan>, id: string, i: int)
    requires UniqueIds(plans) && 0 <= i < |plans| && plans[i].id == id
    ensures SelectedPlan(plans, id) == Some(plans[i])
    ensures OtherPlans(plans, id) == plans[..i] + plans[i + 1..]
    ensures |OtherPlans(plans, id)| == |plans| - 1
  {
    SelectedAt(plans, id, i);
    OthersWithoutIndex(plans, id, i);
  }

  /** Filtering plans none of which has the id keeps them all. */
  lemma {:induction false} NoOtherMatch(plans: seq<Plan>, id: string)
    requires forall k :: 0 <= k < |plans| ==> plans[k].id != id
    ensures OtherPlans(plans, id) == plans
    decreases |plans|
  {
    if plans != [] {
      NoOtherMatch(plans[1..], id);
    }
  }

  /** The page's list: the default selection leaves the four other plans. */
  lemma DefaultSelection()
    ensures UniqueIds(Plans)
    ensures SelectedPlan(Plans, DefaultPlanId) == Some(Plans[1])
    ensures OtherPlans(Plans, DefaultPlanId) == Plans[..1] + Plans[2..]
    ensures |OtherPlans(Plans, DefaultPlanId)| == 4
  {
    forall i, j | 0 <= i < j < |Plans| ensures Plans[i].id != Plans[j].id {
      assert Plans[i].id[0] != Plans[j].id[0];
    }
    SelectionPartitions(Plans, DefaultPlanId, 1);
  }

  /** Clicking a plan in the others list selects it, and the plan that was
      selected moves into the others list. */
  lemma SwitchPlan(plans: seq<Plan>, current: string, next: Plan)
    requires UniqueIds(plans) && next in OtherPlans(plans, current)
    requires SelectedPlan(plans, current).Some?
    ensures SelectedPlan(plans, next.id) == Some(next)
    ensures SelectedPlan(plans, current).value in OtherPlans(plans, next.id)
  {
    var i :| 0 <= i < |plans| && plans[i] == next;
    SelectionPartitions(plans, next.id, i);
  }

  /** Rupee amounts charged for the five plans. */
  lemma RupeeAmounts()
    ensures AmountToCharge(Plans[0].priceUsd, INR) == 166660
    ensures AmountToCharge(Plans[1].priceUsd, INR) == 416650
    ensures AmountToCharge(Plans[2].priceUsd, INR) == 833300
    ensures AmountToCharge(Plans[3].priceUsd, INR) == 83330000
    ensures AmountToCharge(Plans[4].priceUsd, INR) == 833300000
  {
  }

  // ---------------------------------------------------------------------
  // Payment form

  /** What a submission ends with, once the card processor and the payment
      backend have answered. */
  datatype SubmitOutcome =
    | NotReady                                  // stripe or elements not loaded
    | BackendRejected(reason: Option<string>)  // response not ok
    | RequestThrew(message: string)             // fetch or JSON failure
    | CardDeclined(message: string)             // confirmCardPayment error
    | Paid

  datatype FormState = FormState(error: Option<string>, processing: bool, succeeded: bool)

  const InitialForm: FormState := FormState(None, false, false)

  const DefaultBackendMessage: string := "Failed to create PaymentIntent"
  const DeclinePrefix: string := "Payment failed: "

  /** The pay button is disabled while processing or after success. */
  predicate PayDisabled(s: FormState)
  {
    s.processing || s.succeeded
  }

  /** handleSubmit's effect on the form state. */
  function AfterSubmit(s: FormState, outcome: SubmitOutcome): (t: FormState)
    ensures outcome == NotReady ==> t == s.(processing := true)
    ensures outcome == Paid ==> t == FormState(None, false, true)
    ensures outcome.CardDeclined? ==>
      t == s.(error := Some(DeclinePrefix + outcome.message), processing := false)
    ensures outcome.BackendRejected? || outcome.RequestThrew? ==>
      !t.processing && t.succeeded == s.succeeded && t.error.Some?
  {
    match outcome
    case NotReady => s.(processing := true)
    case BackendRejected(m) =>
      var msg := if m.Some? && m.value != "" then m.value else DefaultBackendMessage;
      s.(error := Some(msg), processing := false)
    case RequestThrew(m) => s.(error := Some(m), processing := false)
    case CardDeclined(m) => s.(error := Some(DeclinePrefix + m), processing := false)
    case Paid => FormState(None, false, true)
  }

  /** A success is never undone; a completed request (anything but NotReady)
      leaves the form not processing; an empty backend message falls back to
      the default text. */
  lemma SubmitProperties(s: FormState, outcome: SubmitOutcome)
    ensures s.succeeded ==> AfterSubmit(s, outcome).succeeded
    ensures outcome != NotReady ==> !AfterSubmit(s, outcome).processing
    ensures AfterSubmit(s, outcome).succeeded <==> s.succeeded || outcome == Paid
    ensures outcome == BackendRejected(None) ==>
      AfterSubmit(s, outcome).error == Some(DefaultBackendMessage)
  {
  }

  /** Once stripe or elements is missing the form is stuck with a disabled
      button; once paid, it stays disabled whatever happens next. */
  lemma DisabledStates(s: FormState, outcome: SubmitOutcome)
    ensures PayDisabled(AfterSubmit(s, NotReady))
    ensures PayDisabled(AfterSubmit(s, Paid))
    ensures s.succeeded ==> PayDisabled(AfterSubmit(s, outcome))
    ensures outcome != NotReady && !s.succeeded && outcome != Paid ==> !PayDisabled(AfterSubmit(s, outcome))
  {
  }

  /** The payment form's state, updated in place by handleSubmit. */
  class PaymentForm {
    var error: Option<string>
    var processing: bool
    var succeeded: bool

    function State(): FormState
      reads this
    {
      FormState(error, processing, succeeded)
    }

    constructor ()
      ensures State() == InitialForm
    {
      error := None;
      processing := false;
      succeeded := false;
    }

    /** handleSubmit: processing is set first; the outcome then decides the
        rest. */
    method Submit(outcome: SubmitOutcome)
      modifies this
      ensures State() == AfterSubmit(old(State()), outcome)
    {
      processing := true;
      if outcome == NotReady {
        return;
      }
      match outcome {
        case BackendRejected(m) =>
          error := Some(if m.Some? && m.value != "" then m.value else DefaultBackendMessage);
          processing := false;
        case RequestThrew(m) =>
          error := Some(m);
          processing := false;
        case CardDeclined(m) =>
          error := Some(DeclinePrefix + m);
          processing := false;
        case Paid =>
          error := None;
          processing := false;
          succeeded := true;
      }
    }

    predicate PayButtonDisabled()
      reads this
    {
      PayDisabled(State())
    }
  }
}
