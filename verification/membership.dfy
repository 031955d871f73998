/** The membership page: choosing a plan, the confirmation dialog, the
    simulated payment, and the free-plan usage panel fed from the
    "usagePercentage" entry of browser storage. */
module Membership {
  import opened Wrappers
  import opened JsNumber

  /** The page state, together with the stored usage entry (`None` when the
      key is absent). */
  datatype MembershipState = MembershipState(
    selectedPlan: Option<string>,
    showConfirmDialog: bool,
    planToUpgrade: string,
    priceToUpgrade: string,
    isProcessingPayment: bool,
    storedUsage: Option<string>)

  /** The page as first rendered over whatever usage entry is stored. */
  function InitialMembership(storedUsage: Option<string>): (s: MembershipState)
    ensures s.selectedPlan == None && !s.showConfirmDialog && !s.isProcessingPayment
    ensures s.storedUsage == storedUsage
  {
    MembershipState(None, false, "", "", false, storedUsage)
  }

  /** `parseInt(localStorage.getItem("usagePercentage") || "0")`: an absent or
      empty entry reads as "0". */
  function UsagePercentage(stored: Option<string>): (u: Number)
    ensures stored == None || stored == Some("") ==> u == Int(0)
    ensures stored.Some? && stored.value != "" ==> u == ParseInt(stored.value)
  {
    ParseIntDigit('0');
    var text := if stored == None || stored == Some("") then "0" else stored.value;
    assert stored == None || stored == Some("") ==> text == ['0'];
    ParseInt(text)
  }

  /** `handleSubscribe(plan, price)`: signed out nothing changes (a toast is
      shown); signed in, the plan and price are recorded and the dialog
      opens, while the selected plan stays as it was. */
  function HandleSubscribe(s: MembershipState, isAuthenticated: bool, plan: string, price: string): (r: MembershipState)
    ensures !isAuthenticated ==> r == s
    ensures isAuthenticated ==>
      && r.planToUpgrade == plan && r.priceToUpgrade == price && r.showConfirmDialog
      && r.selectedPlan == s.selectedPlan && r.isProcessingPayment == s.isProcessingPayment
      && r.storedUsage == s.storedUsage
  {
    if !isAuthenticated then s
    else s.(planToUpgrade := plan, priceToUpgrade := price, showConfirmDialog := true)
  }

  /** `handlePaymentSuccess`: the upgraded plan becomes the selected one, the
      dialog closes and the stored usage is reset to "0". */
  function HandlePaymentSuccess(s: MembershipState): (r: MembershipState)
    ensures r.selectedPlan == Some(s.planToUpgrade)
    ensures !r.showConfirmDialog
    ensures r.storedUsage == Some("0")
    ensures r.planToUpgrade == s.planToUpgrade && r.priceToUpgrade == s.priceToUpgrade
    ensures r.isProcessingPayment == s.isProcessingPayment
  {
    s.(selectedPlan := Some(s.planToUpgrade), showConfirmDialog := false, storedUsage := Some("0"))
  }

  /** `confirmSubscription`, with its delays collapsed: signed out nothing
      changes; signed in, the payment succeeds when the payment library has
      loaded and fails otherwise, and either way processing has ended. */
  function ConfirmSubscription(s: MembershipState, isAuthenticated: bool, libraryLoaded: bool): (r: MembershipState)
    ensures !isAuthenticated ==> r == s
    ensures isAuthenticated ==> !r.isProcessingPayment
    ensures isAuthenticated && libraryLoaded ==> r == HandlePaymentSuccess(s).(isProcessingPayment := false)
    ensures isAuthenticated && !libraryLoaded ==> r == s.(isProcessingPayment := false)
  {
    if !isAuthenticated then s
    else
      var processing := s.(isProcessingPayment := true);
      var settled := if libraryLoaded then HandlePaymentSuccess(processing) else processing;
      settled.(isProcessingPayment := false)
  }

  /** The dialog's Cancel button. */
  function CancelDialog(s: MembershipState): (r: MembershipState)
    ensures !r.showConfirmDialog
    ensures r.selectedPlan == s.selectedPlan && r.storedUsage == s.storedUsage
    ensures r.planToUpgrade == s.planToUpgrade && r.priceToUpgrade == s.priceToUpgrade
    ensures r.isProcessingPayment == s.isProcessingPayment
  {
    s.(showConfirmDialog := false)
  }

  /** The Basic plan's button selects it directly, with no payment. */
  function SelectBasic(s: MembershipState): (r: MembershipState)
    ensures r.selectedPlan == Some("Basic")
    ensures r.showConfirmDialog == s.showConfirmDialog && r.storedUsage == s.storedUsage
    ensures r.planToUpgrade == s.planToUpgrade && r.priceToUpgrade == s.priceToUpgrade
    ensures r.isProcessingPayment == s.isProcessingPayment
  {
    s.(selectedPlan := Some("Basic"))
  }

  /** A plan's button is disabled while that plan is the selected one. */
  predicate PlanButtonDisabled(s: MembershipState, plan: string) {
    s.selectedPlan == Some(plan)
  }

  /** `getPriceId`: the price id of a paid plan, "" for anything else. The
      page defines it, but its only use, in a checkout request, is commented
      out, so no price id is ever sent. */
  function GetPriceId(plan: string): (id: string)
    ensures id != "" <==> plan == "Premium" || plan == "Ultimate"
    ensures plan == "Premium" ==> id == "price_premium_monthly"
    ensures plan == "Ultimate" ==> id == "price_ultimate_monthly"
  {
    match plan
    case "Premium" => "price_premium_monthly"
    case "Ultimate" => "price_ultimate_monthly"
    case _ => ""
  }

  /** A confirmed payment selects the plan being upgraded, and when that plan
      has a price id, no other plan shares it. */
  lemma ConfirmedPlanHasOwnPriceId(s: MembershipState, other: string)
    requires GetPriceId(s.planToUpgrade) != ""
    ensures ConfirmSubscription(s, true, true).selectedPlan == Some(s.planToUpgrade)
    ensures GetPriceId(other) == GetPriceId(s.planToUpgrade) ==> other == s.planToUpgrade
  {
  }

  /** The usage panel is shown to a signed-in user on neither paid plan. */
  predicate ShowUsagePanel(s: MembershipState, isAuthenticated: bool) {
    isAuthenticated && s.selectedPlan != Some("Premium") && s.selectedPlan != Some("Ultimate")
  }

  /** `usagePercentage > 70`: `NaN` compares false. */
  predicate ShowWarning(usage: Number) {
    usage.Int? && usage.value > 70
  }

  /** A stored decimal usage `n` warns exactly when `n` exceeds 70. */
  lemma WarningIffAboveSeventy(n: nat)
    ensures ShowWarning(UsagePercentage(Some(Decimal(n)))) <==> n > 70
  {
    var d := Decimal(n);
    ParseIntDecimal(n, []);
    assert d + [] == d;
  }

  /** A stored "0", and likewise an absent or empty entry, reads as 0 and
      gives no warning. */
  lemma ZeroUsageReadsZero(stored: Option<string>)
    requires stored == None || stored == Some("") || stored == Some("0")
    ensures UsagePercentage(stored) == Int(0)
    ensures !ShowWarning(UsagePercentage(stored))
  {
    ParseIntDigit('0');
    assert (if stored == None || stored == Some("") then "0" else stored.value) == ['0'];
  }

  /** Subscribing and then confirming, signed in and with the payment library
      loaded, selects the plan, closes the dialog, ends processing and resets
      usage to 0, so the warning goes away; a paid plan also hides the panel. */
  lemma SubscribeThenConfirm(s: MembershipState, plan: string, price: string)
    ensures var r := ConfirmSubscription(HandleSubscribe(s, true, plan, price), true, true);
      && r.selectedPlan == Some(plan)
      && !r.showConfirmDialog
      && !r.isProcessingPayment
      && UsagePercentage(r.storedUsage) == Int(0)
      && !ShowWarning(UsagePercentage(r.storedUsage))
      && (plan == "Premium" || plan == "Ultimate" <==> !ShowUsagePanel(r, true))
  {
    var r := ConfirmSubscription(HandleSubscribe(s, true, plan, price), true, true);
    ZeroUsageReadsZero(r.storedUsage);
  }

  /** Only a signed-in viewer sees the panel, and choosing Basic keeps it. */
  lemma UsagePanelCases(s: MembershipState)
    ensures !ShowUsagePanel(s, false)
    ensures ShowUsagePanel(SelectBasic(s), true)
    ensures ShowUsagePanel(InitialMembership(s.storedUsage), true)
  {
  }

  /** Exactly the chosen plan's button is disabled: after choosing Basic, and
      after subscribing to a plan and paying. */
  lemma ChosenPlanButtonDisabled(s: MembershipState, plan: string, price: string, other: string)
    ensures PlanButtonDisabled(SelectBasic(s), other) <==> other == "Basic"
    ensures PlanButtonDisabled(ConfirmSubscription(HandleSubscribe(s, true, plan, price), true, true), other)
        <==> other == plan
  {
  }

  /** Signed out, neither subscribing nor confirming changes anything. */
  lemma SignedOutChangesNothing(s: MembershipState, plan: string, price: string, libraryLoaded: bool)
    ensures ConfirmSubscription(HandleSubscribe(s, false, plan, price), false, libraryLoaded) == s
  {
  }

  /** A failed payment leaves the selected plan and the usage as they were. */
  lemma FailedPaymentKeepsPlan(s: MembershipState)
    ensures ConfirmSubscription(s, true, false).selectedPlan == s.selectedPlan
    ensures ConfirmSubscription(s, true, false).storedUsage == s.storedUsage
    ensures ConfirmSubscription(s, true, false).showConfirmDialog == s.showConfirmDialog
  {
  }
}
