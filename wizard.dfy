/**
 * The event logic of src/handlers.py as pure steps on the whole store: each
 * Telegram event becomes a function from the store before it to an abstract
 * outcome and the store after it. Rendering (the texts and keyboards sent
 * back) is not modelled; the outcome says which branch was taken.
 *
 * The imperative `CreditCardHandlers` class (handlers.dfy) is proved to
 * carry out exactly these steps; the lemmas here state what the steps mean.
 */
module Wizard {
  import opened Wrappers
  import opened Text
  import opened Dates
  import opened Database
  import opened Forms

  /** Which branch an event handler took. */
  datatype Outcome =
    | Ignored       // nothing to do: no form in progress, or a payload nobody handles
    | Rejected      // the text failed its field's validator
    | Stored        // the text was written to the form
    | Prompted      // the wizard now waits for a field
    | Incomplete    // `form_done` on a form that is not complete
    | Saved         // the card was added and the form cleared
    | Duplicate     // add_credit_card refused the card
    | Updated       // a store update returned true
    | Failed        // a store update returned false
    | MissingValue  // a billing completion without its amount or grace days
    | NotFound      // no card with this id belongs to the user
    | Cancelled     // the form was dropped
    | Shown         // a read-only view
    | Crashed       // `int()` raised on a callback payload or a stored value

  // ---------------------------------------------------------------------
  // Routing of callback payloads

  datatype Route =
    | FormField(field: string)
    | ViewCard(id: int)
    | DeleteCard(id: int)
    | ConfirmDelete(id: int)
    | MarkPaid(id: int)
    | SetBilling(id: int)
    | UpdateAmount(id: int)
    | SetGraceDays(id: int)
    | ViewDueBills
    | ViewPendingBills
    | ViewAllCards
    | FormDone
    | FormCancel
    | CloseView
    | BadId     // an id-carrying prefix whose remainder is not an integer
    | NoRoute   // no prefix matches; the query is only answered

  /** `int(data.replace(prefix, ""))`. */
  function IdOf(data: string, prefix: string): Option<int>
    requires |prefix| > 0
  {
    ParseInt(RemoveAll(data, prefix))
  }

  /** handle_callback_query: the first matching prefix, in the order the source tests them. */
  function RouteOf(data: string): (r: Route)
    ensures r.FormField? <==> StartsWith(data, "form_field_")
    ensures r.FormField? ==> r.field == RemoveAll(data, "form_field_")
    ensures r == BadId ==> !StartsWith(data, "form_field_")
    ensures r == NoRoute ==>
      !StartsWith(data, "form_field_") && !StartsWith(data, "view_card_") && !StartsWith(data, "delete_card_") &&
      !StartsWith(data, "confirm_delete_") && !StartsWith(data, "mark_paid_") && !StartsWith(data, "set_billing_") &&
      !StartsWith(data, "update_amount_") && !StartsWith(data, "set_grace_days_")
  {
    if StartsWith(data, "form_field_") then FormField(RemoveAll(data, "form_field_"))
    else if StartsWith(data, "view_card_") then
      (match IdOf(data, "view_card_") case Some(id) => ViewCard(id) case None => BadId)
    else if StartsWith(data, "delete_card_") then
      (match IdOf(data, "delete_card_") case Some(id) => DeleteCard(id) case None => BadId)
    else if StartsWith(data, "confirm_delete_") then
      (match IdOf(data, "confirm_delete_") case Some(id) => ConfirmDelete(id) case None => BadId)
    else if StartsWith(data, "mark_paid_") then
      (match IdOf(data, "mark_paid_") case Some(id) => MarkPaid(id) case None => BadId)
    else if StartsWith(data, "set_billing_") then
      (match IdOf(data, "set_billing_") case Some(id) => SetBilling(id) case None => BadId)
    else if StartsWith(data, "update_amount_") then
      (match IdOf(data, "update_amount_") case Some(id) => UpdateAmount(id) case None => BadId)
    else if StartsWith(data, "set_grace_days_") then
      (match IdOf(data, "set_grace_days_") case Some(id) => SetGraceDays(id) case None => BadId)
    else if data == "view_due_bills" then ViewDueBills
    else if data == "view_pending_bills" then ViewPendingBills
    else if data == "view_all_cards" then ViewAllCards
    else if data == "form_done" then FormDone
    else if data == "form_cancel" then FormCancel
    else if data == "close_view" then CloseView
    else NoRoute
  }

  /** The routes a button can carry. */
  predicate OnButton(r: Route) {
    !r.BadId? && !r.NoRoute? && (r.FormField? ==> 'f' !in r.field)
  }

  /** The `callback_data` of the button for a route (`f"view_card_{card['id']}"` and so on). */
  function Payload(r: Route): string
    requires OnButton(r)
  {
    match r
    case FormField(f) => "form_field_" + f
    case ViewCard(id) => "view_card_" + ShowInt(id)
    case DeleteCard(id) => "delete_card_" + ShowInt(id)
    case ConfirmDelete(id) => "confirm_delete_" + ShowInt(id)
    case MarkPaid(id) => "mark_paid_" + ShowInt(id)
    case SetBilling(id) => "set_billing_" + ShowInt(id)
    case UpdateAmount(id) => "update_amount_" + ShowInt(id)
    case SetGraceDays(id) => "set_grace_days_" + ShowInt(id)
    case ViewDueBills => "view_due_bills"
    case ViewPendingBills => "view_pending_bills"
    case ViewAllCards => "view_all_cards"
    case FormDone => "form_done"
    case FormCancel => "form_cancel"
    case CloseView => "close_view"
  }

  /** A printed id holds no letter, so no prefix can recur in it. */
  lemma ShowIntNoLetter(id: int, c: char)
    requires 'a' <= c <= 'z'
    ensures c !in ShowInt(id)
  {
    var s := ShowInt(id);
    assert forall k :: 0 <= k < |s| ==> s[k] == '-' || IsDigit(s[k]);
  }

  /** Prefix `p` then a printed id is routed through `p`, giving back the id. */
  lemma IdPayload(p: string, id: int)
    requires |p| > 0 && 'a' <= p[0] <= 'z'
    ensures StartsWith(p + ShowInt(id), p) && IdOf(p + ShowInt(id), p) == Some(id)
  {
    ShowIntNoLetter(id, p[0]);
    RemovePrefix(p, ShowInt(id));
    ParseShowInt(id);
    assert (p + ShowInt(id))[..|p|] == p;
  }

  /** Every button's payload is routed back to the route it was made for. */
  lemma RouteOfPayload(r: Route)
    requires OnButton(r)
    ensures RouteOf(Payload(r)) == r
  {
    if r.FormField? || r.ViewCard? || r.DeleteCard? || r.ConfirmDelete? {
      EarlyRoutes(r);
    } else if r.MarkPaid? || r.SetBilling? || r.UpdateAmount? || r.SetGraceDays? {
      LateRoutes(r);
    } else {
      match r {
        case ViewDueBills => ViewDueBillsRoute(Payload(r));
        case ViewPendingBills => ViewPendingBillsRoute(Payload(r));
        case ViewAllCards => ViewAllCardsRoute(Payload(r));
        case FormDone => FormDoneRoute(Payload(r));
        case FormCancel => FormCancelRoute(Payload(r));
        case CloseView => CloseViewRoute(Payload(r));
      }
    }
  }

  /** The first four prefixes. */
  lemma EarlyRoutes(r: Route)
    requires OnButton(r) && (r.FormField? || r.ViewCard? || r.DeleteCard? || r.ConfirmDelete?)
    ensures RouteOf(Payload(r)) == r
  {
    var d := Payload(r);
    match r {
      case FormField(f) =>
        RemovePrefix("form_field_", f);
        assert d[..11] == "form_field_";
      case ViewCard(id) =>
        IdPayload("view_card_", id);
        NotPrefix(d, "view_card_", "form_field_", 0);
      case DeleteCard(id) =>
        IdPayload("delete_card_", id);
        NotPrefix(d, "delete_card_", "form_field_", 0);
        NotPrefix(d, "delete_card_", "view_card_", 0);
      case ConfirmDelete(id) =>
        IdPayload("confirm_delete_", id);
        NotPrefix(d, "confirm_delete_", "form_field_", 0);
        NotPrefix(d, "confirm_delete_", "view_card_", 0);
        NotPrefix(d, "confirm_delete_", "delete_card_", 0);
      case _ =>
    }
  }

  /** The last four prefixes, which the first four do not shadow. */
  lemma LateRoutes(r: Route)
    requires OnButton(r) && (r.MarkPaid? || r.SetBilling? || r.UpdateAmount? || r.SetGraceDays?)
    ensures RouteOf(Payload(r)) == r
  {
    var d := Payload(r);
    match r {
      case MarkPaid(id) =>
        IdPayload("mark_paid_", id);
        NotPrefix(d, "mark_paid_", "form_field_", 0);
        NotPrefix(d, "mark_paid_", "view_card_", 0);
        NotPrefix(d, "mark_paid_", "delete_card_", 0);
        NotPrefix(d, "mark_paid_", "confirm_delete_", 0);
      case SetBilling(id) =>
        IdPayload("set_billing_", id);
        NotPrefix(d, "set_billing_", "form_field_", 0);
        NotPrefix(d, "set_billing_", "view_card_", 0);
        NotPrefix(d, "set_billing_", "delete_card_", 0);
        NotPrefix(d, "set_billing_", "confirm_delete_", 0);
        NotPrefix(d, "set_billing_", "mark_paid_", 0);
      case UpdateAmount(id) =>
        IdPayload("update_amount_", id);
        NotPrefix(d, "update_amount_", "form_field_", 0);
        NotPrefix(d, "update_amount_", "view_card_", 0);
        NotPrefix(d, "update_amount_", "delete_card_", 0);
        NotPrefix(d, "update_amount_", "confirm_delete_", 0);
        NotPrefix(d, "update_amount_", "mark_paid_", 0);
        NotPrefix(d, "update_amount_", "set_billing_", 0);
      case SetGraceDays(id) =>
        IdPayload("set_grace_days_", id);
        NotPrefix(d, "set_grace_days_", "form_field_", 0);
        NotPrefix(d, "set_grace_days_", "view_card_", 0);
        NotPrefix(d, "set_grace_days_", "delete_card_", 0);
        NotPrefix(d, "set_grace_days_", "confirm_delete_", 0);
        NotPrefix(d, "set_grace_days_", "mark_paid_", 0);
        NotPrefix(d, "set_grace_days_", "set_billing_", 4);
        NotPrefix(d, "set_grace_days_", "update_amount_", 0);
      case _ =>
    }
  }

  // The payloads matched as a whole; no prefix tested before them shadows them.

  lemma ViewDueBillsRoute(d: string)
    requires d == "view_due_bills"
    ensures RouteOf(d) == ViewDueBills
  {
    NotPrefix(d, d, "form_field_", 0);
    NotPrefix(d, d, "view_card_", 5);
    NotPrefix(d, d, "delete_card_", 0);
    NotPrefix(d, d, "confirm_delete_", 0);
    NotPrefix(d, d, "mark_paid_", 0);
    NotPrefix(d, d, "set_billing_", 0);
    NotPrefix(d, d, "update_amount_", 0);
    NotPrefix(d, d, "set_grace_days_", 0);
  }

  lemma ViewPendingBillsRoute(d: string)
    requires d == "view_pending_bills"
    ensures RouteOf(d) == ViewPendingBills
  {
    NotPrefix(d, d, "form_field_", 0);
    NotPrefix(d, d, "view_card_", 5);
    NotPrefix(d, d, "delete_card_", 0);
    NotPrefix(d, d, "confirm_delete_", 0);
    NotPrefix(d, d, "mark_paid_", 0);
    NotPrefix(d, d, "set_billing_", 0);
    NotPrefix(d, d, "update_amount_", 0);
    NotPrefix(d, d, "set_grace_days_", 0);
  }

  lemma ViewAllCardsRoute(d: string)
    requires d == "view_all_cards"
    ensures RouteOf(d) == ViewAllCards
  {
    NotPrefix(d, d, "form_field_", 0);
    NotPrefix(d, d, "view_card_", 5);
    NotPrefix(d, d, "delete_card_", 0);
    NotPrefix(d, d, "confirm_delete_", 0);
    NotPrefix(d, d, "mark_paid_", 0);
    NotPrefix(d, d, "set_billing_", 0);
    NotPrefix(d, d, "update_amount_", 0);
    NotPrefix(d, d, "set_grace_days_", 0);
  }

  lemma FormDoneRoute(d: string)
    requires d == "form_done"
    ensures RouteOf(d) == FormDone
  {
    NotPrefix(d, d, "form_field_", 5);
    NotPrefix(d, d, "view_card_", 0);
    NotPrefix(d, d, "delete_card_", 0);
    NotPrefix(d, d, "confirm_delete_", 0);
    NotPrefix(d, d, "mark_paid_", 0);
    NotPrefix(d, d, "set_billing_", 0);
    NotPrefix(d, d, "update_amount_", 0);
    NotPrefix(d, d, "set_grace_days_", 0);
  }

  lemma FormCancelRoute(d: string)
    requires d == "form_cancel"
    ensures RouteOf(d) == FormCancel
  {
    NotPrefix(d, d, "form_field_", 5);
    NotPrefix(d, d, "view_card_", 0);
    NotPrefix(d, d, "delete_card_", 0);
    NotPrefix(d, d, "confirm_delete_", 0);
    NotPrefix(d, d, "mark_paid_", 0);
    NotPrefix(d, d, "set_billing_", 0);
    NotPrefix(d, d, "update_amount_", 0);
    NotPrefix(d, d, "set_grace_days_", 0);
  }

  lemma CloseViewRoute(d: string)
    requires d == "close_view"
    ensures RouteOf(d) == CloseView
  {
    NotPrefix(d, d, "form_field_", 0);
    NotPrefix(d, d, "view_card_", 0);
    NotPrefix(d, d, "delete_card_", 0);
    NotPrefix(d, d, "confirm_delete_", 1);
    NotPrefix(d, d, "mark_paid_", 0);
    NotPrefix(d, d, "set_billing_", 0);
    NotPrefix(d, d, "update_amount_", 0);
    NotPrefix(d, d, "set_grace_days_", 0);
  }

  // ---------------------------------------------------------------------
  // Text input

  /** _handle_form_field_callback: the waiting state a field button selects. */
  function FieldState(field: string): Option<FormState> {
    if field == "bank_name" then Some(WaitingBankName)
    else if field == "card_number" then Some(WaitingCardNumber)
    else if field == "expiry_date" then Some(WaitingExpiryDate)
    else if field == "cvv" then Some(WaitingCvv)
    else None
  }

  /** The check a text must pass in each waiting state. */
  predicate Accepts(st: FormState, text: string) {
    match st
    case Idle => false
    case WaitingBankName => |text| >= 2
    case WaitingCardNumber => ValidateCardNumber(text)
    case WaitingExpiryDate => ValidateExpiryDate(text)
    case WaitingCvv => ValidateCvv(text)
    case WaitingBillingDate => ValidateBillingDate(text)
    case WaitingBillAmount => ValidateBillAmount(text)
    case WaitingGraceDays => ValidateGraceDays(text)
  }

  /** update_form_field with its result ignored, as the handlers call it. */
  function Put(sessions: map<int, SessionRow>, userId: int, field: string, value: string): (r: map<int, SessionRow>)
    ensures forall v :: v != userId ==> SessionOf(r, v) == SessionOf(sessions, v)
  {
    WithField(sessions, userId, field, value).GetOr(sessions)
  }

  /** Python's `s[-4:]`: the last four characters, or all of a shorter string. */
  function LastFour(s: string): (r: string)
    ensures |r| == if |s| < 4 then |s| else 4
    ensures s == s[..|s| - |r|] + r
  {
    if |s| <= 4 then s else s[|s| - 4..]
  }

  /**
   * The writes of an accepted card number: 4 digits go to `card_number`
   * alone; a full number goes to `full_card_number` and its last 4 digits
   * to `card_number`.
   */
  function CardNumberWrites(sessions: map<int, SessionRow>, userId: int, text: string): (r: map<int, SessionRow>)
    ensures FormDataOf(sessions, userId).Some? ==>
      var f := FormDataOf(sessions, userId).value;
      var digits := DigitsOnly(text);
      FormDataOf(r, userId) ==
        Some(if |digits| == 4 then f["card_number" := digits]
             else f["card_number" := LastFour(digits)]["full_card_number" := digits])
    ensures forall v :: v != userId ==> SessionOf(r, v) == SessionOf(sessions, v)
  {
    var digits := DigitsOnly(text);
    if |digits| == 4 then Put(sessions, userId, "card_number", digits)
    else Put(Put(sessions, userId, "card_number", LastFour(digits)), userId, "full_card_number", digits)
  }

  /** The sessions after the text accepted in a waiting state is written and the state moved on. */
  function Entered(sessions: map<int, SessionRow>, userId: int, st: FormState, text: string): (r: map<int, SessionRow>)
    ensures st != Idle ==> StateOf(r, userId) == if st == WaitingBillingDate then WaitingBillAmount else Idle
    ensures st == WaitingCardNumber && FormDataOf(sessions, userId).Some? ==>
      FormDataOf(r, userId) == FormDataOf(CardNumberWrites(sessions, userId, text), userId)
    ensures st != Idle && st != WaitingCardNumber && FormDataOf(sessions, userId).Some? ==>
      FormDataOf(r, userId) ==
        Some(FormDataOf(sessions, userId).value[FieldKey(st) := if st == WaitingBillAmount then CleanAmount(text) else text])
    ensures forall v :: v != userId ==> SessionOf(r, v) == SessionOf(sessions, v)
  {
    match st
    case WaitingBankName => WithState(Put(sessions, userId, "bank_name", text), userId, Idle)
    case WaitingCardNumber => WithState(CardNumberWrites(sessions, userId, text), userId, Idle)
    case WaitingExpiryDate => WithState(Put(sessions, userId, "expiry_date", text), userId, Idle)
    case WaitingCvv => WithState(Put(sessions, userId, "cvv", text), userId, Idle)
    case WaitingBillingDate => WithState(Put(sessions, userId, "billing_date", text), userId, WaitingBillAmount)
    case WaitingBillAmount => WithState(Put(sessions, userId, "bill_amount", CleanAmount(text)), userId, Idle)
    case WaitingGraceDays => WithState(Put(sessions, userId, "grace_days", text), userId, Idle)
    case Idle => sessions
  }

  // ---------------------------------------------------------------------
  // Completion of the billing sub-flows

  /** What a billing or grace-days completion does with the form it finds. */
  datatype Plan =
    | NoValue     // no amount / grace days in the form: early return
    | NoCard      // `card_id` missing or zero: early return
    | BadValue    // `int()` raises on the stored value
    | SetBillingInfo(cardId: int, billingDay: int, amount: string)
    | SetAmount(cardId: int, amount: string)
    | SetGrace(cardId: int, graceDays: int)

  /** `form_data.get('card_id')`, where a missing or zero id is falsy. */
  function CardIdOf(form: Scratch): (r: Option<int>)
    ensures r.Some? ==> r.value != 0 && "card_id" in form && ParseInt(form["card_id"]) == Some(r.value)
    ensures r.None? <==> "card_id" !in form || ParseInt(form["card_id"]) in {None, Some(0)}
  {
    if "card_id" !in form then None
    else match ParseInt(form["card_id"])
      case None => None
      case Some(id) => if id == 0 then None else Some(id)
  }

  /** `form_data.get(key)`. */
  function Lookup(form: Scratch, key: string): Option<string> {
    if key in form then Some(form[key]) else None
  }

  /** _handle_billing_form_done: a stored `billing_date` sets the billing info, otherwise only the amount. */
  function BillingPlan(form: Option<Scratch>): (r: Plan)
    ensures r == NoValue <==> form.None? || !Filled(form.value, "bill_amount")
    ensures r.SetBillingInfo? || r.SetAmount? ==>
      form.Some? && CardIdOf(form.value) == Some(r.cardId) && r.amount == form.value["bill_amount"] && r.amount != ""
    ensures r.SetBillingInfo? ==> "billing_date" in form.value && ParseInt(form.value["billing_date"]) == Some(r.billingDay)
    ensures r.SetAmount? ==> !Filled(form.value, "billing_date")
    ensures r == BadValue ==> form.Some? && Filled(form.value, "billing_date") && ParseInt(form.value["billing_date"]).None?
    ensures !r.SetGrace?
  {
    if form.None? || !Filled(form.value, "bill_amount") then NoValue
    else match CardIdOf(form.value)
      case None => NoCard
      case Some(id) =>
        if Filled(form.value, "billing_date") then
          match ParseInt(form.value["billing_date"])
          case None => BadValue
          case Some(day) => SetBillingInfo(id, day, form.value["bill_amount"])
        else SetAmount(id, form.value["bill_amount"])
  }

  /** _handle_grace_days_form_done. */
  function GracePlan(form: Option<Scratch>): (r: Plan)
    ensures r == NoValue <==> form.None? || !Filled(form.value, "grace_days")
    ensures r.SetGrace? ==>
      form.Some? && CardIdOf(form.value) == Some(r.cardId) && ParseInt(form.value["grace_days"]) == Some(r.graceDays)
    ensures r == BadValue ==> form.Some? && ParseInt(form.value["grace_days"]).None?
    ensures !r.SetBillingInfo? && !r.SetAmount?
  {
    if form.None? || !Filled(form.value, "grace_days") then NoValue
    else match CardIdOf(form.value)
      case None => NoCard
      case Some(id) =>
        match ParseInt(form.value["grace_days"])
        case None => BadValue
        case Some(days) => SetGrace(id, days)
  }

  /**
   * A form whose billing day and grace period, when present, were accepted
   * by their validators never yields `BadValue`: the `int()` calls of the
   * two completions cannot raise on what the wizard stores, and the values
   * they pass on are in the validated ranges.
   */
  lemma AcceptedValuesParse(form: Scratch)
    requires "billing_date" in form ==> ValidateBillingDate(form["billing_date"])
    requires "grace_days" in form ==> ValidateGraceDays(form["grace_days"])
    ensures BillingPlan(Some(form)) != BadValue && GracePlan(Some(form)) != BadValue
    ensures BillingPlan(Some(form)).SetBillingInfo? ==> 1 <= BillingPlan(Some(form)).billingDay <= 31
    ensures GracePlan(Some(form)).SetGrace? ==> 1 <= GracePlan(Some(form)).graceDays <= 60
  {
  }

  /** The plans that reach the store; after them the session is cleared. */
  predicate Commits(plan: Plan) {
    plan.SetBillingInfo? || plan.SetAmount? || plan.SetGrace?
  }

  /** A store update's result: `Updated` and the new table, or `Failed` and the old one. */
  function Result(r: Option<seq<Card>>, cards: seq<Card>): (Outcome, seq<Card>) {
    match r
    case Some(t) => (Updated, t)
    case None => (Failed, cards)
  }

  /** Carries out a plan on the card table. */
  function Commit(plan: Plan, userId: int, cards: seq<Card>, today: Date): (r: (Outcome, seq<Card>))
    requires ValidDate(today)
    ensures !Commits(plan) ==> r.1 == cards
    ensures r.0 == Updated || r.0 == Failed <==> Commits(plan)
    ensures r.0 in {MissingValue, NotFound, Crashed, Updated, Failed}
  {
    match plan
    case NoValue => (MissingValue, cards)
    case NoCard => (NotFound, cards)
    case BadValue => (Crashed, cards)
    case SetBillingInfo(id, day, amount) =>
      Result(BillingUpdated(cards, userId, id, day, amount, DefaultGraceDays, today), cards)
    case SetAmount(id, amount) => Result(AmountUpdated(cards, userId, id, amount), cards)
    case SetGrace(id, days) => Result(GraceUpdated(cards, userId, id, days), cards)
  }

  /** A completion: the plan is carried out and, when it reached the store, the session cleared. */
  function Complete(plan: Plan, userId: int, today: Date, st: Store): (r: (Outcome, Store))
    requires ValidDate(today)
    ensures r.0 in {MissingValue, NotFound, Crashed, Updated, Failed}
    ensures r.1.nextId == st.nextId
    ensures !Commits(plan) ==> r.1 == st
    ensures Commits(plan) ==> SessionOf(r.1.sessions, userId).None?
    ensures forall v :: v != userId ==> SessionOf(r.1.sessions, v) == SessionOf(st.sessions, v)
  {
    var (o, cards) := Commit(plan, userId, st.cards, today);
    (o, st.(cards := cards, sessions := if Commits(plan) then Cleared(st.sessions, userId) else st.sessions))
  }

  /** The fields `_show_form_status` reads with `form_data[key]`. */
  predicate HasStatusKeys(f: Scratch) {
    "bank_name" in f && "card_number" in f && "expiry_date" in f && "cvv" in f
  }

  /**
   * _show_form_status runs to its end: it returns early on no or empty form
   * data, and otherwise raises `KeyError` unless all four fields it shows
   * are present.
   */
  predicate StatusShown(form: Option<Scratch>) {
    form.None? || form.value == map[] || HasStatusKeys(form.value)
  }

  // ---------------------------------------------------------------------
  // The events

  /** handle_text_message. */
  function TextStep(userId: int, text: string, today: Date, st: Store): (r: (Outcome, Store))
    requires ValidDate(today)
    ensures StateOf(st.sessions, userId) == Idle ==> r == (Ignored, st)
    ensures r.0 == Rejected <==> StateOf(st.sessions, userId) != Idle && !Accepts(StateOf(st.sessions, userId), text)
    ensures r.0 == Rejected ==> r.1 == st
    ensures r.1.nextId == st.nextId
    ensures StateOf(st.sessions, userId) != WaitingBillAmount && StateOf(st.sessions, userId) != WaitingGraceDays ==>
      r.1.cards == st.cards
    ensures forall v :: v != userId ==> SessionOf(r.1.sessions, v) == SessionOf(st.sessions, v)
  {
    var w := StateOf(st.sessions, userId);
    if w == Idle then (Ignored, st)
    else if !Accepts(w, text) then (Rejected, st)
    else AcceptedStep(userId, w, text, today, st)
  }

  /**
   * A text accepted in the waiting state `w`: it is written and the state
   * moves on; the amount and the grace days then complete their sub-flow.
   */
  function AcceptedStep(userId: int, w: FormState, text: string, today: Date, st: Store): (r: (Outcome, Store))
    requires ValidDate(today)
    ensures r.0 != Rejected && r.0 != Ignored
    ensures r.1.nextId == st.nextId
    ensures w != WaitingBillAmount && w != WaitingGraceDays ==> r.1.cards == st.cards
    ensures w == WaitingBankName || w == WaitingCardNumber || w == WaitingExpiryDate || w == WaitingCvv ==>
      (r.0 == Stored <==> StatusShown(FormDataOf(Entered(st.sessions, userId, w, text), userId))) &&
      (r.0 == Stored || r.0 == Crashed) && r.1.sessions == Entered(st.sessions, userId, w, text)
    ensures forall v :: v != userId ==> SessionOf(r.1.sessions, v) == SessionOf(st.sessions, v)
  {
    var st1 := st.(sessions := Entered(st.sessions, userId, w, text));
    if w == WaitingBillAmount then Complete(BillingPlan(FormDataOf(st1.sessions, userId)), userId, today, st1)
    else if w == WaitingGraceDays then Complete(GracePlan(FormDataOf(st1.sessions, userId)), userId, today, st1)
    else if w == WaitingBillingDate || StatusShown(FormDataOf(st1.sessions, userId)) then (Stored, st1)
    else (Crashed, st1)
  }

  /** _handle_form_field_callback. */
  function FieldStep(userId: int, field: string, st: Store): (r: (Outcome, Store))
    ensures r.0 == Prompted <==> field in {"bank_name", "card_number", "expiry_date", "cvv"}
    ensures r.0 != Prompted ==> r == (Ignored, st)
    ensures r.1.cards == st.cards && r.1.nextId == st.nextId
    ensures r.0 == Prompted ==>
      StateOf(r.1.sessions, userId) == FieldState(field).value &&
      FormDataOf(r.1.sessions, userId) == Some(FormDataOf(st.sessions, userId).GetOr(map[]))
  {
    match FieldState(field)
    case None => (Ignored, st)
    case Some(w) => (Prompted, st.(sessions := WithState(st.sessions, userId, w)))
  }

  /** _handle_form_done. */
  function DoneStep(userId: int, st: Store): (r: (Outcome, Store))
    ensures !FormComplete(FormDataOf(st.sessions, userId)) ==> r == (Incomplete, st)
    ensures FormComplete(FormDataOf(st.sessions, userId)) ==>
      (r.0 == Saved <==> !HasNumber(st.cards, userId, FormDataOf(st.sessions, userId).value["card_number"])) &&
      (r.0 == Saved || r.0 == Duplicate)
    ensures r.0 != Saved ==> r.1 == st
    ensures r.0 == Saved ==>
      var f := FormDataOf(st.sessions, userId).value;
      r.1.cards == st.cards + [NewCard(st.nextId, userId, f["bank_name"], f["card_number"], f["expiry_date"],
                                       Lookup(f, "cvv"), Lookup(f, "full_card_number"))] &&
      r.1.nextId == st.nextId + 1 && SessionOf(r.1.sessions, userId).None?
    ensures forall v :: v != userId ==> SessionOf(r.1.sessions, v) == SessionOf(st.sessions, v)
  {
    var form := FormDataOf(st.sessions, userId);
    if !FormComplete(form) then (Incomplete, st)
    else
      var f := form.value;
      match Added(st.cards, st.nextId, userId, f["bank_name"], f["card_number"], f["expiry_date"],
                  Lookup(f, "cvv"), Lookup(f, "full_card_number"))
      case None => (Duplicate, st)
      case Some(cards) =>
        assert cards == cards[..|st.cards|] + [cards[|st.cards|]];
        (Saved, Store(cards, st.nextId + 1, Cleared(st.sessions, userId)))
  }

  /** _handle_form_cancel: the session goes, the cards stay. */
  function CancelStep(userId: int, st: Store): (r: (Outcome, Store))
    ensures r.0 == Cancelled && r.1.cards == st.cards && r.1.nextId == st.nextId
    ensures SessionOf(r.1.sessions, userId).None? && StateOf(r.1.sessions, userId) == Idle
    ensures forall v :: v != userId ==> SessionOf(r.1.sessions, v) == SessionOf(st.sessions, v)
  {
    (Cancelled, st.(sessions := Cleared(st.sessions, userId)))
  }

  /** The form a billing sub-flow starts with: only the card's id. */
  function SeedForm(cardId: int): Scratch {
    map["card_id" := ShowInt(cardId)]
  }

  /**
   * _handle_set_billing_callback, _handle_update_amount_callback and
   * _handle_set_grace_days_callback: a session holding only the card id, in
   * the state `w`, when the card is the user's.
   */
  function SeedStep(userId: int, cardId: int, w: FormState, st: Store): (r: (Outcome, Store))
    ensures r.1.cards == st.cards && r.1.nextId == st.nextId
    ensures r.0 == NotFound <==> IndexOf(st.cards, userId, cardId).None?
    ensures r.0 == NotFound ==> r.1 == st
    ensures r.0 != NotFound ==>
      r.0 == Prompted && StateOf(r.1.sessions, userId) == w && FormDataOf(r.1.sessions, userId) == Some(SeedForm(cardId))
    ensures forall v :: v != userId ==> SessionOf(r.1.sessions, v) == SessionOf(st.sessions, v)
  {
    if IndexOf(st.cards, userId, cardId).None? then (NotFound, st)
    else (Prompted, st.(sessions := st.sessions[userId := SessionRow(w.Value(), Some(SeedForm(cardId)))]))
  }

  /** A view that only reads: `Shown` when the card is the user's, `NotFound` otherwise. */
  function LookStep(userId: int, cardId: int, st: Store): (r: (Outcome, Store))
    ensures r.1 == st
    ensures r.0 == NotFound <==> IndexOf(st.cards, userId, cardId).None?
    ensures r.0 == NotFound || r.0 == Shown
  {
    if IndexOf(st.cards, userId, cardId).None? then (NotFound, st) else (Shown, st)
  }

  /** _handle_confirm_delete_callback. */
  function ConfirmDeleteStep(userId: int, cardId: int, st: Store): (r: (Outcome, Store))
    ensures r.1.sessions == st.sessions && r.1.nextId == st.nextId
    ensures r.0 == Updated <==> exists c :: c in st.cards && Matches(c, userId, cardId)
    ensures r.0 == Updated ==> forall c :: c in r.1.cards <==> c in st.cards && !Matches(c, userId, cardId)
    ensures r.0 != Updated ==> r == (NotFound, st)
  {
    if IndexOf(st.cards, userId, cardId).None? then (NotFound, st)
    else
      var (o, cards) := Result(Deleted(st.cards, userId, cardId), st.cards);
      (o, st.(cards := cards))
  }

  /** _handle_mark_paid_callback. */
  function MarkPaidStep(userId: int, cardId: int, today: Date, st: Store): (r: (Outcome, Store))
    requires ValidDate(today) && DatesValid(st.cards)
    ensures r.1.sessions == st.sessions && r.1.nextId == st.nextId
    ensures r.0 == NotFound <==> IndexOf(st.cards, userId, cardId).None?
    ensures IndexOf(st.cards, userId, cardId).Some? ==>
      (r.0 == Updated <==> MarkedPaid(st.cards, userId, cardId, today).Some?) && (r.0 == Updated || r.0 == Failed)
    ensures r.0 == Updated ==>
      MarkedPaid(st.cards, userId, cardId, today).Some? && r.1.cards == MarkedPaid(st.cards, userId, cardId, today).value
    ensures r.0 != Updated ==> r.1 == st
  {
    if IndexOf(st.cards, userId, cardId).None? then (NotFound, st)
    else
      var (o, cards) := Result(MarkedPaid(st.cards, userId, cardId, today), st.cards);
      (o, st.(cards := cards))
  }

  /** handle_callback_query: the routed payload's handler. */
  function CallbackStep(userId: int, data: string, today: Date, st: Store): (r: (Outcome, Store))
    requires ValidDate(today) && DatesValid(st.cards)
    ensures r.0 == Crashed <==> RouteOf(data).BadId?
    ensures r.1.nextId == st.nextId || RouteOf(data) == FormDone
  {
    RouteStep(userId, RouteOf(data), today, st)
  }

  /** The handler of each route. */
  function RouteStep(userId: int, route: Route, today: Date, st: Store): (r: (Outcome, Store))
    requires ValidDate(today) && DatesValid(st.cards)
    ensures r.0 == Crashed <==> route.BadId?
    ensures r.1.nextId == st.nextId || route == FormDone
  {
    match route
    case FormField(f) => FieldStep(userId, f, st)
    case ViewCard(id) => LookStep(userId, id, st)
    case DeleteCard(id) => LookStep(userId, id, st)
    case ConfirmDelete(id) => ConfirmDeleteStep(userId, id, st)
    case MarkPaid(id) => MarkPaidStep(userId, id, today, st)
    case SetBilling(id) => SeedStep(userId, id, WaitingBillingDate, st)
    case UpdateAmount(id) => SeedStep(userId, id, WaitingBillAmount, st)
    case SetGraceDays(id) => SeedStep(userId, id, WaitingGraceDays, st)
    case ViewDueBills => (Shown, st)
    case ViewPendingBills => (Shown, st)
    case ViewAllCards => (Shown, st)
    case FormDone => DoneStep(userId, st)
    case FormCancel => CancelStep(userId, st)
    case CloseView => (Shown, st)
    case BadId => (Crashed, st)
    case NoRoute => (Ignored, st)
  }

  // ---------------------------------------------------------------------
  // What the conversations achieve

  /** The ids of a valid table are positive, so a seeded `card_id` is never the falsy zero. */
  lemma SeededCardId(cards: seq<Card>, nextId: int, userId: int, cardId: int)
    requires TableInvariant(cards, nextId) && IndexOf(cards, userId, cardId).Some?
    ensures cardId >= 1 && CardIdOf(SeedForm(cardId)) == Some(cardId)
  {
    ParseShowInt(cardId);
  }

  /** A seeded form with an amount sets that amount on the seeded card. */
  lemma SeededAmountPlan(cardId: int, amount: string)
    requires cardId >= 1 && amount != ""
    ensures BillingPlan(Some(SeedForm(cardId)["bill_amount" := amount])) == SetAmount(cardId, amount)
  {
    ParseShowInt(cardId);
    var form := SeedForm(cardId)["bill_amount" := amount];
    assert "billing_date" !in form;
    assert form["card_id"] == ShowInt(cardId);
  }

  /** A seeded form with a day and then an amount sets the billing info of the seeded card. */
  lemma SeededBillingPlan(cardId: int, day: string, amount: string)
    requires cardId >= 1 && amount != "" && ParseInt(day).Some?
    ensures BillingPlan(Some(SeedForm(cardId)["billing_date" := day]["bill_amount" := amount])) ==
            SetBillingInfo(cardId, ParseInt(day).value, amount)
  {
    ParseShowInt(cardId);
    var form := SeedForm(cardId)["billing_date" := day]["bill_amount" := amount];
    assert form["bill_amount"] == amount;
    assert form["billing_date"] == day;
    assert form["card_id"] == ShowInt(cardId);
  }

  /** A seeded form with a number of days sets that grace period on the seeded card. */
  lemma SeededGracePlan(cardId: int, days: string)
    requires cardId >= 1 && ParseInt(days).Some? && days != ""
    ensures GracePlan(Some(SeedForm(cardId)["grace_days" := days])) == SetGrace(cardId, ParseInt(days).value)
  {
    ParseShowInt(cardId);
    var form := SeedForm(cardId)["grace_days" := days];
    assert form["grace_days"] == days;
    assert form["card_id"] == ShowInt(cardId);
  }

  /**
   * The update-amount sub-flow: the card's button, then an accepted amount,
   * stores the cleaned amount on that card and ends the conversation.
   */
  lemma UpdateAmountFlow(userId: int, cardId: int, amountText: string, today: Date, st: Store)
    requires ValidDate(today) && TableInvariant(st.cards, st.nextId)
    requires IndexOf(st.cards, userId, cardId).Some? && ValidateBillAmount(amountText)
    ensures var s1 := SeedStep(userId, cardId, WaitingBillAmount, st);
            var s2 := TextStep(userId, amountText, today, s1.1);
            s1.0 == Prompted && s2.0 == Updated &&
            s2.1.cards == AmountUpdated(st.cards, userId, cardId, CleanAmount(amountText)).value &&
            s2.1.nextId == st.nextId && SessionOf(s2.1.sessions, userId).None?
  {
    SeededCardId(st.cards, st.nextId, userId, cardId);
    CleanedAmountAccepted(amountText);
    var s1 := SeedStep(userId, cardId, WaitingBillAmount, st);
    CompletingEntry(userId, amountText, today, s1.1);
    SeededAmountPlan(cardId, CleanAmount(amountText));
  }

  /**
   * The set-billing sub-flow: the card's button, an accepted day, then an
   * accepted amount, set the card's billing day, amount, the default grace
   * period and the next bill date counted from today, and end the
   * conversation. The update fails, and the table stays, only when that
   * day does not exist in the month it falls in.
   */
  lemma SetBillingFlow(userId: int, cardId: int, dayText: string, amountText: string, today: Date, st: Store)
    requires ValidDate(today) && TableInvariant(st.cards, st.nextId)
    requires IndexOf(st.cards, userId, cardId).Some?
    requires ValidateBillingDate(dayText) && ValidateBillAmount(amountText)
    ensures var s1 := SeedStep(userId, cardId, WaitingBillingDate, st);
            var s2 := TextStep(userId, dayText, today, s1.1);
            var s3 := TextStep(userId, amountText, today, s2.1);
            var r := BillingUpdated(st.cards, userId, cardId, ParseInt(dayText).value, CleanAmount(amountText),
                                    DefaultGraceDays, today);
            s1.0 == Prompted && s2.0 == Stored && StateOf(s2.1.sessions, userId) == WaitingBillAmount &&
            (s3.0 == Updated <==> NextBillDate(today, ParseInt(dayText).value).Some?) &&
            (s3.0 == Updated || s3.0 == Failed) &&
            s3.1.cards == r.GetOr(st.cards) && s3.1.nextId == st.nextId && SessionOf(s3.1.sessions, userId).None?
  {
    SeededCardId(st.cards, st.nextId, userId, cardId);
    CleanedAmountAccepted(amountText);
    var s1 := SeedStep(userId, cardId, WaitingBillingDate, st);
    BillingDayEntry(userId, dayText, today, s1.1);
    var s2 := TextStep(userId, dayText, today, s1.1);
    CompletingEntry(userId, amountText, today, s2.1);
    SeededBillingPlan(cardId, dayText, CleanAmount(amountText));
  }

  /**
   * The grace-days sub-flow: the card's button, then an accepted number of
   * days, stores that grace period on the card and ends the conversation.
   */
  lemma GraceDaysFlow(userId: int, cardId: int, daysText: string, today: Date, st: Store)
    requires ValidDate(today) && TableInvariant(st.cards, st.nextId)
    requires IndexOf(st.cards, userId, cardId).Some? && ValidateGraceDays(daysText)
    ensures var s1 := SeedStep(userId, cardId, WaitingGraceDays, st);
            var s2 := TextStep(userId, daysText, today, s1.1);
            s1.0 == Prompted && s2.0 == Updated &&
            s2.1.cards == GraceUpdated(st.cards, userId, cardId, ParseInt(daysText).value).value &&
            s2.1.nextId == st.nextId && SessionOf(s2.1.sessions, userId).None?
  {
    SeededCardId(st.cards, st.nextId, userId, cardId);
    var s1 := SeedStep(userId, cardId, WaitingGraceDays, st);
    CompletingEntry(userId, daysText, today, s1.1);
    SeededGracePlan(cardId, daysText);
  }

  /**
   * An accepted card number: four digits go to `card_number` alone; a full
   * number keeps its digits in `full_card_number` and its last four in
   * `card_number`. Either way the form's card number is four digits and the
   * wizard is back at its menu.
   */
  lemma CardNumberEntry(userId: int, text: string, digits: string, today: Date, st: Store)
    requires ValidDate(today) && StateOf(st.sessions, userId) == WaitingCardNumber
    requires FormDataOf(st.sessions, userId).Some? && ValidateCardNumber(text) && digits == DigitsOnly(text)
    ensures var r := TextStep(userId, text, today, st);
            var f := FormDataOf(st.sessions, userId).value;
            var g := if |digits| == 4 then f["card_number" := digits]
                     else f["card_number" := LastFour(digits)]["full_card_number" := digits];
            r.0 == (if HasStatusKeys(g) then Stored else Crashed) &&
            r.1.cards == st.cards && StateOf(r.1.sessions, userId) == Idle && FormDataOf(r.1.sessions, userId) == Some(g)
    ensures |LastFour(digits)| == 4 && AllDigits(LastFour(digits)) && (|digits| == 4 || 13 <= |digits| <= 19)
  {
    CardDigitsAccepted(text, digits);
    assert LastFour(digits) == digits[|digits| - 4..];
    var f := FormDataOf(st.sessions, userId).value;
    var g := if |digits| == 4 then f["card_number" := digits]
             else f["card_number" := LastFour(digits)]["full_card_number" := digits];
    var sessions := Entered(st.sessions, userId, WaitingCardNumber, text);
    assert FormDataOf(sessions, userId) == Some(g);
    assert StatusShown(Some(g)) <==> HasStatusKeys(g) by {
      assert "card_number" in g;
    }
    assert TextStep(userId, text, today, st) == AcceptedStep(userId, WaitingCardNumber, text, today, st);
  }

  /** The key a waiting state writes. */
  function FieldKey(w: FormState): string {
    match w
    case WaitingBankName => "bank_name"
    case WaitingCardNumber => "card_number"
    case WaitingExpiryDate => "expiry_date"
    case WaitingCvv => "cvv"
    case WaitingBillingDate => "billing_date"
    case WaitingBillAmount => "bill_amount"
    case WaitingGraceDays => "grace_days"
    case Idle => ""
  }

  /**
   * An accepted bank name, expiry date, CVV or billing day is written as
   * typed under its field's key and nothing else in the form changes; the
   * wizard is back at its menu, or after the day waits for the amount.
   */
  lemma FieldEntry(userId: int, text: string, today: Date, st: Store)
    requires ValidDate(today) && FormDataOf(st.sessions, userId).Some?
    requires var w := StateOf(st.sessions, userId);
             (w == WaitingBankName || w == WaitingExpiryDate || w == WaitingCvv || w == WaitingBillingDate) &&
             Accepts(w, text)
    ensures var w := StateOf(st.sessions, userId);
            var r := TextStep(userId, text, today, st);
            var f := FormDataOf(st.sessions, userId).value;
            r.0 == (if w == WaitingBillingDate || HasStatusKeys(f[FieldKey(w) := text]) then Stored else Crashed) &&
            r.1.cards == st.cards && r.1.nextId == st.nextId &&
            StateOf(r.1.sessions, userId) == (if w == WaitingBillingDate then WaitingBillAmount else Idle) &&
            FormDataOf(r.1.sessions, userId) == Some(f[FieldKey(w) := text])
  {
    var w := StateOf(st.sessions, userId);
    var g := FormDataOf(st.sessions, userId).value[FieldKey(w) := text];
    var sessions := Entered(st.sessions, userId, w, text);
    assert FormDataOf(sessions, userId) == Some(g);
    assert StatusShown(Some(g)) <==> HasStatusKeys(g) by {
      assert FieldKey(w) in g;
    }
    assert TextStep(userId, text, today, st) == AcceptedStep(userId, w, text, today, st);
  }

  /** An accepted billing day is written and the wizard waits for the amount; nothing is shown. */
  lemma BillingDayEntry(userId: int, text: string, today: Date, st: Store)
    requires ValidDate(today) && FormDataOf(st.sessions, userId).Some?
    requires StateOf(st.sessions, userId) == WaitingBillingDate && ValidateBillingDate(text)
    ensures var r := TextStep(userId, text, today, st);
            r.0 == Stored && r.1.cards == st.cards && r.1.nextId == st.nextId &&
            StateOf(r.1.sessions, userId) == WaitingBillAmount &&
            FormDataOf(r.1.sessions, userId) == Some(FormDataOf(st.sessions, userId).value["billing_date" := text])
  {
    FieldEntry(userId, text, today, st);
  }

  /**
   * An accepted amount or number of days is written (the amount cleaned)
   * and the sub-flow completes with the plan the resulting form yields.
   */
  lemma CompletingEntry(userId: int, text: string, today: Date, st: Store)
    requires ValidDate(today) && FormDataOf(st.sessions, userId).Some?
    requires var w := StateOf(st.sessions, userId);
             (w == WaitingBillAmount || w == WaitingGraceDays) && Accepts(w, text)
    ensures var w := StateOf(st.sessions, userId);
            var f := FormDataOf(st.sessions, userId).value
                       [FieldKey(w) := if w == WaitingBillAmount then CleanAmount(text) else text];
            var st1 := st.(sessions := Entered(st.sessions, userId, w, text));
            FormDataOf(st1.sessions, userId) == Some(f) &&
            TextStep(userId, text, today, st) ==
              Complete(if w == WaitingBillAmount then BillingPlan(Some(f)) else GracePlan(Some(f)), userId, today, st1)
  {
  }

  /** A field button followed by an accepted bank name, expiry date or CVV. */
  lemma FieldThenText(userId: int, field: string, text: string, today: Date, st: Store)
    requires ValidDate(today) && FormDataOf(st.sessions, userId).Some?
    requires var w := FieldState(field);
             w.Some? && (w.value == WaitingBankName || w.value == WaitingExpiryDate || w.value == WaitingCvv) &&
             Accepts(w.value, text)
    ensures var r := TextStep(userId, text, today, FieldStep(userId, field, st).1);
            var g := FormDataOf(st.sessions, userId).value[field := text];
            r.0 == (if HasStatusKeys(g) then Stored else Crashed) &&
            r.1.cards == st.cards && r.1.nextId == st.nextId && StateOf(r.1.sessions, userId) == Idle &&
            FormDataOf(r.1.sessions, userId) == Some(g)
  {
    var s1 := FieldStep(userId, field, st);
    FieldEntry(userId, text, today, s1.1);
  }

  /** The card-number button followed by an accepted card number. */
  lemma NumberThenText(userId: int, text: string, digits: string, today: Date, st: Store)
    requires ValidDate(today) && FormDataOf(st.sessions, userId).Some?
    requires ValidateCardNumber(text) && digits == DigitsOnly(text)
    ensures var r := TextStep(userId, text, today, FieldStep(userId, "card_number", st).1);
            var f := FormDataOf(st.sessions, userId).value;
            var g := if |digits| == 4 then f["card_number" := digits]
                     else f["card_number" := LastFour(digits)]["full_card_number" := digits];
            r.0 == (if HasStatusKeys(g) then Stored else Crashed) &&
            r.1.cards == st.cards && r.1.nextId == st.nextId && StateOf(r.1.sessions, userId) == Idle &&
            FormDataOf(r.1.sessions, userId) == Some(g)
  {
    var s1 := FieldStep(userId, "card_number", st);
    CardNumberEntry(userId, text, digits, today, s1.1);
  }

  /**
   * A field button pressed with no session in progress (a stale message):
   * set_state stores an empty form, the typed bank name is written into it,
   * and showing the form then raises `KeyError` on the missing card number.
   * The writes stay.
   */
  lemma StaleButtonCrashes(userId: int, bank: string, today: Date, st: Store)
    requires ValidDate(today) && SessionOf(st.sessions, userId).None? && |bank| >= 2
    ensures var s1 := FieldStep(userId, "bank_name", st);
            var s2 := TextStep(userId, bank, today, s1.1);
            s1.0 == Prompted && s2.0 == Crashed && s2.1.cards == st.cards &&
            StateOf(s2.1.sessions, userId) == Idle && FormDataOf(s2.1.sessions, userId) == Some(map["bank_name" := bank])
  {
    var s1 := FieldStep(userId, "bank_name", st);
    assert FormDataOf(s1.1.sessions, userId) == Some(map[]);
    FieldEntry(userId, bank, today, s1.1);
    assert map[]["bank_name" := bank] == map["bank_name" := bank];
    assert !HasStatusKeys(map["bank_name" := bank]) by {
      assert "card_number" !in map["bank_name" := bank];
    }
  }

  /** /add_card starts a form holding every field the status view shows. */
  lemma StartedHasStatusKeys(sessions: map<int, SessionRow>, userId: int)
    ensures FormDataOf(Started(sessions, userId), userId) == Some(EmptyForm) && HasStatusKeys(EmptyForm)
  {
  }

  /**
   * A form holding the four shown fields keeps them through any field button
   * and any text outside the billing amount and grace-days states, and such
   * a text never crashes: the conversation /add_card starts cannot raise
   * `KeyError`.
   */
  lemma StatusKeysKept(userId: int, field: string, text: string, today: Date, st: Store)
    requires ValidDate(today) && FormDataOf(st.sessions, userId).Some? && HasStatusKeys(FormDataOf(st.sessions, userId).value)
    ensures var r := FieldStep(userId, field, st);
            FormDataOf(r.1.sessions, userId).Some? && HasStatusKeys(FormDataOf(r.1.sessions, userId).value)
    ensures var w := StateOf(st.sessions, userId);
            var r := TextStep(userId, text, today, st);
            w != WaitingBillAmount && w != WaitingGraceDays ==>
              r.0 != Crashed && FormDataOf(r.1.sessions, userId).Some? && HasStatusKeys(FormDataOf(r.1.sessions, userId).value)
  {
    var w := StateOf(st.sessions, userId);
    if w != Idle && w != WaitingBillAmount && w != WaitingGraceDays && Accepts(w, text) {
      if w == WaitingCardNumber {
        CardNumberEntry(userId, text, DigitsOnly(text), today, st);
      } else {
        FieldEntry(userId, text, today, st);
      }
    }
  }

  /** `FieldThenText` on a form holding the shown fields: the text is stored and they stay. */
  lemma ShownFieldThenText(userId: int, field: string, text: string, today: Date, st: Store)
    requires ValidDate(today) && FormDataOf(st.sessions, userId).Some? && HasStatusKeys(FormDataOf(st.sessions, userId).value)
    requires var w := FieldState(field);
             w.Some? && (w.value == WaitingBankName || w.value == WaitingExpiryDate || w.value == WaitingCvv) &&
             Accepts(w.value, text)
    ensures var r := TextStep(userId, text, today, FieldStep(userId, field, st).1);
            var g := FormDataOf(st.sessions, userId).value[field := text];
            r.0 == Stored && HasStatusKeys(g) && r.1.cards == st.cards && r.1.nextId == st.nextId &&
            FormDataOf(r.1.sessions, userId) == Some(g)
  {
    FieldThenText(userId, field, text, today, st);
  }

  /** `NumberThenText` on a form holding the shown fields. */
  lemma ShownNumberThenText(userId: int, text: string, today: Date, st: Store)
    requires ValidDate(today) && FormDataOf(st.sessions, userId).Some? && HasStatusKeys(FormDataOf(st.sessions, userId).value)
    requires ValidateCardNumber(text)
    ensures var r := TextStep(userId, text, today, FieldStep(userId, "card_number", st).1);
            var f := FormDataOf(st.sessions, userId).value;
            var digits := DigitsOnly(text);
            var g := if |digits| == 4 then f["card_number" := digits]
                     else f["card_number" := LastFour(digits)]["full_card_number" := digits];
            r.0 == Stored && HasStatusKeys(g) && r.1.cards == st.cards && r.1.nextId == st.nextId &&
            FormDataOf(r.1.sessions, userId) == Some(g)
  {
    NumberThenText(userId, text, DigitsOnly(text), today, st);
  }

  /** The form the add-card conversation builds, in the order the fields are entered. */
  function AddCardForm(bank: string, number: string, expiry: string, cvv: string): Scratch {
    var d := DigitsOnly(number);
    var f := EmptyForm["bank_name" := bank];
    (if |d| == 4 then f["card_number" := d] else f["card_number" := LastFour(d)]["full_card_number" := d])
      ["expiry_date" := expiry]["cvv" := cvv]
  }

  /** What that form holds under each key a saved card reads. */
  lemma AddCardFormFields(bank: string, number: string, expiry: string, cvv: string)
    requires ValidateCardNumber(number)
    ensures var f := AddCardForm(bank, number, expiry, cvv);
            var d := DigitsOnly(number);
            "cvv" in f && f["bank_name"] == bank && f["card_number"] == LastFour(d) && f["expiry_date"] == expiry &&
            f["cvv"] == cvv && f["full_card_number"] == (if |d| == 4 then "" else d) && |LastFour(d)| == 4
  {
    var f := AddCardForm(bank, number, expiry, cvv);
    var d := DigitsOnly(number);
    assert "cvv" in f && f["cvv"] == cvv;
    assert f["expiry_date"] == expiry;
    assert f["bank_name"] == bank;
    assert f["card_number"] == LastFour(d);
    assert f["full_card_number"] == (if |d| == 4 then "" else d);
    CardDigitsAccepted(number, DigitsOnly(number));
  }

  /** "Done" on that form saves the card unless the user already has its last four digits. */
  lemma DoneOnAddCardForm(userId: int, bank: string, number: string, expiry: string, cvv: string, st: Store)
    requires |bank| >= 2 && ValidateCardNumber(number) && ValidateExpiryDate(expiry) && ValidateCvv(cvv)
    requires FormDataOf(st.sessions, userId) == Some(AddCardForm(bank, number, expiry, cvv))
    ensures var r := DoneStep(userId, st);
            var d := DigitsOnly(number);
            (r.0 == Saved <==> !HasNumber(st.cards, userId, LastFour(d))) &&
            (r.0 == Saved ==>
              r.1.cards == st.cards + [NewCard(st.nextId, userId, bank, LastFour(d), expiry, Some(cvv),
                                               Some(if |d| == 4 then "" else d))] &&
              r.1.nextId == st.nextId + 1 && SessionOf(r.1.sessions, userId).None?) &&
            (r.0 != Saved ==> r.0 == Duplicate && r.1 == st)
  {
    AddCardFormFields(bank, number, expiry, cvv);
    var f := AddCardForm(bank, number, expiry, cvv);
    assert f != map[];
    assert FormComplete(Some(f));
  }

  /**
   * The texts of the add-card conversation: each of the four field buttons
   * followed by an accepted text is stored, and the form ends up as
   * `AddCardForm` with the cards and the id counter untouched.
   */
  lemma AddCardTexts(userId: int, bank: string, number: string, expiry: string, cvv: string, today: Date, st: Store)
    requires ValidDate(today)
    requires |bank| >= 2 && ValidateCardNumber(number) && ValidateExpiryDate(expiry) && ValidateCvv(cvv)
    ensures var s0 := st.(sessions := Started(st.sessions, userId));
            var s2 := TextStep(userId, bank, today, FieldStep(userId, "bank_name", s0).1);
            var s4 := TextStep(userId, number, today, FieldStep(userId, "card_number", s2.1).1);
            var s6 := TextStep(userId, expiry, today, FieldStep(userId, "expiry_date", s4.1).1);
            var s8 := TextStep(userId, cvv, today, FieldStep(userId, "cvv", s6.1).1);
            s2.0 == Stored && s4.0 == Stored && s6.0 == Stored && s8.0 == Stored &&
            FormDataOf(s8.1.sessions, userId) == Some(AddCardForm(bank, number, expiry, cvv)) &&
            s8.1.cards == st.cards && s8.1.nextId == st.nextId
  {
    var s0 := st.(sessions := Started(st.sessions, userId));
    StartedHasStatusKeys(st.sessions, userId);
    BankThenNumber(userId, bank, number, today, s0);
    var s2 := TextStep(userId, bank, today, FieldStep(userId, "bank_name", s0).1);
    var s4 := TextStep(userId, number, today, FieldStep(userId, "card_number", s2.1).1);
    ExpiryThenCvv(userId, expiry, cvv, today, s4.1);
  }

  /** The bank name and card number steps on a form holding the shown fields. */
  lemma BankThenNumber(userId: int, bank: string, number: string, today: Date, st: Store)
    requires ValidDate(today) && FormDataOf(st.sessions, userId).Some? && HasStatusKeys(FormDataOf(st.sessions, userId).value)
    requires |bank| >= 2 && ValidateCardNumber(number)
    ensures var s2 := TextStep(userId, bank, today, FieldStep(userId, "bank_name", st).1);
            var s4 := TextStep(userId, number, today, FieldStep(userId, "card_number", s2.1).1);
            var f := FormDataOf(st.sessions, userId).value["bank_name" := bank];
            var d := DigitsOnly(number);
            s2.0 == Stored && s4.0 == Stored && s4.1.cards == st.cards && s4.1.nextId == st.nextId &&
            FormDataOf(s4.1.sessions, userId).Some? && HasStatusKeys(FormDataOf(s4.1.sessions, userId).value) &&
            FormDataOf(s4.1.sessions, userId).value ==
              if |d| == 4 then f["card_number" := d] else f["card_number" := LastFour(d)]["full_card_number" := d]
  {
    ShownFieldThenText(userId, "bank_name", bank, today, st);
    var s2 := TextStep(userId, bank, today, FieldStep(userId, "bank_name", st).1);
    ShownNumberThenText(userId, number, today, s2.1);
  }

  /** The expiry date and CVV steps on a form holding the shown fields. */
  lemma ExpiryThenCvv(userId: int, expiry: string, cvv: string, today: Date, st: Store)
    requires ValidDate(today) && FormDataOf(st.sessions, userId).Some? && HasStatusKeys(FormDataOf(st.sessions, userId).value)
    requires ValidateExpiryDate(expiry) && ValidateCvv(cvv)
    ensures var s6 := TextStep(userId, expiry, today, FieldStep(userId, "expiry_date", st).1);
            var s8 := TextStep(userId, cvv, today, FieldStep(userId, "cvv", s6.1).1);
            s6.0 == Stored && s8.0 == Stored && s8.1.cards == st.cards && s8.1.nextId == st.nextId &&
            FormDataOf(s8.1.sessions, userId) ==
              Some(FormDataOf(st.sessions, userId).value["expiry_date" := expiry]["cvv" := cvv])
  {
    ShownFieldThenText(userId, "expiry_date", expiry, today, st);
    var s6 := TextStep(userId, expiry, today, FieldStep(userId, "expiry_date", st).1);
    ShownFieldThenText(userId, "cvv", cvv, today, s6.1);
  }

  /**
   * The add-card conversation: /add_card, then the bank name, card number,
   * expiry date and CVV buttons each followed by an accepted text, then
   * "Done". Every text is stored, and the card is saved, under the next id,
   * exactly when the user has no card with the same last four digits; a
   * full number is kept alongside.
   */
  lemma AddCardFlow(userId: int, bank: string, number: string, expiry: string, cvv: string, today: Date, st: Store)
    requires ValidDate(today)
    requires |bank| >= 2 && ValidateCardNumber(number) && ValidateExpiryDate(expiry) && ValidateCvv(cvv)
    ensures var s0 := st.(sessions := Started(st.sessions, userId));
            var s2 := TextStep(userId, bank, today, FieldStep(userId, "bank_name", s0).1);
            var s4 := TextStep(userId, number, today, FieldStep(userId, "card_number", s2.1).1);
            var s6 := TextStep(userId, expiry, today, FieldStep(userId, "expiry_date", s4.1).1);
            var s8 := TextStep(userId, cvv, today, FieldStep(userId, "cvv", s6.1).1);
            var s9 := DoneStep(userId, s8.1);
            var d := DigitsOnly(number);
            s2.0 == Stored && s4.0 == Stored && s6.0 == Stored && s8.0 == Stored &&
            (s9.0 == Saved <==> !HasNumber(st.cards, userId, LastFour(d))) &&
            (s9.0 == Saved ==>
              s9.1.cards == st.cards + [NewCard(st.nextId, userId, bank, LastFour(d), expiry, Some(cvv),
                                                Some(if |d| == 4 then "" else d))] &&
              s9.1.nextId == st.nextId + 1 && SessionOf(s9.1.sessions, userId).None?) &&
            (s9.0 != Saved ==> s9.0 == Duplicate && s9.1.cards == st.cards && s9.1.nextId == st.nextId)
  {
    AddCardTexts(userId, bank, number, expiry, cvv, today, st);
    var s0 := st.(sessions := Started(st.sessions, userId));
    var s2 := TextStep(userId, bank, today, FieldStep(userId, "bank_name", s0).1);
    var s4 := TextStep(userId, number, today, FieldStep(userId, "card_number", s2.1).1);
    var s6 := TextStep(userId, expiry, today, FieldStep(userId, "expiry_date", s4.1).1);
    var s8 := TextStep(userId, cvv, today, FieldStep(userId, "cvv", s6.1).1);
    DoneOnAddCardForm(userId, bank, number, expiry, cvv, s8.1);
  }

  // ---------------------------------------------------------------------
  // Isolation between users

  /** A completion leaves every other user's cards as that user sees them. */
  lemma CommitIsolated(plan: Plan, userId: int, other: int, cards: seq<Card>, today: Date)
    requires ValidDate(today) && DatesValid(cards) && other != userId
    ensures NewestFirst(Commit(plan, userId, cards, today).1, OwnedBy(other)) == NewestFirst(cards, OwnedBy(other))
  {
    match plan
    case SetBillingInfo(id, day, amount) =>
      WritesAreIsolated(cards, 0, userId, id, other, OwnedBy(other), today, "", "", "", None, None,
                        day, amount, DefaultGraceDays);
    case SetAmount(id, amount) =>
      WritesAreIsolated(cards, 0, userId, id, other, OwnedBy(other), today, "", "", "", None, None, 0, amount, 0);
    case SetGrace(id, days) =>
      WritesAreIsolated(cards, 0, userId, id, other, OwnedBy(other), today, "", "", "", None, None, 0, "", days);
    case _ =>
  }

  /**
   * A text message from one user changes neither another user's session
   * nor that user's cards, in the newest-first order get_user_cards lists
   * them.
   */
  lemma TextIsolated(userId: int, other: int, text: string, today: Date, st: Store)
    requires ValidDate(today) && DatesValid(st.cards) && other != userId
    ensures var r := TextStep(userId, text, today, st);
            SessionOf(r.1.sessions, other) == SessionOf(st.sessions, other) &&
            NewestFirst(r.1.cards, OwnedBy(other)) == NewestFirst(st.cards, OwnedBy(other))
  {
    var w := StateOf(st.sessions, userId);
    if w != Idle && Accepts(w, text) {
      var st1 := st.(sessions := Entered(st.sessions, userId, w, text));
      CommitIsolated(BillingPlan(FormDataOf(st1.sessions, userId)), userId, other, st.cards, today);
      CommitIsolated(GracePlan(FormDataOf(st1.sessions, userId)), userId, other, st.cards, today);
    }
  }

  /** The same for a button press, whatever route its payload takes. */
  lemma RouteIsolated(userId: int, other: int, route: Route, today: Date, st: Store)
    requires ValidDate(today) && DatesValid(st.cards) && other != userId
    ensures var r := RouteStep(userId, route, today, st);
            SessionOf(r.1.sessions, other) == SessionOf(st.sessions, other) &&
            NewestFirst(r.1.cards, OwnedBy(other)) == NewestFirst(st.cards, OwnedBy(other))
  {
    match route
    case ConfirmDelete(id) =>
      assert RouteStep(userId, route, today, st) == ConfirmDeleteStep(userId, id, st);
      CardWriteIsolated(userId, other, id, today, st);
    case MarkPaid(id) =>
      assert RouteStep(userId, route, today, st) == MarkPaidStep(userId, id, today, st);
      CardWriteIsolated(userId, other, id, today, st);
    case FormDone =>
      assert RouteStep(userId, route, today, st) == DoneStep(userId, st);
      DoneIsolated(userId, other, today, st);
    case _ =>
      OtherRoutesIsolated(userId, other, route, today, st);
  }

  /** Deleting or paying a card leaves another user's cards and session alone. */
  lemma CardWriteIsolated(userId: int, other: int, cardId: int, today: Date, st: Store)
    requires ValidDate(today) && DatesValid(st.cards) && other != userId
    ensures var r := ConfirmDeleteStep(userId, cardId, st);
            SessionOf(r.1.sessions, other) == SessionOf(st.sessions, other) &&
            NewestFirst(r.1.cards, OwnedBy(other)) == NewestFirst(st.cards, OwnedBy(other))
    ensures var r := MarkPaidStep(userId, cardId, today, st);
            SessionOf(r.1.sessions, other) == SessionOf(st.sessions, other) &&
            NewestFirst(r.1.cards, OwnedBy(other)) == NewestFirst(st.cards, OwnedBy(other))
  {
    WritesAreIsolated(st.cards, 0, userId, cardId, other, OwnedBy(other), today, "", "", "", None, None, 0, "", 0);
  }

  /** "Done" saves only under the user's own id. */
  lemma DoneIsolated(userId: int, other: int, today: Date, st: Store)
    requires ValidDate(today) && DatesValid(st.cards) && other != userId
    ensures var r := DoneStep(userId, st);
            SessionOf(r.1.sessions, other) == SessionOf(st.sessions, other) &&
            NewestFirst(r.1.cards, OwnedBy(other)) == NewestFirst(st.cards, OwnedBy(other))
  {
    var form := FormDataOf(st.sessions, userId);
    if FormComplete(form) {
      var f := form.value;
      WritesAreIsolated(st.cards, st.nextId, userId, 0, other, OwnedBy(other), today,
                        f["bank_name"], f["card_number"], f["expiry_date"],
                        Lookup(f, "cvv"), Lookup(f, "full_card_number"), 0, "", 0);
    }
  }

  /** The routes that write no card touch only the user's own session. */
  lemma OtherRoutesIsolated(userId: int, other: int, route: Route, today: Date, st: Store)
    requires ValidDate(today) && DatesValid(st.cards) && other != userId
    requires !route.ConfirmDelete? && !route.MarkPaid? && !route.FormDone?
    ensures var r := RouteStep(userId, route, today, st);
            SessionOf(r.1.sessions, other) == SessionOf(st.sessions, other) && r.1.cards == st.cards
  {
  }
}
