/**
 * The event handlers of src/handlers.py as methods on the card store and
 * the form manager. Each one performs the calls the source makes, in the
 * source's order, and is proved to have exactly the effect of the matching
 * step in the `Wizard` module, whose lemmas say what the steps mean.
 */
module Handlers {
  import opened Wrappers
  import opened Text
  import opened Dates
  import opened Database
  import opened Forms
  import opened Wizard

  class CreditCardHandlers {
    const db: DatabaseManager
    const forms: FormManager

    /** The form manager works on the same store as the handlers. */
    ghost predicate Valid()
      reads this, db, forms
    {
      forms.db == db && db.Valid()
    }

    constructor (db: DatabaseManager, forms: FormManager)
      requires forms.db == db && db.Valid()
      ensures Valid() && this.db == db && this.forms == forms
    {
      this.db := db;
      this.forms := forms;
    }

    /** add_card_command: a fresh add-card form. */
    method HandleAddCardCommand(userId: int) returns (o: Outcome)
      requires Valid()
      modifies db
      ensures Valid()
      ensures o == Prompted && db.Snapshot() == old(db.Snapshot()).(sessions := Started(old(db.sessions), userId))
    {
      var _ := forms.StartAddCardForm(userId);
      o := Prompted;
    }

    /** handle_text_message: validate the text for the waiting field, then store it and move on. */
    method HandleTextMessage(userId: int, text: string, today: Date) returns (o: Outcome)
      requires Valid() && ValidDate(today)
      modifies db
      ensures Valid()
      ensures (o, db.Snapshot()) == TextStep(userId, text, today, old(db.Snapshot()))
    {
      var w := forms.GetCurrentState(userId);
      if w == Idle {
        return Ignored;
      }
      if !Accepts(w, text) {
        return Rejected;
      }
      o := StoreAccepted(userId, w, text, today);
    }

    /** The writes handle_text_message makes for an accepted text, and the completions it calls. */
    method StoreAccepted(userId: int, w: FormState, text: string, today: Date) returns (o: Outcome)
      requires Valid() && ValidDate(today) && w != Idle
      modifies db
      ensures Valid()
      ensures (o, db.Snapshot()) == AcceptedStep(userId, w, text, today, old(db.Snapshot()))
    {
      if w == WaitingBankName {
        var _ := forms.UpdateFormField(userId, "bank_name", text);
        forms.SetState(userId, Idle);
        o := ShowFormStatus(userId);
      } else if w == WaitingCardNumber {
        var digits := DigitsOnly(text);
        if |digits| == 4 {
          var _ := forms.UpdateFormField(userId, "card_number", digits);
        } else {
          var _ := forms.UpdateFormField(userId, "card_number", LastFour(digits));
          var _ := forms.UpdateFormField(userId, "full_card_number", digits);
        }
        forms.SetState(userId, Idle);
        o := ShowFormStatus(userId);
      } else if w == WaitingExpiryDate {
        var _ := forms.UpdateFormField(userId, "expiry_date", text);
        forms.SetState(userId, Idle);
        o := ShowFormStatus(userId);
      } else if w == WaitingCvv {
        var _ := forms.UpdateFormField(userId, "cvv", text);
        forms.SetState(userId, Idle);
        o := ShowFormStatus(userId);
      } else if w == WaitingBillingDate {
        var _ := forms.UpdateFormField(userId, "billing_date", text);
        forms.SetState(userId, WaitingBillAmount);
        o := Stored;
      } else if w == WaitingBillAmount {
        var cleaned := CleanAmount(text);
        var _ := forms.UpdateFormField(userId, "bill_amount", cleaned);
        forms.SetState(userId, Idle);
        o := HandleBillingFormDone(userId, today);
      } else {
        var _ := forms.UpdateFormField(userId, "grace_days", text);
        forms.SetState(userId, Idle);
        o := HandleGraceDaysFormDone(userId, today);
      }
    }

    /** _show_form_status: render the form, raising `KeyError` on a missing shown field. */
    method ShowFormStatus(userId: int) returns (o: Outcome)
      requires Valid()
      ensures o == Stored <==> StatusShown(FormDataOf(db.sessions, userId))
      ensures o == Stored || o == Crashed
    {
      var form := forms.GetFormData(userId);
      if StatusShown(form) {
        o := Stored;
      } else {
        o := Crashed;
      }
    }

    /** _handle_form_field_callback: wait for the chosen field. */
    method HandleFormFieldCallback(userId: int, field: string) returns (o: Outcome)
      requires Valid()
      modifies db
      ensures Valid()
      ensures (o, db.Snapshot()) == FieldStep(userId, field, old(db.Snapshot()))
    {
      if field == "bank_name" {
        forms.SetState(userId, WaitingBankName);
      } else if field == "card_number" {
        forms.SetState(userId, WaitingCardNumber);
      } else if field == "expiry_date" {
        forms.SetState(userId, WaitingExpiryDate);
      } else if field == "cvv" {
        forms.SetState(userId, WaitingCvv);
      } else {
        return Ignored;
      }
      o := Prompted;
    }

    /** _handle_form_done: save a complete form as a card; clear the form only if that worked. */
    method HandleFormDone(userId: int) returns (o: Outcome)
      requires Valid()
      modifies db
      ensures Valid()
      ensures (o, db.Snapshot()) == DoneStep(userId, old(db.Snapshot()))
    {
      if !forms.IsFormComplete(userId) {
        return Incomplete;
      }
      var f := forms.GetFormData(userId).value;
      var ok := db.AddCreditCard(userId, f["bank_name"], f["card_number"], f["expiry_date"],
                                 Lookup(f, "cvv"), Lookup(f, "full_card_number"));
      if ok {
        forms.ClearForm(userId);
        o := Saved;
      } else {
        o := Duplicate;
      }
    }

    /** _handle_form_cancel. */
    method HandleFormCancel(userId: int) returns (o: Outcome)
      requires Valid()
      modifies db
      ensures Valid()
      ensures (o, db.Snapshot()) == CancelStep(userId, old(db.Snapshot()))
    {
      forms.ClearForm(userId);
      o := Cancelled;
    }

    /** The three billing sub-flow buttons: a session holding only the card id, if the card is the user's. */
    method SeedBillingForm(userId: int, cardId: int, w: FormState) returns (o: Outcome)
      requires Valid()
      modifies db
      ensures Valid()
      ensures (o, db.Snapshot()) == SeedStep(userId, cardId, w, old(db.Snapshot()))
    {
      var card := db.GetCardById(userId, cardId);
      if card.None? {
        return NotFound;
      }
      db.SaveUserSession(userId, w.Value(), Some(SeedForm(cardId)));
      o := Prompted;
    }

    /** _handle_set_billing_callback. */
    method HandleSetBillingCallback(userId: int, cardId: int) returns (o: Outcome)
      requires Valid()
      modifies db
      ensures Valid()
      ensures (o, db.Snapshot()) == SeedStep(userId, cardId, WaitingBillingDate, old(db.Snapshot()))
    {
      o := SeedBillingForm(userId, cardId, WaitingBillingDate);
    }

    /** _handle_update_amount_callback. */
    method HandleUpdateAmountCallback(userId: int, cardId: int) returns (o: Outcome)
      requires Valid()
      modifies db
      ensures Valid()
      ensures (o, db.Snapshot()) == SeedStep(userId, cardId, WaitingBillAmount, old(db.Snapshot()))
    {
      o := SeedBillingForm(userId, cardId, WaitingBillAmount);
    }

    /** _handle_set_grace_days_callback. */
    method HandleSetGraceDaysCallback(userId: int, cardId: int) returns (o: Outcome)
      requires Valid()
      modifies db
      ensures Valid()
      ensures (o, db.Snapshot()) == SeedStep(userId, cardId, WaitingGraceDays, old(db.Snapshot()))
    {
      o := SeedBillingForm(userId, cardId, WaitingGraceDays);
    }

    /** _handle_billing_form_done: set the billing info or only the amount, then drop the form. */
    method HandleBillingFormDone(userId: int, today: Date) returns (o: Outcome)
      requires Valid() && ValidDate(today)
      modifies db
      ensures Valid()
      ensures (o, db.Snapshot()) ==
        Complete(BillingPlan(old(forms.GetFormData(userId))), userId, today, old(db.Snapshot()))
    {
      var form := forms.GetFormData(userId);
      if form.None? || !Filled(form.value, "bill_amount") {
        return MissingValue;
      }
      var cardId := CardIdOf(form.value);
      if cardId.None? {
        return NotFound;
      }
      var ok;
      if Filled(form.value, "billing_date") {
        var day := ParseInt(form.value["billing_date"]);
        if day.None? {
          return Crashed;
        }
        ok := db.UpdateBillingInfo(userId, cardId.value, day.value, form.value["bill_amount"], DefaultGraceDays, today);
      } else {
        ok := db.UpdateBillAmount(userId, cardId.value, form.value["bill_amount"]);
      }
      o := if ok then Updated else Failed;
      forms.ClearForm(userId);
    }

    /** _handle_grace_days_form_done: set the grace period, then drop the form. */
    method HandleGraceDaysFormDone(userId: int, today: Date) returns (o: Outcome)
      requires Valid() && ValidDate(today)
      modifies db
      ensures Valid()
      ensures (o, db.Snapshot()) ==
        Complete(GracePlan(old(forms.GetFormData(userId))), userId, today, old(db.Snapshot()))
    {
      var form := forms.GetFormData(userId);
      if form.None? || !Filled(form.value, "grace_days") {
        return MissingValue;
      }
      var cardId := CardIdOf(form.value);
      if cardId.None? {
        return NotFound;
      }
      var days := ParseInt(form.value["grace_days"]);
      if days.None? {
        return Crashed;
      }
      var ok := db.UpdatePaymentGraceDays(userId, cardId.value, days.value);
      o := if ok then Updated else Failed;
      forms.ClearForm(userId);
    }

    /** _handle_view_card_callback and _handle_delete_card_callback, which only read. */
    method HandleLookCallback(userId: int, cardId: int) returns (o: Outcome)
      requires Valid()
      ensures (o, db.Snapshot()) == LookStep(userId, cardId, db.Snapshot())
    {
      var card := db.GetCardById(userId, cardId);
      o := if card.None? then NotFound else Shown;
    }

    /** _handle_confirm_delete_callback. */
    method HandleConfirmDelete(userId: int, cardId: int) returns (o: Outcome)
      requires Valid()
      modifies db
      ensures Valid()
      ensures (o, db.Snapshot()) == ConfirmDeleteStep(userId, cardId, old(db.Snapshot()))
    {
      var card := db.GetCardById(userId, cardId);
      if card.None? {
        return NotFound;
      }
      var ok := db.DeleteCard(userId, cardId);
      o := if ok then Updated else Failed;
    }

    /** _handle_mark_paid_callback. */
    method HandleMarkPaid(userId: int, cardId: int, today: Date) returns (o: Outcome)
      requires Valid() && ValidDate(today)
      modifies db
      ensures Valid()
      ensures (o, db.Snapshot()) == MarkPaidStep(userId, cardId, today, old(db.Snapshot()))
    {
      var card := db.GetCardById(userId, cardId);
      if card.None? {
        return NotFound;
      }
      var ok := db.MarkBillPaid(userId, cardId, today);
      o := if ok then Updated else Failed;
    }

    /** handle_callback_query: dispatch on the payload's prefix. */
    method HandleCallbackQuery(userId: int, data: string, today: Date) returns (o: Outcome)
      requires Valid() && ValidDate(today)
      modifies db
      ensures Valid()
      ensures (o, db.Snapshot()) == CallbackStep(userId, data, today, old(db.Snapshot()))
    {
      o := HandleRoute(userId, RouteOf(data), today);
    }

    /** The handler the dispatch chooses for a route. */
    method HandleRoute(userId: int, route: Route, today: Date) returns (o: Outcome)
      requires Valid() && ValidDate(today)
      modifies db
      ensures Valid()
      ensures (o, db.Snapshot()) == RouteStep(userId, route, today, old(db.Snapshot()))
    {
      match route
      case ViewCard(id) => o := HandleCardRoute(userId, route, today);
      case DeleteCard(id) => o := HandleCardRoute(userId, route, today);
      case ConfirmDelete(id) => o := HandleCardRoute(userId, route, today);
      case MarkPaid(id) => o := HandleCardRoute(userId, route, today);
      case SetBilling(id) => o := HandleCardRoute(userId, route, today);
      case UpdateAmount(id) => o := HandleCardRoute(userId, route, today);
      case SetGraceDays(id) => o := HandleCardRoute(userId, route, today);
      case FormField(f) => o := HandleFormFieldCallback(userId, f);
      case ViewDueBills => o := Shown;
      case ViewPendingBills => o := Shown;
      case ViewAllCards => o := Shown;
      case FormDone => o := HandleFormDone(userId);
      case FormCancel => o := HandleFormCancel(userId);
      case CloseView => o := Shown;
      case BadId => o := Crashed;
      case NoRoute => o := Ignored;
    }

    /** The routes whose payload names a card. */
    method HandleCardRoute(userId: int, route: Route, today: Date) returns (o: Outcome)
      requires Valid() && ValidDate(today)
      requires route.ViewCard? || route.DeleteCard? || route.ConfirmDelete? || route.MarkPaid? ||
               route.SetBilling? || route.UpdateAmount? || route.SetGraceDays?
      modifies db
      ensures Valid()
      ensures (o, db.Snapshot()) == RouteStep(userId, route, today, old(db.Snapshot()))
    {
      match route
      case ViewCard(id) => o := HandleLookCallback(userId, id);
      case DeleteCard(id) => o := HandleLookCallback(userId, id);
      case ConfirmDelete(id) => o := HandleConfirmDelete(userId, id);
      case MarkPaid(id) => o := HandleMarkPaid(userId, id, today);
      case SetBilling(id) => o := HandleSetBillingCallback(userId, id);
      case UpdateAmount(id) => o := HandleUpdateAmountCallback(userId, id);
      case SetGraceDays(id) => o := HandleSetGraceDaysCallback(userId, id);
    }
  }
}
