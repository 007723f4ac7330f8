/**
 * The card store and the session store of src/database.py, lifted off
 * SQLite. The `credit_cards` table is a sequence of rows in insertion
 * order, with `id` taken from a counter (so a larger id means created later,
 * which stands in for `created_at`); `user_sessions` is a map keyed by the
 * user id. Each mutator is specified by a function on the table (`Added`,
 * `Deleted`, `MarkedPaid`, ...) that returns `None` exactly where the source
 * returns `False` and leaves the table alone.
 */
module Database {
  import opened Wrappers
  import opened Text
  import opened Dates

  /** A decoded `form_data` payload: field name to entered text. */
  type Scratch = map<string, string>

  datatype BillStatus = Pending | Paid

  /** One row of `credit_cards`; `created_at`/`updated_at` are left out. */
  datatype Card = Card(
    id: int,
    userId: int,
    bankName: string,
    cardNumber: string,
    expiryDate: string,
    cvv: Option<string>,
    fullCardNumber: Option<string>,
    billingDate: Option<int>,
    billAmount: Option<string>,
    lastBillDate: Option<Date>,
    nextBillDate: Option<Date>,
    billStatus: BillStatus,
    graceDays: int)

  /**
   * One row of `user_sessions`. `formData` is `None` when the stored text is
   * NULL, empty or not a JSON object.
   */
  datatype SessionRow = SessionRow(state: string, formData: Option<Scratch>)

  /** The whole store: the card table, the id counter and the session table. */
  datatype Store = Store(cards: seq<Card>, nextId: int, sessions: map<int, SessionRow>)

  /** `SELECT * FROM user_sessions WHERE user_id = ?`. */
  function SessionOf(sessions: map<int, SessionRow>, userId: int): Option<SessionRow> {
    if userId in sessions then Some(sessions[userId]) else None
  }

  /** The column default of `payment_grace_days`. */
  const DefaultGraceDays := 21

  // ---------------------------------------------------------------------
  // Table invariants

  predicate IdsAscending(s: seq<Card>) {
    forall i, j :: 0 <= i < j < |s| ==> s[i].id < s[j].id
  }

  predicate IdsDescending(s: seq<Card>) {
    forall i, j :: 0 <= i < j < |s| ==> s[i].id > s[j].id
  }

  /** `UNIQUE(user_id, card_number)`. */
  predicate NumbersUnique(s: seq<Card>) {
    forall i, j :: 0 <= i < j < |s| && s[i].userId == s[j].userId ==> s[i].cardNumber != s[j].cardNumber
  }

  /** Every stored next bill date parses back as a calendar date. */
  predicate DatesValid(s: seq<Card>) {
    forall i :: 0 <= i < |s| && s[i].nextBillDate.Some? ==> ValidDate(s[i].nextBillDate.value)
  }

  predicate Matches(c: Card, userId: int, cardId: int) {
    c.userId == userId && c.id == cardId
  }

  /** What the schema guarantees of the card table: primary key, uniqueness, readable dates. */
  ghost predicate TableInvariant(s: seq<Card>, nextId: int) {
    1 <= nextId && IdsAscending(s) && NumbersUnique(s) && DatesValid(s) &&
    (forall i :: 0 <= i < |s| ==> 1 <= s[i].id < nextId)
  }

  /** A table made of rows of a valid table, in increasing id order, is valid. */
  lemma SubTableInvariant(s: seq<Card>, r: seq<Card>, nextId: int)
    requires TableInvariant(s, nextId) && IdsAscending(r)
    requires forall c :: c in r ==> c in s
    ensures TableInvariant(r, nextId)
  {
    forall i | 0 <= i < |r| ensures r[i] in s { }
    forall i, j | 0 <= i < j < |r| && r[i].userId == r[j].userId
      ensures r[i].cardNumber != r[j].cardNumber
    {
      assert r[i] in s && r[j] in s;
      var a :| 0 <= a < |s| && s[a] == r[i];
      var b :| 0 <= b < |s| && s[b] == r[j];
      assert a != b;
    }
  }

  predicate HasNumber(s: seq<Card>, userId: int, cardNumber: string) {
    exists i :: 0 <= i < |s| && s[i].userId == userId && s[i].cardNumber == cardNumber
  }

  // ---------------------------------------------------------------------
  // Queries

  /** `WHERE user_id = ? AND id = ?`: the position of the row, if there is one. */
  function IndexOf(s: seq<Card>, userId: int, cardId: int): (r: Option<nat>)
    ensures r.Some? ==> r.value < |s| && Matches(s[r.value], userId, cardId)
    ensures r.None? <==> forall i :: 0 <= i < |s| ==> !Matches(s[i], userId, cardId)
  {
    if s == [] then None
    else if Matches(s[0], userId, cardId) then Some(0)
    else match IndexOf(s[1..], userId, cardId)
      case None => None
      case Some(k) => Some(k + 1)
  }

  /** The rows satisfying `keep`, most recently created first. */
  function NewestFirst(s: seq<Card>, keep: Card -> bool): (r: seq<Card>)
    ensures forall c :: c in r <==> c in s && keep(c)
    ensures IdsAscending(s) ==> IdsDescending(r)
  {
    if s == [] then []
    else
      var last := s[|s| - 1];
      var rest := NewestFirst(s[..|s| - 1], keep);
      assert s == s[..|s| - 1] + [last];
      if IdsAscending(s) then
        LastIsNewest(s);
        PrependKeepsDescending(last, rest);
        (if keep(last) then [last] else []) + rest
      else
        (if keep(last) then [last] else []) + rest
  }

  /** The rows satisfying `keep`, in table order. */
  function Keep(s: seq<Card>, keep: Card -> bool): (r: seq<Card>)
    ensures forall c :: c in r <==> c in s && keep(c)
    ensures IdsAscending(s) ==> IdsAscending(r)
  {
    if s == [] then []
    else
      var last := s[|s| - 1];
      var rest := Keep(s[..|s| - 1], keep);
      assert s == s[..|s| - 1] + [last];
      if IdsAscending(s) then
        LastIsNewest(s);
        AppendKeepsAscending(rest, last);
        rest + (if keep(last) then [last] else [])
      else
        rest + (if keep(last) then [last] else [])
  }

  lemma LastIsNewest(s: seq<Card>)
    requires IdsAscending(s) && s != []
    ensures IdsAscending(s[..|s| - 1])
    ensures forall c :: c in s[..|s| - 1] ==> c.id < s[|s| - 1].id
  {
  }

  lemma PrependKeepsDescending(x: Card, r: seq<Card>)
    requires IdsDescending(r) && forall c :: c in r ==> c.id < x.id
    ensures IdsDescending([x] + r)
  {
    var t := [x] + r;
    forall i, j | 0 <= i < j < |t| ensures t[i].id > t[j].id {
      assert t[j] == r[j - 1] && r[j - 1] in r;
      if i > 0 {
        assert t[i] == r[i - 1];
      }
    }
  }

  lemma AppendKeepsAscending(r: seq<Card>, x: Card)
    requires IdsAscending(r) && forall c :: c in r ==> c.id < x.id
    ensures IdsAscending(r + [x])
  {
    var t := r + [x];
    forall i, j | 0 <= i < j < |t| ensures t[i].id < t[j].id {
      assert t[i] == r[i] && r[i] in r;
      if j < |r| {
        assert t[j] == r[j];
      }
    }
  }

  function OwnedBy(userId: int): Card -> bool {
    (c: Card) => c.userId == userId
  }

  /** `bank_name LIKE '%term%' OR card_number LIKE '%term%'` for one user. */
  function SearchHit(userId: int, term: string): Card -> bool {
    (c: Card) => c.userId == userId && (LikeContains(c.bankName, term) || LikeContains(c.cardNumber, term))
  }

  /** `bill_status = 'pending' AND next_bill_date IS NOT NULL` for one user. */
  function PendingBill(userId: int): Card -> bool {
    (c: Card) => c.userId == userId && c.billStatus == Pending && c.nextBillDate.Some?
  }

  /** `bill_status = 'pending' AND next_bill_date <= DATE('now')` for one user. */
  function DueBill(userId: int, today: Date): Card -> bool {
    (c: Card) => c.userId == userId && c.billStatus == Pending && c.nextBillDate.Some? &&
         OnOrBefore(c.nextBillDate.value, today)
  }

  /** The sort key of `ORDER BY next_bill_date` (rows without one are never sorted). */
  function DueKey(c: Card): Date {
    c.nextBillDate.GetOr(Date(0, 0, 0))
  }

  predicate SortedByDue(s: seq<Card>) {
    forall i, j :: 0 <= i < j < |s| ==> OnOrBefore(DueKey(s[i]), DueKey(s[j]))
  }

  lemma PrependKeepsSorted(x: Card, r: seq<Card>)
    requires SortedByDue(r)
    requires forall y :: y in r ==> OnOrBefore(DueKey(x), DueKey(y))
    ensures SortedByDue([x] + r)
  {
    var t := [x] + r;
    forall i, j | 0 <= i < j < |t| ensures OnOrBefore(DueKey(t[i]), DueKey(t[j])) {
      assert t[j] == r[j - 1] && r[j - 1] in r;
      if i > 0 {
        assert t[i] == r[i - 1];
      }
    }
  }

  /** A row due no later than the first of a sorted table is due no later than all of it. */
  lemma BeforeFirstBeforeAll(c: Card, s: seq<Card>)
    requires SortedByDue(s) && s != [] && OnOrBefore(DueKey(c), DueKey(s[0]))
    ensures forall y :: y in s ==> OnOrBefore(DueKey(c), DueKey(y))
  {
    forall y | y in s ensures OnOrBefore(DueKey(c), DueKey(y)) {
      var i :| 0 <= i < |s| && s[i] == y;
      if i > 0 {
        assert OnOrBefore(DueKey(s[0]), DueKey(s[i]));
      }
    }
  }

  /** The first of a sorted table is due no later than `c`, if not after it, and all the rest. */
  lemma FirstBeforeInserted(c: Card, s: seq<Card>, rest: seq<Card>)
    requires SortedByDue(s) && s != [] && !OnOrBefore(DueKey(c), DueKey(s[0]))
    requires multiset(rest) == multiset(s[1..]) + multiset{c}
    ensures forall y :: y in rest ==> OnOrBefore(DueKey(s[0]), DueKey(y))
  {
    var tail := s[1..];
    forall y | y in rest ensures OnOrBefore(DueKey(s[0]), DueKey(y)) {
      assert y in multiset(rest);
      if y != c {
        assert y in multiset(tail);
        var i :| 0 <= i < |tail| && tail[i] == y;
        assert s[i + 1] == y;
      }
    }
  }

  function InsertByDue(c: Card, s: seq<Card>): (r: seq<Card>)
    requires SortedByDue(s)
    ensures SortedByDue(r)
    ensures multiset(r) == multiset(s) + multiset{c}
  {
    if s == [] then [c]
    else if OnOrBefore(DueKey(c), DueKey(s[0])) then
      BeforeFirstBeforeAll(c, s);
      PrependKeepsSorted(c, s);
      [c] + s
    else
      var tail := s[1..];
      assert s == [s[0]] + tail;
      var rest := InsertByDue(c, tail);
      FirstBeforeInserted(c, s, rest);
      PrependKeepsSorted(s[0], rest);
      [s[0]] + rest
  }

  /** `ORDER BY next_bill_date ASC`: a sorted permutation. */
  function SortByDue(s: seq<Card>): (r: seq<Card>)
    ensures SortedByDue(r)
    ensures multiset(r) == multiset(s)
  {
    if s == [] then []
    else
      assert s == [s[0]] + s[1..];
      InsertByDue(s[0], SortByDue(s[1..]))
  }

  // ---------------------------------------------------------------------
  // Writes, as functions on the table; None is the source's `False`

  /** The row `add_credit_card` inserts: column defaults for the billing fields. */
  function NewCard(id: int, userId: int, bankName: string, cardNumber: string, expiryDate: string,
                   cvv: Option<string>, fullCardNumber: Option<string>): Card
  {
    Card(id, userId, bankName, cardNumber, expiryDate, cvv, fullCardNumber,
         None, None, None, None, Pending, DefaultGraceDays)
  }

  /** The INSERT of add_credit_card; `None` is the `IntegrityError` of `UNIQUE(user_id, card_number)`. */
  function Added(s: seq<Card>, id: int, userId: int, bankName: string, cardNumber: string,
                 expiryDate: string, cvv: Option<string>, fullCardNumber: Option<string>): (r: Option<seq<Card>>)
    ensures r.None? <==> exists c :: c in s && c.userId == userId && c.cardNumber == cardNumber
    ensures r.Some? ==> |r.value| == |s| + 1 && r.value[..|s|] == s &&
                        r.value[|s|] == NewCard(id, userId, bankName, cardNumber, expiryDate, cvv, fullCardNumber)
  {
    if HasNumber(s, userId, cardNumber) then None
    else
      var r := s + [NewCard(id, userId, bankName, cardNumber, expiryDate, cvv, fullCardNumber)];
      assert r[..|s|] == s;
      Some(r)
  }

  /** The DELETE of delete_card: `None` when no row matches both the user and the id. */
  function Deleted(s: seq<Card>, userId: int, cardId: int): (r: Option<seq<Card>>)
    ensures r.None? <==> forall c :: c in s ==> !Matches(c, userId, cardId)
    ensures r.Some? ==> forall c :: c in r.value <==> c in s && !Matches(c, userId, cardId)
    ensures r.Some? && IdsAscending(s) ==> IdsAscending(r.value)
  {
    match IndexOf(s, userId, cardId)
    case None => None
    case Some(k) =>
      assert s[k] in s;
      Some(Keep(s, (c: Card) => !Matches(c, userId, cardId)))
  }

  /**
   * The row after mark_bill_paid: the old due date becomes the last bill
   * date, the due date moves one month on from the old one (from today when
   * there was none) and the status becomes paid. `None` when that day does
   * not exist one month on.
   */
  function PaidRow(c: Card, today: Date): (r: Option<Card>)
    requires ValidDate(today)
    requires c.nextBillDate.Some? ==> ValidDate(c.nextBillDate.value)
    ensures r.None? <==> AddOneMonth(c.nextBillDate.GetOr(today)).None?
    ensures r.Some? ==> r.value.lastBillDate == c.nextBillDate && r.value.billStatus == Paid
    ensures r.Some? ==> r.value.nextBillDate.Some? && ValidDate(r.value.nextBillDate.value)
    ensures r.Some? ==> r.value.nextBillDate.value.day == c.nextBillDate.GetOr(today).day &&
                        MonthIndex(r.value.nextBillDate.value) == MonthIndex(c.nextBillDate.GetOr(today)) + 1
    ensures r.Some? ==> r.value == c.(lastBillDate := r.value.lastBillDate,
                                      nextBillDate := r.value.nextBillDate,
                                      billStatus := r.value.billStatus)
  {
    match AddOneMonth(c.nextBillDate.GetOr(today))
    case None => None
    case Some(next) => Some(c.(lastBillDate := c.nextBillDate, nextBillDate := Some(next), billStatus := Paid))
  }

  function MarkedPaid(s: seq<Card>, userId: int, cardId: int, today: Date): (r: Option<seq<Card>>)
    requires ValidDate(today) && DatesValid(s)
    ensures r.None? <==> IndexOf(s, userId, cardId).None? || PaidRow(s[IndexOf(s, userId, cardId).value], today).None?
    ensures r.Some? ==> var k := IndexOf(s, userId, cardId).value;
                        r.value == s[k := PaidRow(s[k], today).value]
  {
    match IndexOf(s, userId, cardId)
    case None => None
    case Some(k) =>
      match PaidRow(s[k], today)
      case None => None
      case Some(row) => Some(s[k := row])
  }

  /** The row after update_billing_info, given the computed next bill date. */
  function BilledRow(c: Card, billingDay: int, amount: string, graceDays: int, next: Date): Card {
    c.(billingDate := Some(billingDay), billAmount := Some(amount), nextBillDate := Some(next),
       graceDays := graceDays, billStatus := Pending)
  }

  function BillingUpdated(s: seq<Card>, userId: int, cardId: int, billingDay: int, amount: string,
                          graceDays: int, today: Date): (r: Option<seq<Card>>)
    requires ValidDate(today)
    ensures r.None? <==> NextBillDate(today, billingDay).None? || IndexOf(s, userId, cardId).None?
    ensures r.Some? ==> var k := IndexOf(s, userId, cardId).value;
                        r.value == s[k := BilledRow(s[k], billingDay, amount, graceDays,
                                                    NextBillDate(today, billingDay).value)]
  {
    match NextBillDate(today, billingDay)
    case None => None
    case Some(next) =>
      match IndexOf(s, userId, cardId)
      case None => None
      case Some(k) => Some(s[k := BilledRow(s[k], billingDay, amount, graceDays, next)])
  }

  function AmountUpdated(s: seq<Card>, userId: int, cardId: int, amount: string): (r: Option<seq<Card>>)
    ensures r.None? <==> IndexOf(s, userId, cardId).None?
    ensures r.Some? ==> var k := IndexOf(s, userId, cardId).value;
                        r.value == s[k := s[k].(billAmount := Some(amount))]
  {
    match IndexOf(s, userId, cardId)
    case None => None
    case Some(k) => Some(s[k := s[k].(billAmount := Some(amount))])
  }

  function GraceUpdated(s: seq<Card>, userId: int, cardId: int, graceDays: int): (r: Option<seq<Card>>)
    ensures r.None? <==> IndexOf(s, userId, cardId).None?
    ensures r.Some? ==> var k := IndexOf(s, userId, cardId).value;
                        r.value == s[k := s[k].(graceDays := graceDays)]
  {
    match IndexOf(s, userId, cardId)
    case None => None
    case Some(k) => Some(s[k := s[k].(graceDays := graceDays)])
  }

  // ---------------------------------------------------------------------
  // Isolation: a write by one user leaves every view of another user as it was

  /** One step of the recursion, whichever branch of the definition is taken. */
  lemma NewestFirstUnfold(s: seq<Card>, keep: Card -> bool)
    requires |s| > 0
    ensures NewestFirst(s, keep) == (if keep(s[|s| - 1]) then [s[|s| - 1]] else []) + NewestFirst(s[..|s| - 1], keep)
  {
  }

  /** Two tables that differ only in one row, which `keep` rejects in both, have the same view. */
  lemma {:induction false} NewestFirstReplace(s: seq<Card>, t: seq<Card>, k: nat, keep: Card -> bool)
    requires |t| == |s| && k < |s| && !keep(s[k]) && !keep(t[k])
    requires forall i :: 0 <= i < |s| && i != k ==> t[i] == s[i]
    ensures NewestFirst(t, keep) == NewestFirst(s, keep)
  {
    var n := |s| - 1;
    var headT: seq<Card> := if keep(t[n]) then [t[n]] else [];
    var headS: seq<Card> := if keep(s[n]) then [s[n]] else [];
    if k == n {
      assert t[..n] == s[..n];
      assert headT == headS;
    } else {
      NewestFirstReplace(s[..n], t[..n], k, keep);
      assert headT == headS by { assert t[n] == s[n]; }
    }
    calc {
      NewestFirst(t, keep);
      { NewestFirstUnfold(t, keep); }
      headT + NewestFirst(t[..n], keep);
      headS + NewestFirst(s[..n], keep);
      { NewestFirstUnfold(s, keep); }
      NewestFirst(s, keep);
    }
  }

  /** Removing rows that `keep` rejects leaves the view alone. */
  lemma {:induction false} NewestFirstKeep(s: seq<Card>, p: Card -> bool, keep: Card -> bool)
    requires forall c :: keep(c) ==> p(c)
    ensures NewestFirst(Keep(s, p), keep) == NewestFirst(s, keep)
  {
    if s != [] {
      var last := s[|s| - 1];
      var front := Keep(s[..|s| - 1], p);
      NewestFirstKeep(s[..|s| - 1], p, keep);
      if p(last) {
        var t := front + [last];
        assert Keep(s, p) == t;
        assert t[..|t| - 1] == front && t[|t| - 1] == last;
        assert NewestFirst(t, keep) == (if keep(last) then [last] else []) + NewestFirst(front, keep);
      } else {
        assert !keep(last);
        assert Keep(s, p) == front;
      }
    }
  }

  /** Appending a row that `keep` rejects leaves the view alone. */
  lemma NewestFirstAppend(s: seq<Card>, row: Card, keep: Card -> bool)
    requires !keep(row)
    ensures NewestFirst(s + [row], keep) == NewestFirst(s, keep)
  {
    assert (s + [row])[..|s|] == s;
  }

  /** A row of `userId` rewritten in place: no view of another user sees it. */
  lemma RewriteIsolated(s: seq<Card>, k: nat, row: Card, userId: int, keep: Card -> bool)
    requires k < |s| && s[k].userId == userId && row.userId == userId
    requires forall c :: keep(c) ==> c.userId != userId
    ensures NewestFirst(s[k := row], keep) == NewestFirst(s, keep)
  {
    NewestFirstReplace(s, s[k := row], k, keep);
  }

  lemma AddedIsolated(s: seq<Card>, nextId: int, userId: int, keep: Card -> bool,
                      bankName: string, cardNumber: string, expiryDate: string,
                      cvv: Option<string>, fullCardNumber: Option<string>)
    requires forall c :: keep(c) ==> c.userId != userId
    ensures var r := Added(s, nextId, userId, bankName, cardNumber, expiryDate, cvv, fullCardNumber);
            r.Some? ==> NewestFirst(r.value, keep) == NewestFirst(s, keep)
  {
    var row := NewCard(nextId, userId, bankName, cardNumber, expiryDate, cvv, fullCardNumber);
    var r := Added(s, nextId, userId, bankName, cardNumber, expiryDate, cvv, fullCardNumber);
    if r.Some? {
      assert r.value == s + [row];
      NewestFirstAppend(s, row, keep);
    }
  }

  lemma DeletedIsolated(s: seq<Card>, userId: int, cardId: int, keep: Card -> bool)
    requires forall c :: keep(c) ==> c.userId != userId
    ensures var r := Deleted(s, userId, cardId);
            r.Some? ==> NewestFirst(r.value, keep) == NewestFirst(s, keep)
  {
    NewestFirstKeep(s, (c: Card) => !Matches(c, userId, cardId), keep);
  }

  lemma MarkedPaidIsolated(s: seq<Card>, userId: int, cardId: int, keep: Card -> bool, today: Date)
    requires ValidDate(today) && DatesValid(s)
    requires forall c :: keep(c) ==> c.userId != userId
    ensures var r := MarkedPaid(s, userId, cardId, today);
            r.Some? ==> NewestFirst(r.value, keep) == NewestFirst(s, keep)
  {
    var r := MarkedPaid(s, userId, cardId, today);
    if r.Some? {
      var k := IndexOf(s, userId, cardId).value;
      RewriteIsolated(s, k, PaidRow(s[k], today).value, userId, keep);
    }
  }

  lemma BillingUpdatedIsolated(s: seq<Card>, userId: int, cardId: int, keep: Card -> bool, today: Date,
                               billingDay: int, amount: string, graceDays: int)
    requires ValidDate(today)
    requires forall c :: keep(c) ==> c.userId != userId
    ensures var r := BillingUpdated(s, userId, cardId, billingDay, amount, graceDays, today);
            r.Some? ==> NewestFirst(r.value, keep) == NewestFirst(s, keep)
  {
    var r := BillingUpdated(s, userId, cardId, billingDay, amount, graceDays, today);
    if r.Some? {
      var k := IndexOf(s, userId, cardId).value;
      RewriteIsolated(s, k, BilledRow(s[k], billingDay, amount, graceDays, NextBillDate(today, billingDay).value),
                      userId, keep);
    }
  }

  lemma AmountUpdatedIsolated(s: seq<Card>, userId: int, cardId: int, keep: Card -> bool, amount: string)
    requires forall c :: keep(c) ==> c.userId != userId
    ensures var r := AmountUpdated(s, userId, cardId, amount);
            r.Some? ==> NewestFirst(r.value, keep) == NewestFirst(s, keep)
  {
    var r := AmountUpdated(s, userId, cardId, amount);
    if r.Some? {
      var k := IndexOf(s, userId, cardId).value;
      RewriteIsolated(s, k, s[k].(billAmount := Some(amount)), userId, keep);
    }
  }

  lemma GraceUpdatedIsolated(s: seq<Card>, userId: int, cardId: int, keep: Card -> bool, graceDays: int)
    requires forall c :: keep(c) ==> c.userId != userId
    ensures var r := GraceUpdated(s, userId, cardId, graceDays);
            r.Some? ==> NewestFirst(r.value, keep) == NewestFirst(s, keep)
  {
    var r := GraceUpdated(s, userId, cardId, graceDays);
    if r.Some? {
      var k := IndexOf(s, userId, cardId).value;
      RewriteIsolated(s, k, s[k].(graceDays := graceDays), userId, keep);
    }
  }

  /**
   * Every write scoped to `userId` leaves what any other user sees, through
   * any query that only returns that other user's rows, unchanged.
   */
  lemma WritesAreIsolated(s: seq<Card>, nextId: int, userId: int, cardId: int, other: int,
                          keep: Card -> bool, today: Date,
                          bankName: string, cardNumber: string, expiryDate: string,
                          cvv: Option<string>, fullCardNumber: Option<string>,
                          billingDay: int, amount: string, graceDays: int)
    requires ValidDate(today) && DatesValid(s)
    requires other != userId && forall c :: keep(c) ==> c.userId == other
    ensures var r := Added(s, nextId, userId, bankName, cardNumber, expiryDate, cvv, fullCardNumber);
            r.Some? ==> NewestFirst(r.value, keep) == NewestFirst(s, keep)
    ensures var r := Deleted(s, userId, cardId);
            r.Some? ==> NewestFirst(r.value, keep) == NewestFirst(s, keep)
    ensures var r := MarkedPaid(s, userId, cardId, today);
            r.Some? ==> NewestFirst(r.value, keep) == NewestFirst(s, keep)
    ensures var r := BillingUpdated(s, userId, cardId, billingDay, amount, graceDays, today);
            r.Some? ==> NewestFirst(r.value, keep) == NewestFirst(s, keep)
    ensures var r := AmountUpdated(s, userId, cardId, amount);
            r.Some? ==> NewestFirst(r.value, keep) == NewestFirst(s, keep)
    ensures var r := GraceUpdated(s, userId, cardId, graceDays);
            r.Some? ==> NewestFirst(r.value, keep) == NewestFirst(s, keep)
  {
    AddedIsolated(s, nextId, userId, keep, bankName, cardNumber, expiryDate, cvv, fullCardNumber);
    DeletedIsolated(s, userId, cardId, keep);
    MarkedPaidIsolated(s, userId, cardId, keep, today);
    BillingUpdatedIsolated(s, userId, cardId, keep, today, billingDay, amount, graceDays);
    AmountUpdatedIsolated(s, userId, cardId, keep, amount);
    GraceUpdatedIsolated(s, userId, cardId, keep, graceDays);
  }

  // ---------------------------------------------------------------------
  // The store

  class DatabaseManager {
    /** `credit_cards`, in insertion order. */
    var cards: seq<Card>
    /** The id the next inserted row receives (`AUTOINCREMENT`). */
    var nextId: int
    /** `user_sessions`, keyed by `user_id` (`UNIQUE`). */
    var sessions: map<int, SessionRow>

    ghost predicate Valid()
      reads this
    {
      TableInvariant(cards, nextId)
    }

    /** The store's contents as a value. */
    function Snapshot(): Store
      reads this
    {
      Store(cards, nextId, sessions)
    }

    constructor ()
      ensures Valid() && cards == [] && sessions == map[] && nextId == 1
    {
      cards, nextId, sessions := [], 1, map[];
    }

    // ----- card operations

    /**
     * Inserts a card for `userId`; `false` and no new row when the user
     * already has a card with this `cardNumber`.
     */
    method AddCreditCard(userId: int, bankName: string, cardNumber: string, expiryDate: string,
                         cvv: Option<string>, fullCardNumber: Option<string>) returns (ok: bool)
      requires Valid()
      modifies this
      ensures Valid() && sessions == old(sessions)
      ensures ok == !HasNumber(old(cards), userId, cardNumber)
      ensures nextId == if ok then old(nextId) + 1 else old(nextId)
      ensures var r := Added(old(cards), old(nextId), userId, bankName, cardNumber, expiryDate, cvv, fullCardNumber);
              ok == r.Some? && cards == r.GetOr(old(cards))
      ensures ok ==> GetCardById(userId, old(nextId)) ==
                     Some(NewCard(old(nextId), userId, bankName, cardNumber, expiryDate, cvv, fullCardNumber))
    {
      var r := Added(cards, nextId, userId, bankName, cardNumber, expiryDate, cvv, fullCardNumber);
      ok := r.Some?;
      if ok {
        AppendKeepsInvariant(cards, nextId, r.value[|cards|]);
        assert r.value == cards + [r.value[|cards|]];
        cards := r.value;
        nextId := nextId + 1;
      }
    }

    static lemma AppendKeepsInvariant(s: seq<Card>, nextId: int, row: Card)
      requires TableInvariant(s, nextId) && row.id == nextId && row.nextBillDate.None?
      requires !HasNumber(s, row.userId, row.cardNumber)
      ensures TableInvariant(s + [row], nextId + 1)
      ensures IndexOf(s + [row], row.userId, nextId) == Some(|s|)
    {
      var t := s + [row];
      assert forall i :: 0 <= i < |s| ==> t[i] == s[i];
      forall i, j | 0 <= i < j < |t| && t[i].userId == t[j].userId
        ensures t[i].cardNumber != t[j].cardNumber
      {
        if j == |s| {
          assert !(s[i].userId == row.userId && s[i].cardNumber == row.cardNumber);
        }
      }
      var k := IndexOf(t, row.userId, nextId);
      assert Matches(t[|s|], row.userId, nextId);
    }

    /** The user's cards, newest first. */
    function GetUserCards(userId: int): (r: seq<Card>)
      reads this
      requires Valid()
      ensures forall c :: c in r <==> c in cards && c.userId == userId
      ensures IdsDescending(r)
    {
      NewestFirst(cards, OwnedBy(userId))
    }

    /** The card with this id if it belongs to `userId`; another user's card reads as missing. */
    function GetCardById(userId: int, cardId: int): (r: Option<Card>)
      reads this
      ensures r.Some? ==> r.value in cards && r.value.userId == userId && r.value.id == cardId
      ensures r.None? <==> forall c :: c in cards ==> !Matches(c, userId, cardId)
    {
      match IndexOf(cards, userId, cardId)
      case None => None
      case Some(k) => Some(cards[k])
    }

    /** The user's cards whose bank name or number contains `term`, ignoring ASCII case; newest first. */
    function GetCardsByBankOrNumber(userId: int, term: string): (r: seq<Card>)
      reads this
      requires Valid()
      ensures forall c :: c in r <==> c in cards && c.userId == userId &&
                                      (LikeContains(c.bankName, term) || LikeContains(c.cardNumber, term))
      ensures IdsDescending(r)
    {
      NewestFirst(cards, SearchHit(userId, term))
    }

    /** Deletes the card; `true` iff a row matching both the user and the id existed. */
    method DeleteCard(userId: int, cardId: int) returns (ok: bool)
      requires Valid()
      modifies this
      ensures Valid() && sessions == old(sessions) && nextId == old(nextId)
      ensures ok <==> exists c :: c in old(cards) && Matches(c, userId, cardId)
      ensures forall c :: c in cards <==> c in old(cards) && !Matches(c, userId, cardId)
      ensures var r := Deleted(old(cards), userId, cardId); ok == r.Some? && cards == r.GetOr(old(cards))
      ensures forall v :: v != userId ==> GetUserCards(v) == old(GetUserCards(v))
    {
      var r := Deleted(cards, userId, cardId);
      ok := r.Some?;
      if ok {
        forall v | v != userId
          ensures NewestFirst(r.value, OwnedBy(v)) == NewestFirst(cards, OwnedBy(v))
        {
          NewestFirstKeep(cards, (c: Card) => !Matches(c, userId, cardId), OwnedBy(v));
        }
        SubTableInvariant(cards, r.value, nextId);
        cards := r.value;
      }
    }

    // ----- session operations

    /** `INSERT OR REPLACE`: at most one session per user, the new one replacing the old. */
    method SaveUserSession(userId: int, state: string, formData: Option<Scratch>)
      modifies this
      ensures cards == old(cards) && nextId == old(nextId)
      ensures sessions == old(sessions)[userId := SessionRow(state, formData)]
      ensures GetUserSession(userId) == Some(SessionRow(state, formData))
      ensures forall v :: v != userId ==> GetUserSession(v) == old(GetUserSession(v))
    {
      sessions := sessions[userId := SessionRow(state, formData)];
    }

    function GetUserSession(userId: int): (r: Option<SessionRow>)
      reads this
      ensures r.Some? <==> userId in sessions
      ensures r.Some? ==> r.value == sessions[userId]
    {
      SessionOf(sessions, userId)
    }

    method ClearUserSession(userId: int)
      modifies this
      ensures cards == old(cards) && nextId == old(nextId)
      ensures sessions == old(sessions) - {userId}
      ensures GetUserSession(userId) == None
      ensures forall v :: v != userId ==> GetUserSession(v) == old(GetUserSession(v))
    {
      sessions := sessions - {userId};
    }

    // ----- billing operations

    /** Keeps the table invariant across an in-place update of row `k` that keeps its identity. */
    static lemma ReplaceKeepsInvariant(s: seq<Card>, nextId: int, k: nat, row: Card)
      requires TableInvariant(s, nextId)
      requires k < |s| && row.id == s[k].id && row.userId == s[k].userId && row.cardNumber == s[k].cardNumber
      requires row.nextBillDate.Some? ==> ValidDate(row.nextBillDate.value)
      ensures TableInvariant(s[k := row], nextId)
    {
    }

    /**
     * Sets the billing day, amount and grace days, the next bill date
     * computed from `today`, and status pending. `false` with no change when
     * no row matches or the date does not exist.
     */
    method UpdateBillingInfo(userId: int, cardId: int, billingDay: int, amount: string,
                             graceDays: int, today: Date) returns (ok: bool)
      requires Valid() && ValidDate(today)
      modifies this
      ensures Valid() && sessions == old(sessions) && nextId == old(nextId)
      ensures var r := BillingUpdated(old(cards), userId, cardId, billingDay, amount, graceDays, today);
              ok == r.Some? && cards == r.GetOr(old(cards))
    {
      var next := NextBillDate(today, billingDay);
      if next.None? {
        return false;
      }
      var k := IndexOf(cards, userId, cardId);
      if k.None? {
        return false;
      }
      var row := BilledRow(cards[k.value], billingDay, amount, graceDays, next.value);
      ReplaceKeepsInvariant(cards, nextId, k.value, row);
      cards := cards[k.value := row];
      ok := true;
    }

    /**
     * The old next bill date becomes the last one and the next moves one
     * month on; `false` with no change when no row matches or that day does
     * not exist in the following month.
     */
    method MarkBillPaid(userId: int, cardId: int, today: Date) returns (ok: bool)
      requires Valid() && ValidDate(today)
      modifies this
      ensures Valid() && sessions == old(sessions) && nextId == old(nextId)
      ensures var r := MarkedPaid(old(cards), userId, cardId, today);
              ok == r.Some? && cards == r.GetOr(old(cards))
    {
      var k := IndexOf(cards, userId, cardId);
      if k.None? {
        return false;
      }
      var row := PaidRow(cards[k.value], today);
      if row.None? {
        return false;
      }
      ReplaceKeepsInvariant(cards, nextId, k.value, row.value);
      cards := cards[k.value := row.value];
      ok := true;
    }

    /** The user's pending bills that have a due date, earliest first. */
    function GetPendingBills(userId: int): (r: seq<Card>)
      reads this
      ensures forall c :: c in r <==> c in cards && c.userId == userId && c.billStatus == Pending && c.nextBillDate.Some?
      ensures multiset(r) == multiset(Keep(cards, PendingBill(userId)))
      ensures SortedByDue(r)
    {
      var sel := Keep(cards, PendingBill(userId));
      var r := SortByDue(sel);
      assert forall c :: c in r <==> c in sel by {
        assert forall c :: c in r <==> c in multiset(r);
      }
      r
    }

    /** The user's pending bills due on or before `today`, earliest first. */
    function GetDueBills(userId: int, today: Date): (r: seq<Card>)
      reads this
      ensures forall c :: c in r <==> c in cards && c.userId == userId && c.billStatus == Pending &&
                                      c.nextBillDate.Some? && OnOrBefore(c.nextBillDate.value, today)
      ensures multiset(r) == multiset(Keep(cards, DueBill(userId, today)))
      ensures SortedByDue(r)
    {
      var sel := Keep(cards, DueBill(userId, today));
      var r := SortByDue(sel);
      assert forall c :: c in r <==> c in sel by {
        assert forall c :: c in r <==> c in multiset(r);
      }
      r
    }

    /** Changes only the bill amount; `true` iff a row matched. */
    method UpdateBillAmount(userId: int, cardId: int, amount: string) returns (ok: bool)
      requires Valid()
      modifies this
      ensures Valid() && sessions == old(sessions) && nextId == old(nextId)
      ensures var r := AmountUpdated(old(cards), userId, cardId, amount);
              ok == r.Some? && cards == r.GetOr(old(cards))
    {
      var k := IndexOf(cards, userId, cardId);
      if k.None? {
        return false;
      }
      ReplaceKeepsInvariant(cards, nextId, k.value, cards[k.value].(billAmount := Some(amount)));
      cards := cards[k.value := cards[k.value].(billAmount := Some(amount))];
      ok := true;
    }

    /** Changes only the payment grace days; `true` iff a row matched. */
    method UpdatePaymentGraceDays(userId: int, cardId: int, graceDays: int) returns (ok: bool)
      requires Valid()
      modifies this
      ensures Valid() && sessions == old(sessions) && nextId == old(nextId)
      ensures var r := GraceUpdated(old(cards), userId, cardId, graceDays);
              ok == r.Some? && cards == r.GetOr(old(cards))
    {
      var k := IndexOf(cards, userId, cardId);
      if k.None? {
        return false;
      }
      ReplaceKeepsInvariant(cards, nextId, k.value, cards[k.value].(graceDays := graceDays));
      cards := cards[k.value := cards[k.value].(graceDays := graceDays)];
      ok := true;
    }
  }

  lemma NewestFirstSingle(c: Card, keep: Card -> bool)
    requires keep(c)
    ensures NewestFirst([c], keep) == [c]
  {
    assert [c][..0] == [];
  }

  /**
   * A client of the store: add a card, fail to add it again, see one card,
   * delete it, see none; another user neither sees nor deletes it.
   */
  method StoreScenario()
  {
    var db := new DatabaseManager();
    var ok := db.AddCreditCard(1, "HDFC", "1234", "12/2025", None, None);
    assert ok;
    var card := db.cards[0];
    assert db.cards == [card] && card.id == 1 && card.userId == 1 && card.cardNumber == "1234";

    ok := db.AddCreditCard(1, "HDFC", "1234", "12/2025", None, None);
    assert !ok by {
      assert HasNumber([card], 1, "1234");
    }
    assert db.cards == [card];
    NewestFirstSingle(card, OwnedBy(1));
    assert db.GetUserCards(1) == [card];

    assert db.GetCardById(2, 1) == None;
    ok := db.DeleteCard(2, 1);
    assert !ok;
    assert db.cards == [card];

    ok := db.DeleteCard(1, 1);
    assert ok;
    assert db.GetUserCards(1) == [];
  }
}
