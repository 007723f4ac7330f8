/**
 * The add-card form of src/form_manager.py: the `FormState` enum, the input
 * validators, and the per-user session (a state plus a scratch map of field
 * name to text) kept in the store's session table.
 *
 * The session table is read and rewritten through pure functions
 * (`FormDataOf`, `StateOf`, `Started`, `WithState`, `WithField`, `Cleared`);
 * the `FormManager` class performs those rewrites on a `DatabaseManager`.
 */
module Forms {
  import opened Wrappers
  import opened Text
  import opened Database

  /** The states of the wizard; `Value()` is the text kept in `current_state`. */
  datatype FormState =
    | Idle
    | WaitingBankName
    | WaitingCardNumber
    | WaitingExpiryDate
    | WaitingCvv
    | WaitingBillingDate
    | WaitingBillAmount
    | WaitingGraceDays
  {
    function Value(): string {
      match this
      case Idle => "idle"
      case WaitingBankName => "waiting_bank_name"
      case WaitingCardNumber => "waiting_card_number"
      case WaitingExpiryDate => "waiting_expiry_date"
      case WaitingCvv => "waiting_cvv"
      case WaitingBillingDate => "waiting_billing_date"
      case WaitingBillAmount => "waiting_bill_amount"
      case WaitingGraceDays => "waiting_grace_days"
    }
  }

  /** `FormState(text)`: the state whose value is `text`; `None` is the `ValueError`. */
  function ParseState(text: string): (r: Option<FormState>)
    ensures forall st: FormState :: r == Some(st) <==> st.Value() == text
  {
    if text == "idle" then Some(Idle)
    else if text == "waiting_bank_name" then Some(WaitingBankName)
    else if text == "waiting_card_number" then Some(WaitingCardNumber)
    else if text == "waiting_expiry_date" then Some(WaitingExpiryDate)
    else if text == "waiting_cvv" then Some(WaitingCvv)
    else if text == "waiting_billing_date" then Some(WaitingBillingDate)
    else if text == "waiting_bill_amount" then Some(WaitingBillAmount)
    else if text == "waiting_grace_days" then Some(WaitingGraceDays)
    else None
  }

  // ---------------------------------------------------------------------
  // Validators

  /** A character of `'0123456789 -'`. */
  predicate CardNumberChar(c: char) {
    IsDigit(c) || c == ' ' || c == '-'
  }

  predicate CardNumberChars(text: string) {
    forall i :: 0 <= i < |text| ==> CardNumberChar(text[i])
  }

  lemma CardNumberCharsAppend(a: string, b: string)
    ensures CardNumberChars(a + b) <==> CardNumberChars(a) && CardNumberChars(b)
  {
    var t := a + b;
    assert forall i :: 0 <= i < |a| ==> t[i] == a[i];
    assert forall i :: 0 <= i < |b| ==> t[|a| + i] == b[i];
  }

  /**
   * Only digits, spaces and dashes, and either the last 4 digits of a card
   * or a full number of 13 to 19 digits.
   */
  predicate ValidateCardNumber(text: string): (valid: bool)
    ensures valid ==> CardNumberChars(text) && 4 <= |DigitsOnly(text)| <= 19
  {
    CardNumberChars(text) &&
    var n := |DigitsOnly(text)|;
    n == 4 || 13 <= n <= 19
  }

  /**
   * The digits of an accepted card number are themselves accepted, and so
   * are their last four: what the wizard stores passes the same check.
   */
  lemma CardDigitsAccepted(text: string, digits: string)
    requires ValidateCardNumber(text) && digits == DigitsOnly(text)
    ensures ValidateCardNumber(digits) && |digits| >= 4
    ensures ValidateCardNumber(digits[|digits| - 4..]) && AllDigits(digits[|digits| - 4..])
  {
    assert AllDigits(digits) && (|digits| == 4 || 13 <= |digits| <= 19);
    DigitStringCardNumber(digits);
    LastFourAccepted(digits);
  }

  /** The last four of an accepted digit string are four digits, accepted on their own. */
  lemma LastFourAccepted(d: string)
    requires AllDigits(d) && (|d| == 4 || 13 <= |d| <= 19)
    ensures ValidateCardNumber(d[|d| - 4..]) && AllDigits(d[|d| - 4..])
  {
    var e := d[|d| - 4..];
    assert AllDigits(e) by {
      forall i | 0 <= i < |e| ensures IsDigit(e[i]) {
        assert e[i] == d[|d| - 4 + i];
      }
    }
    DigitStringCardNumber(e);
  }

  /** A string of digits is accepted exactly when it has 4 or 13 to 19 of them. */
  lemma DigitStringCardNumber(s: string)
    requires AllDigits(s)
    ensures ValidateCardNumber(s) <==> |s| == 4 || 13 <= |s| <= 19
  {
    DigitsOnlyOfDigits(s);
  }

  /** A space or a dash anywhere in the input makes no difference to the verdict. */
  lemma SeparatorIgnored(a: string, b: string, c: char)
    requires c == ' ' || c == '-'
    ensures ValidateCardNumber(a + [c] + b) <==> ValidateCardNumber(a + b)
  {
    assert DigitsOnly([c]) == [] by {
      assert [c][1..] == [];
    }
    DigitsOnlyAppend(a + [c], b);
    DigitsOnlyAppend(a, [c]);
    DigitsOnlyAppend(a, b);
    assert DigitsOnly(a + [c] + b) == DigitsOnly(a + b);
    CardNumberCharsAppend(a + [c], b);
    CardNumberCharsAppend(a, [c]);
    CardNumberCharsAppend(a, b);
  }

  /** The boundary cases of the card-number rule. */
  lemma CardNumberExamples(four: string, three: string, five: string, nineteen: string, twenty: string)
    requires four == "1234" && three == "123" && five == "12345"
    requires nineteen == "1234567890123456789" && twenty == "12345678901234567890"
    ensures ValidateCardNumber(four) && ValidateCardNumber(nineteen)
    ensures !ValidateCardNumber(three) && !ValidateCardNumber(five) && !ValidateCardNumber(twenty)
    ensures !ValidateCardNumber("abc1234")
  {
    DigitStringCardNumber(four);
    DigitStringCardNumber(three);
    DigitStringCardNumber(five);
    DigitStringCardNumber(nineteen);
    DigitStringCardNumber(twenty);
    assert !CardNumberChar("abc1234"[0]);
  }

  /**
   * `MM/YYYY`: exactly one `/`, an integer month in 1..12 before it and an
   * integer year in 2020..2030 after it.
   */
  predicate ValidateExpiryDate(text: string): (valid: bool)
    ensures valid ==> '/' in text
  {
    '/' in text &&
    var parts := Split(text, '/');
    |parts| == 2 &&
    match (ParseInt(parts[0]), ParseInt(parts[1]))
    case (Some(month), Some(year)) => 1 <= month <= 12 && 2020 <= year <= 2030
    case _ => false
  }

  /** A month as two digits, `01` to `12`. */
  function MonthText(m: int): (r: string)
    requires 1 <= m <= 12
    ensures ParseInt(r) == Some(m) && '/' !in r
  {
    if m < 10 then
      var r := ['0', DigitChar(m)];
      assert r[..1] == ['0'] && r[..1][..0] == [];
      assert ParseNat(r[..1]) == 0;
      assert ParseNat(r) == DigitValue(DigitChar(m));
      r
    else
      ParseShowNat(m);
      ShowNat(m)
  }

  /** A month written `MM` and a year written out are accepted exactly when the year is in 2020..2030. */
  lemma ExpiryOfFormatted(m: int, y: nat)
    requires 1 <= m <= 12
    ensures ValidateExpiryDate(MonthText(m) + "/" + ShowNat(y)) <==> 2020 <= y <= 2030
  {
    var t := MonthText(m) + "/" + ShowNat(y);
    assert t[|MonthText(m)|] == '/';
    assert '/' !in ShowNat(y);
    SplitTwo(MonthText(m), ShowNat(y), '/');
    ParseShowNat(y);
  }

  /**
   * Two digit strings around a `/` are accepted exactly when the first is a
   * month and the second a year in range.
   */
  lemma ExpiryOfDigits(month: string, year: string)
    requires |month| > 0 && AllDigits(month) && |year| > 0 && AllDigits(year)
    ensures ValidateExpiryDate(month + "/" + year) <==>
      1 <= ParseNat(month) <= 12 && 2020 <= ParseNat(year) <= 2030
  {
    var t := month + "/" + year;
    assert t[|month|] == '/';
    assert forall i :: 0 <= i < |month| ==> month[i] != '/';
    assert forall i :: 0 <= i < |year| ==> year[i] != '/';
    SplitTwo(month, year, '/');
  }

  /** An accepted expiry holds exactly one `/`; other texts are rejected, never an error. */
  lemma ExpiryHasOneSlash(text: string)
    ensures ValidateExpiryDate(text) ==> multiset(text)['/'] == 1
    ensures '/' !in text ==> !ValidateExpiryDate(text)
  {
    SplitJoin(text, '/');
  }

  /** Three or four digits. */
  predicate ValidateCvv(text: string): (valid: bool)
    ensures valid ==> AllDigits(text) && 3 <= |text| <= 4
  {
    |text| > 0 && AllDigits(text) && 3 <= |text| <= 4
  }

  /** The boundary cases of the CVV rule. */
  lemma CvvExamples(two: string, three: string, four: string, five: string, letter: string)
    requires two == "12" && three == "123" && four == "1234" && five == "12345" && letter == "12a"
    ensures ValidateCvv(three) && ValidateCvv(four)
    ensures !ValidateCvv(two) && !ValidateCvv(five) && !ValidateCvv(letter) && !ValidateCvv("")
  {
    assert !IsDigit(letter[2]);
  }

  /** A day of the month, 1 to 31. */
  predicate ValidateBillingDate(text: string): (valid: bool)
    ensures valid ==> ParseInt(text).Some? && 1 <= ParseInt(text).value <= 31
  {
    match ParseInt(text)
    case Some(day) => 1 <= day <= 31
    case None => false
  }

  /** A number of days between 1 and 60. */
  predicate ValidateGraceDays(text: string): (valid: bool)
    ensures valid ==> ParseInt(text).Some? && 1 <= ParseInt(text).value <= 60
  {
    match ParseInt(text)
    case Some(days) => 1 <= days <= 60
    case None => false
  }

  /** Printing a number and validating it accepts exactly the intended range. */
  lemma NumbersOfPrinted(i: int)
    ensures ValidateBillingDate(ShowInt(i)) <==> 1 <= i <= 31
    ensures ValidateGraceDays(ShowInt(i)) <==> 1 <= i <= 60
  {
    ParseShowInt(i);
  }

  const AmountNoise: set<char> := {'$', ',', ' '}

  /** `amount.replace('$', '').replace(',', '').replace(' ', '')`. */
  function CleanAmount(text: string): (r: string)
    ensures forall i :: 0 <= i < |r| ==> r[i] !in AmountNoise
  {
    Without(text, AmountNoise)
  }

  /**
   * A plain positive decimal: digits with at most one point, and some digit
   * other than zero. This stands for `float(t) > 0`.
   */
  predicate IsPositiveDecimal(t: string) {
    (forall i :: 0 <= i < |t| ==> IsDigit(t[i]) || t[i] == '.') &&
    multiset(t)['.'] <= 1 &&
    HasNonZeroDigit(t)
  }

  /** The amount parses as a number greater than zero once `$`, `,` and spaces are removed. */
  predicate ValidateBillAmount(text: string): (valid: bool)
    ensures valid ==> |CleanAmount(text)| > 0
  {
    IsPositiveDecimal(CleanAmount(text))
  }

  /**
   * Cleaning is idempotent, and the cleaned text of an accepted amount is
   * non-empty and accepted too: what the wizard stores is a valid amount.
   */
  lemma CleanedAmountAccepted(text: string)
    ensures CleanAmount(CleanAmount(text)) == CleanAmount(text)
    ensures ValidateBillAmount(text) ==> |CleanAmount(text)| > 0 && ValidateBillAmount(CleanAmount(text))
  {
    WithoutNothing(CleanAmount(text), AmountNoise);
  }

  /**
   * What an accepted amount means. Digits `a` are accepted exactly when
   * they denote a positive integer, and `a.b` exactly when the decimal
   * `a.b`, counted in units of `10^-|b|`, is positive: `float(x) > 0`.
   */
  lemma AmountValue(a: string, b: string)
    requires AllDigits(a) && AllDigits(b)
    ensures ValidateBillAmount(a) <==> ParseNat(a) > 0
    ensures ValidateBillAmount(a + "." + b) <==> ParseNat(a) * Pow10(|b|) + ParseNat(b) > 0
  {
    DigitsCleaned(a);
    PointedCleaned(a, b);
    PointedNonZero(a, b);
    ParseNatPositive(a);
    ParseNatPositive(b);
    ScaledPositive(ParseNat(a), Pow10(|b|));
  }

  /** Scaling by a positive factor keeps a natural number's sign. */
  lemma ScaledPositive(x: nat, p: nat)
    requires p >= 1
    ensures x * p > 0 <==> x > 0
  {
    if x > 0 {
      var q: nat := p - 1;
      assert x * p == x * q + x;
    }
  }

  /** Digits are a plain decimal as they stand. */
  lemma DigitsCleaned(a: string)
    requires AllDigits(a)
    ensures ValidateBillAmount(a) <==> HasNonZeroDigit(a)
  {
    WithoutNothing(a, AmountNoise);
    assert '.' !in a;
  }

  /** Digits, a point and digits are a plain decimal as they stand, with one point. */
  lemma PointedCleaned(a: string, b: string)
    requires AllDigits(a) && AllDigits(b)
    ensures ValidateBillAmount(a + "." + b) <==> HasNonZeroDigit(a + "." + b)
  {
    var t := a + "." + b;
    forall i | 0 <= i < |t| ensures IsDigit(t[i]) || t[i] == '.' {
      if i < |a| { assert t[i] == a[i]; }
      else if i > |a| { assert t[i] == b[i - |a| - 1]; }
    }
    WithoutNothing(t, AmountNoise);
    assert '.' !in a && '.' !in b;
    assert multiset(t) == multiset(a) + multiset(".") + multiset(b);
  }

  /** The point adds no digit: `a.b` has a non-zero digit exactly when `a` or `b` has. */
  lemma PointedNonZero(a: string, b: string)
    ensures HasNonZeroDigit(a + "." + b) <==> HasNonZeroDigit(a) || HasNonZeroDigit(b)
  {
    var t := a + "." + b;
    if HasNonZeroDigit(t) {
      var i :| 0 <= i < |t| && '1' <= t[i] <= '9';
      if i < |a| {
        assert a[i] == t[i];
      } else {
        assert i > |a| && b[i - |a| - 1] == t[i];
      }
    }
    if HasNonZeroDigit(a) {
      var i :| 0 <= i < |a| && '1' <= a[i] <= '9';
      assert t[i] == a[i];
    }
    if HasNonZeroDigit(b) {
      var i :| 0 <= i < |b| && '1' <= b[i] <= '9';
      assert t[|a| + 1 + i] == b[i];
    }
  }

  /**
   * The boundary cases of the amount rule: a decimal, a formatted amount and
   * a bare fraction are accepted; zero, a lone point, nothing, two points
   * and letters are not.
   */
  lemma AmountExamples(decimal: string, formatted: string, fraction: string, zero: string,
                       zeroes: string, point: string, twoPoints: string, letters: string)
    requires decimal == "150.00" && formatted == "$1,500" && fraction == ".5"
    requires zero == "0" && zeroes == "0.00" && point == "." && twoPoints == "1.2.3" && letters == "abc"
    ensures ValidateBillAmount(decimal) && ValidateBillAmount(formatted) && ValidateBillAmount(fraction)
    ensures !ValidateBillAmount(zero) && !ValidateBillAmount(zeroes) && !ValidateBillAmount(point)
    ensures !ValidateBillAmount("") && !ValidateBillAmount(twoPoints) && !ValidateBillAmount(letters)
  {
    DecimalExample(decimal);
    ZeroDecimalExample(zeroes);
    FormattedExample(formatted);
    FractionExample(fraction);
    ZeroExample(zero);
    EmptyExample();
    PointExample(point);
    TwoPointsExample(twoPoints);
    LettersExample(letters);
  }

  /** `150.00` is digits, a point and digits, with a non-zero digit. */
  lemma DecimalExample(decimal: string)
    requires decimal == "150.00"
    ensures ValidateBillAmount(decimal)
  {
    PointedCleaned("150", "00");
    assert "150" + "." + "00" == decimal;
    assert '1' <= decimal[0] <= '9';
  }

  /** `0.00` has the shape of a decimal but no non-zero digit: `float` gives 0.0. */
  lemma ZeroDecimalExample(zeroes: string)
    requires zeroes == "0.00"
    ensures !ValidateBillAmount(zeroes)
  {
    PointedCleaned("0", "00");
    PointedNonZero("0", "00");
    assert "0" + "." + "00" == zeroes;
  }

  /** `$1,500` reads as `1,500`, which reads as `1500`, a positive integer. */
  lemma FormattedExample(formatted: string)
    requires formatted == "$1,500"
    ensures ValidateBillAmount(formatted)
  {
    DollarIgnored(formatted);
    CommaIgnored();
    PlainExample("1500");
  }

  /** The leading `$` is removed before parsing. */
  lemma DollarIgnored(formatted: string)
    requires formatted == "$1,500"
    ensures ValidateBillAmount(formatted) == ValidateBillAmount("1,500")
  {
    assert formatted == "" + ['$'] + "1,500";
    AmountNoiseIgnored("", "1,500", '$');
    assert "" + "1,500" == "1,500";
  }

  /** The thousands separator is removed before parsing. */
  lemma CommaIgnored()
    ensures ValidateBillAmount("1,500") == ValidateBillAmount("1500")
  {
    assert "1,500" == "1" + [','] + "500";
    AmountNoiseIgnored("1", "500", ',');
    assert "1" + "500" == "1500";
  }

  /** Plain digits with a non-zero digit. */
  lemma PlainExample(plain: string)
    requires plain == "1500"
    ensures ValidateBillAmount(plain)
  {
    DigitsCleaned(plain);
    assert '1' <= plain[0] <= '9';
  }

  /** A point with no integer part, as `float('.5')` allows. */
  lemma FractionExample(fraction: string)
    requires fraction == ".5"
    ensures ValidateBillAmount(fraction)
  {
    PointedCleaned("", "5");
    assert "" + "." + "5" == fraction;
    assert '1' <= fraction[1] <= '9';
  }

  /** Zero is not greater than zero. */
  lemma ZeroExample(zero: string)
    requires zero == "0"
    ensures !ValidateBillAmount(zero)
  {
    DigitsCleaned(zero);
  }

  /** Nothing left after cleaning: `float('')` raises. */
  lemma EmptyExample()
    ensures !ValidateBillAmount("")
  {
    DigitsCleaned("");
  }

  /** A lone point has no digit: `float('.')` raises. */
  lemma PointExample(point: string)
    requires point == "."
    ensures !ValidateBillAmount(point)
  {
    PointedCleaned("", "");
    assert "" + "." + "" == point;
  }

  /** A second point: `float('1.2.3')` raises. */
  lemma TwoPointsExample(twoPoints: string)
    requires twoPoints == "1.2.3"
    ensures !ValidateBillAmount(twoPoints)
  {
    WithoutNothing(twoPoints, AmountNoise);
    assert twoPoints[1] == '.' && twoPoints[3] == '.';
    assert twoPoints == twoPoints[..1] + ['.'] + twoPoints[2..3] + ['.'] + twoPoints[4..];
  }

  /** Letters are not a number. */
  lemma LettersExample(letters: string)
    requires letters == "abc"
    ensures !ValidateBillAmount(letters)
  {
    WithoutNothing(letters, AmountNoise);
    assert !IsDigit(letters[0]);
  }

  /** A `$`, `,` or space anywhere in the input makes no difference to the verdict. */
  lemma AmountNoiseIgnored(a: string, b: string, c: char)
    requires c in AmountNoise
    ensures CleanAmount(a + [c] + b) == CleanAmount(a + b)
    ensures ValidateBillAmount(a + [c] + b) <==> ValidateBillAmount(a + b)
  {
    assert [c][1..] == [];
    WithoutAppend(a + [c], b, AmountNoise);
    WithoutAppend(a, [c], AmountNoise);
    WithoutAppend(a, b, AmountNoise);
  }

  // ---------------------------------------------------------------------
  // The session table as the form manager reads and writes it

  /** The five empty fields of a new add-card form. */
  const EmptyForm: Scratch :=
    map["bank_name" := "", "card_number" := "", "expiry_date" := "", "cvv" := "", "full_card_number" := ""]

  /** get_form_data: the scratch map, or `None` without a session or readable data. */
  function FormDataOf(sessions: map<int, SessionRow>, userId: int): Option<Scratch> {
    match SessionOf(sessions, userId)
    case None => None
    case Some(row) => row.formData
  }

  /** get_current_state: a missing session or an unknown state text reads as `Idle`. */
  function StateOf(sessions: map<int, SessionRow>, userId: int): FormState {
    match SessionOf(sessions, userId)
    case None => Idle
    case Some(row) => ParseState(row.state).GetOr(Idle)
  }

  /** A session row whose state text is not a `FormState` value is read as `Idle`. */
  lemma UnknownStateReadsIdle(sessions: map<int, SessionRow>, userId: int)
    requires userId in sessions && forall st: FormState :: st.Value() != sessions[userId].state
    ensures StateOf(sessions, userId) == Idle
  {
  }

  /** start_add_card_form: any session is replaced by state `Idle` and five empty fields. */
  function Started(sessions: map<int, SessionRow>, userId: int): (r: map<int, SessionRow>)
    ensures StateOf(r, userId) == Idle && FormDataOf(r, userId) == Some(EmptyForm)
    ensures forall v :: v != userId ==> SessionOf(r, v) == SessionOf(sessions, v)
  {
    sessions[userId := SessionRow(Idle.Value(), Some(EmptyForm))]
  }

  /** set_state: the new state, the scratch map kept (an empty one when there was none). */
  function WithState(sessions: map<int, SessionRow>, userId: int, st: FormState): (r: map<int, SessionRow>)
    ensures StateOf(r, userId) == st
    ensures FormDataOf(r, userId) == Some(FormDataOf(sessions, userId).GetOr(map[]))
    ensures forall v :: v != userId ==> SessionOf(r, v) == SessionOf(sessions, v)
  {
    sessions[userId := SessionRow(st.Value(), Some(FormDataOf(sessions, userId).GetOr(map[])))]
  }

  /**
   * update_form_field: `None` (the `False` result, nothing written) without
   * form data; otherwise only the named key changes and the state is kept.
   */
  function WithField(sessions: map<int, SessionRow>, userId: int, field: string, value: string)
    : (r: Option<map<int, SessionRow>>)
    ensures r.None? <==> FormDataOf(sessions, userId).None?
    ensures r.Some? ==> FormDataOf(r.value, userId) == Some(FormDataOf(sessions, userId).value[field := value])
    ensures r.Some? ==> StateOf(r.value, userId) == StateOf(sessions, userId)
    ensures r.Some? ==> forall v :: v != userId ==> SessionOf(r.value, v) == SessionOf(sessions, v)
  {
    match FormDataOf(sessions, userId)
    case None => None
    case Some(form) =>
      Some(sessions[userId := SessionRow(StateOf(sessions, userId).Value(), Some(form[field := value]))])
  }

  /** clear_form: the user's session row is deleted. */
  function Cleared(sessions: map<int, SessionRow>, userId: int): (r: map<int, SessionRow>)
    ensures SessionOf(r, userId).None? && FormDataOf(r, userId).None? && StateOf(r, userId) == Idle
    ensures forall v :: v != userId ==> SessionOf(r, v) == SessionOf(sessions, v)
  {
    sessions - {userId}
  }

  // ---------------------------------------------------------------------
  // Completeness

  /** `form_data.get(key)` is truthy: the key is present with non-empty text. */
  predicate Filled(form: Scratch, key: string) {
    key in form && form[key] != ""
  }

  const RequiredFields: seq<string> := ["bank_name", "card_number", "expiry_date"]

  /** The loop over the required fields: every one of `keys` is filled. */
  predicate AllFilled(form: Scratch, keys: seq<string>) {
    |keys| == 0 || (Filled(form, keys[0]) && AllFilled(form, keys[1..]))
  }

  lemma {:induction false} AllFilledIff(form: Scratch, keys: seq<string>)
    ensures AllFilled(form, keys) <==> forall i :: 0 <= i < |keys| ==> Filled(form, keys[i])
  {
    if |keys| > 0 {
      AllFilledIff(form, keys[1..]);
      assert forall i :: 1 <= i < |keys| ==> keys[i] == keys[1..][i - 1];
    }
  }

  /** The three required fields, one after the other. */
  lemma RequiredFilled(form: Scratch)
    ensures AllFilled(form, RequiredFields) <==>
      Filled(form, "bank_name") && Filled(form, "card_number") && Filled(form, "expiry_date")
  {
    var rest := RequiredFields[1..];
    assert RequiredFields[0] == "bank_name" && rest == ["card_number", "expiry_date"];
    assert rest[0] == "card_number" && rest[1..] == ["expiry_date"];
    assert rest[1..][0] == "expiry_date" && rest[1..][1..] == [];
    assert AllFilled(form, rest[1..]) <==> Filled(form, "expiry_date");
    assert AllFilled(form, rest) <==> Filled(form, "card_number") && Filled(form, "expiry_date");
  }

  /**
   * is_form_complete: there is non-empty form data, the required fields
   * are filled, and a full card number comes with a CVV.
   */
  predicate FormComplete(form: Option<Scratch>): (complete: bool)
    ensures complete <==>
      form.Some? && form.value != map[] &&
      Filled(form.value, "bank_name") && Filled(form.value, "card_number") && Filled(form.value, "expiry_date") &&
      (Filled(form.value, "full_card_number") ==> Filled(form.value, "cvv"))
  {
    if form.None? then false
    else
      RequiredFilled(form.value);
      assert form.value != map[] <==> |form.value| > 0;
      |form.value| > 0 && AllFilled(form.value, RequiredFields) &&
      !(Filled(form.value, "full_card_number") && !Filled(form.value, "cvv"))
  }

  /** A freshly started form is not complete. */
  lemma StartedIncomplete(sessions: map<int, SessionRow>, userId: int)
    ensures !FormComplete(FormDataOf(Started(sessions, userId), userId))
  {
  }

  /** The manager of the add-card form, working on the store's session table. */
  class FormManager {
    const db: DatabaseManager

    constructor (db: DatabaseManager)
      ensures this.db == db
    {
      this.db := db;
    }

    function GetFormData(userId: int): Option<Scratch>
      reads db
    {
      FormDataOf(db.sessions, userId)
    }

    function GetCurrentState(userId: int): FormState
      reads db
    {
      StateOf(db.sessions, userId)
    }

    method StartAddCardForm(userId: int) returns (form: Scratch)
      modifies db
      ensures form == EmptyForm
      ensures db.cards == old(db.cards) && db.nextId == old(db.nextId)
      ensures db.sessions == Started(old(db.sessions), userId)
    {
      form := EmptyForm;
      db.SaveUserSession(userId, Idle.Value(), Some(form));
    }

    method SetState(userId: int, st: FormState)
      modifies db
      ensures db.cards == old(db.cards) && db.nextId == old(db.nextId)
      ensures db.sessions == WithState(old(db.sessions), userId, st)
    {
      var form := GetFormData(userId).GetOr(map[]);
      db.SaveUserSession(userId, st.Value(), Some(form));
    }

    method UpdateFormField(userId: int, field: string, value: string) returns (ok: bool)
      modifies db
      ensures db.cards == old(db.cards) && db.nextId == old(db.nextId)
      ensures var r := WithField(old(db.sessions), userId, field, value);
              ok == r.Some? && db.sessions == r.GetOr(old(db.sessions))
    {
      var form := GetFormData(userId);
      if form.None? {
        return false;
      }
      var st := GetCurrentState(userId);
      db.SaveUserSession(userId, st.Value(), Some(form.value[field := value]));
      ok := true;
    }

    predicate IsFormComplete(userId: int)
      reads db
    {
      FormComplete(GetFormData(userId))
    }

    method ClearForm(userId: int)
      modifies db
      ensures db.cards == old(db.cards) && db.nextId == old(db.nextId)
      ensures db.sessions == Cleared(old(db.sessions), userId)
    {
      db.ClearUserSession(userId);
    }
  }
}
