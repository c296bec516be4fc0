/** The customer store (functions/customer_manager.py): the email check,
    the Luhn check digit, card brands, the masking of payment methods (only
    the brand, the last four digits and the expiry of a card are kept), id
    allocation, lookup and the name-ordered listing. */
module Customers {
  import opened Common

  datatype CustomerError =
    | NamesRequired
    | InvalidEmail
    | UnknownPaymentType
    | InvalidCardNumber
    | InvalidExpiry
    | InvalidPayPalEmail
    | UnknownPreferredMethod

  // ---------------------------------------------------------------- email

  /** The characters of `[A-Z0-9._%+\-]`, case-insensitively. */
  predicate LocalChar(c: char) {
    IsLetter(c) || IsDigit(c) || c == '.' || c == '_' || c == '%' || c == '+' || c == '-'
  }

  /** The characters of `[A-Z0-9.\-]`, case-insensitively. */
  predicate DomainChar(c: char) {
    IsLetter(c) || IsDigit(c) || c == '.' || c == '-'
  }

  predicate AllLetters(s: string) {
    forall i :: 0 <= i < |s| ==> IsLetter(s[i])
  }

  /** What `$` lets the pattern match: the text, less one final newline. */
  function Body(e: string): (r: string)
    ensures r == e || (r + "\n" == e)
  {
    if e != [] && e[|e| - 1] == '\n' then e[..|e| - 1] else e
  }

  /** The pattern, split at the '@' and at the '.' before the top-level
      domain: local part, '@', domain, '.', two or more letters. */
  predicate EmailParts(s: string, at: int, dot: int) {
    && 0 < at && at + 1 < dot && dot + 3 <= |s|
    && s[at] == '@' && s[dot] == '.'
    && (forall i :: 0 <= i < at ==> LocalChar(s[i]))
    && (forall i :: at < i < dot ==> DomainChar(s[i]))
    && (forall i :: dot < i < |s| ==> IsLetter(s[i]))
  }

  /** validate_email: the pattern matches from the start, up to the end
      or a final newline. */
  predicate ValidEmail(e: string) {
    var s := Body(e);
    exists at, dot | 0 <= at < |s| && 0 <= dot < |s| :: EmailParts(s, at, dot)
  }

  /** How often `c` occurs in `s`. */
  function Count(s: string, c: char): (n: nat)
    ensures n <= |s|
  {
    if s == [] then 0 else Count(s[..|s| - 1], c) + (if s[|s| - 1] == c then 1 else 0)
  }

  lemma {:induction false} CountAppend(a: string, b: string, c: char)
    ensures Count(a + b, c) == Count(a, c) + Count(b, c)
  {
    if b != [] {
      assert (a + b)[..|a + b| - 1] == a + b[..|b| - 1];
      CountAppend(a, b[..|b| - 1], c);
    } else {
      assert a + b == a;
    }
  }

  lemma {:induction false} CountNone(s: string, c: char)
    requires forall i :: 0 <= i < |s| ==> s[i] != c
    ensures Count(s, c) == 0
  {
    if s != [] {
      CountNone(s[..|s| - 1], c);
    }
  }

  /** A valid address holds exactly one '@' and ends in '.' followed by at
      least two letters (before the optional final newline). */
  lemma EmailShape(e: string)
    requires ValidEmail(e)
    ensures Count(Body(e), '@') == 1
    ensures exists dot :: 0 <= dot && dot + 3 <= |Body(e)| && Body(e)[dot] == '.'
                          && AllLetters(Body(e)[dot + 1..])
  {
    var s := Body(e);
    var at, dot :| 0 <= at < |s| && 0 <= dot < |s| && EmailParts(s, at, dot);
    assert s == s[..at] + [s[at]] + s[at + 1..];
    CountNone(s[..at], '@');
    CountNone(s[at + 1..], '@');
    CountAppend(s[..at], [s[at]], '@');
    CountAppend(s[..at] + [s[at]], s[at + 1..], '@');
    assert Count([s[at]], '@') == 1 by {
      assert [s[at]][..0] == [];
    }
    assert AllLetters(s[dot + 1..]);
  }

  // ---------------------------------------------------------------- Luhn

  /** One digit's share of the Luhn sum: doubled digits above 9 lose 9. */
  function LuhnTerm(d: nat, doubled: bool): (r: nat)
    requires d <= 9
    ensures r <= 9
  {
    if doubled then (if 2 * d > 9 then 2 * d - 9 else 2 * d) else d
  }

  /** The Luhn sum of a digit string read from the right, the rightmost
      digit doubled or not as `doubled` says, then alternating. */
  function LuhnSum(s: string, doubled: bool): nat
    requires AllDigits(s)
  {
    if s == [] then 0
    else LuhnTerm(DigitValue(s[|s| - 1]), doubled) + LuhnSum(s[..|s| - 1], !doubled)
  }

  /** ISO/IEC 7812-1 Annex B as _luhn_check applies it: the digits of the
      text, non-empty, with a sum divisible by 10 when every second digit
      from the right is doubled. */
  predicate LuhnValid(num: string) {
    var s := DigitsOf(num);
    s != [] && LuhnSum(s, false) % 10 == 0
  }

  function Alternate(doubled: bool, n: nat): bool {
    if n % 2 == 1 then !doubled else doubled
  }

  /** The sum splits at any point; the left part starts doubled or not
      according to the parity of the right part's length. */
  lemma {:induction false} LuhnSumAppend(a: string, c: string, doubled: bool)
    requires AllDigits(a) && AllDigits(c)
    ensures AllDigits(a + c)
    ensures LuhnSum(a + c, doubled) == LuhnSum(c, doubled) + LuhnSum(a, Alternate(doubled, |c|))
  {
    if c == [] {
      assert a + c == a;
    } else {
      var init := c[..|c| - 1];
      assert (a + c)[..|a + c| - 1] == a + init;
      LuhnSumAppend(a, init, !doubled);
    }
  }

  /** Doubling with the carry subtracted is one-to-one on digits. */
  lemma LuhnTermInjective(x: nat, y: nat, doubled: bool)
    requires x <= 9 && y <= 9 && x != y
    ensures LuhnTerm(x, doubled) != LuhnTerm(y, doubled)
  {
  }

  /** The sum of a string with one digit singled out: that digit's term,
      doubled according to the parity of what follows it, plus the rest. */
  lemma LuhnSumAround(a: string, x: char, c: string)
    requires AllDigits(a) && AllDigits(c) && IsDigit(x)
    ensures AllDigits(a + [x] + c)
    ensures LuhnSum(a + [x] + c, false)
            == LuhnSum(c, false) + LuhnSum(a, !Alternate(false, |c|))
               + LuhnTerm(DigitValue(x), Alternate(false, |c|))
  {
    var p := Alternate(false, |c|);
    LuhnSumAppend(a, [x], p);
    LuhnSumAppend(a + [x], c, false);
    assert [x][..0] == [];
  }

  /** The Luhn sums of two digit strings that differ in one digit differ
      by less than 10, and not by 0. */
  lemma LuhnSumsDiffer(a: string, x: char, y: char, c: string)
    requires AllDigits(a) && AllDigits(c) && IsDigit(x) && IsDigit(y) && x != y
    ensures AllDigits(a + [x] + c) && AllDigits(a + [y] + c)
    ensures LuhnSum(a + [x] + c, false) % 10 != 0 || LuhnSum(a + [y] + c, false) % 10 != 0
  {
    var p := Alternate(false, |c|);
    LuhnSumAround(a, x, c);
    LuhnSumAround(a, y, c);
    LuhnTermInjective(DigitValue(x), DigitValue(y), p);
    DistinctDigitsApart(LuhnSum(c, false) + LuhnSum(a, !p), LuhnTerm(DigitValue(x), p), LuhnTerm(DigitValue(y), p));
  }

  /** Adding two different digits to the same number cannot make both
      sums multiples of 10. */
  lemma DistinctDigitsApart(n: int, x: int, y: int)
    requires 0 <= x <= 9 && 0 <= y <= 9 && x != y
    ensures (n + x) % 10 != (n + y) % 10
    ensures (n + x) % 10 != 0 || (n + y) % 10 != 0
  {
    var qx, qy := (n + x) / 10, (n + y) / 10;
    assert n + x == 10 * qx + (n + x) % 10;
    assert n + y == 10 * qy + (n + y) % 10;
  }

  /** Luhn catches every single-digit error: two digit strings that differ
      in exactly one digit are never both valid. */
  lemma LuhnCatchesSingleDigitError(a: string, x: char, y: char, c: string)
    requires AllDigits(a) && AllDigits(c) && IsDigit(x) && IsDigit(y) && x != y
    ensures !(LuhnValid(a + [x] + c) && LuhnValid(a + [y] + c))
  {
    LuhnSumsDiffer(a, x, y, c);
    assert DigitsOf(a + [x] + c) == a + [x] + c;
    assert DigitsOf(a + [y] + c) == a + [y] + c;
  }

  /** One step of the right-to-left scan: the suffix one digit longer adds
      that digit's term, doubled at odd distance from the right end. */
  lemma LuhnStep(s: string, i: nat)
    requires AllDigits(s) && i < |s|
    ensures LuhnSum(s[|s| - 1 - i..], false)
            == LuhnSum(s[|s| - i..], false) + LuhnTerm(DigitValue(s[|s| - 1 - i]), i % 2 == 1)
  {
    var d := s[|s| - 1 - i];
    assert s[|s| - 1 - i..] == [d] + s[|s| - i..];
    LuhnSumAppend([d], s[|s| - i..], false);
    assert [d][..0] == [];
  }

  /** _luhn_check: the digits read right to left, `alt` flipping each step. */
  method LuhnCheck(num: string) returns (ok: bool)
    ensures ok == LuhnValid(num)
  {
    var s := DigitsOf(num);
    if s == [] {
      return false;
    }
    var total, alt := 0, false;
    for i := 0 to |s|
      invariant total == LuhnSum(s[|s| - i..], false)
      invariant alt == (i % 2 == 1)
    {
      var n := DigitValue(s[|s| - 1 - i]);
      if alt {
        n := n * 2;
        if n > 9 {
          n := n - 9;
        }
      }
      LuhnStep(s, i);
      total := total + n;
      alt := !alt;
    }
    assert s[0..] == s;
    ok := total % 10 == 0;
  }

  // ---------------------------------------------------------------- brands

  datatype Brand = Amex | Mastercard | Visa | Discover | OtherCard

  predicate StartsWith(s: string, prefix: string) {
    |prefix| <= |s| && s[..|prefix|] == prefix
  }

  /** The rules of _card_brand on the digits of the number, the first
      whose prefix and length match. */
  function BrandOf(s: string): Brand {
    if (StartsWith(s, "34") || StartsWith(s, "37")) && |s| == 15 then Amex
    else if (StartsWith(s, "51") || StartsWith(s, "52") || StartsWith(s, "53")
             || StartsWith(s, "54") || StartsWith(s, "55")) && |s| == 16 then Mastercard
    else if StartsWith(s, "4") && (|s| == 13 || |s| == 16 || |s| == 19) then Visa
    else if (StartsWith(s, "6011") || StartsWith(s, "65")) && |s| == 16 then Discover
    else OtherCard
  }

  /** _card_brand: the brand of the number's digits. */
  function CardBrand(num: string): Brand {
    BrandOf(DigitsOf(num))
  }

  /** Each brand by its own rule: the prefixes of different brands start
      with different digits, so the order the rules are tried in does not
      matter. */
  lemma BrandRules(s: string)
    ensures BrandOf(s) == Amex <==> |s| == 15 && s[0] == '3' && (s[1] == '4' || s[1] == '7')
    ensures BrandOf(s) == Mastercard <==> |s| == 16 && s[0] == '5' && '1' <= s[1] <= '5'
    ensures BrandOf(s) == Visa <==> (|s| == 13 || |s| == 16 || |s| == 19) && s[0] == '4'
    ensures BrandOf(s) == Discover <==> |s| == 16 && (s[..4] == "6011" || s[..2] == "65")
  {
  }

  // ---------------------------------------------------------------- payments

  /** One payment method as given; an absent field is the empty text. */
  datatype PaymentInput = PaymentInput(
    kind: string,
    cardNumber: string,
    expMonth: string,
    expYear: string,
    holder: string,
    paypalEmail: string)

  /** A payment method as stored: never the card number, only its last
      four digits. */
  datatype Payment =
    | Card(kind: string, brand: Brand, last4: string, expMonth: int, expYear: int, holder: string)
    | PayPal(email: string)

  predicate KnownMethod(k: string) {
    k == "credit_card" || k == "debit_card" || k == "paypal"
  }

  /** A month or year field as `isdigit` accepts it: non-empty, digits only. */
  predicate Numeral(s: string) {
    s != [] && AllDigits(s)
  }

  /** `exp_month` and `exp_year` as add_customer accepts them: a month
      from 1 to 12 and a year of two or four digits. */
  predicate ValidExpiry(month: string, year: string) {
    Numeral(month) && 1 <= DigitsValue(month) <= 12 && Numeral(year) && (|year| == 2 || |year| == 4)
  }

  /** A two-digit year yy is the year 20yy. */
  function ExpiryYear(year: string): int
    requires Numeral(year)
  {
    if |year| == 4 then DigitsValue(year) else 2000 + DigitsValue(year)
  }

  /** A card method: the number must have 12 or more digits and pass the
      Luhn check, the expiry must be valid; only the brand, the last four
      digits, the expiry and the stripped holder are kept. */
  function MaskCard(kind: string, pm: PaymentInput): Result<Payment, CustomerError> {
    var month := Trim(pm.expMonth);
    var year := Trim(pm.expYear);
    var digits := DigitsOf(Trim(pm.cardNumber));
    if |digits| < 12 || !LuhnValid(digits) then Failure(InvalidCardNumber)
    else if !ValidExpiry(month, year) then Failure(InvalidExpiry)
    else Success(Card(kind, CardBrand(digits), digits[|digits| - 4..], DigitsValue(month),
                      ExpiryYear(year), Trim(pm.holder)))
  }

  /** A PayPal method: its own address, or the customer's when it has none,
      stripped and valid. */
  function MaskPayPal(pm: PaymentInput, email: string): Result<Payment, CustomerError> {
    var address := Trim(if pm.paypalEmail == [] then email else pm.paypalEmail);
    if !ValidEmail(address) then Failure(InvalidPayPalEmail) else Success(PayPal(address))
  }

  /** The body of the payment loop of add_customer for one method. */
  function SafePayment(pm: PaymentInput, email: string): Result<Payment, CustomerError> {
    var kind := Casefold(Trim(pm.kind));
    if !KnownMethod(kind) then Failure(UnknownPaymentType)
    else if kind == "paypal" then MaskPayPal(pm, email)
    else MaskCard(kind, pm)
  }

  /** A card that passes keeps only its last four digits, fewer than the
      twelve or more of the number, which passed the Luhn check; the month
      is 1 to 12 and a two-digit year yy becomes 20yy. */
  lemma CardIsMasked(kind: string, pm: PaymentInput)
    requires MaskCard(kind, pm).Success?
    ensures var p := MaskCard(kind, pm).value;
            var digits := DigitsOf(Trim(pm.cardNumber));
            && p.Card?
            && |digits| >= 12 && LuhnValid(digits)
            && p.last4 == digits[|digits| - 4..]
            && |p.last4| == 4 < |digits|
            && 1 <= p.expMonth <= 12
            && var y := Trim(pm.expYear);
            && Numeral(y)
            && (|y| == 2 ==> p.expYear == 2000 + DigitsValue(y))
            && (|y| == 4 ==> p.expYear == DigitsValue(y))
  {
  }

  /** A method is refused for its type exactly when the type, stripped and
      lower-cased, is not one of the three; a card type goes through the
      card checks and "paypal" through the address check. */
  lemma SafePaymentKinds(pm: PaymentInput, email: string)
    ensures !KnownMethod(Casefold(Trim(pm.kind))) <==> SafePayment(pm, email) == Failure(UnknownPaymentType)
    ensures Casefold(Trim(pm.kind)) == "paypal" ==> SafePayment(pm, email) == MaskPayPal(pm, email)
    ensures Casefold(Trim(pm.kind)) in {"credit_card", "debit_card"} ==>
              SafePayment(pm, email) == MaskCard(Casefold(Trim(pm.kind)), pm)
  {
  }

  /** Whatever SafePayment stores is masked: a card as CardIsMasked says, a
      PayPal method with a valid address. */
  lemma SafePaymentMasks(pm: PaymentInput, email: string)
    requires SafePayment(pm, email).Success?
    ensures SafePayment(pm, email).value.Card? ==> |SafePayment(pm, email).value.last4| == 4
    ensures SafePayment(pm, email).value.Card? ==> 1 <= SafePayment(pm, email).value.expMonth <= 12
    ensures SafePayment(pm, email).value.PayPal? ==> ValidEmail(SafePayment(pm, email).value.email)
  {
    var kind := Casefold(Trim(pm.kind));
    SafePaymentKinds(pm, email);
    if kind != "paypal" {
      CardIsMasked(kind, pm);
    }
  }

  /** The check applied to each payment method of a customer. */
  function PaymentCheck(email: string): PaymentInput -> Result<Payment, CustomerError> {
    pm => SafePayment(pm, email)
  }

  /** The payment loop of add_customer: the first refusal, or every method
      masked, in order. */
  method SafePayments(pms: seq<PaymentInput>, email: string) returns (r: Result<seq<Payment>, CustomerError>)
    ensures r == Traverse(pms, PaymentCheck(email))
  {
    var check := PaymentCheck(email);
    var safe := [];
    for i := 0 to |pms|
      invariant Traverse(pms[..i], check) == Success(safe)
    {
      assert pms[..i + 1][..i] == pms[..i];
      var p := SafePayment(pms[i], email);
      assert p == check(pms[i]);
      if p.Failure? {
        forall m | 0 <= m < i ensures check(pms[m]).Success? {
          assert pms[..i][m] == pms[m];
        }
        TraverseFirstFailure(pms, check, i);
        return Failure(p.error);
      }
      safe := safe + [p.value];
    }
    assert pms[..|pms|] == pms;
    r := Success(safe);
  }

  // ---------------------------------------------------------------- customers

  datatype Address = Address(line1: string, line2: string, line3: string, postcode: string, country: string)

  function TrimAddress(a: Address): Address {
    Address(Trim(a.line1), Trim(a.line2), Trim(a.line3), Trim(a.postcode), Trim(a.country))
  }

  /** The arguments of add_customer; an absent text is the empty text. */
  datatype CustomerInput = CustomerInput(
    title: string,
    firstName: string,
    lastName: string,
    email: string,
    phone: string,
    mobile: string,
    home: Address,
    delivery: Address,
    payments: seq<PaymentInput>,
    preferred: string)

  /** A stored customer; `id` is None when customer_id is absent or not a
      whole number. */
  datatype Customer = Customer(
    id: Option<int>,
    createdAt: string,
    title: string,
    firstName: string,
    lastName: string,
    email: string,
    phone: string,
    mobile: string,
    home: Address,
    delivery: Address,
    payments: seq<Payment>,
    preferred: string)

  /** The checks of add_customer in order; on success, the masked payment
      methods. */
  function Validate(input: CustomerInput): (r: Result<seq<Payment>, CustomerError>)
    ensures r.Success? ==> |r.value| == |input.payments|
  {
    if Blank(input.firstName) || Blank(input.lastName) then Failure(NamesRequired)
    else if !ValidEmail(input.email) then Failure(InvalidEmail)
    else match Traverse(input.payments, PaymentCheck(input.email))
      case Failure(e) => Failure(e)
      case Success(ps) =>
        if !KnownMethod(input.preferred) then Failure(UnknownPreferredMethod) else Success(ps)
  }

  /** add_customer refuses exactly when a name is blank, the email is
      invalid, a payment method is refused or the preferred method is
      unknown, and says which check came first. */
  lemma ValidateRefuses(input: CustomerInput)
    ensures Validate(input).Failure? <==>
              || Blank(input.firstName) || Blank(input.lastName)
              || !ValidEmail(input.email)
              || Traverse(input.payments, PaymentCheck(input.email)).Failure?
              || !KnownMethod(input.preferred)
    ensures Blank(input.firstName) || Blank(input.lastName) ==> Validate(input) == Failure(NamesRequired)
    ensures !Blank(input.firstName) && !Blank(input.lastName) && !ValidEmail(input.email) ==>
              Validate(input) == Failure(InvalidEmail)
  {
  }

  /** The record add_customer appends. */
  function Record(input: CustomerInput, payments: seq<Payment>, id: int, createdAt: string): Customer {
    Customer(Some(id), createdAt, Trim(input.title), Trim(input.firstName), Trim(input.lastName),
             Trim(input.email), Trim(input.phone), Trim(input.mobile),
             TrimAddress(input.home), TrimAddress(input.delivery), payments, input.preferred)
  }

  /** What an accepted customer looks like: both names present, a known
      preferred method, and every card reduced to four digits and a valid
      month. */
  lemma AcceptedCustomer(input: CustomerInput, id: int, createdAt: string)
    requires Validate(input).Success?
    ensures var c := Record(input, Validate(input).value, id, createdAt);
            && c.firstName != [] && c.lastName != []
            && KnownMethod(c.preferred)
            && |c.payments| == |input.payments|
            && forall k :: 0 <= k < |c.payments| && c.payments[k].Card? ==>
                 |c.payments[k].last4| == 4 && 1 <= c.payments[k].expMonth <= 12
  {
    ValidateAccepts(input);
    PaymentsMasked(input.payments, input.email);
  }

  /** What an accepted input has passed. */
  lemma ValidateAccepts(input: CustomerInput)
    requires Validate(input).Success?
    ensures !Blank(input.firstName) && !Blank(input.lastName)
    ensures KnownMethod(input.preferred)
    ensures Traverse(input.payments, PaymentCheck(input.email)) == Validate(input)
  {
  }

  /** Every method the payment loop keeps is masked. */
  lemma PaymentsMasked(pms: seq<PaymentInput>, email: string)
    requires Traverse(pms, PaymentCheck(email)).Success?
    ensures var ps := Traverse(pms, PaymentCheck(email)).value;
            forall k :: 0 <= k < |ps| && ps[k].Card? ==> |ps[k].last4| == 4 && 1 <= ps[k].expMonth <= 12
  {
    var ps := Traverse(pms, PaymentCheck(email)).value;
    forall k | 0 <= k < |ps| && ps[k].Card?
      ensures |ps[k].last4| == 4 && 1 <= ps[k].expMonth <= 12
    {
      assert PaymentCheck(email)(pms[k]) == SafePayment(pms[k], email);
      SafePaymentMasks(pms[k], email);
    }
  }

  /** `int(c.get("customer_id", 0))`, a missing or non-numeric id read as 0. */
  function IdOrZero(c: Customer): int {
    match c.id
    case Some(n) => n
    case None => 0
  }

  /** _next_customer_id: at least 1 and above every customer's id. */
  /** `_next_customer_id`'s result: one more than the largest id (a customer
      without one counts as 0), or 1 when no id is positive. */
  predicate IsNextCustomerId(customers: seq<Customer>, id: int) {
    && id >= 1
    && (forall k :: 0 <= k < |customers| && customers[k].id.Some? ==> customers[k].id.value < id)
    && (id == 1 || exists k :: 0 <= k < |customers| && IdOrZero(customers[k]) == id - 1)
  }

  method NextCustomerId(customers: seq<Customer>) returns (r: int)
    ensures IsNextCustomerId(customers, r)
  {
    var ids := seq(|customers|, k requires 0 <= k < |customers| => IdOrZero(customers[k]));
    r := NextId(ids);
    assert forall k :: 0 <= k < |customers| ==> ids[k] == IdOrZero(customers[k]);
  }

  /** get_customer_by_id: the position of the first customer with the id. */
  function FindCustomer(customers: seq<Customer>, id: int): (r: Option<nat>)
    ensures r.Some? ==> r.value < |customers| && customers[r.value].id == Some(id)
    ensures r.Some? ==> forall k :: 0 <= k < r.value ==> customers[k].id != Some(id)
    ensures r.None? <==> forall k :: 0 <= k < |customers| ==> customers[k].id != Some(id)
  {
    if customers == [] then None
    else if customers[0].id == Some(id) then Some(0)
    else match FindCustomer(customers[1..], id)
      case None => None
      case Some(i) => Some(i + 1)
  }

  /** (casefolded last name, casefolded first name), compared as Python
      compares tuples. */
  function NameOrder(): (Customer, Customer) -> bool {
    (a: Customer, b: Customer) =>
      var la, lb := Casefold(a.lastName), Casefold(b.lastName);
      StrLt(la, lb) || (la == lb && StrLe(Casefold(a.firstName), Casefold(b.firstName)))
  }

  lemma NameOrderTotalPreorder()
    ensures TotalPreorder(NameOrder())
  {
    var le := NameOrder();
    forall a: Customer, b: Customer ensures le(a, b) || le(b, a) {
      StrLeTotal(Casefold(a.lastName), Casefold(b.lastName));
      StrLeTotal(Casefold(a.firstName), Casefold(b.firstName));
    }
    forall a: Customer, b: Customer, c: Customer | le(a, b) && le(b, c) ensures le(a, c) {
      var la, lb, lc := Casefold(a.lastName), Casefold(b.lastName), Casefold(c.lastName);
      if la == lb && lb == lc {
        StrLeTransitive(Casefold(a.firstName), Casefold(b.firstName), Casefold(c.firstName));
      } else if la == lb {
        assert StrLt(lb, lc);
      } else if lb == lc {
        assert StrLt(la, lb);
      } else {
        StrLeTransitive(la, lb, lc);
        if la == lc {
          StrLeAntisymmetric(la, lb);
        }
      }
    }
  }

  /** list_customers_sorted: every customer once, by last then first name. */
  function ListCustomersSorted(customers: seq<Customer>): (r: seq<Customer>)
    ensures multiset(r) == multiset(customers)
    ensures SortedBy(r, NameOrder())
    ensures forall y :: Ties(r, y, NameOrder()) == Ties(customers, y, NameOrder())
  {
    NameOrderTotalPreorder();
    SortBySorted(customers, NameOrder());
    SortByStable(customers, NameOrder());
    SortBy(customers, NameOrder())
  }

  // ---------------------------------------------------------------- the store

  /** The customers document, loaded. */
  class CustomerStore {
    var customers: seq<Customer>

    constructor (loaded: seq<Customer>)
      ensures customers == loaded
    {
      customers := loaded;
    }

    /** add_customer: refused, with nothing written, when `Validate`
      refuses; otherwise the cleaned record is appended with the next id. */
    method AddCustomer(input: CustomerInput, createdAt: string) returns (r: Result<Customer, CustomerError>)
      modifies this
      ensures Validate(input).Failure? ==> r == Failure(Validate(input).error) && customers == old(customers)
      ensures Validate(input).Success? ==>
                && r.Success?
                && r.value.id.Some?
                && r.value == Record(input, Validate(input).value, r.value.id.value, createdAt)
                && IsNextCustomerId(old(customers), r.value.id.value)
                && customers == old(customers) + [r.value]
    {
      if Blank(input.firstName) || Blank(input.lastName) {
        return Failure(NamesRequired);
      }
      if !ValidEmail(input.email) {
        return Failure(InvalidEmail);
      }
      var payments := SafePayments(input.payments, input.email);
      if payments.Failure? {
        return Failure(payments.error);
      }
      if !KnownMethod(input.preferred) {
        return Failure(UnknownPreferredMethod);
      }
      var id := NextCustomerId(customers);
      var c := Record(input, payments.value, id, createdAt);
      customers := customers + [c];
      r := Success(c);
    }
  }
}
