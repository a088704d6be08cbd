/** Normalising a payment's prices and converting the paid amount into the settlement currency. */
module Pricing {
  import opened Prelude
  import opened Rounding
  import opened Text

  const MAX_INT64 := 0x7FFF_FFFF_FFFF_FFFF
  const DEFAULT_CURRENCY := "CNY"

  datatype Money = Money(amount: int, currency: string)

  datatype CurrencyMeta = CurrencyMeta(code: string, minorExp: int)

  datatype ExchangeRate = ExchangeRate(from: string, to: string, rate: string)

  datatype PriceError =
    | InvalidAmount | InvalidCurrency | CurrencyMetaNotFound | InvalidExchangeRate | SettleAmountMismatch | InvalidRequest

  /** A positive fraction, not necessarily in lowest terms. */
  datatype Rat = Rat(num: nat, den: nat)

  // -------------------------------------------------------- decimal rates

  predicate IsDigit(c: char) {
    '0' <= c <= '9'
  }

  predicate AllDigits(s: string) {
    forall c :: c in s ==> IsDigit(c)
  }

  function Digits(s: string): nat
    requires AllDigits(s)
  {
    if s == [] then 0
    else
      assert s[|s| - 1] in s;
      10 * Digits(s[..|s| - 1]) + (s[|s| - 1] as int - '0' as int)
  }

  function Pow10(exp: int): (r: nat)
    ensures r > 0
  {
    if exp <= 0 then 1 else 10 * Pow10(exp - 1)
  }

  /** A plain decimal: optional outer space, optional plus sign, digits with at most one point. */
  lemma {:induction false} Pow10Tells(a: nat, b: nat)
    ensures Pow10(0) == 1 && Pow10(1) == 10 && Pow10(a + b) == Pow10(a) * Pow10(b)
  {
    if a > 0 {
      Pow10Tells(a - 1, b);
      Regroup(10, Pow10(a - 1), Pow10(b));
    }
  }

  /** The sum of the digits' values at their places. */
  function PlaceValues(s: string): int {
    if s == [] then 0 else (s[0] as int - '0' as int) * Pow10(|s| - 1) + PlaceValues(s[1..])
  }

  lemma {:induction false} PlacesAppend(s: string, c: char)
    ensures PlaceValues(s + [c]) == 10 * PlaceValues(s) + (c as int - '0' as int)
  {
    if s == [] {
      assert [c][1..] == [];
    } else {
      assert (s + [c])[1..] == s[1..] + [c];
      PlacesAppend(s[1..], c);
      var d := s[0] as int - '0' as int;
      Regroup(d, 10, Pow10(|s| - 1));
      Regroup(10, d, Pow10(|s| - 1));
    }
  }

  /** Digits are read in base ten. */
  lemma {:induction false} DigitsArePlaces(s: string)
    requires AllDigits(s)
    ensures Digits(s) == PlaceValues(s)
    ensures forall c :: IsDigit(c) <==> c in "0123456789"
  {
    if s != [] {
      var front := s[..|s| - 1];
      DigitsArePlaces(front);
      PlacesAppend(front, s[|s| - 1]);
      assert s == front + [s[|s| - 1]];
    }
  }

  function ParsePositiveDecimal(text: string): (r: Result<Rat, PriceError>)
    ensures r.Ok? ==> r.value.num > 0 && r.value.den > 0
  {
    var trimmed := TrimSpace(text);
    if trimmed == "" then Err(InvalidExchangeRate)
    else
      var negative := trimmed[0] == '-';
      var raw := if trimmed[0] == '+' || negative then trimmed[1..] else trimmed;
      var parts := Split(raw, '.');
      if |parts| > 2 || (parts[0] == "" && |parts| == 1) then Err(InvalidExchangeRate)
      else
        var fracPart := if |parts| == 2 then parts[1] else "";
        var intPart := if parts[0] == "" then "0" else parts[0];
        var digits := intPart + fracPart;
        if !AllDigits(digits) then Err(InvalidExchangeRate)
        else if negative || Digits(digits) == 0 then Err(InvalidExchangeRate)
        else Ok(Rat(Digits(digits), Pow10(|fracPart|)))
  }

  /** `body` writes a number with these digits before and after the point. */
  predicate Numeral(body: string, whole: string, frac: string) {
    && AllDigits(whole) && AllDigits(frac)
    && ((body == whole && whole != "" && frac == "") || body == whole + "." + frac)
  }

  lemma {:induction false} NumeralParts(body: string, whole: string, frac: string)
    requires Numeral(body, whole, frac)
    ensures Split(body, '.') == if body == whole then [whole] else [whole, frac]
    ensures body == whole ==> frac == ""
  {
    assert '.' !in whole && '.' !in frac;
    if body == whole {
      SplitNone(whole, '.');
      assert whole + "." + frac != whole by { assert |whole + "." + frac| > |whole|; }
    } else {
      assert body == whole + ['.'] + frac;
      SplitFirst(whole, '.', frac);
      SplitNone(frac, '.');
    }
  }

  lemma LeadingZero(whole: string, frac: string)
    requires AllDigits(whole) && AllDigits(frac) && whole == ""
    ensures AllDigits("0" + frac) && Digits("0" + frac) == Digits(whole + frac)
  {
    assert whole + frac == frac;
    ZeroInFront(frac);
  }

  lemma {:induction false} ZeroInFront(s: string)
    requires AllDigits(s)
    ensures AllDigits("0" + s) && Digits("0" + s) == Digits(s)
  {
    if s != [] {
      var front := s[..|s| - 1];
      ZeroInFront(front);
      assert ("0" + s)[..|s|] == "0" + front;
    } else {
      assert "0" + s == "0" && "0"[..0] == [];
    }
  }

  /** A numeral, with or without a plus sign and outer space, parses to exactly the number it writes. */
  lemma {:induction false} ParseMeaning(text: string, body: string, whole: string, frac: string)
    requires Numeral(body, whole, frac)
    requires TrimSpace(text) == body || TrimSpace(text) == "+" + body
    ensures AllDigits(whole + frac)
    ensures ParsePositiveDecimal(text) ==
      if Digits(whole + frac) > 0 then Ok(Rat(Digits(whole + frac), Pow10(|frac|))) else Err(InvalidExchangeRate)
  {
    hide TrimSpace, Split, Digits, Pow10;
    NumeralParts(body, whole, frac);
    assert body != "" && body[0] != '+' && body[0] != '-' by {
      if whole == "" {
        assert body[0] == '.';
      } else {
        assert body[0] == whole[0] && whole[0] in whole;
      }
    }
    assert ("+" + body)[1..] == body;
    if whole == "" {
      LeadingZero(whole, frac);
    }
  }

  /** Nothing else parses. */
  lemma {:induction false} OnlyNumeralsParse(text: string) returns (body: string, whole: string, frac: string)
    requires ParsePositiveDecimal(text).Ok?
    ensures Numeral(body, whole, frac) && (TrimSpace(text) == body || TrimSpace(text) == "+" + body)
  {
    hide TrimSpace, Split, Digits, Pow10;
    var trimmed := TrimSpace(text);
    body := if trimmed[0] == '+' then trimmed[1..] else trimmed;
    assert trimmed[0] == '+' ==> trimmed == "+" + body;
    var parts := Split(body, '.');
    whole, frac := parts[0], if |parts| == 2 then parts[1] else "";
    JoinSplit(body, '.');
    JoinParts(parts, '.');
    assert forall c :: c in whole ==> whole != "" && c in whole + frac;
  }

  lemma JoinParts(parts: seq<string>, sep: char)
    requires 1 <= |parts| <= 2
    ensures Join(parts, sep) == if |parts| == 1 then parts[0] else parts[0] + [sep] + parts[1]
  {
  }

  // ---------------------------------------------------------- settle amount

  /** The exact value before rounding is this numerator over this denominator. */
  function ExactNum(amount: nat, rate: Rat, settleExp: int): nat {
    amount * (rate.num * Pow10(settleExp))
  }

  function ExactDen(rate: Rat, payExp: int): nat {
    rate.den * Pow10(payExp)
  }

  /** What a cross-currency conversion must return: the nearest amount, when it is positive and fits. */
  function Converted(amount: nat, payExp: int, settleExp: int, rate: Rat, code: string): Result<Money, PriceError>
    requires rate.den > 0
  {
    var d := ExactDen(rate, payExp);
    PositiveProduct(rate.den, Pow10(payExp));
    var q := RoundHalfUp(ExactNum(amount, rate, settleExp), d);
    if q > MAX_INT64 || q == 0 then Err(InvalidAmount) else Ok(Money(q, code))
  }

  lemma PositiveProduct(a: nat, b: nat)
    requires a > 0 && b > 0
    ensures a * b > 0
  {
  }

  method RoundHalfUpRatToInt64(num: int, den: int) returns (r: Result<nat, PriceError>)
    requires den > 0
    ensures num < 0 ==> r == Err(InvalidAmount)
    ensures num >= 0 ==>
      r == if RoundHalfUp(num, den) > MAX_INT64 then Err(InvalidAmount) else Ok(RoundHalfUp(num, den))
  {
    if num < 0 {
      return Err(InvalidAmount);
    }
    var q, rem := num / den, num % den;
    if 2 * rem >= den {
      q := q + 1;
    }
    if q > MAX_INT64 {
      return Err(InvalidAmount);
    }
    return Ok(q);
  }

  method CalculateSettleAmount(pay: Money, payMeta: CurrencyMeta, settleMeta: CurrencyMeta, rate: Option<ExchangeRate>)
    returns (r: Result<Money, PriceError>)
    ensures r == SettleAmount(pay, payMeta, settleMeta, rate)
  {
    if pay.currency == settleMeta.code {
      return Ok(Money(pay.amount, settleMeta.code));
    }
    if rate.None? {
      return Err(InvalidExchangeRate);
    }
    if NormalizeCurrency(rate.value.from) != pay.currency || NormalizeCurrency(rate.value.to) != settleMeta.code {
      return Err(InvalidExchangeRate);
    }
    var parsed := ParsePositiveDecimal(rate.value.rate);
    if parsed.Err? {
      return Err(parsed.error);
    }
    var rateValue := parsed.value;
    var num, den := pay.amount, 1;
    den := den * Pow10(payMeta.minorExp);
    num, den := num * rateValue.num, den * rateValue.den;
    num := num * Pow10(settleMeta.minorExp);
    SourceFraction(pay.amount, rateValue, payMeta.minorExp, settleMeta.minorExp);
    var rounded := RoundHalfUpRatToInt64(num, den);
    if rounded.Err? {
      return Err(rounded.error);
    }
    if rounded.value == 0 {
      return Err(InvalidAmount);
    }
    return Ok(Money(rounded.value, settleMeta.code));
  }

  lemma SourceFraction(amount: int, rate: Rat, payExp: int, settleExp: int)
    requires rate.num > 0 && rate.den > 0
    ensures 1 * Pow10(payExp) * rate.den == ExactDen(rate, payExp) > 0
    ensures amount >= 0 ==> amount * rate.num * Pow10(settleExp) == ExactNum(amount, rate, settleExp)
    ensures amount < 0 ==> amount * rate.num * Pow10(settleExp) < 0
  {
    PositiveProduct(rate.den, Pow10(payExp));
    PositiveProduct(rate.num, Pow10(settleExp));
    var f := rate.num * Pow10(settleExp);
    assert amount * rate.num * Pow10(settleExp) == amount * f;
  }

  function SettleAmount(pay: Money, payMeta: CurrencyMeta, settleMeta: CurrencyMeta, rate: Option<ExchangeRate>)
    : Result<Money, PriceError>
  {
    if pay.currency == settleMeta.code then Ok(Money(pay.amount, settleMeta.code))
    else if rate.None? || NormalizeCurrency(rate.value.from) != pay.currency
      || NormalizeCurrency(rate.value.to) != settleMeta.code then Err(InvalidExchangeRate)
    else
      var parsed := ParsePositiveDecimal(rate.value.rate);
      if parsed.Err? then Err(parsed.error)
      else if pay.amount < 0 then Err(InvalidAmount)
      else Converted(pay.amount, payMeta.minorExp, settleMeta.minorExp, parsed.value, settleMeta.code)
  }

  /** A rate between the two currencies that writes a positive number. */
  predicate Usable(rate: Option<ExchangeRate>, pay: string, settle: string) {
    && rate.Some? && NormalizeCurrency(rate.value.from) == pay && NormalizeCurrency(rate.value.to) == settle
    && ParsePositiveDecimal(rate.value.rate).Ok?
  }

  /** `q` minor units are nearest to what the rate makes of the amount, and they fit. */
  predicate Settles(amount: int, payExp: int, settleExp: int, rate: Rat, q: int) {
    0 < q <= MAX_INT64 && IsNearest(amount * (rate.num * Pow10(settleExp)), rate.den * Pow10(payExp), q)
  }

  /** Within one currency the amount stays; otherwise it is the nearest one, if the rate is usable and the amount fits. */
  lemma {:induction false} SettlesIff(
    pay: Money, payMeta: CurrencyMeta, settleMeta: CurrencyMeta, rate: Option<ExchangeRate>)
    ensures pay.currency == settleMeta.code ==> SettleAmount(pay, payMeta, settleMeta, rate) == Ok(pay)
    ensures pay.currency != settleMeta.code && !Usable(rate, pay.currency, settleMeta.code) ==>
      SettleAmount(pay, payMeta, settleMeta, rate) == Err(InvalidExchangeRate)
    ensures pay.currency != settleMeta.code && Usable(rate, pay.currency, settleMeta.code) ==>
      var r, number := SettleAmount(pay, payMeta, settleMeta, rate), ParsePositiveDecimal(rate.value.rate).value;
      && (r.Err? ==> r == Err(InvalidAmount))
      && (r.Ok? <==>
            (pay.amount >= 0 && exists q :: Settles(pay.amount, payMeta.minorExp, settleMeta.minorExp, number, q)))
      && (r.Ok? ==> r.value.currency == settleMeta.code)
      && (r.Ok? ==> Settles(pay.amount, payMeta.minorExp, settleMeta.minorExp, number, r.value.amount))
  {
    hide NormalizeCurrency, TrimSpace, RoundHalfUp, Split, Digits, AllDigits, Pow10, IsNearest;
    if pay.currency != settleMeta.code && Usable(rate, pay.currency, settleMeta.code) && pay.amount >= 0 {
      var number := ParsePositiveDecimal(rate.value.rate).value;
      var n, d := ExactNum(pay.amount, number, settleMeta.minorExp), ExactDen(number, payMeta.minorExp);
      PositiveProduct(number.den, Pow10(payMeta.minorExp));
      forall q | IsNearest(n, d, q) ensures q == RoundHalfUp(n, d) {
        NearestUnique(n, d, q, RoundHalfUp(n, d));
      }
      var q := RoundHalfUp(n, d);
      assert 0 < q <= MAX_INT64 ==> Settles(pay.amount, payMeta.minorExp, settleMeta.minorExp, number, q);
    }
  }

  /** However the rate is written, the same number gives the same settle amount. */
  lemma {:induction false} RateWritingIrrelevant(amount: nat, payExp: int, settleExp: int, r: Rat, r': Rat, code: string)
    requires r.den > 0 && r'.den > 0 && r.num * r'.den == r'.num * r.den
    ensures Converted(amount, payExp, settleExp, r, code) == Converted(amount, payExp, settleExp, r', code)
  {
    hide RoundHalfUp, Pow10;
    var a, b := Pow10(payExp), Pow10(settleExp);
    PositiveProduct(r.den, a);
    PositiveProduct(r'.den, a);
    calc {
      amount * (r.num * b) * (r'.den * a);
      (r.num * r'.den) * (amount * a * b);
      (r'.num * r.den) * (amount * a * b);
      amount * (r'.num * b) * (r.den * a);
    }
    RatioDecides(ExactNum(amount, r, settleExp), ExactDen(r, payExp), ExactNum(amount, r', settleExp), ExactDen(r', payExp));
  }

  /** Paying more never settles less: it can only stop rounding to nothing, or start to overflow. */
  lemma {:induction false} PayMoreSettleMore(
    amount: nat, amount': nat, payExp: int, settleExp: int, rate: Rat, code: string)
    requires rate.den > 0 && amount <= amount'
    ensures
      var less, more := Converted(amount, payExp, settleExp, rate, code), Converted(amount', payExp, settleExp, rate, code);
      && (less.Ok? && more.Ok? ==> less.value.amount <= more.value.amount)
      && ExactDen(rate, payExp) > 0
      && (less.Ok? && more.Err? ==> RoundHalfUp(ExactNum(amount', rate, settleExp), ExactDen(rate, payExp)) > MAX_INT64)
      && (less.Err? && more.Ok? ==> RoundHalfUp(ExactNum(amount, rate, settleExp), ExactDen(rate, payExp)) == 0)
  {
    hide RoundHalfUp, Pow10;
    PositiveProduct(rate.den, Pow10(payExp));
    Scale(amount, amount', rate.num * Pow10(settleExp));
    Monotone(ExactNum(amount, rate, settleExp), ExactNum(amount', rate, settleExp), ExactDen(rate, payExp));
  }

  /** Converting there and back with exactly reciprocal rates returns the amount paid, when one minor
      unit paid is worth at least one minor unit settled. */
  lemma {:induction false} ReciprocalRatesReturn(amount: nat, payExp: int, settleExp: int, rate: Rat, back: Rat,
    code: string, payCode: string)
    requires 0 < amount <= MAX_INT64
    requires rate.num > 0 && rate.den > 0 && back.num > 0 && back.den > 0
    requires rate.num * back.num == rate.den * back.den
    requires rate.num * Pow10(settleExp) >= rate.den * Pow10(payExp)
    requires Converted(amount, payExp, settleExp, rate, code).Ok?
    ensures Converted(Converted(amount, payExp, settleExp, rate, code).value.amount, settleExp, payExp, back, payCode)
      == Ok(Money(amount, payCode))
  {
    hide RoundHalfUp, Pow10;
    var a, b := Pow10(payExp), Pow10(settleExp);
    var s, t, s', t' := rate.num * b, rate.den * a, back.num * a, back.den * b;
    PositiveProduct(rate.num, b);
    PositiveProduct(rate.den, a);
    PositiveProduct(back.num, a);
    PositiveProduct(back.den, b);
    var q := RoundHalfUp(amount * s, t);
    NothingLost(amount, s, t);
    ThereAndBackIs(amount, s, t);
    BackIsReciprocal(q, rate, back, a, b);
    RatioDecides(q * s', t', q * t, s);
  }

  lemma Rearranged(q: int, x: int, a: int, y: int, b: int)
    ensures (q * (x * a)) * (y * b) == q * ((y * x) * (a * b))
  {
    Regroup(q, x * a, y * b);
    Regroup(x * a, y, b);
    Regroup(y, x, a);
    Regroup(y * x, a, b);
  }

  lemma BackIsReciprocal(q: int, rate: Rat, back: Rat, a: int, b: int)
    requires rate.num * back.num == rate.den * back.den
    ensures (q * (back.num * a)) * (rate.num * b) == (q * (rate.den * a)) * (back.den * b)
  {
    Rearranged(q, back.num, a, rate.num, b);
    Rearranged(q, rate.den, a, back.den, b);
  }

  lemma ThereAndBackIs(p: nat, s: nat, t: nat)
    requires s > 0 && t > 0
    ensures ThereAndBack(p, s, t) == RoundHalfUp(RoundHalfUp(p * s, t) * t, s)
  {
  }

  // ------------------------------------------------------------- currencies

  function NormalizeCurrency(code: string): (r: string)
    ensures r != ""
  {
    var trimmed := TrimSpace(code);
    if trimmed == "" then DEFAULT_CURRENCY else ToUpper(trimmed)
  }

  lemma {:induction false} NormalizeFixed(code: string)
    ensures NormalizeCurrency(NormalizeCurrency(code)) == NormalizeCurrency(code)
  {
    hide TrimSpace, ToUpper;
    TrimUpperFixed(code);
    TrimFixed(DEFAULT_CURRENCY);
    assert ToUpper(DEFAULT_CURRENCY) == DEFAULT_CURRENCY;
  }

  // ---------------------------------------------------------------- pricing

  datatype Policy = Policy(
    defaultSettleCurrency: string,
    currencies: map<string, CurrencyMeta>,
    builtin: map<string, CurrencyMeta>,
    allowExplicitSettle: bool)

  datatype PaymentPricing = PaymentPricing(
    orderAmount: Money,
    payAmount: Money,
    settleAmount: Money,
    settleCurrency: string,
    exchangeRate: Option<ExchangeRate>,
    feeAmount: Option<Money>)

  const NO_MONEY := Money(0, "")

  /** Custom metadata first, then the built-in table. */
  function CurrencyMetaOf(p: Policy, code: string): Result<CurrencyMeta, PriceError> {
    var c := NormalizeCurrency(code);
    if c in p.currencies then
      var meta := p.currencies[c];
      if meta.minorExp < 0 then Err(InvalidCurrency)
      else Ok(meta.(code := if TrimSpace(meta.code) == "" then c else NormalizeCurrency(meta.code)))
    else if c in p.builtin then Ok(p.builtin[c])
    else Err(CurrencyMetaNotFound)
  }

  predicate Unset(m: Money) {
    m.amount == 0 && TrimSpace(m.currency) == ""
  }

  method NormalizePricing(p: Policy, input: PaymentPricing) returns (r: Result<PaymentPricing, PriceError>)
    ensures r == Normalized(p, input)
  {
    hide TrimSpace, ToUpper, CurrencyMetaOf, NormalizeCurrency, SettleAmount;
    var pricing := input;
    if pricing.payAmount.amount <= 0 {
      return Err(InvalidAmount);
    }
    var payCurrency := NormalizeCurrency(pricing.payAmount.currency);
    var settleCurrency := ToUpper(TrimSpace(pricing.settleCurrency));
    if p.defaultSettleCurrency != "" && TrimSpace(pricing.settleCurrency) == "" {
      settleCurrency := NormalizeCurrency(p.defaultSettleCurrency);
    }
    var payMeta := CurrencyMetaOf(p, payCurrency);
    if payMeta.Err? {
      return Err(payMeta.error);
    }
    var settleMeta := CurrencyMeta("", 0);
    if settleCurrency != "" {
      var meta := CurrencyMetaOf(p, settleCurrency);
      if meta.Err? {
        return Err(meta.error);
      }
      settleMeta := meta.value;
    }
    pricing := pricing.(payAmount := Money(pricing.payAmount.amount, payCurrency), settleCurrency := settleCurrency);
    if Unset(pricing.orderAmount) {
      pricing := pricing.(orderAmount := pricing.payAmount);
    } else {
      if pricing.orderAmount.amount <= 0 {
        return Err(InvalidAmount);
      }
      var orderCurrency := NormalizeCurrency(pricing.orderAmount.currency);
      pricing := pricing.(orderAmount := Money(pricing.orderAmount.amount, orderCurrency));
      var meta := CurrencyMetaOf(p, orderCurrency);
      if meta.Err? {
        return Err(meta.error);
      }
    }
    if settleCurrency != "" {
      var calculated := CalculateSettleAmount(pricing.payAmount, payMeta.value, settleMeta, pricing.exchangeRate);
      if calculated.Err? {
        return Err(calculated.error);
      }
      if Unset(pricing.settleAmount) {
        pricing := pricing.(settleAmount := calculated.value);
      } else {
        if pricing.settleAmount.amount <= 0 {
          return Err(InvalidAmount);
        }
        var given := Money(pricing.settleAmount.amount, NormalizeCurrency(pricing.settleAmount.currency));
        pricing := pricing.(settleAmount := given);
        if given.currency != settleCurrency {
          return Err(InvalidCurrency);
        }
        if !p.allowExplicitSettle && given != calculated.value {
          return Err(SettleAmountMismatch);
        }
      }
    } else if pricing.settleAmount != NO_MONEY || pricing.exchangeRate.Some? {
      return Err(InvalidRequest);
    }
    if pricing.feeAmount.Some? {
      var fee := pricing.feeAmount.value;
      if fee.amount < 0 {
        return Err(InvalidAmount);
      }
      fee := fee.(currency := NormalizeCurrency(fee.currency));
      pricing := pricing.(feeAmount := Some(fee));
      var meta := CurrencyMetaOf(p, fee.currency);
      if meta.Err? {
        return Err(meta.error);
      }
    }
    return Ok(pricing);
  }

  // The same verdict, one part of the pricing at a time.

  function SettleCurrencyOf(p: Policy, input: PaymentPricing): string {
    if p.defaultSettleCurrency != "" && TrimSpace(input.settleCurrency) == "" then NormalizeCurrency(p.defaultSettleCurrency)
    else ToUpper(TrimSpace(input.settleCurrency))
  }

  function OrderOf(p: Policy, order: Money, pay: Money): Result<Money, PriceError> {
    if Unset(order) then Ok(pay)
    else if order.amount <= 0 then Err(InvalidAmount)
    else
      var m := Money(order.amount, NormalizeCurrency(order.currency));
      if CurrencyMetaOf(p, m.currency).Err? then Err(CurrencyMetaOf(p, m.currency).error) else Ok(m)
  }

  function SettleOf(p: Policy, given: Money, settle: string, calculated: Money): Result<Money, PriceError> {
    if Unset(given) then Ok(calculated)
    else if given.amount <= 0 then Err(InvalidAmount)
    else
      var m := Money(given.amount, NormalizeCurrency(given.currency));
      if m.currency != settle then Err(InvalidCurrency)
      else if !p.allowExplicitSettle && m != calculated then Err(SettleAmountMismatch)
      else Ok(m)
  }

  function FeeOf(p: Policy, fee: Option<Money>): Result<Option<Money>, PriceError> {
    if fee.None? then Ok(None)
    else if fee.value.amount < 0 then Err(InvalidAmount)
    else
      var m := Money(fee.value.amount, NormalizeCurrency(fee.value.currency));
      if CurrencyMetaOf(p, m.currency).Err? then Err(CurrencyMetaOf(p, m.currency).error) else Ok(Some(m))
  }

  /** The settle amount for a normalised pay amount; nothing when there is no settle currency. */
  function SettlementOf(p: Policy, pay: Money, payMeta: CurrencyMeta, settle: string, input: PaymentPricing)
    : Result<Money, PriceError>
  {
    if settle == "" then
      if input.settleAmount != NO_MONEY || input.exchangeRate.Some? then Err(InvalidRequest) else Ok(NO_MONEY)
    else
      var settleMeta := CurrencyMetaOf(p, settle);
      if settleMeta.Err? then Err(settleMeta.error)
      else
        var calculated := SettleAmount(pay, payMeta, settleMeta.value, input.exchangeRate);
        if calculated.Err? then Err(calculated.error)
        else SettleOf(p, input.settleAmount, settle, calculated.value)
  }

  function Normalized(p: Policy, input: PaymentPricing): Result<PaymentPricing, PriceError> {
    if input.payAmount.amount <= 0 then Err(InvalidAmount)
    else
      var pay := Money(input.payAmount.amount, NormalizeCurrency(input.payAmount.currency));
      var settle := SettleCurrencyOf(p, input);
      var payMeta := CurrencyMetaOf(p, pay.currency);
      if payMeta.Err? then Err(payMeta.error)
      else if settle != "" && CurrencyMetaOf(p, settle).Err? then Err(CurrencyMetaOf(p, settle).error)
      else
        var order := OrderOf(p, input.orderAmount, pay);
        if order.Err? then Err(order.error)
        else
          var settlement := SettlementOf(p, pay, payMeta.value, settle, input);
          if settlement.Err? then Err(settlement.error)
          else
            var fee := FeeOf(p, input.feeAmount);
            if fee.Err? then Err(fee.error)
            else Ok(PaymentPricing(order.value, pay, settlement.value, settle, input.exchangeRate, fee.value))
  }

  /** There is metadata for a code: custom with a usable scale, or else built in. */
  predicate Listed(p: Policy, code: string) {
    var c := NormalizeCurrency(code);
    if c in p.currencies then p.currencies[c].minorExp >= 0 else c in p.builtin
  }

  lemma ListedMeans(p: Policy, code: string)
    ensures CurrencyMetaOf(p, code).Ok? <==> Listed(p, code)
    ensures
      var c := NormalizeCurrency(code);
      CurrencyMetaOf(p, code).Ok? ==>
        CurrencyMetaOf(p, code).value.minorExp == if c in p.currencies then p.currencies[c].minorExp else p.builtin[c].minorExp
    ensures
      var c := NormalizeCurrency(code);
      CurrencyMetaOf(p, code).Ok? ==>
        && (c !in p.currencies ==> CurrencyMetaOf(p, code).value.code == p.builtin[c].code)
        && (c in p.currencies && TrimSpace(p.currencies[c].code) == "" ==> CurrencyMetaOf(p, code).value.code == c)
        && (c in p.currencies && TrimSpace(p.currencies[c].code) != "" ==>
              CurrencyMetaOf(p, code).value.code == NormalizeCurrency(p.currencies[c].code))
  {
    hide NormalizeCurrency, TrimSpace;
  }


  /** The calculated settle amount, when both currencies are listed. */
  function Calculated(p: Policy, input: PaymentPricing, settle: string): Result<Money, PriceError> {
    var payCode := NormalizeCurrency(input.payAmount.currency);
    var payMeta, settleMeta := CurrencyMetaOf(p, payCode), CurrencyMetaOf(p, settle);
    if payMeta.Err? || settleMeta.Err? then Err(CurrencyMetaNotFound)
    else SettleAmount(Money(input.payAmount.amount, payCode), payMeta.value, settleMeta.value, input.exchangeRate)
  }

  /** The settlement that is asked for can be had; a different amount than calculated only where the policy allows it. */
  predicate SettlesWell(p: Policy, input: PaymentPricing, settle: string) {
    if settle == "" then input.settleAmount == NO_MONEY && input.exchangeRate.None?
    else
      && Calculated(p, input, settle).Ok?
      && (|| Unset(input.settleAmount)
          || (&& input.settleAmount.amount > 0 && NormalizeCurrency(input.settleAmount.currency) == settle
              && (p.allowExplicitSettle || Calculated(p, input, settle).value == Money(input.settleAmount.amount, settle))))
  }

  /** Exactly which pricings are accepted. */
  predicate Acceptable(p: Policy, input: PaymentPricing) {
    && input.payAmount.amount > 0 && Listed(p, NormalizeCurrency(input.payAmount.currency))
    && (Unset(input.orderAmount) ||
         (input.orderAmount.amount > 0 && Listed(p, NormalizeCurrency(input.orderAmount.currency))))
    && SettlesWell(p, input, SettleCurrencyOf(p, input))
    && (input.feeAmount.Some? ==>
          input.feeAmount.value.amount >= 0 && Listed(p, NormalizeCurrency(input.feeAmount.value.currency)))
  }

  /** The default settles only what names no settle currency itself. */
  lemma {:induction false} SettleCurrencyTells(p: Policy, input: PaymentPricing)
    ensures TrimSpace(input.settleCurrency) != "" ==> SettleCurrencyOf(p, input) == ToUpper(TrimSpace(input.settleCurrency))
    ensures TrimSpace(input.settleCurrency) == "" && p.defaultSettleCurrency == "" ==> SettleCurrencyOf(p, input) == ""
    ensures TrimSpace(input.settleCurrency) == "" && p.defaultSettleCurrency != "" ==>
      SettleCurrencyOf(p, input) == NormalizeCurrency(p.defaultSettleCurrency) != ""
  {
    hide TrimSpace;
  }

  /** Which pricings are accepted, and what becomes of each field; a given settle amount stays as it is. */
  lemma {:induction false} NormalizedIff(p: Policy, input: PaymentPricing)
    ensures Normalized(p, input).Ok? <==> Acceptable(p, input)
    ensures Normalized(p, input).Ok? ==>
      var r, settle := Normalized(p, input).value, SettleCurrencyOf(p, input);
      && r.payAmount == Money(input.payAmount.amount, NormalizeCurrency(input.payAmount.currency))
      && (Unset(input.orderAmount) ==> r.orderAmount == r.payAmount)
      && (!Unset(input.orderAmount) ==>
            r.orderAmount == Money(input.orderAmount.amount, NormalizeCurrency(input.orderAmount.currency)))
      && r.settleCurrency == settle && r.exchangeRate == input.exchangeRate
      && (settle == "" ==> r.settleAmount == NO_MONEY)
      && (settle != "" && Unset(input.settleAmount) ==> Ok(r.settleAmount) == Calculated(p, input, settle))
      && (settle != "" && !Unset(input.settleAmount) ==> r.settleAmount == Money(input.settleAmount.amount, settle))
      && (input.feeAmount.None? ==> r.feeAmount.None?)
      && (input.feeAmount.Some? ==>
            r.feeAmount == Some(Money(input.feeAmount.value.amount, NormalizeCurrency(input.feeAmount.value.currency))))
  {
    hide NormalizeCurrency, TrimSpace, ToUpper, SettleAmount, CurrencyMetaOf, Listed;
    var settle := SettleCurrencyOf(p, input);
    ListedMeans(p, NormalizeCurrency(input.payAmount.currency));
    ListedMeans(p, NormalizeCurrency(input.orderAmount.currency));
    ListedMeans(p, settle);
    if input.feeAmount.Some? {
      ListedMeans(p, NormalizeCurrency(input.feeAmount.value.currency));
    }
  }

  lemma NoMismatch(pay: Money, payMeta: CurrencyMeta, settleMeta: CurrencyMeta, rate: Option<ExchangeRate>)
    ensures SettleAmount(pay, payMeta, settleMeta, rate) != Err(SettleAmountMismatch)
  {
    hide NormalizeCurrency, TrimSpace, RoundHalfUp, Split, Digits, AllDigits, Pow10;
  }

  lemma MetaAlike(p: Policy, q: Policy, code: string)
    requires q == p.(allowExplicitSettle := true)
    ensures CurrencyMetaOf(p, code) == CurrencyMetaOf(q, code) != Err(SettleAmountMismatch)
  {
    hide NormalizeCurrency, TrimSpace;
  }

  /** A settle amount is refused as a mismatch exactly when a policy that allows explicit ones would settle for it. */
  lemma {:induction false} MismatchIff(p: Policy, input: PaymentPricing)
    ensures
      var plain := input.(feeAmount := None);
      Normalized(p, input) == Err(SettleAmountMismatch) <==>
        !Acceptable(p, plain) && Acceptable(p.(allowExplicitSettle := true), plain)
  {
    hide NormalizeCurrency, TrimSpace, ToUpper, SettleAmount, CurrencyMetaOf, Acceptable, Unset;
    var plain, q := input.(feeAmount := None), p.(allowExplicitSettle := true);
    NormalizedIff(p, plain);
    NormalizedIff(q, plain);
    forall code ensures CurrencyMetaOf(p, code) == CurrencyMetaOf(q, code) != Err(SettleAmountMismatch) {
      MetaAlike(p, q, code);
    }
    forall pay, payMeta, settleMeta, rate
      ensures SettleAmount(pay, payMeta, settleMeta, rate) != Err(SettleAmountMismatch)
    {
      NoMismatch(pay, payMeta, settleMeta, rate);
    }
  }

  lemma {:induction false} SettleCurrencyFixed(p: Policy, input: PaymentPricing, output: PaymentPricing)
    requires output.settleCurrency == SettleCurrencyOf(p, input)
    ensures SettleCurrencyOf(p, output) == output.settleCurrency
  {
    hide TrimSpace, ToUpper;
    TrimUpperFixed(input.settleCurrency);
    TrimUpperFixed(p.defaultSettleCurrency);
    TrimFixed(DEFAULT_CURRENCY);
    assert ToUpper(DEFAULT_CURRENCY) == DEFAULT_CURRENCY;
  }

  lemma {:induction false} SetMoney(m: Money, code: string)
    requires m.amount > 0 && m.currency == NormalizeCurrency(code)
    ensures !Unset(m) && NormalizeCurrency(m.currency) == m.currency
  {
    NormalizeFixed(code);
  }

  lemma UnsetCurrency(m: Money)
    requires m.amount > 0
    ensures !Unset(m)
  {
  }

  lemma {:induction false} SettleAmountPositive(pay: Money, payMeta: CurrencyMeta, settleMeta: CurrencyMeta,
    rate: Option<ExchangeRate>)
    requires pay.amount > 0 && SettleAmount(pay, payMeta, settleMeta, rate).Ok?
    ensures SettleAmount(pay, payMeta, settleMeta, rate).value.amount > 0
    ensures SettleAmount(pay, payMeta, settleMeta, rate).value.currency == settleMeta.code
  {
    hide ParsePositiveDecimal, RoundHalfUp, NormalizeCurrency, ExactNum, ExactDen;
  }

  /** Settling again with the accepted amount is accepted exactly when it names the settle currency. */
  lemma {:induction false} SettleAgain(p: Policy, given: Money, settle: string, code: string, calculated: Money)
    requires settle == NormalizeCurrency(code) && calculated.amount > 0
    requires SettleOf(p, given, settle, calculated).Ok?
    ensures
      var m := SettleOf(p, given, settle, calculated).value;
      SettleOf(p, m, settle, calculated) == Ok(m) <==> m.currency == settle
  {
    hide TrimSpace, ToUpper, NormalizeCurrency, Unset;
    var m := SettleOf(p, given, settle, calculated).value;
    if m.currency == settle {
      SetMoney(m, code);
    } else {
      UnsetCurrency(m);
    }
  }

  /** Whether the settle amount ends up in the settle currency: it was given explicitly, or the metadata
      of the settle currency carries that currency's own code. */
  predicate SettlesInItsCurrency(p: Policy, input: PaymentPricing) {
    var settle := SettleCurrencyOf(p, input);
    settle == "" || !Unset(input.settleAmount)
    || (CurrencyMetaOf(p, settle).Ok? && CurrencyMetaOf(p, settle).value.code == settle)
  }

  /** Normalising a normalised pricing changes nothing, exactly when it settles in its own currency. Custom
      metadata that renames a currency breaks this: the amount filled in carries the new name, and a second
      pass refuses it. */
  lemma {:induction false} NormalizedTwice(p: Policy, input: PaymentPricing)
    requires Normalized(p, input).Ok?
    ensures
      var output := Normalized(p, input).value;
      Normalized(p, output) == Ok(output) <==> SettlesInItsCurrency(p, input)
  {
    hide TrimSpace, ToUpper, SettleAmount, Unset, CurrencyMetaOf, NormalizeCurrency;
    var output := Normalized(p, input).value;
    SettleCurrencyFixed(p, input, output);
    NormalizeFixed(input.payAmount.currency);
    SetMoney(output.payAmount, input.payAmount.currency);
    OrderFixed(p, input.orderAmount, output.payAmount, input.payAmount.currency);
    FeeFixed(p, input.feeAmount);
    if output.settleCurrency != "" {
      var payMeta := CurrencyMetaOf(p, output.payAmount.currency).value;
      var settleMeta := CurrencyMetaOf(p, output.settleCurrency).value;
      SettleAmountPositive(output.payAmount, payMeta, settleMeta, input.exchangeRate);
      var calculated := SettleAmount(output.payAmount, payMeta, settleMeta, input.exchangeRate).value;
      NormalForm(p, input);
      SettleAgain(p, input.settleAmount, output.settleCurrency, output.settleCurrency, calculated);
    }
  }

  /** Such metadata: dollars that carry the yuan's code. */
  lemma {:induction false} RenamedCurrency() returns (p: Policy, input: PaymentPricing)
    ensures Normalized(p, input).Ok?
    ensures Normalized(p, Normalized(p, input).value) != Normalized(p, input)
  {
    hide TrimSpace, ToUpper, Pow10;
    var yuan := CurrencyMeta("CNY", 2);
    p := Policy("", map["CNY" := yuan, "USD" := yuan], map[], false);
    input := PaymentPricing(NO_MONEY, Money(100, "CNY"), NO_MONEY, "USD", None, None);
    TrimFixed("");
    TrimFixed("CNY");
    TrimFixed("USD");
    assert ToUpper("CNY") == "CNY" && ToUpper("USD") == "USD";
    NormalizedTwice(p, input);
  }

  lemma {:induction false} NormalForm(p: Policy, input: PaymentPricing)
    requires SettleCurrencyOf(p, input) != ""
    ensures NormalizeCurrency(SettleCurrencyOf(p, input)) == SettleCurrencyOf(p, input)
  {
    hide TrimSpace, ToUpper;
    TrimUpperFixed(input.settleCurrency);
    NormalizeFixed(p.defaultSettleCurrency);
  }

  lemma {:induction false} OrderFixed(p: Policy, order: Money, pay: Money, payCode: string)
    requires pay.amount > 0 && pay.currency == NormalizeCurrency(payCode) && CurrencyMetaOf(p, pay.currency).Ok?
    requires OrderOf(p, order, pay).Ok?
    ensures OrderOf(p, OrderOf(p, order, pay).value, pay) == OrderOf(p, order, pay)
  {
    hide TrimSpace, ToUpper, CurrencyMetaOf, NormalizeCurrency;
    var m := OrderOf(p, order, pay).value;
    SetMoney(m, if Unset(order) then payCode else order.currency);
  }

  lemma {:induction false} FeeFixed(p: Policy, fee: Option<Money>)
    requires FeeOf(p, fee).Ok?
    ensures FeeOf(p, FeeOf(p, fee).value) == FeeOf(p, fee)
  {
    hide TrimSpace, ToUpper, CurrencyMetaOf, NormalizeCurrency;
    if fee.Some? {
      NormalizeFixed(fee.value.currency);
    }
  }
}
