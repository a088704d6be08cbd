/** Merging what a payment provider reports about a settlement, update by update. */
module SettlementMerge {
  import opened Prelude
  import opened Pricing

  // ------------------------------------------------------------ on values

  /** What is known; an empty string or None stands for unknown. */
  datatype Facts = Facts(
    currency: string,
    amount: Option<Money>,
    netAmount: Option<Money>,
    feeAmount: Option<Money>,
    exchangeRate: Option<ExchangeRate>,
    reference: string,
    updatedAt: Option<int>)

  const NOTHING_KNOWN := Facts("", None, None, None, None, "", None)

  predicate UsableMoney(m: Option<Money>) {
    m.Some? && m.value.currency != "" && m.value.amount >= 0
  }

  function PickMoney(known: Option<Money>, update: Option<Money>, overwrite: bool): Option<Money> {
    if UsableMoney(update) && (known.None? || overwrite) then update else known
  }

  function PickRate(known: Option<ExchangeRate>, update: Option<ExchangeRate>, overwrite: bool): Option<ExchangeRate> {
    if update.Some? && (known.None? || overwrite) then update else known
  }

  function PickString(known: string, update: string, overwrite: bool): string {
    if update != "" && (known == "" || overwrite) then update else known
  }

  predicate IsOlder(update: Facts, known: Facts) {
    known.updatedAt.Some? && update.updatedAt.Some? && update.updatedAt.value < known.updatedAt.value
  }

  /** An update overwrites only when it is dated and nothing as recent is known. */
  predicate Overwrites(update: Facts, known: Facts) {
    update.updatedAt.Some? && (known.updatedAt.None? || update.updatedAt.value > known.updatedAt.value)
  }

  function Combined(known: Facts, update: Facts): Facts {
    var o := Overwrites(update, known);
    Facts(
      PickString(known.currency, update.currency, o),
      PickMoney(known.amount, update.amount, o),
      PickMoney(known.netAmount, update.netAmount, o),
      PickMoney(known.feeAmount, update.feeAmount, o),
      PickRate(known.exchangeRate, update.exchangeRate, o),
      PickString(known.reference, update.reference, o),
      if o then update.updatedAt else known.updatedAt)
  }

  predicate Conflicting(f: Facts) {
    f.amount.Some? && f.currency != "" && f.amount.value.currency != f.currency
  }

  /** Older or conflicting updates are rejected as a whole. */
  predicate Rejected(known: Facts, update: Facts) {
    IsOlder(update, known) || Conflicting(Combined(known, update))
  }

  function Merged(current: Option<Facts>, incoming: Option<Facts>): Option<Facts> {
    if incoming.None? then current
    else
      var known := if current.Some? then current.value else NOTHING_KNOWN;
      if Rejected(known, incoming.value) then current else Some(Combined(known, incoming.value))
  }

  function MergeAll(current: Option<Facts>, updates: seq<Option<Facts>>): Option<Facts> {
    if updates == [] then current else Merged(MergeAll(current, updates[..|updates| - 1]), updates[|updates| - 1])
  }

  // ------------------------------------------------------------- what holds

  /** Everything `a` knows, `b` knows too, and time has not gone back. */
  ghost predicate NoLess(a: Option<Facts>, b: Option<Facts>) {
    a.Some? ==>
      && b.Some?
      && (a.value.currency != "" ==> b.value.currency != "")
      && (a.value.reference != "" ==> b.value.reference != "")
      && (a.value.amount.Some? ==> b.value.amount.Some?)
      && (a.value.netAmount.Some? ==> b.value.netAmount.Some?)
      && (a.value.feeAmount.Some? ==> b.value.feeAmount.Some?)
      && (a.value.exchangeRate.Some? ==> b.value.exchangeRate.Some?)
      && (a.value.updatedAt.Some? ==> b.value.updatedAt.Some? && a.value.updatedAt.value <= b.value.updatedAt.value)
  }

  ghost predicate Consistent(f: Option<Facts>) {
    f.Some? ==> !Conflicting(f.value)
  }

  /** Over any sequence of merges nothing known is forgotten, time never goes back, and the amount
      keeps carrying the settlement currency. */
  lemma {:induction false} KnowledgeGrows(current: Option<Facts>, updates: seq<Option<Facts>>, i: nat)
    requires i <= |updates|
    ensures NoLess(MergeAll(current, updates[..i]), MergeAll(current, updates))
    ensures Consistent(current) ==> Consistent(MergeAll(current, updates))
    decreases |updates|
  {
    if i < |updates| {
      var front := updates[..|updates| - 1];
      assert front[..i] == updates[..i];
      KnowledgeGrows(current, front, i);
    } else {
      assert updates[..i] == updates;
      if i > 0 {
        KnowledgeGrows(current, updates[..i - 1], 0);
      }
    }
  }

  /** Delivering an update twice in a row is delivering it once. */
  lemma {:induction false} MergedTwice(current: Option<Facts>, update: Option<Facts>)
    ensures Merged(Merged(current, update), update) == Merged(current, update)
  {
    if update.Some? {
      var known := if current.Some? then current.value else NOTHING_KNOWN;
      if !Rejected(known, update.value) {
        var once := Combined(known, update.value);
        assert Combined(once, update.value) == once;
      }
    }
  }

  /** What an update makes of one fact: it replaces or fills when dated later, else it fills what is unknown. */
  ghost predicate Taken<T>(known: Option<T>, update: Option<T>, usable: bool, later: bool, r: Option<T>) {
    && (usable && later ==> r == update)
    && (usable && !later ==> r == if known.Some? then known else update)
    && (!usable ==> r == known)
  }

  ghost predicate TakenText(known: string, update: string, later: bool, r: string) {
    && (update != "" && later ==> r == update)
    && (update != "" && !later ==> r == if known != "" then known else update)
    && (update == "" ==> r == known)
  }

  /** Money is usable when it names a currency and is not negative. */
  predicate Reports(m: Option<Money>) {
    m.Some? && m.value.amount >= 0 && m.value.currency != ""
  }

  /**
   * The facts after an update, by whether it is dated later than what is known (or dated, when that is undated).
   * It is refused, as a whole, only if it is dated earlier, or if the amount would carry another currency.
   */
  lemma {:induction false} MergeTells(current: Option<Facts>, update: Facts) returns (r: Facts)
    ensures
      var known := if current.Some? then current.value else NOTHING_KNOWN;
      var later := match (update.updatedAt, known.updatedAt)
        case (Some(now), Some(before)) => now > before
        case (Some(_), None) => true
        case (None, _) => false;
      var earlier := update.updatedAt.Some? && known.updatedAt.Some? && update.updatedAt.value < known.updatedAt.value;
      && TakenText(known.currency, update.currency, later, r.currency)
      && TakenText(known.reference, update.reference, later, r.reference)
      && Taken(known.amount, update.amount, Reports(update.amount), later, r.amount)
      && Taken(known.netAmount, update.netAmount, Reports(update.netAmount), later, r.netAmount)
      && Taken(known.feeAmount, update.feeAmount, Reports(update.feeAmount), later, r.feeAmount)
      && Taken(known.exchangeRate, update.exchangeRate, update.exchangeRate.Some?, later, r.exchangeRate)
      && r.updatedAt == (if later then update.updatedAt else known.updatedAt)
      && Merged(current, Some(update)) ==
         if earlier || (r.amount.Some? && r.currency != "" && r.amount.value.currency != r.currency) then current else Some(r)
  {
    r := Combined(if current.Some? then current.value else NOTHING_KNOWN, update);
  }

  lemma {:induction false} MergeAllConcat(current: Option<Facts>, a: seq<Option<Facts>>, b: seq<Option<Facts>>)
    ensures MergeAll(current, a + b) == MergeAll(MergeAll(current, a), b)
  {
    hide Merged;
    if b == [] {
      assert a + b == a;
    } else {
      MergeAllConcat(current, a, b[..|b| - 1]);
      assert (a + b)[..|a + b| - 1] == a + b[..|b| - 1];
    }
  }

  /** A delivery older than what is known when it arrives might as well not have arrived, whatever follows. */
  lemma {:induction false} LateDeliveryIgnored(
    current: Option<Facts>, before: seq<Option<Facts>>, late: Facts, after: seq<Option<Facts>>)
    requires MergeAll(current, before).Some? && IsOlder(late, MergeAll(current, before).value)
    ensures MergeAll(current, before + [Some(late)] + after) == MergeAll(current, before + after)
  {
    assert (before + [Some(late)])[..|before|] == before;
    MergeAllConcat(current, before + [Some(late)], after);
    MergeAllConcat(current, before, after);
  }

  /** Updates delivered in order, none rejected. */
  ghost predicate InOrder(known: Facts, updates: seq<Facts>) {
    updates == [] ||
      var front := updates[..|updates| - 1];
      && InOrder(known, front)
      && Overwrites(updates[|updates| - 1], Latest(known, front))
      && !Rejected(Latest(known, front), updates[|updates| - 1])
  }

  /** Each fact taken from the last update that reports it. */
  ghost function Latest(known: Facts, updates: seq<Facts>): Facts {
    if updates == [] then known
    else
      var f, u := Latest(known, updates[..|updates| - 1]), updates[|updates| - 1];
      Facts(
        if u.currency != "" then u.currency else f.currency,
        if UsableMoney(u.amount) then u.amount else f.amount,
        if UsableMoney(u.netAmount) then u.netAmount else f.netAmount,
        if UsableMoney(u.feeAmount) then u.feeAmount else f.feeAmount,
        if u.exchangeRate.Some? then u.exchangeRate else f.exchangeRate,
        if u.reference != "" then u.reference else f.reference,
        u.updatedAt)
  }

  function AllSome(updates: seq<Facts>): (r: seq<Option<Facts>>)
    ensures |r| == |updates| && forall i :: 0 <= i < |r| ==> r[i] == Some(updates[i])
  {
    seq(|updates|, i requires 0 <= i < |updates| => Some(updates[i]))
  }

  /** Of updates delivered in order, the last to report a fact decides it. */
  lemma {:induction false} LastWriterWins(known: Facts, updates: seq<Facts>)
    requires InOrder(known, updates)
    ensures MergeAll(Some(known), AllSome(updates)) == Some(Latest(known, updates))
  {
    if updates != [] {
      var front := updates[..|updates| - 1];
      LastWriterWins(known, front);
      assert AllSome(updates)[..|updates| - 1] == AllSome(front);
    }
  }

  // ------------------------------------------------------------- on the heap

  /** A pointed-to value; the code copies such values and never writes through the pointer. */
  class Box<T> {
    const value: T

    constructor (v: T)
      ensures value == v
    {
      value := v;
    }
  }

  class ProviderSettlement {
    var currency: string
    var amount: Box?<Money>
    var netAmount: Box?<Money>
    var feeAmount: Box?<Money>
    var exchangeRate: Box?<ExchangeRate>
    var reference: string
    var updatedAt: Box?<int>

    constructor (currency: string, amount: Box?<Money>, netAmount: Box?<Money>, feeAmount: Box?<Money>,
      exchangeRate: Box?<ExchangeRate>, reference: string, updatedAt: Box?<int>)
      ensures this.currency == currency && this.reference == reference
      ensures this.amount == amount && this.netAmount == netAmount && this.feeAmount == feeAmount
      ensures this.exchangeRate == exchangeRate && this.updatedAt == updatedAt
      ensures Known() == Facts(currency, Unbox(amount), Unbox(netAmount), Unbox(feeAmount), Unbox(exchangeRate),
        reference, Unbox(updatedAt))
    {
      this.currency, this.amount, this.netAmount, this.feeAmount := currency, amount, netAmount, feeAmount;
      this.exchangeRate, this.reference, this.updatedAt := exchangeRate, reference, updatedAt;
    }

    ghost function Known(): Facts
      reads this
    {
      Facts(currency, Unbox(amount), Unbox(netAmount), Unbox(feeAmount), Unbox(exchangeRate), reference, Unbox(updatedAt))
    }
  }

  ghost function Unbox<T>(b: Box?<T>): Option<T>
  {
    if b == null then None else Some(b.value)
  }

  ghost function View(s: ProviderSettlement?): Option<Facts>
    reads s
  {
    if s == null then None else Some(s.Known())
  }

  /** The pointer to keep: a copy of the update, or what is there. */
  method MergeMoney(dst: Box?<Money>, src: Box?<Money>, overwrite: bool) returns (r: Box?<Money>)
    ensures Unbox(r) == PickMoney(Unbox(dst), Unbox(src), overwrite)
  {
    if src != null && src.value.currency != "" && src.value.amount >= 0 && (dst == null || overwrite) {
      r := new Box(src.value);
    } else {
      r := dst;
    }
  }

  method MergeRate(dst: Box?<ExchangeRate>, src: Box?<ExchangeRate>, overwrite: bool) returns (r: Box?<ExchangeRate>)
    ensures Unbox(r) == PickRate(Unbox(dst), Unbox(src), overwrite)
  {
    if src != null && (dst == null || overwrite) {
      r := new Box(src.value);
    } else {
      r := dst;
    }
  }

  method MergeTime(dst: Box?<int>, src: Box?<int>, overwrite: bool) returns (r: Box?<int>)
    ensures Unbox(r) == if src != null && overwrite then Unbox(src) else Unbox(dst)
  {
    if src != null && overwrite {
      r := new Box(src.value);
    } else {
      r := dst;
    }
  }

  /** What the picked parts amount to: the merged facts, unless they conflict. */
  lemma MergedParts(current: Option<Facts>, update: Facts, f: Facts)
    requires
      var known := if current.Some? then current.value else NOTHING_KNOWN;
      var o := Overwrites(update, known);
      && !IsOlder(update, known)
      && f.currency == (if update.currency != "" && (known.currency == "" || o) then update.currency else known.currency)
      && f.reference == (if update.reference != "" && (known.reference == "" || o) then update.reference else known.reference)
      && f.amount == PickMoney(known.amount, update.amount, o)
      && f.netAmount == PickMoney(known.netAmount, update.netAmount, o)
      && f.feeAmount == PickMoney(known.feeAmount, update.feeAmount, o)
      && f.exchangeRate == PickRate(known.exchangeRate, update.exchangeRate, o)
      && f.updatedAt == if o then update.updatedAt else known.updatedAt
    ensures Merged(current, Some(update)) ==
      if f.amount.Some? && f.currency != "" && f.amount.value.currency != f.currency then current else Some(f)
  {
  }

  lemma MergedOlder(current: Option<Facts>, update: Facts)
    requires current.Some? && IsOlder(update, current.value)
    ensures Merged(current, Some(update)) == current
  {
  }

  lemma MergedNothing(current: Option<Facts>)
    ensures Merged(current, None) == current
  {
  }

  /** Returns `current` itself when the update is empty, older or conflicting, and a new object otherwise.
      Nothing that existed before is written. */
  method MergeProviderSettlement(current: ProviderSettlement?, incoming: ProviderSettlement?)
    returns (r: ProviderSettlement?)
    ensures View(r) == Merged(View(current), View(incoming))
    ensures r == current || fresh(r)
  {
    hide PickMoney, PickRate, UsableMoney, PickString, Combined, Merged, Conflicting;
    if incoming == null {
      MergedNothing(View(current));
      return current;
    }
    ghost var known := if current == null then NOTHING_KNOWN else current.Known();
    ghost var update := incoming.Known();
    // The merged copy; it becomes an object of its own only when it is returned.
    var currency, reference := "", "";
    var amount: Box?<Money>, netAmount: Box?<Money>, feeAmount: Box?<Money> := null, null, null;
    var exchangeRate: Box?<ExchangeRate>, updatedAt: Box?<int> := null, null;
    if current != null {
      currency, amount, netAmount, feeAmount := current.currency, current.amount, current.netAmount, current.feeAmount;
      exchangeRate, reference, updatedAt := current.exchangeRate, current.reference, current.updatedAt;
    }
    var newer := updatedAt == null || (incoming.updatedAt != null && incoming.updatedAt.value > updatedAt.value);
    if updatedAt != null && incoming.updatedAt != null && incoming.updatedAt.value < updatedAt.value {
      MergedOlder(View(current), update);
      return current;
    }
    var overwrite := newer && incoming.updatedAt != null;
    assert overwrite == Overwrites(update, known) && !IsOlder(update, known);
    currency := if incoming.currency != "" && (currency == "" || overwrite) then incoming.currency else currency;
    amount := MergeMoney(amount, incoming.amount, overwrite);
    assert Unbox(amount) == PickMoney(known.amount, update.amount, overwrite);
    netAmount := MergeMoney(netAmount, incoming.netAmount, overwrite);
    assert Unbox(netAmount) == PickMoney(known.netAmount, update.netAmount, overwrite);
    feeAmount := MergeMoney(feeAmount, incoming.feeAmount, overwrite);
    assert Unbox(feeAmount) == PickMoney(known.feeAmount, update.feeAmount, overwrite);
    exchangeRate := MergeRate(exchangeRate, incoming.exchangeRate, overwrite);
    assert Unbox(exchangeRate) == PickRate(known.exchangeRate, update.exchangeRate, overwrite);
    reference := if incoming.reference != "" && (reference == "" || overwrite) then incoming.reference else reference;
    updatedAt := MergeTime(updatedAt, incoming.updatedAt, overwrite);
    ghost var combined := Facts(currency, Unbox(amount), Unbox(netAmount), Unbox(feeAmount), Unbox(exchangeRate),
      reference, Unbox(updatedAt));
    MergedParts(View(current), update, combined);
    if amount != null && currency != "" && amount.value.currency != currency {
      return current;
    }
    r := new ProviderSettlement(currency, amount, netAmount, feeAmount, exchangeRate, reference, updatedAt);
  }
}
