/**
  The entitlement helpers of the AI controller: whether a principal is
  premium, how much of the free quota it has used, and the effect of
  charging one unit of it. The identity lookup each helper performs is
  given its outcome (`lookupOk`); a principal absent from the store fails
  the lookup as well.
 */
module Entitlement {
  import opened JsValues
  import opened Services

  /** Chargeable generations a non-premium principal gets. */
  const FreeLimit := 10

  /** Premium under either spelling: a truthy `is_premium`, or `plan` equal to "premium". */
  function IsPremium(bag: Bag): (r: bool)
    ensures r <==> (("is_premium" in bag && Truthy(bag["is_premium"]))
                    || ("plan" in bag && bag["plan"] == Str("premium")))
  {
    TruthyOpt(Get(bag, "is_premium")) || Get(bag, "plan") == Some(Str("premium"))
  }

  /** The lookup of `checkPremiumStatus`/`getFreeUsage` reaches the principal's bag. */
  predicate Found(meta: map<UserId, Bag>, u: UserId, lookupOk: bool) {
    lookupOk && u in meta
  }

  /** `checkPremiumStatus`: any lookup error yields not premium. */
  function PremiumStatus(meta: map<UserId, Bag>, u: UserId, lookupOk: bool): (r: bool)
    ensures !Found(meta, u, lookupOk) ==> !r
    ensures Found(meta, u, lookupOk) ==> (r <==> IsPremium(meta[u]))
  {
    Found(meta, u, lookupOk) && IsPremium(meta[u])
  }

  /** `privateMetadata?.free_usage || 0`: the stored value when truthy, otherwise 0. */
  function FreeUsage(bag: Bag): (r: Value)
    ensures TruthyOpt(Get(bag, "free_usage")) ==> r == bag["free_usage"]
    ensures !TruthyOpt(Get(bag, "free_usage")) ==> r == Num(0)
    ensures Truthy(r) || r == Num(0)
  {
    var v := Get(bag, "free_usage");
    if TruthyOpt(v) then v.value else Num(0)
  }

  /** `getFreeUsage`: a lookup error yields 0. */
  function FreeUsageStatus(meta: map<UserId, Bag>, u: UserId, lookupOk: bool): (r: Value)
    ensures !Found(meta, u, lookupOk) ==> r == Num(0)
    ensures Found(meta, u, lookupOk) ==> r == FreeUsage(meta[u])
  {
    if Found(meta, u, lookupOk) then FreeUsage(meta[u]) else Num(0)
  }

  /** `freeUsage >= 10`, with JavaScript's numeric conversion (NaN compares false). */
  function LimitReached(v: Value): (r: bool)
    ensures v.Num? ==> (r <==> v.n >= FreeLimit)
    ensures !Truthy(v) ==> !r
    ensures v.Str? && !AllDigits(v.s) ==> !r
  {
    match ToNumber(v)
    case Some(n) => n >= FreeLimit
    case None => false
  }

  /** The gate of the quota-metered handlers: not premium and at or over the free limit. */
  function QuotaExhausted(meta: map<UserId, Bag>, u: UserId, premiumLookupOk: bool, usageLookupOk: bool): (r: bool)
    ensures PremiumStatus(meta, u, premiumLookupOk) ==> !r
    ensures !PremiumStatus(meta, u, premiumLookupOk) && Found(meta, u, usageLookupOk) ==>
      (r <==> LimitReached(FreeUsage(meta[u])))
  {
    !PremiumStatus(meta, u, premiumLookupOk) && LimitReached(FreeUsageStatus(meta, u, usageLookupOk))
  }

  /** The effect of `incrementFreeUsage`: re-read the usage (0 on a lookup error) and store it plus one,
      merged into the principal's bag; a failed write is swallowed and changes nothing. */
  function Charged(meta: map<UserId, Bag>, u: UserId, lookupOk: bool, writeOk: bool): (r: map<UserId, Bag>)
    ensures r.Keys == meta.Keys
    ensures forall v :: v in meta && v != u ==> r[v] == meta[v]
    ensures !writeOk ==> r == meta
    ensures writeOk && u in meta ==>
      && r[u].Keys == meta[u].Keys + {"free_usage"}
      && r[u]["free_usage"] == PlusOne(FreeUsageStatus(meta, u, lookupOk))
      && (forall k :: k in meta[u] && k != "free_usage" ==> r[u][k] == meta[u][k])
  {
    if writeOk && u in meta then
      meta[u := meta[u] + map["free_usage" := PlusOne(FreeUsageStatus(meta, u, lookupOk))]]
    else meta
  }

  /** The quota gate fails open: when the usage lookup errors, the usage reads as 0 and
      even a non-premium principal passes. */
  lemma GateFailsOpenOnLookupError(meta: map<UserId, Bag>, u: UserId, premiumLookupOk: bool)
    ensures !QuotaExhausted(meta, u, premiumLookupOk, false)
  {
    assert FreeUsageStatus(meta, u, false) == Num(0);
  }

  /** Charging writes only the usage count, so it never changes premium status. */
  lemma ChargePreservesPremium(meta: map<UserId, Bag>, u: UserId, lookupOk: bool, writeOk: bool)
    requires u in meta
    ensures IsPremium(Charged(meta, u, lookupOk, writeOk)[u]) == IsPremium(meta[u])
  {
    var after := Charged(meta, u, lookupOk, writeOk)[u];
    assert Get(after, "is_premium") == Get(meta[u], "is_premium");
    assert Get(after, "plan") == Get(meta[u], "plan");
  }

  /** A successful charge whose own lookup failed restarts the count at 1, whatever it was. */
  lemma ChargeAfterLookupFailure(meta: map<UserId, Bag>, u: UserId)
    requires u in meta
    ensures Charged(meta, u, false, true)[u]["free_usage"] == Num(1)
  {
  }

  /** A successful charge whose lookup succeeded adds one to a non-negative integer count. */
  lemma ChargeAddsOne(meta: map<UserId, Bag>, u: UserId, k: nat)
    requires u in meta && FreeUsage(meta[u]) == Num(k)
    ensures FreeUsage(Charged(meta, u, true, true)[u]) == Num(k + 1)
  {
  }

  /** A usage stored as a string is charged by concatenation: "5" is under the limit, and one
      charge turns it into "51", which is over it. */
  lemma StringUsageJumpsPastLimit()
    ensures !LimitReached(Str("5"))
    ensures PlusOne(Str("5")) == Str("51")
    ensures LimitReached(PlusOne(Str("5")))
  {
    DecimalAppend("5", '1');
    assert "5" + ['1'] == "51";
  }

  /** `n` successful charges in a row, each with a successful lookup. */
  function ChargedTimes(meta: map<UserId, Bag>, u: UserId, n: nat): (r: map<UserId, Bag>)
    ensures r.Keys == meta.Keys
  {
    if n == 0 then meta else Charged(ChargedTimes(meta, u, n - 1), u, true, true)
  }

  /** The count goes up by exactly one per charge. */
  lemma {:induction false} ChargedTimesCounts(meta: map<UserId, Bag>, u: UserId, k: nat, n: nat)
    requires u in meta && FreeUsage(meta[u]) == Num(k)
    ensures FreeUsage(ChargedTimes(meta, u, n)[u]) == Num(k + n)
  {
    if n > 0 {
      var before := ChargedTimes(meta, u, n - 1);
      ChargedTimesCounts(meta, u, k, n - 1);
      assert u in before;
      ChargeAddsOne(before, u, k + n - 1);
    }
  }

  /** Charging one principal leaves every other principal's bag as it was. */
  lemma {:induction false} ChargedTimesIsolated(meta: map<UserId, Bag>, u: UserId, v: UserId, n: nat)
    requires v in meta && v != u
    ensures ChargedTimes(meta, u, n)[v] == meta[v]
  {
    if n > 0 {
      ChargedTimesIsolated(meta, u, v, n - 1);
    }
  }

  /** A non-premium principal starting from an unused quota passes the gate for exactly
      its first ten chargeable generations. */
  lemma FreeQuotaIsTen(meta: map<UserId, Bag>, u: UserId, n: nat)
    requires u in meta && FreeUsage(meta[u]) == Num(0)
    ensures LimitReached(FreeUsageStatus(ChargedTimes(meta, u, n), u, true)) <==> n >= FreeLimit
  {
    ChargedTimesCounts(meta, u, 0, n);
  }
}
