/**
  The authentication middleware: extract the caller's id from `req.auth`,
  write default `free_usage` and `plan` into the caller's metadata when
  either is missing, and derive the request's plan and usage.
 */
module Auth {
  import opened JsValues
  import opened Services
  import Entitlement

  /** `req.auth` as the identity middleware leaves it: absent, an object, or a getter
      function (which may throw) returning an object. */
  datatype AuthField =
    | NoAuth
    | AuthObject(userId: Option<string>)
    | AuthGetter(throws: bool, userId: Option<string>)

  /** The caller's id: what the getter returns, or the object's id when truthy; a thrown
      getter leaves none. An empty id is falsy, so it counts as none. */
  function ExtractUserId(a: AuthField): (r: Option<UserId>)
    ensures r.Some? ==> r.value != ""
    ensures a.NoAuth? || (a.AuthGetter? && a.throws) ==> r.None?
    ensures r.Some? ==> a.userId == r
    ensures r.Some? <==> (a.AuthObject? || (a.AuthGetter? && !a.throws)) && a.userId.Some? && a.userId.value != ""
  {
    match a
    case NoAuth => None
    case AuthObject(id) => if id.Some? && id.value != "" then id else None
    case AuthGetter(throws, id) => if !throws && id.Some? && id.value != "" then id else None
  }

  /** `free_usage === undefined || free_usage === null`: stricter than falsiness, so a
      stored 0, false or "" is not missing. */
  function UsageMissing(bag: Bag): (r: bool)
    ensures r ==> !TruthyOpt(Get(bag, "free_usage"))
    ensures Get(bag, "free_usage") in {Some(Num(0)), Some(Bool(false)), Some(Str(""))} ==> !r
  {
    "free_usage" !in bag || bag["free_usage"] == Null
  }

  /** `!plan`: the plan is undefined or one of JavaScript's falsy values. */
  function PlanMissing(bag: Bag): (r: bool)
    ensures r <==> Get(bag, "plan") in {None, Some(Null), Some(Bool(false)), Some(Num(0)), Some(Str(""))}
  {
    !TruthyOpt(Get(bag, "plan"))
  }

  /** `needsUpdate`: at least one default applies. */
  predicate NeedsDefaults(bag: Bag) {
    UsageMissing(bag) || PlanMissing(bag)
  }

  /** `free_usage` after defaulting: 0 only when undefined or null, so a stored 0 is kept. */
  function DefaultedUsage(bag: Bag): (r: Value)
    ensures UsageMissing(bag) ==> r == Num(0)
    ensures !UsageMissing(bag) ==> r == bag["free_usage"] && r != Null
  {
    if UsageMissing(bag) then Num(0) else bag["free_usage"]
  }

  /** `plan` after defaulting: "free" whenever the stored plan is falsy. */
  function DefaultedPlan(bag: Bag): (r: Value)
    ensures PlanMissing(bag) ==> r == Str("free")
    ensures !PlanMissing(bag) ==> r == bag["plan"]
    ensures Truthy(r)
  {
    if PlanMissing(bag) then Str("free") else bag["plan"]
  }

  /** The bag the middleware writes: `{...privateMetadata, free_usage, plan}`. */
  function Normalized(bag: Bag): (r: Bag)
    ensures r.Keys == bag.Keys + {"free_usage", "plan"}
    ensures r["free_usage"] == DefaultedUsage(bag) && r["plan"] == DefaultedPlan(bag)
    ensures forall k :: k in bag && k != "free_usage" && k != "plan" ==> r[k] == bag[k]
    ensures !NeedsDefaults(bag) ==> r == bag
  {
    bag + map["free_usage" := DefaultedUsage(bag), "plan" := DefaultedPlan(bag)]
  }

  /** An update is issued exactly when the written bag would differ from the stored one. */
  lemma NeedsDefaultsIffChange(bag: Bag)
    ensures NeedsDefaults(bag) <==> Normalized(bag) != bag
  {
    if UsageMissing(bag) {
      assert Normalized(bag)["free_usage"] == Num(0);
    } else if PlanMissing(bag) {
      assert Normalized(bag)["plan"] == Str("free");
    }
  }

  /** The bag the identity provider stores after the normalising write: the written bag
      merged in, so a key the caller had stored as null is deleted. */
  function Persisted(bag: Bag): (r: Bag)
    ensures !NeedsDefaults(r)
    ensures "free_usage" in r && r["free_usage"] == DefaultedUsage(bag)
    ensures "plan" in r && r["plan"] == DefaultedPlan(bag)
    ensures forall k :: k in bag && k != "free_usage" && k != "plan" ==>
      (k in r <==> bag[k] != Null) && (k in r ==> r[k] == bag[k])
    ensures forall k :: k in r ==> k in bag || k == "free_usage" || k == "plan"
  {
    MergeBag(bag, Normalized(bag))
  }

  /** `req.plan`: "premium" iff the (defaulted) plan is exactly "premium". */
  function RequestPlan(bag: Bag): (r: string)
    ensures r == "premium" <==> Get(bag, "plan") == Some(Str("premium"))
    ensures r == "premium" || r == "free"
  {
    if DefaultedPlan(bag) == Str("premium") then "premium" else "free"
  }

  /** The request context the middleware attaches; `freeUsage` is `Number(free_usage)`, None for NaN. */
  datatype RequestContext = RequestContext(userId: UserId, plan: string, freeUsage: Option<int>)

  /** The middleware either answers the request itself or calls `next` with a context. */
  datatype AuthResult = Rejected(response: Envelope) | Next(context: RequestContext)

  const Unauthorized := Envelope(401, false, None, Text("Unauthorized"))

  /** The context derived from a caller's stored bag. */
  function ContextOf(u: UserId, bag: Bag): (r: RequestContext)
    ensures r.userId == u
    ensures r.plan == "premium" <==> Get(bag, "plan") == Some(Str("premium"))
    ensures UsageMissing(bag) ==> r.freeUsage == Some(0)
    ensures "free_usage" in bag && bag["free_usage"].Num? ==> r.freeUsage == Some(bag["free_usage"].n)
  {
    RequestContext(u, RequestPlan(bag), ToNumber(DefaultedUsage(bag)))
  }

  /** The effect of the normalising write when the lookup reached the bag: none unless a
      default applies and the write succeeds. */
  function NormalizedMeta(meta: map<UserId, Bag>, u: UserId, updateOk: bool): (r: map<UserId, Bag>)
    requires u in meta
    ensures r.Keys == meta.Keys
    ensures forall v :: v in meta && v != u ==> r[v] == meta[v]
    ensures r[u] == if updateOk && NeedsDefaults(meta[u]) then Persisted(meta[u]) else meta[u]
  {
    if updateOk && NeedsDefaults(meta[u]) then meta[u := Persisted(meta[u])] else meta
  }

  /** `auth(req, res, next)`: `lookupOk` and `updateOk` are the outcomes of the identity
      provider's `getUser` and `updateUserMetadata`. */
  method Authenticate(w: World, auth: AuthField, lookupOk: bool, updateOk: bool) returns (r: AuthResult)
    requires w.Valid()
    modifies w
    ensures w.Valid()
    ensures w.creations == old(w.creations) && w.nextId == old(w.nextId) && w.files == old(w.files)
    ensures w.providerCalls == old(w.providerCalls) && w.uploads == old(w.uploads)
    ensures ExtractUserId(auth).None? ==> r == Rejected(Unauthorized) && unchanged(w)
    ensures ExtractUserId(auth).Some? && !Entitlement.Found(old(w.meta), ExtractUserId(auth).value, lookupOk) ==>
      r == Rejected(ServerError(ErrorMessage)) && unchanged(w)
    ensures ExtractUserId(auth).Some? && Entitlement.Found(old(w.meta), ExtractUserId(auth).value, lookupOk) ==>
      var u := ExtractUserId(auth).value;
      var bag := old(w.meta)[u];
      && w.metadataUpdates == old(w.metadataUpdates) + (if NeedsDefaults(bag) then 1 else 0)
      && w.meta == NormalizedMeta(old(w.meta), u, updateOk)
      && r == if NeedsDefaults(bag) && !updateOk then Rejected(ServerError(ErrorMessage)) else Next(ContextOf(u, bag))
  {
    var userId: Option<UserId> := None;
    match auth {
      case AuthGetter(throws, id) =>
        if !throws {
          userId := id;
        }
      case AuthObject(id) =>
        if id.Some? && id.value != "" {
          userId := id;
        }
      case NoAuth =>
    }
    if userId.None? || userId.value == "" {
      return Rejected(Unauthorized);
    }
    var u := userId.value;
    if !lookupOk || u !in w.meta {
      return Rejected(ServerError(ErrorMessage));
    }
    var bag := w.meta[u];
    var freeUsage := Get(bag, "free_usage");
    var plan := Get(bag, "plan");
    var needsUpdate := false;
    if freeUsage.None? || freeUsage.value == Null {
      freeUsage := Some(Num(0));
      needsUpdate := true;
    }
    if !TruthyOpt(plan) {
      plan := Some(Str("free"));
      needsUpdate := true;
    }
    assert needsUpdate == NeedsDefaults(bag);
    assert freeUsage.value == DefaultedUsage(bag) && plan.value == DefaultedPlan(bag);
    if needsUpdate {
      var written := bag + map["free_usage" := freeUsage.value, "plan" := plan.value];
      assert written == Normalized(bag);
      w.UpdateMetadata(u, written, updateOk);
      if !updateOk {
        return Rejected(ServerError(ErrorMessage));
      }
    }
    var requestPlan := if plan.value == Str("premium") then "premium" else "free";
    return Next(RequestContext(u, requestPlan, ToNumber(freeUsage.value)));
  }

  /** Once the normalising write is stored, no default applies any more, and the stored bag
      derives the same context as the bag before it. */
  lemma NormalizeIdempotent(u: UserId, bag: Bag)
    ensures !NeedsDefaults(Persisted(bag))
    ensures Normalized(Normalized(bag)) == Normalized(bag)
    ensures ContextOf(u, Persisted(bag)) == ContextOf(u, bag)
  {
    assert Get(Persisted(bag), "plan") == Some(DefaultedPlan(bag));
  }

  /** The stored normalising write changes neither entitlement decision the AI handlers take. */
  lemma NormalizePreservesEntitlement(bag: Bag)
    ensures Entitlement.IsPremium(Persisted(bag)) == Entitlement.IsPremium(bag)
    ensures Entitlement.FreeUsage(Persisted(bag)) == Entitlement.FreeUsage(bag)
  {
    assert TruthyOpt(Get(Persisted(bag), "is_premium")) == TruthyOpt(Get(bag, "is_premium"));
  }

  /** `req.plan` being premium implies premium status; the converse fails, because
      `req.plan` ignores the legacy `is_premium` flag. */
  lemma RequestPlanIgnoresLegacyFlag(bag: Bag)
    ensures RequestPlan(bag) == "premium" ==> Entitlement.IsPremium(bag)
    ensures var legacy := map["is_premium" := Bool(true)];
      Entitlement.IsPremium(legacy) && RequestPlan(legacy) == "free"
  {
    var legacy := map["is_premium" := Bool(true)];
    assert Get(legacy, "plan") == None;
  }

  /** Two requests in a row by the same caller: the second performs no metadata update
      and sees the same plan and usage as the first. */
  method AuthenticateTwice(w: World, auth: AuthField, updateOk: bool) returns (first: AuthResult, second: AuthResult)
    requires w.Valid() && ExtractUserId(auth).Some? && ExtractUserId(auth).value in w.meta
    modifies w
    ensures first.Next? ==> second == first && w.metadataUpdates <= old(w.metadataUpdates) + 1
  {
    first := Authenticate(w, auth, true, updateOk);
    if first.Next? {
      NormalizeIdempotent(ExtractUserId(auth).value, old(w.meta)[ExtractUserId(auth).value]);
    }
    second := Authenticate(w, auth, true, updateOk);
  }
}
