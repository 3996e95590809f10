/**
 * The admin plan routes: `POST /` validates a body and creates a plan with
 * defaults, `PUT /:id` validates and then applies a partial update, and
 * `DELETE /:id` removes a plan.
 */
module Plans {
  import opened Records
  import opened Store
  import Realtime

  const DefaultMaxDevices: int := 1
  const DefaultDailyLimit: int := 100
  const DefaultDurationDays: int := 30

  const FieldsRequired := "Name, price, and credits are required"
  const BadPrice := "Price must be a non-negative number"
  const BadCredits := "Credits must be a non-negative number"
  const PlanCreated := "Plan created successfully"
  const PlanUpdated := "Plan updated successfully"
  const PlanDeleted := "Plan deleted successfully"

  /**
   * The fields of a request body; `None` is a field the body leaves out.
   * Price and credits keep their JSON type, which the routes inspect.
   */
  datatype PlanBody = PlanBody(
    name: Option<string>,
    price: Option<Json>,
    currency: Option<string>,
    credits: Option<Json>,
    features: Option<seq<string>>,
    maxDevices: Option<int>,
    dailyLimit: Option<int>)

  /** A response: status, message and the plan it carries, if any. */
  datatype PlanReply = PlanReply(status: int, message: string, plan: Option<Plan>)

  /** `typeof v === 'number' && v >= 0`. */
  predicate NonNegativeNumber(v: Json)
    ensures !v.JNum? ==> !NonNegativeNumber(v)
    ensures v.JNum? ==> (NonNegativeNumber(v) <==> v.n >= 0)
  {
    v.JNum? && v.n >= 0
  }

  /** A field that is present, a number, and above zero. */
  predicate PositiveNumber(v: Option<Json>)
  {
    v.Some? && v.value.JNum? && v.value.n > 0
  }

  /** A name that is present and not empty. */
  predicate NameGiven(name: Option<string>)
  {
    name.Some? && name.value != ""
  }

  // ---------------------------------------------------------------- create

  /**
   * The create checks in order: the three truthy fields, then the type and
   * sign of price, then of credits. The first failing check names the error.
   */
  function CreateCheck(b: PlanBody): (r: Option<string>)
    ensures r.None? <==> NameGiven(b.name) && PositiveNumber(b.price) && PositiveNumber(b.credits)
    ensures r.Some? ==> r.value in {FieldsRequired, BadPrice, BadCredits}
    ensures !NameGiven(b.name) || !Truthy(b.price) || !Truthy(b.credits) ==> r == Some(FieldsRequired)
    ensures NameGiven(b.name) && Truthy(b.price) && Truthy(b.credits) && !NonNegativeNumber(b.price.value) ==>
      r == Some(BadPrice)
    ensures (NameGiven(b.name) && Truthy(b.price) && Truthy(b.credits) && NonNegativeNumber(b.price.value) &&
             !NonNegativeNumber(b.credits.value)) ==> r == Some(BadCredits)
  {
    if !NameGiven(b.name) || !Truthy(b.price) || !Truthy(b.credits) then Some(FieldsRequired)
    else if !NonNegativeNumber(b.price.value) then Some(BadPrice)
    else if !NonNegativeNumber(b.credits.value) then Some(BadCredits)
    else None
  }

  /** `x || d` on a number field: absent and zero both take the default. */
  function NumberOr(x: Option<int>, d: int): (r: int)
    ensures x.Some? && x.value != 0 ==> r == x.value
    ensures x.None? || x.value == 0 ==> r == d
  {
    if x.Some? && x.value != 0 then x.value else d
  }

  /** The row `Plan.create` stores for an accepted body, with the route's and the model's defaults. */
  function NewPlan(id: PlanId, b: PlanBody): (p: Plan)
    requires CreateCheck(b).None?
    ensures p.id == id && p.name == b.name.value
    ensures p.price == b.price.value.n > 0 && p.credits == b.credits.value.n > 0
    ensures p.currency == OrElse(if b.currency.Some? then b.currency.value else "", DefaultCurrency) != ""
    ensures p.features == (if b.features.Some? then b.features.value else [])
    ensures p.maxDevices == NumberOr(b.maxDevices, DefaultMaxDevices) != 0
    ensures p.dailyLimit == NumberOr(b.dailyLimit, DefaultDailyLimit) != 0
    ensures p.durationDays == DefaultDurationDays
  {
    Plan(
      id,
      b.name.value,
      b.price.value.n,
      OrElse(if b.currency.Some? then b.currency.value else "", DefaultCurrency),
      b.credits.value.n,
      if b.features.Some? then b.features.value else [],
      NumberOr(b.maxDevices, DefaultMaxDevices),
      NumberOr(b.dailyLimit, DefaultDailyLimit),
      DefaultDurationDays)
  }

  /**
   * A zero device count or daily limit in the body is replaced by the
   * default, just like an absent one; so is an empty currency.
   */
  lemma ZeroFieldsTakeDefaults(id: PlanId, b: PlanBody)
    requires CreateCheck(b).None?
    requires b.maxDevices == Some(0) && b.dailyLimit == Some(0) && b.currency == Some("")
    ensures NewPlan(id, b) == NewPlan(id, b.(maxDevices := None, dailyLimit := None, currency := None))
    ensures NewPlan(id, b).maxDevices == 1 && NewPlan(id, b).dailyLimit == 100 && NewPlan(id, b).currency == "INR"
  {
  }

  // ---------------------------------------------------------------- update

  /** The update checks: price and credits, each only when the body has it. */
  function UpdateCheck(b: PlanBody): (r: Option<string>)
    ensures r.None? <==>
      (b.price.None? || NonNegativeNumber(b.price.value)) && (b.credits.None? || NonNegativeNumber(b.credits.value))
    ensures b.price.Some? && !NonNegativeNumber(b.price.value) ==> r == Some(BadPrice)
    ensures r == Some(BadCredits) ==> b.price.None? || NonNegativeNumber(b.price.value)
  {
    if b.price.Some? && !NonNegativeNumber(b.price.value) then Some(BadPrice)
    else if b.credits.Some? && !NonNegativeNumber(b.credits.value) then Some(BadCredits)
    else None
  }

  /** The plan after the update: the fields the body has, the old values elsewhere. */
  function ApplyUpdate(p: Plan, b: PlanBody): (r: Plan)
    requires UpdateCheck(b).None?
    ensures r.id == p.id && r.durationDays == p.durationDays
    ensures b.price.Some? ==> r.price >= 0
    ensures b.credits.Some? ==> r.credits >= 0
  {
    Plan(
      p.id,
      if b.name.Some? then b.name.value else p.name,
      if b.price.Some? then b.price.value.n else p.price,
      if b.currency.Some? then b.currency.value else p.currency,
      if b.credits.Some? then b.credits.value.n else p.credits,
      if b.features.Some? then b.features.value else p.features,
      if b.maxDevices.Some? then b.maxDevices.value else p.maxDevices,
      if b.dailyLimit.Some? then b.dailyLimit.value else p.dailyLimit,
      p.durationDays)
  }

  /** The empty body: every field absent. */
  const EmptyBody := PlanBody(None, None, None, None, None, None, None)

  /** An empty update is accepted and changes nothing. */
  lemma EmptyUpdateIsIdentity(p: Plan)
    ensures UpdateCheck(EmptyBody).None?
    ensures ApplyUpdate(p, EmptyBody) == p
  {
  }

  /** Sending the same update twice leaves the plan as the first one did. */
  lemma UpdateIsIdempotent(p: Plan, b: PlanBody)
    requires UpdateCheck(b).None?
    ensures ApplyUpdate(ApplyUpdate(p, b), b) == ApplyUpdate(p, b)
  {
  }

  /**
   * Each field of the result is the body's value exactly when the body has
   * that field; the id and the duration never change.
   */
  lemma UpdateChangesOnlyGivenFields(p: Plan, b: PlanBody)
    requires UpdateCheck(b).None?
    ensures var r := ApplyUpdate(p, b);
      && r.id == p.id && r.durationDays == p.durationDays
      && (b.name.None? ==> r.name == p.name) && (b.name.Some? ==> r.name == b.name.value)
      && (b.price.None? ==> r.price == p.price) && (b.price.Some? ==> r.price == b.price.value.n >= 0)
      && (b.currency.None? ==> r.currency == p.currency) && (b.currency.Some? ==> r.currency == b.currency.value)
      && (b.credits.None? ==> r.credits == p.credits) && (b.credits.Some? ==> r.credits == b.credits.value.n >= 0)
      && (b.features.None? ==> r.features == p.features) && (b.features.Some? ==> r.features == b.features.value)
      && (b.maxDevices.None? ==> r.maxDevices == p.maxDevices) && (b.maxDevices.Some? ==> r.maxDevices == b.maxDevices.value)
      && (b.dailyLimit.None? ==> r.dailyLimit == p.dailyLimit) && (b.dailyLimit.Some? ==> r.dailyLimit == b.dailyLimit.value)
  {
  }

  /**
   * The two routes disagree on a free plan: create refuses price 0 (it is
   * falsy), while update accepts it.
   */
  lemma ZeroPriceOnlyThroughUpdate(b: PlanBody)
    requires b.price == Some(JNum(0))
    ensures CreateCheck(b).Some?
    ensures b.credits.None? ==> UpdateCheck(b).None?
  {
  }

  /** Every plan create accepts, update also accepts, and it rewrites the plan to that body's values. */
  lemma CreateBodyIsValidUpdate(p: Plan, b: PlanBody)
    requires CreateCheck(b).None?
    ensures UpdateCheck(b).None?
    ensures ApplyUpdate(p, b).price == NewPlan(p.id, b).price && ApplyUpdate(p, b).credits == NewPlan(p.id, b).credits
    ensures ApplyUpdate(p, b).name == NewPlan(p.id, b).name
  {
  }

  // -------------------------------------------------------------- handlers

  /** `POST /`. `id` is the fresh UUID the database assigns. */
  method CreatePlan(db: Db, id: PlanId, b: PlanBody) returns (reply: PlanReply)
    requires id !in db.plans
    modifies db`plans
    ensures CreateCheck(b).Some? ==>
      reply == PlanReply(400, CreateCheck(b).value, None) && db.plans == old(db.plans)
    ensures CreateCheck(b).None? ==>
      reply == PlanReply(201, PlanCreated, Some(NewPlan(id, b))) && db.plans == old(db.plans)[id := NewPlan(id, b)]
  {
    if !NameGiven(b.name) || !Truthy(b.price) || !Truthy(b.credits) {
      return PlanReply(400, FieldsRequired, None);
    }
    if !NonNegativeNumber(b.price.value) {
      return PlanReply(400, BadPrice, None);
    }
    if !NonNegativeNumber(b.credits.value) {
      return PlanReply(400, BadCredits, None);
    }
    var plan := Plan(
      id,
      b.name.value,
      b.price.value.n,
      OrElse(if b.currency.Some? then b.currency.value else "", DefaultCurrency),
      b.credits.value.n,
      if b.features.Some? then b.features.value else [],
      NumberOr(b.maxDevices, DefaultMaxDevices),
      NumberOr(b.dailyLimit, DefaultDailyLimit),
      DefaultDurationDays);
    db.plans := db.plans[id := plan];
    reply := PlanReply(201, PlanCreated, Some(plan));
  }

  /** `PUT /:id`: find, validate, then assign the given fields one by one. */
  method UpdatePlan(db: Db, id: PlanId, b: PlanBody) returns (reply: PlanReply)
    modifies db`plans
    ensures id !in old(db.plans) ==> reply == PlanReply(404, PlanNotFound, None) && db.plans == old(db.plans)
    ensures id in old(db.plans) && UpdateCheck(b).Some? ==>
      reply == PlanReply(400, UpdateCheck(b).value, None) && db.plans == old(db.plans)
    ensures id in old(db.plans) && UpdateCheck(b).None? ==>
      && db.plans == old(db.plans)[id := ApplyUpdate(old(db.plans)[id], b)]
      && reply == PlanReply(200, PlanUpdated, Some(ApplyUpdate(old(db.plans)[id], b)))
  {
    if id !in db.plans {
      return PlanReply(404, PlanNotFound, None);
    }
    var plan := db.plans[id];
    if b.price.Some? && !NonNegativeNumber(b.price.value) {
      return PlanReply(400, BadPrice, None);
    }
    if b.credits.Some? && !NonNegativeNumber(b.credits.value) {
      return PlanReply(400, BadCredits, None);
    }
    if b.name.Some? { plan := plan.(name := b.name.value); }
    if b.price.Some? { plan := plan.(price := b.price.value.n); }
    if b.currency.Some? { plan := plan.(currency := b.currency.value); }
    if b.credits.Some? { plan := plan.(credits := b.credits.value.n); }
    if b.features.Some? { plan := plan.(features := b.features.value); }
    if b.maxDevices.Some? { plan := plan.(maxDevices := b.maxDevices.value); }
    if b.dailyLimit.Some? { plan := plan.(dailyLimit := b.dailyLimit.value); }
    db.plans := db.plans[id := plan];
    reply := PlanReply(200, PlanUpdated, Some(plan));
  }

  /** `DELETE /:id`. */
  method DeletePlan(db: Db, id: PlanId) returns (reply: PlanReply)
    modifies db`plans
    ensures id !in old(db.plans) ==> reply == PlanReply(404, PlanNotFound, None) && db.plans == old(db.plans)
    ensures id in old(db.plans) ==> reply == PlanReply(200, PlanDeleted, None) && db.plans == old(db.plans) - {id}
  {
    if id !in db.plans {
      return PlanReply(404, PlanNotFound, None);
    }
    db.plans := db.plans - {id};
    reply := PlanReply(200, PlanDeleted, None);
  }

  /**
   * After its plan is deleted a subscriber is served the free tier's limits
   * on the next connect and task.
   */
  lemma DeletedPlanFallsBackToFreeTier(plans: map<PlanId, Plan>, id: PlanId, u: User)
    requires u.planId == Some(id)
    ensures PlanOf(plans - {id}, u).None?
    ensures Realtime.ConnectLimits(PlanOf(plans - {id}, u)) == Realtime.Limits(Realtime.FreeMaxDevices, Realtime.FreeDailyLimit)
    ensures Realtime.TaskLimit(PlanOf(plans - {id}, u)) == Realtime.FreeDailyLimit
  {
  }
}
