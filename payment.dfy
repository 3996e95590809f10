/**
 * The payment routes: `POST /order` chooses the amount and currency of a
 * gateway order, and `POST /verify` checks the gateway's signature, records
 * the transaction and credits the buyer.
 */
module Payment {
  import opened Records
  import opened Store
  import Realtime

  const ReceiptPrefix := "receipt_"
  const NotLegit := "Transaction not legit!"
  const UserOrPlanNotFound := "User or Plan not found"

  // ----------------------------------------------------------------- order

  /** The options passed to the gateway's order call. */
  datatype OrderOptions = OrderOptions(amount: int, currency: string, receipt: string)

  /**
   * The order for a plan: its price in the smallest currency unit, its
   * currency or INR, and a receipt named after the current time.
   */
  function OrderFor(plans: map<PlanId, Plan>, planId: PlanId, nowMs: nat): (r: Result<OrderOptions, Reply>)
    ensures planId !in plans ==> r == Err(Reply(404, PlanNotFound))
    ensures planId in plans ==>
      && r.Ok?
      && r.value.amount == plans[planId].price
      && r.value.currency == OrElse(plans[planId].currency, DefaultCurrency) != ""
      && |ReceiptPrefix| < |r.value.receipt|
      && r.value.receipt[..|ReceiptPrefix|] == ReceiptPrefix
      && r.value.receipt[|ReceiptPrefix|..] == DecimalString(nowMs)
  {
    if planId !in plans then Err(Reply(404, PlanNotFound))
    else
      var plan := plans[planId];
      Ok(OrderOptions(plan.price, OrElse(plan.currency, DefaultCurrency), ReceiptPrefix + DecimalString(nowMs)))
  }

  /** Orders placed at different milliseconds carry different receipts. */
  lemma ReceiptsNameTheirInstant(plans: map<PlanId, Plan>, p: PlanId, q: PlanId, t1: nat, t2: nat)
    requires p in plans && q in plans
    requires OrderFor(plans, p, t1).value.receipt == OrderFor(plans, q, t2).value.receipt
    ensures t1 == t2
  {
    var r1, r2 := OrderFor(plans, p, t1).value.receipt, OrderFor(plans, q, t2).value.receipt;
    assert DecimalString(t1) == r1[|ReceiptPrefix|..] == r2[|ReceiptPrefix|..] == DecimalString(t2);
    DecimalStringInjective(t1, t2);
  }

  // ---------------------------------------------------------------- verify

  /** The fields of a `verify` request body. */
  datatype PaymentRequest = PaymentRequest(orderId: string, paymentId: string, signature: string, userId: UserId, planId: PlanId)

  /** The text the gateway signs: order id and payment id joined by a bar. */
  function SignedText(orderId: string, paymentId: string): (t: string)
    ensures |t| == |orderId| + 1 + |paymentId|
    ensures t[|orderId|] == '|'
    ensures t[..|orderId|] == orderId && t[|orderId| + 1..] == paymentId
  {
    orderId + "|" + paymentId
  }

  /**
   * The gate: the hex HMAC-SHA256 of the signed text under the gateway key
   * secret equals the signature sent. `hmac` stands for that digest.
   */
  predicate Legit(req: PaymentRequest, hmac: string -> string)
    ensures Legit(req, hmac) <==> hmac(req.orderId + "|" + req.paymentId) == req.signature
  {
    hmac(SignedText(req.orderId, req.paymentId)) == req.signature
  }

  /** Once a request passes, changing only its signature makes it fail. */
  lemma OnlyTheDigestPasses(req: PaymentRequest, hmac: string -> string, sig: string)
    requires Legit(req, hmac) && sig != req.signature
    ensures !Legit(req.(signature := sig), hmac)
  {
  }

  /** The buyer after a purchase: the plan's credits added, the plan assigned. */
  function Credit(u: User, p: Plan): (r: User)
    ensures r.credits - u.credits == p.credits
    ensures r.planId == Some(p.id)
    ensures r.(credits := u.credits, planId := u.planId) == u
  {
    u.(credits := u.credits + p.credits, planId := Some(p.id))
  }

  /** The row recorded for a settled payment. */
  function Receipt(req: PaymentRequest, p: Plan): (t: Transaction)
    ensures t.status == Success && t.amount == p.price
    ensures t.userId == req.userId && t.planId == req.planId
    ensures t.orderId == req.orderId && t.paymentId == req.paymentId && t.signature == req.signature
  {
    Transaction(req.orderId, req.paymentId, req.signature, Success, p.price, req.userId, req.planId)
  }

  /**
   * Nothing marks a payment as used: crediting the same plan twice adds
   * its credits twice.
   */
  lemma ReplayCreditsTwice(u: User, p: Plan)
    ensures Credit(Credit(u, p), p).credits == u.credits + 2 * p.credits
    ensures Credit(Credit(u, p), p).planId == Credit(u, p).planId
  {
  }

  /**
   * A purchase does not touch the day's counter, and from the next connect
   * on the buyer gets the bought plan's limits.
   */
  lemma PurchaseAppliesPlanLimits(plans: map<PlanId, Plan>, u: User, p: Plan)
    requires p.id in plans && plans[p.id] == p
    ensures Credit(u, p).dailyUsage == u.dailyUsage && Credit(u, p).lastUsageDate == u.lastUsageDate
    ensures Realtime.ConnectLimits(PlanOf(plans, Credit(u, p))) == Realtime.Limits(p.maxDevices, p.dailyLimit)
    ensures Realtime.TaskLimit(PlanOf(plans, Credit(u, p))) == p.dailyLimit
  {
  }

  /** The body of a `verify` response. */
  datatype VerifyReply =
    | Rejected(status: int, message: string)
    | Settled(orderId: string, paymentId: string, newCredits: int)

  /** `POST /verify`. */
  method VerifyPayment(db: Db, req: PaymentRequest, hmac: string -> string) returns (reply: VerifyReply)
    modifies db`users, db`transactions
    ensures !Legit(req, hmac) ==>
      reply == Rejected(400, NotLegit) && db.users == old(db.users) && db.transactions == old(db.transactions)
    ensures Legit(req, hmac) && (req.planId !in db.plans || req.userId !in old(db.users)) ==>
      reply == Rejected(404, UserOrPlanNotFound) && db.users == old(db.users) && db.transactions == old(db.transactions)
    ensures Legit(req, hmac) && req.planId in db.plans && req.userId in old(db.users) ==>
      var u := Credit(old(db.users)[req.userId], db.plans[req.planId]);
      && db.transactions == old(db.transactions) + [Receipt(req, db.plans[req.planId])]
      && db.users == old(db.users)[req.userId := u]
      && reply == Settled(req.orderId, req.paymentId, u.credits)
  {
    var digest := hmac(req.orderId + "|" + req.paymentId);
    if digest != req.signature {
      return Rejected(400, NotLegit);
    }
    if req.planId !in db.plans || req.userId !in db.users {
      return Rejected(404, UserOrPlanNotFound);
    }
    var plan := db.plans[req.planId];
    var user := db.users[req.userId];
    db.transactions := db.transactions + [Transaction(req.orderId, req.paymentId, req.signature, Success, plan.price, req.userId, req.planId)];
    user := user.(credits := user.credits + plan.credits);
    user := user.(planId := Some(plan.id));
    db.users := db.users[req.userId := user];
    reply := Settled(req.orderId, req.paymentId, user.credits);
  }
}
