/** The debt-plan service (`deptplanService`): a user's debt repayment plans. It reads the access
    token through the cookie helper, so an absent cookie is verified as the empty string. */
module DebtPlans {
  import opened Base
  import opened Http
  import opened Jwt
  import opened Store
  import opened ResponseUtil
  import opened Records
  import Notifications

  /** The validated create body; `strategy` is any string, checked only by the database enum. */
  datatype CreateDebtPlanDto = CreateDebtPlanDto(debtName: string, amount: Amount, interestRate: Amount, strategy: string)

  datatype UpdateDebtPlanDto = UpdateDebtPlanDto(
    debtName: Option<string>, amount: Option<Amount>, interestRate: Option<Amount>, strategy: Option<string>)

  datatype DebtPlanData = One(id: Id, plan: DebtPlan) | Many(plans: map<Id, DebtPlan>) | Deleted(message: string)

  function OwnerOf(p: DebtPlan): Id {
    p.userId
  }

  /** The `Strategy` enum's stored names. */
  function StrategyName(s: Strategy): string {
    match s
    case Snowball => "SNOWBALL"
    case Avalanche => "AVALANCHE"
  }

  /** The enum value a string denotes; any other string is rejected by the database. */
  function ParseStrategy(s: string): (r: Option<Strategy>)
    ensures r.Some? ==> StrategyName(r.value) == s
  {
    if s == "SNOWBALL" then Some(Snowball) else if s == "AVALANCHE" then Some(Avalanche) else None
  }

  /** Parsing inverts naming. */
  lemma StrategyRoundTrip(s: Strategy)
    ensures ParseStrategy(StrategyName(s)) == Some(s)
  {
  }

  /** `{ ...dto, user_id: jwt.sub }`, or `None` when the strategy is not an enum value. */
  function NewPlan(dto: CreateDebtPlanDto, owner: Id): (p: Option<DebtPlan>)
    ensures p.Some? <==> ParseStrategy(dto.strategy).Some?
    ensures p.Some? ==> p.value.userId == owner && StrategyName(p.value.strategy) == dto.strategy
  {
    match ParseStrategy(dto.strategy)
    case None => None
    case Some(s) => Some(DebtPlan(owner, dto.debtName, dto.amount, dto.interestRate, s))
  }

  /** `update({ data: { ...dto } })`: present fields replace stored ones, the owner never changes;
      `None` when a given strategy is not an enum value. */
  function ApplyUpdate(p: DebtPlan, u: UpdateDebtPlanDto): (r: Option<DebtPlan>)
    ensures r.Some? <==> (u.strategy.None? || ParseStrategy(u.strategy.value).Some?)
    ensures r.Some? ==> r.value.userId == p.userId
  {
    if u.strategy.Some? && ParseStrategy(u.strategy.value).None? then None
    else
      var s := if u.strategy.Some? then ParseStrategy(u.strategy.value).value else p.strategy;
      Some(DebtPlan(p.userId, u.debtName.GetOr(p.debtName), u.amount.GetOr(p.amount), u.interestRate.GetOr(p.interestRate), s))
  }

  class DebtPlanService {
    const prisma: Prisma
    const notifications: Notifications.NotificationService

    constructor (prisma: Prisma, notifications: Notifications.NotificationService)
      ensures this.prisma == prisma && this.notifications == notifications
    {
      this.prisma := prisma;
      this.notifications := notifications;
    }

    /** `create`: the caller owns the new plan; a notification naming the plan's id is attempted
        and its outcome does not change the answer. */
    method Create(dto: CreateDebtPlanDto, req: Request, env: Env, newId: Id, notificationId: Id) returns (r: ApiResponse<DebtPlanData>)
      requires notifications.model.Valid()
      modifies prisma`debtPlans, notifications.model`docs
      ensures notifications.model.Valid()
      ensures env.jwtSecret == "" ==>
                r == Fail("Internal Server Error", env.now) && prisma.debtPlans == old(prisma.debtPlans)
                && notifications.model.docs == old(notifications.model.docs)
      ensures var c := CallerViaCookieUtil(req, env);
              env.jwtSecret != "" && (c.None? || c.value.sub.None? || newId in old(prisma.debtPlans) || NewPlan(dto, c.value.sub.value).None?) ==>
                r == Fail("Error creating debt plan", env.now) && prisma.debtPlans == old(prisma.debtPlans)
                && notifications.model.docs == old(notifications.model.docs)
      ensures var c := CallerViaCookieUtil(req, env);
              env.jwtSecret != "" && c.Some? && c.value.sub.Some? && newId !in old(prisma.debtPlans) && NewPlan(dto, c.value.sub.value).Some? ==>
                var p := NewPlan(dto, c.value.sub.value).value;
                && r == Ok(One(newId, p), env.now)
                && prisma.debtPlans == old(prisma.debtPlans)[newId := p]
                && notifications.model.docs == Notifications.AfterCreate(old(notifications.model.docs), c.value.sub,
                     Notifications.CreateNotificationDto("PUSH", "Debt plan created: " + newId), notificationId, notifications.model.sentAtDefault)
    {
      if env.jwtSecret == "" {
        return Fail("Internal Server Error", env.now);
      }
      var c := CallerViaCookieUtil(req, env);
      if c.None? || c.value.sub.None? || newId in prisma.debtPlans {
        return Fail("Error creating debt plan", env.now);
      }
      var p := NewPlan(dto, c.value.sub.value);
      if p.None? {
        return Fail("Error creating debt plan", env.now);
      }
      prisma.debtPlans := prisma.debtPlans[newId := p.value];
      var _ := notifications.CreateForUser(c.value.sub, Notifications.CreateNotificationDto("PUSH", "Debt plan created: " + newId), notificationId, env.now);
      r := Ok(One(newId, p.value), env.now);
    }

    /** `findAll`: exactly the caller's plans. */
    method FindAll(req: Request, env: Env) returns (r: ApiResponse<DebtPlanData>)
      ensures env.jwtSecret == "" ==> r == Fail("Internal Server Error", env.now)
      ensures env.jwtSecret != "" && CallerViaCookieUtil(req, env).None? ==> r == Fail("Error finding debt plans", env.now)
      ensures var c := CallerViaCookieUtil(req, env);
              env.jwtSecret != "" && c.Some? ==>
                && r.data.Some? && r.data.value.Many?
                && (forall k :: k in r.data.value.plans <==> k in prisma.debtPlans && Holds(WhereDefined(c.value.sub), Some(prisma.debtPlans[k].userId)))
                && (forall k :: k in r.data.value.plans ==> r.data.value.plans[k] == prisma.debtPlans[k])
    {
      if env.jwtSecret == "" {
        return Fail("Internal Server Error", env.now);
      }
      var c := CallerViaCookieUtil(req, env);
      if c.None? {
        return Fail("Error finding debt plans", env.now);
      }
      r := Ok(Many(Owned(prisma.debtPlans, OwnerOf, WhereDefined(c.value.sub))), env.now);
    }

    /** `findOne(id)`: the plan only when the caller owns it. */
    method FindOne(id: Id, req: Request, env: Env) returns (r: ApiResponse<DebtPlanData>)
      ensures env.jwtSecret == "" ==> r == Fail("Internal Server Error", env.now)
      ensures env.jwtSecret != "" && CallerViaCookieUtil(req, env).None? ==> r == Fail("Error finding debt plan", env.now)
      ensures var c := CallerViaCookieUtil(req, env);
              env.jwtSecret != "" && c.Some? ==>
                && (!OwnsRow(prisma.debtPlans, OwnerOf, id, WhereDefined(c.value.sub)) ==> r == Fail("Debt plan not found", env.now))
                && (OwnsRow(prisma.debtPlans, OwnerOf, id, WhereDefined(c.value.sub)) ==> r == Ok(One(id, prisma.debtPlans[id]), env.now))
    {
      if env.jwtSecret == "" {
        return Fail("Internal Server Error", env.now);
      }
      var c := CallerViaCookieUtil(req, env);
      if c.None? {
        return Fail("Error finding debt plan", env.now);
      }
      if !OwnsRow(prisma.debtPlans, OwnerOf, id, WhereDefined(c.value.sub)) {
        return Fail("Debt plan not found", env.now);
      }
      r := Ok(One(id, prisma.debtPlans[id]), env.now);
    }

    /** `update(id, dto)`: only a plan the caller owns, and only that row, changes; an invalid
        strategy makes the write throw. */
    method Update(id: Id, dto: UpdateDebtPlanDto, req: Request, env: Env) returns (r: ApiResponse<DebtPlanData>)
      modifies prisma`debtPlans
      ensures env.jwtSecret == "" ==> r == Fail("Internal Server Error", env.now) && prisma.debtPlans == old(prisma.debtPlans)
      ensures env.jwtSecret != "" && CallerViaCookieUtil(req, env).None? ==>
                r == Fail("Error updating debt plan", env.now) && prisma.debtPlans == old(prisma.debtPlans)
      ensures var c := CallerViaCookieUtil(req, env);
              env.jwtSecret != "" && c.Some? ==>
                && (!OwnsRow(old(prisma.debtPlans), OwnerOf, id, WhereDefined(c.value.sub)) ==>
                      r == Fail("Debt plan not found", env.now) && prisma.debtPlans == old(prisma.debtPlans))
                && (OwnsRow(old(prisma.debtPlans), OwnerOf, id, WhereDefined(c.value.sub)) && ApplyUpdate(old(prisma.debtPlans)[id], dto).None? ==>
                      r == Fail("Error updating debt plan", env.now) && prisma.debtPlans == old(prisma.debtPlans))
                && (OwnsRow(old(prisma.debtPlans), OwnerOf, id, WhereDefined(c.value.sub)) && ApplyUpdate(old(prisma.debtPlans)[id], dto).Some? ==>
                      var p := ApplyUpdate(old(prisma.debtPlans)[id], dto).value;
                      r == Ok(One(id, p), env.now) && prisma.debtPlans == old(prisma.debtPlans)[id := p])
    {
      if env.jwtSecret == "" {
        return Fail("Internal Server Error", env.now);
      }
      var c := CallerViaCookieUtil(req, env);
      if c.None? {
        return Fail("Error updating debt plan", env.now);
      }
      if !OwnsRow(prisma.debtPlans, OwnerOf, id, WhereDefined(c.value.sub)) {
        return Fail("Debt plan not found", env.now);
      }
      var p := ApplyUpdate(prisma.debtPlans[id], dto);
      if p.None? {
        return Fail("Error updating debt plan", env.now);
      }
      prisma.debtPlans := prisma.debtPlans[id := p.value];
      r := Ok(One(id, p.value), env.now);
    }

    /** `remove(id)`: deletes a plan the caller owns and nothing else. */
    method Remove(id: Id, req: Request, env: Env) returns (r: ApiResponse<DebtPlanData>)
      modifies prisma`debtPlans
      ensures env.jwtSecret == "" ==> r == Fail("Internal Server Error", env.now) && prisma.debtPlans == old(prisma.debtPlans)
      ensures env.jwtSecret != "" && CallerViaCookieUtil(req, env).None? ==>
                r == Fail("Error deleting debt plan", env.now) && prisma.debtPlans == old(prisma.debtPlans)
      ensures var c := CallerViaCookieUtil(req, env);
              env.jwtSecret != "" && c.Some? ==>
                && (!OwnsRow(old(prisma.debtPlans), OwnerOf, id, WhereDefined(c.value.sub)) ==>
                      r == Fail("Debt plan not found", env.now) && prisma.debtPlans == old(prisma.debtPlans))
                && (OwnsRow(old(prisma.debtPlans), OwnerOf, id, WhereDefined(c.value.sub)) ==>
                      r == Ok(Deleted("Debt plan deleted successfully"), env.now) && prisma.debtPlans == old(prisma.debtPlans) - {id})
    {
      if env.jwtSecret == "" {
        return Fail("Internal Server Error", env.now);
      }
      var c := CallerViaCookieUtil(req, env);
      if c.None? {
        return Fail("Error deleting debt plan", env.now);
      }
      if !OwnsRow(prisma.debtPlans, OwnerOf, id, WhereDefined(c.value.sub)) {
        return Fail("Debt plan not found", env.now);
      }
      prisma.debtPlans := prisma.debtPlans - {id};
      r := Ok(Deleted("Debt plan deleted successfully"), env.now);
    }
  }
}
