/** `BudgetService`: a user's budgets, optionally attached to a family. */
module Budgets {
  import opened Base
  import opened Http
  import opened Jwt
  import opened Store
  import opened ResponseUtil
  import opened Records

  /** The validated create body. Without `@IsOptional` the validators make `user_id` and
      `familyId` required strings. */
  datatype CreateBudgetDto = CreateBudgetDto(userId: string, familyId: string, category: string, limitAmount: Amount, month: string)

  /** The update body: every create field, each optional. */
  datatype UpdateBudgetDto = UpdateBudgetDto(
    userId: Option<string>, familyId: Option<string>, category: Option<string>, limitAmount: Option<Amount>, month: Option<string>)

  datatype BudgetData = One(id: Id, budget: Budget) | Many(budgets: map<Id, Budget>) | Text(text: string)

  function OwnerOf(b: Budget): Id {
    b.userId
  }

  /** `{ ...dto, user_id: jwt.sub }`: the caller owns the row whatever the body says; the body's
      family is kept. */
  function NewBudget(dto: CreateBudgetDto, owner: Id): (b: Budget)
    ensures b.userId == owner && b.familyId == Some(dto.familyId)
  {
    Budget(owner, Some(dto.familyId), dto.category, dto.limitAmount, dto.month)
  }

  /** `update({ data: dto })`: each present field replaces the stored one, the owner included. */
  function ApplyUpdate(b: Budget, u: UpdateBudgetDto): (r: Budget)
    ensures u.userId.None? ==> r.userId == b.userId
    ensures u.userId.Some? ==> r.userId == u.userId.value
  {
    Budget(u.userId.GetOr(b.userId),
           if u.familyId.Some? then u.familyId else b.familyId,
           u.category.GetOr(b.category),
           u.limitAmount.GetOr(b.limitAmount),
           u.month.GetOr(b.month))
  }

  /** Because the update body may carry `user_id`, an owner can hand a budget over to another
      user, after which it shows in that user's list and no longer in its own. */
  lemma {:induction false} UpdateCanHandOverABudget(table: map<Id, Budget>, id: Id, me: Id, other: Id, u: UpdateBudgetDto)
    requires id in table && table[id].userId == me && other != me && u.userId == Some(other)
    ensures var after := table[id := ApplyUpdate(table[id], u)];
            && id in Owned(after, OwnerOf, Is(Some(other)))
            && id !in Owned(after, OwnerOf, Is(Some(me)))
  {
    var after := table[id := ApplyUpdate(table[id], u)];
    assert OwnerOf(after[id]) == other;
  }

  class BudgetService {
    const prisma: Prisma

    constructor (prisma: Prisma)
      ensures this.prisma == prisma
    {
      this.prisma := prisma;
    }

    /** `create`. */
    method Create(dto: CreateBudgetDto, req: Request, env: Env, newId: Id) returns (r: ApiResponse<BudgetData>)
      modifies prisma`budgets
      ensures env.jwtSecret == "" ==> r == Fail("Server Error", env.now) && prisma.budgets == old(prisma.budgets)
      ensures var c := CallerFromCookie(req, env);
              env.jwtSecret != "" && (c.None? || c.value.sub.None? || newId in old(prisma.budgets)) ==>
                r == Fail("Error creating Budget", env.now) && prisma.budgets == old(prisma.budgets)
      ensures var c := CallerFromCookie(req, env);
              env.jwtSecret != "" && c.Some? && c.value.sub.Some? && newId !in old(prisma.budgets) ==>
                var b := NewBudget(dto, c.value.sub.value);
                r == Ok(One(newId, b), env.now) && prisma.budgets == old(prisma.budgets)[newId := b]
    {
      if env.jwtSecret == "" {
        return Fail("Server Error", env.now);
      }
      var c := CallerFromCookie(req, env);
      if c.None? || c.value.sub.None? || newId in prisma.budgets {
        return Fail("Error creating Budget", env.now);
      }
      var b := NewBudget(dto, c.value.sub.value);
      prisma.budgets := prisma.budgets[newId := b];
      r := Ok(One(newId, b), env.now);
    }

    /** `findAll`: exactly the caller's budgets. */
    method FindAll(req: Request, env: Env) returns (r: ApiResponse<BudgetData>)
      ensures env.jwtSecret == "" ==> r == Fail("Internal Server Error", env.now)
      ensures env.jwtSecret != "" && CallerFromCookie(req, env).None? ==> r == Fail("Error getting budgets", env.now)
      ensures var c := CallerFromCookie(req, env);
              env.jwtSecret != "" && c.Some? ==>
                && r.data.Some? && r.data.value.Many?
                && (forall k :: k in r.data.value.budgets <==> k in prisma.budgets && Holds(WhereDefined(c.value.sub), Some(prisma.budgets[k].userId)))
                && (forall k :: k in r.data.value.budgets ==> r.data.value.budgets[k] == prisma.budgets[k])
    {
      if env.jwtSecret == "" {
        return Fail("Internal Server Error", env.now);
      }
      var c := CallerFromCookie(req, env);
      if c.None? {
        return Fail("Error getting budgets", env.now);
      }
      r := Ok(Many(Owned(prisma.budgets, OwnerOf, WhereDefined(c.value.sub))), env.now);
    }

    /** `findOne(id)`: the budget only when the caller owns it. */
    method FindOne(id: Id, req: Request, env: Env) returns (r: ApiResponse<BudgetData>)
      ensures env.jwtSecret == "" ==> r == Fail("Internal Server Error", env.now)
      ensures env.jwtSecret != "" && CallerFromCookie(req, env).None? ==> r == Fail("Error getting budget", env.now)
      ensures var c := CallerFromCookie(req, env);
              env.jwtSecret != "" && c.Some? ==>
                && (!OwnsRow(prisma.budgets, OwnerOf, id, WhereDefined(c.value.sub)) ==> r == Fail("Budget not found", env.now))
                && (OwnsRow(prisma.budgets, OwnerOf, id, WhereDefined(c.value.sub)) ==> r == Ok(One(id, prisma.budgets[id]), env.now))
    {
      if env.jwtSecret == "" {
        return Fail("Internal Server Error", env.now);
      }
      var c := CallerFromCookie(req, env);
      if c.None? {
        return Fail("Error getting budget", env.now);
      }
      if !OwnsRow(prisma.budgets, OwnerOf, id, WhereDefined(c.value.sub)) {
        return Fail("Budget not found", env.now);
      }
      r := Ok(One(id, prisma.budgets[id]), env.now);
    }

    /** `update(id, dto)`: only a budget the caller owns, and only that row, changes. */
    method Update(id: Id, dto: UpdateBudgetDto, req: Request, env: Env) returns (r: ApiResponse<BudgetData>)
      modifies prisma`budgets
      ensures env.jwtSecret == "" ==> r == Fail("Internal Server Error", env.now) && prisma.budgets == old(prisma.budgets)
      ensures env.jwtSecret != "" && CallerFromCookie(req, env).None? ==>
                r == Fail("Error updating budget", env.now) && prisma.budgets == old(prisma.budgets)
      ensures var c := CallerFromCookie(req, env);
              env.jwtSecret != "" && c.Some? ==>
                && (!OwnsRow(old(prisma.budgets), OwnerOf, id, WhereDefined(c.value.sub)) ==>
                      r == Fail("Budget not found", env.now) && prisma.budgets == old(prisma.budgets))
                && (OwnsRow(old(prisma.budgets), OwnerOf, id, WhereDefined(c.value.sub)) ==>
                      var b := ApplyUpdate(old(prisma.budgets)[id], dto);
                      r == Ok(One(id, b), env.now) && prisma.budgets == old(prisma.budgets)[id := b])
    {
      if env.jwtSecret == "" {
        return Fail("Internal Server Error", env.now);
      }
      var c := CallerFromCookie(req, env);
      if c.None? {
        return Fail("Error updating budget", env.now);
      }
      if !OwnsRow(prisma.budgets, OwnerOf, id, WhereDefined(c.value.sub)) {
        return Fail("Budget not found", env.now);
      }
      var b := ApplyUpdate(prisma.budgets[id], dto);
      prisma.budgets := prisma.budgets[id := b];
      r := Ok(One(id, b), env.now);
    }

    /** `remove(id)`: deletes a budget the caller owns and nothing else. */
    method Remove(id: Id, req: Request, env: Env) returns (r: ApiResponse<BudgetData>)
      modifies prisma`budgets
      ensures env.jwtSecret == "" ==> r == Fail("Internal Server Error", env.now) && prisma.budgets == old(prisma.budgets)
      ensures env.jwtSecret != "" && CallerFromCookie(req, env).None? ==>
                r == Fail("Error deleting budget", env.now) && prisma.budgets == old(prisma.budgets)
      ensures var c := CallerFromCookie(req, env);
              env.jwtSecret != "" && c.Some? ==>
                && (!OwnsRow(old(prisma.budgets), OwnerOf, id, WhereDefined(c.value.sub)) ==>
                      r == Fail("Budget not found", env.now) && prisma.budgets == old(prisma.budgets))
                && (OwnsRow(old(prisma.budgets), OwnerOf, id, WhereDefined(c.value.sub)) ==>
                      r == Ok(Text("Budget deleted successfully"), env.now) && prisma.budgets == old(prisma.budgets) - {id})
    {
      if env.jwtSecret == "" {
        return Fail("Internal Server Error", env.now);
      }
      var c := CallerFromCookie(req, env);
      if c.None? {
        return Fail("Error deleting budget", env.now);
      }
      if !OwnsRow(prisma.budgets, OwnerOf, id, WhereDefined(c.value.sub)) {
        return Fail("Budget not found", env.now);
      }
      prisma.budgets := prisma.budgets - {id};
      r := Ok(Text("Budget deleted successfully"), env.now);
    }

    /** `createFamilyBudget(familyId, dto)`: the route's family and the caller override the body. */
    method CreateFamilyBudget(familyId: Id, dto: CreateBudgetDto, req: Request, env: Env, newId: Id) returns (r: ApiResponse<BudgetData>)
      modifies prisma`budgets
      ensures env.jwtSecret == "" ==> r == Fail("Server Error", env.now) && prisma.budgets == old(prisma.budgets)
      ensures var c := CallerFromCookie(req, env);
              env.jwtSecret != "" && (c.None? || c.value.sub.None? || newId in old(prisma.budgets)) ==>
                r == Fail("Error creating Family Budget", env.now) && prisma.budgets == old(prisma.budgets)
      ensures var c := CallerFromCookie(req, env);
              env.jwtSecret != "" && c.Some? && c.value.sub.Some? && newId !in old(prisma.budgets) ==>
                var b := NewBudget(dto, c.value.sub.value).(familyId := Some(familyId));
                && b.userId == c.value.sub.value && b.familyId == Some(familyId)
                && r == Ok(One(newId, b), env.now) && prisma.budgets == old(prisma.budgets)[newId := b]
    {
      if env.jwtSecret == "" {
        return Fail("Server Error", env.now);
      }
      var c := CallerFromCookie(req, env);
      if c.None? || c.value.sub.None? || newId in prisma.budgets {
        return Fail("Error creating Family Budget", env.now);
      }
      var b := NewBudget(dto, c.value.sub.value).(familyId := Some(familyId));
      prisma.budgets := prisma.budgets[newId := b];
      r := Ok(One(newId, b), env.now);
    }

    /** `getFamilyBudgets(familyId)`: every budget of the family, for any authenticated caller —
        membership is not checked. */
    method GetFamilyBudgets(familyId: Id, req: Request, env: Env) returns (r: ApiResponse<BudgetData>)
      ensures env.jwtSecret == "" ==> r == Fail("Internal Server Error", env.now)
      ensures env.jwtSecret != "" && CallerFromCookie(req, env).None? ==> r == Fail("Error getting budgets", env.now)
      ensures env.jwtSecret != "" && CallerFromCookie(req, env).Some? ==>
                && r.data.Some? && r.data.value.Many?
                && (forall k :: k in r.data.value.budgets <==> k in prisma.budgets && prisma.budgets[k].familyId == Some(familyId))
                && (forall k :: k in r.data.value.budgets ==> r.data.value.budgets[k] == prisma.budgets[k])
    {
      if env.jwtSecret == "" {
        return Fail("Internal Server Error", env.now);
      }
      var c := CallerFromCookie(req, env);
      if c.None? {
        return Fail("Error getting budgets", env.now);
      }
      r := Ok(Many(KeepWhere(prisma.budgets, (b: Budget) => b.familyId == Some(familyId))), env.now);
    }
  }
}
