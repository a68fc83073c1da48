/** `InvestmentService`: a user's investment holdings. */
module Investments {
  import opened Base
  import opened Http
  import opened Jwt
  import opened Store
  import opened ResponseUtil
  import opened Records

  datatype CreateInvestmentDto = CreateInvestmentDto(symbol: string, quantity: Amount, purchasePrice: Amount, purchaseDate: string)

  /** The update body: every create field, each optional; it has no owner field. */
  datatype UpdateInvestmentDto = UpdateInvestmentDto(
    symbol: Option<string>, quantity: Option<Amount>, purchasePrice: Option<Amount>, purchaseDate: Option<string>)

  datatype InvestmentData = One(id: Id, investment: Investment) | Many(investments: map<Id, Investment>) | Deleted(message: string)

  function OwnerOf(i: Investment): Id {
    i.userId
  }

  /** `{ ...dto, user_id: jwt.sub }`. */
  function NewInvestment(dto: CreateInvestmentDto, owner: Id): (i: Investment)
    ensures i.userId == owner
  {
    Investment(owner, dto.symbol, dto.quantity, dto.purchasePrice, dto.purchaseDate)
  }

  /** `update({ data: dto })`: present fields replace stored ones; the owner never changes. */
  function ApplyUpdate(i: Investment, u: UpdateInvestmentDto): (r: Investment)
    ensures r.userId == i.userId
    ensures u == UpdateInvestmentDto(None, None, None, None) ==> r == i
  {
    Investment(i.userId, u.symbol.GetOr(i.symbol), u.quantity.GetOr(i.quantity), u.purchasePrice.GetOr(i.purchasePrice), u.purchaseDate.GetOr(i.purchaseDate))
  }

  /** An owner's update leaves every other user's holdings as they were. */
  lemma UpdateKeepsOthersHoldings(table: map<Id, Investment>, id: Id, u: UpdateInvestmentDto, me: Id, other: Id)
    requires id in table && table[id].userId == me && other != me
    ensures Owned(table[id := ApplyUpdate(table[id], u)], OwnerOf, Is(Some(other))) == Owned(table, OwnerOf, Is(Some(other)))
  {
    WritingOwnRowKeepsOthersViews(table, OwnerOf, id, ApplyUpdate(table[id], u), me, other);
  }

  class InvestmentService {
    const prisma: Prisma

    constructor (prisma: Prisma)
      ensures this.prisma == prisma
    {
      this.prisma := prisma;
    }

    /** `create`: the caller owns the new holding. */
    method Create(dto: CreateInvestmentDto, req: Request, env: Env, newId: Id) returns (r: ApiResponse<InvestmentData>)
      modifies prisma`investments
      ensures env.jwtSecret == "" ==> r == Fail("Server Error", env.now) && prisma.investments == old(prisma.investments)
      ensures var c := CallerFromCookie(req, env);
              env.jwtSecret != "" && (c.None? || c.value.sub.None? || newId in old(prisma.investments)) ==>
                r == Fail("Error creating Investment", env.now) && prisma.investments == old(prisma.investments)
      ensures var c := CallerFromCookie(req, env);
              env.jwtSecret != "" && c.Some? && c.value.sub.Some? && newId !in old(prisma.investments) ==>
                var i := NewInvestment(dto, c.value.sub.value);
                r == Ok(One(newId, i), env.now) && prisma.investments == old(prisma.investments)[newId := i]
    {
      if env.jwtSecret == "" {
        return Fail("Server Error", env.now);
      }
      var c := CallerFromCookie(req, env);
      if c.None? || c.value.sub.None? || newId in prisma.investments {
        return Fail("Error creating Investment", env.now);
      }
      var i := NewInvestment(dto, c.value.sub.value);
      prisma.investments := prisma.investments[newId := i];
      r := Ok(One(newId, i), env.now);
    }

    /** `findAll`: exactly the caller's holdings. */
    method FindAll(req: Request, env: Env) returns (r: ApiResponse<InvestmentData>)
      ensures env.jwtSecret == "" ==> r == Fail("Internal Server Error", env.now)
      ensures env.jwtSecret != "" && CallerFromCookie(req, env).None? ==> r == Fail("Error getting investments", env.now)
      ensures var c := CallerFromCookie(req, env);
              env.jwtSecret != "" && c.Some? ==>
                && r.data.Some? && r.data.value.Many?
                && (forall k :: k in r.data.value.investments <==> k in prisma.investments && Holds(WhereDefined(c.value.sub), Some(prisma.investments[k].userId)))
                && (forall k :: k in r.data.value.investments ==> r.data.value.investments[k] == prisma.investments[k])
    {
      if env.jwtSecret == "" {
        return Fail("Internal Server Error", env.now);
      }
      var c := CallerFromCookie(req, env);
      if c.None? {
        return Fail("Error getting investments", env.now);
      }
      r := Ok(Many(Owned(prisma.investments, OwnerOf, WhereDefined(c.value.sub))), env.now);
    }

    /** `findOne(id)`: the holding only when the caller owns it. */
    method FindOne(id: Id, req: Request, env: Env) returns (r: ApiResponse<InvestmentData>)
      ensures env.jwtSecret == "" ==> r == Fail("Internal Server Error", env.now)
      ensures env.jwtSecret != "" && CallerFromCookie(req, env).None? ==> r == Fail("Error getting investment", env.now)
      ensures var c := CallerFromCookie(req, env);
              env.jwtSecret != "" && c.Some? ==>
                && (!OwnsRow(prisma.investments, OwnerOf, id, WhereDefined(c.value.sub)) ==> r == Fail("Investment not found", env.now))
                && (OwnsRow(prisma.investments, OwnerOf, id, WhereDefined(c.value.sub)) ==> r == Ok(One(id, prisma.investments[id]), env.now))
    {
      if env.jwtSecret == "" {
        return Fail("Internal Server Error", env.now);
      }
      var c := CallerFromCookie(req, env);
      if c.None? {
        return Fail("Error getting investment", env.now);
      }
      if !OwnsRow(prisma.investments, OwnerOf, id, WhereDefined(c.value.sub)) {
        return Fail("Investment not found", env.now);
      }
      r := Ok(One(id, prisma.investments[id]), env.now);
    }

    /** `update(id, dto)`: only a holding the caller owns, and only that row, changes. */
    method Update(id: Id, dto: UpdateInvestmentDto, req: Request, env: Env) returns (r: ApiResponse<InvestmentData>)
      modifies prisma`investments
      ensures env.jwtSecret == "" ==> r == Fail("Internal Server Error", env.now) && prisma.investments == old(prisma.investments)
      ensures env.jwtSecret != "" && CallerFromCookie(req, env).None? ==>
                r == Fail("Error updating investment", env.now) && prisma.investments == old(prisma.investments)
      ensures var c := CallerFromCookie(req, env);
              env.jwtSecret != "" && c.Some? ==>
                && (!OwnsRow(old(prisma.investments), OwnerOf, id, WhereDefined(c.value.sub)) ==>
                      r == Fail("Investment not found", env.now) && prisma.investments == old(prisma.investments))
                && (OwnsRow(old(prisma.investments), OwnerOf, id, WhereDefined(c.value.sub)) ==>
                      var i := ApplyUpdate(old(prisma.investments)[id], dto);
                      r == Ok(One(id, i), env.now) && prisma.investments == old(prisma.investments)[id := i])
    {
      if env.jwtSecret == "" {
        return Fail("Internal Server Error", env.now);
      }
      var c := CallerFromCookie(req, env);
      if c.None? {
        return Fail("Error updating investment", env.now);
      }
      if !OwnsRow(prisma.investments, OwnerOf, id, WhereDefined(c.value.sub)) {
        return Fail("Investment not found", env.now);
      }
      var i := ApplyUpdate(prisma.investments[id], dto);
      prisma.investments := prisma.investments[id := i];
      r := Ok(One(id, i), env.now);
    }

    /** `remove(id)`: deletes a holding the caller owns and nothing else. */
    method Remove(id: Id, req: Request, env: Env) returns (r: ApiResponse<InvestmentData>)
      modifies prisma`investments
      ensures env.jwtSecret == "" ==> r == Fail("Internal Server Error", env.now) && prisma.investments == old(prisma.investments)
      ensures env.jwtSecret != "" && CallerFromCookie(req, env).None? ==>
                r == Fail("Error deleting investment", env.now) && prisma.investments == old(prisma.investments)
      ensures var c := CallerFromCookie(req, env);
              env.jwtSecret != "" && c.Some? ==>
                && (!OwnsRow(old(prisma.investments), OwnerOf, id, WhereDefined(c.value.sub)) ==>
                      r == Fail("Investment not found", env.now) && prisma.investments == old(prisma.investments))
                && (OwnsRow(old(prisma.investments), OwnerOf, id, WhereDefined(c.value.sub)) ==>
                      r == Ok(Deleted("Investment deleted successfully"), env.now) && prisma.investments == old(prisma.investments) - {id})
    {
      if env.jwtSecret == "" {
        return Fail("Internal Server Error", env.now);
      }
      var c := CallerFromCookie(req, env);
      if c.None? {
        return Fail("Error deleting investment", env.now);
      }
      if !OwnsRow(prisma.investments, OwnerOf, id, WhereDefined(c.value.sub)) {
        return Fail("Investment not found", env.now);
      }
      prisma.investments := prisma.investments - {id};
      r := Ok(Deleted("Investment deleted successfully"), env.now);
    }
  }
}
