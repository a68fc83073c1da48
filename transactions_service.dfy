/** `TransactionsService`: a user's transactions, personal (no family) or family ones. */
module Transactions {
  import opened Base
  import opened Js
  import opened Http
  import opened Jwt
  import opened Store
  import opened ResponseUtil
  import opened Records
  import Families

  /** The validated body; `description` and `familyId` are optional. */
  datatype CreateTransactionDto = CreateTransactionDto(
    description: Option<string>, category: string, amount: Amount, date: string, isRecurring: bool, familyId: Option<Id>, source: string)

  datatype TransactionData =
    | One(id: Id, transaction: Transaction)
    | Maybe(found: Option<(Id, Transaction)>)
    | Many(transactions: map<Id, Transaction>)
    | Text(text: string)

  function OwnerOf(t: Transaction): Id {
    t.userId
  }

  /** `{ ...body, user_id: jwt.sub }`: the caller owns the row; the body's family is kept. */
  function NewTransaction(dto: CreateTransactionDto, owner: Id): (t: Transaction)
    ensures t.userId == owner && t.familyId == dto.familyId
  {
    Transaction(owner, dto.familyId, dto.description, dto.category, dto.amount, dto.date, dto.isRecurring, dto.source)
  }

  /** `findMany({ where: { user_id, familyId: null } })`: the caller's personal transactions. */
  function Personal(table: map<Id, Transaction>, owner: Where): (r: map<Id, Transaction>)
    ensures forall k :: k in r <==> k in table && Holds(owner, Some(table[k].userId)) && table[k].familyId.None?
    ensures forall k :: k in r ==> r[k] == table[k]
  {
    KeepWhere(table, (t: Transaction) => Holds(owner, Some(t.userId)) && t.familyId.None?)
  }

  /** The outcome of `findFamTransaction`'s decision: refuse, or filter on `familyId`. */
  datatype Scope = NotInFamily | FamilyFilter(familyId: Where)

  /** The decision as written. `user` is `findUnique({ id: sub })` and `user.family` is taken to
      be the family the user administers. A user with no `familyId` who administers a family is
      refused; an administrator with a family sees it; everyone else filters on their own
      `familyId` — `null` for a user in no family, and `undefined` (no condition) when the user
      row is missing. */
  ghost function FamilyScopeAsWritten(users: map<Id, User>, families: map<Id, Family>, sub: Id): Scope {
    if sub !in users then FamilyFilter(Any)
    else
      var user := users[sub];
      var family := Families.AdministeredFamily(families, sub);
      if !TruthyStr(user.familyId) && family.Some? then NotInFamily
      else if user.role == FamilyAdmin && family.Some? then FamilyFilter(Is(family))
      else FamilyFilter(Is(user.familyId))
  }

  /** The decision the branch evidently means: refuse anyone who neither belongs to nor
      administers a family. */
  ghost function FamilyScope(users: map<Id, User>, families: map<Id, Family>, sub: Id): (s: Scope)
    ensures s.FamilyFilter? ==> s.familyId.Is? && s.familyId.value.Some?
    ensures s.FamilyFilter? ==>
              sub in users
              && (users[sub].familyId == s.familyId.value
                  || (s.familyId.value.value in families && families[s.familyId.value.value].adminId == sub))
  {
    if sub !in users then NotInFamily
    else
      var user := users[sub];
      var family := Families.AdministeredFamily(families, sub);
      if user.role == FamilyAdmin && family.Some? then FamilyFilter(Is(family))
      else if TruthyStr(user.familyId) then FamilyFilter(Is(user.familyId))
      else NotInFamily
  }

  /** The rows a scope returns. */
  function InScope(table: map<Id, Transaction>, w: Where): (r: map<Id, Transaction>)
    ensures forall k :: k in r <==> k in table && Holds(w, table[k].familyId)
    ensures forall k :: k in r ==> r[k] == table[k]
  {
    KeepWhere(table, (t: Transaction) => Holds(w, t.familyId))
  }

  /** As written, a user in no family — the refusal fires only for administrators — is handed
      everyone's personal transactions: here "u" sees the transaction "t" of "v". */
  lemma PersonalTransactionsLeakToFamilylessUsers()
    ensures var users := map["u" := User("U", "u@x", "h", UserRole, Active, false, None, None),
                             "v" := User("V", "v@x", "h", UserRole, Active, false, None, None)];
            var table := map["t" := Transaction("v", None, None, "food", 1.0, "2024-01-01", false, "card")];
            var s := FamilyScopeAsWritten(users, map[], "u");
            s.FamilyFilter? && "t" in InScope(table, s.familyId) && table["t"].userId != "u"
  {
    var users := map["u" := User("U", "u@x", "h", UserRole, Active, false, None, None),
                     "v" := User("V", "v@x", "h", UserRole, Active, false, None, None)];
    assert Families.AdministeredFamily(map[], "u").None?;
    assert FamilyScopeAsWritten(users, map[], "u") == FamilyFilter(Is(None));
  }

  /** With the intended decision a caller only ever sees transactions of a family it belongs to
      or administers. */
  lemma FamilyScopeStaysInTheFamily(users: map<Id, User>, families: map<Id, Family>, table: map<Id, Transaction>, sub: Id, k: Id)
    requires FamilyScope(users, families, sub).FamilyFilter?
    requires k in InScope(table, FamilyScope(users, families, sub).familyId)
    ensures table[k].familyId.Some?
    ensures var f := table[k].familyId.value;
            sub in users && (users[sub].familyId == Some(f) || (f in families && families[f].adminId == sub))
  {
  }

  class TransactionsService {
    const prisma: Prisma

    constructor (prisma: Prisma)
      ensures this.prisma == prisma
    {
      this.prisma := prisma;
    }

    /** `create`: the caller owns the new transaction; `createFamily` is the same operation. */
    method Create(dto: CreateTransactionDto, req: Request, env: Env, newId: Id) returns (r: ApiResponse<TransactionData>)
      modifies prisma`transactions
      ensures env.jwtSecret == "" ==> r == Fail("Internal Server Error", env.now) && prisma.transactions == old(prisma.transactions)
      ensures var c := CallerFromCookie(req, env);
              env.jwtSecret != "" && (c.None? || c.value.sub.None? || newId in old(prisma.transactions)) ==>
                r == Fail("Error creating transaction", env.now) && prisma.transactions == old(prisma.transactions)
      ensures var c := CallerFromCookie(req, env);
              env.jwtSecret != "" && c.Some? && c.value.sub.Some? && newId !in old(prisma.transactions) ==>
                var t := NewTransaction(dto, c.value.sub.value);
                r == Ok(One(newId, t), env.now) && prisma.transactions == old(prisma.transactions)[newId := t]
    {
      if env.jwtSecret == "" {
        return Fail("Internal Server Error", env.now);
      }
      var c := CallerFromCookie(req, env);
      if c.None? || c.value.sub.None? || newId in prisma.transactions {
        return Fail("Error creating transaction", env.now);
      }
      var t := NewTransaction(dto, c.value.sub.value);
      prisma.transactions := prisma.transactions[newId := t];
      r := Ok(One(newId, t), env.now);
    }

    /** `createFamily`: the same effect and answers as `create`, except that the missing-secret
        message drops a letter. */
    method CreateFamily(dto: CreateTransactionDto, req: Request, env: Env, newId: Id) returns (r: ApiResponse<TransactionData>)
      modifies prisma`transactions
      ensures env.jwtSecret == "" ==> r == Fail("Interna Server Error", env.now) && prisma.transactions == old(prisma.transactions)
      ensures var c := CallerFromCookie(req, env);
              env.jwtSecret != "" && (c.None? || c.value.sub.None? || newId in old(prisma.transactions)) ==>
                r == Fail("Error creating transaction", env.now) && prisma.transactions == old(prisma.transactions)
      ensures var c := CallerFromCookie(req, env);
              env.jwtSecret != "" && c.Some? && c.value.sub.Some? && newId !in old(prisma.transactions) ==>
                var t := NewTransaction(dto, c.value.sub.value);
                r == Ok(One(newId, t), env.now) && prisma.transactions == old(prisma.transactions)[newId := t]
    {
      if env.jwtSecret == "" {
        return Fail("Interna Server Error", env.now);
      }
      r := Create(dto, req, env, newId);
    }

    /** `findAll`: the caller's transactions that belong to no family. */
    method FindAll(req: Request, env: Env) returns (r: ApiResponse<TransactionData>)
      ensures env.jwtSecret == "" ==> r == Fail("Internal Server Error", env.now)
      ensures env.jwtSecret != "" && CallerFromCookie(req, env).None? ==> r == Fail("Error finding transactions", env.now)
      ensures var c := CallerFromCookie(req, env);
              env.jwtSecret != "" && c.Some? && c.value.sub.Some? ==>
                && r.data.Some? && r.data.value.Many?
                && (forall k :: k in r.data.value.transactions <==>
                      k in prisma.transactions && prisma.transactions[k].userId == c.value.sub.value && prisma.transactions[k].familyId.None?)
                && (forall k :: k in r.data.value.transactions ==> r.data.value.transactions[k] == prisma.transactions[k])
    {
      if env.jwtSecret == "" {
        return Fail("Internal Server Error", env.now);
      }
      var c := CallerFromCookie(req, env);
      if c.None? {
        return Fail("Error finding transactions", env.now);
      }
      r := Ok(Many(Personal(prisma.transactions, WhereDefined(c.value.sub))), env.now);
    }

    /** `findOne(id)`: succeeds whether or not the caller owns such a transaction; the data is
        `null` when it does not. */
    method FindOne(id: Id, req: Request, env: Env) returns (r: ApiResponse<TransactionData>)
      ensures env.jwtSecret == "" ==> r == Fail("Interna Server Error", env.now)
      ensures env.jwtSecret != "" && CallerFromCookie(req, env).None? ==> r == Fail("Error finding transaction", env.now)
      ensures var c := CallerFromCookie(req, env);
              env.jwtSecret != "" && c.Some? ==>
                && r.errors.None? && r.data.Some? && r.data.value.Maybe?
                && (r.data.value.found.Some? <==> OwnsRow(prisma.transactions, OwnerOf, id, WhereDefined(c.value.sub)))
                && (r.data.value.found.Some? ==> r.data.value.found.value == (id, prisma.transactions[id]))
    {
      if env.jwtSecret == "" {
        return Fail("Interna Server Error", env.now);
      }
      var c := CallerFromCookie(req, env);
      if c.None? {
        return Fail("Error finding transaction", env.now);
      }
      if OwnsRow(prisma.transactions, OwnerOf, id, WhereDefined(c.value.sub)) {
        r := Ok(Maybe(Some((id, prisma.transactions[id]))), env.now);
      } else {
        r := Ok(Maybe(None), env.now);
      }
    }

    /** `remove(id)`: deletes `{ id, user_id }`; when no row matches the delete throws, which is
        reported, and nothing is deleted. */
    method Remove(id: Id, req: Request, env: Env) returns (r: ApiResponse<TransactionData>)
      modifies prisma`transactions
      ensures env.jwtSecret == "" ==> r == Fail("Interna Server Error", env.now) && prisma.transactions == old(prisma.transactions)
      ensures var c := CallerFromCookie(req, env);
              env.jwtSecret != "" && (c.None? || !OwnsRow(old(prisma.transactions), OwnerOf, id, WhereDefined(c.value.sub))) ==>
                r == Fail("Error deleting transaction", env.now) && prisma.transactions == old(prisma.transactions)
      ensures var c := CallerFromCookie(req, env);
              env.jwtSecret != "" && c.Some? && OwnsRow(old(prisma.transactions), OwnerOf, id, WhereDefined(c.value.sub)) ==>
                r == Ok(Text("Success deleting transaction"), env.now) && prisma.transactions == old(prisma.transactions) - {id}
    {
      if env.jwtSecret == "" {
        return Fail("Interna Server Error", env.now);
      }
      var c := CallerFromCookie(req, env);
      if c.None? || !OwnsRow(prisma.transactions, OwnerOf, id, WhereDefined(c.value.sub)) {
        return Fail("Error deleting transaction", env.now);
      }
      prisma.transactions := prisma.transactions - {id};
      r := Ok(Text("Success deleting transaction"), env.now);
    }

    /** `findFamTransaction`: the family transactions the written decision selects. A token
        without a subject makes `findUnique` throw. */
    method FindFamTransaction(req: Request, env: Env) returns (r: ApiResponse<TransactionData>)
      requires prisma.Valid()
      ensures env.jwtSecret == "" ==> r == Fail("Interna Server Error", env.now)
      ensures var c := CallerFromCookie(req, env);
              env.jwtSecret != "" && (c.None? || c.value.sub.None?) ==> r == Fail("Error creating transaction", env.now)
      ensures var c := CallerFromCookie(req, env);
              env.jwtSecret != "" && c.Some? && c.value.sub.Some? ==>
                match FamilyScopeAsWritten(prisma.users, prisma.families, c.value.sub.value)
                case NotInFamily => r == Fail("User does not belong to a family", env.now)
                case FamilyFilter(w) => r == Ok(Many(InScope(prisma.transactions, w)), env.now)
    {
      if env.jwtSecret == "" {
        return Fail("Interna Server Error", env.now);
      }
      var c := CallerFromCookie(req, env);
      if c.None? || c.value.sub.None? {
        return Fail("Error creating transaction", env.now);
      }
      var sub := c.value.sub.value;
      if sub !in prisma.users {
        return Ok(Many(InScope(prisma.transactions, Any)), env.now);
      }
      var user := prisma.users[sub];
      var family: Option<Id> := None;
      if exists f :: f in prisma.families && prisma.families[f].adminId == sub {
        var f :| f in prisma.families && prisma.families[f].adminId == sub;
        assert Families.AdministeredFamily(prisma.families, sub) == Some(f);
        family := Some(f);
      }
      if !TruthyStr(user.familyId) && family.Some? {
        return Fail("User does not belong to a family", env.now);
      }
      if user.role == FamilyAdmin && family.Some? {
        r := Ok(Many(InScope(prisma.transactions, Is(family))), env.now);
      } else {
        r := Ok(Many(InScope(prisma.transactions, Is(user.familyId))), env.now);
      }
    }
  }
}
