/** The relational store (the Prisma client) as in-memory tables: one map from id to row per table. */
module Store {
  import opened Base

  /** Row identifiers and foreign keys (uuids in the database). */
  type Id = string

  datatype Status = Pending | Active

  datatype Role = UserRole | FamilyAdmin | Admin

  /** The role's stored name. */
  function RoleName(r: Role): string {
    match r
    case UserRole => "USER"
    case FamilyAdmin => "FAMILY_ADMIN"
    case Admin => "ADMIN"
  }

  /** A user row. `password` holds the bcrypt hash; `familyId` is the family the user belongs to. */
  datatype User = User(
    name: string,
    email: string,
    password: string,
    role: Role,
    status: Status,
    is2FAEnabled: bool,
    twoFactorSecret: Option<string>,
    familyId: Option<Id>)

  datatype TokenType = Confirmation | Refresh | FamilyInvite

  /** A token row: an opaque nonce with its purpose and absolute expiry (ms since the epoch). Invites
      carry no owner but name the family and the invited member. */
  datatype Token = Token(
    userId: Option<Id>,
    value: string,
    kind: TokenType,
    expiresAt: int,
    familyId: Option<Id>,
    memberId: Option<Id>)

  /** A family row; its members are the users whose `familyId` names it. */
  datatype Family = Family(name: string, adminId: Id)

  /** Money fields are stored as the client sent them and never computed on. */
  type Amount = real

  datatype Budget = Budget(userId: Id, familyId: Option<Id>, category: string, limitAmount: Amount, month: string)

  datatype Investment = Investment(userId: Id, symbol: string, quantity: Amount, purchasePrice: Amount, purchaseDate: string)

  datatype Strategy = Snowball | Avalanche

  datatype DebtPlan = DebtPlan(userId: Id, debtName: string, amount: Amount, interestRate: Amount, strategy: Strategy)

  datatype Transaction = Transaction(
    userId: Id,
    familyId: Option<Id>,
    description: Option<string>,
    category: string,
    amount: Amount,
    date: string,
    isRecurring: bool,
    source: string)

  /** One equality condition of a Prisma where-object. Prisma drops a condition whose value is
      `undefined` (`Any`); otherwise the column must equal the value, `null` included. */
  datatype Where = Any | Is(value: Option<Id>)

  predicate Holds(w: Where, column: Option<Id>) {
    w.Any? || w.value == column
  }

  /** The condition `{ column: v }` for a value that is a string or `undefined`. */
  function WhereDefined(v: Option<Id>): (w: Where)
    ensures forall c :: Holds(w, c) <==> v.None? || c == v
  {
    if v.None? then Any else Is(v)
  }

  /** The rows of a table that a `deleteMany` leaves: those `keep` accepts, unchanged. */
  function KeepWhere<V>(table: map<Id, V>, keep: V -> bool): (r: map<Id, V>)
    ensures forall k :: k in r <==> k in table && keep(table[k])
    ensures forall k :: k in r ==> r[k] == table[k]
  {
    map k | k in table && keep(table[k]) :: table[k]
  }

  /** The unique constraint on `User.email`. */
  ghost predicate UniqueEmails(users: map<Id, User>) {
    forall i, j :: i in users && j in users && users[i].email == users[j].email ==> i == j
  }

  /** The compound unique constraint on (`token`, `type`). */
  ghost predicate UniqueTokenKeys(tokens: map<Id, Token>) {
    forall i, j ::
      i in tokens && j in tokens && tokens[i].value == tokens[j].value && tokens[i].kind == tokens[j].kind
      ==> i == j
  }

  /** A user administers at most one family (`admin_id` is taken to be unique: the schema that
      would say so is not part of this model). */
  ghost predicate UniqueAdmins(families: map<Id, Family>) {
    forall i, j :: i in families && j in families && families[i].adminId == families[j].adminId ==> i == j
  }

  predicate IsRefreshOf(t: Token, user: Id) {
    t.kind == Refresh && t.userId == Some(user)
  }

  /** The session invariant: at most one REFRESH row per user. */
  ghost predicate AtMostOneRefresh(tokens: map<Id, Token>) {
    forall i, j, u :: i in tokens && j in tokens && IsRefreshOf(tokens[i], u) && IsRefreshOf(tokens[j], u) ==> i == j
  }

  /** The injected `PrismaService`: every table the modelled services touch. */
  class Prisma {
    var users: map<Id, User>
    var tokens: map<Id, Token>
    var families: map<Id, Family>
    var budgets: map<Id, Budget>
    var investments: map<Id, Investment>
    var debtPlans: map<Id, DebtPlan>
    var transactions: map<Id, Transaction>

    /** The unique constraints on email and on (token, type), the assumed uniqueness of `admin_id`,
        and the one-refresh-row-per-user invariant the session code keeps. */
    ghost predicate Valid()
      reads this
    {
      UniqueEmails(users) && UniqueTokenKeys(tokens) && UniqueAdmins(families) && AtMostOneRefresh(tokens)
    }

    constructor ()
      ensures Valid()
      ensures users == map[] && tokens == map[] && families == map[]
      ensures budgets == map[] && investments == map[] && debtPlans == map[] && transactions == map[]
    {
      users, tokens, families := map[], map[], map[];
      budgets, investments, debtPlans, transactions := map[], map[], map[], map[];
    }
  }
}
