/** `FamilyService`: family lookup and creation, invitations and their acceptance, renaming,
    leaving, and the cascading delete. */
module Families {
  import opened Base
  import opened Js
  import opened Http
  import opened Jwt
  import opened Store
  import opened ResponseUtil
  import Notifications
  import Auth

  const FAMILY_ADMIN := "FAMILY_ADMIN"

  /** The `data` of a family response: a family with its members (`include: { members: true }`
      returns their whole rows), a bare family row, every family, or a message. */
  datatype FamilyData =
    | View(id: Id, family: Family, members: map<Id, User>)
    | Row(id: Id, family: Family)
    | All(families: map<Id, Family>)
    | Text(text: string)

  /** The users whose `familyId` names the family. */
  function MembersOf(users: map<Id, User>, family: Id): (r: map<Id, User>)
    ensures forall k :: k in r <==> k in users && users[k].familyId == Some(family)
    ensures forall k :: k in r ==> r[k] == users[k]
  {
    map k | k in users && users[k].familyId == Some(family) :: users[k]
  }

  predicate Administers(families: map<Id, Family>, user: Id) {
    exists f :: f in families && families[f].adminId == user
  }

  /** `family.findFirst({ where: { admin_id } })`; unique when `admin_id` is. */
  ghost function AdministeredFamily(families: map<Id, Family>, user: Id): (r: Option<Id>)
    ensures r.Some? <==> Administers(families, user)
    ensures r.Some? ==> r.value in families && families[r.value].adminId == user
  {
    if Administers(families, user) then var f :| f in families && families[f].adminId == user; Some(f) else None
  }

  /** The family `get_family` shows a caller with subject `sub`: for a FAMILY_ADMIN role claim the
      family it administers, otherwise the family its own row belongs to. */
  ghost function FamilyLookup(users: map<Id, User>, families: map<Id, Family>, role: Option<string>, sub: Id): Option<Id> {
    if role == Some(FAMILY_ADMIN) then AdministeredFamily(families, sub)
    else if sub in users && TruthyStr(users[sub].familyId) && users[sub].familyId.value in families then users[sub].familyId
    else None
  }

  function FamilyResponse(found: Option<Id>, users: map<Id, User>, families: map<Id, Family>, now: Time): ApiResponse<FamilyData>
    requires found.Some? ==> found.value in families
  {
    match found
    case None => Fail("User has no family", now)
    case Some(f) => Ok(View(f, families[f], MembersOf(users, f)), now)
  }

  /** The access tokens the session code issues carry no role claim, so for their holders
      `get_family` never takes the administrator branch: a caller sees a family exactly when its
      own row belongs to one. */
  lemma SessionCallersSeeOnlyTheirMembership(users: map<Id, User>, families: map<Id, Family>, u: Auth.SessionUser, f: Id)
    ensures FamilyLookup(users, families, Auth.SessionClaims(u).role, u.id) == Some(f) <==>
              u.id in users && users[u.id].familyId == Some(f) && f != "" && f in families
  {
  }

  /** Creating a family neither makes the creator a member nor changes its role, so a creator
      holding a session token is told it has no family right after creating one. */
  lemma CreatorDoesNotSeeNewFamily(users: map<Id, User>, families: map<Id, Family>, u: Auth.SessionUser, newId: Id, name: string)
    requires u.id in users && users[u.id].familyId.None?
    ensures FamilyLookup(users, families[newId := Family(name, u.id)], Auth.SessionClaims(u).role, u.id).None?
  {
  }

  /** `deleteMany({ where: { member_id } })` with the invite's member id (a null id selects every
      token without one). */
  function PurgeMember(tokens: map<Id, Token>, member: Option<Id>): (r: map<Id, Token>)
    ensures forall k :: k in r <==> k in tokens && tokens[k].memberId != member
    ensures forall k :: k in r ==> r[k] == tokens[k]
  {
    KeepWhere(tokens, (t: Token) => t.memberId != member)
  }

  /** The purge removes the accepted invite itself, and since (nonce, FAMILY) is unique no FAMILY
      token with that nonce is left: accepting the same nonce again answers "Invalid token". */
  lemma InviteIsSingleUse(tokens: map<Id, Token>, k: Id)
    requires UniqueTokenKeys(tokens)
    requires k in tokens && tokens[k].kind == FamilyInvite
    ensures k !in PurgeMember(tokens, tokens[k].memberId)
    ensures !Auth.KeyTaken(PurgeMember(tokens, tokens[k].memberId), tokens[k].value, FamilyInvite)
  {
  }

  /** `user.updateMany({ where: { familyId }, data: { familyId: null } })`. */
  function ClearFamily(users: map<Id, User>, family: Id): (r: map<Id, User>)
    ensures r.Keys == users.Keys
    ensures forall k :: k in r ==> r[k] == if users[k].familyId == Some(family) then users[k].(familyId := None) else users[k]
  {
    map k | k in users :: if users[k].familyId == Some(family) then users[k].(familyId := None) else users[k]
  }

  /** After the cascade nothing refers to the deleted family, and every row that did not refer to
      it is as it was. */
  lemma CascadeLeavesNoTrace(p: Prisma, family: Id)
    ensures var users := ClearFamily(p.users, family);
            var tokens := KeepWhere(p.tokens, (t: Token) => t.familyId != Some(family));
            var txs := KeepWhere(p.transactions, (t: Transaction) => t.familyId != Some(family));
            var budgets := KeepWhere(p.budgets, (b: Budget) => b.familyId != Some(family));
            && (forall k :: k in users ==> users[k].familyId != Some(family))
            && (forall k :: k in tokens ==> tokens[k].familyId != Some(family))
            && (forall k :: k in txs ==> txs[k].familyId != Some(family))
            && (forall k :: k in budgets ==> budgets[k].familyId != Some(family))
            && (forall k :: k in p.tokens && p.tokens[k].familyId != Some(family) ==> k in tokens && tokens[k] == p.tokens[k])
            && (forall k :: k in p.transactions && p.transactions[k].familyId != Some(family) ==> k in txs)
            && (forall k :: k in p.budgets && p.budgets[k].familyId != Some(family) ==> k in budgets)
  {
  }

  class FamilyService {
    const prisma: Prisma
    const notifications: Notifications.NotificationService

    constructor (prisma: Prisma, notifications: Notifications.NotificationService)
      ensures this.prisma == prisma && this.notifications == notifications
    {
      this.prisma := prisma;
      this.notifications := notifications;
    }

    /** `get_family`: reads only. */
    method GetFamily(req: Request, env: Env) returns (r: ApiResponse<FamilyData>)
      requires prisma.Valid()
      ensures env.jwtSecret == "" ==> r == Fail("Server Error", env.now)
      ensures env.jwtSecret != "" && CallerFromCookie(req, env).None? ==> r == Fail("Error fetching family", env.now)
      ensures var c := CallerFromCookie(req, env);
              env.jwtSecret != "" && c.Some? && c.value.sub.Some? ==>
                var found := FamilyLookup(prisma.users, prisma.families, c.value.role, c.value.sub.value);
                && (found.Some? ==> found.value in prisma.families)
                && r == FamilyResponse(found, prisma.users, prisma.families, env.now)
      ensures r.data.Some? ==>
                && r.data.value.View?
                && r.data.value.id in prisma.families
                && r.data.value.family == prisma.families[r.data.value.id]
                && r.data.value.members == MembersOf(prisma.users, r.data.value.id)
    {
      if env.jwtSecret == "" {
        return Fail("Server Error", env.now);
      }
      var c := CallerFromCookie(req, env);
      if c.None? {
        return Fail("Error fetching family", env.now);
      }
      var sub := c.value.sub;
      var user: Option<Id> := None;
      if exists k :: k in prisma.users && Holds(WhereDefined(sub), Some(k)) {
        var k :| k in prisma.users && Holds(WhereDefined(sub), Some(k));
        user := Some(k);
      }
      var family: Option<Id> := None;
      if c.value.role == Some(FAMILY_ADMIN) {
        if exists f :: f in prisma.families && Holds(WhereDefined(sub), Some(prisma.families[f].adminId)) {
          var f :| f in prisma.families && Holds(WhereDefined(sub), Some(prisma.families[f].adminId));
          family := Some(f);
          if sub.Some? {
            assert AdministeredFamily(prisma.families, sub.value) == Some(f);
          }
        }
      } else if user.Some? && TruthyStr(prisma.users[user.value].familyId) {
        var f := prisma.users[user.value].familyId.value;
        if f in prisma.families {
          family := Some(f);
        }
      }
      if family.None? {
        return Fail("User has no family", env.now);
      }
      r := Ok(View(family.value, prisma.families[family.value], MembersOf(prisma.users, family.value)), env.now);
    }

    /** `create(name)`: the caller becomes the family's administrator (its own row is not touched);
        the notification is attempted and its outcome does not change the answer. */
    method Create(name: string, req: Request, env: Env, newFamilyId: Id, notificationId: Id) returns (r: ApiResponse<FamilyData>)
      requires prisma.Valid() && notifications.model.Valid()
      modifies prisma`families, notifications.model`docs
      ensures prisma.Valid() && notifications.model.Valid()
      ensures env.jwtSecret == "" ==>
                r == Fail("Server Error", env.now) && prisma.families == old(prisma.families) && notifications.model.docs == old(notifications.model.docs)
      ensures var c := CallerFromCookie(req, env);
              env.jwtSecret != "" && (c.None? || c.value.sub.None? || newFamilyId in old(prisma.families) || Administers(old(prisma.families), c.value.sub.value)) ==>
                r == Fail("Error creating Family", env.now) && prisma.families == old(prisma.families) && notifications.model.docs == old(notifications.model.docs)
      ensures var c := CallerFromCookie(req, env);
              env.jwtSecret != "" && c.Some? && c.value.sub.Some? && newFamilyId !in old(prisma.families) && !Administers(old(prisma.families), c.value.sub.value) ==>
                var row := Family(name, c.value.sub.value);
                && r == Ok(Row(newFamilyId, row), env.now)
                && prisma.families == old(prisma.families)[newFamilyId := row]
                && notifications.model.docs == Notifications.AfterCreate(old(notifications.model.docs), c.value.sub,
                     Notifications.CreateNotificationDto("PUSH", "Family created: " + name), notificationId, notifications.model.sentAtDefault)
    {
      if env.jwtSecret == "" {
        return Fail("Server Error", env.now);
      }
      var c := CallerFromCookie(req, env);
      if c.None? || c.value.sub.None? || newFamilyId in prisma.families {
        return Fail("Error creating Family", env.now);
      }
      var admin := c.value.sub.value;
      if exists f :: f in prisma.families && prisma.families[f].adminId == admin {
        return Fail("Error creating Family", env.now);
      }
      var row := Family(name, admin);
      prisma.families := prisma.families[newFamilyId := row];
      var _ := notifications.CreateForUser(Some(admin), Notifications.CreateNotificationDto("PUSH", "Family created: " + name), notificationId, env.now);
      r := Ok(Row(newFamilyId, row), env.now);
    }

    /** `add_member`. An unknown email or a user already in a family is refused and nothing is
        written. Otherwise one FAMILY token naming the family and the member is created;
        `inviteExpiry` is the instant `new Date(Date() + 24h)` denotes, `None` when that
        concatenated string is an invalid date, which the insert rejects. The mail is then sent
        through `this.auth.send_mail`, which `AuthService` does not declare (`mailerBound` is false
        as compiled): the call throws, the answer is "Error sending mail" and the token stays. */
    method AddMember(familyId: Id, familyName: string, email: string, nonce: string, newTokenId: Id, inviteExpiry: Option<int>,
                     mailerBound: bool, notificationId: Id, now: Time)
      returns (r: ApiResponse<FamilyData>)
      requires prisma.Valid() && notifications.model.Valid()
      modifies prisma`tokens, notifications.model`docs
      ensures prisma.Valid() && notifications.model.Valid()
      ensures var id := Auth.UserWithEmail(prisma.users, email);
              id.None? || TruthyStr(prisma.users[id.value].familyId) ==>
                && r == Fail(if id.None? then "User does not exist" else "User already in a family", now)
                && prisma.tokens == old(prisma.tokens)
                && notifications.model.docs == old(notifications.model.docs)
      ensures var id := Auth.UserWithEmail(prisma.users, email);
              id.Some? && !TruthyStr(prisma.users[id.value].familyId)
              && (inviteExpiry.None? || newTokenId in old(prisma.tokens) || Auth.KeyTaken(old(prisma.tokens), nonce, FamilyInvite)) ==>
                r == Fail("Error sending mail", now) && prisma.tokens == old(prisma.tokens) && notifications.model.docs == old(notifications.model.docs)
      ensures var id := Auth.UserWithEmail(prisma.users, email);
              id.Some? && !TruthyStr(prisma.users[id.value].familyId)
              && !(inviteExpiry.None? || newTokenId in old(prisma.tokens) || Auth.KeyTaken(old(prisma.tokens), nonce, FamilyInvite)) ==>
                && prisma.tokens == old(prisma.tokens)[newTokenId := Token(None, nonce, FamilyInvite, inviteExpiry.value, Some(familyId), id)]
                && (!mailerBound ==> r == Fail("Error sending mail", now) && notifications.model.docs == old(notifications.model.docs))
                && (mailerBound ==>
                      && r == Ok(Text("Email sent successfully"), now)
                      && notifications.model.docs == Notifications.AfterCreate(old(notifications.model.docs), id,
                           Notifications.CreateNotificationDto("PUSH", "You have been invited to join family " + familyName), notificationId, notifications.model.sentAtDefault))
    {
      if !exists k :: k in prisma.users && prisma.users[k].email == email {
        return Fail("User does not exist", now);
      }
      var id :| id in prisma.users && prisma.users[id].email == email;
      assert Auth.UserWithEmail(prisma.users, email) == Some(id);
      if TruthyStr(prisma.users[id].familyId) {
        return Fail("User already in a family", now);
      }
      if inviteExpiry.None? || newTokenId in prisma.tokens
         || exists j :: j in prisma.tokens && prisma.tokens[j].value == nonce && prisma.tokens[j].kind == FamilyInvite {
        return Fail("Error sending mail", now);
      }
      var invite := Token(None, nonce, FamilyInvite, inviteExpiry.value, Some(familyId), Some(id));
      Auth.InsertKeepsTokenInvariants(prisma.tokens, newTokenId, invite);
      prisma.tokens := prisma.tokens[newTokenId := invite];
      if !mailerBound {
        return Fail("Error sending mail", now);
      }
      var _ := notifications.CreateForUser(Some(id), Notifications.CreateNotificationDto("PUSH", "You have been invited to join family " + familyName), notificationId, now);
      r := Ok(Text("Email sent successfully"), now);
    }

    /** `accept_invite(nonce)`. No FAMILY token with that nonce, or an expired one: "Invalid token"
        and nothing changes. Otherwise, when the invite names both a family and a member, the
        member joins the family (the nested write fails as a whole when either row is missing);
        then every token carrying the invite's member id is deleted. The caller is not consulted. */
    method AcceptInvite(nonce: string, now: Time) returns (r: ApiResponse<FamilyData>)
      requires prisma.Valid()
      modifies prisma`users, prisma`tokens
      ensures prisma.Valid()
      ensures !Auth.KeyTaken(old(prisma.tokens), nonce, FamilyInvite) ==>
                r == Fail("Invalid token", now) && prisma.users == old(prisma.users) && prisma.tokens == old(prisma.tokens)
      ensures forall k :: k in old(prisma.tokens) && old(prisma.tokens)[k].value == nonce && old(prisma.tokens)[k].kind == FamilyInvite ==>
                var t := old(prisma.tokens)[k];
                var joins := TruthyStr(t.familyId) && TruthyStr(t.memberId);
                var missing := joins && (t.familyId.value !in prisma.families || t.memberId.value !in old(prisma.users));
                && (t.expiresAt < now.ms ==> r == Fail("Invalid token", now) && prisma.users == old(prisma.users) && prisma.tokens == old(prisma.tokens))
                && (!(t.expiresAt < now.ms) && missing ==>
                      r == Fail("Error joining family", now) && prisma.users == old(prisma.users) && prisma.tokens == old(prisma.tokens))
                && (!(t.expiresAt < now.ms) && !missing ==>
                      && r == Ok(Text("Join Family successful"), now)
                      && prisma.tokens == PurgeMember(old(prisma.tokens), t.memberId)
                      && (joins ==> prisma.users == old(prisma.users)[t.memberId.value := old(prisma.users)[t.memberId.value].(familyId := t.familyId)])
                      && (!joins ==> prisma.users == old(prisma.users)))
    {
      if !exists k :: k in prisma.tokens && prisma.tokens[k].value == nonce && prisma.tokens[k].kind == FamilyInvite {
        return Fail("Invalid token", now);
      }
      var k :| k in prisma.tokens && prisma.tokens[k].value == nonce && prisma.tokens[k].kind == FamilyInvite;
      var t := prisma.tokens[k];
      if t.expiresAt < now.ms {
        return Fail("Invalid token", now);
      }
      if TruthyStr(t.familyId) && TruthyStr(t.memberId) {
        if t.familyId.value !in prisma.families || t.memberId.value !in prisma.users {
          return Fail("Error joining family", now);
        }
        var m := t.memberId.value;
        prisma.users := prisma.users[m := prisma.users[m].(familyId := t.familyId)];
      }
      prisma.tokens := PurgeMember(prisma.tokens, t.memberId);
      r := Ok(Text("Join Family successful"), now);
    }

    /** `edit_family(familyId, name)`: renames an existing family, whoever asks; an unknown id makes
        the update throw. */
    method EditFamily(familyId: Id, name: string, now: Time) returns (r: ApiResponse<FamilyData>)
      requires prisma.Valid()
      modifies prisma`families
      ensures prisma.Valid()
      ensures familyId !in old(prisma.families) ==> r == Fail("Error editing family", now) && prisma.families == old(prisma.families)
      ensures familyId in old(prisma.families) ==>
                && r == Ok(Text("Family name updated successfully"), now)
                && prisma.families == old(prisma.families)[familyId := old(prisma.families)[familyId].(name := name)]
    {
      if familyId !in prisma.families {
        return Fail("Error editing family", now);
      }
      prisma.families := prisma.families[familyId := prisma.families[familyId].(name := name)];
      r := Ok(Text("Family name updated successfully"), now);
    }

    /** `leave`: only the caller's own membership is cleared. A token without a subject makes
        `findUnique` throw. */
    method Leave(req: Request, env: Env) returns (r: ApiResponse<FamilyData>)
      requires prisma.Valid()
      modifies prisma`users
      ensures prisma.Valid()
      ensures env.jwtSecret == "" ==> r == Fail("Server Error", env.now) && prisma.users == old(prisma.users)
      ensures var c := CallerFromCookie(req, env);
              env.jwtSecret != "" && (c.None? || c.value.sub.None?) ==>
                r == Fail("Error joining family", env.now) && prisma.users == old(prisma.users)
      ensures var c := CallerFromCookie(req, env);
              env.jwtSecret != "" && c.Some? && c.value.sub.Some? ==>
                var me := c.value.sub.value;
                && (!(me in old(prisma.users) && TruthyStr(old(prisma.users)[me].familyId)) ==>
                      r == Fail("User not in a family", env.now) && prisma.users == old(prisma.users))
                && (me in old(prisma.users) && TruthyStr(old(prisma.users)[me].familyId) ==>
                      r == Ok(Text("Left family successfully"), env.now) && prisma.users == old(prisma.users)[me := old(prisma.users)[me].(familyId := None)])
    {
      if env.jwtSecret == "" {
        return Fail("Server Error", env.now);
      }
      var c := CallerFromCookie(req, env);
      if c.None? || c.value.sub.None? {
        return Fail("Error joining family", env.now);
      }
      var me := c.value.sub.value;
      if !(me in prisma.users && TruthyStr(prisma.users[me].familyId)) {
        return Fail("User not in a family", env.now);
      }
      prisma.users := prisma.users[me := prisma.users[me].(familyId := None)];
      r := Ok(Text("Left family successfully"), env.now);
    }

    /** `delete(familyId)`: the family row goes only where the caller administers it (a token
        without a subject drops that condition); when no row matches, the delete throws before the
        cascade. Then members leave, and the family's tokens, transactions and budgets are deleted. */
    method Delete(req: Request, env: Env, familyId: Id) returns (r: ApiResponse<FamilyData>)
      requires prisma.Valid()
      modifies prisma`users, prisma`tokens, prisma`families, prisma`transactions, prisma`budgets
      ensures prisma.Valid()
      ensures var c := CallerFromCookie(req, env);
              env.jwtSecret == "" || c.None?
              || familyId !in old(prisma.families) || !Holds(WhereDefined(c.value.sub), Some(old(prisma.families)[familyId].adminId)) ==>
                && r == Fail(if env.jwtSecret == "" then "Server Error" else "Error deleting family or insufficient permissions", env.now)
                && prisma.users == old(prisma.users) && prisma.tokens == old(prisma.tokens) && prisma.families == old(prisma.families)
                && prisma.transactions == old(prisma.transactions) && prisma.budgets == old(prisma.budgets)
      ensures var c := CallerFromCookie(req, env);
              env.jwtSecret != "" && c.Some?
              && familyId in old(prisma.families) && Holds(WhereDefined(c.value.sub), Some(old(prisma.families)[familyId].adminId)) ==>
                && r == Ok(Text("Family deleted successfully"), env.now)
                && prisma.families == old(prisma.families) - {familyId}
                && prisma.users == ClearFamily(old(prisma.users), familyId)
                && prisma.tokens == KeepWhere(old(prisma.tokens), (t: Token) => t.familyId != Some(familyId))
                && prisma.transactions == KeepWhere(old(prisma.transactions), (t: Transaction) => t.familyId != Some(familyId))
                && prisma.budgets == KeepWhere(old(prisma.budgets), (b: Budget) => b.familyId != Some(familyId))
    {
      if env.jwtSecret == "" {
        return Fail("Server Error", env.now);
      }
      var c := CallerFromCookie(req, env);
      if c.None? || familyId !in prisma.families || !Holds(WhereDefined(c.value.sub), Some(prisma.families[familyId].adminId)) {
        return Fail("Error deleting family or insufficient permissions", env.now);
      }
      prisma.families := prisma.families - {familyId};
      prisma.users := ClearFamily(prisma.users, familyId);
      prisma.tokens := KeepWhere(prisma.tokens, (t: Token) => t.familyId != Some(familyId));
      prisma.transactions := KeepWhere(prisma.transactions, (t: Transaction) => t.familyId != Some(familyId));
      prisma.budgets := KeepWhere(prisma.budgets, (b: Budget) => b.familyId != Some(familyId));
      r := Ok(Text("Family deleted successfully"), env.now);
    }

    /** `getAll`: every family, with no check on who asks. */
    method GetAll(now: Time) returns (r: ApiResponse<FamilyData>)
      ensures r == Ok(All(prisma.families), now)
    {
      r := Ok(All(prisma.families), now);
    }
  }
}
