# WealthWave backend: a Dafny model of sessions, gates and owner-scoped records

WealthWave is a personal-finance REST backend written in NestJS. Relational data (users, tokens,
families, budgets, investments, debt plans, transactions) lives behind Prisma. Notifications live in
a MongoDB collection behind Mongoose. This project models the services that decide who may do what
and how each request changes those tables. It then proves what the code promises, and also where it
falls short.

- **Session lifecycle** (`Auth`): register, login, refresh, 2FA enrolment and 2FA verification, and
  `set_token`, which issues the cookies and upserts the caller's REFRESH row.
- **Family membership** (`Families`): look-up, creation, invitation tokens, accepting an invitation,
  renaming, leaving, and the cascading delete.
- **Request gates**: the access guard (`JwtGuard`), the role guard (`RoleGuard`) and the per-user
  cache key (`CacheInterceptor`).
- **Owner-scoped stores** (`Budgets`, `Investments`, `DebtPlans`, `Transactions`, `Notifications`,
  with the shared view `Records.Owned`).
- **Helpers**:
  - the response envelope (`ResponseUtil`);
  - error-message classification (`ErrorUtil`);
  - cookie extraction (`CookieUtil`);
  - audit-payload defaulting (`LogHelper`).

## How the model is built

- **Store** (`store.dfy`). Each Prisma table is a `map<Id, Row>` field of the class `Store.Prisma`.
  - `Valid()` holds two unique constraints of the database, the one-family-per-admin assumption
    (listed under "Left out") and the one-REFRESH-row-per-user invariant:
    - the user email is unique;
    - the (token, type) pair is unique;
    - the family `admin_id` is taken to be unique.
  - Services hold the store as `const prisma` and name in `modifies` exactly the tables they write.
  - A Prisma `where` value that is `undefined` drops its condition (`Store.Where`,
    `Store.WhereDefined`). A token without `sub` therefore widens the owner filters (see
    `Records.MissingSubjectSelectsEveryRow`).
- **Notifications** are a `seq<Notification>` in the collection's natural order, the field
  `docs` of `Notifications.NotificationModel`.
- **Foreign primitives are parameters.**
  - JWT verification is `Jwt.Env.verify`, together with the clock (`env.now`) and the
    `JWT_SECRET` value.
  - JWT signing, bcrypt hashing, TOTP verification, secret generation, QR rendering, random
    nonces and store-assigned ids are also parameters.
  - A store id that is already taken, or a (token, type) pair that is already taken, is the
    database's constraint error. It ends in the service's catch branch.
- **Library accidents are explicit parameters.** In each case the code's outcome depends on the
  JavaScript runtime rather than on stated logic.
  - `storeBound` (`set_token`). `set_token` is a module-level function that reads `this.prisma`.
    When `this` is `undefined` the first query (`this.prisma.token.findFirst`) throws inside the
    `try`, before either cookie is set, and the error is swallowed. `storeBound = false` is that
    case: no token row is written and no cookie is set.
  - `mailerBound` (`add_member`). `add_member` calls `this.auth.send_mail`. With
    `mailerBound = false` the call raises a TypeError after the invitation token was created, so
    the result is 'Error sending mail'.
  - `inviteExpiry` (`add_member`). The expiry `new Date(Date() + n)` parses a concatenated
    string. `None` stands for an invalid date, which the insert rejects.
  - `strictQuery` (Mongoose). `{ id, user_id }` filters on `id`, which is not a path of the
    schema. Under strict queries the condition is dropped; otherwise nothing matches.

### Where the code and the system's description differ

The model follows the code in every case below.

- The access guard never reads the user's status: `JwtGuard.VerdictIgnoresStatusAndRole`.
- The role guard never reads the declared roles: `RoleGuard.DeclaredRolesAreIgnored`.
- Login's password comparison is not awaited, so it never rejects.
- Registration sends the mail before it stores the confirmation token. The mailer is a stub here,
  so the token is always stored when the insert succeeds.

## Model

| member | source | states |
|---|---|---|
| Js.StringifyThrowsOnlyOnObjects | src/common/error.util.ts:10 | over the modelled values (undefined, null, booleans, integers, strings, Errors and other objects; no BigInt, NaN or ±Infinity), `JSON.stringify` throws only for an unserialisable object, and yields `undefined` only for `undefined`, functions and symbols |
| Http.CookieProperty | src/common/cookie.util.ts:5 | reading a cookie fails exactly when the request has no cookie jar; an absent key reads as `undefined`, a present one as its value |
| ResponseUtil.CreateSuccessResponse | src/common/response.util.ts:12-21 | data as given, errors null; meta holds a timestamp plus every caller key, and a caller-supplied value (timestamp included) wins |
| ResponseUtil.CreateErrorResponse | src/common/response.util.ts:23-31 | data null, errors exactly the given list, meta only the timestamp |
| ResponseUtil.EnvelopesAreDistinguishable | src/common/response.util.ts:16-30 | a success envelope and an error envelope never coincide: one has data and no errors, the other the reverse |
| ErrorUtil.SafeErrorMessage | src/common/error.util.ts:5-15 | falsy input gives 'Unknown error'; a string is returned; an Error gives its message; anything else gives its JSON. A throwing stringify gives 'Unknown error', so the result exists for every input except one whose JSON is `undefined` |
| ErrorUtil.MessageSurvivesEitherWay | src/common/error.util.ts:8-9 | a message thrown as a string or wrapped in an Error is reported identically |
| CookieUtil.GetAccessTokenFromReq | src/common/cookie.util.ts:1-11 | a value exactly when a cookie jar exists and `access_token` in it is a string, and then that string; otherwise `undefined` and no throw |
| CookieUtil.GetRefreshTokenFromReq | src/common/cookie.util.ts:13-23 | the same on `refresh_token` |
| CookieUtil.ReadersLookOnlyAtTheirKey | src/common/cookie.util.ts:5-19 | each reader depends only on its own cookie key: two requests agreeing on that key read the same |
| CookieUtil.RefreshReaderMirrorsAccessReader | src/common/cookie.util.ts:13-23 | the refresh reader on a jar equals the access reader on the jar with `refresh_token` moved to `access_token` |
| LogHelper.Or | src/common/log.helper.ts:11-16 | `a \|\| b` on an optional string: `a` when truthy, else `b` |
| LogHelper.ClientAddress | src/common/log.helper.ts:15 | `req.ip` when truthy, else a non-empty `x-forwarded-for` header, else 'N/A'; 'N/A' without a request |
| LogHelper.UserAgent | src/common/log.helper.ts:16 | a non-empty `user-agent` header, else 'N/A', including without a request |
| LogHelper.LogEvent | src/common/log.helper.ts:4-25 | the audit payload: userId from dto, else `req.user.sub`, else 'N/A'; actionType 'UNKNOWN' and level 'INFO' by default; details the JSON of dto.details or of ''; ipAddress is `req.ip`, else a non-empty `x-forwarded-for` header, else 'N/A'; userAgent is a non-empty `user-agent` header, else 'N/A'; familyId passed through. No payload exactly when stringifying the details throws (the failure is caught) |
| Jwt.VerifyValue | src/module/jwt.guard.ts:12-13 | claims only for a non-empty string token under a non-empty secret, and then exactly what the verifier returns |
| Jwt.BothCookieReadingsAgree | src/module/debtplan/debt_plan.service.ts:27-28 | verifying `getAccessTokenFromReq(req) ?? ''` and verifying `req.cookies.access_token` give the same caller |
| Jwt.AbsentCookieIsVerifiedAsEmpty | src/module/debtplan/debt_plan.service.ts:27-28 | a request without an access cookie is verified as '' and has no caller |
| JwtGuard.CanActivate | src/module/jwt.guard.ts:8-24 | rejects (throws) exactly when there is no cookie jar; true exactly for a verified token whose `sub` names an existing user; false otherwise |
| JwtGuard.VerdictIgnoresStatusAndRole | src/module/jwt.guard.ts:14-19 | replacing the caller's row (another status or role) leaves the verdict unchanged |
| RoleGuard.CanActivate | src/module/role.guard.ts:9-25 | true exactly for a verified token whose user exists; never throws |
| RoleGuard.DeclaredRolesAreIgnored | src/module/role.guard.ts:19-20 | two different declared role lists give the same decision |
| RoleGuard.SameDecisionAsAuthGuard | src/module/role.guard.ts:9-25 | with a cookie jar the role guard decides as the access guard; without one it says false where the access guard throws |
| RoleGuard.OrdinaryUserPassesAdminEndpoint | src/module/role.guard.ts:19-20 | an ordinary user's valid token passes an endpoint declared for 'admin' as written, and fails the role check the comment announces |
| RoleGuard.CanActivateWithRoles | src/module/role.guard.ts:19-20 | the intended guard: where roles are declared it admits a caller exactly when the caller is known and its stored role matches one of them (ignoring case); where none are declared it admits exactly the known callers |
| CacheInterceptor.TrackBy | src/user-aware-cache.interceptor.ts:8-21 | non-GET, no token, no secret or a payload without `sub` give no key; a missing jar or a failing verification throws; otherwise the key is `sub:url` |
| CacheInterceptor.KeysSeparateUsers | src/user-aware-cache.interceptor.ts:19-20 | equal keys for the same url come from the same subject |
| CacheInterceptor.KeyDeterminesUserAndUrl | src/user-aware-cache.interceptor.ts:20 | for subjects without ':' the key determines both subject and url |
| CacheInterceptor.ColonInUserIdCollides | src/user-aware-cache.interceptor.ts:20 | with a ':' in the subject, two different (subject, url) pairs share a key |
| Store.WhereDefined | src/module/budget/budget.service.ts:42-47 | a where-condition built from a possibly undefined value matches every row when the value is undefined, else only equal columns |
| Auth.UserWithEmail | src/module/auth/auth.service.ts:23-25 | `findFirst` by email finds a row exactly when one has that email, and the row it finds has it |
| Auth.InsertKeepsTokenInvariants | src/module/auth/auth.service.ts:38-45 | inserting a fresh non-REFRESH token keeps the (token, type) uniqueness and the one-REFRESH-row invariant |
| Auth.RefreshRowOf | src/module/auth/auth.service.ts:157-159 | the REFRESH row `set_token` finds belongs to the user, and there is none exactly when the user has no REFRESH row |
| Auth.UpsertKeepsOneRefreshRow | src/module/auth/auth.service.ts:157-181 | after the upsert the user has a REFRESH row with the new nonce and expiry; there is still at most one per user; other rows are untouched and no other row appears |
| Auth.SessionClaims | src/module/auth/auth.service.ts:183-187 | the signed claims carry the user's id as `sub` and no role |
| Auth.SessionOnlyForActiveUsersWithout2FA | src/module/auth/auth.service.ts:53-80 | login reaches `set_token` exactly for an existing active user without 2FA whose password check passes |
| Auth.LoginAcceptsAnyPassword | src/module/auth/auth.service.ts:64-66 | as written (a pending promise is truthy) login never answers 'Invalid Credentials' |
| Auth.AwaitedCompareRejectsWrongPassword | src/module/auth/auth.service.ts:64-66 | with the comparison awaited, a wrong password for an existing email gives 'Invalid Credentials' |
| Auth.AuthService.SetToken | src/module/auth/auth.service.ts:151-203 | sets the access cookie (2 h) and refresh cookie (48 h); with a bound store and a user it upserts the user's REFRESH row (expiry now+48 h); unbound or userless it writes nothing; both cookies are set only when the store is bound, a user is given, the upsert succeeds and JWT_SECRET is set, and otherwise none; the store invariant holds after |
| Auth.AuthService.Create | src/module/auth/auth.service.ts:20-51 | a taken email gives 'User already exists' and no change; otherwise one user plus one CONFIRMATION token bound to it, expiring now+24 h, and 'Verify Email'; a store conflict gives 'Error creating email' |
| Auth.AuthService.Login | src/module/auth/auth.service.ts:53-80 | the five outcomes (unknown email, pending, 2FA, session, missing confirmation token); tokens change only on the session path and then exactly as `set_token` says |
| Auth.AuthService.Refresh | src/module/auth/auth.service.ts:82-101 | no jar or a non-string cookie gives an error; a falsy cookie gives 'No refresh token'; no row with that value (any type) or an expired one gives 'Invalid or Expired token'; otherwise 'Tokens refreshed' and the owner's session is reissued. Error paths change nothing |
| Auth.AuthService.EnableTwoFactorAuth | src/module/auth/auth.service.ts:103-124 | a missing user gives 'User does not exist'; otherwise the QR code of the secret's otpauth URL, never the secret. The un-awaited update writes nothing |
| Auth.AuthService.EnableTwoFactorAuthAwaited | src/module/auth/auth.service.ts:114-117 | with the update awaited, the user's 2FA flag is set and the secret stored, nothing else changes |
| Auth.AuthService.VerifyTwoFactor | src/module/auth/auth.service.ts:126-148 | missing user, 2FA off or no secret gives '2FA not enabled'; the verifier is given the stored secret as the code, so the outcome ignores caller input; a session is issued only on success. If the verifier only accepts six-digit codes and no stored secret is one, it always fails |
| Notifications.NewNotification | src/module/notification/notification.service.ts:38-42 | a new notification is owned by the given user, carries the new id and is read by default |
| Notifications.OwnedBy | src/module/notification/notification.service.ts:59 | exactly the documents matching the owner filter |
| Notifications.NotOwnedBy | src/module/notification/notification.service.ts:146 | exactly the documents the owner filter does not match; ids stay unique |
| Notifications.MarkAllOwned | src/module/notification/notification.service.ts:104-109 | every matching document gets `isRead`, every other is unchanged, order and length kept |
| Notifications.FirstMatch | src/module/notification/notification.service.ts:79-87 | the first document satisfying the filter, or none when none does |
| Notifications.ListingIsOwnedAndBounded | src/module/notification/notification.service.ts:58-61 | the listing holds only the caller's documents, and min(50, their count) of them |
| Notifications.DeleteAllKeepsOthers | src/module/notification/notification.service.ts:146 | after deleteAll a document remains exactly when it belongs to someone else |
| Notifications.ListingAndDeleteAllPartition | src/module/notification/notification.service.ts:59 | the documents the listing filter selects and the documents deleteAll leaves make up the whole collection, each document exactly once |
| Notifications.DeleteAllKeepsOthersListing | src/module/notification/notification.service.ts:146 | after deleteAll, any other user's listing is unchanged, contents and order |
| Notifications.MarkAllKeepsOthersListing | src/module/notification/notification.service.ts:104-109 | after markAllAsRead, any other user's listing is unchanged, contents and order |
| Notifications.MarkAllTouchesOnlyTheCaller | src/module/notification/notification.service.ts:104-112 | other users' documents are untouched; the caller's differ only in `isRead`, now true |
| Notifications.MarkingReadDocumentsChangesNothing | src/services/mongo/notification.schema.ts:20-21 | when every document is already read (the schema default), both mark operations leave the collection unchanged |
| Notifications.DeleteByIdMissesTheNamedNotification | src/module/notification/notification.service.ts:129 | as written, deleting "b" removes "a" under strict queries and nothing otherwise; the intended filter removes "b" |
| Notifications.DeleteByIdRemovesOnlyTheNamed | src/module/notification/notification.service.ts:129 | with the `_id` filter, exactly the caller's document with that id goes, every other stays |
| Notifications.NotificationService.Create | src/module/notification/notification.service.ts:25-47 | no secret gives 'Internal Server Error'; no caller, an unstorable document or a taken id gives 'Error creating notification'; otherwise one document owned by the caller is appended. Errors change nothing |
| Notifications.NotificationService.CreateForUser | src/module/notification/notification.service.ts:155-172 | appends one document owned by the given user, or answers 'Error creating notification' with no change; never throws |
| Notifications.NotificationService.FindAll | src/module/notification/notification.service.ts:49-67 | the first 50 of the caller's documents, or the error envelopes for a missing secret or caller |
| Notifications.NotificationService.MarkAsRead | src/module/notification/notification.service.ts:69-93 | marks the first document the as-written filter matches; nothing else changes |
| Notifications.NotificationService.MarkAllAsRead | src/module/notification/notification.service.ts:95-117 | marks every document of the caller; nothing else changes |
| Notifications.NotificationService.Delete | src/module/notification/notification.service.ts:119-135 | removes the first document the as-written filter matches; nothing else changes |
| Notifications.NotificationService.DeleteAll | src/module/notification/notification.service.ts:137-152 | removes exactly the caller's documents |
| Families.MembersOf | src/module/family/family.service.ts:38-48 | the members included with a family are exactly the users whose familyId is it, with their stored rows |
| Families.AdministeredFamily | src/module/family/family.service.ts:38-42 | the family whose admin_id is the user, when there is one |
| Families.SessionCallersSeeOnlyTheirMembership | src/module/family/family.service.ts:37-51 | for tokens the session code issues (no role claim), get_family finds a family exactly when the caller's own row belongs to it |
| Families.CreatorDoesNotSeeNewFamily | src/module/family/family.service.ts:37-42 | the creator of a family, holding such a token and in no family, still gets 'User has no family' |
| Families.PurgeMember | src/module/family/family.service.ts:159-161 | exactly the tokens of other members remain, unchanged |
| Families.InviteIsSingleUse | src/module/family/family.service.ts:148-161 | after accepting, the invitation row is gone and its nonce no longer names a FAMILY token |
| Families.ClearFamily | src/module/family/family.service.ts:218-221 | every member of the family loses its familyId, every other user is unchanged |
| Families.CascadeLeavesNoTrace | src/module/family/family.service.ts:215-230 | after the cascade no user, token, transaction or budget refers to the family, and every unrelated row survives |
| Families.FamilyService.GetFamily | src/module/family/family.service.ts:25-57 | the family found by the admin or membership rule, with its members, or 'User has no family'; any data returned is a stored family with exactly its members |
| Families.FamilyService.Create | src/module/family/family.service.ts:59-83 | a new family administered by the caller and one notification; no caller, a taken id or a second family for the same admin gives 'Error creating Family' with no change |
| Families.FamilyService.AddMember | src/module/family/family.service.ts:85-134 | unknown email or a user already in a family gives its error with no token; otherwise one FAMILY token with family and member; the outcome then depends on whether the mailer call resolves |
| Families.FamilyService.AcceptInvite | src/module/family/family.service.ts:136-167 | no or expired invitation gives 'Invalid token' with no change; otherwise the member joins the family and every token whose `member_id` is the member goes (invitations naming the member); the member's own REFRESH and CONFIRMATION rows, whose `member_id` is null, stay |
| Families.FamilyService.EditFamily | src/module/family/family.service.ts:169-180 | renames an existing family and nothing else; a missing one gives 'Error editing family' |
| Families.FamilyService.Leave | src/module/family/family.service.ts:182-205 | only the caller's familyId is cleared; a caller in no family gets 'User not in a family' |
| Families.FamilyService.Delete | src/module/family/family.service.ts:207-238 | only the family's admin (or any caller when the token has no `sub`) deletes it, with the cascade; otherwise an error and no change |
| Families.FamilyService.GetAll | src/module/family/family.service.ts:240-248 | every family |
| Records.Owned | src/module/budget/budget.service.ts:42-47 | exactly the rows matching the owner condition, unchanged |
| Records.WritingOwnRowKeepsOthersViews | src/module/investment/investment.service.ts:88-98 | writing a row the caller owns, keeping it owned, leaves every other user's view unchanged |
| Records.RemovingOwnRowKeepsOthersViews | src/module/budget/budget.service.ts:106-114 | removing a row the caller owns leaves every other user's view unchanged |
| Records.MissingSubjectSelectsEveryRow | src/module/budget/budget.service.ts:42-47 | a token without `sub` sees every row |
| Budgets.NewBudget | src/module/budget/budget.service.ts:24-26 | the new budget's owner is the caller, whatever the body says |
| Budgets.ApplyUpdate | src/module/budget/budget.service.ts:86-89 | the update body may set `user_id` and so change the owner |
| Budgets.UpdateCanHandOverABudget | src/module/budget/budget.service.ts:74-96 | an update with another `user_id` moves the budget into that user's view and out of the caller's |
| Budgets.BudgetService.Create | src/module/budget/budget.service.ts:16-32 | one budget owned by the caller, or the error envelopes with no change |
| Budgets.BudgetService.FindAll | src/module/budget/budget.service.ts:34-52 | exactly the caller's budgets |
| Budgets.BudgetService.FindOne | src/module/budget/budget.service.ts:54-72 | the budget when the caller owns it, else 'Budget not found' |
| Budgets.BudgetService.Update | src/module/budget/budget.service.ts:74-96 | changes only an owned budget with that id; else 'Budget not found' and no change |
| Budgets.BudgetService.Remove | src/module/budget/budget.service.ts:98-119 | deletes only an owned budget with that id; else 'Budget not found' and no change |
| Budgets.BudgetService.CreateFamilyBudget | src/module/budget/budget.service.ts:121-141 | one budget owned by the caller with the given familyId, overriding the body |
| Budgets.BudgetService.GetFamilyBudgets | src/module/budget/budget.service.ts:143-161 | every budget of that family, with no membership check |
| Investments.NewInvestment | src/module/investment/investment.service.ts:26-28 | the new investment's owner is the caller |
| Investments.ApplyUpdate | src/module/investment/investment.service.ts:94-97 | an update never changes the owner, and an empty update changes nothing |
| Investments.UpdateKeepsOthersHoldings | src/module/investment/investment.service.ts:88-98 | updating an owned investment leaves every other user's view unchanged |
| Investments.InvestmentService.Create | src/module/investment/investment.service.ts:17-34 | one investment owned by the caller, or the error envelopes with no change |
| Investments.InvestmentService.FindAll | src/module/investment/investment.service.ts:36-54 | exactly the caller's investments |
| Investments.InvestmentService.FindOne | src/module/investment/investment.service.ts:56-74 | the investment when owned, else 'Investment not found' |
| Investments.InvestmentService.Update | src/module/investment/investment.service.ts:76-103 | changes only an owned investment; else 'Investment not found' and no change |
| Investments.InvestmentService.Remove | src/module/investment/investment.service.ts:105-129 | deletes only an owned investment; else 'Investment not found' and no change |
| DebtPlans.ParseStrategy | src/module/debtplan/dto/create-debit_plan.dto.ts:13-14 | a parsed strategy prints back as the input string |
| DebtPlans.StrategyRoundTrip | src/module/debtplan/dto/create-debit_plan.dto.ts:13-14 | every strategy parses back from its name |
| DebtPlans.NewPlan | src/module/debtplan/debt_plan.service.ts:29-34 | a plan owned by the caller exactly when the strategy names one |
| DebtPlans.ApplyUpdate | src/module/debtplan/debt_plan.service.ts:107-110 | an update keeps the owner and is rejected exactly when it names an unknown strategy |
| DebtPlans.DebtPlanService.Create | src/module/debtplan/debt_plan.service.ts:23-51 | one plan owned by the caller plus its notification, or an error with no change |
| DebtPlans.DebtPlanService.FindAll | src/module/debtplan/debt_plan.service.ts:53-67 | exactly the caller's plans |
| DebtPlans.DebtPlanService.FindOne | src/module/debtplan/debt_plan.service.ts:69-86 | the plan when owned, else 'Debt plan not found' |
| DebtPlans.DebtPlanService.Update | src/module/debtplan/debt_plan.service.ts:88-116 | changes only an owned plan; else 'Debt plan not found' and no change |
| DebtPlans.DebtPlanService.Remove | src/module/debtplan/debt_plan.service.ts:118-143 | deletes only an owned plan; else 'Debt plan not found' and no change |
| Transactions.NewTransaction | src/module/transactions/transactions.service.ts:23-29 | the new transaction's owner is the caller, overriding the body |
| Transactions.Personal | src/module/transactions/transactions.service.ts:44-47 | exactly the owner's transactions with no family |
| Transactions.InScope | src/module/transactions/transactions.service.ts:114-126 | exactly the transactions whose familyId matches the condition |
| Transactions.PersonalTransactionsLeakToFamilylessUsers | src/module/transactions/transactions.service.ts:109-126 | as written, a user in no family is shown another user's personal transaction |
| Transactions.FamilyScope | src/module/transactions/transactions.service.ts:109-126 | the intended decision filters only on a family the caller belongs to or administers |
| Transactions.FamilyScopeStaysInTheFamily | src/module/transactions/transactions.service.ts:109-126 | with the intended decision every transaction shown belongs to such a family |
| Transactions.TransactionsService.Create | src/module/transactions/transactions.service.ts:15-34 | one transaction owned by the caller, or the error envelopes with no change |
| Transactions.TransactionsService.CreateFamily | src/module/transactions/transactions.service.ts:136-155 | the same effect as create; only the missing-secret message differs |
| Transactions.TransactionsService.FindAll | src/module/transactions/transactions.service.ts:36-52 | exactly the caller's transactions that have no family, with their stored rows |
| Transactions.TransactionsService.FindOne | src/module/transactions/transactions.service.ts:54-74 | success whether or not an owned transaction matches; data is it or null |
| Transactions.TransactionsService.Remove | src/module/transactions/transactions.service.ts:76-93 | deletes only an owned transaction; a miss is an error with no deletion |
| Transactions.TransactionsService.FindFamTransaction | src/module/transactions/transactions.service.ts:95-134 | the as-written decision: refusal only for a family-less administrator, the administered family for an admin, else the caller's familyId filter |

## Left out

- Controllers, modules, `main.ts` and the HTTP wiring are not part of this model. This covers
  routing, Swagger, helmet, cookie-parser and cookie attributes other than the max-age constants.
- The goal and user services are not part of this model. Neither are the audit-log service,
  `app.service.ts` or `send_mail`: these are stubs that return constants.
  - The audit-log write in `add_member` and `create` is not modelled.
  - `LogHelper.LogEvent` models only the payload.
- Foreign primitives are parameters, not models: bcrypt, JWT signing and verification (RFC 7519),
  TOTP (RFC 6238), QR rendering, `crypto.randomBytes` and the clock.
- Concurrency is not modelled. Every operation runs alone, so the find-then-write races in
  register and `set_token` are absent.
- OAuth login, email verification, password reset and logout have no implementation in the
  source and are not modelled.
- Cookie-setting is returned as a list of `SetCookie` values; the HTTP response object is not
  modelled.
- Monetary amounts are stored values (`real`) and never computed on.
- The Prisma schema is not part of this model, so foreign keys and referential actions are not
  modelled. Three assumptions stand in for it:
  - `user.family` is taken to be the family the user administers.
  - `admin_id` is taken to be unique, so a user administers at most one family. `Store.Prisma.Valid`
    carries it; the second-family error of `Families.FamilyService.Create` and the decisions of
    `Transactions.TransactionsService.FindFamTransaction` rest on it.
  - The update DTOs are taken to be partial versions of the create DTOs (those files are not
    part of this model either).
- Notifications.NotificationService.FindAll: does not model the ordering. The sort on `createdAt`
  names a field the schema never stores, so every document ties on it and MongoDB leaves their
  order (and so which 50 come back) unspecified. The model picks natural order; it is not newest
  first either way.
- Js.Stringify: JavaScript values outside `Js.JsValue` are not modelled. A BigInt makes
  `JSON.stringify` throw, so `safeErrorMessage` of a BigInt gives 'Unknown error'. NaN and
  ±Infinity stringify to "null", so `safeErrorMessage(Infinity)` gives "null". Numbers are
  integers here, so neither case can be expressed.
- Auth.AuthService.EnableTwoFactorAuth: does not model the 'Error enabling 2FA' branch. QR
  rendering is a total parameter here.
- Auth.AuthService.VerifyTwoFactor: does not model the catch branch ('Error'). Nothing in the
  model throws there.
  - The controller passes the whole request body as `user_email`; the model takes the string the
    service's signature declares.
- Transactions.TransactionsService.FindAll: states nothing for a token without `sub`. That case
  returns every family-less transaction, as `Records.MissingSubjectSelectsEveryRow` shows for the
  owner filter.
- Families.FamilyService.GetFamily: states nothing for a token without `sub`. That case depends
  on which row Prisma's `findFirst` happens to return.

## Findings

| source | as written | input that shows it | evidently intended | confidence | as-written member | corrected member |
|---|---|---|---|---|---|---|
| src/module/auth/auth.service.ts:64-66 | `if (!bcrypt.compare(...))` tests a promise, which is always truthy | any existing email with a wrong password logs in | `if (!(await bcrypt.compare(...)))` rejects a wrong password | high, not executed | Auth.LoginAcceptsAnyPassword | Auth.AwaitedCompareRejectsWrongPassword |
| src/module/role.guard.ts:19-20 | returns true for any existing user; the declared roles are never read | user "u1" with role USER on an endpoint declared `['admin']` is admitted | admit only a user whose role is among the declared roles | high, not executed | RoleGuard.OrdinaryUserPassesAdminEndpoint | RoleGuard.CanActivateWithRoles |
| src/module/transactions/transactions.service.ts:109-126 | the refusal fires only for a family-less administrator; a user in no family filters on `familyId: null` | user "u" in no family sees transaction "t" of user "v" | refuse every caller that neither belongs to nor administers a family | high, not executed | Transactions.PersonalTransactionsLeakToFamilylessUsers | Transactions.FamilyScopeStaysInTheFamily |
| src/module/notification/notification.service.ts:129 | filters on `id`, which is not a schema path | collection [a, b] of one user, delete "b": "a" goes (strict queries) or nothing goes | filter on `_id`, removing exactly the named document | medium, not executed | Notifications.DeleteByIdMissesTheNamedNotification | Notifications.DeleteByIdRemovesOnlyTheNamed |
