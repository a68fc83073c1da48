/** `NotificationService` over the Mongo `notifications` collection. The collection is a sequence of
    documents in natural (insertion) order; every query either filters it or touches its first match. */
module Notifications {
  import opened Base
  import opened Js
  import opened Http
  import opened Jwt
  import opened Store
  import opened ResponseUtil

  /** At most this many notifications are listed. */
  const LIST_LIMIT := 50

  /** A stored notification: its ObjectId, owner, type ('EMAIL' or 'PUSH', stored as sent),
      message, `sentAt` and read flag. */
  datatype Notification = Notification(id: Id, userId: string, kind: string, message: string, sentAt: string, isRead: bool)

  /** The validated body: the whitelisting validation pipe strips every other field. */
  datatype CreateNotificationDto = CreateNotificationDto(kind: string, message: string)

  /** The `data` of a notification response. */
  datatype NotificationData = One(doc: Notification) | Many(docs: seq<Notification>) | Text(text: string) | Deleted(message: string)

  predicate UniqueIds(docs: seq<Notification>) {
    forall i, j :: 0 <= i < j < |docs| ==> docs[i].id != docs[j].id
  }

  predicate HasId(docs: seq<Notification>, id: Id) {
    exists i :: 0 <= i < |docs| && docs[i].id == id
  }

  /** The schema's `required` validators: a non-empty owner, type and message (a missing `sub`
      leaves the owner undefined). */
  predicate Storable(owner: Option<string>, dto: CreateNotificationDto) {
    owner.Some? && owner.value != "" && dto.kind != "" && dto.message != ""
  }

  /** The Mongoose model: the documents, and the `sentAt` default — `new Date()` evaluated once when
      the schema is declared, so every document created afterwards gets that same instant. */
  class NotificationModel {
    var docs: seq<Notification>
    const sentAtDefault: string

    ghost predicate Valid()
      reads this
    {
      UniqueIds(docs)
    }

    constructor (sentAtDefault: string)
      ensures Valid() && docs == [] && this.sentAtDefault == sentAtDefault
    {
      docs := [];
      this.sentAtDefault := sentAtDefault;
    }
  }

  /** The document `create` inserts: the schema defaults fill `sentAt` and `isRead`, and the read
      flag defaults to true, so a notification is stored already read. */
  function NewNotification(id: Id, owner: string, dto: CreateNotificationDto, sentAt: string): (n: Notification)
    ensures n.isRead && n.userId == owner && n.id == id
  {
    Notification(id, owner, dto.kind, dto.message, sentAt, true)
  }

  /** The collection after `createForUser(owner, dto)`: the new document appended when it passes
      validation and its id is free, the collection unchanged otherwise. */
  function AfterCreate(docs: seq<Notification>, owner: Option<string>, dto: CreateNotificationDto, newId: Id, sentAt: string): seq<Notification> {
    if Storable(owner, dto) && !HasId(docs, newId) then docs + [NewNotification(newId, owner.value, dto, sentAt)] else docs
  }

  /** `find({ user_id })`: the documents the filter selects, in natural order. */
  function OwnedBy(docs: seq<Notification>, owner: Where): (r: seq<Notification>)
    ensures forall d :: d in r <==> d in docs && Holds(owner, Some(d.userId))
    ensures |r| <= |docs|
  {
    if docs == [] then []
    else (if Holds(owner, Some(docs[0].userId)) then [docs[0]] else []) + OwnedBy(docs[1..], owner)
  }

  /** `deleteMany({ user_id })`: the documents the filter does not select, in order. */
  function NotOwnedBy(docs: seq<Notification>, owner: Where): (r: seq<Notification>)
    ensures forall d :: d in r <==> d in docs && !Holds(owner, Some(d.userId))
    ensures UniqueIds(docs) ==> UniqueIds(r)
  {
    if docs == [] then []
    else
      var rest := NotOwnedBy(docs[1..], owner);
      if Holds(owner, Some(docs[0].userId)) then rest
      else
        assert forall d :: d in rest ==> d in docs[1..];
        [docs[0]] + rest
  }

  /** `updateMany({ user_id }, { isRead: true })`. */
  function MarkAllOwned(docs: seq<Notification>, owner: Where): (r: seq<Notification>)
    ensures |r| == |docs|
    ensures forall i :: 0 <= i < |docs| ==> r[i] == if Holds(owner, Some(docs[i].userId)) then docs[i].(isRead := true) else docs[i]
  {
    if docs == [] then []
    else [if Holds(owner, Some(docs[0].userId)) then docs[0].(isRead := true) else docs[0]] + MarkAllOwned(docs[1..], owner)
  }

  /** The index of the first document a filter selects (`findOneAndUpdate` and `deleteOne` act on it). */
  function FirstMatch(docs: seq<Notification>, p: Notification -> bool): (r: Option<nat>)
    ensures r.Some? ==> r.value < |docs| && p(docs[r.value]) && forall j :: 0 <= j < r.value ==> !p(docs[j])
    ensures r.None? ==> forall j :: 0 <= j < |docs| ==> !p(docs[j])
  {
    if docs == [] then None
    else if p(docs[0]) then Some(0)
    else match FirstMatch(docs[1..], p)
      case None => None
      case Some(i) => Some(i + 1)
  }

  /** `deleteOne(filter)`. */
  function DeleteFirst(docs: seq<Notification>, p: Notification -> bool): seq<Notification> {
    match FirstMatch(docs, p)
    case None => docs
    case Some(i) => docs[..i] + docs[i + 1..]
  }

  /** `findOneAndUpdate(filter, { isRead: true })`. */
  function MarkFirst(docs: seq<Notification>, p: Notification -> bool): seq<Notification> {
    match FirstMatch(docs, p)
    case None => docs
    case Some(i) => docs[i := docs[i].(isRead := true)]
  }

  /** The filter `{ id, user_id }` as Mongoose sends it. `id` is not a schema path (the key is
      `_id`): under `strictQuery` Mongoose drops it, so only the owner is compared; without it the
      condition reaches the server, where no document has an `id` field, so nothing matches. */
  function IdAndOwnerAsWritten(id: Id, owner: Where, strictQuery: bool): Notification -> bool {
    (d: Notification) => strictQuery && Holds(owner, Some(d.userId))
  }

  /** The filter `{ _id: id, user_id }` the operations mean. */
  function IdAndOwner(id: Id, owner: Where): Notification -> bool {
    (d: Notification) => d.id == id && Holds(owner, Some(d.userId))
  }

  /** The listing returns only the caller's documents, as many as it has up to the limit. */
  lemma ListingIsOwnedAndBounded(docs: seq<Notification>, owner: Where)
    ensures var all := OwnedBy(docs, owner);
            var r := all[..if |all| < LIST_LIMIT then |all| else LIST_LIMIT];
            && (forall d :: d in r ==> d in docs && Holds(owner, Some(d.userId)))
            && |r| == if |all| < LIST_LIMIT then |all| else LIST_LIMIT
  {
    var all := OwnedBy(docs, owner);
    var r := all[..if |all| < LIST_LIMIT then |all| else LIST_LIMIT];
    forall d | d in r ensures d in docs && Holds(owner, Some(d.userId)) {
      assert d in all;
    }
  }

  /** Deleting by the owner keeps exactly the other users' documents. */
  lemma DeleteAllKeepsOthers(docs: seq<Notification>, user: string, d: Notification)
    ensures d in NotOwnedBy(docs, Is(Some(user))) <==> d in docs && d.userId != user
  {
  }

  /** What the listing selects and what `deleteAll` leaves split the collection: together they are
      every document, each exactly once. */
  lemma {:induction false} ListingAndDeleteAllPartition(docs: seq<Notification>, owner: Where)
    ensures multiset(OwnedBy(docs, owner)) + multiset(NotOwnedBy(docs, owner)) == multiset(docs)
  {
    if docs != [] {
      var head, tail := docs[0], docs[1..];
      ListingAndDeleteAllPartition(tail, owner);
      var listed, kept := OwnedBy(tail, owner), NotOwnedBy(tail, owner);
      assert multiset(docs) == multiset{head} + multiset(tail) by {
        assert docs == [head] + tail;
      }
      if Holds(owner, Some(head.userId)) {
        assert OwnedBy(docs, owner) == [head] + listed;
        assert multiset([head] + listed) == multiset{head} + multiset(listed);
        assert NotOwnedBy(docs, owner) == kept;
      } else {
        assert OwnedBy(docs, owner) == listed by {
          assert [] + listed == listed;
        }
        assert NotOwnedBy(docs, owner) == [head] + kept;
        assert multiset([head] + kept) == multiset{head} + multiset(kept);
      }
    }
  }

  /** After `deleteAll` another user's listing is exactly what it was, in the same order. */
  lemma {:induction false} DeleteAllKeepsOthersListing(docs: seq<Notification>, user: string, other: string)
    requires other != user
    ensures OwnedBy(NotOwnedBy(docs, Is(Some(user))), Is(Some(other))) == OwnedBy(docs, Is(Some(other)))
  {
    if docs != [] {
      DeleteAllKeepsOthersListing(docs[1..], user, other);
      var rest := NotOwnedBy(docs[1..], Is(Some(user)));
      if docs[0].userId != user {
        assert ([docs[0]] + rest)[1..] == rest;
      }
    }
  }

  /** After `markAllAsRead` another user's listing is exactly what it was, in the same order. */
  lemma {:induction false} MarkAllKeepsOthersListing(docs: seq<Notification>, user: string, other: string)
    requires other != user
    ensures OwnedBy(MarkAllOwned(docs, Is(Some(user))), Is(Some(other))) == OwnedBy(docs, Is(Some(other)))
  {
    if docs != [] {
      MarkAllKeepsOthersListing(docs[1..], user, other);
      var marked := MarkAllOwned(docs, Is(Some(user)));
      assert marked[1..] == MarkAllOwned(docs[1..], Is(Some(user)));
    }
  }

  /** Marking all as read changes only the caller's documents, and only their read flag. */
  lemma MarkAllTouchesOnlyTheCaller(docs: seq<Notification>, user: string, i: nat)
    requires i < |docs|
    ensures var r := MarkAllOwned(docs, Is(Some(user)));
            && (docs[i].userId != user ==> r[i] == docs[i])
            && (docs[i].userId == user ==> r[i].isRead && r[i].(isRead := docs[i].isRead) == docs[i])
  {
  }

  /** Every document `create` stores is read, and marking never clears the flag: on a collection
      where every notification is read, both mark operations change nothing. */
  lemma MarkingReadDocumentsChangesNothing(docs: seq<Notification>, owner: Where, p: Notification -> bool)
    requires forall i :: 0 <= i < |docs| ==> docs[i].isRead
    ensures MarkAllOwned(docs, owner) == docs
    ensures MarkFirst(docs, p) == docs
  {
    var r := MarkAllOwned(docs, owner);
    assert forall i :: 0 <= i < |docs| ==> r[i] == docs[i];
    match FirstMatch(docs, p)
    case None =>
    case Some(i) =>
      assert docs[i].(isRead := true) == docs[i];
  }

  /** `deleteOne({ id, user_id })` ignores the id: with `strictQuery` it deletes the caller's first
      notification, whichever was named, and without it deletes nothing. Here the caller names "b"
      and keeps it either way. */
  lemma DeleteByIdMissesTheNamedNotification()
    ensures var a := Notification("a", "u", "PUSH", "first", "t", true);
            var b := Notification("b", "u", "PUSH", "second", "t", true);
            && DeleteFirst([a, b], IdAndOwnerAsWritten("b", Is(Some("u")), true)) == [b]
            && DeleteFirst([a, b], IdAndOwnerAsWritten("b", Is(Some("u")), false)) == [a, b]
            && DeleteFirst([a, b], IdAndOwner("b", Is(Some("u")))) == [a]
  {
    var a := Notification("a", "u", "PUSH", "first", "t", true);
    var b := Notification("b", "u", "PUSH", "second", "t", true);
    assert FirstMatch([a, b], IdAndOwnerAsWritten("b", Is(Some("u")), true)) == Some(0);
    assert FirstMatch([b], IdAndOwner("b", Is(Some("u")))) == Some(0);
    assert FirstMatch([a, b], IdAndOwner("b", Is(Some("u")))) == Some(1);
    assert [a, b][..1] + [a, b][2..] == [a];
  }

  /** The documents left after removing the one at index `i` are those at every other index. */
  lemma RemovedAt(docs: seq<Notification>, i: nat, d: Notification)
    requires i < |docs|
    ensures d in docs[..i] + docs[i + 1..] <==> exists k :: 0 <= k < |docs| && k != i && docs[k] == d
  {
    var r := docs[..i] + docs[i + 1..];
    if d in r {
      var k :| 0 <= k < |r| && r[k] == d;
      var src := if k < i then k else k + 1;
      assert docs[src] == d && src != i;
    }
    if exists k :: 0 <= k < |docs| && k != i && docs[k] == d {
      var k :| 0 <= k < |docs| && k != i && docs[k] == d;
      if k < i { assert r[k] == d; } else { assert r[k - 1] == d; }
    }
  }

  /** With the `_id` filter, deletion removes the named notification when the caller owns it and
      nothing else: every other document stays, and with unique ids the named one is gone. */
  lemma DeleteByIdRemovesOnlyTheNamed(docs: seq<Notification>, id: Id, user: string)
    requires UniqueIds(docs)
    ensures var r := DeleteFirst(docs, IdAndOwner(id, Is(Some(user))));
            && (forall d :: d in docs && !(d.id == id && d.userId == user) ==> d in r)
            && (forall d :: d in r ==> d in docs && !(d.id == id && d.userId == user))
            && |r| >= |docs| - 1
  {
    var p := IdAndOwner(id, Is(Some(user)));
    match FirstMatch(docs, p)
    case None =>
    case Some(i) =>
      var r := docs[..i] + docs[i + 1..];
      forall d | d in docs && !(d.id == id && d.userId == user) ensures d in r {
        var k :| 0 <= k < |docs| && docs[k] == d;
        assert k != i;
        RemovedAt(docs, i, d);
      }
      forall d | d in r ensures d in docs && !(d.id == id && d.userId == user) {
        RemovedAt(docs, i, d);
        var k :| 0 <= k < |docs| && k != i && docs[k] == d;
        assert docs[k].id != docs[i].id;
      }
  }

  class NotificationService {
    const model: NotificationModel

    constructor (model: NotificationModel)
      ensures this.model == model
    {
      this.model := model;
    }

    /** `create`: the owner is the caller, whatever the body carried. */
    method Create(dto: CreateNotificationDto, req: Request, env: Env, newId: Id)
      returns (r: ApiResponse<NotificationData>)
      requires model.Valid()
      modifies model`docs
      ensures model.Valid()
      ensures env.jwtSecret == "" ==> r == Fail("Internal Server Error", env.now) && model.docs == old(model.docs)
      ensures var caller := CallerViaCookieUtil(req, env);
              env.jwtSecret != "" && (caller.None? || !Storable(caller.value.sub, dto) || HasId(old(model.docs), newId)) ==>
                r == Fail("Error creating notification", env.now) && model.docs == old(model.docs)
      ensures var caller := CallerViaCookieUtil(req, env);
              env.jwtSecret != "" && caller.Some? && Storable(caller.value.sub, dto) && !HasId(old(model.docs), newId) ==>
                var n := NewNotification(newId, caller.value.sub.value, dto, model.sentAtDefault);
                r == Ok(One(n), env.now) && model.docs == old(model.docs) + [n]
    {
      if env.jwtSecret == "" {
        return Fail("Internal Server Error", env.now);
      }
      var caller := CallerViaCookieUtil(req, env);
      if caller.None? {
        return Fail("Error creating notification", env.now);
      }
      r := CreateForUser(caller.value.sub, dto, newId, env.now);
      if r.errors.Some? {
        r := Fail("Error creating notification", env.now);
      }
    }

    /** `createForUser`: stores the notification for the given user; a validation or key failure
        becomes an error envelope, never an exception. */
    method CreateForUser(userId: Option<string>, dto: CreateNotificationDto, newId: Id, now: Time)
      returns (r: ApiResponse<NotificationData>)
      requires model.Valid()
      modifies model`docs
      ensures model.Valid()
      ensures model.docs == AfterCreate(old(model.docs), userId, dto, newId, model.sentAtDefault)
      ensures !Storable(userId, dto) || HasId(old(model.docs), newId) ==>
                r == Fail("Error creating notification", now) && model.docs == old(model.docs)
      ensures Storable(userId, dto) && !HasId(old(model.docs), newId) ==>
                var n := NewNotification(newId, userId.value, dto, model.sentAtDefault);
                r == Ok(One(n), now) && model.docs == old(model.docs) + [n]
    {
      if !Storable(userId, dto) || exists i :: 0 <= i < |model.docs| && model.docs[i].id == newId {
        return Fail("Error creating notification", now);
      }
      var n := NewNotification(newId, userId.value, dto, model.sentAtDefault);
      model.docs := model.docs + [n];
      r := Ok(One(n), now);
    }

    /** `findAll`: the caller's notifications, at most 50. The query sorts on `createdAt`, which the
        schema never stores, so every key ties and MongoDB leaves their order unspecified; the model
        takes natural order. */
    method FindAll(req: Request, env: Env) returns (r: ApiResponse<NotificationData>)
      ensures env.jwtSecret == "" ==> r == Fail("Interna Server Error", env.now)
      ensures env.jwtSecret != "" && CallerViaCookieUtil(req, env).None? ==> r == Fail("Error fetching notifications", env.now)
      ensures var caller := CallerViaCookieUtil(req, env);
              env.jwtSecret != "" && caller.Some? ==>
                var all := OwnedBy(model.docs, WhereDefined(caller.value.sub));
                r == Ok(Many(all[..if |all| < LIST_LIMIT then |all| else LIST_LIMIT]), env.now)
    {
      if env.jwtSecret == "" {
        return Fail("Interna Server Error", env.now);
      }
      var caller := CallerViaCookieUtil(req, env);
      if caller.None? {
        return Fail("Error fetching notifications", env.now);
      }
      var all := OwnedBy(model.docs, WhereDefined(caller.value.sub));
      r := Ok(Many(all[..if |all| < LIST_LIMIT then |all| else LIST_LIMIT]), env.now);
    }

    /** `markAsRead(id)`: marks the first document the `{ id, user_id }` filter selects. */
    method MarkAsRead(id: Id, req: Request, env: Env, strictQuery: bool) returns (r: ApiResponse<NotificationData>)
      requires model.Valid()
      modifies model`docs
      ensures model.Valid()
      ensures env.jwtSecret == "" ==> r == Fail("Interna Server Error", env.now) && model.docs == old(model.docs)
      ensures env.jwtSecret != "" && CallerViaCookieUtil(req, env).None? ==>
                r == Fail("Error fetching notification", env.now) && model.docs == old(model.docs)
      ensures var caller := CallerViaCookieUtil(req, env);
              env.jwtSecret != "" && caller.Some? ==>
                && r == Ok(Text("Marked as read"), env.now)
                && model.docs == MarkFirst(old(model.docs), IdAndOwnerAsWritten(id, WhereDefined(caller.value.sub), strictQuery))
    {
      if env.jwtSecret == "" {
        return Fail("Interna Server Error", env.now);
      }
      var caller := CallerViaCookieUtil(req, env);
      if caller.None? {
        return Fail("Error fetching notification", env.now);
      }
      var p := IdAndOwnerAsWritten(id, WhereDefined(caller.value.sub), strictQuery);
      ghost var before := model.docs;
      model.docs := MarkFirst(model.docs, p);
      assert forall i :: 0 <= i < |model.docs| ==> model.docs[i].id == before[i].id;
      r := Ok(Text("Marked as read"), env.now);
    }

    /** `markAllAsRead`: sets the flag on every document of the caller. */
    method MarkAllAsRead(req: Request, env: Env) returns (r: ApiResponse<NotificationData>)
      requires model.Valid()
      modifies model`docs
      ensures model.Valid()
      ensures env.jwtSecret == "" ==> r == Fail("Interna Server Error", env.now) && model.docs == old(model.docs)
      ensures env.jwtSecret != "" && CallerViaCookieUtil(req, env).None? ==>
                r == Fail("Error fetching notification", env.now) && model.docs == old(model.docs)
      ensures var caller := CallerViaCookieUtil(req, env);
              env.jwtSecret != "" && caller.Some? ==>
                r == Ok(Text("Marked all as read"), env.now) && model.docs == MarkAllOwned(old(model.docs), WhereDefined(caller.value.sub))
    {
      if env.jwtSecret == "" {
        return Fail("Interna Server Error", env.now);
      }
      var caller := CallerViaCookieUtil(req, env);
      if caller.None? {
        return Fail("Error fetching notification", env.now);
      }
      ghost var before := model.docs;
      model.docs := MarkAllOwned(model.docs, WhereDefined(caller.value.sub));
      assert forall i :: 0 <= i < |model.docs| ==> model.docs[i].id == before[i].id;
      r := Ok(Text("Marked all as read"), env.now);
    }

    /** `delete(id)`: removes the first document the `{ id, user_id }` filter selects. */
    method Delete(id: Id, req: Request, env: Env, strictQuery: bool) returns (r: ApiResponse<NotificationData>)
      requires model.Valid()
      modifies model`docs
      ensures model.Valid()
      ensures env.jwtSecret == "" ==> r == Fail("Interna Server Error", env.now) && model.docs == old(model.docs)
      ensures env.jwtSecret != "" && CallerViaCookieUtil(req, env).None? ==>
                r == Fail("Error deleting notifications", env.now) && model.docs == old(model.docs)
      ensures var caller := CallerViaCookieUtil(req, env);
              env.jwtSecret != "" && caller.Some? ==>
                && r == Ok(Deleted("Notification deleted"), env.now)
                && model.docs == DeleteFirst(old(model.docs), IdAndOwnerAsWritten(id, WhereDefined(caller.value.sub), strictQuery))
    {
      if env.jwtSecret == "" {
        return Fail("Interna Server Error", env.now);
      }
      var caller := CallerViaCookieUtil(req, env);
      if caller.None? {
        return Fail("Error deleting notifications", env.now);
      }
      var p := IdAndOwnerAsWritten(id, WhereDefined(caller.value.sub), strictQuery);
      ghost var before := model.docs;
      model.docs := DeleteFirst(model.docs, p);
      match FirstMatch(before, p) {
        case None =>
        case Some(i) =>
          assert forall j :: 0 <= j < |model.docs| ==> model.docs[j] == before[if j < i then j else j + 1];
      }
      r := Ok(Deleted("Notification deleted"), env.now);
    }

    /** `deleteAll`: removes every document of the caller. */
    method DeleteAll(req: Request, env: Env) returns (r: ApiResponse<NotificationData>)
      requires model.Valid()
      modifies model`docs
      ensures model.Valid()
      ensures env.jwtSecret == "" ==> r == Fail("Interna Server Error", env.now) && model.docs == old(model.docs)
      ensures env.jwtSecret != "" && CallerViaCookieUtil(req, env).None? ==>
                r == Fail("Error deleting notifications", env.now) && model.docs == old(model.docs)
      ensures var caller := CallerViaCookieUtil(req, env);
              env.jwtSecret != "" && caller.Some? ==>
                r == Ok(Deleted("All notifications deleted"), env.now) && model.docs == NotOwnedBy(old(model.docs), WhereDefined(caller.value.sub))
    {
      if env.jwtSecret == "" {
        return Fail("Interna Server Error", env.now);
      }
      var caller := CallerViaCookieUtil(req, env);
      if caller.None? {
        return Fail("Error deleting notifications", env.now);
      }
      model.docs := NotOwnedBy(model.docs, WhereDefined(caller.value.sub));
      r := Ok(Deleted("All notifications deleted"), env.now);
    }
  }
}
