/** What the owner-scoped services (budgets, investments, debt plans, transactions) share: a table
    whose rows name their owner, read through a `user_id` condition. */
module Records {
  import opened Base
  import opened Store

  /** `findMany({ where: { user_id } })`: the rows the owner condition selects. */
  function Owned<V>(table: map<Id, V>, ownerOf: V -> Id, owner: Where): (r: map<Id, V>)
    ensures forall k :: k in r <==> k in table && Holds(owner, Some(ownerOf(table[k])))
    ensures forall k :: k in r ==> r[k] == table[k]
  {
    KeepWhere(table, (v: V) => Holds(owner, Some(ownerOf(v))))
  }

  /** `findFirst({ where: { id, user_id } })` finds a row. */
  predicate OwnsRow<V>(table: map<Id, V>, ownerOf: V -> Id, id: Id, owner: Where) {
    id in table && Holds(owner, Some(ownerOf(table[id])))
  }

  /** Writing a row of mine, new or replaced, that stays mine leaves every other user's view of the
      table as it was. */
  lemma {:induction false} WritingOwnRowKeepsOthersViews<V>(table: map<Id, V>, ownerOf: V -> Id, id: Id, v: V, me: Id, other: Id)
    requires id in table ==> ownerOf(table[id]) == me
    requires ownerOf(v) == me && other != me
    ensures Owned(table[id := v], ownerOf, Is(Some(other))) == Owned(table, ownerOf, Is(Some(other)))
  {
    var after := Owned(table[id := v], ownerOf, Is(Some(other)));
    var before := Owned(table, ownerOf, Is(Some(other)));
    assert id !in after && id !in before;
    assert forall k :: k in after <==> k in before;
  }

  /** Deleting a row of mine leaves every other user's view of the table as it was. */
  lemma {:induction false} RemovingOwnRowKeepsOthersViews<V>(table: map<Id, V>, ownerOf: V -> Id, id: Id, me: Id, other: Id)
    requires id in table && ownerOf(table[id]) == me && other != me
    ensures Owned(table - {id}, ownerOf, Is(Some(other))) == Owned(table, ownerOf, Is(Some(other)))
  {
    var after := Owned(table - {id}, ownerOf, Is(Some(other)));
    var before := Owned(table, ownerOf, Is(Some(other)));
    assert id !in before;
    assert forall k :: k in after <==> k in before;
  }

  /** A caller whose token has no subject reads every row: Prisma drops the `undefined` condition. */
  lemma MissingSubjectSelectsEveryRow<V>(table: map<Id, V>, ownerOf: V -> Id)
    ensures Owned(table, ownerOf, WhereDefined(None)) == table
  {
  }
}
