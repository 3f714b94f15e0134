/**
 * The observable contract of the kingdom table: a map from id to row, with
 * insert under a fresh id, an update that rewrites only the three resources,
 * delete, lookup, and a query for a kingdom holding the most gold.
 */
module Repository {
  import opened Wrappers
  import opened Domain

  /** A table row: everything but the key column. */
  datatype Row = Row(gold: int, citizens: int, food: int, dateOfCreation: Date)

  type Store = map<Id, Row>

  /** Every stored kingdom satisfies the resource invariant. */
  predicate WellFormed(s: Store) {
    forall i :: i in s ==> NonNegative(ToKingdom(i, s[i]))
  }

  /** The row mapper: a row read back under its key. */
  function ToKingdom(id: Id, row: Row): Kingdom {
    Kingdom(Some(id), row.gold, row.citizens, row.food, row.dateOfCreation)
  }

  /** The row written for a kingdom by an insert. */
  function ToRow(k: Kingdom): Row {
    Row(k.gold, k.citizens, k.food, k.dateOfCreation)
  }

  /** `findById`: the stored kingdom, carrying its id, or nothing. */
  function FindById(s: Store, id: Id): (r: Option<Kingdom>)
    ensures r.Some? <==> id in s
    ensures r.Some? ==> r.value.id == Some(id) && ToRow(r.value) == s[id]
  {
    if id in s then Some(ToKingdom(id, s[id])) else None
  }

  /**
   * `save` of a kingdom without id: a fresh id (a random UUID in the Java
   * code, `freshId` here) is assigned and the whole row is written.
   */
  function Insert(s: Store, k: Kingdom, freshId: Id): (r: (Kingdom, Store))
    requires freshId !in s
    ensures r.0 == k.(id := Some(freshId))
    ensures r.1 == s[freshId := ToRow(k)]
    ensures r.1.Keys == s.Keys + {freshId}
    ensures forall i :: i in s ==> r.1[i] == s[i]
    ensures FindById(r.1, freshId) == Some(r.0)
  {
    var saved := k.(id := Some(freshId));
    (saved, s[freshId := ToRow(k)])
  }

  /**
   * `save` of a kingdom with an id: only gold, citizens and food of the row
   * with that id are rewritten; the creation date stays as stored. An id with
   * no row matches nothing and the store is unchanged.
   */
  function Update(s: Store, k: Kingdom): (s': Store)
    requires k.id.Some?
    ensures s'.Keys == s.Keys
    ensures forall i :: i in s && i != k.id.value ==> s'[i] == s[i]
    ensures k.id.value in s ==>
      s'[k.id.value] == Row(k.gold, k.citizens, k.food, s[k.id.value].dateOfCreation)
  {
    var id := k.id.value;
    if id in s then s[id := s[id].(gold := k.gold, citizens := k.citizens, food := k.food)] else s
  }

  /** `save`: insert when the kingdom has no id yet, update otherwise. */
  function Save(s: Store, k: Kingdom, freshId: Id): (r: (Kingdom, Store))
    requires k.id.None? ==> freshId !in s
    ensures k.id.Some? ==> r.0 == k
    ensures k.id.None? ==> r.0 == k.(id := Some(freshId))
    ensures k.id.None? ==> r.1 == s[freshId := ToRow(k)]
    ensures k.id.Some? && k.id.value in s ==>
      r.1 == s[k.id.value := s[k.id.value].(gold := k.gold, citizens := k.citizens, food := k.food)]
    ensures k.id.Some? && k.id.value !in s ==> r.1 == s
  {
    if k.id.None? then Insert(s, k, freshId) else (k, Update(s, k))
  }

  /** `delete`: the row with that id, if any, is gone; nothing else changes. */
  function Delete(s: Store, id: Id): (s': Store)
    ensures id !in s'
    ensures s'.Keys == s.Keys - {id}
    ensures forall i :: i in s' ==> s'[i] == s[i]
  {
    s - {id}
  }

  /**
   * `findRichest`: some stored kingdom whose gold is at least every stored
   * kingdom's gold, or nothing when the table is empty. Which of several
   * equally rich kingdoms is returned is left open.
   */
  method FindRichest(s: Store) returns (r: Option<Kingdom>)
    ensures r.None? <==> |s| == 0
    ensures r.Some? ==> r.value.id.Some? && r.value.id.value in s
    ensures r.Some? ==> r.value == ToKingdom(r.value.id.value, s[r.value.id.value])
    ensures r.Some? ==> forall i :: i in s ==> s[i].gold <= r.value.gold
  {
    r := None;
    var todo := s.Keys;
    while todo != {}
      invariant todo <= s.Keys
      invariant r.None? <==> todo == s.Keys
      invariant r.Some? ==> r.value.id.Some? && r.value.id.value in s
      invariant r.Some? ==> r.value == ToKingdom(r.value.id.value, s[r.value.id.value])
      invariant r.Some? ==> forall i :: i in s.Keys - todo ==> s[i].gold <= r.value.gold
      decreases todo
    {
      var i :| i in todo;
      if r.None? || s[i].gold > r.value.gold {
        r := Some(ToKingdom(i, s[i]));
      }
      todo := todo - {i};
    }
  }
}
