/**
 * The relational database behind the cache, reduced to the three calls the services make:
 * load a shop by id, update a shop by id, and list the shop types ordered by their `sort` column.
 */
module Db {
  import opened Wrappers
  import opened Entity

  /** The row with this id, or null. */
  function Find(shops: map<int, Shop>, id: int): Option<Shop>
  {
    if id in shops then Some(shops[id]) else None
  }

  ghost predicate SortedBySort(s: seq<ShopType>)
  {
    forall i, j :: 0 <= i < j < |s| ==> s[i].sort <= s[j].sort
  }

  /** Places x before the first row whose `sort` is not smaller. */
  function Insert(x: ShopType, s: seq<ShopType>): (r: seq<ShopType>)
    requires SortedBySort(s)
    ensures SortedBySort(r)
    ensures multiset(r) == multiset(s) + multiset{x}
    ensures r[0] == x || (s != [] && r[0] == s[0])
  {
    if s == [] then [x]
    else if x.sort <= s[0].sort then [x] + s
    else
      assert s == [s[0]] + s[1..];
      [s[0]] + Insert(x, s[1..])
  }

  /** ORDER BY sort ASC: the same rows, arranged so that `sort` never decreases. */
  function OrderByAsc(s: seq<ShopType>): (r: seq<ShopType>)
    ensures SortedBySort(r)
    ensures multiset(r) == multiset(s)
  {
    if s == [] then []
    else
      assert s == [s[0]] + s[1..];
      Insert(s[0], OrderByAsc(s[1..]))
  }

  /** Rows that are already in order come back exactly as they were. */
  lemma {:induction false} OrderByAscKeepsSorted(s: seq<ShopType>)
    requires SortedBySort(s)
    ensures OrderByAsc(s) == s
  {
    if s != [] {
      OrderByAscKeepsSorted(s[1..]);
    }
  }

  class Database {
    /** The shop table, by id. */
    var shops: map<int, Shop>
    /** The rows the shop-type list query yields, in storage order; None models a query yielding null. */
    var typeRows: Option<seq<ShopType>>
    /** False: the database is unreachable and every call throws. */
    var up: bool
    /** How many times a shop has been loaded by id. */
    ghost var loads: nat
    /** How many times the shop-type list has been queried. */
    ghost var listQueries: nat

    constructor (shops: map<int, Shop>, typeRows: Option<seq<ShopType>>, up: bool)
      ensures this.shops == shops && this.typeRows == typeRows && this.up == up
      ensures loads == 0 && listQueries == 0
    {
      this.shops := shops;
      this.typeRows := typeRows;
      this.up := up;
      loads := 0;
      listQueries := 0;
    }

    /** getById: the row, or null when there is none. */
    method GetById(id: int) returns (r: Outcome<Option<Shop>>)
      modifies this`loads
      ensures loads == old(loads) + 1
      ensures r == if up then Returned(Find(shops, id)) else Threw
    {
      loads := loads + 1;
      r := if up then Returned(Find(shops, id)) else Threw;
    }

    /** updateById: replaces the row with the shop's id, if there is one; answers whether a row changed. */
    method UpdateById(shop: Shop) returns (r: Outcome<bool>)
      requires shop.id.Some?
      modifies this`shops
      ensures !up ==> r == Threw && shops == old(shops)
      ensures up ==> r == Returned(shop.id.value in old(shops))
      ensures up && shop.id.value in old(shops) ==> shops == old(shops)[shop.id.value := shop]
      ensures up && shop.id.value !in old(shops) ==> shops == old(shops)
    {
      if !up {
        return Threw;
      }
      var id := shop.id.value;
      r := Returned(id in shops);
      if id in shops {
        shops := shops[id := shop];
      }
    }

    /** The shop-type list query, ordered ascending by `sort`. */
    method ListTypesOrderBySort() returns (r: Outcome<Option<seq<ShopType>>>)
      modifies this`listQueries
      ensures listQueries == old(listQueries) + 1
      ensures !up ==> r == Threw
      ensures up && typeRows.None? ==> r == Returned(None)
      ensures up && typeRows.Some? ==> r == Returned(Some(OrderByAsc(typeRows.value)))
    {
      listQueries := listQueries + 1;
      if !up {
        return Threw;
      }
      r := Returned(if typeRows.None? then None else Some(OrderByAsc(typeRows.value)));
    }
  }
}
