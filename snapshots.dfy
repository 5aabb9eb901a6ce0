/** The snapshot reader shared by both command handlers: a key-condition query
    on the current day's partition and a pick of the first item returned. */
module Snapshots {
  import opened Wrappers

  /** A stored record: partition key `day` (local midnight of its write time, in
      milliseconds), sort key `created` (its write time, in milliseconds) and the
      asset's own attributes. */
  datatype Item<T> = Item(day: int, created: int, data: T)

  /** A snapshot this old or older (six minutes, in milliseconds) is not used. */
  const StalenessMs: int := 6 * 60 * 1000

  /** The key condition `day = :day AND created > :created`, with `:day` bound to
      the start of today and `:created` to six minutes before now. */
  predicate Fresh<T(!new)>(item: Item<T>, today: int, now: int) {
    item.day == today && item.created > now - StalenessMs
  }

  /** The store's answer to the key-condition query: the items of the table
      that satisfy it, in the table's own order. */
  function Query<T(!new)>(table: seq<Item<T>>, today: int, now: int): (items: seq<Item<T>>)
    ensures |items| <= |table|
    ensures forall x :: x in items <==> x in table && Fresh(x, today, now)
  {
    if table == [] then []
    else (if Fresh(table[0], today, now) then [table[0]] else []) + Query(table[1..], today, now)
  }

  /** The handlers' lookup: nothing when the query returned no item, otherwise
      the query's first item. */
  function FindSnapshot<T(!new)>(table: seq<Item<T>>, today: int, now: int): (r: Option<Item<T>>)
    ensures r.None? <==> forall x :: x in table ==> !Fresh(x, today, now)
    ensures r.Some? ==> r.value in table && Fresh(r.value, today, now)
  {
    var items := Query(table, today, now);
    if |items| < 1 then None else assert items[0] in items; Some(items[0])
  }

  /** An item that is not fresh at the head of the table does not affect the lookup. */
  lemma FindSnapshotSkipsStale<T(!new)>(table: seq<Item<T>>, today: int, now: int)
    requires table != [] && !Fresh(table[0], today, now)
    ensures FindSnapshot(table, today, now) == FindSnapshot(table[1..], today, now)
  {
  }

  /** The item found is the first fresh item in table order. */
  lemma {:induction false} FindSnapshotIsFirst<T(!new)>(table: seq<Item<T>>, today: int, now: int, i: int)
    requires 0 <= i < |table| && Fresh(table[i], today, now)
    requires forall j :: 0 <= j < i ==> !Fresh(table[j], today, now)
    ensures FindSnapshot(table, today, now) == Some(table[i])
  {
    if i > 0 {
      FindSnapshotSkipsStale(table, today, now);
      FindSnapshotIsFirst(table[1..], today, now, i - 1);
    }
  }

  /** Within a day partition the sort key grows with write order. */
  ghost predicate AscendingWithinDay<T(!new)>(table: seq<Item<T>>) {
    forall i, j :: 0 <= i < j < |table| && table[i].day == table[j].day ==>
      table[i].created < table[j].created
  }

  /** With items in ascending sort-key order (the store's default, which the
      handlers do not override), the item found is the OLDEST fresh one. */
  lemma {:induction false} FindSnapshotIsOldest<T(!new)>(table: seq<Item<T>>, today: int, now: int)
    requires AscendingWithinDay(table)
    ensures FindSnapshot(table, today, now).Some? ==>
      forall x :: x in table && Fresh(x, today, now) ==>
        FindSnapshot(table, today, now).value.created <= x.created
  {
    if table != [] {
      if Fresh(table[0], today, now) {
        FindSnapshotIsFirst(table, today, now, 0);
        forall x | x in table && Fresh(x, today, now)
          ensures table[0].created <= x.created
        {
          var k :| 0 <= k < |table| && table[k] == x;
        }
      } else {
        FindSnapshotSkipsStale(table, today, now);
        assert AscendingWithinDay(table[1..]) by {
          forall i, j | 0 <= i < j < |table[1..]| && table[1..][i].day == table[1..][j].day
            ensures table[1..][i].created < table[1..][j].created
          {
            assert table[1..][i] == table[i + 1] && table[1..][j] == table[j + 1];
          }
        }
        FindSnapshotIsOldest(table[1..], today, now);
      }
    }
  }

  /** Querying a table with one more item appended. */
  lemma {:induction false} QueryAppend<T(!new)>(table: seq<Item<T>>, item: Item<T>, today: int, now: int)
    ensures Query(table + [item], today, now) ==
      Query(table, today, now) + (if Fresh(item, today, now) then [item] else [])
  {
    if table == [] {
      assert [item][1..] == [];
    } else {
      assert (table + [item])[1..] == table[1..] + [item];
      QueryAppend(table[1..], item, today, now);
    }
  }

  /** A snapshot written just now (its day is today and it is less than six
      minutes old), into a table that held no fresh item, is the one found. */
  lemma WrittenSnapshotIsFound<T(!new)>(table: seq<Item<T>>, item: Item<T>, today: int, now: int)
    requires forall x :: x in table ==> !Fresh(x, today, now)
    requires item.day == today && now - StalenessMs < item.created
    ensures FindSnapshot(table + [item], today, now) == Some(item)
  {
    QueryAppend(table, item, today, now);
    assert FindSnapshot(table, today, now).None?;
  }

  /** The six-minute window is open at its old end: a snapshot exactly six
      minutes old is stale, one a millisecond younger is fresh. */
  lemma FreshnessBoundary<T(!new)>(item: Item<T>, today: int, now: int)
    requires item.day == today
    ensures item.created == now - StalenessMs ==> !Fresh(item, today, now)
    ensures item.created == now - StalenessMs + 1 ==> Fresh(item, today, now)
  {
  }
}
