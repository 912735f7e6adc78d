/** Cursor paging, as the Solr inputs and the Elasticsearch aggregator do it:
    fetch a page, keep its items, and follow its continuation until a page
    has none. The search call is a parameter; a `fuel` bound stands for the
    server eventually ending the sequence. */
module Paging {
  import opened Wrappers
  import opened Values

  /** One response: its items, and the cursor of the next request (None
      when paging stops). */
  datatype Page<K> = Page(items: seq<Value>, next: Option<K>)

  /** The items of the page fetched at `start` and of every page after it, or
      None when more than `fuel` follow-up requests would be needed. */
  function Collect<K>(fetch: K -> Page<K>, start: K, fuel: nat): (r: Option<seq<Value>>)
    ensures r.Some? ==> |fetch(start).items| <= |r.value| && r.value[..|fetch(start).items|] == fetch(start).items
    ensures fetch(start).next.None? ==> r == Some(fetch(start).items)
    decreases fuel
  {
    var p := fetch(start);
    match p.next
    case None => Some(p.items)
    case Some(k) =>
      if fuel == 0 then None else Prefixed(p.items, Collect(fetch, k, fuel - 1))
  }

  /** More fuel never changes a completed collection. */
  lemma {:induction false} CollectMonotone<K>(fetch: K -> Page<K>, start: K, fuel: nat, more: nat)
    requires Collect(fetch, start, fuel).Some?
    ensures Collect(fetch, start, fuel + more) == Collect(fetch, start, fuel)
    decreases fuel
  {
    var p := fetch(start);
    if p.next.Some? {
      CollectMonotone(fetch, p.next.value, fuel - 1, more);
    }
  }

  /** `items` in front of a collection, when it completed. */
  function Prefixed(items: seq<Value>, o: Option<seq<Value>>): Option<seq<Value>> {
    match o
    case None => None
    case Some(rest) => Some(items + rest)
  }

  /** What is still to be collected from `cursor` with `left` requests. */
  function Remaining<K>(fetch: K -> Page<K>, cursor: Option<K>, left: nat): Option<seq<Value>> {
    match cursor
    case None => Some([])
    case Some(k) => if left == 0 then None else Collect(fetch, k, left - 1)
  }

  /** The request loop: keep the first page's items, then while a cursor is
      returned, fetch with it and append. It stops early, reporting
      `complete == false`, after `fuel` follow-up requests. */
  method CollectLoop<K>(fetch: K -> Page<K>, start: K, fuel: nat) returns (items: seq<Value>, complete: bool)
    ensures complete <==> Collect(fetch, start, fuel).Some?
    ensures complete ==> items == Collect(fetch, start, fuel).value
  {
    var p := fetch(start);
    items := p.items;
    var cursor := p.next;
    var left := fuel;
    assert items + [] == items;
    while cursor.Some? && left > 0
      invariant Collect(fetch, start, fuel) == Prefixed(items, Remaining(fetch, cursor, left))
      decreases left
    {
      var q := fetch(cursor.value);
      ghost var before := items;
      items := items + q.items;
      assert q.items + [] == q.items;
      assert Remaining(fetch, cursor, left) == Prefixed(q.items, Remaining(fetch, q.next, left - 1));
      match Remaining(fetch, q.next, left - 1) {
        case None =>
        case Some(rest) => assert before + (q.items + rest) == items + rest;
      }
      cursor := q.next;
      left := left - 1;
    }
    complete := cursor.None?;
  }
}
