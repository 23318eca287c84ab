/** `Store.List` and the handler `list`: keyset pagination with one row of lookahead. */
module Pagination {
  import opened Domain
  import opened Selection
  import opened Cursor

  datatype Filter = Filter(status: Option<Status>, target: string, batch: Option<Id>)

  /** Query parameters; `Number` stands for a limit that `strconv.Atoi` reads. */
  datatype LimitParam = Omitted | Number(n: int) | NotANumber

  datatype Query = Query(status: string, target: string, limit: LimitParam, batch: string, cursor: string)

  /** The rows of one client that pass the filter; `batches` is the column batch_id. */
  function Matching(tasks: map<Id, Task>, batches: map<Id, Id>, client: string, f: Filter): set<Id> {
    set id | id in tasks && tasks[id].client == client
           && (f.status.Some? ==> tasks[id].status == f.status.value)
           && (f.target != "" ==> tasks[id].target == f.target)
           && (f.batch.Some? ==> id in batches && batches[id] == f.batch.value)
  }

  function Below(s: set<Id>, cursor: Option<Id>): set<Id> {
    set id | id in s && (cursor.Some? ==> id < cursor.value)
  }

  predicate Descending(ids: seq<Id>) { forall i, j :: 0 <= i < j < |ids| ==> ids[i] > ids[j] }

  /** The first k of s in descending order. */
  ghost predicate Greatest(s: set<Id>, k: nat, ids: seq<Id>) {
    && |ids| == Min(k, |s|) && Descending(ids)
    && (forall i :: 0 <= i < |ids| ==> ids[i] in s)
    && (forall x :: x in s && x !in ids ==> |ids| == k && forall i :: 0 <= i < |ids| ==> ids[i] > x)
  }

  /** SELECT ... WHERE id < cursor ORDER BY id DESC LIMIT k. */
  method List(tasks: map<Id, Task>, batches: map<Id, Id>, client: string, f: Filter, cursor: Option<Id>, k: nat)
    returns (ids: seq<Id>)
    ensures Greatest(Below(Matching(tasks, batches, client, f), cursor), k, ids)
  {
    var s := Below(Matching(tasks, batches, client, f), cursor);
    var key: map<Id, Time> := map id | id in s :: -(id as int);
    ids := OrderByLimit(s, key, k);
    assert forall i :: 0 <= i < |ids| ==> key[ids[i]] == -(ids[i] as int);
    assert forall x :: x in s ==> key[x] == -(x as int);
  }

  // ---- the handler ------------------------------------------------------------------------------------

  datatype Page = Page(items: seq<Id>, next: Option<Id>)

  /** What a page with at most `limit` rows promises: the greatest rows below the cursor, and a next
      cursor, its last row, exactly when there are more. */
  ghost predicate IsPage(s: set<Id>, below: Option<Id>, limit: nat, p: Page) {
    && Greatest(Below(s, below), limit, p.items)
    && (p.next.Some? <==> |Below(s, below)| > limit)
    && (p.next.Some? ==> p.items != [] && p.next.value == p.items[|p.items| - 1])
  }

  function StatusOf(s: string): Option<Status> {
    if s == "pending" then Some(Pending) else if s == "in_flight" then Some(InFlight)
    else if s == "delivered" then Some(Delivered) else if s == "failed" then Some(Failed) else None
  }

  function LimitOf(l: LimitParam): int { match l case Omitted => 50 case Number(n) => n case NotANumber => 0 }

  function BatchOf(batch: string): Option<Id> {
    var id := Identifiers.ParseID(batch);
    if id.None? then None else Some(Identifiers.Value(id.value))
  }

  predicate Readable(q: Query) {
    && (q.status != "" ==> StatusOf(q.status).Some?)
    && 1 <= LimitOf(q.limit) <= 100
    && (q.batch != "" ==> BatchOf(q.batch).Some?)
    && (q.cursor != "" ==> ReadCursor(q.cursor).Some?)
  }

  function FilterOf(q: Query): Filter {
    Filter(StatusOf(q.status), q.target, if q.batch == "" then None else BatchOf(q.batch))
  }

  function StartOf(q: Query): Option<Id> { if q.cursor == "" then None else ReadCursor(q.cursor) }

  lemma LookaheadIsPage(s: set<Id>, below: Option<Id>, limit: nat, ids: seq<Id>)
    requires limit > 0 && Greatest(Below(s, below), limit + 1, ids)
    ensures |ids| <= limit ==> IsPage(s, below, limit, Page(ids, None))
    ensures |ids| > limit ==> IsPage(s, below, limit, Page(ids[..limit], Some(ids[limit - 1])))
  {
    var b := Below(s, below);
    if |ids| > limit {
      forall x | x in b && x !in ids[..limit] ensures forall i :: 0 <= i < limit ==> ids[i] > x {
        if x in ids {
          assert ids == ids[..limit] + ids[limit..];
          var j :| 0 <= j < |ids[limit..]| && ids[limit..][j] == x;
          assert ids[limit + j] == x;
        }
      }
    }
  }

  /** `list`: None is the answer 400. */
  method Handle(tasks: map<Id, Task>, batches: map<Id, Id>, client: string, q: Query)
      returns (r: Option<Page>, cursor: string)
    ensures r.Some? <==> Readable(q)
    ensures r.Some? ==> IsPage(Matching(tasks, batches, client, FilterOf(q)), StartOf(q), LimitOf(q.limit), r.value)
    ensures r.Some? ==> cursor == if r.value.next.None? then "" else CursorOf(r.value.next.value)
  {
    r, cursor := None, "";
    var f := Filter(None, q.target, None);
    if q.status != "" && StatusOf(q.status).None? { return; }
    f := f.(status := StatusOf(q.status));
    var limit := LimitOf(q.limit);
    if limit < 1 || limit > 100 { return; }
    if q.batch != "" {
      var id := BatchOf(q.batch);
      if id.None? { return; }
      f := f.(batch := id);
    }
    var below: Option<Id> := None;
    if q.cursor != "" {
      below := ReadCursor(q.cursor);
      if below.None? { return; }
    }
    var items := List(tasks, batches, client, f, below, limit + 1);
    LookaheadIsPage(Matching(tasks, batches, client, f), below, limit, items);
    if |items| > limit {
      items := items[..limit];
      return Some(Page(items, Some(items[|items| - 1]))), CursorOf(items[|items| - 1]);
    }
    return Some(Page(items, None)), "";
  }

  /** A client that sends the cursor of a page back continues below the last row of that page. */
  lemma NextContinues(q: Query, p: Page)
    requires p.next.Some? && p.next.value < ID_LIMIT && Readable(q)
    ensures var q' := q.(cursor := CursorOf(p.next.value));
          Readable(q') && StartOf(q') == p.next && FilterOf(q') == FilterOf(q)
  {
    hide CursorOf, ReadCursor;
    CursorRoundTrip(p.next.value);
  }

  // ---- following the cursors --------------------------------------------------------------------------

  /** Each page was read from its own snapshot of the matching rows, from the cursor of the page before. */
  ghost predicate Follows(snaps: seq<set<Id>>, limit: nat, below: Option<Id>, pages: seq<Page>)
    decreases |pages|
  {
    && |snaps| == |pages| > 0 && IsPage(snaps[0], below, limit, pages[0])
    && (|pages| > 1 ==> pages[0].next.Some? && Follows(snaps[1..], limit, pages[0].next, pages[1..]))
  }

  function Items(pages: seq<Page>): seq<Id> {
    if pages == [] then [] else pages[0].items + Items(pages[1..])
  }

  ghost predicate Finished(pages: seq<Page>) { pages != [] && pages[|pages| - 1].next.None? }

  lemma DescendingConcat(a: seq<Id>, b: seq<Id>, m: Id)
    requires Descending(a) && Descending(b) && a != [] && a[|a| - 1] == m && forall x :: x in b ==> x < m
    ensures Descending(a + b) && forall x :: x in a ==> m <= x
  {
    forall i, j | 0 <= i < j < |a + b| ensures (a + b)[i] > (a + b)[j] {
      if i < |a| && |a| <= j { assert (a + b)[j] in b; }
    }
  }

  /** Whatever happens to the table between two pages, the rows come in strictly descending order, so none
      is repeated, and each was there when its page was read. */
  lemma {:induction false} FollowedInOrder(snaps: seq<set<Id>>, limit: nat, below: Option<Id>, pages: seq<Page>)
    requires Follows(snaps, limit, below, pages)
    ensures Descending(Items(pages))
    ensures forall x :: x in Items(pages) ==>
          (below.Some? ==> x < below.value) && exists k :: 0 <= k < |snaps| && x in snaps[k]
    decreases |pages|
  {
    if |pages| > 1 {
      FollowedInOrder(snaps[1..], limit, pages[0].next, pages[1..]);
      forall x | x in Items(pages[1..]) ensures exists k :: 0 <= k < |snaps| && x in snaps[k] {
        var k :| 0 <= k < |snaps[1..]| && x in snaps[1..][k];
        assert snaps[k + 1] == snaps[1..][k];
      }
      DescendingConcat(pages[0].items, Items(pages[1..]), pages[0].next.value);
    } else {
      assert pages[1..] == [] && Items(pages) == pages[0].items;
    }
  }

  /** No gap: a row that is there at every page is returned. */
  lemma {:induction false} FollowedCompletely(snaps: seq<set<Id>>, limit: nat, below: Option<Id>, pages: seq<Page>,
      x: Id)
    requires Follows(snaps, limit, below, pages) && Finished(pages)
    requires (forall k :: 0 <= k < |snaps| ==> x in snaps[k]) && (below.Some? ==> x < below.value)
    ensures x in Items(pages)
    decreases |pages|
  {
    assert x in Below(snaps[0], below);
    if x !in pages[0].items {
      if pages[0].next.None? {
        AllOfIt(Below(snaps[0], below), limit, pages[0].items);
      } else {
        assert pages[0].items[|pages[0].items| - 1] > x;
        assert pages[1..][|pages| - 2] == pages[|pages| - 1];
        FollowedCompletely(snaps[1..], limit, pages[0].next, pages[1..], x);
      }
    }
  }

  ghost function Elements(ids: seq<Id>): set<Id> { set x | x in ids }

  lemma AllOfIt(s: set<Id>, k: nat, ids: seq<Id>)
    requires Greatest(s, k, ids) && |s| <= k
    ensures forall x :: x in s <==> x in ids
  {
    assert Elements(ids) <= s;
    DescendingCount(ids);
    SubsetCount(Elements(ids), s);
    assert Elements(ids) == s;
  }

  lemma {:induction false} DescendingCount(ids: seq<Id>)
    requires Descending(ids)
    ensures |Elements(ids)| == |ids|
    decreases |ids|
  {
    if ids != [] {
      var rest := ids[1..];
      assert ids == [ids[0]] + rest;
      assert Elements(ids) == Elements(rest) + {ids[0]};
      assert forall j :: 0 <= j < |rest| ==> rest[j] == ids[j + 1];
      assert ids[0] !in rest;
      DescendingCount(rest);
    }
  }

  /** Two descending lists of the same rows are the same list. */
  lemma {:induction false} DescendingUnique(a: seq<Id>, b: seq<Id>)
    requires Descending(a) && Descending(b) && forall x :: x in a <==> x in b
    ensures a == b
    decreases |a|
  {
    assert forall i :: 0 <= i < |b| ==> b[i] in a;
    assert |b| > 0 ==> b[0] in a;
    if a != [] {
      assert a[0] in b && b != [];
      assert b[0] in a;
      assert a[0] == b[0];
      assert forall x :: x in a[1..] <==> x in a && x != a[0];
      assert forall x :: x in b[1..] <==> x in b && x != b[0];
      DescendingUnique(a[1..], b[1..]);
    }
  }

  /** Later snapshots only add rows above all those of the first. */
  ghost predicate OnlyLarger(first: set<Id>, snaps: seq<set<Id>>) {
    forall k :: 0 <= k < |snaps| ==> first <= snaps[k] && forall x :: x in snaps[k] && x !in first ==>
        forall y :: y in first ==> y < x
  }

  lemma {:induction false} PageSizes(snaps: seq<set<Id>>, limit: nat, below: Option<Id>, pages: seq<Page>)
    requires Follows(snaps, limit, below, pages)
    ensures (|pages| - 1) * limit <= |Items(pages)| <= |pages| * limit
    ensures |pages| > 1 && Finished(pages) ==> |pages[|pages| - 1].items| + (|pages| - 1) * limit == |Items(pages)|
    decreases |pages|
  {
    if |pages| > 1 {
      PageSizes(snaps[1..], limit, pages[0].next, pages[1..]);
      assert pages[1..][|pages| - 2] == pages[|pages| - 1];
      assert |pages[0].items| == limit;
      assert (|pages| - 1) * limit == (|pages| - 2) * limit + limit && |pages| * limit == (|pages| - 1) * limit + limit;
    } else {
      assert pages[1..] == [] && Items(pages) == pages[0].items;
    }
  }

  lemma NothingNew(snaps: seq<set<Id>>, limit: nat, pages: seq<Page>, x: Id)
    requires Follows(snaps, limit, None, pages) && OnlyLarger(snaps[0], snaps) && x in Items(pages)
    ensures x in snaps[0]
  {
    hide Greatest;
    assert Items(pages) == pages[0].items + Items(pages[1..]);
    assert |pages[1..]| == |pages| - 1;
    if x !in pages[0].items {
      FollowedInOrder(snaps[1..], limit, pages[0].next, pages[1..]);
      var k :| 0 <= k < |snaps[1..]| && x in snaps[1..][k];
      assert snaps[1..][k] == snaps[k + 1];
      LastIsThere(snaps[0], None, limit, pages[0]);
    } else {
      ItemsAreThere(snaps[0], None, limit, pages[0]);
    }
  }

  lemma ItemsAreThere(s: set<Id>, below: Option<Id>, limit: nat, p: Page)
    requires IsPage(s, below, limit, p)
    ensures forall x :: x in p.items ==> x in s
  {
  }

  lemma LastIsThere(s: set<Id>, below: Option<Id>, limit: nat, p: Page)
    requires IsPage(s, below, limit, p) && p.next.Some?
    ensures p.next.value in s
  {
    ItemsAreThere(s, below, limit, p);
  }

  /** Following the cursors to the end gives exactly the rows that matched at the first page, in descending
      order, even when larger identifiers are inserted meanwhile; `list` is their one such list. */
  lemma PagesAreTheList(snaps: seq<set<Id>>, limit: nat, pages: seq<Page>, list: seq<Id>)
    requires Follows(snaps, limit, None, pages) && Finished(pages) && OnlyLarger(snaps[0], snaps)
    requires Descending(list) && forall x :: x in list <==> x in snaps[0]
    ensures Items(pages) == list
    ensures (|pages| - 1) * limit <= |snaps[0]| <= |pages| * limit
  {
    PageSizes(snaps, limit, None, pages);
    FollowedInOrder(snaps, limit, None, pages);
    CollectsTheFirst(snaps, limit, pages);
    hide Follows, OnlyLarger, Items, Descending;
    DescendingUnique(Items(pages), list);
    DescendingCount(list);
    assert Elements(list) == snaps[0];
  }

  /** No client follows cursors for ever, whatever happens to the table: each cursor is below the last. */
  lemma {:induction false} CursorsRunOut(snaps: seq<set<Id>>, limit: nat, below: Option<Id>, pages: seq<Page>)
    requires Follows(snaps, limit, below, pages)
    ensures below.Some? ==> |pages| <= below.value + 1
    ensures below.None? && pages[0].next.Some? ==> |pages| <= pages[0].next.value + 2
    decreases |pages|
  {
    if |pages| > 1 {
      CursorsRunOut(snaps[1..], limit, pages[0].next, pages[1..]);
      assert pages[0].next.value in Below(snaps[0], below);
    }
  }

  // ---- a client that lists everything -----------------------------------------------------------------

  lemma {:induction false} FollowsAppend(snaps: seq<set<Id>>, limit: nat, below: Option<Id>, pages: seq<Page>,
      s: set<Id>, p: Page)
    requires Follows(snaps, limit, below, pages) && pages[|pages| - 1].next.Some?
          && IsPage(s, pages[|pages| - 1].next, limit, p)
    ensures Follows(snaps + [s], limit, below, pages + [p]) && Items(pages + [p]) == Items(pages) + p.items
    decreases |pages|
  {
    hide IsPage;
    var longer, more := pages + [p], snaps + [s];
    if |pages| == 1 {
      assert longer[1..] == [p] && more[1..] == [s] && pages[1..] == [] && [p][1..] == [];
    } else {
      assert longer[1..] == pages[1..] + [p] && more[1..] == snaps[1..] + [s];
      assert pages[1..][|pages| - 2] == pages[|pages| - 1];
      FollowsAppend(snaps[1..], limit, pages[0].next, pages[1..], s, p);
    }
  }

  lemma LastRow(tasks: map<Id, Task>, batches: map<Id, Id>, client: string, f: Filter, below: Option<Id>, limit: nat,
      p: Page)
    requires IsPage(Matching(tasks, batches, client, f), below, limit, p) && p.next.Some?
    ensures p.next.value in tasks && (below.Some? ==> p.next.value < below.value)
  {
    assert p.next.value in Below(Matching(tasks, batches, client, f), below);
  }

  type Tables = nat -> map<Id, Task>

  ghost predicate InRange(table: Tables) { forall k, id :: id in table(k) ==> id < ID_LIMIT }

  ghost predicate SnapsAre(table: Tables, batches: map<Id, Id>, client: string, f: Filter, snaps: seq<set<Id>>) {
    forall k :: 0 <= k < |snaps| ==> snaps[k] == Matching(table(k), batches, client, f)
  }

  lemma SnapsAppend(table: Tables, batches: map<Id, Id>, client: string, f: Filter, snaps: seq<set<Id>>)
    requires SnapsAre(table, batches, client, f, snaps)
    ensures SnapsAre(table, batches, client, f, snaps + [Matching(table(|snaps|), batches, client, f)])
  {
    hide Matching;
  }

  /** What a client has collected: page k was read from the table as it was at request k. */
  ghost predicate Collected(table: Tables, batches: map<Id, Id>, client: string, f: Filter, limit: nat,
                            snaps: seq<set<Id>>, pages: seq<Page>)
  {
    && |snaps| == |pages| > 0 && Follows(snaps, limit, None, pages)
    && SnapsAre(table, batches, client, f, snaps)
    && (pages[|pages| - 1].next.Some? ==> pages[|pages| - 1].next.value < ID_LIMIT)
  }

  lemma FirstPage(table: Tables, batches: map<Id, Id>, client: string, f: Filter, limit: nat, p: Page)
    requires InRange(table) && IsPage(Matching(table(0), batches, client, f), None, limit, p)
    ensures Collected(table, batches, client, f, limit, [Matching(table(0), batches, client, f)], [p])
    ensures Items([p]) == p.items && (p.next.Some? ==> CursorOf(p.next.value) != "")
  {
    hide Matching, CursorOf;
    assert [p][1..] == [];
    if p.next.Some? { LastFalls(table, batches, client, f, limit, 0, None, p); }
  }

  lemma NextPage(table: Tables, batches: map<Id, Id>, client: string, f: Filter, limit: nat,
                 snaps: seq<set<Id>>, pages: seq<Page>, p: Page)
    requires InRange(table) && Collected(table, batches, client, f, limit, snaps, pages)
          && pages[|pages| - 1].next.Some?
    requires IsPage(Matching(table(|pages|), batches, client, f), pages[|pages| - 1].next, limit, p)
    ensures var s := Matching(table(|pages|), batches, client, f);
            Collected(table, batches, client, f, limit, snaps + [s], pages + [p])
    ensures Items(pages + [p]) == Items(pages) + p.items
    ensures p.next.Some? ==> p.next.value < pages[|pages| - 1].next.value && CursorOf(p.next.value) != ""
  {
    hide Matching, CursorOf, IsPage, Follows, Items, InRange, SnapsAre;
    var s := Matching(table(|pages|), batches, client, f);
    FollowsAppend(snaps, limit, None, pages, s, p);
    SnapsAppend(table, batches, client, f, snaps);
    assert (pages + [p])[|pages|] == p;
    if p.next.Some? { LastFalls(table, batches, client, f, limit, |pages|, pages[|pages| - 1].next, p); }
  }

  lemma LastFalls(table: Tables, batches: map<Id, Id>, client: string, f: Filter, limit: nat, k: nat,
      below: Option<Id>, p: Page)
    requires InRange(table) && IsPage(Matching(table(k), batches, client, f), below, limit, p) && p.next.Some?
    ensures p.next.value < ID_LIMIT && CursorOf(p.next.value) != "" && (below.Some? ==> p.next.value < below.value)
  {
    hide Matching, CursorOf, IsPage;
    LastRow(table(k), batches, client, f, below, limit, p);
    CursorRoundTrip(p.next.value);
  }

  lemma CollectedInOrder(table: Tables, batches: map<Id, Id>, client: string, f: Filter, limit: nat,
                         snaps: seq<set<Id>>, pages: seq<Page>)
    requires Collected(table, batches, client, f, limit, snaps, pages) && pages[|pages| - 1].next.None?
    ensures Finished(pages) && Descending(Items(pages)) && snaps[0] == Matching(table(0), batches, client, f)
    ensures OnlyLarger(snaps[0], snaps) ==> forall x :: x in Items(pages) <==> x in snaps[0]
  {
    FollowedInOrder(snaps, limit, None, pages);
    if OnlyLarger(snaps[0], snaps) { CollectsTheFirst(snaps, limit, pages); }
  }

  /** A client sends each returned cursor back until there is none; `table(k)` is the table when request k
      arrives. It ends, and what it collects are the pages of `Follows`: always in strictly descending
      order, and, unless identifiers were inserted below the largest of the first request, exactly the
      matching rows of that request. */
  method FetchAll(table: Tables, batches: map<Id, Id>, client: string, q: Query)
    returns (r: Option<seq<Id>>, ghost snaps: seq<set<Id>>, ghost pages: seq<Page>)
    requires q.cursor == "" && InRange(table)
    ensures r.Some? <==> Readable(q)
    ensures r.Some? ==>
              && Collected(table, batches, client, FilterOf(q), LimitOf(q.limit), snaps, pages)
              && Finished(pages) && r.value == Items(pages) && Descending(r.value)
              && (OnlyLarger(snaps[0], snaps) ==>
                    forall x :: x in r.value <==> x in Matching(table(0), batches, client, FilterOf(q)))
  {
    hide Matching, Readable, FilterOf, LimitOf, IsPage, Collected, Items, CursorOf, OnlyLarger, InRange, Descending,
        Finished;
    ghost var f := FilterOf(q);
    var page, cursor := Handle(table(0), batches, client, q);
    if page.None? { return None, [], []; }
    ReadableLimit(q);
    ghost var limit: nat := LimitOf(q.limit);
    assert StartOf(q) == None;
    FirstPage(table, batches, client, f, limit, page.value);
    var items := page.value.items;
    snaps, pages := [Matching(table(0), batches, client, f)], [page.value];
    var k := 1;
    while cursor != ""
      invariant k == |pages| > 0 && Readable(q)
      invariant Collected(table, batches, client, f, limit, snaps, pages) && items == Items(pages)
      invariant var next := pages[|pages| - 1].next;
                (cursor != "" <==> next.Some?) && (next.Some? ==> cursor == CursorOf(next.value))
      decreases if pages[|pages| - 1].next.Some? then pages[|pages| - 1].next.value + 1 else 0
    {
      LastInRange(table, batches, client, f, limit, snaps, pages);
      NextContinues(q, pages[|pages| - 1]);
      page, cursor := Handle(table(k), batches, client, q.(cursor := cursor));
      NextPage(table, batches, client, f, limit, snaps, pages, page.value);
      items := items + page.value.items;
      snaps, pages := snaps + [Matching(table(k), batches, client, f)], pages + [page.value];
      k := k + 1;
    }
    CollectedInOrder(table, batches, client, f, limit, snaps, pages);
    return Some(items), snaps, pages;
  }

  lemma LastInRange(table: Tables, batches: map<Id, Id>, client: string, f: Filter, limit: nat,
                    snaps: seq<set<Id>>, pages: seq<Page>)
    requires Collected(table, batches, client, f, limit, snaps, pages)
    ensures pages != [] && (pages[|pages| - 1].next.Some? ==> pages[|pages| - 1].next.value < ID_LIMIT)
  {
  }

  lemma ReadableLimit(q: Query)
    requires Readable(q)
    ensures 1 <= LimitOf(q.limit) <= 100
  {
  }

  lemma CollectsTheFirst(snaps: seq<set<Id>>, limit: nat, pages: seq<Page>)
    requires Follows(snaps, limit, None, pages) && Finished(pages) && OnlyLarger(snaps[0], snaps)
    ensures forall x :: x in Items(pages) <==> x in snaps[0]
  {
    forall x | x in snaps[0] ensures x in Items(pages) {
      assert forall k :: 0 <= k < |snaps| ==> x in snaps[k];
      FollowedCompletely(snaps, limit, None, pages, x);
    }
    forall x | x in Items(pages) ensures x in snaps[0] { NothingNew(snaps, limit, pages, x); }
  }
}
