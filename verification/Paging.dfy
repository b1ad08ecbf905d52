/** Reading a listing page by page, while rows come and go between the reads. */
module Paging {
  import opened Tables
  import opened Listing
  import opened Cursors
  import opened QueueStore
  import Text

  // ---------------------------------------------------------------- one page

  /** The rows a cursor leaves to read. */
  function After(keys: set<Key>, cursor: Option<Key>): set<Key>
  {
    set k | k in keys && (cursor.None? || Precedes(cursor.value, k))
  }

  /** items are the first `limit` rows after the cursor; next is the last of them if more follow. */
  ghost predicate IsPage(keys: set<Key>, cursor: Option<Key>, limit: nat, items: seq<Key>, next: Option<Key>)
  {
    Listed(items) && |items| <= limit && (forall k | k in items :: k in After(keys, cursor))
    && match next
       case None => forall k | k in After(keys, cursor) :: k in items
       case Some(last) =>
         |items| == limit > 0 && last == items[limit - 1]
         && (forall k | k in After(keys, cursor) :: k in items || Precedes(last, k))
         && exists k | k in After(keys, cursor) :: k !in items
  }

  function Limit(asked: int): nat
  {
    if asked <= 0 || asked > 200 then 50 else asked
  }

  function KeyOf(p: Position): Option<Key>
  {
    if p.Start? then None else Some(Key(p.time, p.id))
  }

  datatype Page = Page(items: seq<Key>, nextCursor: string)

  /** The query and the cut shared by the three listings: one row more than the page holds is read. None is an invalid cursor. */
  method ReadPage(keys: set<Key>, c: Base64, scope: string, cursor: string, asked: int) returns (r: Option<Page>, ghost next: Option<Key>)
    requires Bijective(c) && NUL !in scope
    ensures r.None? <==> DecodeTimeCursor(c, cursor, scope).None?
    ensures r.Some? ==> IsPage(keys, KeyOf(DecodeTimeCursor(c, cursor, scope).value), Limit(asked), r.value.items, next)
    ensures r.Some? ==> r.value.nextCursor == if next.Some? then EncodeTimeCursor(c, scope, next.value.at, next.value.id) else ""
  {
    var limit := if asked <= 0 || asked > 200 then 50 else asked;
    var position := DecodeTimeCursor(c, cursor, scope);
    if position.None? { return None, None; }
    var from := KeyOf(position.value);
    var left := After(keys, from);
    var all := Fetch(left);
    var rows := if |all| > limit + 1 then all[..limit + 1] else all;
    if |rows| > limit {
      var last := rows[limit - 1];
      next := Some(last);
      CutIsPage(keys, from, limit, all);
      return Some(Page(rows[..limit], EncodeTimeCursor(c, scope, last.at, last.id))), next;
    }
    return Some(Page(rows, "")), None;
  }

  lemma CutIsPage(keys: set<Key>, cursor: Option<Key>, limit: nat, all: seq<Key>)
    requires Lists(all, After(keys, cursor)) && |all| > limit > 0
    ensures IsPage(keys, cursor, limit, all[..limit], Some(all[limit - 1]))
  {
    var items, last := all[..limit], all[limit - 1];
    forall k | k in After(keys, cursor) ensures k in items || Precedes(last, k) {
      assert k in all;
      var i :| 0 <= i < |all| && all[i] == k;
      if i < limit { assert items[i] == k; }
    }
    forall i | 0 <= i < limit ensures items[i] != all[limit] { PrecedesAsymmetric(all[i], all[limit]); }
    assert all[limit] in After(keys, cursor) && all[limit] !in items;
    assert forall k | k in items :: k in all;
  }

  // ---------------------------------------------------------------- the three listings

  function TaskKeys(tasks: map<string, Task>, status: Option<Status>, batch: string, deploy: string): set<Key>
  {
    set t | t in tasks && (status.Some? ==> tasks[t].status == status.value) && (batch != "" ==> tasks[t].batch == batch)
            && (deploy != "" ==> tasks[t].deploy == deploy) :: Key(tasks[t].createdAt, t)
  }

  function BatchKeys(batches: map<string, Batch>): set<Key>
  {
    set b | b in batches :: Key(batches[b].createdAt, b)
  }

  function SnapshotKeys(snapshots: map<string, Snapshot>): set<Key>
  {
    set x | x in snapshots && snapshots[x].retention != Trashed :: Key(snapshots[x].finishedAt, x)
  }

  /** The task passes the filters; an absent one lets everything through. */
  predicate Passes(row: Task, status: Option<Status>, batch: string, deploy: string)
  {
    (status == None || status == Some(row.status)) && (batch == "" || batch == row.batch) && (deploy == "" || deploy == row.deploy)
  }

  /** A page holds rows of the table, and the only page of one read from its start holds them all. */
  lemma PageHolds(keys: set<Key>, cursor: Option<Key>, limit: nat, items: seq<Key>, next: Option<Key>)
    requires IsPage(keys, cursor, limit, items, next)
    ensures forall k | k in items :: k in keys
    ensures cursor.None? && next.None? ==> forall k | k in keys :: k in items
  {
    assert cursor.None? ==> After(keys, cursor) == keys;
  }

  method TasksPage(store: Store, status: Option<Status>, batch: string, deploy: string, c: Base64, scope: string, cursor: string, limit: int)
    returns (r: Option<Page>, ghost next: Option<Key>)
    requires Bijective(c) && NUL !in scope
    ensures r.None? <==> DecodeTimeCursor(c, cursor, scope).None?
    ensures r.Some? ==> IsPage(TaskKeys(store.tasks, status, batch, deploy), KeyOf(DecodeTimeCursor(c, cursor, scope).value), Limit(limit), r.value.items, next)
    ensures r.Some? ==> forall k | k in r.value.items ::
      k.id in store.tasks && k.at == store.tasks[k.id].createdAt && Passes(store.tasks[k.id], status, batch, deploy)
    ensures r.Some? && cursor == "" && r.value.nextCursor == "" ==>
      forall t | t in store.tasks && Passes(store.tasks[t], status, batch, deploy) :: Key(store.tasks[t].createdAt, t) in r.value.items
    ensures r.Some? ==> r.value.nextCursor == if next.Some? then EncodeTimeCursor(c, scope, next.value.at, next.value.id) else ""
  {
    r, next := ReadPage(TaskKeys(store.tasks, status, batch, deploy), c, scope, cursor, limit);
    if next.Some? { TextIsNotEmpty(c, scope, next.value); }
    if r.Some? { PageHolds(TaskKeys(store.tasks, status, batch, deploy), KeyOf(DecodeTimeCursor(c, cursor, scope).value), Limit(limit), r.value.items, next); }
  }

  method BatchesPage(store: Store, c: Base64, scope: string, cursor: string, limit: int) returns (r: Option<Page>, ghost next: Option<Key>)
    requires Bijective(c) && NUL !in scope
    ensures r.None? <==> DecodeTimeCursor(c, cursor, scope).None?
    ensures r.Some? ==> IsPage(BatchKeys(store.batches), KeyOf(DecodeTimeCursor(c, cursor, scope).value), Limit(limit), r.value.items, next)
    ensures r.Some? ==> forall k | k in r.value.items :: k.id in store.batches && k.at == store.batches[k.id].createdAt
    ensures r.Some? && cursor == "" && r.value.nextCursor == "" ==>
      forall b | b in store.batches :: Key(store.batches[b].createdAt, b) in r.value.items
    ensures r.Some? ==> r.value.nextCursor == if next.Some? then EncodeTimeCursor(c, scope, next.value.at, next.value.id) else ""
  {
    r, next := ReadPage(BatchKeys(store.batches), c, scope, cursor, limit);
    if next.Some? { TextIsNotEmpty(c, scope, next.value); }
    if r.Some? { PageHolds(BatchKeys(store.batches), KeyOf(DecodeTimeCursor(c, cursor, scope).value), Limit(limit), r.value.items, next); }
  }

  method ListSnapshotsPage(store: Store, c: Base64, scope: string, cursor: string, limit: int) returns (r: Option<Page>, ghost next: Option<Key>)
    requires Bijective(c) && NUL !in scope
    ensures r.None? <==> DecodeTimeCursor(c, cursor, scope).None?
    ensures r.Some? ==> IsPage(SnapshotKeys(store.snapshots), KeyOf(DecodeTimeCursor(c, cursor, scope).value), Limit(limit), r.value.items, next)
    ensures r.Some? ==> forall k | k in r.value.items ::
      k.id in store.snapshots && k.at == store.snapshots[k.id].finishedAt && store.snapshots[k.id].retention != Trashed
    ensures r.Some? && cursor == "" && r.value.nextCursor == "" ==>
      forall x | x in store.snapshots && store.snapshots[x].retention != Trashed :: Key(store.snapshots[x].finishedAt, x) in r.value.items
    ensures r.Some? ==> r.value.nextCursor == if next.Some? then EncodeTimeCursor(c, scope, next.value.at, next.value.id) else ""
  {
    r, next := ReadPage(SnapshotKeys(store.snapshots), c, scope, cursor, limit);
    if next.Some? { TextIsNotEmpty(c, scope, next.value); }
    if r.Some? { PageHolds(SnapshotKeys(store.snapshots), KeyOf(DecodeTimeCursor(c, cursor, scope).value), Limit(limit), r.value.items, next); }
  }

  /** The cursor text of one page is read back as its last row by the next request. */
  lemma NextRequestContinues(c: Base64, scope: string, last: Key)
    requires Bijective(c) && NUL !in scope && MIN_INT64 <= last.at <= MAX_INT64 && last.id != "" && NUL !in last.id
    ensures var p := DecodeTimeCursor(c, EncodeTimeCursor(c, scope, last.at, last.id), scope);
      p.Some? && KeyOf(p.value) == Some(last)
  {
    CursorRoundTrip(c, scope, last.at, last.id);
  }

  // ---------------------------------------------------------------- following the cursors

  /** One request of a reader: the table as it was then, the page size, and the answer. */
  datatype Read = Read(table: set<Key>, limit: nat, items: seq<Key>, next: Option<Key>)

  /** Each request continues where the one before it stopped. */
  ghost predicate Follows(cursor: Option<Key>, visits: seq<Read>)
    decreases |visits|
  {
    visits != [] ==>
      IsPage(visits[0].table, cursor, visits[0].limit, visits[0].items, visits[0].next)
      && (|visits| > 1 ==> visits[0].next.Some?) && Follows(visits[0].next, visits[1..])
  }

  predicate Finished(visits: seq<Read>)
  {
    visits != [] && visits[|visits| - 1].next.None?
  }

  function Seen(visits: seq<Read>): seq<Key>
  {
    if visits == [] then [] else visits[0].items + Seen(visits[1..])
  }

  predicate Beyond(cursor: Option<Key>, k: Key)
  {
    cursor.None? || Precedes(cursor.value, k)
  }

  lemma PageIsBeyond(cursor: Option<Key>, read: Read, k: Key)
    requires IsPage(read.table, cursor, read.limit, read.items, read.next)
    ensures k in read.items ==> Beyond(cursor, k) && k in read.table
    ensures read.next.Some? && k in read.items ==> k == read.next.value || Precedes(k, read.next.value)
    ensures read.next.Some? && Precedes(read.next.value, k) ==> Beyond(cursor, k)
  {
    if read.next.Some? {
      var last := read.next.value;
      assert last in read.items;
      if k in read.items { var i :| 0 <= i < |read.items| && read.items[i] == k; }
      if Precedes(last, k) && cursor.Some? { PrecedesTransitive(cursor.value, last, k); }
    }
  }

  /** Whatever happens to the table between the reads, what a reader sees descends strictly: no row repeats. */
  lemma {:induction false} NoRowRepeats(cursor: Option<Key>, visits: seq<Read>)
    requires Follows(cursor, visits)
    ensures Listed(Seen(visits)) && forall k | k in Seen(visits) :: Beyond(cursor, k)
    decreases |visits|
  {
    if visits != [] {
      hide IsPage;
      var items, rest := visits[0].items, Seen(visits[1..]);
      NoRowRepeats(visits[0].next, visits[1..]);
      assert Listed(items) by { PageIsListed(cursor, visits[0]); }
      forall k | k in Seen(visits) ensures Beyond(cursor, k) {
        PageIsBeyond(cursor, visits[0], k);
        assert k !in items ==> k in rest && |visits| > 1;
      }
      forall a, b | a in items && b in rest ensures Precedes(a, b) {
        PageIsBeyond(cursor, visits[0], a);
        assert |visits| > 1 && Precedes(visits[0].next.value, b);
        if a != visits[0].next.value { PrecedesTransitive(a, visits[0].next.value, b); }
      }
      ListedBoth(items, rest);
    }
  }

  lemma PageIsListed(cursor: Option<Key>, read: Read)
    requires IsPage(read.table, cursor, read.limit, read.items, read.next)
    ensures Listed(read.items) && |read.items| <= read.limit
  {}

  lemma ListedBoth(a: seq<Key>, b: seq<Key>)
    requires Listed(a) && Listed(b) && forall x, y | x in a && y in b :: Precedes(x, y)
    ensures Listed(a + b)
  {
    var all := a + b;
    forall i, j | 0 <= i < j < |all| ensures Precedes(all[i], all[j]) {
      if i < |a| <= j { assert all[i] in a && all[j] in b; }
    }
  }

  /** A row that is there at every read is seen by a reader who reads to the end. */
  lemma {:induction false} StableRowsAppear(cursor: Option<Key>, visits: seq<Read>, k: Key)
    requires Follows(cursor, visits) && Finished(visits) && Beyond(cursor, k)
    requires forall i | 0 <= i < |visits| :: k in visits[i].table
    ensures k in Seen(visits)
    decreases |visits|
  {
    assert k in visits[0].table && k in After(visits[0].table, cursor);
    if k !in visits[0].items {
      if |visits| > 1 {
        assert visits[1..][|visits| - 2] == visits[|visits| - 1];
        StableRowsAppear(visits[0].next, visits[1..], k);
      }
    }
  }

  lemma {:induction false} SeenWasThere(cursor: Option<Key>, visits: seq<Read>, k: Key)
    requires Follows(cursor, visits) && k in Seen(visits)
    ensures exists i | 0 <= i < |visits| :: k in visits[i].table
    decreases |visits|
  {
    PageIsBeyond(cursor, visits[0], k);
    if k !in visits[0].items {
      SeenWasThere(visits[0].next, visits[1..], k);
      var i :| 0 <= i < |visits| - 1 && k in visits[1..][i].table;
      assert k in visits[i + 1].table;
    }
  }

  /** Read to the end from the empty cursor, an unchanging table is listed completely and in order, whatever the page sizes. */
  lemma {:induction false} WholeTable(visits: seq<Read>, table: set<Key>)
    requires Follows(None, visits) && Finished(visits) && forall i | 0 <= i < |visits| :: visits[i].table == table
    ensures Lists(Seen(visits), table)
  {
    NoRowRepeats(None, visits);
    forall k ensures k in Seen(visits) <==> k in table {
      if k in table { StableRowsAppear(None, visits, k); }
      if k in Seen(visits) { SeenWasThere(None, visits, k); }
    }
  }

  lemma {:induction false} EveryReadAdvances(cursor: Option<Key>, visits: seq<Read>)
    requires Follows(cursor, visits) && forall i | 0 <= i < |visits| :: visits[i].limit > 0
    ensures |visits| <= |Seen(visits)| + 1
    decreases |visits|
  {
    if |visits| > 1 {
      EveryReadAdvances(visits[0].next, visits[1..]);
    }
  }

  lemma {:induction false} ListedFits(rows: seq<Key>, table: set<Key>)
    requires Listed(rows) && forall k | k in rows :: k in table
    ensures |rows| <= |table|
  {
    if rows != [] {
      forall k | k in rows[1..] ensures k in table - {rows[0]} {
        var i :| 1 <= i < |rows| && rows[i] == k;
        PrecedesAsymmetric(rows[0], rows[i]);
      }
      assert rows[0] in table;
      ListedFits(rows[1..], table - {rows[0]});
    }
  }

  /** On a table that gains no row a reader reaches the end after at most one request per row and one more. */
  lemma {:induction false} ReadingEnds(visits: seq<Read>, table: set<Key>)
    requires Follows(None, visits) && forall i | 0 <= i < |visits| :: visits[i].table <= table && visits[i].limit > 0
    ensures |visits| <= |table| + 1
  {
    NoRowRepeats(None, visits);
    EveryReadAdvances(None, visits);
    forall k | k in Seen(visits) ensures k in table { SeenWasThere(None, visits, k); }
    ListedFits(Seen(visits), table);
  }

  // ---------------------------------------------------------------- a reader that sends the cursor texts back

  lemma {:induction false} SeenOn(visits: seq<Read>, r: Read)
    ensures Seen(visits + [r]) == Seen(visits) + r.items
  {
    var more := visits + [r];
    if visits == [] {
      assert more[1..] == [] && more[0] == r;
    } else {
      SeenOn(visits[1..], r);
      assert more[1..] == visits[1..] + [r] && more[0] == visits[0];
    }
  }

  lemma {:induction false} FollowsOn(cursor: Option<Key>, visits: seq<Read>, r: Read)
    requires Follows(cursor, visits) && (visits != [] ==> visits[|visits| - 1].next.Some?)
    requires IsPage(r.table, if visits == [] then cursor else visits[|visits| - 1].next, r.limit, r.items, r.next)
    ensures Follows(cursor, visits + [r])
    decreases |visits|
  {
    hide IsPage;
    var more := visits + [r];
    if visits == [] {
      assert more[1..] == [] && more[0] == r;
    } else {
      FollowsOn(visits[0].next, visits[1..], r);
      assert more[1..] == visits[1..] + [r] && more[0] == visits[0];
    }
  }

  /** Ids and times a cursor can carry. */
  predicate Carried(keys: set<Key>)
  {
    forall k | k in keys :: k.id != "" && NUL !in k.id && MIN_INT64 <= k.at <= MAX_INT64
  }

  lemma NextIsCarried(keys: set<Key>, cursor: Option<Key>, limit: nat, items: seq<Key>, next: Option<Key>)
    requires Carried(keys) && IsPage(keys, cursor, limit, items, next) && next.Some?
    ensures next.value.id != "" && NUL !in next.value.id && MIN_INT64 <= next.value.at <= MAX_INT64
  {
    assert next.value in items;
  }

  /** The first requests of a reader were answered by these pages, request i on tables[i]; complete says that no page follows. */
  ghost predicate Paged(tables: seq<set<Key>>, limits: seq<int>, rows: seq<Key>, complete: bool, visits: seq<Read>)
    requires |limits| == |tables|
  {
    |visits| <= |tables| && (complete <==> Finished(visits)) && Follows(None, visits) && rows == Seen(visits)
    && forall i | 0 <= i < |visits| :: visits[i].table == tables[i] && visits[i].limit == Limit(limits[i])
  }

  /** What a reader gets from n requests who stops at the first page without a next cursor: no row twice and only rows
      that were there; once it reaches the end, every row that was there throughout, and the whole table in order if that
      did not change; and it reaches the end of a table that gains no row. */
  ghost predicate ReadsThrough(tables: seq<set<Key>>, rows: seq<Key>, complete: bool, n: nat)
  {
    n <= |tables| && (complete ==> n > 0) && (!complete ==> n == |tables|) && Listed(rows)
    && (forall k | k in rows :: exists i | 0 <= i < n :: k in tables[i])
    && (complete ==> forall k | (forall i | 0 <= i < n :: k in tables[i]) :: k in rows)
    && (complete && (forall i | 0 <= i < n :: tables[i] == tables[0]) ==> Lists(rows, tables[0]))
    && (tables != [] && (forall i | 0 <= i < |tables| :: tables[i] <= tables[0]) && |tables| > |tables[0]| + 1 ==> complete)
  }

  /** Whoever follows the cursors to the last page or the last request reads through. */
  lemma PagedReadsThrough(tables: seq<set<Key>>, limits: seq<int>, rows: seq<Key>, complete: bool, visits: seq<Read>)
    requires |limits| == |tables| && Paged(tables, limits, rows, complete, visits) && (!complete ==> |visits| == |tables|)
    ensures ReadsThrough(tables, rows, complete, |visits|)
  {
    hide Follows, IsPage, Seen, Listed, Lists;
    NoRowRepeats(None, visits);
    SeenIsFair(visits);
    forall k | k in rows ensures exists i | 0 <= i < |visits| :: k in tables[i] {
      var i :| 0 <= i < |visits| && k in visits[i].table;
      assert k in tables[i];
    }
    if !complete && tables != [] && forall i | 0 <= i < |tables| :: tables[i] <= tables[0] {
      ReadingEnds(visits, tables[0]);
    }
    if complete && forall i | 0 <= i < |visits| :: tables[i] == tables[0] { WholeTable(visits, tables[0]); }
  }

  lemma SeenIsFair(visits: seq<Read>)
    requires Follows(None, visits)
    ensures forall k | k in Seen(visits) :: exists i | 0 <= i < |visits| :: k in visits[i].table
    ensures Finished(visits) ==> forall k | (forall i | 0 <= i < |visits| :: k in visits[i].table) :: k in Seen(visits)
  {
    hide Follows, IsPage, Seen;
    forall k | k in Seen(visits) ensures exists i | 0 <= i < |visits| :: k in visits[i].table { SeenWasThere(None, visits, k); }
    if Finished(visits) {
      forall k | forall i | 0 <= i < |visits| :: k in visits[i].table ensures k in Seen(visits) { StableRowsAppear(None, visits, k); }
    }
  }

  /** Requests one page after the other, each with the cursor text of the page before, until a page has none. */
  method ReadAll(tables: seq<set<Key>>, limits: seq<int>, c: Base64, scope: string)
    returns (rows: seq<Key>, complete: bool, requests: nat, ghost visits: seq<Read>)
    requires Bijective(c) && NUL !in scope && |limits| == |tables| && forall i | 0 <= i < |tables| :: Carried(tables[i])
    ensures ReadsThrough(tables, rows, complete, requests)
    ensures |visits| == requests && Paged(tables, limits, rows, complete, visits)
  {
    hide IsPage, Follows, Carried, DecodeTimeCursor, EncodeTimeCursor, Bijective, ReadsThrough;
    rows, complete, requests, visits := [], false, 0, [];
    var cursor := "";
    NothingRead();
    StartDecodes(c, scope);
    for i := 0 to |tables|
      invariant |visits| == requests == i && !complete && rows == Seen(visits) && Follows(None, visits)
      invariant forall k | 0 <= k < i :: visits[k].table == tables[k] && visits[k].limit == Limit(limits[k])
      invariant visits != [] ==> visits[i - 1].next.Some?
      invariant DecodeTimeCursor(c, cursor, scope).Some?
        && KeyOf(DecodeTimeCursor(c, cursor, scope).value) == if visits == [] then None else visits[i - 1].next
    {
      ghost var next;
      var page;
      page, next := ReadPage(tables[i], c, scope, cursor, limits[i]);
      ghost var read := Read(tables[i], Limit(limits[i]), page.value.items, next);
      FollowsOn(None, visits, read);
      SeenOn(visits, read);
      visits, rows, requests := visits + [read], rows + page.value.items, requests + 1;
      if next.Some? {
        NextIsCarried(read.table, if i == 0 then None else visits[i - 1].next, read.limit, read.items, next);
        NextRequestContinues(c, scope, next.value);
        TextIsNotEmpty(c, scope, next.value);
      }
      if page.value.nextCursor == "" {
        complete := true;
        break;
      }
      cursor := page.value.nextCursor;
    }
    PagedReadsThrough(tables, limits, rows, complete, visits);
  }

  // ---------------------------------------------------------------- the same for each listing; dbs[i] is the database as request i finds it

  function TaskTables(dbs: seq<State>, status: Option<Status>, batch: string, deploy: string): (r: seq<set<Key>>)
    ensures |r| == |dbs| && forall i | 0 <= i < |dbs| :: r[i] == TaskKeys(dbs[i].tasks, status, batch, deploy)
  {
    seq(|dbs|, i requires 0 <= i < |dbs| => TaskKeys(dbs[i].tasks, status, batch, deploy))
  }

  function BatchTables(dbs: seq<State>): (r: seq<set<Key>>)
    ensures |r| == |dbs| && forall i | 0 <= i < |dbs| :: r[i] == BatchKeys(dbs[i].batches)
  {
    seq(|dbs|, i requires 0 <= i < |dbs| => BatchKeys(dbs[i].batches))
  }

  function SnapshotTables(dbs: seq<State>): (r: seq<set<Key>>)
    ensures |r| == |dbs| && forall i | 0 <= i < |dbs| :: r[i] == SnapshotKeys(dbs[i].snapshots)
  {
    seq(|dbs|, i requires 0 <= i < |dbs| => SnapshotKeys(dbs[i].snapshots))
  }

  /** The filters must be the same in every request: another scope refuses the cursor. */
  method ReadTasks(dbs: seq<State>, status: Option<Status>, batch: string, deploy: string, limits: seq<int>, c: Base64, scope: string)
    returns (rows: seq<Key>, complete: bool, requests: nat, ghost visits: seq<Read>)
    requires Bijective(c) && NUL !in scope && |limits| == |dbs|
    requires forall i | 0 <= i < |dbs| :: Carried(TaskKeys(dbs[i].tasks, status, batch, deploy))
    ensures ReadsThrough(TaskTables(dbs, status, batch, deploy), rows, complete, requests)
    ensures |visits| == requests && Paged(TaskTables(dbs, status, batch, deploy), limits, rows, complete, visits)
  {
    rows, complete, requests, visits := ReadAll(TaskTables(dbs, status, batch, deploy), limits, c, scope);
  }

  method ReadBatches(dbs: seq<State>, limits: seq<int>, c: Base64, scope: string)
    returns (rows: seq<Key>, complete: bool, requests: nat, ghost visits: seq<Read>)
    requires Bijective(c) && NUL !in scope && |limits| == |dbs| && forall i | 0 <= i < |dbs| :: Carried(BatchKeys(dbs[i].batches))
    ensures ReadsThrough(BatchTables(dbs), rows, complete, requests)
    ensures |visits| == requests && Paged(BatchTables(dbs), limits, rows, complete, visits)
  {
    rows, complete, requests, visits := ReadAll(BatchTables(dbs), limits, c, scope);
  }

  method ReadSnapshots(dbs: seq<State>, limits: seq<int>, c: Base64, scope: string)
    returns (rows: seq<Key>, complete: bool, requests: nat, ghost visits: seq<Read>)
    requires Bijective(c) && NUL !in scope && |limits| == |dbs| && forall i | 0 <= i < |dbs| :: Carried(SnapshotKeys(dbs[i].snapshots))
    ensures ReadsThrough(SnapshotTables(dbs), rows, complete, requests)
    ensures |visits| == requests && Paged(SnapshotTables(dbs), limits, rows, complete, visits)
  {
    rows, complete, requests, visits := ReadAll(SnapshotTables(dbs), limits, c, scope);
  }

  lemma NothingRead()
    ensures Follows(None, []) && Seen([]) == []
  {}

  lemma StartDecodes(c: Base64, scope: string)
    ensures DecodeTimeCursor(c, "", scope) == Some(Start)
  {}

  lemma TextIsNotEmpty(c: Base64, scope: string, last: Key)
    requires Bijective(c)
    ensures EncodeTimeCursor(c, scope, last.at, last.id) != ""
  {
    assert (scope + [NUL] + FormatInt(last.at) + [NUL] + last.id)[|scope|] == NUL;
  }
}
