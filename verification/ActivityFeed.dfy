/** The recent-activity feed of packages/chain/src/live-0g.ts: logs of three kinds, newest first.
    The page is cut before the times of its blocks are fetched. */
module ActivityFeed {
  import opened Basics

  /** A log with its place on the chain; `event` is everything the feed shows but the time. */
  datatype Log<+T> = Log(block: nat, index: nat, event: T)

  datatype Activity<+T> = Activity(event: T, timestamp: nat)

  /** The chain's own order, newest first. */
  predicate Precedes<T>(a: Log<T>, b: Log<T>) {
    a.block > b.block || (a.block == b.block && a.index > b.index)
  }

  ghost predicate NewestFirst<T>(logs: seq<Log<T>>) {
    forall i, j :: 0 <= i < j < |logs| ==>
      logs[i].block > logs[j].block || (logs[i].block == logs[j].block && logs[i].index > logs[j].index)
  }

  /** No two logs share a place, as on any chain. */
  ghost predicate Apart<T>(logs: seq<Log<T>>) {
    forall i, j :: 0 <= i < j < |logs| ==> (logs[i].block, logs[i].index) != (logs[j].block, logs[j].index)
  }

  function Inserted<T>(log: Log<T>, sorted: seq<Log<T>>): seq<Log<T>> {
    if sorted == [] || Precedes(log, sorted[0]) then [log] + sorted
    else [sorted[0]] + Inserted(log, sorted[1..])
  }

  /** What sorting with the feed's comparison yields. */
  function Sorted<T>(logs: seq<Log<T>>): seq<Log<T>> {
    if logs == [] then [] else Inserted(logs[0], Sorted(logs[1..]))
  }

  function Stamp<T>(logs: seq<Log<T>>, secondsOf: nat -> nat): (r: seq<Activity<T>>)
    ensures |r| == |logs|
  {
    seq(|logs|, i requires 0 <= i < |logs| => Activity(logs[i].event, secondsOf(logs[i].block) * 1000))
  }

  lemma {:induction false} InsertedHolds<T(!new)>(log: Log<T>, sorted: seq<Log<T>>)
    ensures multiset(Inserted(log, sorted)) == multiset(sorted) + multiset{log}
  {
    if sorted == [] || Precedes(log, sorted[0]) {
      assert multiset([log] + sorted) == multiset{log} + multiset(sorted);
    } else {
      InsertedHolds(log, sorted[1..]);
      assert sorted == [sorted[0]] + sorted[1..];
    }
  }

  /** A log put in front of later ones. */
  lemma FirstKeeps<T(!new)>(log: Log<T>, rest: seq<Log<T>>)
    requires NewestFirst(rest) && forall other :: other in rest ==> Precedes(log, other)
    ensures NewestFirst([log] + rest)
  {
    var all := [log] + rest;
    forall i, j | 0 <= i < j < |all|
      ensures Precedes(all[i], all[j])
    {
      assert all[j] == rest[j - 1] && rest[j - 1] in rest;
    }
  }

  lemma HeadPrecedes<T(!new)>(log: Log<T>, sorted: seq<Log<T>>, tail: seq<Log<T>>)
    requires sorted != [] && NewestFirst(sorted) && Precedes(sorted[0], log)
    requires multiset(tail) == multiset(sorted[1..]) + multiset{log}
    ensures forall other :: other in tail ==> Precedes(sorted[0], other)
  {
    forall other | other in tail
      ensures Precedes(sorted[0], other)
    {
      assert other in multiset(tail);
      if other != log {
        assert other in sorted[1..];
      }
    }
  }

  lemma {:induction false} InsertedKeeps<T(!new)>(log: Log<T>, sorted: seq<Log<T>>)
    requires NewestFirst(sorted)
    requires forall other :: other in sorted ==> (other.block, other.index) != (log.block, log.index)
    ensures NewestFirst(Inserted(log, sorted))
    ensures multiset(Inserted(log, sorted)) == multiset(sorted) + multiset{log}
  {
    InsertedHolds(log, sorted);
    if sorted != [] {
      if Precedes(log, sorted[0]) {
        BeforeAll(log, sorted);
        FirstKeeps(log, sorted);
      } else {
        TailKeeps(sorted);
        InsertedKeeps(log, sorted[1..]);
        assert Precedes(sorted[0], log);
        HeadPrecedes(log, sorted, Inserted(log, sorted[1..]));
        FirstKeeps(sorted[0], Inserted(log, sorted[1..]));
      }
    }
  }

  lemma BeforeAll<T(!new)>(log: Log<T>, sorted: seq<Log<T>>)
    requires sorted != [] && NewestFirst(sorted) && Precedes(log, sorted[0])
    ensures forall other :: other in sorted ==> Precedes(log, other)
  {
  }

  lemma TailKeeps<T(!new)>(sorted: seq<Log<T>>)
    requires sorted != [] && NewestFirst(sorted)
    ensures NewestFirst(sorted[1..]) && forall other :: other in sorted[1..] ==> other in sorted
  {
  }

  lemma {:induction false} SortedKeeps<T(!new)>(logs: seq<Log<T>>)
    requires Apart(logs)
    ensures NewestFirst(Sorted(logs)) && multiset(Sorted(logs)) == multiset(logs)
  {
    if logs != [] {
      var rest := logs[1..];
      assert logs == [logs[0]] + rest;
      SortedKeeps(rest);
      forall other | other in Sorted(rest)
        ensures (other.block, other.index) != (logs[0].block, logs[0].index)
      {
        assert other in multiset(rest);
        var i :| 0 <= i < |rest| && rest[i] == other;
        assert logs[i + 1] == other;
      }
      InsertedKeeps(logs[0], Sorted(rest));
    }
  }

  lemma TailHolds<T(!new)>(a: seq<Log<T>>)
    requires a != []
    ensures multiset(a[1..]) == multiset(a) - multiset{a[0]}
  {
    assert a == [a[0]] + a[1..];
  }

  lemma NewestIsFirst<T(!new)>(a: seq<Log<T>>, b: seq<Log<T>>)
    requires a != [] && b != [] && NewestFirst(a) && NewestFirst(b) && multiset(a) == multiset(b)
    ensures a[0] == b[0]
  {
    assert a[0] in multiset(b) && b[0] in multiset(a);
    var i :| 0 <= i < |b| && b[i] == a[0];
    var j :| 0 <= j < |a| && a[j] == b[0];
  }

  /** There is only one way to order the same logs newest first. */
  lemma {:induction false} OrderIsUnique<T(!new)>(a: seq<Log<T>>, b: seq<Log<T>>)
    requires NewestFirst(a) && NewestFirst(b) && multiset(a) == multiset(b)
    ensures a == b
  {
    assert |multiset(a)| == |a| && |multiset(b)| == |b|;
    if a != [] {
      NewestIsFirst(a, b);
      TailHolds(a);
      TailHolds(b);
      OrderIsUnique(a[1..], b[1..]);
      assert a == [a[0]] + a[1..] && b == [b[0]] + b[1..];
    }
  }

  ghost predicate OnPage<T>(page: seq<Log<T>>, block: nat) {
    exists k :: 0 <= k < |page| && page[k].block == block
  }

  /** Fetches each block of the page once. */
  method ReadTimes<T(!new)>(page: seq<Log<T>>, secondsOf: nat -> nat)
    returns (times: map<nat, nat>, ghost fetched: seq<nat>)
    ensures forall k :: 0 <= k < |page| ==> page[k].block in times
    ensures forall block :: block in times ==> times[block] == secondsOf(block) * 1000
    ensures |fetched| <= |page| && forall k, m :: 0 <= k < m < |fetched| ==> fetched[k] != fetched[m]
    ensures forall block :: block in fetched ==> OnPage(page, block)
  {
    times, fetched := map[], [];
    var i := 0;
    while i < |page|
      invariant 0 <= i <= |page|
      invariant forall k :: 0 <= k < i ==> page[k].block in times
      invariant forall block :: block in times ==> times[block] == secondsOf(block) * 1000
      invariant forall block :: block in fetched ==> block in times
      invariant |fetched| <= i && forall k, m :: 0 <= k < m < |fetched| ==> fetched[k] != fetched[m]
      invariant forall block :: block in fetched ==> OnPage(page, block)
    {
      var block := page[i].block;
      if block !in times {
        assert block !in fetched && OnPage(page, block);
        times := times[block := secondsOf(block) * 1000];
        fetched := fetched + [block];
      }
      i := i + 1;
    }
  }

  lemma PageIsOfAll<T(!new)>(all: seq<Log<T>>, sorted: seq<Log<T>>, page: seq<Log<T>>, block: nat)
    requires multiset(sorted) == multiset(all) && page <= sorted && OnPage(page, block)
    ensures exists log :: log in all && log.block == block
  {
    var k :| 0 <= k < |page| && page[k].block == block;
    assert page[k] == sorted[k];
    assert sorted[k] in multiset(all);
  }

  /** The feed: whichever way all logs are put in order, newest first, and all of them stamped,
      it is the first `limit`. `fetched` are the blocks whose header was read. */
  method ListRecentActivity<T(!new)>(
    registered: seq<Log<T>>, attested: seq<Log<T>>, paid: seq<Log<T>>, limit: nat, secondsOf: nat -> nat)
    returns (feed: seq<Activity<T>>, ghost fetched: seq<nat>)
    requires Apart(registered + attested + paid)
    ensures exists all :: NewestFirst(all) && multiset(all) == multiset(registered + attested + paid)
    ensures forall all :: NewestFirst(all) && multiset(all) == multiset(registered + attested + paid) ==>
              feed == Truncated(Stamp(all, secondsOf), limit)
    ensures |fetched| <= limit && forall i, j :: 0 <= i < j < |fetched| ==> fetched[i] != fetched[j]
    ensures forall block :: block in fetched ==>
              exists log :: log in registered + attested + paid && log.block == block
  {
    hide Apart, NewestFirst, OnPage;
    var pending := registered;
    pending := pending + attested;
    pending := pending + paid;
    ghost var logs := pending;
    SortedKeeps(pending);
    pending := Sorted(pending);
    var page := Truncated(pending, limit);
    var times;
    times, fetched := ReadTimes(page, secondsOf);
    feed := seq(|page|, k requires 0 <= k < |page|
        && page[k].block in times => Activity(page[k].event, times[page[k].block]));
    assert feed == Truncated(Stamp(pending, secondsOf), limit);
    forall all | NewestFirst(all) && multiset(all) == multiset(logs)
      ensures feed == Truncated(Stamp(all, secondsOf), limit)
    {
      OrderIsUnique(all, pending);
    }
    forall block | block in fetched
      ensures exists log :: log in logs && log.block == block
    {
      PageIsOfAll(logs, pending, page, block);
    }
  }
}
