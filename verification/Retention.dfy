/** Retention of history records: prune to make room, then write. */
module Retention {
  import opened Common

  const LIMIT := 10

  /** Records with the same namespace and config hash belong together. */
  datatype Key = Key(namespace: string, configHash: string)

  datatype Record = Record(name: string, key: Key, created: int)

  ghost function Matching(records: set<Record>, key: Key): set<Record> {
    set r | r in records && r.key == key
  }

  /** Everything in `gone` is at most as recent as everything in `kept`. */
  ghost predicate Older(gone: set<Record>, kept: set<Record>) {
    forall g, k | g in gone && k in kept :: g.created <= k.created
  }

  /** How many records a prune sets out to delete. */
  function Excess(count: nat): nat {
    if count < LIMIT then 0 else count - LIMIT + 1
  }

  ghost predicate OldestFirst(list: seq<Record>) {
    forall i, j | 0 <= i < j < |list| :: list[i].created <= list[j].created
  }

  ghost function Elements(list: seq<Record>): set<Record> {
    set r | r in list
  }

  ghost predicate Distinct(list: seq<Record>) {
    forall i, j | 0 <= i < j < |list| :: list[i] != list[j]
  }

  /** What one write may do to the store: drop the `gone` oldest of its key, add its own record if created. */
  ghost predicate Wrote(before: set<Record>, after: set<Record>, rec: Record, gone: set<Record>, created: bool) {
    && gone <= Matching(before, rec.key)
    && Older(gone, Matching(before, rec.key) - gone)
    && after == before - gone + if created then {rec} else {}
  }

  /** out is list with r put in at position i. */
  ghost predicate InsertedAt(list: seq<Record>, i: nat, r: Record, out: seq<Record>) {
    && i <= |list| && |out| == |list| + 1
    && (forall k | 0 <= k < i :: out[k] == list[k])
    && out[i] == r
    && (forall k | i < k < |out| :: out[k] == list[k - 1])
  }

  lemma InsertedInOrder(list: seq<Record>, i: nat, r: Record, out: seq<Record>)
    requires OldestFirst(list) && InsertedAt(list, i, r, out)
    requires i > 0 ==> list[i - 1].created <= r.created
    requires forall k | i <= k < |list| :: r.created < list[k].created
    ensures OldestFirst(out)
  {
    forall x, y | 0 <= x < y < |out|
      ensures out[x].created <= out[y].created
    {
      if y < i {
        assert out[x] == list[x] && out[y] == list[y];
      } else if y == i {
        assert out[x] == list[x];
      } else if x < i {
        assert out[x] == list[x] && out[y] == list[y - 1];
      } else if x > i {
        assert out[x] == list[x - 1] && out[y] == list[y - 1];
      }
    }
  }

  lemma Inserted(list: seq<Record>, i: nat, r: Record)
    requires i <= |list|
    ensures InsertedAt(list, i, r, list[..i] + [r] + list[i..])
  {
  }

  lemma InsertedElements(list: seq<Record>, i: nat, r: Record)
    requires i <= |list|
    ensures multiset(list[..i] + [r] + list[i..]) == multiset(list) + multiset{r}
  {
    assert list == list[..i] + list[i..];
  }

  method InsertByAge(list: seq<Record>, r: Record) returns (out: seq<Record>)
    requires OldestFirst(list)
    ensures OldestFirst(out)
    ensures multiset(out) == multiset(list) + multiset{r}
  {
    var i := |list|;
    while i > 0 && list[i - 1].created > r.created
      invariant 0 <= i <= |list|
      invariant forall k | i <= k < |list| :: list[k].created > r.created
    {
      i := i - 1;
    }
    out := list[..i] + [r] + list[i..];
    Inserted(list, i, r);
    InsertedInOrder(list, i, r, out);
    InsertedElements(list, i, r);
  }

  /** Sorting by creation time; ties may come out in any order, as with an unstable sort. */
  method SortByAge(list: seq<Record>) returns (out: seq<Record>)
    ensures OldestFirst(out) && multiset(out) == multiset(list)
  {
    out := [];
    for i := 0 to |list|
      invariant OldestFirst(out) && multiset(out) == multiset(list[..i])
    {
      assert list[..i + 1] == list[..i] + [list[i]];
      out := InsertByAge(out, list[i]);
    }
    assert list[..|list|] == list;
  }

  lemma {:induction false} ElementsSize(list: seq<Record>)
    requires Distinct(list)
    ensures |Elements(list)| == |list|
  {
    if list != [] {
      var init, last := list[..|list| - 1], list[|list| - 1];
      ElementsSize(init);
      assert list == init + [last];
      assert Elements(list) == Elements(init) + {last};
      assert last !in Elements(init);
    }
  }

  lemma SortedListing(sorted: seq<Record>, list: seq<Record>)
    requires multiset(sorted) == multiset(list) && Distinct(list)
    ensures Distinct(sorted) && Elements(sorted) == Elements(list) && |sorted| == |list|
  {
    assert |sorted| == |multiset(sorted)| == |multiset(list)| == |list|;
    forall r
      ensures r in sorted <==> r in list
    {
      assert r in sorted <==> r in multiset(sorted);
      assert r in list <==> r in multiset(list);
    }
    forall i, j | 0 <= i < j < |sorted|
      ensures sorted[i] != sorted[j]
    {
      if sorted[i] == sorted[j] {
        TwiceInMultiset(sorted, i, j);
        OnceInMultiset(list, sorted[i]);
      }
    }
  }

  lemma TwiceInMultiset(list: seq<Record>, i: nat, j: nat)
    requires i < j < |list| && list[i] == list[j]
    ensures multiset(list)[list[i]] >= 2
  {
    assert list == list[..i] + [list[i]] + list[i + 1..j] + [list[j]] + list[j + 1..];
  }

  lemma {:induction false} OnceInMultiset(list: seq<Record>, r: Record)
    requires Distinct(list)
    ensures multiset(list)[r] <= 1
  {
    if list != [] {
      var init, last := list[..|list| - 1], list[|list| - 1];
      assert list == init + [last];
      OnceInMultiset(init, r);
      assert last !in init;
    }
  }

  class HistoryStore {
    var records: set<Record>

    constructor ()
      ensures records == {}
    {
      records := {};
    }

    method List(key: Key) returns (list: seq<Record>)
      ensures Distinct(list) && Elements(list) == Matching(records, key)
    {
      list := [];
      var left := records;
      while left != {}
        invariant left <= records
        invariant Distinct(list) && Elements(list) == Matching(records - left, key)
        decreases left
      {
        SomeRecord(left);
        var r :| r in left;
        ghost var seen := Matching(records - left, key);
        left := left - {r};
        if r.key == key {
          assert r !in Elements(list);
          assert Elements(list + [r]) == Elements(list) + {r};
          list := list + [r];
        }
        assert Matching(records - left, key) == seen + if r.key == key then {r} else {};
      }
      assert records - left == records;
    }

    /**
     Deletes the oldest records of the key so that one more stays within the limit. Listing may
     fail, and so may the delete call with index `failAt`; both end the prune.
     */
    method PruneHistory(key: Key, listOk: bool, failAt: nat) returns (ok: bool, ghost gone: set<Record>)
      modifies this
      ensures records == old(records) - gone && gone <= Matching(old(records), key)
      ensures Older(gone, Matching(old(records), key) - gone)
      ensures |gone| == if listOk then Min(failAt, Excess(|Matching(old(records), key)|)) else 0
      ensures ok <==> listOk && failAt >= Excess(|Matching(old(records), key)|)
    {
      gone := {};
      if !listOk {
        return false, {};
      }
      var list := List(key);
      ElementsSize(list);
      if |list| < LIMIT {
        return true, {};
      }
      var sorted := SortByAge(list);
      SortedListing(sorted, list);
      var toDelete := |sorted| - LIMIT + 1;
      var i := 0;
      while i < toDelete
        invariant 0 <= i <= toDelete && i <= failAt
        invariant gone == Elements(sorted[..i])
        invariant records == old(records) - gone
      {
        if i == failAt {
          PrefixOldest(sorted, i);
          return false, gone;
        }
        assert sorted[..i + 1] == sorted[..i] + [sorted[i]];
        records := records - {sorted[i]};
        gone := gone + {sorted[i]};
        i := i + 1;
      }
      PrefixOldest(sorted, toDelete);
      return true, gone;
    }

    /** A failed prune is logged and the write goes ahead; `createOk` is the answer to the create call. */
    method WriteHistoryEntry(rec: Record, listOk: bool, failAt: nat, createOk: bool) returns (ghost gone: set<Record>)
      modifies this
      ensures Wrote(old(records), records, rec, gone, createOk)
      ensures |gone| == if listOk then Min(failAt, Excess(|Matching(old(records), rec.key)|)) else 0
    {
      var pruned;
      pruned, gone := PruneHistory(rec.key, listOk, failAt);
      if createOk {
        records := records + {rec};
      }
    }
  }

  lemma SomeRecord(s: set<Record>)
    requires s != {}
    ensures exists r :: r in s
  {
    assert (forall r :: r !in s) ==> s == {};
  }

  lemma PrefixOldest(sorted: seq<Record>, i: nat)
    requires OldestFirst(sorted) && Distinct(sorted) && i <= |sorted|
    ensures Elements(sorted[..i]) <= Elements(sorted)
    ensures Older(Elements(sorted[..i]), Elements(sorted) - Elements(sorted[..i]))
    ensures |Elements(sorted[..i])| == i
  {
    ElementsSize(sorted[..i]);
    assert forall x | 0 <= x < i :: sorted[..i][x] == sorted[x];
    forall g, k | g in Elements(sorted[..i]) && k in Elements(sorted) - Elements(sorted[..i])
      ensures g.created <= k.created
    {
      var a :| 0 <= a < i && sorted[..i][a] == g;
      var b :| 0 <= b < |sorted| && sorted[b] == k;
      assert i <= b;
      assert sorted[a].created <= sorted[b].created;
    }
  }

  // ----- one write

  /** kept is what remains of all: nothing dropped is more recent than anything kept. */
  ghost predicate Newest(kept: set<Record>, all: set<Record>) {
    kept <= all && Older(all - kept, kept)
  }

  lemma SubsetSize(a: set<Record>, b: set<Record>)
    requires a <= b
    ensures |b - a| == |b| - |a|
  {
    assert b == a + (b - a);
  }

  lemma MatchingAfter(before: set<Record>, after: set<Record>, rec: Record, gone: set<Record>, created: bool, key: Key)
    requires Wrote(before, after, rec, gone, created)
    ensures key != rec.key ==> Matching(after, key) == Matching(before, key)
    ensures Matching(after, rec.key) == Matching(before, rec.key) - gone + if created then {rec} else {}
  {
    if key != rec.key {
      assert forall g | g in gone :: g.key == rec.key;
    }
  }

  /**
   Any write, whatever fails in it: other keys are untouched and the count of the key grows
   by at most one; a clean write of a new record leaves min(count + 1, 10), from any count.
   */
  lemma WriteCounts(before: set<Record>, after: set<Record>, rec: Record, gone: set<Record>, created: bool, key: Key)
    requires Wrote(before, after, rec, gone, created) && rec !in before
    ensures key != rec.key ==> Matching(after, key) == Matching(before, key)
    ensures |Matching(after, rec.key)| == |Matching(before, rec.key)| - |gone| + if created then 1 else 0
    ensures created && |gone| == Excess(|Matching(before, rec.key)|) ==>
              |Matching(after, rec.key)| == Min(|Matching(before, rec.key)| + 1, 10)
  {
    MatchingAfter(before, after, rec, gone, created, key);
    SubsetSize(gone, Matching(before, rec.key));
  }

  lemma NewestStep(kept: set<Record>, all: set<Record>, rec: Record, gone: set<Record>)
    requires Newest(kept, all) && rec !in all && (forall r | r in all :: r.created <= rec.created)
    requires gone <= kept && Older(gone, kept - gone)
    ensures Newest(kept - gone + {rec}, all + {rec})
  {
  }

  lemma NewestLess(kept: set<Record>, all: set<Record>, gone: set<Record>)
    requires Newest(kept, all) && gone <= kept && Older(gone, kept - gone)
    ensures Newest(kept - gone, all)
  {
  }

  /** A write during which every API call succeeds. */
  ghost predicate CleanWrite(before: set<Record>, after: set<Record>, rec: Record) {
    exists gone :: Wrote(before, after, rec, gone, true) && |gone| == Excess(|Matching(before, rec.key)|)
  }

  /** What a write was to record, and whether the API server created the record. */
  datatype Attempt = Attempt(rec: Record, created: bool)

  /** A write whose listing, deletions and creation may fail. */
  ghost predicate AnyWrite(before: set<Record>, after: set<Record>, attempt: Attempt) {
    exists gone :: Wrote(before, after, attempt.rec, gone, attempt.created)
  }

  lemma AnyWriteStep(before: set<Record>, after: set<Record>, attempt: Attempt, all: set<Record>, key: Key)
    requires AnyWrite(before, after, attempt) && Newest(Matching(before, key), all)
    requires attempt.created && attempt.rec.key == key ==>
               attempt.rec !in all && forall r | r in all :: r.created <= attempt.rec.created
    ensures Newest(Matching(after, key), all + if attempt.created && attempt.rec.key == key then {attempt.rec} else {})
  {
    var gone :| Wrote(before, after, attempt.rec, gone, attempt.created);
    MatchingAfter(before, after, attempt.rec, gone, attempt.created, key);
    var kept := Matching(before, key);
    if key == attempt.rec.key {
      if attempt.created {
        NewestStep(kept, all, attempt.rec, gone);
      } else {
        NewestLess(kept, all, gone);
        assert Matching(after, key) == kept - gone && all + {} == all;
      }
    } else {
      assert all + {} == all;
    }
  }

  /** `kept` holds the newest of `all`: everything while untouched, exactly min(count, 10) from then on. */
  ghost predicate Retained(kept: set<Record>, all: set<Record>, touched: bool, initial: set<Record>) {
    && Newest(kept, all)
    && |kept| == (if touched then Min(|all|, 10) else |all|)
    && (!touched ==> kept == initial)
  }

  lemma RetentionStep(before: set<Record>, after: set<Record>, rec: Record, key: Key, all: set<Record>,
                      touched: bool, initial: set<Record>)
    requires CleanWrite(before, after, rec)
    requires rec.key == key ==> rec !in all && forall r | r in all :: r.created <= rec.created
    requires Retained(Matching(before, key), all, touched, initial)
    ensures Retained(Matching(after, key), all + (if rec.key == key then {rec} else {}),
                     touched || rec.key == key, initial)
  {
    var gone :| Wrote(before, after, rec, gone, true) && |gone| == Excess(|Matching(before, rec.key)|);
    MatchingAfter(before, after, rec, gone, true, key);
    if key == rec.key {
      NewestStep(Matching(before, key), all, rec, gone);
      WriteCounts(before, after, rec, gone, true, key);
    } else {
      assert all + {} == all;
    }
  }

  // ----- whole runs of writes

  /** A run: the store before the first write and after each one, with the record each write is to add. */
  ghost predicate AnyRun(states: seq<set<Record>>, attempts: seq<Attempt>) {
    && |states| == |attempts| + 1
    && forall i | 0 <= i < |attempts| :: AnyWrite(states[i], states[i + 1], attempts[i])
  }

  /** A run in which no API call fails. */
  ghost predicate CleanRun(states: seq<set<Record>>, attempts: seq<Attempt>) {
    && |states| == |attempts| + 1
    && forall i | 0 <= i < |attempts| ::
         attempts[i].created && CleanWrite(states[i], states[i + 1], attempts[i].rec)
  }

  /** Everything of the key that the store held at first or that was created since. */
  ghost function Ever(initial: set<Record>, attempts: seq<Attempt>, key: Key): set<Record> {
    if attempts == [] then Matching(initial, key)
    else
      var last := attempts[|attempts| - 1];
      Ever(initial, attempts[..|attempts| - 1], key) + if last.created && last.rec.key == key then {last.rec} else {}
  }

  /** Serial writes: each created record is new and at least as recent as all earlier ones of its key. */
  ghost predicate Serial(initial: set<Record>, attempts: seq<Attempt>) {
    forall i | 0 <= i < |attempts| && attempts[i].created :: Follows(initial, attempts[..i], attempts[i].rec)
  }

  ghost predicate Follows(initial: set<Record>, attempts: seq<Attempt>, rec: Record) {
    var ever := Ever(initial, attempts, rec.key);
    rec !in ever && forall r | r in ever :: r.created <= rec.created
  }

  /** Some write of the run was for the key. */
  predicate Touched(attempts: seq<Attempt>, key: Key) {
    if attempts == [] then false
    else Touched(attempts[..|attempts| - 1], key) || attempts[|attempts| - 1].rec.key == key
  }

  lemma SerialPrefix(initial: set<Record>, attempts: seq<Attempt>)
    requires Serial(initial, attempts) && attempts != []
    ensures var n := |attempts| - 1;
            && Serial(initial, attempts[..n])
            && (attempts[n].created ==> Follows(initial, attempts[..n], attempts[n].rec))
  {
    var n := |attempts| - 1;
    forall i | 0 <= i < n && attempts[..n][i].created
      ensures Follows(initial, attempts[..n][..i], attempts[..n][i].rec)
    {
      assert attempts[..n][..i] == attempts[..i] && attempts[i].created;
    }
  }

  lemma AnyRunPrefix(states: seq<set<Record>>, attempts: seq<Attempt>)
    requires AnyRun(states, attempts) && attempts != []
    ensures var n := |attempts| - 1;
            && AnyRun(states[..n + 1], attempts[..n])
            && states[..n + 1][0] == states[0] && states[..n + 1][n] == states[n]
            && AnyWrite(states[n], states[n + 1], attempts[n])
  {
    var n := |attempts| - 1;
    forall i | 0 <= i < n
      ensures AnyWrite(states[..n + 1][i], states[..n + 1][i + 1], attempts[..n][i])
    {
      assert AnyWrite(states[i], states[i + 1], attempts[i]);
    }
    assert AnyWrite(states[n], states[n + 1], attempts[n]);
  }

  lemma CleanRunPrefix(states: seq<set<Record>>, attempts: seq<Attempt>)
    requires CleanRun(states, attempts) && attempts != []
    ensures var n := |attempts| - 1;
            && CleanRun(states[..n + 1], attempts[..n])
            && states[..n + 1][0] == states[0] && states[..n + 1][n] == states[n]
            && attempts[n].created && CleanWrite(states[n], states[n + 1], attempts[n].rec)
  {
    var n := |attempts| - 1;
    forall i | 0 <= i < n
      ensures attempts[..n][i].created && CleanWrite(states[..n + 1][i], states[..n + 1][i + 1], attempts[..n][i].rec)
    {
      assert attempts[i].created && CleanWrite(states[i], states[i + 1], attempts[i].rec);
    }
    assert attempts[n].created && CleanWrite(states[n], states[n + 1], attempts[n].rec);
  }

  /**
   Whatever fails in a run of serial writes, listing, deletions or creations, each key keeps
   the newest of all the records it ever had: nothing lost is more recent than anything kept.
   */
  lemma {:induction false} AnyRunKeepsNewest(states: seq<set<Record>>, attempts: seq<Attempt>, key: Key)
    requires AnyRun(states, attempts) && Serial(states[0], attempts)
    ensures Newest(Matching(states[|attempts|], key), Ever(states[0], attempts, key))
  {
    if attempts != [] {
      var n := |attempts| - 1;
      AnyRunPrefix(states, attempts);
      SerialPrefix(states[0], attempts);
      AnyRunKeepsNewest(states[..n + 1], attempts[..n], key);
      AnyWriteStep(states[n], states[n + 1], attempts[n], Ever(states[0], attempts[..n], key), key);
    }
  }

  /**
   After any run of serial writes in which nothing fails, from any store, each key holds the
   newest of all its records: an untouched key all of them, any other exactly min(count, 10).
   */
  lemma {:induction false} RetentionKeepsNewest(states: seq<set<Record>>, attempts: seq<Attempt>, key: Key)
    requires CleanRun(states, attempts) && Serial(states[0], attempts)
    ensures Retained(Matching(states[|attempts|], key), Ever(states[0], attempts, key),
                     Touched(attempts, key), Matching(states[0], key))
  {
    if attempts != [] {
      var n := |attempts| - 1;
      CleanRunPrefix(states, attempts);
      SerialPrefix(states[0], attempts);
      RetentionKeepsNewest(states[..n + 1], attempts[..n], key);
      RetentionStep(states[n], states[n + 1], attempts[n].rec, key, Ever(states[0], attempts[..n], key),
                    Touched(attempts[..n], key), Matching(states[0], key));
    }
  }
}
