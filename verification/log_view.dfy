/** The sorted view the log store exposes (`sortedLogs` in
    frontend/src/composables/useLogs.js): a copy of the list ordered newest
    first by `createdAt`, built with a stable sort. */
module LogView {
  import opened Logs

  /** Newest first: timestamps never increase along the sequence. */
  predicate NewestFirst(s: seq<LogEntry>) {
    forall i, j :: 0 <= i < j < |s| ==> s[i].createdAt >= s[j].createdAt
  }

  /** The entries stamped with time `t`, in the order they appear. A sort is
      stable exactly when it leaves this subsequence unchanged for every `t`. */
  function WithTime(s: seq<LogEntry>, t: int): (r: seq<LogEntry>)
    ensures |r| <= |s|
  {
    if s == [] then []
    else if s[0].createdAt == t then [s[0]] + WithTime(s[1..], t)
    else WithTime(s[1..], t)
  }

  /** Places `e` in front of the first entry that is not strictly newer, so an
      earlier entry stays ahead of later ones with the same timestamp. */
  function Insert(e: LogEntry, s: seq<LogEntry>): (r: seq<LogEntry>)
    ensures multiset(r) == multiset(s) + multiset{e}
  {
    if s == [] || s[0].createdAt <= e.createdAt then [e] + s
    else
      assert s == [s[0]] + s[1..];
      [s[0]] + Insert(e, s[1..])
  }

  /** Insertion adds no entry other than the inserted one. */
  lemma InsertMembers(e: LogEntry, s: seq<LogEntry>, x: LogEntry)
    requires x in Insert(e, s)
    ensures x == e || x in s
  {
    assert x in multiset(Insert(e, s));
  }

  lemma NewestFirstTail(s: seq<LogEntry>)
    requires NewestFirst(s) && s != []
    ensures NewestFirst(s[1..])
    ensures forall x :: x in s[1..] ==> x.createdAt <= s[0].createdAt
  {
    forall i, j | 0 <= i < j < |s[1..]| ensures s[1..][i].createdAt >= s[1..][j].createdAt {
      assert s[1..][i] == s[i + 1] && s[1..][j] == s[j + 1];
    }
  }

  /** Inserting into a newest-first sequence keeps it newest first. */
  lemma {:induction false} InsertNewestFirst(e: LogEntry, s: seq<LogEntry>)
    requires NewestFirst(s)
    ensures NewestFirst(Insert(e, s))
    decreases |s|
  {
    if s != [] && s[0].createdAt > e.createdAt {
      NewestFirstTail(s);
      var tail := Insert(e, s[1..]);
      InsertNewestFirst(e, s[1..]);
      forall x | x in tail ensures x.createdAt <= s[0].createdAt {
        InsertMembers(e, s[1..], x);
      }
      var r := [s[0]] + tail;
      forall i, j | 0 <= i < j < |r| ensures r[i].createdAt >= r[j].createdAt {
        assert r[j] == tail[j - 1] && r[j] in tail;
        if i > 0 {
          assert r[i] == tail[i - 1];
        }
      }
    }
  }

  /** The sorted view: insertion sort, newest first. */
  function SortedView(logs: seq<LogEntry>): (r: seq<LogEntry>)
    ensures multiset(r) == multiset(logs)
    ensures NewestFirst(r)
    ensures forall i, j :: 0 <= i < |r| && 0 <= j < |r| && r[i].createdAt > r[j].createdAt ==> i < j
  {
    if logs == [] then []
    else
      assert logs == [logs[0]] + logs[1..];
      var rest := SortedView(logs[1..]);
      InsertNewestFirst(logs[0], rest);
      Insert(logs[0], rest)
  }

  /** Inserting keeps every timestamp's entries in their original order. */
  lemma {:induction false} InsertStable(e: LogEntry, s: seq<LogEntry>, t: int)
    ensures WithTime(Insert(e, s), t) == WithTime([e] + s, t)
    decreases |s|
  {
    if s == [] || s[0].createdAt <= e.createdAt {
    } else {
      var tail := Insert(e, s[1..]);
      assert ([s[0]] + tail)[1..] == tail;
      assert ([e] + s)[1..] == s;
      assert ([e] + s[1..])[1..] == s[1..];
      InsertStable(e, s[1..], t);
    }
  }

  /** The view is stable: entries with equal timestamps keep insertion order. */
  lemma {:induction false} SortedViewStable(logs: seq<LogEntry>, t: int)
    ensures WithTime(SortedView(logs), t) == WithTime(logs, t)
    decreases |logs|
  {
    if logs != [] {
      InsertStable(logs[0], SortedView(logs[1..]), t);
      SortedViewStable(logs[1..], t);
      assert ([logs[0]] + SortedView(logs[1..]))[1..] == SortedView(logs[1..]);
    }
  }

  /** Being newest-first and stable pins the result down: any sequence with
      both properties relative to `logs` is the sorted view. */
  lemma SortedViewUnique(logs: seq<LogEntry>, v: seq<LogEntry>)
    requires NewestFirst(v)
    requires forall t :: WithTime(v, t) == WithTime(logs, t)
    ensures v == SortedView(logs)
  {
    var w := SortedView(logs);
    forall t ensures WithTime(v, t) == WithTime(w, t) {
      SortedViewStable(logs, t);
    }
    SortedStableEqual(v, w);
  }

  /** The first entry with the head's timestamp is the head itself. */
  lemma WithTimeHead(s: seq<LogEntry>)
    requires s != []
    ensures WithTime(s, s[0].createdAt) == [s[0]] + WithTime(s[1..], s[0].createdAt)
  {
  }

  /** A newest-first sequence holds no entry newer than its head. */
  lemma {:induction false} NoneNewerThanHead(s: seq<LogEntry>, t: int)
    requires NewestFirst(s) && s != [] && t > s[0].createdAt
    ensures WithTime(s, t) == []
    decreases |s|
  {
    if |s| > 1 {
      NoneNewerThanHead(s[1..], t);
    }
  }

  lemma {:induction false} SortedStableEqual(p: seq<LogEntry>, q: seq<LogEntry>)
    requires NewestFirst(p) && NewestFirst(q)
    requires forall t :: WithTime(p, t) == WithTime(q, t)
    ensures p == q
    decreases |p|
  {
    if p == [] {
      if q != [] {
        WithTimeHead(q);
      }
    } else if q == [] {
      WithTimeHead(p);
    } else {
      WithTimeHead(p);
      WithTimeHead(q);
      var tp, tq := p[0].createdAt, q[0].createdAt;
      if tp > tq {
        NoneNewerThanHead(q, tp);
        assert false;
      }
      if tq > tp {
        NoneNewerThanHead(p, tq);
        assert false;
      }
      assert p[0] == WithTime(p, tp)[0] == WithTime(q, tp)[0] == q[0];
      forall t ensures WithTime(p[1..], t) == WithTime(q[1..], t) {
        assert WithTime(p, t) == WithTime(q, t);
        if t == tp {
          assert WithTime(p, t)[1..] == WithTime(p[1..], t);
          assert WithTime(q, t)[1..] == WithTime(q[1..], t);
        }
      }
      SortedStableEqual(p[1..], q[1..]);
      assert p == [p[0]] + p[1..];
      assert q == [q[0]] + q[1..];
    }
  }
}
