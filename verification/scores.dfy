/**
 * The aggregator `saveScore` of src/pages/Home.tsx (lines 137-176): a finished
 * session becomes a score record of type free; the record heads the recent-sessions
 * list (5 kept), joins the high-score list (re-sorted descending by score, 10 kept),
 * and the running statistics are recomputed.
 *
 * `Array.prototype.sort` is stable, so the high-score sort is modelled as a stable
 * insertion sort; the lemmas show it is the sorted, order-preserving permutation.
 */
module Scores {
  import opened Storage

  const MaxHighscores: nat := 10
  const MaxRecentSessions: nat := 5

  /** The record `saveScore` builds; `id` and `date` are supplied by the caller. */
  function NewRecord(id: string, date: string, score: nat, duration: real): (r: Score)
    ensures r.score == score && r.longestRally == score && r.kind == Free
    ensures r.id == id && r.date == date && r.duration == duration
  {
    Score(id, score, date, duration, Free, score)
  }

  /** `s.slice(0, n)` */
  function Take<T>(s: seq<T>, n: nat): (r: seq<T>)
    ensures |r| == if |s| <= n then |s| else n
    ensures r == s[..|r|]
  {
    if |s| <= n then s else s[..n]
  }

  // ---------------------------------------------------------------------------
  // Stable sort, descending by score
  // ---------------------------------------------------------------------------

  ghost predicate SortedDesc(s: seq<Score>) {
    forall i, j :: 0 <= i < j < |s| ==> s[i].score >= s[j].score
  }

  /** Places `x` after every record of `sorted` whose score is at least its own. */
  function Insert(sorted: seq<Score>, x: Score): seq<Score> {
    if sorted == [] then [x]
    else if sorted[0].score >= x.score then [sorted[0]] + Insert(sorted[1..], x)
    else [x] + sorted
  }

  /** `sort((a, b) => b.score - a.score)`: each record is inserted in input order. */
  function SortByScore(s: seq<Score>): seq<Score> {
    if s == [] then [] else Insert(SortByScore(s[..|s| - 1]), s[|s| - 1])
  }

  /** The records of `s` with score `k`, in their order in `s`. */
  function WithScore(s: seq<Score>, k: nat): seq<Score> {
    if s == [] then []
    else (if s[0].score == k then [s[0]] else []) + WithScore(s[1..], k)
  }

  lemma {:induction false} WithScoreAppend(a: seq<Score>, b: seq<Score>, k: nat)
    ensures WithScore(a + b, k) == WithScore(a, k) + WithScore(b, k)
  {
    if a == [] {
      assert a + b == b;
    } else {
      var ab := a + b;
      assert ab[0] == a[0];
      assert ab[1..] == a[1..] + b;
      WithScoreAppend(a[1..], b, k);
      var head := if a[0].score == k then [a[0]] else [];
      assert WithScore(ab, k) == head + (WithScore(a[1..], k) + WithScore(b, k));
      assert WithScore(a, k) == head + WithScore(a[1..], k);
    }
  }

  lemma {:induction false} WithScoreNone(s: seq<Score>, k: nat)
    requires forall i :: 0 <= i < |s| ==> s[i].score < k
    ensures WithScore(s, k) == []
  {
    if s != [] {
      WithScoreNone(s[1..], k);
    }
  }

  /** How many leading records of `sorted` score at least `x`: where `Insert` puts `x`. */
  function InsertionPoint(sorted: seq<Score>, x: Score): (p: nat)
    ensures p <= |sorted|
  {
    if sorted == [] || sorted[0].score < x.score then 0
    else 1 + InsertionPoint(sorted[1..], x)
  }

  /** The tail of a sorted list is sorted. */
  lemma SortedTail(s: seq<Score>)
    requires s != [] && SortedDesc(s)
    ensures SortedDesc(s[1..])
  {
    var t := s[1..];
    forall i, j | 0 <= i < j < |t| ensures t[i].score >= t[j].score {
      assert t[i] == s[i + 1] && t[j] == s[j + 1];
    }
  }

  /**
   * `x` lands after every record of a sorted list scoring at least as much (ties
   * included) and before every record scoring less.
   */
  lemma {:induction false} InsertAt(sorted: seq<Score>, x: Score)
    requires SortedDesc(sorted)
    ensures var p := InsertionPoint(sorted, x);
      Insert(sorted, x) == sorted[..p] + [x] + sorted[p..] &&
      (forall i :: 0 <= i < p ==> sorted[i].score >= x.score) &&
      (forall i :: p <= i < |sorted| ==> sorted[i].score < x.score)
  {
    var p := InsertionPoint(sorted, x);
    if sorted != [] && sorted[0].score >= x.score {
      var t := sorted[1..];
      SortedTail(sorted);
      InsertAt(t, x);
      var q := InsertionPoint(t, x);
      assert p == q + 1;
      assert Insert(sorted, x) == [sorted[0]] + (t[..q] + [x] + t[q..]);
      assert sorted[..p] == [sorted[0]] + t[..q];
      assert sorted[p..] == t[q..];
      forall i | 0 <= i < p ensures sorted[i].score >= x.score {
        if i > 0 {
          assert sorted[i] == t[i - 1];
        }
      }
      forall i | p <= i < |sorted| ensures sorted[i].score < x.score {
        assert sorted[i] == t[i - 1];
      }
    } else {
      assert p == 0;
      assert sorted[..0] + [x] + sorted[0..] == [x] + sorted;
      forall i | 0 <= i < |sorted| ensures sorted[i].score < x.score {
        assert sorted[0].score >= sorted[i].score;
      }
    }
  }

  /** A record scoring at least every record of a sorted list can head it. */
  lemma SortedCons(h: Score, r: seq<Score>)
    requires SortedDesc(r) && forall i :: 0 <= i < |r| ==> r[i].score <= h.score
    ensures SortedDesc([h] + r)
  {
    var s := [h] + r;
    forall i, j | 0 <= i < j < |s| ensures s[i].score >= s[j].score {
      assert s[j] == r[j - 1];
      if i > 0 {
        assert s[i] == r[i - 1];
      }
    }
  }

  /** Inserting into a sorted list keeps it sorted and adds exactly `x`. */
  lemma {:induction false} InsertSortedPermutation(sorted: seq<Score>, x: Score)
    requires SortedDesc(sorted)
    ensures SortedDesc(Insert(sorted, x))
    ensures multiset(Insert(sorted, x)) == multiset(sorted) + multiset{x}
  {
    if sorted == [] {
    } else if sorted[0].score >= x.score {
      var rest := sorted[1..];
      assert sorted == [sorted[0]] + rest;
      InsertSortedPermutation(rest, x);
      var r := Insert(rest, x);
      forall i | 0 <= i < |r| ensures r[i].score <= sorted[0].score {
        assert r[i] in multiset(r);
        if r[i] != x {
          assert r[i] in multiset(rest);
          var j :| 0 <= j < |rest| && rest[j] == r[i];
          assert sorted[j + 1] == r[i];
        }
      }
      SortedCons(sorted[0], r);
    } else {
      forall i | 0 <= i < |sorted| ensures sorted[i].score <= x.score {
        if i > 0 {
          assert sorted[0].score >= sorted[i].score;
        }
      }
      SortedCons(x, sorted);
    }
  }

  /** Inserting keeps the records of each score in order, `x` last among its equals. */
  lemma {:induction false} InsertStable(sorted: seq<Score>, x: Score, k: nat)
    requires SortedDesc(sorted)
    ensures WithScore(Insert(sorted, x), k) == WithScore(sorted, k) + (if x.score == k then [x] else [])
  {
    InsertAt(sorted, x);
    var p := InsertionPoint(sorted, x);
    var a, b := sorted[..p], sorted[p..];
    assert sorted == a + b;
    assert Insert(sorted, x) == (a + [x]) + b;
    WithScoreAppend(a + [x], b, k);
    WithScoreAppend(a, [x], k);
    WithScoreAppend(a, b, k);
    assert WithScore([x], k) == (if x.score == k then [x] else []) by {
      assert [x][1..] == [];
    }
    if x.score == k {
      WithScoreNone(b, k);
    }
  }

  /**
   * The sort gives a list sorted descending by score that is a permutation of its
   * input and keeps records of equal score in their input order (stability).
   */
  lemma {:induction false} SortByScoreProperties(s: seq<Score>)
    ensures SortedDesc(SortByScore(s))
    ensures multiset(SortByScore(s)) == multiset(s)
    ensures forall k: nat :: WithScore(SortByScore(s), k) == WithScore(s, k)
  {
    if s != [] {
      var init, x := s[..|s| - 1], s[|s| - 1];
      assert s == init + [x];
      SortByScoreProperties(init);
      InsertSortedPermutation(SortByScore(init), x);
      forall k: nat ensures WithScore(SortByScore(s), k) == WithScore(s, k) {
        InsertStable(SortByScore(init), x, k);
        WithScoreAppend(init, [x], k);
        assert WithScore([x], k) == (if x.score == k then [x] else []) by {
          assert [x][1..] == [];
        }
      }
    }
  }

  lemma {:induction false} InsertLast(sorted: seq<Score>, x: Score)
    requires forall i :: 0 <= i < |sorted| ==> sorted[i].score >= x.score
    ensures Insert(sorted, x) == sorted + [x]
  {
    if sorted != [] {
      InsertLast(sorted[1..], x);
    }
  }

  /** A list already sorted is left as it is. */
  lemma {:induction false} SortSorted(s: seq<Score>)
    requires SortedDesc(s)
    ensures SortByScore(s) == s
  {
    if s != [] {
      var init := s[..|s| - 1];
      SortSorted(init);
      InsertLast(init, s[|s| - 1]);
    }
  }

  // ---------------------------------------------------------------------------
  // The three updaters of saveScore
  // ---------------------------------------------------------------------------

  /** `[newScore, ...prev].slice(0, 5)` */
  function RecentAfter(recent: seq<Score>, r: Score): seq<Score> {
    Take([r] + recent, MaxRecentSessions)
  }

  /** `[...prev, newScore].sort((a, b) => b.score - a.score).slice(0, 10)` */
  function HighscoresAfter(highscores: seq<Score>, r: Score): seq<Score> {
    Take(SortByScore(highscores + [r]), MaxHighscores)
  }

  /** The stats updater: totals accumulate and the average is recomputed from them. */
  function StatsAfter(st: Stats, score: nat, duration: real): Stats {
    Stats(
      st.totalHits + score,
      if st.longestRally >= score then st.longestRally else score,
      st.totalSessions + 1,
      (st.totalHits + score) as real / (st.totalSessions + 1) as real,
      st.totalPlayTime + duration)
  }

  /** The new record heads the recent list, which keeps at most 5, newest first. */
  lemma RecentAfterProperties(recent: seq<Score>, r: Score)
    ensures var n := RecentAfter(recent, r);
      |n| <= MaxRecentSessions && n[0] == r &&
      |n| == (if |recent| < MaxRecentSessions then |recent| + 1 else MaxRecentSessions) &&
      n[1..] == recent[..|n| - 1]
  {
  }

  /** Truncating a sorted list keeps a sorted sub-multiset that outscores what it drops. */
  lemma {:induction false} TakeSortedKeepsBest(sorted: seq<Score>, n: nat)
    requires SortedDesc(sorted)
    ensures var h := Take(sorted, n);
      SortedDesc(h) && multiset(h) <= multiset(sorted) &&
      (forall y: Score, z: Score :: y in h && z in multiset(sorted) - multiset(h) ==> z.score <= y.score)
  {
    var h := Take(sorted, n);
    var rest := sorted[|h|..];
    assert sorted == h + rest;
    assert multiset(sorted) == multiset(h) + multiset(rest);
    forall y: Score, z: Score | y in h && z in multiset(sorted) - multiset(h) ensures z.score <= y.score {
      assert z in multiset(rest);
      assert z in rest;
      var i :| 0 <= i < |h| && h[i] == y;
      var j :| 0 <= j < |rest| && rest[j] == z;
      assert sorted[i] == y && sorted[|h| + j] == z;
    }
  }

  /**
   * The high-score list after a save holds at most 10 records, sorted descending
   * by score, drawn from the old list and the new record; it has as many as it can
   * keep, and every record dropped scores no more than every record kept.
   */
  lemma {:induction false} HighscoresAfterProperties(highscores: seq<Score>, r: Score)
    ensures var h := HighscoresAfter(highscores, r);
      |h| == (if |highscores| < MaxHighscores then |highscores| + 1 else MaxHighscores) &&
      SortedDesc(h) &&
      multiset(h) <= multiset(highscores + [r]) &&
      (forall y: Score, z: Score :: y in h && z in multiset(highscores + [r]) - multiset(h) ==> z.score <= y.score)
  {
    var all := highscores + [r];
    SortByScoreProperties(all);
    assert |SortByScore(all)| == |all| by {
      assert |multiset(SortByScore(all))| == |multiset(all)|;
    }
    TakeSortedKeepsBest(SortByScore(all), MaxHighscores);
  }

  /**
   * When the old list is sorted (as every list this function returns is), the new
   * record is inserted after all records scoring at least as much (ties keep the
   * older records first) and before all that score less.
   */
  lemma {:induction false} HighscoresAfterSorted(highscores: seq<Score>, r: Score)
    requires SortedDesc(highscores)
    ensures HighscoresAfter(highscores, r) == Take(Insert(highscores, r), MaxHighscores)
    ensures exists p :: (0 <= p <= |highscores| &&
      HighscoresAfter(highscores, r) == Take(highscores[..p] + [r] + highscores[p..], MaxHighscores) &&
      (forall i :: 0 <= i < p ==> highscores[i].score >= r.score) &&
      (forall i :: p <= i < |highscores| ==> highscores[i].score < r.score))
  {
    var all := highscores + [r];
    assert all[..|all| - 1] == highscores;
    SortSorted(highscores);
    InsertAt(highscores, r);
  }

  /**
   * The stats after a save: the totals grow by the score, the session count and
   * the play time, the longest rally is the maximum, and the average is the new
   * total over the new session count, whatever the old average was.
   */
  lemma StatsAfterProperties(st: Stats, score: nat, duration: real)
    ensures var n := StatsAfter(st, score, duration);
      n.totalHits == st.totalHits + score &&
      n.longestRally >= st.longestRally && n.longestRally >= score &&
      (n.longestRally == st.longestRally || n.longestRally == score) &&
      n.totalSessions == st.totalSessions + 1 &&
      n.averageRallyLength * n.totalSessions as real == n.totalHits as real &&
      n.totalPlayTime == st.totalPlayTime + duration
  {
  }

  /** One finished session: its score and duration in seconds. */
  datatype Played = Played(score: nat, duration: real)

  /** The stats after saving `sessions` in order, starting from the defaults. */
  function StatsOf(sessions: seq<Played>): Stats {
    if sessions == [] then DefaultStats
    else var last := sessions[|sessions| - 1];
      StatsAfter(StatsOf(sessions[..|sessions| - 1]), last.score, last.duration)
  }

  function TotalScore(sessions: seq<Played>): nat {
    if sessions == [] then 0 else TotalScore(sessions[..|sessions| - 1]) + sessions[|sessions| - 1].score
  }

  function TotalDuration(sessions: seq<Played>): real {
    if sessions == [] then 0.0 else TotalDuration(sessions[..|sessions| - 1]) + sessions[|sessions| - 1].duration
  }

  /**
   * From the default stats, after any sequence of saves, the stats are exactly the
   * totals of the saved sessions: hits and play time summed, the session count, the
   * best score, and the average recomputed as total hits over sessions.
   */
  lemma {:induction false} StatsOfSessions(sessions: seq<Played>)
    ensures var st := StatsOf(sessions);
      st.totalHits == TotalScore(sessions) &&
      st.totalSessions == |sessions| &&
      st.totalPlayTime == TotalDuration(sessions) &&
      (forall i :: 0 <= i < |sessions| ==> sessions[i].score <= st.longestRally) &&
      (sessions == [] ==> st.longestRally == 0) &&
      (sessions != [] ==> exists i :: 0 <= i < |sessions| && sessions[i].score == st.longestRally) &&
      st.averageRallyLength == if sessions == [] then 0.0 else TotalScore(sessions) as real / |sessions| as real
  {
    if sessions != [] {
      var init := sessions[..|sessions| - 1];
      StatsOfSessions(init);
      var st := StatsOf(sessions);
      forall i | 0 <= i < |sessions| ensures sessions[i].score <= st.longestRally {
        if i < |init| {
          assert sessions[i] == init[i];
        }
      }
      if init != [] {
        var i :| 0 <= i < |init| && init[i].score == StatsOf(init).longestRally;
        assert sessions[i] == init[i];
      }
    }
  }

  /** Scores 4 then 6 give an average of exactly 5. */
  lemma AverageIsRecomputed(d1: real, d2: real)
    ensures StatsAfter(StatsAfter(DefaultStats, 4, d1), 6, d2).averageRallyLength == 5.0
  {
  }
}
