/** Reading a capture's event logs in the order of their names (apps/collector/src-tauri/src/submission.rs, read_actions
    and validate_timeline). */
module Timeline {
  import opened Common
  import opened Sorting
  import opened SpoolSteps
  import opened SpoolSafety
  import opened Submission

  function UpTo(n: nat): (r: seq<nat>)
    ensures |r| == n && forall i | 0 <= i < n :: r[i] == i + 1
  {
    if n == 0 then [] else UpTo(n - 1) + [n]
  }

  /** The same elements as one to n. */
  lemma Members(order: seq<nat>, n: nat)
    requires multiset(order) == multiset(UpTo(n))
    ensures |order| == n && forall x :: x in order <==> 1 <= x <= n
  {
    assert |multiset(order)| == |order| && |multiset(UpTo(n))| == n;
    forall x ensures x in order <==> 1 <= x <= n {
      assert x in order <==> x in multiset(order);
      assert x in UpTo(n) <==> x in multiset(UpTo(n));
      if 1 <= x <= n {
        assert UpTo(n)[x - 1] == x;
      }
    }
  }

  lemma {:induction false} SortedUpTo(order: seq<nat>, n: nat)
    requires multiset(order) == multiset(UpTo(n)) && forall i, j | 0 <= i < j < |order| :: order[i] <= order[j]
    ensures order == UpTo(n)
  {
    Members(order, n);
    if n > 0 {
      LargestLast(order, n);
      var shorter := order[..n - 1];
      assert order == shorter + [n];
      SameBefore(shorter, UpTo(n - 1), n);
      SortedUpTo(shorter, n - 1);
    }
  }

  lemma SameBefore(a: seq<nat>, b: seq<nat>, x: nat)
    requires multiset(a + [x]) == multiset(b + [x])
    ensures multiset(a) == multiset(b)
  {
    forall y ensures multiset(a)[y] == multiset(b)[y] {
      assert multiset(a + [x])[y] == multiset(a)[y] + multiset([x])[y];
      assert multiset(b + [x])[y] == multiset(b)[y] + multiset([x])[y];
    }
  }

  lemma LargestLast(order: seq<nat>, n: nat)
    requires n > 0 && |order| == n && (forall x :: x in order <==> 1 <= x <= n)
    requires forall i, j | 0 <= i < j < |order| :: order[i] <= order[j]
    ensures order[n - 1] == n
  {
    assert n in order && order[n - 1] in order;
  }

  lemma StemsDiffer(i: nat, j: nat)
    requires i != j
    ensures Stem(i) != Stem(j)
  {
    StemValue(i);
    StemValue(j);
  }

  /** Segments 1 to n in the order of their names are in the order of their numbers exactly below a million. */
  lemma NamesSortLikeNumbers(order: seq<nat>, n: nat)
    requires SortedByName(order, UpTo(n))
    ensures order == UpTo(n) <==> n < 1_000_000
  {
    Members(order, n);
    if 1_000_000 <= n {
      assert UpTo(n)[999_998] == 999_999 && UpTo(n)[999_999] == 1_000_000;
      StemsOutOfOrder();
    } else {
      forall i, j | 0 <= i < j < |order| ensures order[i] <= order[j] {
        assert order[i] in order && order[j] in order;
        if order[j] < order[i] {
          StemsOrdered(order[j], order[i]);
        }
      }
      SortedUpTo(order, n);
    }
  }

  /** There is such an order, and it names no segment twice. */
  lemma NameOrderExists(n: nat) returns (order: seq<nat>)
    ensures SortedByName(order, UpTo(n))
  {
    forall i, j | 0 <= i < j < n ensures Stem(UpTo(n)[i]) != Stem(UpTo(n)[j]) {
      StemsDiffer(UpTo(n)[i], UpTo(n)[j]);
    }
    order := Sorted(UpTo(n), Stem);
    SortedDoes(UpTo(n), Stem);
    forall i, j | 0 <= i < j < |order| ensures !Less(Stem(order[j]), Stem(order[i])) {
      LessTotal(Stem(order[i]), Stem(order[j]));
    }
  }

  lemma NamedOnce(order: seq<nat>, n: nat)
    requires SortedByName(order, UpTo(n))
    ensures forall p, q | 0 <= p < q < |order| :: order[p] != order[q] && Less(Stem(order[p]), Stem(order[q]))
  {
    forall i, j | 0 <= i < j < n ensures Stem(UpTo(n)[i]) != Stem(UpTo(n)[j]) {
      StemsDiffer(UpTo(n)[i], UpTo(n)[j]);
    }
    DistinctPermutes(UpTo(n), order, Stem);
    forall p, q | 0 <= p < q < |order| ensures order[p] != order[q] && Less(Stem(order[p]), Stem(order[q])) {
      LessTotal(Stem(order[p]), Stem(order[q]));
    }
  }

  // Whole logs one after another.

  /** Every event of the first comes no later than every event of the second. */
  predicate Precedes(a: seq<nat>, b: seq<nat>) {
    forall e, f | e in a && f in b :: e <= f
  }

  /** Log i precedes log j. */
  predicate NotAfter(files: map<Path, Content>, i: nat, j: nat) {
    Precedes(LogOf(files, i), LogOf(files, j))
  }

  predicate InOrder(files: map<Path, Content>, order: seq<nat>) {
    forall p, q | 0 <= p < q < |order| :: NotAfter(files, order[p], order[q])
  }

  lemma Joined(a: seq<nat>, b: seq<nat>, duration: nat)
    ensures OnTimeline(a + b, duration) <==>
            OnTimeline(a, duration) && OnTimeline(b, duration) && Precedes(a, b)
  {
    var all := a + b;
    if OnTimeline(all, duration) {
      forall k | 0 <= k < |a| ensures a[k] <= duration {
        assert a[k] == all[k];
      }
      forall k | 0 <= k < |b| ensures b[k] <= duration {
        assert b[k] == all[|a| + k];
      }
      forall i, j | 0 <= i < j < |a| ensures a[i] <= a[j] {
        assert a[i] == all[i] && a[j] == all[j];
      }
      forall i, j | 0 <= i < j < |b| ensures b[i] <= b[j] {
        assert b[i] == all[|a| + i] && b[j] == all[|a| + j];
      }
      forall e, f | e in a && f in b ensures e <= f {
        var i :| 0 <= i < |a| && a[i] == e;
        var j :| 0 <= j < |b| && b[j] == f;
        assert all[i] <= all[|a| + j];
      }
    }
    if OnTimeline(a, duration) && OnTimeline(b, duration) && Precedes(a, b) {
      forall i, j | 0 <= i < j < |all| ensures all[i] <= all[j] {
        assert i < |a| <= j ==> a[i] in a && b[j - |a|] in b;
      }
    }
  }

  lemma {:induction false} EventIn(files: map<Path, Content>, order: seq<nat>, e: nat)
    ensures e in EventsOf(files, order) <==> exists p | 0 <= p < |order| :: e in LogOf(files, order[p])
  {
    if order != [] {
      var (prefix, last) := (order[..|order| - 1], |order| - 1);
      EventIn(files, prefix, e);
      if e in LogOf(files, order[last]) {
        assert e in EventsOf(files, order);
      }
      if p :| 0 <= p < |order| && e in LogOf(files, order[p]) {
        assert p < last ==> e in LogOf(files, prefix[p]);
      }
    }
  }

  lemma {:induction false} LogsJoined(files: map<Path, Content>, order: seq<nat>, duration: nat)
    requires forall p | 0 <= p < |order| :: OnTimeline(LogOf(files, order[p]), duration)
    ensures OnTimeline(EventsOf(files, order), duration) <==> InOrder(files, order)
  {
    if order != [] {
      var (prefix, last) := (order[..|order| - 1], order[|order| - 1]);
      LogsJoined(files, prefix, duration);
      Joined(EventsOf(files, prefix), LogOf(files, last), duration);
      OneMoreInOrder(files, order);
    }
  }

  lemma OneMoreInOrder(files: map<Path, Content>, order: seq<nat>)
    requires order != []
    ensures var (prefix, last) := (order[..|order| - 1], order[|order| - 1]);
            InOrder(files, order) <==> InOrder(files, prefix) && Precedes(EventsOf(files, prefix), LogOf(files, last))
  {
    var (prefix, last) := (order[..|order| - 1], order[|order| - 1]);
    if InOrder(files, order) {
      forall p, q | 0 <= p < q < |prefix| ensures NotAfter(files, prefix[p], prefix[q]) {
        assert NotAfter(files, order[p], order[q]);
      }
      forall p | 0 <= p < |prefix| ensures NotAfter(files, prefix[p], last) {
        assert NotAfter(files, order[p], order[|prefix|]);
      }
      LogsPrecede(files, prefix, last);
    }
    if InOrder(files, prefix) && Precedes(EventsOf(files, prefix), LogOf(files, last)) {
      LogsPrecede(files, prefix, last);
      forall p, q | 0 <= p < q < |order| ensures NotAfter(files, order[p], order[q]) {
        assert order[p] == prefix[p];
        assert if q < |prefix| then NotAfter(files, prefix[p], prefix[q]) else NotAfter(files, prefix[p], last);
      }
    }
  }

  lemma LogsPrecede(files: map<Path, Content>, order: seq<nat>, last: nat)
    ensures Precedes(EventsOf(files, order), LogOf(files, last)) <==>
            forall p | 0 <= p < |order| :: NotAfter(files, order[p], last)
  {
    if Precedes(EventsOf(files, order), LogOf(files, last)) {
      forall p | 0 <= p < |order| ensures NotAfter(files, order[p], last) {
        forall e | e in LogOf(files, order[p]) ensures e in EventsOf(files, order) {
          EventIn(files, order, e);
        }
      }
    }
    if forall p | 0 <= p < |order| :: NotAfter(files, order[p], last) {
      forall e, f | e in EventsOf(files, order) && f in LogOf(files, last) ensures e <= f {
        EventIn(files, order, e);
        var p :| 0 <= p < |order| && e in LogOf(files, order[p]);
        assert NotAfter(files, order[p], last);
      }
    }
  }

  // The logs of a sealed capture.

  /** Every log holds events of its own segment's time. */
  ghost predicate Logged(files: map<Path, Content>, segments: seq<Segment>) {
    forall g | g in segments :: Timed(LogOf(files, g.index), g.start, g.end)
  }

  lemma EarlierLogs(files: map<Path, Content>, segments: seq<Segment>, i: nat, j: nat)
    requires Chain(segments) && Logged(files, segments) && 1 <= i < j <= |segments|
    ensures NotAfter(files, i, j)
  {
    assert segments[i - 1] in segments && segments[j - 1] in segments;
    assert segments[i - 1].index == i && segments[j - 1].index == j;
    assert segments[i - 1].end <= segments[j - 1].start;
  }

  /** Two of n segments whose names are inverted, and an event of the earlier one before an event of the later one. */
  ghost predicate Scrambled(files: map<Path, Content>, n: nat) {
    exists i: nat, j: nat :: 1 <= i < j <= n && Less(Stem(j), Stem(i)) && !NotAfter(files, j, i)
  }

  lemma ScrambledOrder(files: map<Path, Content>, n: nat, order: seq<nat>)
    requires SortedByName(order, UpTo(n)) && Scrambled(files, n)
    ensures !InOrder(files, order)
  {
    var i: nat, j: nat :| 1 <= i < j <= n && Less(Stem(j), Stem(i)) && !NotAfter(files, j, i);
    Members(order, n);
    assert i in order && j in order;
    var p :| 0 <= p < |order| && order[p] == j;
    var q :| 0 <= q < |order| && order[q] == i;
    LessTotal(Stem(i), Stem(j));
    assert p < q;
  }

  lemma UnscrambledOrder(files: map<Path, Content>, segments: seq<Segment>, order: seq<nat>, p: nat, q: nat)
    requires Chain(segments) && Logged(files, segments) && SortedByName(order, UpTo(|segments|))
    requires !Scrambled(files, |segments|) && p < q < |order|
    ensures NotAfter(files, order[p], order[q])
  {
    Members(order, |segments|);
    NamedOnce(order, |segments|);
    assert order[p] in order && order[q] in order;
    if order[p] < order[q] {
      EarlierLogs(files, segments, order[p], order[q]);
    }
  }

  lemma ScrambledExactly(files: map<Path, Content>, segments: seq<Segment>, order: seq<nat>)
    requires Chain(segments) && Logged(files, segments) && SortedByName(order, UpTo(|segments|))
    ensures InOrder(files, order) <==> !Scrambled(files, |segments|)
  {
    if Scrambled(files, |segments|) {
      ScrambledOrder(files, |segments|, order);
    } else {
      forall p, q | 0 <= p < q < |order| ensures NotAfter(files, order[p], order[q]) {
        UnscrambledOrder(files, segments, order, p, q);
      }
    }
  }

  /** Read in name order, the events of a sealed capture are on the timeline exactly when the names do not scramble them. */
  lemma OnTimelineExactly(files: map<Path, Content>, segments: seq<Segment>, order: seq<nat>, duration: nat)
    requires Chain(segments) && EndedBy(segments, duration) && Logged(files, segments)
    requires SortedByName(order, UpTo(|segments|))
    ensures OnTimeline(EventsOf(files, order), duration) <==> !Scrambled(files, |segments|)
  {
    Members(order, |segments|);
    forall p | 0 <= p < |order| ensures OnTimeline(LogOf(files, order[p]), duration) {
      assert order[p] in order;
      var g := segments[order[p] - 1];
      assert g in segments && g.index == order[p] && g.end <= duration;
    }
    LogsJoined(files, order, duration);
    ScrambledExactly(files, segments, order);
  }

  /** Below a million segments no name is inverted, so nothing is scrambled. */
  lemma NeverScrambled(files: map<Path, Content>, n: nat)
    requires n < 1_000_000
    ensures !Scrambled(files, n)
  {
    NamesInvertedExactly(n);
  }

  /** The server compares neighbours only. */
  lemma Steps(actions: seq<nat>, duration: nat)
    ensures OnTimeline(actions, duration) <==>
            (forall i | 0 <= i < |actions| :: actions[i] <= duration) && (forall i | 0 < i < |actions| :: actions[i - 1] <= actions[i])
  {
    if forall i | 0 < i < |actions| :: actions[i - 1] <= actions[i] {
      StepsClimb(actions);
    }
  }

  lemma {:induction false} StepsClimb(actions: seq<nat>)
    requires forall i | 0 < i < |actions| :: actions[i - 1] <= actions[i]
    ensures forall i, j | 0 <= i < j < |actions| :: actions[i] <= actions[j]
  {
    if actions != [] {
      var last := |actions| - 1;
      StepsClimb(actions[..last]);
      forall i | 0 <= i < last ensures actions[i] <= actions[last] {
        assert actions[..last][i] <= actions[..last][last - 1];
      }
    }
  }
}
