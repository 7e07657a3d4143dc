/** The two consumers of a finalized capture: the submitter (apps/collector/src-tauri/src/submission.rs) and the
    server's cross-reference checks (services/api/internal/worker/validator.go). */
module Submission {
  import opened Common
  import opened Sorting
  import opened SpoolSteps

  // File names. `{:06}` pads to six digits and never truncates.

  function Digit(d: nat): char
    requires d < 10
  {
    ['0', '1', '2', '3', '4', '5', '6', '7', '8', '9'][d]
  }

  function Digits(n: nat, width: nat): (s: string)
    ensures |s| == width
  {
    if width == 0 then "" else Digits(n / 10, width - 1) + [Digit(n % 10)]
  }

  function Decimal(n: nat): (s: string)
    ensures |s| > 0
  {
    if n < 10 then [Digit(n)] else Decimal(n / 10) + [Digit(n % 10)]
  }

  function Stem(index: nat): string {
    if index < 1_000_000 then Digits(index, 6) else Decimal(index)
  }

  function Pow10(w: nat): nat {
    if w == 0 then 1 else 10 * Pow10(w - 1)
  }

  /** Order is decided by the first difference. */
  lemma {:induction false} LessAppend(x: string, y: string, c: char, d: char)
    requires |x| == |y| && (Less(x, y) || (x == y && c < d))
    ensures Less(x + [c], y + [d])
  {
    if x != "" && x[0] == y[0] {
      LessAppend(x[1..], y[1..], c, d);
      assert (x + [c])[1..] == x[1..] + [c] && (y + [d])[1..] == y[1..] + [d];
    }
  }

  lemma {:induction false} DigitsOrdered(i: nat, j: nat, width: nat)
    requires i < j < Pow10(width)
    ensures Less(Digits(i, width), Digits(j, width))
  {
    if i / 10 < j / 10 {
      DigitsOrdered(i / 10, j / 10, width - 1);
    }
    LessAppend(Digits(i / 10, width - 1), Digits(j / 10, width - 1), Digit(i % 10), Digit(j % 10));
  }

  lemma Million()
    ensures Pow10(6) == 1_000_000
  {
    assert Pow10(3) == 1_000;
  }

  /** Below a million, file names sort like segment numbers. */
  lemma StemsOrdered(i: nat, j: nat)
    requires i < j < 1_000_000
    ensures Less(Stem(i), Stem(j))
  {
    Million();
    DigitsOrdered(i, j, 6);
  }

  lemma MillionthHead()
    ensures Decimal(1_000_000)[0] == '1'
  {
    assert Decimal(100)[0] == Decimal(10)[0] == Decimal(1)[0] == '1';
    assert Decimal(10_000)[0] == Decimal(1_000)[0] == Decimal(100)[0];
    assert Decimal(1_000_000)[0] == Decimal(100_000)[0] == Decimal(10_000)[0];
  }

  lemma NinesHead()
    ensures Digits(999_999, 6)[0] == '9'
  {
    assert Digits(99, 2)[0] == Digits(9, 1)[0] == '9';
    assert Digits(9_999, 4)[0] == Digits(999, 3)[0] == Digits(99, 2)[0];
    assert Digits(999_999, 6)[0] == Digits(99_999, 5)[0] == Digits(9_999, 4)[0];
  }

  /** The millionth name has seven digits, and sorts before the names it should follow. */
  lemma StemsOutOfOrder()
    ensures Less(Stem(1_000_000), Stem(999_999))
  {
    MillionthHead();
    NinesHead();
  }

  /** Two of the names of segments 1 to n sort the wrong way round. */
  ghost predicate NamesInverted(n: nat) {
    exists i: nat, j: nat :: i < j <= n && 1 <= i && Less(Stem(j), Stem(i))
  }

  /** The names of segments 1 to n sort like their numbers exactly below a million. */
  lemma NamesInvertedExactly(n: nat)
    ensures NamesInverted(n) <==> 1_000_000 <= n
  {
    if n < 1_000_000 {
      forall i: nat, j: nat | i < j <= n ensures !Less(Stem(j), Stem(i)) {
        StemsOrdered(i, j);
        LessTotal(Stem(i), Stem(j));
      }
    } else {
      StemsOutOfOrder();
    }
  }

  // A name gives its number back.

  function ValueOf(c: char): nat {
    if '0' <= c <= '9' then (c - '0') as nat else 0
  }

  function Value(s: string): nat {
    if s == "" then 0 else 10 * Value(s[..|s| - 1]) + ValueOf(s[|s| - 1])
  }

  lemma DigitValue(d: nat)
    requires d < 10
    ensures ValueOf(Digit(d)) == d
  {
  }

  lemma {:induction false} DigitsValue(n: nat, width: nat)
    requires n < Pow10(width)
    ensures Value(Digits(n, width)) == n
  {
    if width > 0 {
      DigitsValue(n / 10, width - 1);
      DigitValue(n % 10);
    }
  }

  lemma {:induction false} DecimalValue(n: nat)
    ensures Value(Decimal(n)) == n
  {
    DigitValue(n % 10);
    if n >= 10 {
      DecimalValue(n / 10);
    } else {
      assert Value([Digit(n)]) == 10 * Value("") + ValueOf(Digit(n));
    }
  }

  lemma StemValue(n: nat)
    ensures Value(Stem(n)) == n
  {
    Million();
    if n < 1_000_000 {
      DigitsValue(n, 6);
    } else {
      DecimalValue(n);
    }
  }

  // verify_manifest

  predicate HasOutput(artifacts: seq<Entry>) {
    exists e | e in artifacts :: e.path.Output?
  }

  predicate Intact(files: map<Path, Content>, e: Entry) {
    e.path in files && Size(files[e.path]) == e.size && files[e.path] == e.digest
  }

  predicate Verified(files: map<Path, Content>, m: Manifest) {
    && m.duration != 0 && m.segments != [] && HasOutput(m.artifacts)
    && forall e | e in m.artifacts :: Intact(files, e)
  }

  method VerifyManifest(files: map<Path, Content>, m: Manifest) returns (ok: bool)
    ensures ok <==> Verified(files, m)
  {
    if m.duration == 0 || m.segments == [] {
      return false;
    }
    if !HasOutput(m.artifacts) {
      return false;
    }
    for i := 0 to |m.artifacts|
      invariant forall k | 0 <= k < i :: Intact(files, m.artifacts[k])
    {
      var e := m.artifacts[i];
      assert e in m.artifacts;
      if e.path !in files {
        return false;
      }
      if Size(files[e.path]) != e.size || files[e.path] != e.digest {
        return false;
      }
    }
    return true;
  }

  // read_actions

  /** The event logs a manifest names, in manifest order. */
  function EventIndices(artifacts: seq<Entry>): seq<nat> {
    if artifacts == [] then []
    else
      var last := artifacts[|artifacts| - 1];
      EventIndices(artifacts[..|artifacts| - 1]) + if last.path.Events? then [last.path.index] else []
  }

  /** `order` lists the same logs sorted by name. */
  ghost predicate SortedByName(order: seq<nat>, indices: seq<nat>) {
    && multiset(order) == multiset(indices)
    && forall i, j | 0 <= i < j < |order| :: !Less(Stem(order[j]), Stem(order[i]))
  }

  /** The events of one log. */
  function LogOf(files: map<Path, Content>, index: nat): seq<nat> {
    if Events(index) in files && files[Events(index)].Lines? then files[Events(index)].events else []
  }

  /** The events of the logs in that order; blank lines are skipped. */
  function EventsOf(files: map<Path, Content>, order: seq<nat>): seq<nat> {
    if order == [] then [] else EventsOf(files, order[..|order| - 1]) + LogOf(files, order[|order| - 1])
  }

  // validate_timeline

  predicate OnTimeline(actions: seq<nat>, duration: nat) {
    && (forall i | 0 <= i < |actions| :: actions[i] <= duration)
    && (forall i, j | 0 <= i < j < |actions| :: actions[i] <= actions[j])
  }

  method ValidateTimeline(duration: nat, actions: seq<nat>) returns (ok: bool)
    ensures ok <==> OnTimeline(actions, duration)
  {
    var previous := 0;
    for i := 0 to |actions|
      invariant OnTimeline(actions[..i], duration)
      invariant previous == if i == 0 then 0 else actions[i - 1]
    {
      if actions[i] < previous || actions[i] > duration {
        return false;
      }
      previous := actions[i];
    }
    assert actions[..|actions|] == actions;
    return true;
  }

  // trajectory_document and validateCrossReferences

  /** What the submitted document says of segments, actions and outputs. */
  datatype Trajectory = Trajectory(duration: nat, segments: seq<Segment>, actions: seq<nat>, outputs: seq<Entry>)

  function OutputsOf(artifacts: seq<Entry>): seq<Entry> {
    if artifacts == [] then []
    else
      var last := artifacts[|artifacts| - 1];
      OutputsOf(artifacts[..|artifacts| - 1]) + if last.path.Output? then [last] else []
  }

  function TrajectoryOf(m: Manifest, actions: seq<nat>): Trajectory {
    Trajectory(m.duration, m.segments, actions, OutputsOf(m.artifacts))
  }

  /** The segment's video was uploaded under its key, with its digest, size and type. */
  predicate SegmentRegistered(registered: map<Path, Entry>, g: Segment) {
    && Video(g.index) in registered && registered[Video(g.index)].digest == g.footage
    && registered[Video(g.index)].size == Size(g.footage) && registered[Video(g.index)].mediaType == "video/mp4"
  }

  predicate OutputRegistered(registered: map<Path, Entry>, o: Entry) {
    o.path in registered && registered[o.path] == o
  }

  predicate Consistent(t: Trajectory, registered: map<Path, Entry>) {
    && (forall i | 0 <= i < |t.segments| :: SegmentRegistered(registered, t.segments[i]) && t.segments[i].end <= t.duration)
    && (forall i | 0 < i < |t.segments| :: t.segments[i - 1].end <= t.segments[i].start)
    && (forall i | 0 <= i < |t.actions| :: t.actions[i] <= t.duration)
    && (forall i | 0 < i < |t.actions| :: t.actions[i - 1] <= t.actions[i])
    && (forall i | 0 <= i < |t.outputs| :: OutputRegistered(registered, t.outputs[i]))
  }

  method ValidateCrossReferences(t: Trajectory, registered: map<Path, Entry>) returns (problems: nat)
    ensures problems == 0 <==> Consistent(t, registered)
  {
    problems := 0;
    var previousSegmentEnd := 0;
    for i := 0 to |t.segments|
      invariant previousSegmentEnd == if i == 0 then 0 else t.segments[i - 1].end
      invariant problems == 0 <==>
        && (forall k | 0 <= k < i :: SegmentRegistered(registered, t.segments[k]) && t.segments[k].end <= t.duration)
        && (forall k | 0 < k < i :: t.segments[k - 1].end <= t.segments[k].start)
    {
      var segment := t.segments[i];
      if !SegmentRegistered(registered, segment) {
        problems := problems + 1;
      }
      if i > 0 && segment.start < previousSegmentEnd {
        problems := problems + 1;
      }
      if segment.end > t.duration {
        problems := problems + 1;
      }
      previousSegmentEnd := segment.end;
    }
    ghost var segmentsFine := problems == 0;
    var previousAction := 0;
    for i := 0 to |t.actions|
      invariant previousAction == if i == 0 then 0 else t.actions[i - 1]
      invariant problems == 0 <==>
        && segmentsFine && (forall k | 0 <= k < i :: t.actions[k] <= t.duration)
        && (forall k | 0 < k < i :: t.actions[k - 1] <= t.actions[k])
    {
      if i > 0 && t.actions[i] < previousAction {
        problems := problems + 1;
      }
      if t.actions[i] > t.duration {
        problems := problems + 1;
      }
      previousAction := t.actions[i];
    }
    ghost var actionsFine := problems == 0;
    for i := 0 to |t.outputs|
      invariant problems == 0 <==> actionsFine && (forall k | 0 <= k < i :: OutputRegistered(registered, t.outputs[k]))
    {
      if !OutputRegistered(registered, t.outputs[i]) {
        problems := problems + 1;
      }
    }
  }
}
