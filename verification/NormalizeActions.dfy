/** Thinning pointer movement and folding clicks (services/api/internal/worker/validator.go, normalizeActions). */
module NormalizeActions {
  import opened Common

  const I64_MAX: int := 0x7FFF_FFFF_FFFF_FFFF
  const U64: int := 0x1_0000_0000_0000_0000
  const INTERVAL: int := 100_000_000   // nanoseconds between kept moves

  /** A coordinate as the number it was written as; None when it is missing. */
  datatype Pointer = Pointer(x: Option<Id>, y: Option<Id>)

  datatype Action =
    | Move(time: nat, at: Pointer)
    | Down(time: nat, button: string, application: Option<Id>)
    | Up(time: nat, button: string, application: Option<Id>)
    | Click(time: nat, button: string, application: Option<Id>, position: Pointer)
    | Other(time: nat, event: Id)   // keys and everything else

  /** Numbers beyond the signed range parse to its end. */
  function UintValue(time: nat): nat {
    if time <= I64_MAX then time else I64_MAX
  }

  /** Unsigned subtraction wraps around. */
  function Elapsed(now: nat, before: nat): int {
    if before <= now then now - before else now - before + U64
  }

  predicate Folds(a: Action, b: Action) {
    a.Down? && b.Up? && a.button != "" && a.button == b.button
  }

  const NOWHERE := Pointer(None, None)

  /** A click carries a position only when both coordinates are known. */
  function ClickOf(up: Action, pointer: Pointer): Action
    requires up.Up?
  {
    Click(up.time, up.button, up.application, if pointer.x.Some? && pointer.y.Some? then pointer else NOWHERE)
  }

  /** A move too soon after the last kept one; a last time of zero means none was kept yet. */
  predicate Dropped(a: Action, last: nat) {
    a.Move? && last != 0 && Elapsed(UintValue(a.time), last) < INTERVAL
  }

  /** The rest of the result, from the time of the last kept move and the last seen pointer position. */
  function Norm(rest: seq<Action>, last: nat, pointer: Pointer): seq<Action>
    decreases |rest|
  {
    if rest == [] then []
    else if rest[0].Move? then
      if Dropped(rest[0], last) then Norm(rest[1..], last, rest[0].at)
      else [rest[0]] + Norm(rest[1..], UintValue(rest[0].time), rest[0].at)
    else if |rest| >= 2 && Folds(rest[0], rest[1]) then
      [ClickOf(rest[1], pointer)] + Norm(rest[2..], last, pointer)
    else [rest[0]] + Norm(rest[1..], last, pointer)
  }

  function Normalized(actions: seq<Action>): seq<Action> {
    Norm(actions, 0, NOWHERE)
  }

  /** Moving the first output over. */
  lemma Emitted(result: seq<Action>, a: Action, tail: seq<Action>)
    ensures result + ([a] + tail) == (result + [a]) + tail
  {
  }

  method Normalize(actions: seq<Action>) returns (result: seq<Action>)
    ensures result == Normalized(actions)
  {
    result := [];
    var lastMouseMove := 0;
    var pointer := NOWHERE;
    var index := 0;
    assert actions[0..] == actions;
    while index < |actions|
      invariant 0 <= index <= |actions|
      invariant result + Norm(actions[index..], lastMouseMove, pointer) == Normalized(actions)
    {
      var action := actions[index];
      ghost var rest := actions[index..];
      assert rest[0] == action && rest[1..] == actions[index + 1..];
      if action.Move? {
        pointer := action.at;
        if lastMouseMove != 0 && Elapsed(UintValue(action.time), lastMouseMove) < INTERVAL {
          index := index + 1;
          continue;
        }
        lastMouseMove := UintValue(action.time);
        Emitted(result, action, Norm(rest[1..], lastMouseMove, pointer));
        result := result + [action];
        index := index + 1;
        continue;
      }
      if action.Down? && index + 1 < |actions| {
        var next := actions[index + 1];
        if next.Up? && action.button != "" && action.button == next.button {
          assert rest[1] == next && rest[2..] == actions[index + 2..];
          Emitted(result, ClickOf(next, pointer), Norm(rest[2..], lastMouseMove, pointer));
          result := result + [ClickOf(next, pointer)];
          index := index + 2;
          continue;
        }
      }
      Emitted(result, action, Norm(rest[1..], lastMouseMove, pointer));
      result := result + [action];
      index := index + 1;
    }
  }

  // What the user pressed and typed is unchanged.

  datatype Token = Press(button: string) | Release(button: string, at: nat, application: Option<Id>) | Typed(event: Action)

  function TokensOf(a: Action): seq<Token> {
    match a
    case Move(_, _) => []
    case Down(_, button, _) => [Press(button)]
    case Up(time, button, application) => [Release(button, time, application)]
    case Click(time, button, application, _) => [Press(button), Release(button, time, application)]
    case Other(_, _) => [Typed(a)]
  }

  /** Button and key history, in order, with every release and key event in full. */
  function Trace(actions: seq<Action>): seq<Token> {
    if actions == [] then [] else TokensOf(actions[0]) + Trace(actions[1..])
  }

  lemma {:induction false} NormKeepsTrace(rest: seq<Action>, last: nat, pointer: Pointer)
    ensures Trace(Norm(rest, last, pointer)) == Trace(rest)
    decreases |rest|
  {
    if rest != [] {
      if rest[0].Move? {
        NormKeepsTrace(rest[1..], last, rest[0].at);
        NormKeepsTrace(rest[1..], UintValue(rest[0].time), rest[0].at);
      } else if |rest| >= 2 && Folds(rest[0], rest[1]) {
        NormKeepsTrace(rest[2..], last, pointer);
        assert rest[1..][1..] == rest[2..];
        assert Trace(rest) == TokensOf(rest[0]) + (TokensOf(rest[1]) + Trace(rest[2..]));
      } else {
        NormKeepsTrace(rest[1..], last, pointer);
      }
    }
  }

  lemma TraceKept(actions: seq<Action>)
    ensures Trace(Normalized(actions)) == Trace(actions)
  {
    NormKeepsTrace(actions, 0, NOWHERE);
  }

  // Times.

  /** Times never go back, and lie within [lo, hi]. */
  predicate Timed(actions: seq<Action>, lo: nat, hi: nat) {
    && (forall i | 0 <= i < |actions| :: lo <= actions[i].time <= hi)
    && (forall i, j | 0 <= i < j < |actions| :: actions[i].time <= actions[j].time)
  }

  lemma TimedTail(rest: seq<Action>, n: nat, lo: nat, hi: nat)
    requires Timed(rest, lo, hi) && 0 < n <= |rest|
    ensures Timed(rest[n..], rest[n - 1].time, hi) && lo <= rest[n - 1].time <= hi
  {
  }

  lemma TimedCons(a: Action, tail: seq<Action>, lo: nat, hi: nat)
    requires lo <= a.time <= hi && Timed(tail, a.time, hi)
    ensures Timed([a] + tail, lo, hi)
  {
  }

  lemma TimedLower(tail: seq<Action>, lo: nat, lower: nat, hi: nat)
    requires Timed(tail, lo, hi) && lower <= lo
    ensures Timed(tail, lower, hi)
  {
  }

  lemma {:induction false} NormTimed(rest: seq<Action>, last: nat, pointer: Pointer, lo: nat, hi: nat)
    requires Timed(rest, lo, hi)
    ensures Timed(Norm(rest, last, pointer), lo, hi)
    decreases |rest|
  {
    if rest != [] {
      TimedTail(rest, 1, lo, hi);
      if rest[0].Move? {
        NormTimed(rest[1..], last, rest[0].at, rest[0].time, hi);
        NormTimed(rest[1..], UintValue(rest[0].time), rest[0].at, rest[0].time, hi);
        TimedLower(Norm(rest[1..], last, rest[0].at), rest[0].time, lo, hi);
        TimedCons(rest[0], Norm(rest[1..], UintValue(rest[0].time), rest[0].at), lo, hi);
      } else if |rest| >= 2 && Folds(rest[0], rest[1]) {
        TimedTail(rest, 2, lo, hi);
        NormTimed(rest[2..], last, pointer, rest[1].time, hi);
        TimedCons(ClickOf(rest[1], pointer), Norm(rest[2..], last, pointer), lo, hi);
      } else {
        NormTimed(rest[1..], last, pointer, rest[0].time, hi);
        TimedCons(rest[0], Norm(rest[1..], last, pointer), lo, hi);
      }
    }
  }

  /** A monotone timeline within the capture stays one. */
  lemma TimelineKept(actions: seq<Action>, duration: nat)
    requires Timed(actions, 0, duration)
    ensures Timed(Normalized(actions), 0, duration)
  {
    NormTimed(actions, 0, NOWHERE, 0, duration);
  }

  // Ten moves a second.

  function Moves(actions: seq<Action>): seq<Action> {
    if actions == [] then [] else (if actions[0].Move? then [actions[0]] else []) + Moves(actions[1..])
  }

  /** Two times far enough apart, or the first is zero, which the program reads as no move yet. */
  predicate Apart(before: nat, now: nat) {
    UintValue(before) == 0 || UintValue(before) + INTERVAL <= UintValue(now)
  }

  predicate Spaced(moves: seq<Action>) {
    forall i | 0 < i < |moves| :: Apart(moves[i - 1].time, moves[i].time)
  }

  lemma {:induction false} NormSpaced(rest: seq<Action>, last: nat, pointer: Pointer, lo: nat, hi: nat)
    requires Timed(rest, lo, hi) && last <= UintValue(lo)
    ensures Spaced(Moves(Norm(rest, last, pointer)))
    ensures var moves := Moves(Norm(rest, last, pointer)); moves != [] ==> last == 0 || last + INTERVAL <= UintValue(moves[0].time)
    decreases |rest|
  {
    if rest != [] {
      TimedTail(rest, 1, lo, hi);
      if rest[0].Move? {
        var time := UintValue(rest[0].time);
        if last != 0 && Elapsed(time, last) < INTERVAL {
          NormSpaced(rest[1..], last, rest[0].at, rest[0].time, hi);
        } else {
          var tail := Norm(rest[1..], time, rest[0].at);
          NormSpaced(rest[1..], time, rest[0].at, rest[0].time, hi);
          assert ([rest[0]] + tail)[1..] == tail;
          assert Moves([rest[0]] + tail) == [rest[0]] + Moves(tail);
        }
      } else if |rest| >= 2 && Folds(rest[0], rest[1]) {
        TimedTail(rest, 2, lo, hi);
        var tail := Norm(rest[2..], last, pointer);
        NormSpaced(rest[2..], last, pointer, rest[1].time, hi);
        assert ([ClickOf(rest[1], pointer)] + tail)[1..] == tail;
      } else {
        var tail := Norm(rest[1..], last, pointer);
        NormSpaced(rest[1..], last, pointer, rest[0].time, hi);
        assert ([rest[0]] + tail)[1..] == tail;
      }
    }
  }

  /** Consecutive kept moves at non-zero times are at least 100 ms apart. */
  lemma MovesSpaced(actions: seq<Action>, duration: nat)
    requires Timed(actions, 0, duration)
    ensures Spaced(Moves(Normalized(actions)))
  {
    NormSpaced(actions, 0, NOWHERE, 0, duration);
  }

  // Clicks.

  function Clicks(actions: seq<Action>): seq<Action> {
    if actions == [] then [] else (if actions[0].Click? then [actions[0]] else []) + Clicks(actions[1..])
  }

  /** Where the last move before this point of the input put the pointer, kept or not. */
  function LastPosition(seen: seq<Action>): Pointer {
    if seen == [] then NOWHERE
    else if seen[|seen| - 1].Move? then seen[|seen| - 1].at
    else LastPosition(seen[..|seen| - 1])
  }

  /** The clicks of the input's first n actions: its own, and each adjacent press and release of one button, at the
      position of the last move before the press. */
  function ExpectedClicks(actions: seq<Action>, n: nat): seq<Action>
    requires n <= |actions|
  {
    if n == 0 then []
    else
      ExpectedClicks(actions, n - 1) +
      if n >= 2 && Folds(actions[n - 2], actions[n - 1]) then [ClickOf(actions[n - 1], LastPosition(actions[..n - 2]))]
      else if actions[n - 1].Click? then [actions[n - 1]] else []
  }

  /** The time of the last kept move after one more action. */
  function NextLast(a: Action, last: nat): nat {
    if a.Move? && !Dropped(a, last) then UintValue(a.time) else last
  }

  lemma {:induction false} NormClicks(actions: seq<Action>, n: nat, last: nat)
    requires n <= |actions|
    requires 0 < n < |actions| ==> !Folds(actions[n - 1], actions[n])
    ensures ExpectedClicks(actions, n) + Clicks(Norm(actions[n..], last, LastPosition(actions[..n]))) == ExpectedClicks(actions, |actions|)
    decreases |actions| - n
  {
    if n < |actions| {
      if n + 1 < |actions| && Folds(actions[n], actions[n + 1]) {
        NormClicks(actions, n + 2, last);
        FoldClicks(actions, n, last);
        Emitted(ExpectedClicks(actions, n), ClickOf(actions[n + 1], LastPosition(actions[..n])),
                Clicks(Norm(actions[n + 2..], last, LastPosition(actions[..n + 2]))));
      } else {
        var tail := Clicks(Norm(actions[n + 1..], NextLast(actions[n], last), LastPosition(actions[..n + 1])));
        NormClicks(actions, n + 1, NextLast(actions[n], last));
        StepClicks(actions, n, last);
        Emitted(ExpectedClicks(actions, n), actions[n], tail);
        assert [] + tail == tail && ExpectedClicks(actions, n) + [] == ExpectedClicks(actions, n);
      }
    }
  }

  /** A fold makes the one click expected of it. */
  lemma FoldClicks(actions: seq<Action>, n: nat, last: nat)
    requires n + 1 < |actions| && Folds(actions[n], actions[n + 1])
    requires 0 < n ==> !Folds(actions[n - 1], actions[n])
    ensures ExpectedClicks(actions, n + 2) == ExpectedClicks(actions, n) + [ClickOf(actions[n + 1], LastPosition(actions[..n]))]
    ensures Clicks(Norm(actions[n..], last, LastPosition(actions[..n])))
            == [ClickOf(actions[n + 1], LastPosition(actions[..n]))] + Clicks(Norm(actions[n + 2..], last, LastPosition(actions[..n + 2])))
  {
    var (rest, pointer) := (actions[n..], LastPosition(actions[..n]));
    assert rest[1] == actions[n + 1] && rest[2..] == actions[n + 2..];
    assert actions[..n + 2][..n + 1] == actions[..n + 1] && actions[..n + 1][..n] == actions[..n];
    var tail := Norm(rest[2..], last, pointer);
    assert ([ClickOf(rest[1], pointer)] + tail)[1..] == tail;
  }

  /** One action that does not begin a fold. */
  lemma StepClicks(actions: seq<Action>, n: nat, last: nat)
    requires n < |actions| && !(n + 1 < |actions| && Folds(actions[n], actions[n + 1]))
    requires 0 < n ==> !Folds(actions[n - 1], actions[n])
    ensures ExpectedClicks(actions, n + 1) == ExpectedClicks(actions, n) + if actions[n].Click? then [actions[n]] else []
    ensures Clicks(Norm(actions[n..], last, LastPosition(actions[..n])))
            == (if actions[n].Click? then [actions[n]] else [])
               + Clicks(Norm(actions[n + 1..], NextLast(actions[n], last), LastPosition(actions[..n + 1])))
  {
    var (rest, a) := (actions[n..], actions[n]);
    assert actions[..n + 1][..n] == actions[..n] && rest[1..] == actions[n + 1..];
    assert |rest| >= 2 ==> rest[1] == actions[n + 1];
    var tail := Norm(rest[1..], NextLast(a, last), LastPosition(actions[..n + 1]));
    assert ([a] + tail)[1..] == tail;
  }

  /** Every adjacent press and release becomes one click at the last move's position, even if that move was dropped, and
      no other click appears. */
  lemma ClicksPlaced(actions: seq<Action>)
    ensures Clicks(Normalized(actions)) == ExpectedClicks(actions, |actions|)
  {
    assert actions[..0] == [] && actions[0..] == actions;
    NormClicks(actions, 0, 0);
  }

  // Counting.

  function FoldCount(actions: seq<Action>): nat {
    if |actions| < 2 then 0 else (if Folds(actions[0], actions[1]) then 1 else 0) + FoldCount(actions[1..])
  }

  lemma {:induction false} NormCounts(rest: seq<Action>, last: nat, pointer: Pointer)
    ensures |Moves(Norm(rest, last, pointer))| <= |Moves(rest)|
    ensures |Norm(rest, last, pointer)| + (|Moves(rest)| - |Moves(Norm(rest, last, pointer))|) + FoldCount(rest) == |rest|
    decreases |rest|
  {
    if rest != [] {
      if rest[0].Move? {
        NormCounts(rest[1..], last, rest[0].at);
        var tail := Norm(rest[1..], UintValue(rest[0].time), rest[0].at);
        NormCounts(rest[1..], UintValue(rest[0].time), rest[0].at);
        assert ([rest[0]] + tail)[1..] == tail;
      } else if |rest| >= 2 && Folds(rest[0], rest[1]) {
        var tail := Norm(rest[2..], last, pointer);
        NormCounts(rest[2..], last, pointer);
        assert ([ClickOf(rest[1], pointer)] + tail)[1..] == tail && rest[1..][1..] == rest[2..];
      } else {
        var tail := Norm(rest[1..], last, pointer);
        NormCounts(rest[1..], last, pointer);
        assert ([rest[0]] + tail)[1..] == tail;
      }
    }
  }

  /** Only dropped moves and folded pairs shorten the list. */
  lemma NothingElseLost(actions: seq<Action>)
    ensures |Normalized(actions)| + (|Moves(actions)| - |Moves(Normalized(actions))|) + FoldCount(actions) == |actions|
  {
    NormCounts(actions, 0, NOWHERE);
  }

  // Normalizing twice.

  predicate NoFold(actions: seq<Action>) {
    forall i | 0 < i < |actions| :: !Folds(actions[i - 1], actions[i])
  }

  /** Without a fold to make, a second pass from the same time drops and folds nothing. */
  lemma {:induction false} Settled(rest: seq<Action>, last: nat, pointer: Pointer, again: Pointer)
    requires NoFold(Norm(rest, last, pointer))
    ensures Norm(Norm(rest, last, pointer), last, again) == Norm(rest, last, pointer)
    decreases |rest|
  {
    if rest != [] {
      if rest[0].Move? {
        if Dropped(rest[0], last) {
          Settled(rest[1..], last, rest[0].at, again);
        } else {
          var tail := Norm(rest[1..], UintValue(rest[0].time), rest[0].at);
          SettledTail(rest[0], tail);
          Settled(rest[1..], UintValue(rest[0].time), rest[0].at, rest[0].at);
        }
      } else if |rest| >= 2 && Folds(rest[0], rest[1]) {
        SettledTail(ClickOf(rest[1], pointer), Norm(rest[2..], last, pointer));
        Settled(rest[2..], last, pointer, again);
      } else {
        SettledTail(rest[0], Norm(rest[1..], last, pointer));
        Settled(rest[1..], last, pointer, again);
      }
    }
  }

  lemma SettledTail(a: Action, tail: seq<Action>)
    requires NoFold([a] + tail)
    ensures NoFold(tail) && ([a] + tail)[1..] == tail && (tail != [] ==> !Folds(a, tail[0]))
  {
    var all := [a] + tail;
    assert all[1..] == tail;
    forall i | 0 < i < |tail| ensures !Folds(tail[i - 1], tail[i]) {
      assert all[i] == tail[i - 1] && all[i + 1] == tail[i];
    }
    if tail != [] {
      assert !Folds(all[0], all[1]);
    }
  }

  lemma {:induction false} FoldCounted(actions: seq<Action>)
    ensures FoldCount(actions) == 0 <==> NoFold(actions)
  {
    if |actions| >= 2 {
      var tail := actions[1..];
      FoldCounted(tail);
      if NoFold(actions) {
        assert !Folds(actions[0], actions[1]);
        SettledTail(actions[0], tail);
        assert [actions[0]] + tail == actions;
      } else {
        var i :| 0 < i < |actions| && Folds(actions[i - 1], actions[i]);
        assert i > 1 ==> Folds(tail[i - 2], tail[i - 1]);
      }
    }
  }

  /** The time of the last kept move before place n. */
  function LastKept(actions: seq<Action>, n: nat): nat
    requires n <= |actions|
  {
    if n == 0 then 0 else NextLast(actions[n - 1], LastKept(actions, n - 1))
  }

  /** Only dropped moves from place n up to place j. */
  predicate OnlyDropped(actions: seq<Action>, n: nat, j: nat)
    requires j <= |actions|
  {
    forall k | n <= k < j :: Dropped(actions[k], LastKept(actions, k))
  }

  /** The press at i meets the release at j once the moves between them, at least one, are dropped. */
  predicate Bridged(actions: seq<Action>, i: nat, j: nat) {
    i + 1 < j < |actions| && Folds(actions[i], actions[j]) && OnlyDropped(actions, i + 1, j)
  }

  predicate MeetsAt(actions: seq<Action>, n: nat, press: Action, j: nat) {
    n <= j < |actions| && Folds(press, actions[j]) && OnlyDropped(actions, n, j)
  }

  ghost predicate Meets(actions: seq<Action>, n: nat, press: Action) {
    exists j: nat :: MeetsAt(actions, n, press, j)
  }

  lemma MeetsLater(actions: seq<Action>, n: nat, press: Action)
    requires n < |actions|
    ensures Meets(actions, n, press) <==>
            Folds(press, actions[n]) || (Dropped(actions[n], LastKept(actions, n)) && Meets(actions, n + 1, press))
  {
    if j: nat :| MeetsAt(actions, n, press, j) {
      assert j > n ==> Dropped(actions[n], LastKept(actions, n)) && MeetsAt(actions, n + 1, press, j);
    }
    if Folds(press, actions[n]) {
      assert MeetsAt(actions, n, press, n);
    }
    if Dropped(actions[n], LastKept(actions, n)) && Meets(actions, n + 1, press) {
      var j: nat :| MeetsAt(actions, n + 1, press, j);
      assert MeetsAt(actions, n, press, j);
    }
  }

  /** A press kept before place n meets the first action kept from there on. */
  lemma {:induction false} FirstKept(actions: seq<Action>, n: nat, pointer: Pointer, press: Action)
    requires n <= |actions|
    ensures var kept := Norm(actions[n..], LastKept(actions, n), pointer);
            Meets(actions, n, press) <==> kept != [] && Folds(press, kept[0])
    decreases |actions| - n
  {
    if n < |actions| {
      var (rest, a) := (actions[n..], actions[n]);
      assert rest[1..] == actions[n + 1..];
      MeetsLater(actions, n, press);
      if Dropped(a, LastKept(actions, n)) {
        FirstKept(actions, n + 1, a.at, press);
      }
    }
  }

  ghost predicate AnyBridge(actions: seq<Action>, n: nat) {
    exists i: nat, j: nat :: n <= i && Bridged(actions, i, j)
  }

  lemma NextBridge(actions: seq<Action>, n: nat)
    requires n < |actions|
    ensures AnyBridge(actions, n) <==>
            || (n + 1 < |actions| && actions[n].Down? && !Folds(actions[n], actions[n + 1]) && Meets(actions, n + 1, actions[n]))
            || AnyBridge(actions, n + 1)
  {
    if AnyBridge(actions, n) && !AnyBridge(actions, n + 1) {
      var i: nat, j: nat :| n <= i && Bridged(actions, i, j);
      assert i == n && MeetsAt(actions, n + 1, actions[n], j);
      assert Dropped(actions[n + 1], LastKept(actions, n + 1));
    }
    if n + 1 < |actions| && actions[n].Down? && !Folds(actions[n], actions[n + 1]) && Meets(actions, n + 1, actions[n]) {
      var j: nat :| MeetsAt(actions, n + 1, actions[n], j);
      assert Bridged(actions, n, j);
    }
  }

  lemma NoFoldCons(a: Action, tail: seq<Action>)
    ensures NoFold([a] + tail) <==> NoFold(tail) && !(tail != [] && Folds(a, tail[0]))
  {
    if NoFold([a] + tail) {
      SettledTail(a, tail);
    }
  }

  lemma {:induction false} FoldsLeft(actions: seq<Action>, n: nat, pointer: Pointer)
    requires n <= |actions|
    ensures NoFold(Norm(actions[n..], LastKept(actions, n), pointer)) <==> !AnyBridge(actions, n)
    decreases |actions| - n
  {
    if n < |actions| {
      var (rest, a, last) := (actions[n..], actions[n], LastKept(actions, n));
      assert rest[1..] == actions[n + 1..];
      NextBridge(actions, n);
      if a.Move? {
        FoldsLeft(actions, n + 1, a.at);
        NoFoldCons(a, Norm(rest[1..], LastKept(actions, n + 1), a.at));
      } else if |rest| >= 2 && Folds(a, rest[1]) {
        assert rest[2..] == actions[n + 2..] && LastKept(actions, n + 2) == last;
        NextBridge(actions, n + 1);
        FoldsLeft(actions, n + 2, pointer);
        NoFoldCons(ClickOf(rest[1], pointer), Norm(rest[2..], last, pointer));
      } else {
        FoldsLeft(actions, n + 1, pointer);
        FirstKept(actions, n + 1, pointer, a);
        NoFoldCons(a, Norm(rest[1..], last, pointer));
        NoMeetingAtEnd(actions, n, pointer);
      }
    }
  }

  /** After the last action nothing is met, and only a press meets anything. */
  lemma NoMeetingAtEnd(actions: seq<Action>, n: nat, pointer: Pointer)
    requires n < |actions|
    ensures n + 1 == |actions| ==> !Meets(actions, n + 1, actions[n])
    ensures !actions[n].Down? ==> !Meets(actions, n + 1, actions[n])
  {
  }

  /** Normalizing a second time changes nothing exactly when no press of the input meets a matching release across
      dropped moves alone: dropping them makes the two adjacent, and the second pass folds them. */
  lemma IdempotentExactly(actions: seq<Action>)
    ensures Normalized(Normalized(actions)) == Normalized(actions) <==> !exists i: nat, j: nat :: Bridged(actions, i, j)
  {
    assert actions[0..] == actions;
    FoldsLeft(actions, 0, NOWHERE);
    var once := Normalized(actions);
    if NoFold(once) {
      Settled(actions, 0, NOWHERE, NOWHERE);
    } else {
      FoldCounted(once);
      NothingElseLost(once);
    }
    assert AnyBridge(actions, 0) <==> exists i: nat, j: nat :: Bridged(actions, i, j);
  }

  /** There is such an input: a move, a press, a move too soon after the first, and the release. */
  lemma NotIdempotent()
    ensures exists actions :: Normalized(Normalized(actions)) != Normalized(actions)
  {
    var (down, up) := (Down(2, "left", None), Up(2, "left", None));
    var actions := [Move(1, NOWHERE), down, Move(2, NOWHERE), up];
    assert LastKept(actions, 1) == 1 && LastKept(actions, 2) == 1;
    assert Bridged(actions, 1, 3);
    IdempotentExactly(actions);
  }
}
