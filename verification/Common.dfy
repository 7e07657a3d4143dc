/** Types shared by every module. */
module Common {

  datatype Option<+T> = None | Some(value: T)

  /** Identifiers are opaque to the program, which only compares them for equality and
      sorts them; an integer keeps exactly that. */
  type Id = int

  /** Instants on one clock, in nanoseconds. */
  type Time = int

  const SECOND: Time := 1_000_000_000
  const DAY: Time := 86_400 * SECOND

  predicate IdChar(c: char) {
    ('a' <= c <= 'z') || ('A' <= c <= 'Z') || ('0' <= c <= '9') || c == '_' || c == '-'
  }

  /** Text that serves as an identifier in file names and object keys. */
  predicate IdText(s: string) {
    s != "" && forall i | 0 <= i < |s| :: IdChar(s[i])
  }

  /** The identifiers of a finite set in ascending order. */
  function Ascending(ids: set<Id>): (sorted: seq<Id>)
    ensures forall x :: x in sorted <==> x in ids
    ensures forall i, j :: 0 <= i < j < |sorted| ==> sorted[i] < sorted[j]
  {
    if ids == {} then []
    else
      LeastExists(ids);
      var least :| least in ids && forall y :: y in ids ==> least <= y;
      [least] + Ascending(ids - {least})
  }

  lemma Pick<T>(s: set<T>) returns (x: T)
    requires s != {}
    ensures x in s
  {
    x :| x in s;
  }

  lemma LeastExists(ids: set<Id>)
    requires ids != {}
    ensures exists x :: x in ids && forall y :: y in ids ==> x <= y
  {
    var x := Pick(ids);
    if y :| y in ids && y < x {
      var rest := ids - {x};
      assert y in rest;
      LeastExists(rest);
      var z :| z in rest && forall w :: w in rest ==> z <= w;
      assert z <= y && forall w :: w in ids ==> w == x || w in rest;
    }
  }
}
