/** The canonical form of a redaction plan's document (services/api/internal/database/redaction.go). Encoding is by
    value: equal byte strings mean equal documents. */
module RedactionDocument {
  import opened Common
  import opened Sorting

  datatype Region = Region(start: int, end: int, x: real, y: real, width: real, height: real, kind: string)
  datatype Segment = Segment(id: string, sourceKey: string, decision: string, regions: seq<Region>)
  datatype Document = Document(schemaVersion: string, segments: seq<Segment>)

  datatype Encoding = Encoded(document: Document) | Invalid

  // What a valid document is.

  predicate ValidRegion(r: Region) {
    && 0 <= r.start < r.end
    && 0.0 <= r.x && 0.0 <= r.y && 0.0 < r.width && 0.0 < r.height && r.x + r.width <= 1.0 && r.y + r.height <= 1.0
    && r.kind in {"personal_data", "credential", "unrelated_content", "other"}
  }

  predicate ValidSegment(s: Segment, prefix: string) {
    && IdText(s.id) && |s.id| <= 128
    && prefix <= s.sourceKey
    && (s.decision == "publish_as_is" || s.decision == "redact")
    && (s.decision == "publish_as_is" <==> s.regions == []) && |s.regions| <= 100
    && forall r | r in s.regions :: ValidRegion(r)
  }

  function SourceKey(s: Segment): string {
    s.sourceKey
  }

  predicate Valid(d: Document, prefix: string) {
    && d.schemaVersion == "redaction/v1" && 1 <= |d.segments| <= 1000
    && (forall s | s in d.segments :: ValidSegment(s, prefix))
    && Distinct(d.segments, SourceKey)   // segment identifiers may repeat
  }

  function Canonical(d: Document, prefix: string): Encoding {
    if Valid(d, prefix) then Encoded(d.(segments := Sorted(d.segments, SourceKey))) else Invalid
  }

  /** Validity does not depend on the order of the segments. */
  lemma ValidPermutes(a: Document, b: Document, prefix: string)
    requires a.schemaVersion == b.schemaVersion && multiset(a.segments) == multiset(b.segments)
    ensures Valid(a, prefix) <==> Valid(b, prefix)
  {
    SameMembers(a.segments, b.segments);
    if Distinct(a.segments, SourceKey) {
      DistinctPermutes(a.segments, b.segments, SourceKey);
    }
    if Distinct(b.segments, SourceKey) {
      DistinctPermutes(b.segments, a.segments, SourceKey);
    }
  }

  /** The encoding is the same, success or failure, for every order of the segments, and only reorderings share an
      encoding. */
  lemma CanonicalExactly(a: Document, b: Document, prefix: string)
    requires a.schemaVersion == b.schemaVersion
    ensures multiset(a.segments) == multiset(b.segments) ==> Canonical(a, prefix) == Canonical(b, prefix)
    ensures Canonical(a, prefix) == Canonical(b, prefix) && Valid(a, prefix) ==> multiset(a.segments) == multiset(b.segments)
  {
    SortedDoes(a.segments, SourceKey);
    SortedDoes(b.segments, SourceKey);
    if multiset(a.segments) == multiset(b.segments) {
      ValidPermutes(a, b, prefix);
      if Valid(a, prefix) {
        OrderedUnique(Sorted(a.segments, SourceKey), Sorted(b.segments, SourceKey), SourceKey);
      }
    }
  }

  function Decode(e: Encoding): (d: Document)
    requires e.Encoded?
  {
    e.document
  }

  /** Decoding gives the segments sorted by source key, and encoding that again changes nothing. */
  lemma DecodedIsFixed(d: Document, prefix: string)
    requires Valid(d, prefix)
    ensures var back := Decode(Canonical(d, prefix));
            && Ordered(back.segments, SourceKey) && multiset(back.segments) == multiset(d.segments)
            && Canonical(back, prefix) == Canonical(d, prefix)
  {
    SortedDoes(d.segments, SourceKey);
    CanonicalExactly(d, Decode(Canonical(d, prefix)), prefix);
  }

  // The program.

  method CanonicalDocument(d: Document, prefix: string) returns (e: Encoding)
    ensures e == Canonical(d, prefix)
  {
    if d.schemaVersion != "redaction/v1" || |d.segments| < 1 || |d.segments| > 1000 {
      return Invalid;
    }
    var encoded := new Segment[|d.segments|](i requires 0 <= i < |d.segments| => d.segments[i]);
    var seen := {};
    for index := 0 to |d.segments|
      invariant forall s | s in d.segments[..index] :: ValidSegment(s, prefix)
      invariant seen == set s | s in d.segments[..index] :: s.sourceKey
      invariant Distinct(d.segments[..index], SourceKey)
      invariant encoded[..] == d.segments
    {
      var segment := d.segments[index];
      assert segment in d.segments && d.segments[..index + 1] == d.segments[..index] + [segment];
      if |segment.id| > 128 || !IdText(segment.id) {
        return Invalid;
      }
      if !(prefix <= segment.sourceKey) || segment.sourceKey in seen {
        return Invalid;
      }
      seen := seen + {segment.sourceKey};
      if segment.decision != "publish_as_is" && segment.decision != "redact" {
        return Invalid;
      }
      if (segment.decision == "publish_as_is" && segment.regions != []) || (segment.decision == "redact" && segment.regions == []) {
        return Invalid;
      }
      if |segment.regions| > 100 {
        return Invalid;
      }
      for r := 0 to |segment.regions|
        invariant forall x | x in segment.regions[..r] :: ValidRegion(x)
      {
        assert segment.regions[r] in segment.regions && segment.regions[..r + 1] == segment.regions[..r] + [segment.regions[r]];
        if !ValidRegion(segment.regions[r]) {
          return Invalid;
        }
      }
      assert segment.regions[..|segment.regions|] == segment.regions;
      encoded[index] := segment;
    }
    assert d.segments[..|d.segments|] == d.segments;
    SortInPlace(encoded, SourceKey);
    return Encoded(d.(segments := encoded[..]));
  }
}
