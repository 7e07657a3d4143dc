/** What a worker makes of a redaction plan (services/api/internal/worker/processor.go, processRedaction) and what the
    exporter asks of it (services/api/internal/releases/exporter.go, loadRedaction). */
module RedactionOutputs {
  import opened Common
  import opened Sorting

  datatype Segment = Segment(id: string, sourceKey: string, decision: string)
  datatype Blob = Blob(size: nat, bytes: Id)
  datatype Output = Output(id: string, sourceKey: string, decision: string, key: string, blob: Blob)

  function SegmentId(g: Segment): string {
    g.id
  }

  function OutputId(o: Output): string {
    o.id
  }

  function KeyOf(prefix: string, id: string): string {
    prefix + id + ".mp4"
  }

  // The worker. `redact` is what the redactor makes of a segment.

  function OutputOf(prefix: string, g: Segment, redact: Segment -> Blob): Output {
    Output(g.id, g.sourceKey, g.decision, KeyOf(prefix, g.id), redact(g))
  }

  function Outputs(prefix: string, plan: seq<Segment>, redact: Segment -> Blob): (outputs: seq<Output>)
    ensures |outputs| == |plan| && forall i | 0 <= i < |plan| :: outputs[i] == OutputOf(prefix, plan[i], redact)
  {
    seq(|plan|, i requires 0 <= i < |plan| => OutputOf(prefix, plan[i], redact))
  }

  /** Derived objects are replaced when they are written again. */
  function Written(prefix: string, plan: seq<Segment>, redact: Segment -> Blob, before: map<string, Blob>): map<string, Blob> {
    if plan == [] then before
    else
      var last := plan[|plan| - 1];
      Written(prefix, plan[..|plan| - 1], redact, before)[KeyOf(prefix, last.id) := redact(last)]
  }

  method ProcessRedaction(prefix: string, plan: seq<Segment>, redact: Segment -> Blob, before: map<string, Blob>)
    returns (outputs: seq<Output>, blobs: map<string, Blob>)
    ensures outputs == Outputs(prefix, plan, redact) && blobs == Written(prefix, plan, redact, before)
  {
    outputs, blobs := [], before;
    for i := 0 to |plan|
      invariant outputs == Outputs(prefix, plan[..i], redact) && blobs == Written(prefix, plan[..i], redact, before)
    {
      var (segment, key) := (plan[i], KeyOf(prefix, plan[i].id));
      assert plan[..i + 1][..i] == plan[..i];
      var info := redact(segment);
      blobs := blobs[key := info];
      outputs := outputs + [Output(segment.id, segment.sourceKey, segment.decision, key, info)];
    }
    assert plan[..|plan|] == plan;
  }

  // The exporter.

  /** The approved segment of an identifier: the last one, when it repeats. */
  function Approved(plan: seq<Segment>): map<string, Segment> {
    if plan == [] then map[] else Approved(plan[..|plan| - 1])[plan[|plan| - 1].id := plan[|plan| - 1]]
  }

  predicate OutputFine(o: Output, prefix: string, approved: map<string, Segment>, blobs: map<string, Blob>) {
    && o.id != "" && o.id in approved && o.sourceKey == approved[o.id].sourceKey && o.decision == approved[o.id].decision
    && o.blob.size >= 1 && o.key == KeyOf(prefix, o.id) && o.key in blobs && blobs[o.key] == o.blob
  }

  predicate Loadable(prefix: string, plan: seq<Segment>, outputs: seq<Output>, blobs: map<string, Blob>) {
    && |outputs| == |plan| && Distinct(outputs, OutputId)
    && forall o | o in outputs :: OutputFine(o, prefix, Approved(plan), blobs)
  }

  method LoadRedaction(prefix: string, plan: seq<Segment>, outputs: seq<Output>, blobs: map<string, Blob>) returns (ok: bool)
    ensures ok <==> Loadable(prefix, plan, outputs, blobs)
  {
    if |outputs| != |plan| {
      return false;
    }
    var approved := map[];
    for i := 0 to |plan|
      invariant approved == Approved(plan[..i])
    {
      assert plan[..i + 1][..i] == plan[..i];
      approved := approved[plan[i].id := plan[i]];
    }
    assert plan[..|plan|] == plan;
    var seen := {};
    for i := 0 to |outputs|
      invariant seen == set o | o in outputs[..i] :: o.id
      invariant Distinct(outputs[..i], OutputId)
      invariant forall o | o in outputs[..i] :: OutputFine(o, prefix, approved, blobs)
    {
      var output := outputs[i];
      assert output in outputs && outputs[..i + 1] == outputs[..i] + [output];
      if output.id in seen {
        Repeated(outputs, i);
        return false;
      }
      if !OutputFine(output, prefix, approved, blobs) {
        return false;
      }
      seen := seen + {output.id};
    }
    assert outputs[..|outputs|] == outputs;
    return true;
  }

  lemma Repeated(outputs: seq<Output>, i: nat)
    requires i < |outputs| && exists o | o in outputs[..i] :: o.id == outputs[i].id
    ensures !Distinct(outputs, OutputId)
  {
    var o :| o in outputs[..i] && o.id == outputs[i].id;
    var k :| 0 <= k < i && outputs[k] == o;
    assert OutputId(outputs[k]) == OutputId(outputs[i]);
  }

  // Both together.

  lemma KeysDiffer(prefix: string, a: string, b: string)
    requires a != b
    ensures KeyOf(prefix, a) != KeyOf(prefix, b)
  {
    assert KeyOf(prefix, a)[|prefix|..|KeyOf(prefix, a)| - 4] == a && KeyOf(prefix, b)[|prefix|..|KeyOf(prefix, b)| - 4] == b;
  }

  /** With distinct identifiers every segment keeps its own approval and its own object. */
  lemma {:induction false} OwnSegment(prefix: string, plan: seq<Segment>, redact: Segment -> Blob, before: map<string, Blob>, i: nat)
    requires Distinct(plan, SegmentId) && i < |plan|
    ensures plan[i].id in Approved(plan) && Approved(plan)[plan[i].id] == plan[i]
    ensures var blobs := Written(prefix, plan, redact, before);
            KeyOf(prefix, plan[i].id) in blobs && blobs[KeyOf(prefix, plan[i].id)] == redact(plan[i])
  {
    var last := |plan| - 1;
    if i < last {
      OwnSegment(prefix, plan[..last], redact, before, i);
      assert SegmentId(plan[i]) != SegmentId(plan[last]);
      KeysDiffer(prefix, plan[i].id, plan[last].id);
    }
  }

  lemma MadeFine(prefix: string, plan: seq<Segment>, redact: Segment -> Blob, before: map<string, Blob>, o: Output)
    requires Distinct(plan, SegmentId) && (forall g | g in plan :: g.id != "" && redact(g).size >= 1)
    requires o in Outputs(prefix, plan, redact)
    ensures OutputFine(o, prefix, Approved(plan), Written(prefix, plan, redact, before))
  {
    var i :| 0 <= i < |plan| && Outputs(prefix, plan, redact)[i] == o;
    assert plan[i] in plan;
    OwnSegment(prefix, plan, redact, before, i);
  }

  /** Of a completed redaction, whose manifest lists its outputs in any order, the exporter can use the outputs exactly when
      the plan's segment identifiers are distinct. A plan is approved with distinct source keys only, so one that repeats
      an identifier is completed and then never published. */
  lemma PublishableExactly(prefix: string, plan: seq<Segment>, redact: Segment -> Blob, before: map<string, Blob>,
                           listed: seq<Output>)
    requires forall g | g in plan :: g.id != "" && redact(g).size >= 1
    requires multiset(listed) == multiset(Outputs(prefix, plan, redact))
    ensures Loadable(prefix, plan, listed, Written(prefix, plan, redact, before)) <==> Distinct(plan, SegmentId)
  {
    var made := Outputs(prefix, plan, redact);
    SameMembers(listed, made);
    if Distinct(plan, SegmentId) {
      forall i, j | 0 <= i < j < |made| ensures OutputId(made[i]) != OutputId(made[j]) {
        assert SegmentId(plan[i]) != SegmentId(plan[j]);
      }
      DistinctPermutes(made, listed, OutputId);
      forall o | o in listed ensures OutputFine(o, prefix, Approved(plan), Written(prefix, plan, redact, before)) {
        MadeFine(prefix, plan, redact, before, o);
      }
    }
    if Distinct(listed, OutputId) {
      DistinctPermutes(listed, made, OutputId);
      forall i, j | 0 <= i < j < |plan| ensures SegmentId(plan[i]) != SegmentId(plan[j]) {
        assert OutputId(made[i]) != OutputId(made[j]);
      }
    }
  }
}
