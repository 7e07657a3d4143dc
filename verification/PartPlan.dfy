/** The part plan of a resumable upload, computed once by the server (services/api/internal/httpapi/multipart_uploads.go)
    and once by the collector (apps/collector/src-tauri/src/submission.rs). Sizes are in bytes. */
module PartPlan {

  const I64_MAX: int := 0x7FFF_FFFF_FFFF_FFFF
  const PART_SIZE: int := 16 * 1024 * 1024
  const MAX_ARTIFACT: int := 20 * 1024 * 1024 * 1024

  // The server.

  function PartCount(size: int, partSize: int): int {
    if size < 1 || partSize < 1 then 0 else (size + partSize - 1) / partSize
  }

  function ExpectedPartSize(size: int, partSize: int, number: int): int {
    var total := PartCount(size, partSize);
    if number < 1 || number > total then 0
    else if number < total then partSize
    else size - (total - 1) * partSize
  }

  // The collector.

  function Offset(partSize: int, number: int): int {
    (number - 1) * partSize
  }

  /** min(part_size, size.saturating_sub(offset)) */
  function ClientPartSize(size: int, partSize: int, number: int): int {
    var rest := if Offset(partSize, number) <= size then size - Offset(partSize, number) else 0;
    if partSize <= rest then partSize else rest
  }

  /** The last part begins inside the artifact and ends with it. */
  lemma LastPart(size: int, partSize: int)
    requires 1 <= size && 1 <= partSize
    ensures var total := PartCount(size, partSize); 1 <= total && (total - 1) * partSize < size <= total * partSize
  {
    var total := (size + partSize - 1) / partSize;
    var rest := (size + partSize - 1) % partSize;
    assert size + partSize - 1 == total * partSize + rest;
    assert (total - 1) * partSize == total * partSize - partSize;
  }

  /** Both sides give part `number` the same size, and none is empty. */
  lemma PlansAgree(size: int, partSize: int, number: int)
    requires 1 <= size && 1 <= partSize && 1 <= number <= PartCount(size, partSize)
    ensures ExpectedPartSize(size, partSize, number) == ClientPartSize(size, partSize, number)
    ensures 1 <= ClientPartSize(size, partSize, number) <= partSize
  {
    var total := PartCount(size, partSize);
    LastPart(size, partSize);
    if number < total {
      Scaled(number, total - 1, partSize);
    }
  }

  lemma Scaled(a: int, b: int, k: int)
    requires a <= b && 0 <= k
    ensures a * k <= b * k && (a - 1) * k == a * k - k
  {
  }

  /** A number outside the plan has no size on the server and, past the end, none at the collector either. */
  lemma NoOtherParts(size: int, partSize: int, number: int)
    requires 1 <= size && 1 <= partSize && PartCount(size, partSize) < number
    ensures ExpectedPartSize(size, partSize, number) == 0 == ClientPartSize(size, partSize, number)
  {
    LastPart(size, partSize);
    Scaled(PartCount(size, partSize), number - 1, partSize);
  }

  /** Part `number` covers byte b. */
  predicate Covers(size: int, partSize: int, number: int, b: int) {
    Offset(partSize, number) <= b < Offset(partSize, number) + ClientPartSize(size, partSize, number)
  }

  /** Every byte of the artifact lies in exactly one part, and no part reaches beyond it. */
  lemma PartsTile(size: int, partSize: int, b: int)
    requires 1 <= size && 1 <= partSize && 0 <= b < size
    ensures 1 <= b / partSize + 1 <= PartCount(size, partSize) && Covers(size, partSize, b / partSize + 1, b)
    ensures forall n | 1 <= n <= PartCount(size, partSize) && Covers(size, partSize, n, b) :: n == b / partSize + 1
  {
    var q, r := b / partSize, b % partSize;
    assert b == q * partSize + r;
    var total := PartCount(size, partSize);
    LastPart(size, partSize);
    if total < q + 1 {
      Scaled(total, q, partSize);
    }
    PlansAgree(size, partSize, q + 1);
    forall n | 1 <= n <= total && Covers(size, partSize, n, b) ensures n == q + 1 {
      PlansAgree(size, partSize, n);
      if n < q + 1 {
        Scaled(n, q, partSize);
      } else if q + 1 < n {
        Scaled(q + 1, n - 1, partSize);
      }
    }
  }

  lemma PartsEndTogether(size: int, partSize: int, number: int)
    requires 1 <= size && 1 <= partSize && 1 <= number <= PartCount(size, partSize)
    ensures var end := Offset(partSize, number) + ClientPartSize(size, partSize, number);
            end == if number < PartCount(size, partSize) then Offset(partSize, number + 1) else size
  {
    PlansAgree(size, partSize, number);
    LastPart(size, partSize);
    if number < PartCount(size, partSize) {
      Scaled(number, PartCount(size, partSize) - 1, partSize);
    }
  }

  /** Every admissible artifact has at most 1280 parts of the configured size, and the server's arithmetic on it stays
      within 64 bits. */
  lemma FewParts(size: int)
    requires 1 <= size <= MAX_ARTIFACT
    ensures 1 <= PartCount(size, PART_SIZE) <= 1_280
    ensures size + PART_SIZE - 1 <= I64_MAX
  {
    LastPart(size, PART_SIZE);
  }

  // The recorded parts of an upload, by number, with their sizes.

  /** Only parts of the plan are recorded, with their planned sizes. */
  predicate Planned(parts: map<int, int>, size: int, partSize: int) {
    forall n | n in parts :: 1 <= n <= PartCount(size, partSize) && parts[n] == ExpectedPartSize(size, partSize, n)
  }

  /** The server accepts a part report only at its planned size, and a later report of the same part replaces it. */
  method RecordPart(parts: map<int, int>, size: int, partSize: int, number: int, supplied: int)
    returns (ok: bool, recorded: map<int, int>)
    requires Planned(parts, size, partSize)
    ensures ok <==> 1 <= number <= PartCount(size, partSize) && 1 <= size && supplied == ExpectedPartSize(size, partSize, number)
    ensures recorded == if ok then parts[number := supplied] else parts
    ensures Planned(recorded, size, partSize)
  {
    var expected := ExpectedPartSize(size, partSize, number);
    if 1 <= number <= PartCount(size, partSize) {
      PlansAgree(size, partSize, number);
    }
    if expected < 1 || supplied != expected {
      return false, parts;
    }
    return true, parts[number := expected];
  }

  /** The collector's loop: every part not yet recorded is sent and reported, until one fails. */
  method UploadMissing(size: int, partSize: int, recorded: map<int, int>, failing: set<int>) returns (ok: bool, parts: map<int, int>)
    requires 1 <= size && 1 <= partSize && Planned(recorded, size, partSize)
    ensures Planned(parts, size, partSize) && recorded.Keys <= parts.Keys
    ensures ok ==> forall n | 1 <= n <= PartCount(size, partSize) :: n in parts
    ensures ok <==> forall n | 1 <= n <= PartCount(size, partSize) :: n in recorded || n !in failing
  {
    parts := recorded;
    var total := PartCount(size, partSize);
    LastPart(size, partSize);
    for number := 1 to total + 1
      invariant Planned(parts, size, partSize) && recorded.Keys <= parts.Keys
      invariant forall n | 1 <= n < number :: n in parts && (n in recorded || n !in failing)
      invariant forall n | n in parts && n !in recorded :: n < number
    {
      if number in recorded {
        continue;
      }
      var expectedSize := ClientPartSize(size, partSize, number);
      PlansAgree(size, partSize, number);
      if expectedSize == 0 || number in failing {
        return false, parts;
      }
      var accepted;
      accepted, parts := RecordPart(parts, size, partSize, number, expectedSize);
    }
    return true, parts;
  }

  datatype Part = Part(number: int, size: int)

  /** What SELECT ... ORDER BY part_number answers. */
  ghost predicate Listed(parts: map<int, int>, list: seq<Part>) {
    && (forall i, j | 0 <= i < j < |list| :: list[i].number < list[j].number)
    && (forall i | 0 <= i < |list| :: list[i].number in parts && list[i].size == parts[list[i].number])
    && |list| == |parts|
  }

  /** The server's check before it asks storage to put the parts together. */
  method PartsComplete(list: seq<Part>, size: int, partSize: int) returns (ok: bool)
    ensures ok <==> Complete(list, size, partSize)
  {
    if |list| != PartCount(size, partSize) {
      return false;
    }
    for i := 0 to |list|
      invariant forall k | 0 <= k < i :: list[k] == Part(k + 1, ExpectedPartSize(size, partSize, k + 1))
    {
      var expected := ExpectedPartSize(size, partSize, i + 1);
      if list[i].number != i + 1 || list[i].size != expected {
        return false;
      }
    }
    return true;
  }

  predicate Complete(list: seq<Part>, size: int, partSize: int) {
    && |list| == PartCount(size, partSize)
    && forall k | 0 <= k < |list| :: list[k] == Part(k + 1, ExpectedPartSize(size, partSize, k + 1))
  }

  /** The check succeeds exactly when every part of the plan is recorded, so a finished client loop always passes it. */
  lemma CompleteWhenAllRecorded(parts: map<int, int>, list: seq<Part>, size: int, partSize: int)
    requires 1 <= size && 1 <= partSize && Planned(parts, size, partSize) && Listed(parts, list)
    ensures Complete(list, size, partSize) <==> forall n | 1 <= n <= PartCount(size, partSize) :: n in parts
  {
    var total := PartCount(size, partSize);
    LastPart(size, partSize);
    var plan := Numbers(total);
    assert parts.Keys <= plan;
    if forall n | 1 <= n <= total :: n in parts {
      assert parts.Keys == plan;
      AscendingIsCounting(list, total);
    }
    if Complete(list, size, partSize) {
      forall n | 1 <= n <= total ensures n in parts {
        assert list[n - 1].number == n;
      }
    }
  }

  function Numbers(total: nat): (r: set<int>)
    ensures |r| == total && forall n :: n in r <==> 1 <= n <= total
  {
    if total == 0 then {} else Numbers(total - 1) + {total}
  }

  /** `total` ascending numbers between one and total are one to total. */
  lemma AscendingIsCounting(list: seq<Part>, total: nat)
    requires |list| == total && forall i | 0 <= i < |list| :: 1 <= list[i].number <= total
    requires forall i, j | 0 <= i < j < |list| :: list[i].number < list[j].number
    ensures forall i | 0 <= i < |list| :: list[i].number == i + 1
  {
    for i := 0 to |list|
      invariant forall k | 0 <= k < i :: k + 1 <= list[k].number
    {
      if i > 0 {
        assert list[i - 1].number < list[i].number;
      }
    }
    var j := |list|;
    while j > 0
      invariant 0 <= j <= |list|
      invariant forall k | j <= k < |list| :: list[k].number <= k + 1
    {
      j := j - 1;
      if j + 1 < |list| {
        assert list[j].number < list[j + 1].number;
      }
    }
  }
}
