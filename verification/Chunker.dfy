/** Dividing a file, or a list of records, among instances: internal/demo/chunker.go. */
module Chunker {
  import opened Splits
  import opened Wrappers

  /** EndByte is inclusive. */
  datatype ByteRange = ByteRange(start: int, end: int) {
    predicate IsEmpty() {
      end < start
    }

    function Size(): int {
      if end < start then 0 else end - start + 1
    }
  }

  datatype ChunkError = NegativeInstance | InstanceTooLarge | NegativeSize | NoInstances

  function Min(a: int, b: int): int {
    if a < b then a else b
  }

  /** The range of one instance. */
  function Calculate(fileSize: int, total: int, instance: int): Result<ByteRange, ChunkError> {
    if instance < 0 then Err(NegativeInstance)
    else if instance >= total then Err(InstanceTooLarge)
    else if fileSize < 0 then Err(NegativeSize)
    else if total < 1 then Err(NoInstances)
    else if fileSize < total then
      if instance < fileSize then Ok(ByteRange(instance, instance)) else Ok(ByteRange(0, -1))
    else
      var bytesPerInstance := fileSize / total;
      var remainder := fileSize % total;
      var start := if instance == 0 then 0 else instance * bytesPerInstance + Min(instance, remainder);
      var end :=
        if instance == total - 1 then fileSize - 1
        else (instance + 1) * bytesPerInstance + Min(instance + 1, remainder) - 1;
      Ok(ByteRange(start, end))
  }

  /** The i-th cut when total instances share total * q + r elements: where the first i instances' part ends. */
  function Cut(q: nat, r: nat, i: nat): nat {
    i * q + if i < r then i else r
  }

  lemma MulMonotone(a: nat, b: nat, q: nat)
    requires a <= b
    ensures a * q <= b * q
  {
    assert b * q == a * q + (b - a) * q;
  }

  lemma CutStep(q: nat, r: nat, total: nat, i: nat)
    requires i < total && r < total
    ensures Cut(q, r, 0) == 0 && Cut(q, r, total) == total * q + r
    ensures Cut(q, r, i + 1) == Cut(q, r, i) + q + if i < r then 1 else 0
    ensures Cut(q, r, i) <= Cut(q, r, i + 1) <= total * q + r
  {
    assert (i + 1) * q == i * q + q;
    MulMonotone(i + 1, total, q);
  }

  lemma Division(fileSize: nat, total: nat)
    requires 0 < total
    ensures fileSize / total >= 0 && 0 <= fileSize % total < total
    ensures fileSize == total * (fileSize / total) + fileSize % total
    ensures fileSize < total ==> fileSize / total == 0 && fileSize % total == fileSize
  {
  }

  /** All the cuts, from 0 to the file size. */
  function CutsOf(fileSize: nat, total: nat): seq<nat>
    requires 0 < total
  {
    Division(fileSize, total);
    seq(total + 1, i requires 0 <= i <= total => Cut(fileSize / total, fileSize % total, i))
  }

  /** Every valid instance gets a range, and it is the one between two consecutive cuts; the
      special case for small files differs from the general formula only in where it puts an empty range. */
  lemma RangeBetweenCuts(fileSize: int, total: int, instance: int)
    ensures Calculate(fileSize, total, instance).Ok? <==> 0 <= instance < total && 0 <= fileSize
    ensures Calculate(fileSize, total, instance).Ok? ==>
      var range, cuts := Calculate(fileSize, total, instance).value, CutsOf(fileSize, total);
      var lo, hi := cuts[instance], cuts[instance + 1];
      && lo <= hi <= fileSize
      && range.Size() == hi - lo
      && (range.IsEmpty() <==> lo == hi)
      && (!range.IsEmpty() || total <= fileSize ==> range == ByteRange(lo, hi - 1))
  {
    if 0 <= instance < total && 0 <= fileSize {
      Division(fileSize, total);
      CutStep(fileSize / total, fileSize % total, total, instance);
    }
  }

  lemma RangeInBounds(fileSize: int, total: int, instance: int)
    requires Calculate(fileSize, total, instance).Ok? && !Calculate(fileSize, total, instance).value.IsEmpty()
    ensures var range := Calculate(fileSize, total, instance).value; 0 <= range.start <= range.end < fileSize
  {
    RangeBetweenCuts(fileSize, total, instance);
  }

  lemma CutsAdvance(fileSize: nat, total: nat, i: nat)
    requires i < total
    ensures var q, r := fileSize / total, fileSize % total;
      var here, next := Cut(q, r, i), Cut(q, r, i + 1);
      && here <= next <= fileSize
      && if here < fileSize then here < next else next == fileSize
  {
    var q, r := fileSize / total, fileSize % total;
    Division(fileSize, total);
    CutStep(q, r, total, i);
    if q == 0 {
      assert i * q == 0;
    }
  }

  /** The cuts go from 0 to the file size without a gap, and no instance is left empty before the end is reached. */
  lemma CutsPartition(fileSize: nat, total: nat)
    requires 0 < total
    ensures AreCuts(CutsOf(fileSize, total), fileSize)
  {
    var cuts := CutsOf(fileSize, total);
    Division(fileSize, total);
    CutStep(fileSize / total, fileSize % total, total, 0);
    assert cuts[0] == 0 && cuts[total] == fileSize;
    forall i | 0 <= i < |cuts| - 1
      ensures cuts[i] <= fileSize
      ensures if cuts[i] < fileSize then cuts[i] < cuts[i + 1] else cuts[i + 1] == fileSize
    {
      CutsAdvance(fileSize, total, i);
    }
  }

  /** No product or sum on the way exceeds the file size, so 64-bit arithmetic cannot overflow. */
  lemma NoIntermediateExceedsFileSize(fileSize: nat, total: nat, instance: nat)
    requires instance < total <= fileSize
    ensures var q, r := fileSize / total, fileSize % total;
      && 0 <= instance * q <= instance * q + Min(instance, r) <= fileSize
      && 0 <= (instance + 1) * q <= (instance + 1) * q + Min(instance + 1, r) <= fileSize
  {
    Division(fileSize, total);
    CutStep(fileSize / total, fileSize % total, total, instance);
    MulMonotone(0, instance, fileSize / total);
    MulMonotone(0, instance + 1, fileSize / total);
  }

  /** Two ranges differ in size by at most one byte, and the longer ones come first: exactly the
      first fileSize mod total instances have the extra byte. */
  lemma FairShares(fileSize: nat, total: nat, instance: nat)
    requires instance < total
    ensures Calculate(fileSize, total, instance).Ok?
    ensures Calculate(fileSize, total, instance).value.Size()
         == fileSize / total + if instance < fileSize % total then 1 else 0
  {
    Division(fileSize, total);
    CutStep(fileSize / total, fileSize % total, total, instance);
    RangeBetweenCuts(fileSize, total, instance);
  }

  // ----- What the instances read

  /** The elements that an instance's range selects: seek to the start, then read at most Size elements. */
  function Slice<T>(data: seq<T>, range: ByteRange): seq<T> {
    if range.IsEmpty() || range.start < 0 || |data| <= range.start then []
    else data[range.start..Min(range.end + 1, |data|)]
  }

  /** The pieces that the instances work on. */
  function Pieces<T>(data: seq<T>, total: nat): seq<seq<T>>
    requires 0 < total
  {
    seq(total, i requires 0 <= i < total =>
      RangeBetweenCuts(|data|, total, i);
      Slice(data, Calculate(|data|, total, i).value))
  }

  lemma PiecesBetweenCuts<T>(data: seq<T>, total: nat)
    requires 0 < total
    ensures AreCuts(CutsOf(|data|, total), |data|) && |CutsOf(|data|, total)| == total + 1
    ensures forall i :: 0 <= i < total ==> Pieces(data, total)[i] == PieceOf(data, CutsOf(|data|, total), i)
  {
    CutsPartition(|data|, total);
    forall i | 0 <= i < total
      ensures Pieces(data, total)[i] == PieceOf(data, CutsOf(|data|, total), i)
    {
      RangeBetweenCuts(|data|, total, i);
    }
  }

  /** In order and without gap or overlap, the pieces of all instances are the data. */
  lemma PiecesPartition<T>(data: seq<T>, total: nat)
    requires 0 < total
    ensures Joined(Pieces(data, total), total) == data
  {
    PiecesBetweenCuts(data, total);
    JoinedIsPrefix(data, CutsOf(|data|, total), Pieces(data, total), total);
    assert data[..|data|] == data;
  }

  lemma SinglePiece<T>(data: seq<T>)
    ensures |Pieces(data, 1)| == 1 && Pieces(data, 1)[0] == data
  {
    PiecesPartition(data, 1);
    assert Joined(Pieces(data, 1), 1) == Joined(Pieces(data, 1), 0) + Pieces(data, 1)[0];
    assert [] + Pieces(data, 1)[0] == Pieces(data, 1)[0];
  }

  /** Every position lies in the range of exactly one instance. */
  lemma EveryPositionOnce(fileSize: nat, total: nat, at: nat) returns (owner: nat)
    requires 0 < total && at < fileSize
    ensures owner < total
    ensures forall i :: 0 <= i < total ==>
      Calculate(fileSize, total, i).Ok? &&
      var range := Calculate(fileSize, total, i).value;
      (range.start <= at <= range.end <==> i == owner)
  {
    var cuts := CutsOf(fileSize, total);
    CutsPartition(fileSize, total);
    owner := Owner(cuts, fileSize, at, total - 1);
    forall i | 0 <= i < total
      ensures Calculate(fileSize, total, i).Ok?
      ensures var range := Calculate(fileSize, total, i).value; range.start <= at <= range.end <==> i == owner
    {
      RangeBetweenCuts(fileSize, total, i);
      if i < owner {
        CutsAscend(cuts, fileSize, i + 1, owner);
      } else if owner < i {
        CutsAscend(cuts, fileSize, owner + 1, i);
      }
    }
  }

  lemma {:induction false} CutsAscend(cuts: seq<nat>, fileSize: nat, i: nat, j: nat)
    requires AreCuts(cuts, fileSize) && i <= j < |cuts|
    ensures cuts[i] <= cuts[j]
    decreases j
  {
    if i < j {
      CutsAscend(cuts, fileSize, i, j - 1);
    }
  }

  /** The last instance, up to i, whose part begins at or before the position. */
  lemma {:induction false} Owner(cuts: seq<nat>, fileSize: nat, at: nat, i: nat) returns (owner: nat)
    requires AreCuts(cuts, fileSize) && i + 1 < |cuts| && at < cuts[i + 1]
    ensures owner <= i && cuts[owner] <= at < cuts[owner + 1]
    decreases i
  {
    if cuts[i] <= at {
      owner := i;
    } else {
      owner := Owner(cuts, fileSize, at, i - 1);
    }
  }
}
