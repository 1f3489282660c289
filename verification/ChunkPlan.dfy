/**
 Cutting a file into TikTok's chunks (sau/platforms/tiktok/publisher.py).
 */
module ChunkPlan {
  import opened Options

  const MIN_CHUNK := 5 * 1024 * 1024
  const MAX_CHUNK := 64 * 1024 * 1024
  const MAX_CHUNKS := 1000

  datatype Plan = Plan(chunkSize: nat, totalChunks: nat)

  datatype PlanError = NotPositive | TooLarge

  /** A byte range: where it starts and how long it is. */
  datatype Range = Range(offset: nat, length: nat)

  function Min(a: int, b: int): int {
    if a < b then a else b
  }

  function Clamp(preferred: int): nat {
    if preferred < MIN_CHUNK then MIN_CHUNK else if preferred > MAX_CHUNK then MAX_CHUNK else preferred
  }

  /** The quotient rounded up. */
  function CeilDiv(a: nat, b: nat): nat
    requires b > 0
  {
    (a + b - 1) / b
  }

  function PlanChunks(size: int, preferred: int): Result<Plan, PlanError> {
    if size <= 0 then Err(NotPositive)
    else if size < MIN_CHUNK then Ok(Plan(size, 1))
    else if size / Clamp(preferred) <= MAX_CHUNKS then Ok(WithChunk(size, Clamp(preferred)))
    else
      var chunk := Min(CeilDiv(size, MAX_CHUNKS), MAX_CHUNK);
      if chunk == 0 || size / chunk > MAX_CHUNKS then Err(TooLarge) else Ok(WithChunk(size, chunk))
  }

  function WithChunk(size: nat, chunk: nat): Plan
    requires chunk > 0
  {
    Plan(chunk, if size / chunk < 1 then 1 else size / chunk)
  }

  // ---- arithmetic ------------------------------------------------------------------------

  lemma QuotientBounds(a: nat, b: nat)
    requires b > 0
    ensures a / b * b <= a < a / b * b + b
  {
  }

  lemma QuotientAtLeast(a: nat, b: nat, n: nat)
    requires b > 0
    ensures a / b >= n <==> a >= n * b
  {
    QuotientBounds(a, b);
    if a / b >= n {
      assert a / b * b >= n * b;
    } else {
      assert (a / b + 1) * b <= n * b;
    }
  }

  // ---- what a plan is --------------------------------------------------------------------

  /** The chunk the plan was made with: the preferred one, or the least that gives 1000 chunks. */
  lemma ChosenChunk(size: int, preferred: int)
    requires size >= MIN_CHUNK && PlanChunks(size, preferred).Ok?
    ensures var plan := PlanChunks(size, preferred).value;
            && MIN_CHUNK <= plan.chunkSize <= MAX_CHUNK && plan == WithChunk(size, plan.chunkSize)
            && size / plan.chunkSize <= MAX_CHUNKS
            && (plan.chunkSize == Clamp(preferred) || (size >= 1001 * Clamp(preferred) && plan.chunkSize <= size))
  {
    QuotientAtLeast(size, Clamp(preferred), 1001);
  }

  /** A file is refused exactly when even 64 MiB chunks would be more than a thousand. */
  lemma RefusedIffTooManyLargestChunks(size: int, preferred: int)
    ensures PlanChunks(size, preferred) == Err(NotPositive) <==> size <= 0
    ensures PlanChunks(size, preferred) == Err(TooLarge) <==> size > 0 && size / 67_108_864 > 1000
  {
    if size >= MIN_CHUNK {
      var chunk := Clamp(preferred);
      QuotientAtLeast(size, chunk, 1001);
      var wide := CeilDiv(size, MAX_CHUNKS);
      assert wide * 1000 >= size;
      if size / chunk > MAX_CHUNKS && wide <= MAX_CHUNK {
        QuotientAtLeast(size, wide, 1001);
      }
    }
  }

  /** Between one and a thousand chunks of 5 to 64 MiB; a file under 5 MiB is one chunk. */
  lemma PlanIsWithinLimits(size: int, preferred: int)
    requires PlanChunks(size, preferred).Ok?
    ensures var plan := PlanChunks(size, preferred).value;
            && 1 <= plan.totalChunks <= 1000 && plan.chunkSize > 0
            && (if size < 5_242_880 then plan == Plan(size, 1) else 5_242_880 <= plan.chunkSize <= 67_108_864)
            && (plan.totalChunks - 1) * plan.chunkSize < size
  {
    if size >= MIN_CHUNK {
      ChosenChunk(size, preferred);
      var plan := PlanChunks(size, preferred).value;
      QuotientBounds(size, plan.chunkSize);
      if plan.totalChunks > 1 {
        assert plan.totalChunks * plan.chunkSize <= size;
        assert (plan.totalChunks - 1) * plan.chunkSize == plan.totalChunks * plan.chunkSize - plan.chunkSize;
      }
    }
  }

  /**
   The preferred chunk is taken, or the nearest limit; where that gives more than a thousand chunks,
   the least chunk that does not, up to 64 MiB. There are as many whole chunks as go into the file.
   */
  lemma PlanFollowsThePreference(size: int, preferred: int)
    requires size >= 5_242_880 && PlanChunks(size, preferred).Ok?
    ensures var plan := PlanChunks(size, preferred).value;
            var wanted :=
              if preferred < 5_242_880 then 5_242_880 else if preferred > 67_108_864 then 67_108_864 else preferred;
            && plan.chunkSize > 0
            && (size / wanted <= 1000 ==> plan.chunkSize == wanted)
            && (size / wanted > 1000 ==>
                  && 1000 * (plan.chunkSize - 1) < size
                  && (size <= 1000 * plan.chunkSize || plan.chunkSize == 67_108_864))
            && plan.totalChunks == if size < plan.chunkSize then 1 else size / plan.chunkSize
  {
    var plan := PlanChunks(size, preferred).value;
    ChosenChunk(size, preferred);
    QuotientAtLeast(size, plan.chunkSize, 1);
    assert CeilDiv(size, 1000) * 1000 >= size > (CeilDiv(size, 1000) - 1) * 1000;
  }

  // ---- ranges ----------------------------------------------------------------------------

  /** The first n chunks of a plan, all of the plan's size. */
  function Whole(plan: Plan, n: nat): seq<Range> {
    if n == 0 then [] else Whole(plan, n - 1) + [Range((n - 1) * plan.chunkSize, plan.chunkSize)]
  }

  /** The ranges of a plan; the last runs to the end of the file. */
  function Ranges(size: nat, plan: Plan): seq<Range>
    requires 1 <= plan.totalChunks && (plan.totalChunks - 1) * plan.chunkSize <= size
  {
    var tail := (plan.totalChunks - 1) * plan.chunkSize;
    Whole(plan, plan.totalChunks - 1) + [Range(tail, size - tail)]
  }

  /** The ranges follow one another without gap or overlap, from `from` to `to`, none empty. */
  predicate Tile(ranges: seq<Range>, from: nat, to: nat) {
    if ranges == [] then from == to
    else
      var last := ranges[|ranges| - 1];
      last.length > 0 && last.offset + last.length == to && last.offset >= from
        && Tile(ranges[..|ranges| - 1], from, last.offset)
  }

  lemma {:induction false} WholeTiles(plan: Plan, n: nat)
    requires plan.chunkSize > 0
    ensures |Whole(plan, n)| == n && Tile(Whole(plan, n), 0, n * plan.chunkSize)
    ensures forall i :: 0 <= i < n ==> Whole(plan, n)[i] == Range(i * plan.chunkSize, plan.chunkSize)
  {
    if n > 0 {
      WholeTiles(plan, n - 1);
      var before, all := Whole(plan, n - 1), Whole(plan, n);
      assert all[..|all| - 1] == before;
      assert (n - 1) * plan.chunkSize + plan.chunkSize == n * plan.chunkSize;
    }
  }

  predicate WholeButLast(ranges: seq<Range>, chunk: nat) {
    forall i :: 0 <= i < |ranges| - 1 ==> ranges[i].offset == i * chunk && ranges[i].length == chunk
  }

  /**
   The ranges of every plan tile the file. All but the last are a whole chunk; the last is
   shorter than two, and is at least one unless the preferred chunk is larger than the file.
   */
  lemma RangesTileTheFile(size: int, preferred: int)
    requires PlanChunks(size, preferred).Ok?
    ensures var plan := PlanChunks(size, preferred).value;
            && 1 <= plan.totalChunks && (plan.totalChunks - 1) * plan.chunkSize <= size
            && var ranges := Ranges(size, plan);
            && Tile(ranges, 0, size) && 1 <= |ranges| == plan.totalChunks <= MAX_CHUNKS
            && WholeButLast(ranges, plan.chunkSize)
            && var last := ranges[|ranges| - 1].length;
            && last < 2 * plan.chunkSize
            && (last >= plan.chunkSize <==> size < MIN_CHUNK || Clamp(preferred) <= size)
  {
    PlanIsWithinLimits(size, preferred);
    var plan := PlanChunks(size, preferred).value;
    WholeTiles(plan, plan.totalChunks - 1);
    var ranges := Ranges(size, plan);
    assert ranges[..|ranges| - 1] == Whole(plan, plan.totalChunks - 1);
    LastRange(size, preferred);
  }

  lemma LastRange(size: int, preferred: int)
    requires PlanChunks(size, preferred).Ok?
    ensures var plan := PlanChunks(size, preferred).value;
            var last := size - (plan.totalChunks - 1) * plan.chunkSize;
            last < 2 * plan.chunkSize && (last >= plan.chunkSize <==> size < MIN_CHUNK || Clamp(preferred) <= size)
  {
    var plan := PlanChunks(size, preferred).value;
    if size >= MIN_CHUNK {
      ChosenChunk(size, preferred);
      LastOfChunk(size, plan.chunkSize);
    }
  }

  lemma LastOfChunk(size: nat, chunk: nat)
    requires chunk > 0
    ensures var last := size - (WithChunk(size, chunk).totalChunks - 1) * chunk;
            last < 2 * chunk && (last >= chunk <==> size >= chunk)
  {
    QuotientBounds(size, chunk);
    QuotientAtLeast(size, chunk, 1);
    var n := size / chunk;
    assert n >= 1 ==> (n - 1) * chunk == n * chunk - chunk;
  }

  /** A 6 MiB file with the default preference is announced as one chunk of 16 MiB. */
  lemma ShortFileGetsAnOversizedChunk()
    ensures var size := 6 * 1024 * 1024;
            && PlanChunks(size, 16 * 1024 * 1024) == Ok(Plan(16 * 1024 * 1024, 1))
            && Ranges(size, Plan(16 * 1024 * 1024, 1)) == [Range(0, size)]
  {
  }

  /** `iter_ranges`. */
  method IterRanges(size: nat, plan: Plan) returns (ranges: seq<Range>)
    requires 1 <= plan.totalChunks && (plan.totalChunks - 1) * plan.chunkSize <= size
    ensures ranges == Ranges(size, plan)
  {
    ranges := [];
    for index := 0 to plan.totalChunks - 1
      invariant ranges == Whole(plan, index)
    {
      ranges := ranges + [Range(index * plan.chunkSize, plan.chunkSize)];
    }
    var tail := (plan.totalChunks - 1) * plan.chunkSize;
    ranges := ranges + [Range(tail, size - tail)];
  }
}
