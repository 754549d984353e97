/** Carving device and host memory into cache blocks, over the reals. */
module BlockCarve {
  import opened Arithmetic
  import opened Tokens

  const ALIGNMENT: nat := 8

  function Floor(x: real): (n: nat)
    requires x >= 0.0
    ensures n as real <= x < n as real + 1.0
  {
    x.Floor
  }

  function RoundDown(n: nat): (r: nat)
    ensures r <= n < r + ALIGNMENT && r % ALIGNMENT == 0
  {
    n / ALIGNMENT * ALIGNMENT
  }

  /** The smallest multiple of the alignment at or above `x`. */
  function RoundUp(x: real): (n: nat)
    requires x >= 0.0
    ensures x <= n as real < x + 8.0 && n % ALIGNMENT == 0
  {
    var eighths := x / 8.0;
    assert x == 8.0 * eighths;
    var q := Floor(eighths);
    (if q as real == eighths then q else q + 1) * ALIGNMENT
  }

  /** The sizes and ratios the calculation reads. */
  datatype Sizes = Sizes(deviceRatio: real, reservedRatio: real, hostFactor: real, kvBlock: nat, hostBlock: nat,
                         swaBlock: nat, swaRatio: real, blockTokens: nat, launchThreshold: nat)

  predicate SizesOk(s: Sizes)
  {
    s.reservedRatio > 0.0 && s.hostFactor >= 0.0 && s.kvBlock > 0 && s.hostBlock > 0
  }

  datatype Memory = Memory(deviceTotal: nat, deviceFree: nat, hostFree: nat)

  /** The share of the device that a ratio grants. */
  function DeviceShare(s: Sizes, m: Memory): (x: real)
    requires s.deviceRatio >= 0.0
    ensures x >= 0.0
  {
    m.deviceTotal as real * s.deviceRatio
  }

  /** The share of the device that is kept back when no ratio is set. */
  function DeviceReserve(s: Sizes, m: Memory): (x: real)
    requires SizesOk(s)
    ensures x >= 0.0
  {
    m.deviceTotal as real * s.reservedRatio
  }

  function DeviceBudget(s: Sizes, m: Memory): nat
    requires SizesOk(s)
  {
    if s.deviceRatio >= 0.0 then
      RoundDown(Min(Floor(DeviceShare(s, m)), m.deviceFree))
    else
      var reserved := RoundUp(DeviceReserve(s, m));
      RoundDown(if reserved < m.deviceFree then m.deviceFree - reserved else 0)
  }

  function HostBudget(s: Sizes, m: Memory): nat
    requires SizesOk(s)
  {
    RoundDown(Floor(Lesser(HostShare(s, DeviceBudget(s, m)), m.hostFree as real * 0.8)))
  }

  function Lesser(x: real, y: real): real { if x <= y then x else y }

  /** What the device budget grants the host. */
  function HostShare(s: Sizes, budget: nat): (x: real)
    requires SizesOk(s)
    ensures x >= 0.0
  {
    budget as real * s.hostFactor
  }

  /** Neither budget exceeds what is free, and both are aligned. */
  lemma BudgetsFit(s: Sizes, m: Memory)
    requires SizesOk(s)
    ensures DeviceBudget(s, m) <= m.deviceFree && DeviceBudget(s, m) % ALIGNMENT == 0
    ensures HostBudget(s, m) as real <= m.hostFree as real * 0.8 && HostBudget(s, m) % ALIGNMENT == 0
    ensures s.deviceRatio < 0.0 && DeviceBudget(s, m) > 0 ==>
              DeviceBudget(s, m) as real + m.deviceTotal as real * s.reservedRatio <= m.deviceFree as real
  {
  }

  /** Of two multiples of the alignment the larger is larger by at least one unit. */
  lemma AlignedBelow(b: nat, n: nat)
    requires b % ALIGNMENT == 0 && b <= n
    ensures b <= RoundDown(n)
  {
  }

  /** Nor does a multiple above a real lie below that real rounded up. */
  lemma AlignedAbove(d: nat, x: real)
    requires d % ALIGNMENT == 0 && x >= 0.0
    ensures RoundUp(x) <= d <==> x <= d as real
  {
  }

  /** What is left of `n` once a multiple has been taken off. */
  lemma AlignedLeft(b: nat, reserved: nat, n: nat)
    requires b % ALIGNMENT == 0 && reserved % ALIGNMENT == 0 && b > 0
    ensures b <= RoundDown(if reserved < n then n - reserved else 0) <==> b + reserved <= RoundDown(n)
  {
    if b + reserved <= n {
      AlignedBelow(b, n - reserved);
      AlignedBelow(b + reserved, n);
    }
  }

  lemma ReservedLeft(b: nat, x: real, n: nat)
    requires b % ALIGNMENT == 0 && b > 0 && x >= 0.0
    ensures b <= RoundDown(if RoundUp(x) < n then n - RoundUp(x) else 0) <==> b as real + x <= RoundDown(n) as real
  {
    var reserved, whole := RoundUp(x), RoundDown(n);
    AlignedLeft(b, reserved, n);
    if b <= whole {
      AlignedAbove(whole - b, x);
    }
  }

  /** A multiple fits below a real exactly if it fits below its whole units. */
  lemma AlignedFloor(b: nat, x: real)
    requires b % ALIGNMENT == 0 && x >= 0.0
    ensures b <= RoundDown(Floor(x)) <==> b as real <= x
  {
    if b as real <= x {
      AlignedBelow(b, Floor(x));
    }
  }

  /** The device budget is the largest aligned one that fits the ratio and what is free, */
  lemma RatioBudgetIsLargest(s: Sizes, m: Memory, b: nat, share: real)
    requires SizesOk(s) && b % ALIGNMENT == 0 && s.deviceRatio >= 0.0 && share == m.deviceTotal as real * s.deviceRatio
    ensures b <= DeviceBudget(s, m) <==> b <= m.deviceFree && b as real <= share
  {
    assert share == DeviceShare(s, m);
    AlignedFloor(b, share);
    if b <= m.deviceFree {
      AlignedBelow(b, m.deviceFree);
    }
  }

  /** or, without a ratio, the largest that leaves the reserved share of what is free in whole units. */
  lemma ReserveBudgetIsLargest(s: Sizes, m: Memory, b: nat, kept: real)
    requires SizesOk(s) && b % ALIGNMENT == 0 && s.deviceRatio < 0.0 && b > 0
    requires kept == m.deviceTotal as real * s.reservedRatio
    ensures b <= DeviceBudget(s, m) <==> b as real + kept <= RoundDown(m.deviceFree) as real
  {
    assert kept == DeviceReserve(s, m);
    ReservedLeft(b, kept, m.deviceFree);
  }

  /** The host budget is the largest aligned one within its factor of the device budget and four fifths of what is
      free. */
  lemma HostBudgetIsLargest(s: Sizes, m: Memory, b: nat, share: real, free: real)
    requires SizesOk(s) && b % ALIGNMENT == 0
    requires share == DeviceBudget(s, m) as real * s.hostFactor && free == m.hostFree as real * 0.8
    ensures b <= HostBudget(s, m) <==> b as real <= share && b as real <= free
  {
    assert share == HostShare(s, DeviceBudget(s, m));
    AlignedFloor(b, Lesser(share, free));
  }

  predicate HasSwa(s: Sizes) { s.swaRatio > 0.0 && s.swaBlock > 0 }

  /** SWA bytes charged to each KV block: the fraction of a byte is dropped. */
  function SwaShare(s: Sizes): nat
  {
    if HasSwa(s) then Floor(s.swaRatio * s.swaBlock as real) else 0
  }

  function EffectiveBlock(s: Sizes): nat { s.kvBlock + SwaShare(s) }

  function SwaBlocks(s: Sizes, blocks: nat): nat
  {
    if HasSwa(s) then Floor(blocks as real * s.swaRatio) else 0
  }

  /** The bytes `blocks` KV blocks and their SWA blocks take up. */
  function Used(s: Sizes, blocks: nat): nat
  {
    blocks * s.kvBlock + SwaBlocks(s, blocks) * s.swaBlock
  }

  /** The number of KV blocks, unless a smaller limit is set from outside. */
  function DeviceBlocks(s: Sizes, budget: nat, limit: Option<nat>): nat
    requires SizesOk(s)
  {
    var n := budget / EffectiveBlock(s);
    if limit.Some? && 1 <= limit.value <= n then limit.value else n
  }

  lemma RealProduct(a: real, b: real, c: real)
    requires a <= b && c >= 0.0
    ensures a * c <= b * c
  {
  }

  lemma RealScale(n: real, a: real, b: real)
    requires n > 0.0 && a < b
    ensures n * a < n * b
  {
    assert n * (b - a) > 0.0;
  }

  lemma RealChain(k: real, n: real, r: real, b: real, share: real)
    requires k <= n * r && r * b < share && n > 0.0 && b >= 0.0
    ensures k * b < n * share
  {
    RealProduct(k, n * r, b);
    assert (n * r) * b == n * (r * b);
    RealScale(n, r * b, share);
  }

  lemma IntProducts(a: nat, b: nat, c: nat, d: nat)
    requires a as real * b as real < c as real * d as real
    ensures a * b < c * d
  {
    assert (a * b) as real == a as real * b as real;
    assert (c * d) as real == c as real * d as real;
  }

  /** SWA blocks take up less than their whole-byte share plus one byte per KV block. */
  lemma SwaBytes(s: Sizes, blocks: nat)
    requires HasSwa(s) && blocks > 0
    ensures SwaBlocks(s, blocks) * s.swaBlock < blocks * (SwaShare(s) + 1)
  {
    var share := SwaShare(s) + 1;
    assert s.swaRatio * s.swaBlock as real < share as real;
    RealChain(SwaBlocks(s, blocks) as real, blocks as real, s.swaRatio, s.swaBlock as real, share as real);
    IntProducts(SwaBlocks(s, blocks), s.swaBlock, blocks, share);
  }

  lemma BlocksWithinBudget(s: Sizes, budget: nat, limit: Option<nat>)
    requires SizesOk(s)
    ensures DeviceBlocks(s, budget, limit) * EffectiveBlock(s) <= budget
  {
    var n, e := budget / EffectiveBlock(s), EffectiveBlock(s);
    assert n * e <= budget;
    var d := DeviceBlocks(s, budget, limit);
    assert d <= n;
    assert d * e <= n * e by {
      assert (n - d) * e >= 0;
    }
  }

  /** As many blocks are carved as fit, but no more than a limit of at least one. */
  lemma BlocksAreMost(s: Sizes, budget: nat, limit: Option<nat>, n: nat)
    requires SizesOk(s)
    ensures n <= DeviceBlocks(s, budget, limit) <==>
            n * EffectiveBlock(s) <= budget && (limit.Some? && limit.value > 0 ==> n <= limit.value)
  {
    var e := EffectiveBlock(s);
    var most := budget / e;
    assert most * e <= budget < most * e + e;
    if n <= most {
      MulGrows(n, most, e);
    } else {
      MulGrows(most + 1, n, e);
      assert (most + 1) * e == most * e + e;
    }
  }

  /** The carve-up takes less than the budget plus one byte per KV block, and stays within it without SWA. */
  lemma CarveBound(s: Sizes, budget: nat, limit: Option<nat>)
    requires SizesOk(s)
    ensures var blocks := DeviceBlocks(s, budget, limit);
            && (!HasSwa(s) ==> Used(s, blocks) <= budget)
            && (blocks > 0 ==> Used(s, blocks) < budget + blocks)
            && (blocks == 0 ==> Used(s, blocks) <= budget)
  {
    var blocks := DeviceBlocks(s, budget, limit);
    BlocksWithinBudget(s, budget, limit);
    if HasSwa(s) && blocks > 0 {
      SwaBytes(s, blocks);
      assert blocks * EffectiveBlock(s) == blocks * s.kvBlock + blocks * SwaShare(s);
      assert blocks * (SwaShare(s) + 1) == blocks * SwaShare(s) + blocks;
    }
  }

  /** No fraction of a byte is dropped. */
  predicate WholeShare(s: Sizes)
  {
    HasSwa(s) ==> SwaShare(s) as real == s.swaRatio * s.swaBlock as real
  }

  /** The carve-up stays within every budget the calculation can come to: budgets are aligned. */
  ghost predicate AlwaysFits(s: Sizes)
    requires SizesOk(s)
  {
    forall budget: nat :: budget % ALIGNMENT == 0 ==> Used(s, DeviceBlocks(s, budget, None)) <= budget
  }

  lemma WholeShareFits(s: Sizes, budget: nat)
    requires SizesOk(s) && WholeShare(s)
    ensures Used(s, DeviceBlocks(s, budget, None)) <= budget
  {
    var blocks := DeviceBlocks(s, budget, None);
    BlocksWithinBudget(s, budget, None);
    if HasSwa(s) {
      var n, k, r, b := blocks as real, SwaBlocks(s, blocks), s.swaRatio, s.swaBlock as real;
      RealProduct(k as real, n * r, b);
      assert (n * r) * b == n * (r * b);
      assert (k * s.swaBlock) as real == k as real * b;
      assert (blocks * SwaShare(s)) as real == n * SwaShare(s) as real;
      assert blocks * EffectiveBlock(s) == blocks * s.kvBlock + blocks * SwaShare(s);
    }
  }

  /** Enough blocks for the dropped fractions to add up to more than one SWA block. */
  lemma DroppedFractionsAddUp(s: Sizes, blocks: nat)
    requires SizesOk(s) && HasSwa(s)
    requires blocks as real * (s.swaRatio * s.swaBlock as real - SwaShare(s) as real) > s.swaBlock as real
    ensures Used(s, blocks) > blocks * EffectiveBlock(s)
  {
    var n, k, r, b := blocks as real, SwaBlocks(s, blocks), s.swaRatio, s.swaBlock as real;
    RealProduct(n * r, k as real + 1.0, b);
    assert (n * r) * b == n * (r * b);
    assert (k as real + 1.0) * b == k as real * b + b;
    assert n * (r * b - SwaShare(s) as real) == n * (r * b) - n * SwaShare(s) as real;
    assert (k * s.swaBlock) as real == k as real * b;
    assert (blocks * SwaShare(s)) as real == n * SwaShare(s) as real;
    assert blocks * EffectiveBlock(s) == blocks * s.kvBlock + blocks * SwaShare(s);
  }

  lemma EnoughSteps(n: real, b: real, f: real)
    requires f > 0.0 && n > b / f
    ensures n * f > b
  {
    assert (b / f) * f == b;
    RealScale(f, b / f, n);
  }

  lemma AlignedProduct(n: nat, e: nat)
    ensures (ALIGNMENT * n) * e % ALIGNMENT == 0
  {
    assert (ALIGNMENT * n) * e == ALIGNMENT * (n * e);
  }

  /** The carve-up stays within every aligned budget exactly when the SWA share of a KV block is a whole
      number of bytes. */
  lemma FitsExactly(s: Sizes)
    requires SizesOk(s)
    ensures AlwaysFits(s) <==> WholeShare(s)
  {
    if WholeShare(s) {
      forall budget: nat | budget % ALIGNMENT == 0 ensures Used(s, DeviceBlocks(s, budget, None)) <= budget {
        WholeShareFits(s, budget);
      }
    } else {
      var f := s.swaRatio * s.swaBlock as real - SwaShare(s) as real;
      var blocks := ALIGNMENT * (Floor(s.swaBlock as real / f) + 1);
      assert blocks as real > s.swaBlock as real / f;
      EnoughSteps(blocks as real, s.swaBlock as real, f);
      DroppedFractionsAddUp(s, blocks);
      var budget := blocks * EffectiveBlock(s);
      QuotientOfProduct(blocks, EffectiveBlock(s));
      AlignedProduct(Floor(s.swaBlock as real / f) + 1, EffectiveBlock(s));
      assert Used(s, DeviceBlocks(s, budget, None)) > budget;
    }
  }

  /** An overrun: half an SWA block of 3 bytes is charged as 1 byte. */
  lemma OverrunExample()
    ensures var s := Sizes(0.5, 0.1, 0.0, 1, 1, 3, 0.5, 1, 0);
            SizesOk(s) && DeviceBlocks(s, 8, None) == 4 && Used(s, 4) == 10
  {
    var s := Sizes(0.5, 0.1, 0.0, 1, 1, 3, 0.5, 1, 0);
    assert s.swaRatio * s.swaBlock as real == 1.5;
    assert SwaShare(s) == 1;
    assert 4 as real * s.swaRatio == 2.0;
    assert SwaBlocks(s, 4) == 2;
  }

  /** What the blocks above the launch threshold hold. */
  function UsableTokens(s: Sizes, blocks: nat): nat
    requires blocks > s.launchThreshold
  {
    (blocks - s.launchThreshold) * s.blockTokens
  }

  /** The blocks `n` tokens take up. */
  function BlocksFor(s: Sizes, n: nat): nat
    requires s.blockTokens > 0
  {
    (n + s.blockTokens - 1) / s.blockTokens
  }

  lemma Quotients(n: nat, t: nat, left: nat)
    requires t > 0
    ensures n <= left * t <==> (n + t - 1) / t <= left
  {
    var q, r := (n + t - 1) / t, (n + t - 1) % t;
    assert n + t - 1 == q * t + r;
    if q <= left {
      MulGrows(q, left, t);
    } else {
      MulGrows(left + 1, q, t);
      assert (left + 1) * t == left * t + t;
    }
  }

  /** A step's tokens are usable exactly if the blocks they take up leave the launch threshold free. */
  lemma UsableExactly(s: Sizes, blocks: nat, n: nat)
    requires blocks > s.launchThreshold && s.blockTokens > 0
    ensures n <= UsableTokens(s, blocks) <==> BlocksFor(s, n) + s.launchThreshold <= blocks
  {
    Quotients(n, s.blockTokens, blocks - s.launchThreshold);
  }

  // ---- The method ----

  class ScheduleConfig {
    const sizes: Sizes
    var deviceBlocksNum: nat
    var hostBlocksNum: nat
    var swaBlocksNum: nat
    var maxStepTokenNum: nat

    constructor (sizes: Sizes, maxStepTokenNum: nat)
      ensures this.sizes == sizes && this.maxStepTokenNum == maxStepTokenNum
      ensures deviceBlocksNum == hostBlocksNum == swaBlocksNum == 0
    {
      this.sizes := sizes;
      this.maxStepTokenNum := maxStepTokenNum;
      deviceBlocksNum, hostBlocksNum, swaBlocksNum := 0, 0, 0;
    }

    method CountDeviceBlocks(budget: nat, limit: Option<nat>) returns (blocks: nat)
      requires SizesOk(sizes)
      ensures blocks == DeviceBlocks(sizes, budget, limit)
    {
      var effective := sizes.kvBlock;
      if sizes.swaRatio > 0.0 && sizes.swaBlock > 0 {
        effective := effective + SwaShare(sizes);
      }
      assert effective == EffectiveBlock(sizes);
      blocks := budget / effective;
      if limit.Some? && 1 <= limit.value <= blocks {
        blocks := limit.value;
      }
    }

    /** `CalculateBlockNumber`: it refuses exactly when no block is left above the launch threshold, and then
        changes nothing; otherwise a step's tokens are cut to what the usable blocks hold. */
    method CalculateBlockNumber(memory: Memory, limit: Option<nat>) returns (ok: bool)
      requires SizesOk(sizes)
      modifies this
      ensures var blocks := DeviceBlocks(sizes, DeviceBudget(sizes, memory), limit);
              && (ok <==> blocks > sizes.launchThreshold)
              && (!ok ==> deviceBlocksNum == old(deviceBlocksNum) && hostBlocksNum == old(hostBlocksNum)
                          && swaBlocksNum == old(swaBlocksNum) && maxStepTokenNum == old(maxStepTokenNum))
              && (ok ==> deviceBlocksNum == blocks && hostBlocksNum == HostBudget(sizes, memory) / sizes.hostBlock
                         && swaBlocksNum == (if HasSwa(sizes) then SwaBlocks(sizes, blocks) else old(swaBlocksNum))
                         && maxStepTokenNum == Min(old(maxStepTokenNum), UsableTokens(sizes, blocks)))
    {
      var blocks := CountDeviceBlocks(DeviceBudget(sizes, memory), limit);
      if blocks <= sizes.launchThreshold {
        return false;
      }
      var usable := UsableTokens(sizes, blocks);
      if usable < maxStepTokenNum {
        maxStepTokenNum := usable;
      }
      deviceBlocksNum := blocks;
      hostBlocksNum := HostBudget(sizes, memory) / sizes.hostBlock;
      if sizes.swaRatio > 0.0 && sizes.swaBlock > 0 {
        swaBlocksNum := SwaBlocks(sizes, blocks);
      }
      ok := true;
    }
  }
}
