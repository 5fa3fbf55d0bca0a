/** Index and lane arithmetic shared by the CUDA kernels: the tiled scale layout and the warp butterfly. */
module Kernels {
  import opened Arithmetic

  // ---------------------------------------------------------------- the tiled scale layout

  function DivCeil(a: nat, b: nat): nat
    requires b > 0
  {
    a / b + (if a % b > 0 then 1 else 0)
  }

  /** Scale blocks of sixteen elements, rounded up to whole tiles of four. */
  function InnerTiles(innerDim: nat): nat { DivCeil(DivCeil(innerDim, 16), 4) }

  function ScaleInner(innerDim: nat): nat { InnerTiles(innerDim) * 4 }

  /** Where the scale of one row and one block lives, in exact arithmetic. */
  function TiledOffset(outer: nat, innerBlock: nat, innerDim: nat): nat {
    var tileOuter, outerInTile := outer / 128, outer % 128;
    var tileInner, innerInTile := innerBlock / 4, innerBlock % 4;
    var tileBase := (tileInner * 4 + tileOuter * ScaleInner(innerDim)) * 128;
    tileBase + outerInTile % 32 * 16 + outerInTile / 32 * 4 + innerInTile
  }

  /** The row and the block stored at an offset. */
  function OuterAt(offset: nat, innerDim: nat): nat
    requires InnerTiles(innerDim) > 0
  {
    var tile, rest := offset / 512, offset % 512;
    tile / InnerTiles(innerDim) * 128 + rest / 16 + 32 * (rest / 4 % 4)
  }

  function BlockAt(offset: nat, innerDim: nat): nat
    requires InnerTiles(innerDim) > 0
  {
    offset / 512 % InnerTiles(innerDim) * 4 + offset % 4
  }

  /** The scale blocks of a row really fit under the rounded-up count, which exceeds it by less than a tile. */
  lemma ScaleInnerCoversRow(innerDim: nat)
    ensures var blocks := DivCeil(innerDim, 16);
            blocks * 16 >= innerDim && blocks <= ScaleInner(innerDim) < blocks + 4
                && (innerDim > 0 ==> InnerTiles(innerDim) > 0)
  {
  }

  /** An offset is a tile number and a place among the 512 scales of the tile. */
  lemma OffsetSplits(outer: nat, innerBlock: nat, innerDim: nat)
    requires innerBlock < ScaleInner(innerDim)
    ensures
      var offset, q := TiledOffset(outer, innerBlock, innerDim), InnerTiles(innerDim);
      && offset / 512 == outer / 128 * q + innerBlock / 4
      && offset % 512 == outer % 32 * 16 + outer % 128 / 32 * 4 + innerBlock % 4
  {
    hide TiledOffset, InnerTiles;
    var t := outer / 128 * InnerTiles(innerDim) + innerBlock / 4;
    OffsetIs(outer, innerBlock, innerDim);
    Digits(outer % 32, outer % 128 / 32, innerBlock % 4);
    NotNegative(outer / 128, InnerTiles(innerDim));
    Euclid(t, 512, outer % 32 * 16 + outer % 128 / 32 * 4 + innerBlock % 4);
  }

  lemma OffsetIs(outer: nat, innerBlock: nat, innerDim: nat)
    ensures
      TiledOffset(outer, innerBlock, innerDim)
      == (outer / 128 * InnerTiles(innerDim) + innerBlock / 4) * 512
         + (outer % 32 * 16 + outer % 128 / 32 * 4 + innerBlock % 4)
  {
    hide InnerTiles;
    var t, q := outer / 128, InnerTiles(innerDim);
    RowParts(outer);
    Fourfold(t, q);
  }

  lemma Fourfold(t: nat, q: nat)
    ensures t * (q * 4) == t * q * 4
  {
  }

  /** The three digits of a place inside a tile: row within a group of 32, group, block within the tile. */
  lemma Digits(row: nat, group: nat, block: nat)
    requires row < 32 && group < 4 && block < 4
    ensures
      var rest := row * 16 + group * 4 + block;
      rest < 512 && rest / 16 == row && rest / 4 % 4 == group && rest % 4 == block
  {
  }

  lemma PlaceHasDigits(rest: nat)
    requires rest < 512
    ensures rest / 16 < 32 && rest / 16 * 16 + rest / 4 % 4 * 4 + rest % 4 == rest
  {
  }

  lemma RowParts(outer: nat)
    ensures outer == outer / 128 * 128 + 32 * (outer % 128 / 32) + outer % 32
    ensures outer % 128 % 32 == outer % 32
  {
    var tile, rest := outer / 128, outer % 128;
    Euclid(tile * 4 + rest / 32, 32, rest % 32);
  }

  lemma RowFromParts(tile: nat, group: nat, row: nat)
    requires group < 4 && row < 32
    ensures
      var outer := tile * 128 + row + 32 * group;
      outer / 128 == tile && outer % 32 == row && outer % 128 / 32 == group
  {
  }

  lemma LastDigit(offset: nat)
    ensures offset % 4 == offset % 512 % 4
  {
  }

  /** No two rows and blocks share an offset: both can be read back from it. */
  lemma OffsetReadsBack(outer: nat, innerBlock: nat, innerDim: nat)
    requires innerBlock < ScaleInner(innerDim)
    ensures OuterAt(TiledOffset(outer, innerBlock, innerDim), innerDim) == outer
    ensures BlockAt(TiledOffset(outer, innerBlock, innerDim), innerDim) == innerBlock
  {
    OffsetSplits(outer, innerBlock, innerDim);
    Euclid(outer / 128, InnerTiles(innerDim), innerBlock / 4);
    Digits(outer % 32, outer % 128 / 32, innerBlock % 4);
    RowParts(outer);
    LastDigit(TiledOffset(outer, innerBlock, innerDim));
    hide TiledOffset, InnerTiles;
  }

  /** Every place of the buffer is used: `tiles` row tiles fill exactly 128 * tiles * ScaleInner places. */
  lemma OffsetCovers(offset: nat, tiles: nat, innerDim: nat)
    requires InnerTiles(innerDim) > 0 && offset < 128 * tiles * ScaleInner(innerDim)
    ensures OuterAt(offset, innerDim) < 128 * tiles && BlockAt(offset, innerDim) < ScaleInner(innerDim)
    ensures TiledOffset(OuterAt(offset, innerDim), BlockAt(offset, innerDim), innerDim) == offset
  {
    hide InnerTiles, TiledOffset, OuterAt, BlockAt;
    var q := InnerTiles(innerDim);
    var t, rest := offset / 512, offset % 512;
    var outer, block := OuterAt(offset, innerDim), BlockAt(offset, innerDim);
    PartsOfOffset(offset, innerDim);
    TilesFit(offset, tiles, q);
    BelowWhole(outer, tiles);
    BelowWhole4(block, q);
    OffsetSplits(outer, block, innerDim);
    PlaceHasDigits(rest);
    SameHalves(TiledOffset(outer, block, innerDim), offset);
  }

  /** The row and block read from an offset, part by part. */
  lemma PartsOfOffset(offset: nat, innerDim: nat)
    requires InnerTiles(innerDim) > 0
    ensures
      var q, t, rest := InnerTiles(innerDim), offset / 512, offset % 512;
      var outer, block := OuterAt(offset, innerDim), BlockAt(offset, innerDim);
      && outer / 128 == t / q && outer % 32 == rest / 16 && outer % 128 / 32 == rest / 4 % 4
      && block / 4 == t % q < q && block % 4 == rest % 4
      && outer / 128 * q + block / 4 == t
  {
    hide InnerTiles;
    var q, t, rest := InnerTiles(innerDim), offset / 512, offset % 512;
    Recombine(t, q);
    OuterParts(t / q, rest);
    LastDigit(offset);
    BlockFromParts(t % q, offset % 4);
  }

  lemma OuterParts(tile: nat, rest: nat)
    requires rest < 512
    ensures
      var outer := tile * 128 + rest / 16 + 32 * (rest / 4 % 4);
      outer / 128 == tile && outer % 32 == rest / 16 && outer % 128 / 32 == rest / 4 % 4
  {
    PlaceHasDigits(rest);
    RowFromParts(tile, rest / 4 % 4, rest / 16);
  }

  lemma Recombine(t: nat, q: nat)
    requires q > 0
    ensures t / q * q + t % q == t && t % q < q
  {
  }

  lemma BelowWhole(outer: nat, tiles: nat)
    requires outer / 128 < tiles
    ensures outer < 128 * tiles
  {
  }

  lemma BelowWhole4(block: nat, q: nat)
    requires block / 4 < q
    ensures block < q * 4
  {
  }

  lemma BlockFromParts(tile: nat, place: nat)
    requires place < 4
    ensures var block := tile * 4 + place; block / 4 == tile && block % 4 == place
  {
  }

  lemma SameHalves(a: nat, b: nat)
    requires a / 512 == b / 512 && a % 512 == b % 512
    ensures a == b
  {
  }

  lemma TilesFit(offset: nat, tiles: nat, q: nat)
    requires q > 0 && offset < 128 * tiles * (q * 4)
    ensures offset / 512 / q < tiles
  {
    var t := offset / 512;
    assert 128 * tiles * (q * 4) == 512 * (tiles * q);
    assert t == t / q * q + t % q;
    if t / q >= tiles { Fewer(tiles, t / q, q); }
  }

  lemma OffsetInRange(outer: nat, innerBlock: nat, tiles: nat, innerDim: nat)
    requires outer < 128 * tiles && innerBlock < ScaleInner(innerDim)
    ensures TiledOffset(outer, innerBlock, innerDim) < 128 * tiles * ScaleInner(innerDim)
  {
    hide TiledOffset, InnerTiles;
    var q, offset := InnerTiles(innerDim), TiledOffset(outer, innerBlock, innerDim);
    OffsetSplits(outer, innerBlock, innerDim);
    TileBelow(outer / 128, innerBlock / 4, tiles, q);
    InTile(offset, tiles * q);
    assert 128 * tiles * (q * 4) == 512 * (tiles * q);
  }

  lemma TileBelow(tileOuter: nat, tileInner: nat, tiles: nat, q: nat)
    requires tileOuter < tiles && tileInner < q
    ensures tileOuter * q + tileInner < tiles * q
  {
    Fewer(tileOuter + 1, tiles, q);
    assert (tileOuter + 1) * q == tileOuter * q + q;
  }

  lemma InTile(offset: nat, count: nat)
    requires offset / 512 < count
    ensures offset < 512 * count
  {
  }

  // The kernel computes in 32-bit unsigned arithmetic, where every operation wraps.

  const TWO_TO_THE_32: nat := 0x1_0000_0000

  function Wrap(n: nat): nat { n % TWO_TO_THE_32 }

  function TiledOffset32(outer: nat, innerBlock: nat, innerDim: nat): nat {
    var tileBase := Wrap(Wrap(Wrap(innerBlock / 4 * 4) + Wrap(outer / 128 * Wrap(ScaleInner(innerDim)))) * 128);
    Wrap(Wrap(Wrap(tileBase + Wrap(outer % 128 % 32 * 16)) + Wrap(outer % 128 / 32 * 4)) + innerBlock % 4)
  }

  /** The wrapping computation is the exact one reduced once at the end. */
  lemma WrapsOnce(outer: nat, innerBlock: nat, innerDim: nat)
    ensures TiledOffset32(outer, innerBlock, innerDim) == Wrap(TiledOffset(outer, innerBlock, innerDim))
  {
    hide Wrap, InnerTiles;
    var s := ScaleInner(innerDim);
    var sum := innerBlock / 4 * 4 + outer / 128 * s;
    WrapTimes(outer / 128, s);
    WrapPlus(innerBlock / 4 * 4, outer / 128 * s);
    WrapTimes(128, sum);
    assert 128 * sum == sum * 128 && 128 * Wrap(sum) == Wrap(sum) * 128;
    WrapPlus(sum * 128, outer % 128 % 32 * 16);
    WrapPlus(sum * 128 + outer % 128 % 32 * 16, outer % 128 / 32 * 4);
    WrapSmall(innerBlock % 4);
    WrapPlus(sum * 128 + outer % 128 % 32 * 16 + outer % 128 / 32 * 4, innerBlock % 4);
  }

  lemma WrapSmall(a: nat)
    requires a < TWO_TO_THE_32
    ensures Wrap(a) == a
  {
  }

  lemma WrapPlus(a: nat, b: nat)
    ensures Wrap(Wrap(a) + Wrap(b)) == Wrap(a + b)
  {
  }

  lemma WrapTimes(a: nat, b: nat)
    ensures Wrap(a * Wrap(b)) == Wrap(a * b)
  {
    var m, d := TWO_TO_THE_32, b / TWO_TO_THE_32;
    assert b == d * m + Wrap(b);
    assert a * b == a * d * m + a * Wrap(b) by {
      assert a * (d * m + Wrap(b)) == a * (d * m) + a * Wrap(b);
      assert a * (d * m) == a * d * m;
    }
    var x := a * Wrap(b);
    Euclid(a * d + x / m, m, x % m);
    assert a * b == (a * d + x / m) * m + x % m by { assert x == x / m * m + x % m; }
  }

  /** The 32-bit kernel addresses the whole buffer correctly exactly when the buffer has at most 2^32 places. */
  lemma NoOverflowIff(tiles: nat, innerDim: nat)
    requires tiles > 0 && innerDim > 0
    ensures
      (forall outer: nat, innerBlock: nat :: outer < 128 * tiles && innerBlock < ScaleInner(innerDim) ==>
         TiledOffset32(outer, innerBlock, innerDim) == TiledOffset(outer, innerBlock, innerDim))
      <==> 128 * tiles * ScaleInner(innerDim) <= TWO_TO_THE_32
  {
    hide TiledOffset, TiledOffset32, ScaleInner;
    ScaleInnerCoversRow(innerDim);
    if 128 * tiles * ScaleInner(innerDim) <= TWO_TO_THE_32 {
      forall outer: nat, innerBlock: nat | outer < 128 * tiles && innerBlock < ScaleInner(innerDim)
        ensures TiledOffset32(outer, innerBlock, innerDim) == TiledOffset(outer, innerBlock, innerDim)
      {
        WrapsOnce(outer, innerBlock, innerDim);
        OffsetInRange(outer, innerBlock, tiles, innerDim);
        WrapSmall(TiledOffset(outer, innerBlock, innerDim));
      }
    } else {
      FirstWrap(tiles, innerDim);
    }
  }

  /** A larger buffer has a place whose address wraps. */
  lemma FirstWrap(tiles: nat, innerDim: nat)
    requires InnerTiles(innerDim) > 0 && 128 * tiles * ScaleInner(innerDim) > TWO_TO_THE_32
    ensures exists outer: nat, innerBlock: nat ::
              outer < 128 * tiles && innerBlock < ScaleInner(innerDim) &&
              TiledOffset32(outer, innerBlock, innerDim) != TiledOffset(outer, innerBlock, innerDim)
  {
    OffsetCovers(TWO_TO_THE_32, tiles, innerDim);
    var outer, innerBlock := OuterAt(TWO_TO_THE_32, innerDim), BlockAt(TWO_TO_THE_32, innerDim);
    WrapsOnce(outer, innerBlock, innerDim);
    hide TiledOffset, TiledOffset32, ScaleInner, InnerTiles, OuterAt, BlockAt;
    assert TiledOffset(outer, innerBlock, innerDim) == TWO_TO_THE_32;
    assert TiledOffset32(outer, innerBlock, innerDim) == 0;
  }

  // ---------------------------------------------------------------- the warp butterfly

  /** The lane a butterfly step with a power-of-two mask exchanges with. */
  function Partner(lane: nat, mask: nat): nat
    requires mask > 0
  {
    if lane / mask % 2 == 0 then lane + mask else lane - mask
  }

  /** For the masks used, this is the exclusive or of the lane number and the mask. */
  lemma PartnerIsXor(lane: bv5)
    ensures (lane ^ 16) as nat == Partner(lane as nat, 16) && (lane ^ 8) as nat == Partner(lane as nat, 8)
    ensures (lane ^ 4) as nat == Partner(lane as nat, 4) && (lane ^ 2) as nat == Partner(lane as nat, 2)
    ensures (lane ^ 1) as nat == Partner(lane as nat, 1)
  {
  }

  ghost predicate Commutative<T(!new)>(op: (T, T) -> T) { forall x, y :: op(x, y) == op(y, x) }

  ghost predicate Associative<T(!new)>(op: (T, T) -> T) { forall x, y, z :: op(op(x, y), z) == op(x, op(y, z)) }

  predicate PowerOfTwo(n: nat) { n == 1 || (n > 0 && n % 2 == 0 && PowerOfTwo(n / 2)) }

  /** The lanes form whole blocks of twice the mask. */
  predicate Aligned(count: nat, mask: nat) { mask > 0 && count % (2 * mask) == 0 }

  lemma TwiceAligned(n: nat)
    requires n > 0
    ensures Aligned(n + n, n)
  {
    Euclid(1, 2 * n, 0);
  }

  lemma DoubleAligned(n: nat, mask: nat)
    requires Aligned(n, mask)
    ensures Aligned(n + n, mask)
  {
    var blocks := n / (2 * mask);
    assert n == blocks * (2 * mask);
    assert n + n == 2 * blocks * (2 * mask) + 0;
    Euclid(2 * blocks, 2 * mask, 0);
  }

  lemma PartnerInRange(lane: nat, mask: nat, count: nat)
    requires lane < count && Aligned(count, mask)
    ensures 0 <= Partner(lane, mask) < count
  {
    var blocks, block, place := count / (2 * mask), lane / (2 * mask), lane % (2 * mask);
    WholeBlocks(lane, 2 * mask, count);
    HalfOfBlock(lane, mask, block, place);
  }

  /** With whole blocks only, the block of a lane ends within the lanes. */
  lemma WholeBlocks(lane: nat, size: nat, count: nat)
    requires size > 0 && lane < count && count % size == 0
    ensures lane == lane / size * size + lane % size && lane / size * size + size <= count
    ensures count == count / size * size
  {
    var blocks, block := count / size, lane / size;
    assert count == blocks * size;
    if block >= blocks { Fewer(blocks, block, size); }
    Fewer(block + 1, blocks, size);
    assert (block + 1) * size == block * size + size;
  }

  /** In a block of twice the mask, the first half exchanges upwards and the second half downwards. */
  lemma HalfOfBlock(lane: nat, mask: nat, block: nat, place: nat)
    requires mask > 0 && lane == block * (2 * mask) + place && place < 2 * mask
    ensures lane / mask % 2 == if place < mask then 0 else 1
  {
    if place < mask {
      TwiceMask(block, mask, 0);
      Euclid(2 * block, mask, place);
    } else {
      TwiceMask(block, mask, 1);
      Euclid(2 * block + 1, mask, place - mask);
    }
  }

  lemma TwiceMask(block: nat, mask: nat, half: nat)
    requires half <= 1
    ensures (2 * block + half) * mask == block * (2 * mask) + (if half == 0 then 0 else mask)
  {
    calc {
      (2 * block + half) * mask;
      (block + block + half) * mask;
      block * mask + block * mask + half * mask;
      block * (mask + mask) + half * mask;
    }
  }

  /** One shuffle: every lane combines its value with its partner's, all lanes at once. */
  function Exchange<T>(op: (T, T) -> T, lanes: seq<T>, mask: nat): (r: seq<T>)
    requires Aligned(|lanes|, mask)
    ensures |r| == |lanes|
  {
    seq(|lanes|, lane requires 0 <= lane < |lanes| =>
      PartnerInRange(lane, mask, |lanes|); op(lanes[lane], lanes[Partner(lane, mask)]))
  }

  function Zip<T>(op: (T, T) -> T, a: seq<T>, b: seq<T>): (r: seq<T>)
    requires |a| == |b|
    ensures |r| == |a|
  {
    seq(|a|, i requires 0 <= i < |a| => op(a[i], b[i]))
  }

  /** The first shuffle leaves the same values in both halves: the two halves combined lane by lane. */
  lemma ExchangeHalves<T(!new)>(op: (T, T) -> T, a: seq<T>, b: seq<T>)
    requires Commutative(op) && |a| == |b| > 0
    ensures Aligned(|a + b|, |a|) && Exchange(op, a + b, |a|) == Zip(op, a, b) + Zip(op, a, b)
  {
    TwiceAligned(|a|);
    hide Aligned;
    var n, r := |a|, Exchange(op, a + b, |a|);
    forall lane | 0 <= lane < 2 * n ensures r[lane] == (Zip(op, a, b) + Zip(op, a, b))[lane] {
      PartnerInRange(lane, n, 2 * n);
      HalfOfBlock(lane, n, 0, lane);
      if lane < n {
        assert Partner(lane, n) == lane + n;
      } else {
        assert Partner(lane, n) == lane - n;
        assert op(b[lane - n], a[lane - n]) == op(a[lane - n], b[lane - n]);
      }
    }
  }

  /** A shuffle with a smaller mask works on both halves separately. */
  lemma ExchangeWithin<T>(op: (T, T) -> T, w: seq<T>, mask: nat)
    requires Aligned(|w|, mask)
    ensures Aligned(|w + w|, mask) && Exchange(op, w + w, mask) == Exchange(op, w, mask) + Exchange(op, w, mask)
  {
    DoubleAligned(|w|, mask);
    var n := |w|;
    var twice, once := Exchange(op, w + w, mask), Exchange(op, w, mask);
    forall lane | 0 <= lane < n ensures twice[lane] == once[lane] && twice[lane + n] == once[lane] {
      PartnerShifts(lane, mask, n);
      hide Aligned, Partner;
    }
    assert twice == once + once;
  }

  lemma PartnerShifts(lane: nat, mask: nat, n: nat)
    requires lane < n && Aligned(n, mask)
    ensures 0 <= Partner(lane, mask) < n && Partner(lane + n, mask) == Partner(lane, mask) + n
  {
    PartnerInRange(lane, mask, n);
    var block, place, blocks := lane / (2 * mask), lane % (2 * mask), n / (2 * mask);
    WholeBlocks(lane, 2 * mask, n);
    BlocksAhead(block, blocks, 2 * mask);
    HalfOfBlock(lane, mask, block, place);
    HalfOfBlock(lane + n, mask, block + blocks, place);
  }

  lemma BlocksAhead(block: nat, blocks: nat, size: nat)
    ensures (block + blocks) * size == block * size + blocks * size
  {
  }

  /** Shuffles with a mask and all its halves, in order. */
  function Butterfly<T>(op: (T, T) -> T, lanes: seq<T>, mask: nat): (r: seq<T>)
    requires PowerOfTwo(mask) && Aligned(|lanes|, mask)
    ensures |r| == |lanes|
    decreases mask
  {
    var next := Exchange(op, lanes, mask);
    if mask == 1 then next
    else
      HalfDivides(|lanes|, mask);
      Butterfly(op, next, mask / 2)
  }

  lemma HalfDivides(n: nat, mask: nat)
    requires mask > 0 && mask % 2 == 0 && Aligned(n, mask)
    ensures Aligned(n, mask / 2)
  {
    var d := n / (2 * mask);
    assert n == 2 * d * mask + 0;
    Euclid(2 * d, mask, 0);
  }

  lemma {:induction false} ButterflyWithin<T>(op: (T, T) -> T, w: seq<T>, mask: nat)
    requires PowerOfTwo(mask) && Aligned(|w|, mask)
    ensures Aligned(|w + w|, mask) && Butterfly(op, w + w, mask) == Butterfly(op, w, mask) + Butterfly(op, w, mask)
    decreases mask
  {
    ExchangeWithin(op, w, mask);
    if mask > 1 {
      HalfDivides(|w|, mask);
      ButterflyWithin(op, Exchange(op, w, mask), mask / 2);
    }
  }

  /** Halving: combine the two halves lane by lane until one value is left. */
  function Halve<T>(op: (T, T) -> T, v: seq<T>): T
    requires PowerOfTwo(|v|)
    decreases |v|
  {
    if |v| == 1 then v[0] else Halve(op, Zip(op, v[..|v| / 2], v[|v| / 2..]))
  }

  /** With a commutative operation every lane ends with the same value. */
  lemma {:induction false} EveryLaneHalves<T(!new)>(op: (T, T) -> T, v: seq<T>, mask: nat)
    requires Commutative(op) && PowerOfTwo(mask) && |v| == 2 * mask
    ensures PowerOfTwo(|v|) && Aligned(|v|, mask)
    ensures forall lane :: 0 <= lane < |v| ==> Butterfly(op, v, mask)[lane] == Halve(op, v)
    decreases mask
  {
    TwiceAligned(mask);
    var a, b := v[..mask], v[mask..];
    assert v == a + b;
    ExchangeHalves(op, a, b);
    var w := Zip(op, a, b);
    if mask == 1 {
      assert w == [Halve(op, v)];
    } else {
      EveryLaneHalves(op, w, mask / 2);
      ButterflyWithin(op, w, mask / 2);
    }
  }

  /** All values combined from left to right. */
  function Fold<T>(op: (T, T) -> T, v: seq<T>): T
    requires v != []
  {
    if |v| == 1 then v[0] else op(Fold(op, v[..|v| - 1]), v[|v| - 1])
  }

  lemma {:induction false} FoldAppend<T(!new)>(op: (T, T) -> T, a: seq<T>, b: seq<T>)
    requires Associative(op) && a != [] && b != []
    ensures Fold(op, a + b) == op(Fold(op, a), Fold(op, b))
  {
    var front := b[..|b| - 1];
    assert (a + b)[..|a + b| - 1] == a + front;
    if |b| == 1 {
      assert a + front == a;
    } else {
      FoldAppend(op, a, front);
    }
  }

  lemma {:induction false} FoldZip<T(!new)>(op: (T, T) -> T, a: seq<T>, b: seq<T>)
    requires Associative(op) && Commutative(op) && |a| == |b| > 0
    ensures Fold(op, Zip(op, a, b)) == op(Fold(op, a), Fold(op, b))
  {
    if |a| > 1 {
      var a', b' := a[..|a| - 1], b[..|b| - 1];
      assert Zip(op, a, b)[..|a| - 1] == Zip(op, a', b');
      FoldZip(op, a', b');
      Interchange(op, Fold(op, a'), Fold(op, b'), a[|a| - 1], b[|b| - 1]);
    }
  }

  lemma Interchange<T(!new)>(op: (T, T) -> T, p: T, q: T, x: T, y: T)
    requires Associative(op) && Commutative(op)
    ensures op(op(p, q), op(x, y)) == op(op(p, x), op(q, y))
  {
    assert op(op(p, q), op(x, y)) == op(p, op(q, op(x, y)));
    assert op(q, op(x, y)) == op(op(q, x), y) == op(op(x, q), y) == op(x, op(q, y));
    assert op(p, op(x, op(q, y))) == op(op(p, x), op(q, y));
  }

  /** Halving an associative and commutative operation is the fold of all values. */
  lemma {:induction false} HalveIsFold<T(!new)>(op: (T, T) -> T, v: seq<T>)
    requires Associative(op) && Commutative(op) && PowerOfTwo(|v|)
    ensures Halve(op, v) == Fold(op, v)
    decreases |v|
  {
    if |v| > 1 {
      var a, b := v[..|v| / 2], v[|v| / 2..];
      assert v == a + b;
      HalveIsFold(op, Zip(op, a, b));
      FoldZip(op, a, b);
      FoldAppend(op, a, b);
    }
  }

  lemma Lanes32()
    ensures PowerOfTwo(1) && PowerOfTwo(2) && PowerOfTwo(4) && PowerOfTwo(8) && PowerOfTwo(16) && PowerOfTwo(32)
    ensures Aligned(32, 1) && Aligned(32, 2) && Aligned(32, 4) && Aligned(32, 8) && Aligned(32, 16)
  {
    assert PowerOfTwo(1) && PowerOfTwo(2) && PowerOfTwo(4) && PowerOfTwo(8);
  }

  /** The warp reduction of the kernels, for the sum as for the maximum: with a commutative operation all 32 lanes end
      with the same value; if it is associative too, that value combines all 32 inputs. */
  method WarpReduce<T(!new)>(op: (T, T) -> T, lanes: seq<T>) returns (value: seq<T>)
    requires |lanes| == 32
    ensures |value| == 32
    ensures Commutative(op) ==> forall i, j :: 0 <= i < 32 && 0 <= j < 32 ==> value[i] == value[j]
    ensures Commutative(op) && Associative(op) ==> forall lane :: 0 <= lane < 32 ==> value[lane] == Fold(op, lanes)
  {
    value := lanes;
    value := Exchange(op, value, 16);
    value := Exchange(op, value, 8);
    value := Exchange(op, value, 4);
    value := Exchange(op, value, 2);
    value := Exchange(op, value, 1);
    assert value == Butterfly(op, lanes, 16) by { FiveSteps(op, lanes); }
    Lanes32();
    if Commutative(op) {
      EveryLaneHalves(op, lanes, 16);
      if Associative(op) { HalveIsFold(op, lanes); }
    }
  }

  lemma FiveSteps<T>(op: (T, T) -> T, lanes: seq<T>)
    requires |lanes| == 32
    ensures PowerOfTwo(16) && Aligned(32, 1) && Aligned(32, 2) && Aligned(32, 4) && Aligned(32, 8) && Aligned(32, 16)
    ensures Butterfly(op, lanes, 16)
            == Exchange(op, Exchange(op, Exchange(op, Exchange(op, Exchange(op, lanes, 16), 8), 4), 2), 1)
  {
    Lanes32();
    hide Butterfly, Exchange, Aligned, PowerOfTwo;
    var a := Exchange(op, lanes, 16);
    var b := Exchange(op, a, 8);
    var c := Exchange(op, b, 4);
    var d := Exchange(op, c, 2);
    ButterflyStep(op, lanes, 16);
    ButterflyStep(op, a, 8);
    ButterflyStep(op, b, 4);
    ButterflyStep(op, c, 2);
    LastStep(op, d);
  }

  lemma LastStep<T>(op: (T, T) -> T, lanes: seq<T>)
    requires PowerOfTwo(1) && Aligned(|lanes|, 1)
    ensures Butterfly(op, lanes, 1) == Exchange(op, lanes, 1)
  {
  }

  lemma ButterflyStep<T>(op: (T, T) -> T, lanes: seq<T>, mask: nat)
    requires PowerOfTwo(mask) && mask > 1 && Aligned(|lanes|, mask)
    ensures PowerOfTwo(mask / 2) && Aligned(|lanes|, mask / 2)
    ensures Butterfly(op, lanes, mask) == Butterfly(op, Exchange(op, lanes, mask), mask / 2)
  {
    HalfDivides(|lanes|, mask);
  }
}
