/** How a body is cut into parts and a download into ranges
    (src/client.rs:274-301 and 382-403). */
module Split {
  import opened Arith
  import opened Wrappers
  import opened Pool

  newtype byte = x: int | 0 <= x < 256
  type Bytes = seq<byte>

  const I32_MAX: nat := 0x7FFF_FFFF
  const I64_MAX: nat := 0x7FFF_FFFF_FFFF_FFFF

  function Min(a: nat, b: nat): nat { if a < b then a else b }

  /** `total.div_ceil(size)`. */
  function DivCeil(total: nat, size: nat): nat
    requires size > 0
  {
    if total % size > 0 then total / size + 1 else total / size
  }

  function Lo(i: nat, size: nat): nat { i * size }

  function Hi(i: nat, size: nat, total: nat): nat { Min(Lo(i, size) + size, total) }

  /** A piece count of at most `k` means a total of at most `k` full pieces. */
  lemma PieceCount(total: nat, size: nat, k: nat)
    requires size > 0
    ensures DivCeil(total, size) <= k <==> total <= k * size
  {
    var q := total / size;
    assert total == q * size + total % size;
    if q < k {
      MulMono(q + 1, k, size);
      assert (q + 1) * size == q * size + size;
    } else {
      MulMono(k, q, size);
      if q > k {
        MulMono(k + 1, q, size);
        assert (k + 1) * size == k * size + size;
      }
    }
  }

  /** Every piece is non-empty and inside the body; all but the last are exactly
      `size` long; each ends where the next begins and the last ends the body. */
  lemma PieceBounds(total: nat, size: nat, i: nat)
    requires size > 0 && i < DivCeil(total, size)
    ensures Lo(i, size) < Hi(i, size, total) <= total
    ensures i + 1 < DivCeil(total, size) ==>
      Hi(i, size, total) == Lo(i + 1, size) && Hi(i, size, total) - Lo(i, size) == size
    ensures i + 1 == DivCeil(total, size) ==>
      Hi(i, size, total) == total && total - Lo(i, size) <= size
  {
    PieceCount(total, size, i);
    PieceCount(total, size, i + 1);
    assert (i + 1) * size == i * size + size;
  }

  /** No gap and no overlap: position `p` is in piece `i` exactly when `i` is `p / size`. */
  lemma PieceOf(total: nat, size: nat, p: nat, i: nat)
    requires size > 0 && p < total
    ensures p / size < DivCeil(total, size)
    ensures Lo(i, size) <= p < Hi(i, size, total) <==> i == p / size
  {
    var q := p / size;
    assert p == q * size + p % size;
    PieceCount(total, size, q);
    assert (i + 1) * size == i * size + size;
    if i < q {
      MulMono(i + 1, q, size);
    } else if i > q {
      MulMono(q + 1, i, size);
      assert (q + 1) * size == q * size + size;
    }
  }

  function Slice(body: Bytes, size: nat, i: nat): Bytes
    requires size > 0 && i < DivCeil(|body|, size)
  {
    PieceBounds(|body|, size, i);
    body[Lo(i, size)..Hi(i, size, |body|)]
  }

  function Slices(body: Bytes, size: nat): seq<Bytes>
    requires size > 0
  {
    seq(DivCeil(|body|, size), i requires 0 <= i < DivCeil(|body|, size) => Slice(body, size, i))
  }

  function Concat(parts: seq<Bytes>): Bytes {
    if parts == [] then [] else Concat(parts[..|parts| - 1]) + parts[|parts| - 1]
  }

  lemma {:induction false} PrefixTiles(body: Bytes, size: nat, k: nat)
    requires size > 0 && k <= DivCeil(|body|, size)
    ensures k * size <= |body| || k == DivCeil(|body|, size)
    ensures Concat(Slices(body, size)[..k]) == body[..Min(k * size, |body|)]
  {
    PieceCount(|body|, size, k);
    if k == 0 {
      assert Slices(body, size)[..0] == [];
    } else {
      PrefixTiles(body, size, k - 1);
      PieceBounds(|body|, size, k - 1);
      assert k * size == (k - 1) * size + size;
      var ps := Slices(body, size);
      assert ps[..k][..k - 1] == ps[..k - 1];
      assert ps[..k][k - 1] == Slice(body, size, k - 1);
    }
  }

  /** The pieces, in order, are the body. */
  lemma Tiling(body: Bytes, size: nat)
    requires size > 0
    ensures Concat(Slices(body, size)) == body
  {
    var n := DivCeil(|body|, size);
    PrefixTiles(body, size, n);
    PieceCount(|body|, size, n);
    assert Slices(body, size)[..n] == Slices(body, size);
  }

  // ---------- byte ranges ----------

  /** `bytes=first-last` (section 14.1.2 of RFC 9110): both ends inclusive, the
      last clipped to the representation, unsatisfiable from its end on. */
  function RangeOf(data: Bytes, first: nat, last: nat): Option<Bytes> {
    if first >= |data| || last < first then None else Some(data[first..Min(last + 1, |data|)])
  }

  /** The header the client writes denotes exactly the half-open piece, and its
      saturating subtraction never saturates. */
  lemma RangeDenotesPiece(data: Bytes, size: nat, i: nat)
    requires size > 0 && i < DivCeil(|data|, size)
    ensures SaturatingSub(Hi(i, size, |data|), 1) == Hi(i, size, |data|) - 1
    ensures RangeOf(data, Lo(i, size), SaturatingSub(Hi(i, size, |data|), 1)) == Some(Slice(data, size, i))
  {
    PieceBounds(|data|, size, i);
  }

  // ---------- machine arithmetic ----------

  function MulWrap(a: nat, b: nat): nat { a * b % U64 }
  function AddWrap(a: nat, b: nat): nat { (a + b) % U64 }

  function MachineLo(i: nat, size: nat): nat { MulWrap(i, size) }
  function MachineHi(i: nat, size: nat, total: nat): nat { Min(AddWrap(MachineLo(i, size), size), total) }

  /** The cast `n as i32`. */
  function AsI32(n: nat): int {
    if n % U32 <= I32_MAX then n % U32 else n % U32 - U32
  }

  /** The part number of job `i`, `(i + 1) as i32`. */
  function PartNumber(i: nat): int { AsI32(i + 1) }

  /** 64-bit wrap-around never happens while cutting: for every object of at
      most 2^63-1 bytes and every `usize` chunk size the machine's bounds are
      the mathematical ones. */
  lemma MachineArithmeticExact(total: nat, size: usize, i: nat)
    requires total <= I64_MAX && size > 0 && i < DivCeil(total, size)
    ensures DivCeil(total, size) < U64
    ensures MachineLo(i, size) == Lo(i, size) && MachineHi(i, size, total) == Hi(i, size, total)
  {
    PieceBounds(total, size, i);
    if i != 0 {
      MulMono(1, i, size);
    }
    MulMono(1, size, total);
    PieceCount(total, size, total);
    SmallMod(Lo(i, size));
    SmallMod(Lo(i, size) + size);
  }

  lemma SmallMod(x: nat)
    requires x < U64
    ensures x % U64 == x
  {
  }

  /** Part numbers survive the cast for every part exactly when there
      are at most 2^31-1 of them, that is, up to that many full chunks. */
  lemma PartNumbersExactIff(total: nat, size: nat)
    requires size > 0
    ensures (forall i :: 0 <= i < DivCeil(total, size) ==> PartNumber(i) == i + 1) <==> total <= I32_MAX * size
  {
    PieceCount(total, size, I32_MAX);
    if DivCeil(total, size) > I32_MAX {
      assert PartNumber(I32_MAX) == -0x8000_0000;
    }
  }
}
