/** The 32-bit ready bitmap as a word of binary digits, and the set of levels it stands for. */
module Bitmap {
  predicate Bit(w: nat, n: nat) {
    if n == 0 then w % 2 == 1 else Bit(w / 2, n - 1)
  }

  /** `w | (1u << n)`, digit by digit. */
  function Or(w: nat, n: nat): nat {
    if n == 0 then w / 2 * 2 + 1 else Or(w / 2, n - 1) * 2 + w % 2
  }

  /** `w & ~(1u << n)`, digit by digit. */
  function AndNot(w: nat, n: nat): nat {
    if n == 0 then w / 2 * 2 else AndNot(w / 2, n - 1) * 2 + w % 2
  }

  /** Significant digits, so that `__builtin_clz(w)` is `32 - Length(w)` for a 32-bit word. */
  function Length(w: nat): nat {
    if w == 0 then 0 else 1 + Length(w / 2)
  }

  function CountLeadingZeros(w: nat): nat
    requires Length(w) <= 32
  {
    32 - Length(w)
  }

  /** The levels whose bit is set. */
  function Levels(w: nat): set<nat> {
    set n: nat | n < 32 && Bit(w, n)
  }

  lemma {:induction false} OrSetsOneBit(w: nat, p: nat, n: nat)
    ensures Bit(Or(w, p), n) <==> n == p || Bit(w, n)
  {
    if p > 0 && n > 0 { OrSetsOneBit(w / 2, p - 1, n - 1); }
  }

  lemma {:induction false} AndNotClearsOneBit(w: nat, p: nat, n: nat)
    ensures Bit(AndNot(w, p), n) <==> n != p && Bit(w, n)
  {
    if p > 0 && n > 0 { AndNotClearsOneBit(w / 2, p - 1, n - 1); }
  }

  /** Setting and clearing a bit below 32 keeps the word in 32 bits. */
  lemma {:induction false} StaysAWord(w: nat, p: nat, width: nat)
    requires Length(w) <= width && p < width
    ensures Length(Or(w, p)) <= width && Length(AndNot(w, p)) <= width
  {
    if p > 0 {
      StaysAWord(w / 2, p - 1, width - 1);
      assert Or(w, p) / 2 == Or(w / 2, p - 1) && AndNot(w, p) / 2 == AndNot(w / 2, p - 1);
    }
  }

  /** `ready_bitmap |= (1u << p)` adds exactly level p. */
  lemma OrAddsLevel(w: nat, p: nat)
    requires p < 32
    ensures Levels(Or(w, p)) == Levels(w) + {p}
  {
    forall n: nat { OrSetsOneBit(w, p, n); }
  }

  /** `ready_bitmap &= ~(1u << p)` removes exactly level p. */
  lemma AndNotRemovesLevel(w: nat, p: nat)
    requires p < 32
    ensures Levels(AndNot(w, p)) == Levels(w) - {p}
  {
    forall n: nat { AndNotClearsOneBit(w, p, n); }
  }

  lemma {:induction false} ZeroIsClear(n: nat)
    ensures !Bit(0, n)
  {
    if n > 0 { ZeroIsClear(n - 1); }
  }

  lemma {:induction false} LengthIsTopBit(w: nat)
    requires w != 0
    ensures Bit(w, Length(w) - 1)
    ensures forall n: nat :: Length(w) <= n ==> !Bit(w, n)
  {
    if w == 1 {
      forall n: nat | 1 <= n ensures !Bit(w, n) { ZeroIsClear(n - 1); }
    } else {
      LengthIsTopBit(w / 2);
      forall n: nat | Length(w) <= n ensures !Bit(w, n) { assert !Bit(w / 2, n - 1); }
    }
  }

  /** The scan of the levels below `n`, highest first, that the bitmap replaces; 0 when none is set. */
  function Highest(levels: set<nat>, n: nat): (h: nat)
    ensures (exists l :: l in levels && l < n) ==> h in levels && h < n
    ensures forall l :: l in levels && l < n ==> l <= h
  {
    if n == 0 then 0 else if n - 1 in levels then n - 1 else Highest(levels, n - 1)
  }

  /** `31 - clz(w)` agrees with the scan of all 32 levels. */
  lemma ClzIsLinearScan(w: nat)
    requires w != 0 && Length(w) <= 32
    ensures 31 - CountLeadingZeros(w) == Highest(Levels(w), 32)
  {
    LengthIsTopBit(w);
    var top: nat := Length(w) - 1;
    assert top in Levels(w);
    assert forall n :: n in Levels(w) ==> n <= top;
  }
}
