/** Work request ids: a sequence number, a queue pair index and a direction packed into 64 bits. */
module Wrids {

  // The number of values of a 64-bit word.
  const WORD := 0x1_0000_0000_0000_0000
  const QP_LIMIT := 0x10_0000
  const SEQNUM_LIMIT := 0x800_0000_0000

  // Bitwise or.
  function Or(x: nat, y: nat): nat
    decreases x + y
  {
    if x == 0 then y
    else if y == 0 then x
    else 2 * Or(x / 2, y / 2) + if x % 2 == 1 || y % 2 == 1 then 1 else 0
  }

  // Shift left within a word.
  function ShiftLeft(x: nat, factor: nat): nat {
    x * factor % WORD
  }

  datatype InternalWrid = InternalWrid(seqnum: nat, qpIdx: nat, isOut: bool)

  function Encode(w: InternalWrid): nat {
    Or(Or(ShiftLeft(w.seqnum, 0x20_0000), ShiftLeft(w.qpIdx, 2)), if w.isOut then 1 else 0)
  }

  function Decode(wrid: nat): InternalWrid {
    var rest := wrid / 2;
    InternalWrid(rest / QP_LIMIT, rest % QP_LIMIT, wrid % 2 == 1)
  }

  function Pow2(k: nat): (p: nat)
    ensures p > 0
  {
    if k == 0 then 1 else 2 * Pow2(k - 1)
  }

  // Bit k of a number.
  ghost predicate Bit(x: nat, k: nat) {
    if k == 0 then x % 2 == 1 else Bit(x / 2, k - 1)
  }

  lemma {:induction false} NoBits(k: nat)
    ensures !Bit(0, k)
  {
    if k > 0 {
      NoBits(k - 1);
    }
  }

  /** Each bit is set in the result if and only if it is in one of the two. */
  lemma {:induction false} OrBits(x: nat, y: nat, k: nat)
    ensures Bit(Or(x, y), k) <==> Bit(x, k) || Bit(y, k)
    decreases k
  {
    NoBits(k);
    if x != 0 && y != 0 && k > 0 {
      OrBits(x / 2, y / 2, k - 1);
    }
  }

  lemma {:induction false} OrBelow(x: nat, y: nat, k: nat)
    requires x < Pow2(k) && y < Pow2(k)
    ensures Or(x, y) < Pow2(k)
    decreases k
  {
    if x != 0 && y != 0 {
      OrBelow(x / 2, y / 2, k - 1);
    }
  }

  // Numbers without common bits: or is addition.
  lemma {:induction false} OrDisjoint(x: nat, y: nat, k: nat)
    requires y < Pow2(k)
    ensures Or(x * Pow2(k), y) == x * Pow2(k) + y
    decreases k
  {
    if k > 0 && x != 0 && y != 0 {
      OrDisjoint(x, y / 2, k - 1);
      Doubled(x * Pow2(k - 1), y, x * Pow2(k));
    }
  }

  lemma Doubled(half: nat, y: nat, whole: nat)
    requires whole == 2 * half && Or(half, y / 2) == half + y / 2
    ensures Or(whole, y) == whole + y
  {
  }

  lemma Pow2Plus8(k: nat)
    ensures Pow2(k + 8) == 0x100 * Pow2(k)
  {
    assert Pow2(k + 2) == 4 * Pow2(k);
    assert Pow2(k + 4) == 4 * Pow2(k + 2);
    assert Pow2(k + 6) == 4 * Pow2(k + 4);
    assert Pow2(k + 8) == 4 * Pow2(k + 6);
  }

  lemma Powers()
    ensures Pow2(1) == 2 && Pow2(21) == 0x20_0000 && Pow2(64) == WORD
  {
    assert Pow2(2) == 4;
    assert Pow2(5) == 8 * Pow2(2);
    assert Pow2(0) == 1;
    hide Pow2;
    Pow2Plus8(5);
    Pow2Plus8(13);
    Pow2Plus8(0);
    Pow2Plus8(8);
    Pow2Plus8(16);
    Pow2Plus8(24);
    Pow2Plus8(32);
    Pow2Plus8(40);
    Pow2Plus8(48);
    Pow2Plus8(56);
  }

  lemma EncodeIsSum(w: InternalWrid)
    requires w.qpIdx < QP_LIMIT && w.seqnum < SEQNUM_LIMIT
    ensures Encode(w) == w.seqnum * 0x20_0000 + w.qpIdx * 2 + if w.isOut then 1 else 0
  {
    hide Or, Pow2;
    Powers();
    OrDisjoint(w.seqnum, w.qpIdx * 2, 21);
    var half := w.seqnum * 0x10_0000 + w.qpIdx;
    OrDisjoint(half, if w.isOut then 1 else 0, 1);
  }

  lemma EncodeIsWord(w: InternalWrid)
    ensures Encode(w) < WORD
  {
    hide Or, Pow2;
    Powers();
    OrBelow(ShiftLeft(w.seqnum, 0x20_0000), ShiftLeft(w.qpIdx, 2), 64);
    OrBelow(Or(ShiftLeft(w.seqnum, 0x20_0000), ShiftLeft(w.qpIdx, 2)), if w.isOut then 1 else 0, 64);
  }

  /** An id comes back intact exactly if the index fits in 20 bits and the sequence number in 43. */
  lemma RoundTripIff(w: InternalWrid)
    ensures Decode(Encode(w)) == w <==> w.qpIdx < QP_LIMIT && w.seqnum < SEQNUM_LIMIT
  {
    hide Encode;
    if w.qpIdx < QP_LIMIT && w.seqnum < SEQNUM_LIMIT {
      EncodeIsSum(w);
    } else {
      EncodeIsWord(w);
    }
  }

  /** Every word is the encoding of what it decodes to. */
  lemma DecodeThenEncode(wrid: nat)
    requires wrid < WORD
    ensures Encode(Decode(wrid)) == wrid
  {
    hide Encode;
    EncodeIsSum(Decode(wrid));
  }
}
