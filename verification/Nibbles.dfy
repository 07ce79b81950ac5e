/** Eight four-bit codes in one 32-bit word, the first in the lowest bits. */
module Nibbles {
  /** How far up in a word its `i`-th code stands. */
  function Shift(i: nat): (s: bv32)
    requires i < 8
    ensures s <= 28 && s & 3 == 0
  {
    if i == 0 then 0 else if i == 1 then 4 else if i == 2 then 8 else if i == 3 then 12
    else if i == 4 then 16 else if i == 5 then 20 else if i == 6 then 24 else 28
  }

  /** The four bits at shift `s`. */
  function BitsAt(w: bv32, s: bv32): (q: bv32)
    requires s <= 28
    ensures q < 16
  {
    (w >> s) & 0xF
  }

  /** A word with a code put in at shift `s`. */
  function Put(w: bv32, q: bv32, s: bv32): (r: bv32)
    requires s <= 28
  {
    w | (q << s)
  }

  predicate ClearFrom(w: bv32, s: bv32)
    requires s <= 28
  {
    w >> s == 0
  }

  function Nibble(w: bv32, i: nat): (q: bv32)
    requires i < 8
    ensures q < 16
  {
    BitsAt(w, Shift(i))
  }

  /** The first `i` of the codes, put into one word. */
  function Joined(q: seq<bv32>, i: nat): (w: bv32)
    requires i <= |q| && i <= 8
  {
    if i == 0 then 0 else Put(Joined(q, i - 1), q[i - 1], Shift(i - 1))
  }

  predicate Codes(q: seq<bv32>) {
    forall j :: 0 <= j < |q| ==> q[j] < 16
  }

  lemma ShiftGrows(i: nat, j: nat)
    requires j < i < 8
    ensures Shift(j) < Shift(i)
  {
  }

  lemma NextShift(i: nat)
    requires i < 7
    ensures Shift(i) <= 24 && Shift(i + 1) == Shift(i) + 4
  {
  }

  lemma PutOnTop(w: bv32, q: bv32, s: bv32)
    requires s <= 28 && s & 3 == 0 && ClearFrom(w, s) && q < 16
    ensures BitsAt(Put(w, q, s), s) == q
  {
  }

  lemma ClearAbove(w: bv32, q: bv32, s: bv32)
    requires s <= 24 && s & 3 == 0 && ClearFrom(w, s) && q < 16
    ensures s + 4 <= 28 && ClearFrom(Put(w, q, s), s + 4)
  {
  }

  lemma KeptBelow(w: bv32, q: bv32, s: bv32, t: bv32)
    requires t < s <= 28 && s & 3 == 0 && t & 3 == 0 && ClearFrom(w, s) && q < 16
    ensures BitsAt(Put(w, q, s), t) == BitsAt(w, t)
  {
  }

  /** Every code comes back from the word, and the bits above the codes put in so far are clear. */
  lemma {:induction false} JoinedKeepsCodes(q: seq<bv32>, i: nat)
    requires Codes(q) && i <= |q| && i <= 8
    ensures i < 8 ==> ClearFrom(Joined(q, i), Shift(i))
    ensures forall j: nat :: j < i ==> Nibble(Joined(q, i), j) == q[j]
  {
    hide Shift, BitsAt, Put, ClearFrom;
    if i == 0 {
      NothingPut(Shift(0));
    } else {
      JoinedKeepsCodes(q, i - 1);
      var w, s := Joined(q, i - 1), Shift(i - 1);
      PutOnTop(w, q[i - 1], s);
      if i < 8 {
        NextShift(i - 1);
        ClearAbove(w, q[i - 1], s);
      }
      forall j: nat | j < i - 1 ensures Nibble(Joined(q, i), j) == q[j] {
        ShiftGrows(i - 1, j);
        KeptBelow(w, q[i - 1], s, Shift(j));
      }
    }
  }

  lemma NothingPut(s: bv32)
    requires s <= 28
    ensures ClearFrom(0, s)
  {
  }

  lemma SameBits(v: bv32, w: bv32)
    requires BitsAt(v, 0) == BitsAt(w, 0) && BitsAt(v, 4) == BitsAt(w, 4) && BitsAt(v, 8) == BitsAt(w, 8)
    requires BitsAt(v, 12) == BitsAt(w, 12) && BitsAt(v, 16) == BitsAt(w, 16) && BitsAt(v, 20) == BitsAt(w, 20)
    requires BitsAt(v, 24) == BitsAt(w, 24) && BitsAt(v, 28) == BitsAt(w, 28)
    ensures v == w
  {
  }

  /** The eight codes of a word are all there is to it. */
  lemma SameCodes(v: bv32, w: bv32)
    requires forall j: nat :: j < 8 ==> Nibble(v, j) == Nibble(w, j)
    ensures v == w
  {
    hide BitsAt, Nibble;
    NibblesOf(v);
    NibblesOf(w);
    SameBits(v, w);
  }

  lemma NibblesOf(w: bv32)
    ensures Nibble(w, 0) == BitsAt(w, 0) && Nibble(w, 1) == BitsAt(w, 4) && Nibble(w, 2) == BitsAt(w, 8)
    ensures Nibble(w, 3) == BitsAt(w, 12) && Nibble(w, 4) == BitsAt(w, 16) && Nibble(w, 5) == BitsAt(w, 20)
    ensures Nibble(w, 6) == BitsAt(w, 24) && Nibble(w, 7) == BitsAt(w, 28)
  {
    hide BitsAt;
  }

  /** The codes of a word, from its lowest bits up. */
  lemma NibblesInBits(w: bv32)
    ensures Nibble(w, 0) == w & 0xF && Nibble(w, 1) == (w >> 4) & 0xF
    ensures Nibble(w, 2) == (w >> 8) & 0xF && Nibble(w, 3) == (w >> 12) & 0xF
    ensures Nibble(w, 4) == (w >> 16) & 0xF && Nibble(w, 5) == (w >> 20) & 0xF
    ensures Nibble(w, 6) == (w >> 24) & 0xF && Nibble(w, 7) == (w >> 28) & 0xF
  {
    NibblesOf(w);
    assert BitsAt(w, 0) == w & 0xF;
  }

  /** A word is the join of its own codes. */
  lemma JoinedBack(w: bv32)
    ensures Joined(seq(8, j requires 0 <= j < 8 => Nibble(w, j)), 8) == w
  {
    hide Nibble;
    var q := seq(8, j requires 0 <= j < 8 => Nibble(w, j));
    JoinedKeepsCodes(q, 8);
    SameCodes(Joined(q, 8), w);
  }

  /** The number a word's bits stand for. */
  function Value(q: bv32): (n: nat) {
    q as nat
  }

  /** A code as the bits of a word. */
  function CodeBits(code: nat): (q: bv32)
    requires code < 16
    ensures q < 16 && Value(q) == code
  {
    code as bv32
  }
}
