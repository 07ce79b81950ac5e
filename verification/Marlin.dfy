/** Packing a weight matrix for the four-bit kernel: codes of 16 rows by 64 columns to 128 words. */
module Marlin {
  import opened Alignment
  import opened MarlinLayout
  import opened Nibbles

  // ---- from a matrix of codes to a matrix of words ----

  /** A matrix of `16 h` by `64 w` elements, taken tile by tile: 16 by 16, along the rows of tiles. */
  function Tiled<T>(q: seq<seq<T>>, h: nat, w: nat): (s: seq<T>)
    requires Rect(q, 16 * h, 64 * w)
    ensures |s| == 1024 * (h * w)
  {
    seq(1024 * (h * w), f requires 0 <= f < 1024 * (h * w) =>
      TilePlace(h, w, f);
      q[f / 256 / (4 * w) * 16 + f % 256 / 16][f / 256 % (4 * w) * 16 + f % 16])
  }

  /** Each stretch of four tiles, gathered in the order of `perm`. */
  function Permuted<T>(s: seq<T>, perm: seq<nat>): (p: seq<T>)
    requires |s| % 1024 == 0 && |perm| == 1024 && forall y :: 0 <= y < 1024 ==> perm[y] < 1024
    ensures |p| == |s|
  {
    seq(|s|, f requires 0 <= f < |s| => s[f / 1024 * 1024 + perm[f % 1024]])
  }

  /** An element of the tiled matrix: of strip `a` of rows, in the `g`-th four tiles, entry `v` of these. */
  lemma TileOfEntry(h: nat, w: nat, a: nat, g: nat, v: nat)
    requires a < h && g < w && v < 1024
    ensures var f := 1024 * (a * w + g) + v;
            && f < 1024 * (h * w) && 0 < 4 * w && f / 256 / (4 * w) == a && f / 256 % (4 * w) == 4 * g + v / 256
            && f % 256 / 16 == v / 16 % 16 && f % 16 == v % 16
            && f / 1024 == a * w + g && f % 1024 == v
  {
    var f := 1024 * (a * w + g) + v;
    var j, row, col := v / 256, v / 16 % 16, v % 16;
    assert v == 256 * j + 16 * row + col;
    StripWithin(h, w, a, g);
    Divided(a * w + g, 1024, v);
    Divided(4 * (a * w + g) + j, 256, 16 * row + col);
    FourTiles(w, a, g, j);
    Divided(64 * (a * w + g) + 16 * j + row, 16, col);
    Divided(row, 16, col);
  }

  lemma StripWithin(h: nat, w: nat, a: nat, g: nat)
    requires a < h && g < w
    ensures a * w + g < h * w
  {
    assert (a + 1) * w <= h * w;
  }

  lemma FourTiles(w: nat, a: nat, g: nat, j: nat)
    requires g < w && j < 4
    ensures (4 * (a * w + g) + j) / (4 * w) == a && (4 * (a * w + g) + j) % (4 * w) == 4 * g + j
  {
    Divided(a, 4 * w, 4 * g + j);
    assert a * (4 * w) == 4 * (a * w);
  }

  lemma TilePlace(h: nat, w: nat, f: nat)
    requires f < 1024 * (h * w)
    ensures 0 < 4 * w
    ensures 0 <= f / 256 / (4 * w) * 16 + f % 256 / 16 < 16 * h && 0 <= f / 256 % (4 * w) * 16 + f % 16 < 64 * w
  {
    var s, v := f / 1024, f % 1024;
    StripOf(s, h, w);
    TileOfEntry(h, w, s / w, s % w, v);
  }

  lemma StripOf(s: nat, h: nat, w: nat)
    requires s < h * w
    ensures w > 0 && 0 <= s / w < h && 0 <= s % w < w && s == s / w * w + s % w
  {
    assert w > 0;
    assert s / w * w <= s;
    Below(s / w, h, w);
  }

  /** The gathering order of four tiles. */
  function PermSeq(): (perm: seq<nat>)
    ensures |perm| == 1024 && forall y :: 0 <= y < 1024 ==> perm[y] == PermAt(y) && perm[y] < 1024
  {
    seq(1024, y requires 0 <= y < 1024 => GatheredFromPlace(y); PermAt(y))
  }

  /** The codes of a matrix in the order in which they go into words, eight at a time. */
  function Ordered<T>(q: seq<seq<T>>, h: nat, w: nat): (p: seq<T>)
    requires Rect(q, 16 * h, 64 * w)
    ensures |p| == 1024 * (h * w)
  {
    Permuted(Tiled(q, h, w), PermSeq())
  }

  /** Where the codes of a word start in that order. */
  function FirstOf(w: nat, a: nat, c: nat): (first: nat) {
    8 * (a * (128 * w) + c)
  }

  lemma WordWithin(h: nat, w: nat, a: nat, c: nat)
    requires a < h && c < 128 * w
    ensures FirstOf(w, a, c) + 8 <= 1024 * (h * w)
    ensures FirstOf(w, a, c) == 1024 * (a * w + c / 128) + 8 * (c % 128)
  {
    assert a * (128 * w) == 128 * (a * w);
    StripWithin(h, w, a, c / 128);
  }

  /** The eight codes of word `c` in the `a`-th row of words, of the `128 w` words in a row. */
  function EightOf<T>(p: seq<T>, h: nat, w: nat, a: nat, c: nat): (eight: seq<T>)
    requires |p| == 1024 * (h * w) && a < h && c < 128 * w
    ensures |eight| == 8
  {
    WordWithin(h, w, a, c);
    p[FirstOf(w, a, c)..FirstOf(w, a, c) + 8]
  }

  function PackedWord(q: seq<seq<bv32>>, h: nat, w: nat, a: nat, c: nat): (word: bv32)
    requires Rect(q, 16 * h, 64 * w) && a < h && c < 128 * w
  {
    Joined(EightOf(Ordered(q, h, w), h, w, a, c), 8)
  }

  // ---- where each code goes, and where each code of a word comes from ----

  /** The row and the column of the matrix that code `i` of word `c`, of row `a` of words, comes from. */
  function CodeRow(a: nat, c: nat, i: nat): (row: nat) {
    16 * a + PermAt(8 * (c % 128) + i) / 16 % 16
  }

  function CodeCol(c: nat, i: nat): (col: nat) {
    hide PermAt;
    var v := PermAt(8 * (c % 128) + i);
    64 * (c / 128) + 16 * (v / 256) + v % 16
  }

  function PlaceIn(row: nat, col: nat): (y: nat) {
    PlaceOf(col % 64 / 16, row % 16, col % 16)
  }

  /** The word, in row `row / 16` of words, that the code of an element goes into. */
  function WordCol(row: nat, col: nat): (c: nat) {
    hide PlaceIn;
    128 * (col / 64) + PlaceIn(row, col) / 8
  }

  /** And which of the word's eight codes it is. */
  function Slot(row: nat, col: nat): (i: nat)
    ensures i < 8
  {
    PlaceIn(row, col) % 8
  }

  /** Every element's code has a slot of its own: the slot leads back to the element. */
  lemma SlotHoldsElement(row: nat, col: nat)
    ensures CodeRow(row / 16, WordCol(row, col), Slot(row, col)) == row
    ensures CodeCol(WordCol(row, col), Slot(row, col)) == col
    ensures forall w: nat :: col < 64 * w ==> WordCol(row, col) < 128 * w
  {
    hide PermAt, PlaceOf;
    var tile, r, c := col % 64 / 16, row % 16, col % 16;
    var y := PlaceIn(row, col);
    PlaceGathers(tile, r, c);
    Divided(col / 64, 128, y / 8);
    EntryHasParts(tile, r, c);
    assert y == 8 * (y / 8) + y % 8;
    assert col == 64 * (col / 64) + 16 * tile + c;
  }

  /** Every slot of every word holds the code of one element of the matrix: that element's slot it is. */
  lemma ElementOfSlot(a: nat, c: nat, i: nat)
    requires i < 8
    ensures CodeRow(a, c, i) / 16 == a && WordCol(CodeRow(a, c, i), CodeCol(c, i)) == c
    ensures Slot(CodeRow(a, c, i), CodeCol(c, i)) == i
  {
    hide PermAt, PlaceOf;
    var y := 8 * (c % 128) + i;
    GatheredFromPlace(y);
    var v := PermAt(y);
    Divided(a, 16, v / 16 % 16);
    EntryInColumns(c / 128, v / 256, v % 16);
    Divided(c % 128, 8, i);
  }

  lemma EntryInColumns(g: nat, tile: nat, col: nat)
    requires tile < 4 && col < 16
    ensures var x := 64 * g + 16 * tile + col; x / 64 == g && x % 64 / 16 == tile && x % 16 == col
  {
    Divided(g, 64, 16 * tile + col);
    Divided(tile, 16, col);
    Divided(4 * g + tile, 16, col);
  }

  /** Entry `v` of the `g`-th four tiles in strip `a` of rows. */
  function EntryAt<T>(q: seq<seq<T>>, h: nat, w: nat, a: nat, g: nat, v: nat): (x: T)
    requires Rect(q, 16 * h, 64 * w) && a < h && g < w && v < 1024
  {
    q[16 * a + v / 16 % 16][64 * g + 16 * (v / 256) + v % 16]
  }

  lemma TiledHolds<T>(q: seq<seq<T>>, h: nat, w: nat, a: nat, g: nat, v: nat)
    requires Rect(q, 16 * h, 64 * w) && a < h && g < w && v < 1024
    ensures a * w + g < h * w
    ensures Tiled(q, h, w)[1024 * (a * w + g) + v] == EntryAt(q, h, w, a, g, v)
  {
    TileOfEntry(h, w, a, g, v);
  }

  lemma PermutedHolds<T>(s: seq<T>, perm: seq<nat>, t: nat, y: nat)
    requires |s| % 1024 == 0 && |perm| == 1024 && forall y :: 0 <= y < 1024 ==> perm[y] < 1024
    requires 1024 * t < |s| && y < 1024
    ensures Permuted(s, perm)[1024 * t + y] == s[1024 * t + perm[y]]
  {
    Divided(t, 1024, y);
  }

  lemma EntryInside(h: nat, w: nat, a: nat, g: nat, v: nat)
    requires a < h && g < w && v < 1024
    ensures 16 * a + v / 16 % 16 < 16 * h && 64 * g + 16 * (v / 256) + v % 16 < 64 * w
  {
  }

  lemma WordPlace(w: nat, c: nat, i: nat)
    requires c < 128 * w && i < 8
    ensures c / 128 < w && 8 * (c % 128) + i < 1024
  {
  }

  lemma CodeInside(h: nat, w: nat, a: nat, c: nat, i: nat)
    requires a < h && c < 128 * w && i < 8
    ensures CodeRow(a, c, i) < 16 * h && CodeCol(c, i) < 64 * w
  {
    hide PermAt;
    WordPlace(w, c, i);
    GatheredFromPlace(8 * (c % 128) + i);
    EntryInside(h, w, a, c / 128, PermAt(8 * (c % 128) + i));
  }

  lemma EntryIsCode<T>(q: seq<seq<T>>, h: nat, w: nat, a: nat, c: nat, i: nat)
    requires Rect(q, 16 * h, 64 * w) && a < h && c < 128 * w && i < 8
    requires CodeRow(a, c, i) < 16 * h && CodeCol(c, i) < 64 * w
    ensures c / 128 < w && PermAt(8 * (c % 128) + i) < 1024
    ensures EntryAt(q, h, w, a, c / 128, PermAt(8 * (c % 128) + i)) == q[CodeRow(a, c, i)][CodeCol(c, i)]
  {
    hide Gathered;
    WordPlace(w, c, i);
    GatheredFromPlace(8 * (c % 128) + i);
  }

  /** Code `i` of a word's eight, before they are joined. */
  lemma OrderedHolds<T>(q: seq<seq<T>>, h: nat, w: nat, a: nat, c: nat, i: nat)
    requires Rect(q, 16 * h, 64 * w) && a < h && c < 128 * w && i < 8
    ensures CodeRow(a, c, i) < 16 * h && CodeCol(c, i) < 64 * w
    ensures EightOf(Ordered(q, h, w), h, w, a, c)[i] == q[CodeRow(a, c, i)][CodeCol(c, i)]
  {
    hide PermAt, Ordered, EightOf, CodeRow, CodeCol, EntryAt;
    WordPlace(w, c, i);
    CodeInside(h, w, a, c, i);
    EightOfAt(Ordered(q, h, w), h, w, a, c, i);
    OrderedAt(q, h, w, a, c / 128, 8 * (c % 128) + i);
    EntryIsCode(q, h, w, a, c, i);
  }

  lemma EightOfAt<T>(p: seq<T>, h: nat, w: nat, a: nat, c: nat, i: nat)
    requires |p| == 1024 * (h * w) && a < h && c < 128 * w && i < 8
    ensures a * w + c / 128 < h * w
    ensures EightOf(p, h, w, a, c)[i] == p[1024 * (a * w + c / 128) + (8 * (c % 128) + i)]
  {
    WordWithin(h, w, a, c);
  }

  /** Entry `y` of a strip of four tiles is element `v` of the strip. */
  ghost predicate StripHolds<T>(p: seq<T>, q: seq<seq<T>>, h: nat, w: nat, a: nat, g: nat, y: nat, v: nat)
  {
    && Rect(q, 16 * h, 64 * w) && a < h && g < w && y < 1024 && v < 1024
    && a * w + g < h * w && |p| == 1024 * (h * w)
    && p[1024 * (a * w + g) + y] == EntryAt(q, h, w, a, g, v)
  }

  lemma OrderedAt<T>(q: seq<seq<T>>, h: nat, w: nat, a: nat, g: nat, y: nat)
    requires Rect(q, 16 * h, 64 * w) && a < h && g < w && y < 1024
    ensures StripHolds(Ordered(q, h, w), q, h, w, a, g, y, PermAt(y))
  {
    hide PermAt, Tiled, Permuted, EntryAt;
    var v := PermSeq()[y];
    StripWithin(h, w, a, g);
    PermutedHolds(Tiled(q, h, w), PermSeq(), a * w + g, y);
    assert Ordered(q, h, w)[1024 * (a * w + g) + y] == Tiled(q, h, w)[1024 * (a * w + g) + v];
    TiledHolds(q, h, w, a, g, v);
  }

  /** Unpacking: the code of every element comes back from its slot. */
  lemma CodeComesBack(q: seq<seq<bv32>>, h: nat, w: nat, row: nat, col: nat)
    requires Rect(q, 16 * h, 64 * w) && (forall r :: 0 <= r < |q| ==> Codes(q[r]))
    requires row < 16 * h && col < 64 * w
    ensures row / 16 < h && WordCol(row, col) < 128 * w
    ensures Nibble(PackedWord(q, h, w, row / 16, WordCol(row, col)), Slot(row, col)) == q[row][col]
  {
    hide Ordered, Joined, Nibble, CodeRow, CodeCol, WordCol, Slot;
    SlotHoldsElement(row, col);
    WordHoldsCodes(q, h, w, row / 16, WordCol(row, col), Slot(row, col));
  }

  lemma WordHoldsCodes(q: seq<seq<bv32>>, h: nat, w: nat, a: nat, c: nat, i: nat)
    requires Rect(q, 16 * h, 64 * w) && (forall r :: 0 <= r < |q| ==> Codes(q[r]))
    requires a < h && c < 128 * w && i < 8
    ensures CodeRow(a, c, i) < 16 * h && CodeCol(c, i) < 64 * w
    ensures Nibble(PackedWord(q, h, w, a, c), i) == q[CodeRow(a, c, i)][CodeCol(c, i)]
  {
    hide EightOf, Ordered, Joined, Nibble, CodeRow, CodeCol;
    var eight := EightOf(Ordered(q, h, w), h, w, a, c);
    forall j: nat | j < 8 ensures eight[j] < 16 {
      OrderedHolds(q, h, w, a, c, j);
    }
    JoinedKeepsCodes(eight, 8);
    OrderedHolds(q, h, w, a, c, i);
  }

  /** The codes that a matrix of words holds, at the places they are packed from. */
  function Unpacked(p: seq<seq<bv32>>, h: nat, w: nat): (q: seq<seq<bv32>>)
    requires Rect(p, h, 128 * w)
    ensures Rect(q, 16 * h, 64 * w) && forall r :: 0 <= r < |q| ==> Codes(q[r])
  {
    seq(16 * h, r requires 0 <= r < 16 * h =>
      seq(64 * w, c requires 0 <= c < 64 * w =>
        SlotHoldsElement(r, c);
        Nibble(p[r / 16][WordCol(r, c)], Slot(r, c))))
  }

  /** Repacking: every word is the word packed from the codes it holds, so packing loses and adds nothing. */
  lemma WordComesBack(p: seq<seq<bv32>>, h: nat, w: nat, a: nat, c: nat)
    requires Rect(p, h, 128 * w) && a < h && c < 128 * w
    ensures PackedWord(Unpacked(p, h, w), h, w, a, c) == p[a][c]
  {
    hide PackedWord, Nibble, CodeRow, CodeCol, WordCol, Slot;
    var q := Unpacked(p, h, w);
    forall i: nat | i < 8 ensures Nibble(PackedWord(q, h, w, a, c), i) == Nibble(p[a][c], i) {
      WordHoldsCodes(q, h, w, a, c, i);
      ElementOfSlot(a, c, i);
    }
    SameCodes(PackedWord(q, h, w, a, c), p[a][c]);
  }

  // ---- packing block by block ----

  /** Columns `start` to `end` of a matrix. */
  function Columns<T>(m: seq<seq<T>>, start: nat, end: nat): (b: seq<seq<T>>)
    requires start <= end && forall r :: 0 <= r < |m| ==> end <= |m[r]|
    ensures Rect(b, |m|, end - start)
  {
    seq(|m|, r requires 0 <= r < |m| => m[r][start..end])
  }

  /** The words of a block of whole strips of 64 columns are the whole matrix's, from word `128 s` on. */
  lemma BlockWords(q: seq<seq<bv32>>, h: nat, w: nat, s: nat, e: nat, a: nat, c: nat)
    requires Rect(q, 16 * h, 64 * w) && s <= e <= w && a < h && c < 128 * (e - s)
    ensures PackedWord(Columns(q, 64 * s, 64 * e), h, e - s, a, c) == PackedWord(q, h, w, a, 128 * s + c)
  {
    hide EightOf, Ordered, Joined, CodeRow, CodeCol;
    var b := Columns(q, 64 * s, 64 * e);
    var x, y := EightOf(Ordered(b, h, e - s), h, e - s, a, c), EightOf(Ordered(q, h, w), h, w, a, 128 * s + c);
    forall i: nat | i < 8 ensures x[i] == y[i] {
      OrderedHolds(b, h, e - s, a, c, i);
      OrderedHolds(q, h, w, a, 128 * s + c, i);
      CodesShift(a, c, s, i);
    }
    assert x == y;
  }

  lemma CodesShift(a: nat, c: nat, s: nat, i: nat)
    ensures CodeRow(a, 128 * s + c, i) == CodeRow(a, c, i) && CodeCol(128 * s + c, i) == 64 * s + CodeCol(c, i)
  {
    hide PermAt;
    Divided(s + c / 128, 128, c % 128);
  }
}
