/** Quantising and packing a weight matrix, a block of 1024 columns at a time. */
module MarlinPacking {
  import opened Alignment
  import opened Marlin
  import opened MarlinLayout
  import opened Nibbles
  import opened Quantising

  // ---- what packing the whole matrix at once gives ----

  /** The weights with their rows as columns, padded with zeros to `64 u` rows and `64 w` columns. */
  function Padded(weight: seq<seq<real>>, k: nat, u: nat, w: nat): (m: seq<seq<real>>)
    requires Rect(weight, |weight|, k)
    ensures Rect(m, 64 * u, 64 * w)
    ensures forall r: nat, c: nat :: r < 64 * u && c < 64 * w ==>
      m[r][c] == if r < k && c < |weight| then weight[c][r] else 0.0
  {
    seq(64 * u, r requires 0 <= r < 64 * u =>
      seq(64 * w, c requires 0 <= c < 64 * w => if r < k && c < |weight| then weight[c][r] else 0.0))
  }

  /** The weights that share a scale: 64 rows of one column. */
  function Group(m: seq<seq<real>>, u: nat, w: nat, g: nat, c: nat): (group: seq<real>)
    requires Rect(m, 64 * u, 64 * w) && g < u && c < 64 * w
    ensures |group| == 64 && forall r :: 0 <= r < 64 ==> group[r] == m[64 * g + r][c]
  {
    seq(64, r requires 0 <= r < 64 => m[64 * g + r][c])
  }

  function Scales(m: seq<seq<real>>, u: nat, w: nat): (s: seq<seq<real>>)
    requires Rect(m, 64 * u, 64 * w)
    ensures Rect(s, u, 64 * w)
    ensures forall g: nat, c: nat :: g < u && c < 64 * w ==> s[g][c] == ScaleOf(Group(m, u, w, g, c))
  {
    seq(u, g requires 0 <= g < u => seq(64 * w, c requires 0 <= c < 64 * w => ScaleOf(Group(m, u, w, g, c))))
  }

  function CodesOf(m: seq<seq<real>>, u: nat, w: nat): (q: seq<seq<bv32>>)
    requires Rect(m, 64 * u, 64 * w)
    ensures Rect(q, 64 * u, 64 * w) && forall r :: 0 <= r < |q| ==> Codes(q[r])
    ensures forall r: nat, c: nat :: r < 64 * u && c < 64 * w ==>
      q[r][c] == CodeBits(Quantise(m[r][c], ScaleOf(Group(m, u, w, r / 64, c))))
  {
    seq(64 * u, r requires 0 <= r < 64 * u =>
      seq(64 * w, c requires 0 <= c < 64 * w =>
        CodeBits(Quantise(m[r][c], ScaleOf(Group(m, u, w, r / 64, c))))))
  }

  /** The column at which the scale of column `c` is stored, and the column whose scale is stored at `c`. */
  function ScaleCol(c: nat): (d: nat)
    ensures d / 64 == c / 64 && forall w: nat :: c < 64 * w ==> d < 64 * w
  {
    64 * (c / 64) + ScalePermAt(c % 64)
  }

  lemma ScaleColTwice(c: nat)
    ensures ScaleCol(ScaleCol(c)) == c
  {
    hide ScalePermAt;
    ScalePermTwice(c % 64);
    Divided(c / 64, 64, ScalePermAt(c % 64));
  }

  // ---- a block's packing is the whole matrix's ----

  lemma BlockGroup(m: seq<seq<real>>, u: nat, w: nat, s: nat, e: nat, g: nat, c: nat)
    requires Rect(m, 64 * u, 64 * w) && s <= e <= w && g < u && c < 64 * (e - s)
    ensures Group(Columns(m, 64 * s, 64 * e), u, e - s, g, c) == Group(m, u, w, g, 64 * s + c)
  {
  }

  lemma BlockCodes(m: seq<seq<real>>, u: nat, w: nat, s: nat, e: nat)
    requires Rect(m, 64 * u, 64 * w) && s <= e <= w
    ensures CodesOf(Columns(m, 64 * s, 64 * e), u, e - s) == Columns(CodesOf(m, u, w), 64 * s, 64 * e)
  {
    hide Quantise, CodeBits, ScaleOf, Group, CodesOf;
    var b, q := Columns(m, 64 * s, 64 * e), CodesOf(m, u, w);
    var p := CodesOf(b, u, e - s);
    forall r: nat | r < 64 * u ensures p[r] == Columns(q, 64 * s, 64 * e)[r] {
      forall c: nat | c < 64 * (e - s) ensures p[r][c] == q[r][64 * s + c] {
        BlockGroup(m, u, w, s, e, r / 64, c);
      }
    }
  }

  // ---- the program ----

  ghost predicate HoldsWords(packed: array2<bv32>, q: seq<seq<bv32>>, h: nat, w: nat, from: nat, to: nat)
    requires Rect(q, 16 * h, 64 * w) && packed.Length0 == h && packed.Length1 == 128 * w
    reads packed
  {
    forall a: nat, c: nat :: a < h && from <= c < to && c < 128 * w ==> packed[a, c] == PackedWord(q, h, w, a, c)
  }

  ghost predicate HoldsScales(scales: array2<real>, s: seq<seq<real>>, u: nat, w: nat, to: nat)
    requires Rect(s, u, 64 * w) && scales.Length0 == u && scales.Length1 == 64 * w
    reads scales
  {
    forall g: nat, c: nat :: g < u && c < to && c < 64 * w ==> ScaleAt(scales, s, u, w, g, c)
  }

  ghost predicate ScaleAt(scales: array2<real>, s: seq<seq<real>>, u: nat, w: nat, g: nat, c: nat)
    requires Rect(s, u, 64 * w) && scales.Length0 == u && scales.Length1 == 64 * w && g < u && c < 64 * w
    reads scales
  {
    scales[g, c] == s[g][ScaleCol(c)]
  }

  /** Eight codes at a time, or-ed into words. */
  method JoinWords(ordered: seq<bv32>, h: nat, w: nat) returns (result: array2<bv32>)
    requires |ordered| == 1024 * (h * w)
    ensures fresh(result) && result.Length0 == h && result.Length1 == 128 * w
    ensures forall a: nat, c: nat :: a < h && c < 128 * w ==>
      result[a, c] == Joined(EightOf(ordered, h, w, a, c), 8)
  {
    result := new bv32[h, 128 * w]((_, _) => 0);
    for i := 0 to 8
      invariant forall a: nat, c: nat :: a < h && c < 128 * w ==>
        result[a, c] == Joined(EightOf(ordered, h, w, a, c), i)
    {
      forall a: nat, c: nat | a < h && c < 128 * w {
        result[a, c] := Put(result[a, c], EightOf(ordered, h, w, a, c)[i], Shift(i));
      }
    }
  }

  /** Quantises a block of whole strips of columns and packs its codes. */
  method PackBlock(block: seq<seq<real>>, u: nat, w: nat, perm: seq<nat>) returns (result: array2<bv32>, s: seq<seq<real>>)
    requires Rect(block, 64 * u, 64 * w) && perm == PermSeq()
    ensures fresh(result) && result.Length0 == 4 * u && result.Length1 == 128 * w
    ensures s == Scales(block, u, w)
    ensures HoldsWords(result, CodesOf(block, u, w), 4 * u, w, 0, 128 * w)
  {
    hide Quantise, CodeBits, ScaleOf, Tiled, Permuted, Joined, EightOf, PermSeq;
    s := Scales(block, u, w);
    var q := seq(64 * u, r requires 0 <= r < 64 * u =>
      seq(64 * w, c requires 0 <= c < 64 * w => CodeBits(Quantise(block[r][c], s[r / 64][c]))));
    SameMatrix(q, CodesOf(block, u, w), 64 * u, 64 * w);
    var ordered := Permuted(Tiled(q, 4 * u, w), perm);
    assert ordered == Ordered(q, 4 * u, w);
    result := JoinWords(ordered, 4 * u, w);
  }

  lemma SameMatrix<T>(p: seq<seq<T>>, q: seq<seq<T>>, rows: nat, cols: nat)
    requires Rect(p, rows, cols) && Rect(q, rows, cols)
    requires forall r: nat, c: nat :: r < rows && c < cols ==> p[r][c] == q[r][c]
    ensures p == q
  {
    forall r: nat | r < rows ensures p[r] == q[r] {
    }
  }

  /** Writes a block's words to their columns. */
  method PutWords(packed: array2<bv32>, result: array2<bv32>, ghost q: seq<seq<bv32>>, h: nat, w: nat, first: nat, last: nat)
    requires Rect(q, 16 * h, 64 * w) && first <= last <= w
    requires packed.Length0 == h && packed.Length1 == 128 * w
    requires result != packed && result.Length0 == h && result.Length1 == 128 * (last - first)
    requires HoldsWords(result, Columns(q, 64 * first, 64 * last), h, last - first, 0, 128 * (last - first))
    requires HoldsWords(packed, q, h, w, 0, 128 * first)
    modifies packed
    ensures HoldsWords(packed, q, h, w, 0, 128 * last)
  {
    hide PackedWord;
    forall a: nat, c: nat | a < h && c < 128 * (last - first) {
      packed[a, 128 * first + c] := result[a, c];
    }
    forall a: nat, c: nat | a < h && 128 * first <= c < 128 * last ensures packed[a, c] == PackedWord(q, h, w, a, c) {
      BlockWords(q, h, w, first, last, a, c - 128 * first);
      assert packed[a, 128 * first + (c - 128 * first)] == result[a, c - 128 * first];
    }
  }

  /** The scales of each 64 columns, in the order of the program's permutation. */
  function Shuffled(s: seq<seq<real>>, u: nat, w: nat, scalePerm: seq<nat>): (t: seq<seq<real>>)
    requires Rect(s, u, 64 * w) && |scalePerm| == 64 && forall e :: 0 <= e < 64 ==> scalePerm[e] == ScalePermAt(e)
    ensures Rect(t, u, 64 * w)
    ensures forall g: nat, c: nat :: g < u && c < 64 * w ==> t[g][c] == s[g][ScaleCol(c)]
  {
    hide ScalePermAt;
    seq(u, g requires 0 <= g < u => seq(64 * w, c requires 0 <= c < 64 * w =>
      assert ScaleCol(c) == 64 * (c / 64) + scalePerm[c % 64];
      s[g][64 * (c / 64) + scalePerm[c % 64]]))
  }

  /** Writes a block's shuffled scales to their columns. */
  method PutScales(scales: array2<real>, t: seq<seq<real>>, ghost all: seq<seq<real>>, u: nat, w: nat, first: nat, last: nat)
    requires first <= last <= w && Rect(all, u, 64 * w) && Rect(t, u, 64 * (last - first))
    requires forall g: nat, c: nat :: g < u && c < 64 * (last - first) ==> t[g][c] == all[g][64 * first + ScaleCol(c)]
    requires scales.Length0 == u && scales.Length1 == 64 * w && HoldsScales(scales, all, u, w, 64 * first)
    modifies scales
    ensures HoldsScales(scales, all, u, w, 64 * last)
  {
    hide ScalePermAt;
    forall g: nat, c: nat | g < u && c < 64 * (last - first) {
      scales[g, 64 * first + c] := t[g][c];
    }
    forall g: nat, c: nat | g < u && c < 64 * last ensures ScaleAt(scales, all, u, w, g, c) {
      if c >= 64 * first {
        var d := c - 64 * first;
        ScaleColShifts(first, d);
        assert scales[g, 64 * first + d] == t[g][d];
      } else {
        assert old(ScaleAt(scales, all, u, w, g, c));
      }
    }
  }

  lemma ScaleColShifts(first: nat, c: nat)
    ensures ScaleCol(64 * first + c) == 64 * first + ScaleCol(c)
  {
    Divided(first + c / 64, 64, c % 64);
  }

  lemma BlockScales(m: seq<seq<real>>, u: nat, w: nat, s: nat, e: nat, g: nat, c: nat)
    requires Rect(m, 64 * u, 64 * w) && s <= e <= w && g < u && c < 64 * (e - s)
    ensures Scales(Columns(m, 64 * s, 64 * e), u, e - s)[g][c] == Scales(m, u, w)[g][64 * s + c]
  {
    BlockGroup(m, u, w, s, e, g, c);
  }

  /** The code and the scale that are held for an element. */
  ghost function HeldCode(packed: array2<bv32>, row: nat, col: nat): (code: nat)
    requires row / 16 < packed.Length0 && WordCol(row, col) < packed.Length1
    reads packed
  {
    Value(Nibble(packed[row / 16, WordCol(row, col)], Slot(row, col)))
  }

  ghost function HeldScale(scales: array2<real>, row: nat, col: nat): (s: real)
    requires row / 64 < scales.Length0 && ScaleCol(col) < scales.Length1
    reads scales
  {
    scales[row / 64, ScaleCol(col)]
  }

  ghost predicate RestoresAt(packed: array2<bv32>, scales: array2<real>, x: real, row: nat, col: nat)
    reads packed, scales
  {
    && row / 16 < packed.Length0 && WordCol(row, col) < packed.Length1
    && row / 64 < scales.Length0 && ScaleCol(col) < scales.Length1
    && Abs(Dequantise(HeldCode(packed, row, col), HeldScale(scales, row, col)) - x) <= HeldScale(scales, row, col) / 2.0
  }

  ghost predicate Restores(packed: array2<bv32>, scales: array2<real>, weight: seq<seq<real>>, k: nat)
    requires Rect(weight, |weight|, k)
    reads packed, scales
  {
    forall row: nat, col: nat :: row < k && col < |weight| ==> RestoresAt(packed, scales, weight[col][row], row, col)
  }

  /** The code and the scale of an element of the padded matrix, in its group of 64. */
  lemma ElementQuantised(m: seq<seq<real>>, u: nat, w: nat, row: nat, col: nat)
    requires Rect(m, 64 * u, 64 * w) && row < 64 * u && col < 64 * w
    ensures var s := Scales(m, u, w)[row / 64][col];
            Abs(Dequantise(Value(CodesOf(m, u, w)[row][col]), s) - m[row][col]) <= s / 2.0
  {
    hide Dequantise, Quantise, ScaleOf, Abs, Value, CodeBits;
    var group := Group(m, u, w, row / 64, col);
    assert group[row % 64] == m[row][col];
    CodeIsNearest(group, row % 64, 0);
  }

  /** The code and the scale of every element stand where they are looked for. */
  lemma ElementHeld(packed: array2<bv32>, scales: array2<real>, q: seq<seq<bv32>>, s: seq<seq<real>>, u: nat, w: nat,
                    row: nat, col: nat)
    requires Rect(q, 64 * u, 64 * w) && Rect(s, u, 64 * w) && row < 64 * u && col < 64 * w
    requires forall r :: 0 <= r < |q| ==> Codes(q[r])
    requires packed.Length0 == 4 * u && packed.Length1 == 128 * w && scales.Length0 == u && scales.Length1 == 64 * w
    requires HoldsWords(packed, q, 4 * u, w, 0, 128 * w) && HoldsScales(scales, s, u, w, 64 * w)
    ensures row / 16 < 4 * u && WordCol(row, col) < 128 * w && row / 64 < u && ScaleCol(col) < 64 * w
    ensures HeldCode(packed, row, col) == Value(q[row][col])
    ensures HeldScale(scales, row, col) == s[row / 64][col]
  {
    hide PackedWord, Nibble, WordCol, Slot, ScaleCol, Value;
    CodeComesBack(q, 4 * u, w, row, col);
    assert packed[row / 16, WordCol(row, col)] == PackedWord(q, 4 * u, w, row / 16, WordCol(row, col));
    ScaleColTwice(col);
    assert ScaleAt(scales, s, u, w, row / 64, ScaleCol(col));
  }

  lemma ElementRestored(packed: array2<bv32>, scales: array2<real>, m: seq<seq<real>>, u: nat, w: nat, row: nat, col: nat)
    requires Rect(m, 64 * u, 64 * w) && row < 64 * u && col < 64 * w
    requires packed.Length0 == 4 * u && packed.Length1 == 128 * w && scales.Length0 == u && scales.Length1 == 64 * w
    requires HoldsWords(packed, CodesOf(m, u, w), 4 * u, w, 0, 128 * w)
    requires HoldsScales(scales, Scales(m, u, w), u, w, 64 * w)
    ensures RestoresAt(packed, scales, m[row][col], row, col)
  {
    hide HoldsWords, HoldsScales, CodesOf, Scales;
    ElementHeld(packed, scales, CodesOf(m, u, w), Scales(m, u, w), u, w, row, col);
    ElementQuantised(m, u, w, row, col);
  }

  lemma PackedRestores(packed: array2<bv32>, scales: array2<real>, weight: seq<seq<real>>, k: nat, u: nat, w: nat)
    requires Rect(weight, |weight|, k) && k <= 64 * u && |weight| <= 64 * w
    requires packed.Length0 == 4 * u && packed.Length1 == 128 * w && scales.Length0 == u && scales.Length1 == 64 * w
    requires HoldsWords(packed, CodesOf(Padded(weight, k, u, w), u, w), 4 * u, w, 0, 128 * w)
    requires HoldsScales(scales, Scales(Padded(weight, k, u, w), u, w), u, w, 64 * w)
    ensures Restores(packed, scales, weight, k)
  {
    hide HoldsWords, HoldsScales, RestoresAt, CodesOf, Scales;
    forall row: nat, col: nat | row < k && col < |weight| ensures RestoresAt(packed, scales, weight[col][row], row, col) {
      ElementRestored(packed, scales, Padded(weight, k, u, w), u, w, row, col);
    }
  }

  lemma ShuffledScales(m: seq<seq<real>>, u: nat, w: nat, first: nat, last: nat, t: seq<seq<real>>)
    requires Rect(m, 64 * u, 64 * w) && first <= last <= w && Rect(t, u, 64 * (last - first))
    requires var s := Scales(Columns(m, 64 * first, 64 * last), u, last - first);
             forall g: nat, c: nat :: g < u && c < 64 * (last - first) ==> t[g][c] == s[g][ScaleCol(c)]
    ensures forall g: nat, c: nat :: g < u && c < 64 * (last - first) ==>
      t[g][c] == Scales(m, u, w)[g][64 * first + ScaleCol(c)]
  {
    hide Scales, Columns;
    forall g: nat, c: nat | g < u && c < 64 * (last - first)
      ensures t[g][c] == Scales(m, u, w)[g][64 * first + ScaleCol(c)]
    {
      BlockScales(m, u, w, first, last, g, ScaleCol(c));
    }
  }

  lemma BlockMatrix(block: seq<seq<real>>, weight: seq<seq<real>>, m: seq<seq<real>>, u: nat, w: nat, first: nat, last: nat)
    requires first <= last <= w && Rect(weight, |weight|, 64 * u) && Rect(m, 64 * u, 64 * w) && Rect(block, 64 * u, 64 * (last - first))
    requires forall r: nat, c: nat :: r < 64 * u && c < 64 * w ==> m[r][c] == if c < |weight| then weight[c][r] else 0.0
    requires forall r: nat, c: nat :: r < 64 * u && c < 64 * (last - first) ==>
      block[r][c] == if 64 * first + c < |weight| then weight[64 * first + c][r] else 0.0
    ensures block == Columns(m, 64 * first, 64 * last)
  {
    SameMatrix(block, Columns(m, 64 * first, 64 * last), 64 * u, 64 * (last - first));
  }

  // ---- where everything stands, in plain numbers ----

  /** Four bits of a word hold the code of the element that thread `i` takes `n`-th of tile `j`. */
  ghost predicate CodeStands(packed: array2<bv32>, m: seq<seq<real>>, u: nat, w: nat, a: nat, b: nat, i: nat, j: nat, n: nat)
    requires Rect(m, 64 * u, 64 * w) && packed.Length0 == 4 * u && packed.Length1 == 128 * w
    reads packed
  {
    && a < 4 * u && b < w && i < 32 && j < 4 && n < 8
    && var t, rows := [0, 2, 4, 6, 1, 3, 5, 7][n], [2 * (i % 4), 2 * (i % 4) + 1, 2 * (i % 4 + 4), 2 * (i % 4 + 4) + 1];
    var row, col := 16 * a + rows[t % 4], 64 * b + 16 * j + i / 4 + 8 * (t / 4);
    && row < 64 * u && col < 64 * w
    && Value(Nibble(packed[a, 128 * b + 4 * i + j], n)) == Quantise(m[row][col], ScaleOf(Group(m, u, w, row / 64, col)))
  }

  ghost predicate ScaleStands(scales: array2<real>, m: seq<seq<real>>, u: nat, w: nat, g: nat, b: nat, i: nat, j: nat)
    requires Rect(m, 64 * u, 64 * w) && scales.Length0 == u && scales.Length1 == 64 * w
    reads scales
  {
    && g < u && b < w && i < 8 && j < 8
    && scales[g, 64 * b + 8 * i + j] == ScaleOf(Group(m, u, w, g, 64 * b + i + 8 * j))
  }

  lemma PlaceInNumbers(a: nat, b: nat, i: nat, j: nat, n: nat)
    requires i < 32 && j < 4 && n < 8
    ensures var t, c := [0, 2, 4, 6, 1, 3, 5, 7][n], 128 * b + 4 * i + j;
      && RowsRead(i)[t % 4] < 16
      && CodeRow(a, c, n) == 16 * a + RowsRead(i)[t % 4] && CodeCol(c, n) == 64 * b + 16 * j + i / 4 + 8 * (t / 4)
  {
    hide PermAt, RowsRead;
    var t := [0, 2, 4, 6, 1, 3, 5, 7][n];
    Divided(b, 128, 4 * i + j);
    assert 8 * (4 * i + j) + n == 32 * i + 8 * j + n;
    PermInNumbers(i, j, n);
    RowRead(i, t % 4);
    EntryHasParts(j, RowsRead(i)[t % 4], i / 4 + 8 * (t / 4));
  }

  lemma CodeInNumbers(packed: array2<bv32>, m: seq<seq<real>>, u: nat, w: nat, a: nat, b: nat, i: nat, j: nat, n: nat)
    requires Rect(m, 64 * u, 64 * w) && packed.Length0 == 4 * u && packed.Length1 == 128 * w
    requires HoldsWords(packed, CodesOf(m, u, w), 4 * u, w, 0, 128 * w)
    requires a < 4 * u && b < w && i < 32 && j < 4 && n < 8
    ensures CodeStands(packed, m, u, w, a, b, i, j, n)
  {
    hide PackedWord, Nibble, Quantise, ScaleOf, CodeBits, Group, Value, CodeRow, CodeCol, CodesOf;
    var q := CodesOf(m, u, w);
    PlaceInNumbers(a, b, i, j, n);
    WordHoldsCodes(q, 4 * u, w, a, 128 * b + 4 * i + j, n);
    assert packed[a, 128 * b + 4 * i + j] == PackedWord(q, 4 * u, w, a, 128 * b + 4 * i + j);
  }

  lemma ScaleInNumbers(scales: array2<real>, m: seq<seq<real>>, u: nat, w: nat, g: nat, b: nat, i: nat, j: nat)
    requires Rect(m, 64 * u, 64 * w) && scales.Length0 == u && scales.Length1 == 64 * w
    requires HoldsScales(scales, Scales(m, u, w), u, w, 64 * w)
    requires g < u && b < w && i < 8 && j < 8
    ensures ScaleStands(scales, m, u, w, g, b, i, j)
  {
    hide ScaleOf, Group, ScalePermAt;
    Divided(b, 64, 8 * i + j);
    ScalePermInNumbers(i, j);
    assert ScaleAt(scales, Scales(m, u, w), u, w, g, 64 * b + 8 * i + j);
  }

  lemma AllInNumbers(packed: array2<bv32>, scales: array2<real>, m: seq<seq<real>>, u: nat, w: nat)
    requires Rect(m, 64 * u, 64 * w)
    requires packed.Length0 == 4 * u && packed.Length1 == 128 * w && scales.Length0 == u && scales.Length1 == 64 * w
    requires HoldsWords(packed, CodesOf(m, u, w), 4 * u, w, 0, 128 * w)
    requires HoldsScales(scales, Scales(m, u, w), u, w, 64 * w)
    ensures forall a: nat, b: nat, i: nat, j: nat, n: nat :: a < 4 * u && b < w && i < 32 && j < 4 && n < 8 ==>
      CodeStands(packed, m, u, w, a, b, i, j, n)
    ensures forall g: nat, b: nat, i: nat, j: nat :: g < u && b < w && i < 8 && j < 8 ==>
      ScaleStands(scales, m, u, w, g, b, i, j)
  {
    hide CodeStands, ScaleStands, HoldsWords, HoldsScales, CodesOf, Scales;
    forall a: nat, b: nat, i: nat, j: nat, n: nat | a < 4 * u && b < w && i < 32 && j < 4 && n < 8
      ensures CodeStands(packed, m, u, w, a, b, i, j, n)
    {
      CodeInNumbers(packed, m, u, w, a, b, i, j, n);
    }
    forall g: nat, b: nat, i: nat, j: nat | g < u && b < w && i < 8 && j < 8 ensures ScaleStands(scales, m, u, w, g, b, i, j) {
      ScaleInNumbers(scales, m, u, w, g, b, i, j);
    }
  }

  /** Packs columns `64 first` to `64 last` of the padded matrix. */
  method PackColumns(packed: array2<bv32>, scales: array2<real>, weight: seq<seq<real>>, u: nat, w: nat, first: nat, last: nat,
                     perm: seq<nat>, scalePerm: seq<nat>, ghost m: seq<seq<real>>)
    requires Rect(weight, |weight|, 64 * u) && Rect(m, 64 * u, 64 * w) && first <= last <= w
    requires forall r: nat, c: nat :: r < 64 * u && c < 64 * w ==> m[r][c] == if c < |weight| then weight[c][r] else 0.0
    requires perm == PermSeq() && |scalePerm| == 64 && forall e :: 0 <= e < 64 ==> scalePerm[e] == ScalePermAt(e)
    requires packed as object != scales
    requires packed.Length0 == 4 * u && packed.Length1 == 128 * w && scales.Length0 == u && scales.Length1 == 64 * w
    requires HoldsWords(packed, CodesOf(m, u, w), 4 * u, w, 0, 128 * first)
    requires HoldsScales(scales, Scales(m, u, w), u, w, 64 * first)
    modifies packed, scales
    ensures HoldsWords(packed, CodesOf(m, u, w), 4 * u, w, 0, 128 * last)
    ensures HoldsScales(scales, Scales(m, u, w), u, w, 64 * last)
  {
    hide HoldsWords, HoldsScales, CodesOf, Scales, ScaleCol, ScalePermAt;
    var start, width := 64 * first, 64 * (last - first);
    var block := seq(64 * u, r requires 0 <= r < 64 * u =>
      seq(width, c requires 0 <= c < width => if start + c < |weight| then weight[start + c][r] else 0.0));
    BlockMatrix(block, weight, m, u, w, first, last);
    var result, s := PackBlock(block, u, last - first, perm);
    var t := Shuffled(s, u, last - first, scalePerm);
    BlockCodes(m, u, w, first, last);
    PutWords(packed, result, CodesOf(m, u, w), 4 * u, w, first, last);
    ShuffledScales(m, u, w, first, last, t);
    PutScales(scales, t, Scales(m, u, w), u, w, first, last);
  }

  /**
   * Packs `weight`, of rows of length `k`, a block of 1024 columns at a time. The words and the
   * scales are those of the whole matrix packed at once, and each weight comes back from its slot
   * off by at most half its scale.
   */
  method PackMarlin(weight: seq<seq<real>>, k: nat) returns (packed: array2<bv32>, scales: array2<real>)
    requires Rect(weight, |weight|, k)
    ensures fresh(packed) && fresh(scales)
    ensures var u, w := 2 * DivCeil(k, 128), DivCeil(|weight|, 64);
            var m := Padded(weight, k, u, w);
            && packed.Length0 == 4 * u && packed.Length1 == 128 * w && scales.Length0 == u && scales.Length1 == 64 * w
            && HoldsWords(packed, CodesOf(m, u, w), 4 * u, w, 0, 128 * w)
            && HoldsScales(scales, Scales(m, u, w), u, w, 64 * w)
    ensures Restores(packed, scales, weight, k)
    ensures var u, w := 2 * DivCeil(k, 128), DivCeil(|weight|, 64);
            var m := Padded(weight, k, u, w);
            && (forall a: nat, b: nat, i: nat, j: nat, n: nat :: a < 4 * u && b < w && i < 32 && j < 4 && n < 8 ==>
                 CodeStands(packed, m, u, w, a, b, i, j, n))
            && forall g: nat, b: nat, i: nat, j: nat :: g < u && b < w && i < 8 && j < 8 ==>
                 ScaleStands(scales, m, u, w, g, b, i, j)
  {
    hide CodesOf, Scales, HoldsWords, HoldsScales, Restores, ScalePermAt, PermAt, CodeStands, ScaleStands;
    var paddedK, paddedN := DivCeil(k, 128) * 128, DivCeil(|weight|, 64) * 64;
    ghost var u, w := 2 * DivCeil(k, 128), DivCeil(|weight|, 64);
    var padded := PadRows(weight, k, paddedK);
    packed := new bv32[paddedK / 16, paddedN * 2];
    scales := new real[paddedK / 64, paddedN];
    var perm, scalePerm := Permutations();
    assert perm == PermSeq();
    PackBlocks(packed, scales, padded, paddedK / 64, paddedN / 64, perm, scalePerm, Padded(weight, k, u, w));
    PackedRestores(packed, scales, weight, k, u, w);
    AllInNumbers(packed, scales, Padded(weight, k, u, w), u, w);
  }

  /** The loop over the blocks of 1024 columns; the last block may be narrower. */
  method PackBlocks(packed: array2<bv32>, scales: array2<real>, weight: seq<seq<real>>, u: nat, w: nat,
                    perm: seq<nat>, scalePerm: seq<nat>, ghost m: seq<seq<real>>)
    requires Rect(weight, |weight|, 64 * u) && Rect(m, 64 * u, 64 * w)
    requires forall r: nat, c: nat :: r < 64 * u && c < 64 * w ==> m[r][c] == if c < |weight| then weight[c][r] else 0.0
    requires perm == PermSeq() && |scalePerm| == 64 && forall e :: 0 <= e < 64 ==> scalePerm[e] == ScalePermAt(e)
    requires packed as object != scales
    requires packed.Length0 == 4 * u && packed.Length1 == 128 * w && scales.Length0 == u && scales.Length1 == 64 * w
    modifies packed, scales
    ensures HoldsWords(packed, CodesOf(m, u, w), 4 * u, w, 0, 128 * w)
    ensures HoldsScales(scales, Scales(m, u, w), u, w, 64 * w)
  {
    hide CodesOf, Scales, HoldsWords, HoldsScales, Rect;
    NothingHeld(packed, scales, m, u, w);
    var start, paddedN := 0, 64 * w;
    ghost var done: nat := 0;
    while start < paddedN
      invariant if start < paddedN then start == 64 * done && done < w else done == w
      invariant HoldsWords(packed, CodesOf(m, u, w), 4 * u, w, 0, 128 * done)
      invariant HoldsScales(scales, Scales(m, u, w), u, w, 64 * done)
    {
      var end := if start + 1024 < paddedN then start + 1024 else paddedN;
      PackColumns(packed, scales, weight, u, w, start / 64, end / 64, perm, scalePerm, m);
      start, done := start + 1024, end / 64;
    }
  }

  /** Rows of length `k` padded with zeros. */
  function PadRows(weight: seq<seq<real>>, k: nat, to: nat): (r: seq<seq<real>>)
    requires Rect(weight, |weight|, k) && k <= to
    ensures Rect(r, |weight|, to)
    ensures forall c: nat, i: nat :: c < |weight| && i < to ==> r[c][i] == if i < k then weight[c][i] else 0.0
  {
    if to == k then weight else seq(|weight|, c requires 0 <= c < |weight| => weight[c] + seq(to - k, _ => 0.0))
  }

  lemma NothingHeld(packed: array2<bv32>, scales: array2<real>, m: seq<seq<real>>, u: nat, w: nat)
    requires Rect(m, 64 * u, 64 * w)
    requires packed.Length0 == 4 * u && packed.Length1 == 128 * w && scales.Length0 == u && scales.Length1 == 64 * w
    ensures HoldsWords(packed, CodesOf(m, u, w), 4 * u, w, 0, 0) && HoldsScales(scales, Scales(m, u, w), u, w, 0)
  {
  }
}
