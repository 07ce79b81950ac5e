/** Where the packed four-bit weights and their scales stand, and the way back. */
module MarlinLayout {
  import opened Alignment

  ghost predicate Rect<T>(m: seq<seq<T>>, rows: nat, cols: nat) {
    |m| == rows && forall r :: 0 <= r < rows ==> |m[r]| == cols
  }

  // ---- the fixed permutations ----

  const INTERLEAVE: seq<nat> := [0, 2, 4, 6, 1, 3, 5, 7]

  /** The row and the column, in its tile, of entry `t` of the eight that thread `i` takes of a tile. */
  function RowOf(i: nat, t: nat): (row: nat) {
    if t % 4 < 2 then 2 * (i % 4) + t % 4 else 2 * (i % 4 + 4) + t % 4 - 2
  }

  function ColOf(i: nat, t: nat): (col: nat) {
    i / 4 + 8 * (t / 4)
  }

  /** Entry `t` of thread `i` in tile `j`, as an index into four adjacent tiles. */
  function Entry(i: nat, j: nat, t: nat): (v: nat) {
    16 * RowOf(i, t) + ColOf(i, t) + 256 * j
  }

  /** Entry `x` of the gathering order, before the interleaving. */
  function Gathered(x: nat): (v: nat) {
    Entry(x / 32, x / 8 % 4, x % 8)
  }

  function PermAt(y: nat): (v: nat) {
    Gathered(8 * (y / 8) + INTERLEAVE[y % 8])
  }

  /** The thread that takes an element of a tile, and which of its eight entries it is. */
  function ThreadOf(row: nat, col: nat): (i: nat) {
    row / 2 % 4 + 4 * (col % 8)
  }

  function TurnOf(row: nat, col: nat): (t: nat) {
    row % 2 + 2 * (row / 8) + 4 * (col / 8)
  }

  /** The place an element of four adjacent tiles is gathered to. */
  function PlaceOf(tile: nat, row: nat, col: nat): (y: nat) {
    var t := TurnOf(row, col);
    32 * ThreadOf(row, col) + 8 * tile + (t / 2 + 4 * (t % 2))
  }

  function ScalePermAt(e: nat): (v: nat) {
    e / 8 + 8 * (e % 8)
  }

  lemma RowHasParts(a: nat, b: nat, c: nat)
    requires a < 4 && b < 2 && c < 2
    ensures var row := 2 * a + b + 8 * c; row < 16 && row / 2 % 4 == a && row % 2 == b && row / 8 == c
  {
    Divided(a + 4 * c, 2, b);
    Divided(c, 4, a);
    Divided(c, 8, 2 * a + b);
  }

  lemma TurnHasParts(b: nat, c: nat, e: nat)
    requires b < 2 && c < 2 && e < 2
    ensures var t := b + 2 * c + 4 * e; t < 8 && t % 4 == b + 2 * c && t / 4 == e
  {
    Divided(e, 4, b + 2 * c);
  }

  /** A thread's entries come from rows and columns that lead back to the thread and the entry. */
  lemma EntryFindsThread(i: nat, t: nat)
    requires i < 32 && t < 8
    ensures RowOf(i, t) < 16 && ColOf(i, t) < 16
    ensures ThreadOf(RowOf(i, t), ColOf(i, t)) == i && TurnOf(RowOf(i, t), ColOf(i, t)) == t
  {
    var a, d, e := i % 4, i / 4, t / 4;
    var b, c := if t % 4 < 2 then t % 4 else t % 4 - 2, if t % 4 < 2 then 0 else 1;
    assert RowOf(i, t) == 2 * a + b + 8 * c;
    RowHasParts(a, b, c);
    Divided(e, 8, d);
  }

  /** Each element of a tile is an entry of the thread found for it. */
  lemma ThreadFindsEntry(row: nat, col: nat)
    requires row < 16 && col < 16
    ensures ThreadOf(row, col) < 32 && TurnOf(row, col) < 8
    ensures RowOf(ThreadOf(row, col), TurnOf(row, col)) == row && ColOf(ThreadOf(row, col), TurnOf(row, col)) == col
  {
    var a, b, c, d, e := row / 2 % 4, row % 2, row / 8, col % 8, col / 8;
    assert row == 2 * a + b + 8 * c;
    TurnHasParts(b, c, e);
    Divided(d, 4, a);
  }

  lemma GatheredParts(i: nat, j: nat, t: nat)
    requires i < 32 && j < 4 && t < 8
    ensures Gathered(32 * i + 8 * j + t) == Entry(i, j, t)
  {
    Divided(i, 32, 8 * j + t);
    Divided(4 * i + j, 8, t);
    Divided(i, 4, j);
  }

  /** Undoing the interleaving of eight. */
  lemma Interleaved(u: nat)
    requires u < 8
    ensures INTERLEAVE[u] < 8 && INTERLEAVE[u] / 2 + 4 * (INTERLEAVE[u] % 2) == u
    ensures INTERLEAVE[u / 2 + 4 * (u % 2)] == u
  {
  }

  lemma EntryHasParts(j: nat, row: nat, col: nat)
    requires row < 16 && col < 16
    ensures var v := 256 * j + 16 * row + col; v / 256 == j && v / 16 % 16 == row && v % 16 == col
  {
    Divided(j, 256, 16 * row + col);
    Divided(16 * j + row, 16, col);
    Divided(j, 16, row);
  }

  /** The permutation gathers each element of four tiles to the place found for it. */
  lemma PlaceGathers(tile: nat, row: nat, col: nat)
    requires tile < 4 && row < 16 && col < 16
    ensures PlaceOf(tile, row, col) < 1024
    ensures PermAt(PlaceOf(tile, row, col)) == 256 * tile + 16 * row + col
  {
    hide ThreadOf, TurnOf, RowOf, ColOf, Gathered;
    ThreadFindsEntry(row, col);
    var i, t := ThreadOf(row, col), TurnOf(row, col);
    var u := t / 2 + 4 * (t % 2);
    Divided(4 * i + tile, 8, u);
    Interleaved(t);
    GatheredParts(i, tile, t);
  }

  /** Each place of the gathered tiles holds one element of them, for which it is the place found. */
  lemma GatheredFromPlace(y: nat)
    requires y < 1024
    ensures PermAt(y) < 1024
    ensures PlaceOf(PermAt(y) / 256, PermAt(y) / 16 % 16, PermAt(y) % 16) == y
  {
    hide ThreadOf, TurnOf, RowOf, ColOf, Gathered;
    var i, j, u := y / 32, y / 8 % 4, y % 8;
    var t := INTERLEAVE[u];
    Interleaved(u);
    Eights(y);
    GatheredParts(i, j, t);
    EntryFindsThread(i, t);
    EntryHasParts(j, RowOf(i, t), ColOf(i, t));
  }

  lemma Eights(y: nat)
    requires y < 1024
    ensures y / 32 < 32 && 8 * (y / 8) == 32 * (y / 32) + 8 * (y / 8 % 4)
  {
  }

  /** The order of the scales of 64 columns is its own inverse. */
  lemma ScalePermTwice(e: nat)
    requires e < 64
    ensures ScalePermAt(e) < 64 && ScalePermAt(ScalePermAt(e)) == e
  {
    var i, j := e / 8, e % 8;
    assert e == 8 * i + j;
    assert ScalePermAt(e) == 8 * j + i && i < 8;
    assert (8 * j + i) / 8 == j && (8 * j + i) % 8 == i;
  }

  // ---- the same in plain numbers ----

  /** The rows of its tile that thread `i` reads, two pairs eight rows apart. */
  function RowsRead(i: nat): (rows: seq<nat>)
    ensures |rows| == 4
  {
    [2 * (i % 4), 2 * (i % 4) + 1, 2 * (i % 4 + 4), 2 * (i % 4 + 4) + 1]
  }

  lemma RowRead(i: nat, t: nat)
    requires t < 4
    ensures RowsRead(i)[t] < 16
  {
  }

  /** Entry `n` of the eight that thread `i` takes of tile `j`. */
  ghost predicate GathersEntry(perm: seq<nat>, i: nat, j: nat, n: nat)
  {
    && n < 8 && 32 * i + 8 * j + n < |perm|
    && var t, rows := [0, 2, 4, 6, 1, 3, 5, 7][n], [2 * (i % 4), 2 * (i % 4) + 1, 2 * (i % 4 + 4), 2 * (i % 4 + 4) + 1];
    perm[32 * i + 8 * j + n] == 256 * j + 16 * rows[t % 4] + i / 4 + 8 * (t / 4)
  }

  ghost predicate TakesScale(scalePerm: seq<nat>, i: nat, j: nat)
  {
    8 * i + j < |scalePerm| && scalePerm[8 * i + j] == i + 8 * j
  }

  lemma PermInNumbers(i: nat, j: nat, n: nat)
    requires i < 32 && j < 4 && n < 8
    ensures var t := [0, 2, 4, 6, 1, 3, 5, 7][n];
      PermAt(32 * i + 8 * j + n) == 256 * j + 16 * RowsRead(i)[t % 4] + i / 4 + 8 * (t / 4)
  {
    hide Gathered;
    Divided(4 * i + j, 8, n);
    GatheredParts(i, j, INTERLEAVE[n]);
  }

  lemma ScalePermInNumbers(i: nat, j: nat)
    requires i < 8 && j < 8
    ensures ScalePermAt(8 * i + j) == i + 8 * j
  {
    Divided(i, 8, j);
  }

  lemma PermutationsInNumbers(perm: seq<nat>, scalePerm: seq<nat>)
    requires |perm| == 1024 && forall y :: 0 <= y < 1024 ==> perm[y] == PermAt(y)
    requires |scalePerm| == 64 && forall e :: 0 <= e < 64 ==> scalePerm[e] == ScalePermAt(e)
    ensures forall i: nat, j: nat, n: nat :: i < 32 && j < 4 && n < 8 ==> GathersEntry(perm, i, j, n)
    ensures forall i: nat, j: nat :: i < 8 && j < 8 ==> TakesScale(scalePerm, i, j)
  {
    hide PermAt, ScalePermAt;
    forall i: nat, j: nat, n: nat | i < 32 && j < 4 && n < 8 ensures GathersEntry(perm, i, j, n) {
      PermInNumbers(i, j, n);
    }
    forall i: nat, j: nat | i < 8 && j < 8 ensures TakesScale(scalePerm, i, j) {
      ScalePermInNumbers(i, j);
    }
  }

  /** The eight entries that thread `i` takes of the first of four tiles. */
  method FirstTile(i: nat) returns (tile: seq<nat>)
    ensures |tile| == 8 && forall t :: 0 <= t < 8 ==> tile[t] == Entry(i, 0, t)
  {
    var rows := [2 * (i % 4), 2 * (i % 4) + 1, 2 * (i % 4 + 4), 2 * (i % 4 + 4) + 1];
    tile := seq(8, t requires 0 <= t < 8 => 16 * rows[t % 4] + i / 4 + 8 * (t / 4));
  }

  lemma EntryOfTile(i: nat, j: nat, t: nat)
    requires i < 32 && j < 4 && t < 8
    ensures Gathered(32 * i + 8 * j + t) == Entry(i, 0, t) + 256 * j
  {
    hide Gathered, RowOf, ColOf;
    GatheredParts(i, j, t);
  }

  /** The two permutations, built up entry by entry. */
  method Permutations() returns (perm: seq<nat>, scalePerm: seq<nat>)
    ensures |perm| == 1024 && forall y :: 0 <= y < 1024 ==> perm[y] == PermAt(y)
    ensures |scalePerm| == 64 && forall e :: 0 <= e < 64 ==> scalePerm[e] == ScalePermAt(e)
    ensures forall i: nat, j: nat, n: nat :: i < 32 && j < 4 && n < 8 ==> GathersEntry(perm, i, j, n)
    ensures forall i: nat, j: nat :: i < 8 && j < 8 ==> TakesScale(scalePerm, i, j)
  {
    hide Gathered, Entry, GathersEntry, TakesScale;
    var gathered: seq<nat> := [];
    for i := 0 to 32
      invariant |gathered| == 32 * i && forall x :: 0 <= x < |gathered| ==> gathered[x] == Gathered(x)
    {
      var tile := FirstTile(i);
      for j := 0 to 4
        invariant |gathered| == 32 * i + 8 * j && forall x :: 0 <= x < |gathered| ==> gathered[x] == Gathered(x)
      {
        forall t | 0 <= t < 8 ensures tile[t] + 256 * j == Gathered(32 * i + 8 * j + t) {
          EntryOfTile(i, j, t);
        }
        gathered := gathered + seq(8, t requires 0 <= t < 8 => tile[t] + 256 * j);
      }
    }
    perm := Interleave(gathered);
    scalePerm := seq(64, e => e / 8 + 8 * (e % 8));
    PermutationsInNumbers(perm, scalePerm);
  }

  function Interleave(s: seq<nat>): (r: seq<nat>)
    requires |s| == 1024
    ensures |r| == 1024 && forall y :: 0 <= y < 1024 ==> r[y] == s[8 * (y / 8) + INTERLEAVE[y % 8]]
  {
    seq(1024, y requires 0 <= y < 1024 => s[8 * (y / 8) + INTERLEAVE[y % 8]])
  }
}
