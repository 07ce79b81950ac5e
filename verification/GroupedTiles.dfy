/** The grouped order in which the fused expert kernel's programs take the tiles of its output. */
module GroupedTiles {
  import opened Alignment

  /** A tile of the output: the block of rows and the block of columns it covers. */
  datatype Tile = Tile(m: int, n: int)

  /** The grid, its numbers of row and column tiles, and the number of row tiles to a group. */
  datatype Grid = Grid(rows: nat, cols: nat, group: nat) {
    ghost predicate Valid() { group > 0 }

    function Programs(): nat { rows * cols }

    /** The programs of a full group. */
    function GroupPrograms(): nat { group * cols }

    /** The first row of the group a program belongs to. */
    function FirstRow(pid: nat): int
      requires GroupPrograms() > 0
    {
      pid / GroupPrograms() * group
    }

    /** The row tiles in the group that starts at `first`: the last group may be short. */
    function GroupRows(first: int): (size: int)
      requires Valid() && first < rows
      ensures size > 0
    {
      if rows - first < group then rows - first else group
    }
  }

  /** The grid launched for `rows` by `cols` elements in blocks of the given sizes. */
  function Launch(rows: nat, blockRows: nat, cols: nat, blockCols: nat, group: nat): (g: Grid)
    requires blockRows > 0 && blockCols > 0
  {
    Grid(DivCeil(rows, blockRows), DivCeil(cols, blockCols), group)
  }

  /** Dividing what is less than `bound` times `m` by `m`. */
  lemma Split(a: nat, m: nat, bound: nat)
    requires a < bound * m
    ensures m > 0 && a / m < bound && a == a / m * m + a % m
  {
    assert m > 0;
    Below(a / m, bound, m);
  }

  lemma QuotientMonotone(a: nat, b: nat, m: nat)
    requires a <= b && m > 0
    ensures a / m <= b / m
  {
    assert a / m * m <= a && b < (b / m + 1) * m;
    Below(a / m, b / m + 1, m);
  }

  /** The `m`-th of `size` rows in column `n`, counted by columns, is within a group of rows and within all rows. */
  lemma Inside(n: nat, cols: nat, m: nat, size: nat, group: nat, first: nat, rows: nat)
    requires n < cols && m < size <= group && first + size <= rows
    ensures n * size + m < group * cols && first * cols + (n * size + m) < rows * cols
  {
    Scaled(n + 1, cols, size);
    assert (n + 1) * size == n * size + size;
    Scaled(size, group, cols);
    Scaled(first + size, rows, cols);
    assert (first + size) * cols == first * cols + size * cols;
  }

  lemma GroupStart(group: nat, rows: nat, cols: nat)
    ensures group * (rows * cols) == group * rows * cols
  {
  }

  lemma FirstInRange(g: Grid, pid: nat)
    requires g.Valid() && pid < g.Programs()
    ensures g.cols > 0 && g.GroupPrograms() > 0
    ensures g.FirstRow(pid) < g.rows && g.FirstRow(pid) * g.cols == pid / g.GroupPrograms() * g.GroupPrograms()
  {
    assert g.cols > 0 && g.group * g.cols >= 1 * g.cols;
    GroupStart(pid / g.GroupPrograms(), g.group, g.cols);
    Below(g.FirstRow(pid), g.rows, g.cols);
  }

  /** A program of the grid belongs to a group that has rows, and its place there is within that group's tiles. */
  lemma ProgramInGroup(g: Grid, pid: nat)
    requires g.Valid() && pid < g.Programs()
    ensures g.cols > 0 && g.GroupPrograms() > 0
    ensures g.FirstRow(pid) < g.rows
    ensures pid % g.GroupPrograms() < g.GroupRows(g.FirstRow(pid)) * g.cols
  {
    hide Grid.FirstRow;
    FirstInRange(g, pid);
    var first := g.FirstRow(pid);
    assert (g.rows - first) * g.cols == g.rows * g.cols - first * g.cols;
  }

  /** The tile a program computes. */
  function TileOf(g: Grid, pid: nat): (t: Tile)
    requires g.Valid() && pid < g.Programs()
  {
    ProgramInGroup(g, pid);
    var first, local := g.FirstRow(pid), pid % g.GroupPrograms();
    var size := g.GroupRows(first);
    Tile(first + local % size, local / size)
  }

  /** The program at a place of a group: in column tile `n`, at row `m` of the group. */
  function ProgramAt(g: Grid, group: nat, n: nat, m: nat): (pid: nat)
    requires g.Valid() && group * g.group < g.rows
  {
    group * g.GroupPrograms() + (n * g.GroupRows(group * g.group) + m)
  }

  /** The program that computes a tile. */
  function ProgramOf(g: Grid, t: Tile): (pid: nat)
    requires g.Valid() && 0 <= t.m < g.rows && 0 <= t.n < g.cols
  {
    assert t.m / g.group * g.group <= t.m;
    ProgramAt(g, t.m / g.group, t.n, t.m % g.group)
  }

  /** The place of a group a program stands at. */
  lemma ProgramHasPlace(g: Grid, pid: nat)
    requires g.Valid() && pid < g.Programs()
    ensures g.GroupPrograms() > 0 && pid / g.GroupPrograms() * g.group < g.rows
    ensures var group, local := pid / g.GroupPrograms(), pid % g.GroupPrograms();
            var size := g.GroupRows(group * g.group);
            && local / size < g.cols
            && pid == ProgramAt(g, group, local / size, local % size)
            && TileOf(g, pid) == Tile(group * g.group + local % size, local / size)
  {
    hide Grid.GroupPrograms, Grid.GroupRows, Grid.Programs;
    ProgramInGroup(g, pid);
    var group, local := pid / g.GroupPrograms(), pid % g.GroupPrograms();
    Split(local, g.GroupRows(group * g.group), g.cols);
    assert pid == group * g.GroupPrograms() + local;
  }

  /** No group's places run into the next group's: the group, the column tile and the row come back. */
  lemma PlaceWithinGroup(g: Grid, group: nat, n: nat, m: nat)
    requires g.Valid() && group * g.group < g.rows && n < g.cols && m < g.GroupRows(group * g.group)
    ensures n * g.GroupRows(group * g.group) + m < g.GroupPrograms()
    ensures ProgramAt(g, group, n, m) < g.Programs()
  {
    Inside(n, g.cols, m, g.GroupRows(group * g.group), g.group, group * g.group, g.rows);
    GroupStart(group, g.group, g.cols);
  }

  lemma PlaceHasTile(g: Grid, group: nat, n: nat, m: nat)
    requires g.Valid() && group * g.group < g.rows && n < g.cols && m < g.GroupRows(group * g.group)
    ensures ProgramAt(g, group, n, m) < g.Programs()
    ensures ProgramAt(g, group, n, m) / g.GroupPrograms() == group
    ensures TileOf(g, ProgramAt(g, group, n, m)) == Tile(group * g.group + m, n)
  {
    PlaceWithinGroup(g, group, n, m);
    var size := g.GroupRows(group * g.group);
    Divided(group, g.GroupPrograms(), n * size + m);
    Divided(n, size, m);
  }

  /** Every program computes a tile of the grid, and that tile leads back to it. */
  lemma ProgramHasOneTile(g: Grid, pid: nat)
    requires g.Valid() && pid < g.Programs()
    ensures var t := TileOf(g, pid); 0 <= t.m < g.rows && 0 <= t.n < g.cols && ProgramOf(g, t) == pid
  {
    hide TileOf, ProgramAt, Grid.GroupPrograms, Grid.Programs;
    ProgramHasPlace(g, pid);
    var group, local := pid / g.GroupPrograms(), pid % g.GroupPrograms();
    Divided(group, g.group, local % g.GroupRows(group * g.group));
  }

  /** Every tile of the grid, the short last group's too, is computed by a program of the launch. */
  lemma TileHasOneProgram(g: Grid, t: Tile)
    requires g.Valid() && 0 <= t.m < g.rows && 0 <= t.n < g.cols
    ensures ProgramOf(g, t) < g.Programs()
    ensures TileOf(g, ProgramOf(g, t)) == t
  {
    hide TileOf, ProgramAt;
    assert t.m == t.m / g.group * g.group + t.m % g.group;
    PlaceHasTile(g, t.m / g.group, t.n, t.m % g.group);
  }

  /** The tile an element of the output lies in. */
  function TileAt(row: nat, col: nat, blockRows: nat, blockCols: nat): (t: Tile)
    requires blockRows > 0 && blockCols > 0
  {
    Tile(row / blockRows, col / blockCols)
  }

  lemma BlockInRange(a: nat, n: nat, block: nat)
    requires block > 0 && a < n
    ensures a / block < DivCeil(n, block)
  {
    DivCeilCovers(n, block);
    Below(a / block, DivCeil(n, block), block);
  }

  /** Each output element is in the tile of exactly one of the launched programs. */
  lemma EachElementComputedOnce(rows: nat, blockRows: nat, cols: nat, blockCols: nat, group: nat, row: nat, col: nat)
    requires blockRows > 0 && blockCols > 0 && group > 0 && row < rows && col < cols
    ensures var g, t := Launch(rows, blockRows, cols, blockCols, group), TileAt(row, col, blockRows, blockCols);
            exists pid: nat :: pid < g.Programs() && TileOf(g, pid) == t
                               && forall other: nat :: other < g.Programs() && TileOf(g, other) == t ==> other == pid
  {
    var g, t := Launch(rows, blockRows, cols, blockCols, group), TileAt(row, col, blockRows, blockCols);
    BlockInRange(row, rows, blockRows);
    BlockInRange(col, cols, blockCols);
    TileHasOneProgram(g, t);
    var pid := ProgramOf(g, t);
    forall other: nat | other < g.Programs() && TileOf(g, other) == t ensures other == pid {
      ProgramHasOneTile(g, other);
    }
  }

  /** The programs of a group are consecutive: a later program never computes rows of an earlier group. */
  lemma GroupsAreConsecutive(g: Grid, pid: nat, other: nat)
    requires g.Valid() && pid <= other < g.Programs()
    ensures TileOf(g, pid).m / g.group <= TileOf(g, other).m / g.group
  {
    hide *;
    GroupOfTile(g, pid);
    GroupOfTile(g, other);
    QuotientMonotone(pid, other, g.GroupPrograms());
  }

  /** Within a group the programs go down its rows, one column of tiles after the other; the last group may be short. */
  lemma TilesInTurn(g: Grid, q: nat, n: nat, m: nat)
    requires g.group > 0 && m < g.group && q * g.group + m < g.rows && n < g.cols
    ensures var size := if g.rows - q * g.group < g.group then g.rows - q * g.group else g.group;
            var pid := q * (g.group * g.cols) + n * size + m;
            0 <= pid < g.rows * g.cols && TileOf(g, pid) == Tile(q * g.group + m, n)
  {
    hide TileOf;
    PlaceHasTile(g, q, n, m);
  }

  lemma GroupOfTile(g: Grid, pid: nat)
    requires g.Valid() && pid < g.Programs()
    ensures g.GroupPrograms() > 0 && TileOf(g, pid).m / g.group == pid / g.GroupPrograms()
  {
    hide TileOf, ProgramAt, Grid.GroupPrograms, Grid.Programs;
    ProgramHasPlace(g, pid);
    var group, local := pid / g.GroupPrograms(), pid % g.GroupPrograms();
    Divided(group, g.group, local % g.GroupRows(group * g.group));
  }
}
