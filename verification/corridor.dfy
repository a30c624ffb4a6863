/**
 * Grid cells and the corridor contract of frontend/src/game/path.js: keys,
 * bounds, 4-adjacency, and what makes a sequence of cells a valid path.
 */
module Corridor {
  import Decimal

  datatype Cell = Cell(x: int, y: int)

  /** keyOf: the string "x,y" used as a set key. */
  function KeyOf(c: Cell): string {
    Decimal.IntToString(c.x) + "," + Decimal.IntToString(c.y)
  }

  predicate NoComma(s: string) {
    forall i :: 0 <= i < |s| ==> s[i] != ','
  }

  lemma IntToStringNoComma(n: int)
    ensures NoComma(Decimal.IntToString(n))
  {
  }

  /** Position of the first comma (or the length when there is none). */
  function FirstComma(s: string): nat {
    if |s| == 0 || s[0] == ',' then 0 else 1 + FirstComma(s[1..])
  }

  lemma {:induction false} FirstCommaAfter(a: string, b: string)
    requires NoComma(a)
    ensures FirstComma(a + "," + b) == |a|
  {
    if |a| > 0 {
      assert (a + "," + b)[1..] == a[1..] + "," + b;
      FirstCommaAfter(a[1..], b);
    }
  }

  /** A string "a,b" with no comma in a or c splits back into a and b. */
  lemma CommaSplit(a: string, b: string, c: string, d: string)
    requires NoComma(a) && NoComma(c)
    requires a + "," + b == c + "," + d
    ensures a == c && b == d
  {
    var s := a + "," + b;
    FirstCommaAfter(a, b);
    FirstCommaAfter(c, d);
    assert a == s[..|a|];
    assert b == s[|a| + 1..];
  }

  /** Two cells share a key only if they are the same cell. */
  lemma KeyOfInjective(p: Cell, q: Cell)
    requires KeyOf(p) == KeyOf(q)
    ensures p == q
  {
    IntToStringNoComma(p.x);
    IntToStringNoComma(q.x);
    CommaSplit(Decimal.IntToString(p.x), Decimal.IntToString(p.y),
               Decimal.IntToString(q.x), Decimal.IntToString(q.y));
    Decimal.IntToStringInjective(p.x, q.x);
    Decimal.IntToStringInjective(p.y, q.y);
  }

  predicate InBounds(c: Cell, width: int, height: int) {
    0 <= c.x < width && 0 <= c.y < height
  }

  function Abs(n: int): nat {
    if n < 0 then -n else n
  }

  function Manhattan(a: Cell, b: Cell): nat {
    Abs(a.x - b.x) + Abs(a.y - b.y)
  }

  /** isAdjacent: Manhattan distance exactly 1. */
  predicate IsAdjacent(a: Cell, b: Cell) {
    Manhattan(a, b) == 1
  }

  /** The four neighbours of a cell are exactly the cells adjacent to it. */
  lemma AdjacentIsNeighbour(a: Cell, b: Cell)
    ensures IsAdjacent(a, b) <==>
              b in {Cell(a.x + 1, a.y), Cell(a.x - 1, a.y), Cell(a.x, a.y + 1), Cell(a.x, a.y - 1)}
  {
  }

  /** Cell i and cell i+1 are 4-adjacent. */
  predicate Linked(cells: seq<Cell>, i: int)
    requires 0 <= i < |cells| - 1
  {
    IsAdjacent(cells[i], cells[i + 1])
  }

  /** Consecutive cells are 4-adjacent. */
  predicate Chain(cells: seq<Cell>) {
    forall i :: 0 <= i < |cells| - 1 ==> Linked(cells, i)
  }

  /** No cell repeats. */
  predicate Distinct(cells: seq<Cell>) {
    forall i, j :: 0 <= i < j < |cells| ==> cells[i] != cells[j]
  }

  predicate AllInBounds(cells: seq<Cell>, width: int, height: int) {
    forall i :: 0 <= i < |cells| ==> InBounds(cells[i], width, height)
  }

  function CellSet(cells: seq<Cell>): set<Cell> {
    set i | 0 <= i < |cells| :: cells[i]
  }

  function Last(cells: seq<Cell>): Cell
    requires |cells| > 0
  {
    cells[|cells| - 1]
  }

  /** The corridor contract: from start to end, adjacent steps, no repeats, inside the grid. */
  predicate ValidPath(cells: seq<Cell>, start: Cell, end: Cell, width: int, height: int) {
    && |cells| > 0
    && cells[0] == start
    && Last(cells) == end
    && Chain(cells)
    && Distinct(cells)
    && AllInBounds(cells, width, height)
  }

  /** buildPathSet: the set of keys of the given cells. */
  function BuildPathSet(cells: seq<Cell>): (keys: set<string>)
    ensures forall i :: 0 <= i < |cells| ==> KeyOf(cells[i]) in keys
  {
    set i | 0 <= i < |cells| :: KeyOf(cells[i])
  }

  /** A cell's key is in the path set exactly when the cell is on the path. */
  lemma PathSetMembership(cells: seq<Cell>, c: Cell)
    ensures KeyOf(c) in BuildPathSet(cells) <==> c in cells
  {
    if KeyOf(c) in BuildPathSet(cells) {
      var i :| 0 <= i < |cells| && KeyOf(cells[i]) == KeyOf(c);
      KeyOfInjective(cells[i], c);
    }
  }

  // ---------------------------------------------------------------------------
  // Parity: every step flips the parity of x + y.

  /** One step changes the distance to any fixed cell by exactly one. */
  lemma ManhattanStep(f: Cell, p: Cell, q: Cell)
    requires IsAdjacent(p, q)
    ensures Manhattan(f, q) == Manhattan(f, p) + 1 || Manhattan(f, q) + 1 == Manhattan(f, p)
  {
  }

  /** Along any chain, the number of steps and the end-to-end distance have the same parity. */
  lemma {:induction false} ChainParity(cells: seq<Cell>)
    requires |cells| > 0 && Chain(cells)
    ensures (|cells| - 1 + Manhattan(cells[0], Last(cells))) % 2 == 0
    decreases |cells|
  {
    if |cells| > 1 {
      var prefix := cells[..|cells| - 1];
      forall i | 0 <= i < |prefix| - 1 ensures Linked(prefix, i) {
        assert Linked(cells, i);
      }
      assert Linked(cells, |cells| - 2);
      ChainParity(prefix);
      ManhattanStep(cells[0], Last(prefix), Last(cells));
    }
  }
}
