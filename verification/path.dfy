/**
 * The corridor generator of frontend/src/game/path.js: choosing diagonal
 * corners, the weighted backtracking walk, detour insertion, the shuffled
 * staircase fast path, and the retry loop of generatePath.
 *
 * The source's `visited` set holds keys "x,y"; since KeyOf is injective
 * (Corridor.KeyOfInjective) the model keeps the cells themselves.
 */
module Path {
  import opened Wrappers
  import opened Rng
  import opened Corridor

  /** A step direction with its weight (PATH_RULES.weights) or a plain offset. */
  datatype Dir = Dir(dx: int, dy: int, weight: real)
  datatype Delta = Delta(dx: int, dy: int)

  function Shift(c: Cell, d: Delta): Cell {
    Cell(c.x + d.dx, c.y + d.dy)
  }

  predicate IsUnit(d: Delta) {
    Abs(d.dx) + Abs(d.dy) == 1
  }

  /** Every weighted direction is one of the four unit moves. */
  predicate UnitDirections(weights: seq<Dir>) {
    forall i :: 0 <= i < |weights| ==> Abs(weights[i].dx) + Abs(weights[i].dy) == 1
  }

  // ---------------------------------------------------------------------------
  // pickStartEnd

  /** start and end are opposite corners of the grid. */
  predicate IsDiagonal(start: Cell, end: Cell, width: int, height: int) {
    || (start == Cell(0, 0) && end == Cell(width - 1, height - 1))
    || (start == Cell(width - 1, height - 1) && end == Cell(0, 0))
    || (start == Cell(0, height - 1) && end == Cell(width - 1, 0))
    || (start == Cell(width - 1, 0) && end == Cell(0, height - 1))
  }

  /** pickStartEnd: one of the two diagonals, then a coin flip for its direction. */
  function PickStartEnd(o: Oracle, width: int, height: int): (r: (Oracle, Cell, Cell))
    ensures IsDiagonal(r.1, r.2, width, height)
    ensures r.0.draw == o.draw && r.0.pos == o.pos + 2
  {
    var diagonals := [(Cell(0, 0), Cell(width - 1, height - 1)), (Cell(0, height - 1), Cell(width - 1, 0))];
    var (o1, k) := RandomInt(o, 0, |diagonals| - 1);
    var pair := diagonals[k];
    var (o2, coin) := Draw(o1);
    if coin < 0.5 then (o2, pair.0, pair.1) else (o2, pair.1, pair.0)
  }

  /** Opposite corners are in the grid and (width-1)+(height-1) apart. */
  lemma DiagonalCorners(start: Cell, end: Cell, width: int, height: int)
    requires width >= 1 && height >= 1
    requires IsDiagonal(start, end, width, height)
    ensures InBounds(start, width, height) && InBounds(end, width, height)
    ensures Manhattan(start, end) == (width - 1) + (height - 1)
  {
  }

  // ---------------------------------------------------------------------------
  // walkPath

  /** The fixed parameters of one walk. */
  datatype Walker = Walker(width: int, height: int, end: Cell, weights: seq<Dir>, maxLen: int)

  datatype Candidate = Candidate(cell: Cell, weight: real)

  /** The cells reachable by the weighted directions that are inside the grid and unvisited, in order. */
  function Candidates(ctx: Walker, weights: seq<Dir>, current: Cell, visited: set<Cell>): (r: seq<Candidate>)
    ensures |r| <= |weights|
    ensures forall c :: c in r ==> InBounds(c.cell, ctx.width, ctx.height) && c.cell !in visited
    ensures UnitDirections(weights) ==> forall c :: c in r ==> IsAdjacent(current, c.cell)
  {
    if |weights| == 0 then []
    else
      var c := Cell(current.x + weights[0].dx, current.y + weights[0].dy);
      var rest := Candidates(ctx, weights[1..], current, visited);
      assert UnitDirections(weights) ==> UnitDirections(weights[1..]);
      if InBounds(c, ctx.width, ctx.height) && c !in visited then [Candidate(c, weights[0].weight)] + rest
      else rest
  }

  function WeightsOf(cands: seq<Candidate>): (w: seq<real>)
    ensures |w| == |cands|
    ensures forall i :: 0 <= i < |cands| ==> w[i] == cands[i].weight
  {
    seq(|cands|, i requires 0 <= i < |cands| => cands[i].weight)
  }

  /** weightedChoice over the candidates' weights. */
  function PickCandidate(o: Oracle, cands: seq<Candidate>): (r: (Oracle, nat))
    requires |cands| > 0
    ensures r.1 < |cands|
  {
    WeightedChoice(o, WeightsOf(cands))
  }

  /** The walk's state: path ends at current, is a distinct in-bounds chain, visited is its cell set. */
  predicate Trail(ctx: Walker, path: seq<Cell>, visited: set<Cell>, current: Cell) {
    && |path| > 0
    && Last(path) == current
    && Chain(path)
    && Distinct(path)
    && AllInBounds(path, ctx.width, ctx.height)
    && visited == CellSet(path)
  }

  /** From index `from` on, every cell could still reach `end` within maxLen cells. */
  predicate WithinBudget(path: seq<Cell>, from: int, end: Cell, maxLen: int) {
    forall i :: from <= i < |path| && 0 <= i ==> i + 1 + Manhattan(path[i], end) <= maxLen
  }

  ghost function Grid(width: int, height: int): set<Cell> {
    set x, y | 0 <= x < width && 0 <= y < height :: Cell(x, y)
  }

  ghost function Unvisited(ctx: Walker, visited: set<Cell>): nat {
    |Grid(ctx.width, ctx.height) - visited|
  }

  lemma VisitShrinks(ctx: Walker, visited: set<Cell>, c: Cell)
    requires InBounds(c, ctx.width, ctx.height) && c !in visited
    ensures Unvisited(ctx, visited + {c}) < Unvisited(ctx, visited)
  {
    var g := Grid(ctx.width, ctx.height);
    assert c in g;
    assert g - (visited + {c}) == (g - visited) - {c};
  }

  lemma ExtendTrail(ctx: Walker, path: seq<Cell>, visited: set<Cell>, current: Cell, next: Cell)
    requires Trail(ctx, path, visited, current)
    requires IsAdjacent(current, next) && InBounds(next, ctx.width, ctx.height) && next !in visited
    ensures Trail(ctx, path + [next], visited + {next}, next)
  {
    var p := path + [next];
    assert CellSet(p) == CellSet(path) + {next} by {
      forall c | c in CellSet(p) ensures c in CellSet(path) + {next} {
        var i :| 0 <= i < |p| && p[i] == c;
        if i < |path| { assert path[i] == c; }
      }
      forall c | c in CellSet(path) ensures c in CellSet(p) {
        var i :| 0 <= i < |path| && path[i] == c;
        assert p[i] == c;
      }
      assert p[|path|] == next;
    }
    forall i | 0 <= i < |p| - 1 ensures Linked(p, i) {
      if i < |path| - 1 { assert Linked(path, i); }
    }
    forall i, j | 0 <= i < j < |p| ensures p[i] != p[j] {
      if j == |path| {
        assert p[i] == path[i] && path[i] in CellSet(path);
      }
    }
  }

  /** The outcome of a walk: success flag, the (possibly restored) path and visited set, the generator. */
  datatype Search = Search(found: bool, path: seq<Cell>, visited: set<Cell>, rng: Oracle)

  /**
   * A successful walk from `path`: it extends `path`, ends at `end`, keeps the
   * walk's invariant, fits maxLen, and every cell from index `from` on passed
   * the distance check.
   */
  predicate Completes(ctx: Walker, path: seq<Cell>, from: int, r: Search) {
    && Trail(ctx, r.path, r.visited, ctx.end)
    && |path| <= |r.path| <= ctx.maxLen
    && r.path[..|path|] == path
    && WithinBudget(r.path, from, ctx.end, ctx.maxLen)
  }

  lemma CompletesShorter(ctx: Walker, path: seq<Cell>, next: Cell, from: int, r: Search)
    requires Completes(ctx, path + [next], from, r)
    ensures Completes(ctx, path, from, r) && |path| < |r.path|
  {
    assert r.path[..|path|] == (r.path[..|path| + 1])[..|path|];
  }

  lemma CompletesAtCurrent(ctx: Walker, path: seq<Cell>, r: Search)
    requires |path| > 0 && Completes(ctx, path, |path|, r)
    requires |path| + Manhattan(Last(path), ctx.end) <= ctx.maxLen
    ensures Completes(ctx, path, |path| - 1, r)
  {
    assert r.path[|path| - 1] == r.path[..|path|][|path| - 1];
  }

  /**
   * step(current): give up past the length budget, succeed at the end cell,
   * otherwise try the candidates. On failure the path and visited set are
   * exactly as they were; on success the path extends the old one to `end`.
   */
  function Step(ctx: Walker, current: Cell, path: seq<Cell>, visited: set<Cell>, o: Oracle): (r: Search)
    requires UnitDirections(ctx.weights)
    requires Trail(ctx, path, visited, current)
    ensures !r.found ==> r.path == path && r.visited == visited
    ensures r.found ==> Completes(ctx, path, |path| - 1, r)
    decreases Unvisited(ctx, visited), 1, 0
  {
    if |path| > ctx.maxLen then Search(false, path, visited, o)
    else if |path| + Manhattan(current, ctx.end) > ctx.maxLen then Search(false, path, visited, o)
    else if current == ctx.end then
      assert path[..|path|] == path;
      Search(true, path, visited, o)
    else
      var cands := Candidates(ctx, ctx.weights, current, visited);
      var r := TryCandidates(ctx, current, cands, path, visited, o);
      if r.found then CompletesAtCurrent(ctx, path, r); r else r
  }

  /** The candidate loop of step: pick by weight, remove, recurse, backtrack. */
  function TryCandidates(ctx: Walker, current: Cell, cands: seq<Candidate>, path: seq<Cell>,
                         visited: set<Cell>, o: Oracle): (r: Search)
    requires UnitDirections(ctx.weights)
    requires Trail(ctx, path, visited, current)
    requires forall c :: c in cands ==>
               && InBounds(c.cell, ctx.width, ctx.height)
               && c.cell !in visited
               && IsAdjacent(current, c.cell)
    ensures !r.found ==> r.path == path && r.visited == visited
    ensures r.found ==> |path| < |r.path| && Completes(ctx, path, |path|, r)
    decreases Unvisited(ctx, visited), 0, |cands|
  {
    if |cands| == 0 then Search(false, path, visited, o)
    else
      var (o1, k) := PickCandidate(o, cands);
      var next := cands[k].cell;
      var rest := cands[..k] + cands[k + 1..];
      assert forall i :: 0 <= i < |rest| ==> rest[i] in cands;
      ExtendTrail(ctx, path, visited, current, next);
      VisitShrinks(ctx, visited, next);
      var sub := Step(ctx, next, path + [next], visited + {next}, o1);
      if sub.found then
        CompletesShorter(ctx, path, next, |path|, sub);
        sub
      else
        assert sub.path[..|sub.path| - 1] == path;
        assert sub.visited - {next} == visited;
        assert Unvisited(ctx, sub.visited - {next}) == Unvisited(ctx, visited);
        TryCandidates(ctx, current, rest, sub.path[..|sub.path| - 1], sub.visited - {next}, sub.rng)
  }

  /** walkPath: null when no walk of at most maxLen cells reaches `end`. */
  function WalkPath(o: Oracle, width: int, height: int, start: Cell, end: Cell,
                    weights: seq<Dir>, maxLen: int): (r: (Oracle, Option<(seq<Cell>, set<Cell>)>))
    requires UnitDirections(weights) && InBounds(start, width, height)
    ensures r.1.Some? ==>
              && ValidPath(r.1.value.0, start, end, width, height)
              && r.1.value.1 == CellSet(r.1.value.0)
              && |r.1.value.0| <= maxLen
              && WithinBudget(r.1.value.0, 0, end, maxLen)
  {
    var ctx := Walker(width, height, end, weights, maxLen);
    var path := [start];
    assert CellSet(path) == {start} by { assert path[0] == start; }
    var s := Step(ctx, start, path, {start}, o);
    if s.found then
      assert s.path[0] == s.path[..1][0] == start;
      (s.rng, Some((s.path, s.visited)))
    else (s.rng, None)
  }

  // ---------------------------------------------------------------------------
  // insertDetour

  /** A path with its cell set: what insertDetour works on. */
  predicate Laid(path: seq<Cell>, visited: set<Cell>, width: int, height: int) {
    && |path| > 0
    && Chain(path)
    && Distinct(path)
    && AllInBounds(path, width, height)
    && visited == CellSet(path)
  }

  datatype Detour = Detour(inserted: bool, path: seq<Cell>, visited: set<Cell>, rng: Oracle)

  /** Replacing the edge path[at] -> path[at+1] by path[at] -> a -> b -> path[at+1]. */
  function Splice(path: seq<Cell>, at: nat, a: Cell, b: Cell): seq<Cell>
    requires at < |path|
  {
    path[..at + 1] + [a, b] + path[at + 1..]
  }

  /** r is path with one edge, the one leaving path[at], bent round two fresh cells. */
  predicate SplicedAt(path: seq<Cell>, visited: set<Cell>, r: Detour, at: int) {
    && 1 <= at <= |path| - 2 && |r.path| == |path| + 2
    && r.path == Splice(path, at, r.path[at + 1], r.path[at + 2])
    && r.visited == visited + {r.path[at + 1], r.path[at + 2]}
  }

  lemma SpliceLaid(path: seq<Cell>, visited: set<Cell>, width: int, height: int, at: nat, a: Cell, b: Cell)
    requires Laid(path, visited, width, height) && at + 1 < |path|
    requires InBounds(a, width, height) && InBounds(b, width, height)
    requires a !in visited && b !in visited && a != b
    requires IsAdjacent(path[at], a) && IsAdjacent(a, b) && IsAdjacent(b, path[at + 1])
    ensures var q := Splice(path, at, a, b);
            && Laid(q, visited + {a, b}, width, height)
            && |q| == |path| + 2 && q[0] == path[0] && Last(q) == Last(path)
  {
    var q := Splice(path, at, a, b);
    assert |q| == |path| + 2;
    assert forall i :: 0 <= i <= at ==> q[i] == path[i];
    assert q[at + 1] == a && q[at + 2] == b;
    assert forall i :: at + 3 <= i < |q| ==> q[i] == path[i - 2];
    forall i | 0 <= i < |q| - 1 ensures Linked(q, i) {
      if i < at {
        assert Linked(path, i);
      } else if i >= at + 3 {
        assert Linked(path, i - 2);
      }
    }
    forall i, j | 0 <= i < j < |q| ensures q[i] != q[j] {
      if i != at + 1 && i != at + 2 && j != at + 1 && j != at + 2 {
        var pi := if i <= at then i else i - 2;
        var pj := if j <= at then j else j - 2;
        assert q[i] == path[pi] && q[j] == path[pj] && pi < pj;
      } else if i == at + 1 || i == at + 2 {
        if j != at + 1 && j != at + 2 {
          var pj := if j <= at then j else j - 2;
          assert q[j] == path[pj] && path[pj] in CellSet(path);
        }
      } else {
        var pi := if i <= at then i else i - 2;
        assert q[i] == path[pi] && path[pi] in CellSet(path);
      }
    }
    assert CellSet(q) == CellSet(path) + {a, b} by {
      forall c | c in CellSet(q) ensures c in CellSet(path) + {a, b} {
        var i :| 0 <= i < |q| && q[i] == c;
        if i <= at { assert path[i] == c; }
        else if i >= at + 3 { assert path[i - 2] == c; }
      }
      forall c | c in CellSet(path) ensures c in CellSet(q) {
        var i :| 0 <= i < |path| && path[i] == c;
        if i <= at { assert q[i] == c; } else { assert q[i + 2] == c; }
      }
      assert q[at + 1] == a && q[at + 2] == b;
    }
  }

  /** Shifting an edge sideways by a unit offset gives a three-edge bend around it. */
  lemma ShiftedEdge(p: Cell, q: Cell, d: Delta)
    requires IsUnit(d) && IsAdjacent(p, q)
    ensures IsAdjacent(p, Shift(p, d)) && IsAdjacent(Shift(p, d), Shift(q, d)) && IsAdjacent(Shift(q, d), q)
    ensures Shift(p, d) != Shift(q, d)
  {
  }

  /** The candidate loop of insertDetour: pick an offset at random, splice when both cells are free. */
  function TryOffsets(o: Oracle, offsets: seq<Delta>, path: seq<Cell>, visited: set<Cell>,
                      at: nat, width: int, height: int): (r: Detour)
    requires Laid(path, visited, width, height) && at + 1 < |path|
    requires forall i :: 0 <= i < |offsets| ==> IsUnit(offsets[i])
    ensures Laid(r.path, r.visited, width, height)
    ensures r.path[0] == path[0] && Last(r.path) == Last(path)
    ensures !r.inserted ==> r.path == path && r.visited == visited
    ensures r.inserted ==> |r.path| == |path| + 2 && visited < r.visited
    ensures r.inserted ==> r.path == Splice(path, at, r.path[at + 1], r.path[at + 2])
    ensures r.inserted ==> r.visited == visited + {r.path[at + 1], r.path[at + 2]}
    ensures r.rng.draw == o.draw
    decreases |offsets|
  {
    if |offsets| == 0 then Detour(false, path, visited, o)
    else
      var (o1, k) := RandomInt(o, 0, |offsets| - 1);
      var pick := offsets[k];
      var rest := offsets[..k] + offsets[k + 1..];
      var a := Shift(path[at], pick);
      var b := Shift(path[at + 1], pick);
      if !InBounds(a, width, height) || !InBounds(b, width, height) then
        TryOffsets(o1, rest, path, visited, at, width, height)
      else if a in visited || b in visited then
        TryOffsets(o1, rest, path, visited, at, width, height)
      else
        assert Linked(path, at);
        ShiftedEdge(path[at], path[at + 1], pick);
        SpliceLaid(path, visited, width, height, at, a, b);
        var q := Splice(path, at, a, b);
        assert q[at + 1] == a && q[at + 2] == b;
        Detour(true, q, visited + {a, b}, o1)
  }

  /**
   * insertDetour: nothing (and no draw) below three cells; otherwise a random
   * interior edge is replaced by a three-edge bend on its left or right side.
   */
  function InsertDetour(o: Oracle, path: seq<Cell>, visited: set<Cell>, width: int, height: int): (r: Detour)
    requires Laid(path, visited, width, height)
    ensures |path| < 3 ==> r == Detour(false, path, visited, o)
    ensures Laid(r.path, r.visited, width, height)
    ensures r.path[0] == path[0] && Last(r.path) == Last(path)
    ensures !r.inserted ==> r.path == path && r.visited == visited
    ensures r.inserted ==> |r.path| == |path| + 2 && visited < r.visited
    ensures r.inserted ==> exists at :: SplicedAt(path, visited, r, at)
    ensures r.rng.draw == o.draw
  {
    if |path| < 3 then Detour(false, path, visited, o)
    else
      var (o1, at) := RandomInt(o, 1, |path| - 2);
      var from := path[at];
      var to := path[at + 1];
      var r :=
        if from.x == to.x then
          TryOffsets(o1, [Delta(-1, 0), Delta(1, 0)], path, visited, at, width, height)
        else if from.y == to.y then
          TryOffsets(o1, [Delta(0, -1), Delta(0, 1)], path, visited, at, width, height)
        else Detour(false, path, visited, o1);
      assert r.inserted ==> SplicedAt(path, visited, r, at);
      r
  }

  /** A detour loop: keep inserting while shorter than `target`, for at most `attempts` tries. */
  function PadDetours(o: Oracle, path: seq<Cell>, visited: set<Cell>, width: int, height: int,
                      target: int, attempts: nat): (r: Detour)
    requires Laid(path, visited, width, height)
    ensures Laid(r.path, r.visited, width, height)
    ensures r.path[0] == path[0] && Last(r.path) == Last(path)
    ensures |path| <= |r.path| && |r.path| % 2 == |path| % 2
    ensures |path| >= target ==> r.path == path
    decreases attempts
  {
    if |path| < target && attempts > 0 then
      var d := InsertDetour(o, path, visited, width, height);
      var r := PadDetours(d.rng, d.path, d.visited, width, height, target, attempts - 1);
      EvenStep(|r.path|, |d.path|, |path|);
      r
    else Detour(false, path, visited, o)
  }

  lemma EvenStep(x: int, y: int, z: int)
    requires x % 2 == y % 2 && (y == z || y == z + 2)
    ensures x % 2 == z % 2
  {
  }

  // ---------------------------------------------------------------------------
  // The staircase fast path

  function Repeat(d: Delta, n: nat): (r: seq<Delta>)
    ensures |r| == n && forall i :: 0 <= i < n ==> r[i] == d
  {
    if n == 0 then [] else [d] + Repeat(d, n - 1)
  }

  lemma {:induction false} RepeatCount(d: Delta, n: nat, e: Delta)
    ensures multiset(Repeat(d, n))[e] == if e == d then n else 0
  {
    if n > 0 {
      RepeatCount(d, n - 1, e);
      assert Repeat(d, n) == [d] + Repeat(d, n - 1);
    }
  }

  lemma RepeatMembers(d: Delta, n: nat, e: Delta)
    requires e in multiset(Repeat(d, n))
    ensures e == d
  {
  }

  function StepToward(from: int, to: int): int {
    if to > from then 1 else -1
  }

  /** The moves of the fast path before shuffling: all x-steps, then all y-steps. */
  function FastMoves(start: Cell, end: Cell): seq<Delta> {
    Repeat(Delta(StepToward(start.x, end.x), 0), Abs(end.x - start.x))
      + Repeat(Delta(0, StepToward(start.y, end.y)), Abs(end.y - start.y))
  }

  /** The cells visited by applying the moves one by one from `c`. */
  function Trace(c: Cell, moves: seq<Delta>): (r: seq<Cell>)
    ensures |r| == |moves| + 1 && r[0] == c
    decreases |moves|
  {
    if |moves| == 0 then [c] else [c] + Trace(Shift(c, moves[0]), moves[1..])
  }

  predicate Within(v: int, p: int, q: int) {
    (p <= v <= q) || (q <= v <= p)
  }

  /** sx*x + sy*y for signs sx and sy. */
  function Rank(c: Cell, sx: int, sy: int): int {
    (if sx == 1 then c.x else -c.x) + (if sy == 1 then c.y else -c.y)
  }

  predicate IsSign(s: int) {
    s == 1 || s == -1
  }

  /** Every move is an x-step (sx, 0) or a y-step (0, sy). */
  predicate StairMoves(moves: seq<Delta>, sx: int, sy: int) {
    forall i :: 0 <= i < |moves| ==> moves[i] == Delta(sx, 0) || moves[i] == Delta(0, sy)
  }

  lemma StairMovesTail(moves: seq<Delta>, sx: int, sy: int)
    requires |moves| > 0 && StairMoves(moves, sx, sy)
    ensures StairMoves(moves[1..], sx, sy)
  {
    forall i | 0 <= i < |moves| - 1 ensures moves[1..][i] == Delta(sx, 0) || moves[1..][i] == Delta(0, sy) {
      assert moves[1..][i] == moves[i + 1];
    }
  }

  lemma StairUnits(moves: seq<Delta>, sx: int, sy: int)
    requires IsSign(sx) && IsSign(sy) && StairMoves(moves, sx, sy)
    ensures forall i :: 0 <= i < |moves| ==> IsUnit(moves[i])
  {
  }

  /** a x-steps and b y-steps end at c + (sx*a, sy*b), whatever their order. */
  lemma {:induction false} TraceEnd(c: Cell, moves: seq<Delta>, sx: int, sy: int, a: nat, b: nat)
    requires IsSign(sx) && IsSign(sy) && StairMoves(moves, sx, sy)
    requires multiset(moves)[Delta(sx, 0)] == a && multiset(moves)[Delta(0, sy)] == b
    ensures |moves| == a + b
    ensures Last(Trace(c, moves)) == Cell(c.x + sx * a, c.y + sy * b)
    decreases |moves|
  {
    if |moves| == 0 {
      assert multiset(moves) == multiset{};
    } else {
      var m := moves[0];
      var rest := moves[1..];
      assert moves == [m] + rest;
      StairMovesTail(moves, sx, sy);
      var t2 := Trace(Shift(c, m), rest);
      assert Last(Trace(c, moves)) == Last(t2);
      if m == Delta(sx, 0) {
        TraceEnd(Shift(c, m), rest, sx, sy, a - 1, b);
      } else {
        TraceEnd(Shift(c, m), rest, sx, sy, a, b - 1);
      }
    }
  }

  /** Unit moves trace a chain. */
  lemma {:induction false} TraceChain(c: Cell, moves: seq<Delta>)
    requires forall i :: 0 <= i < |moves| ==> IsUnit(moves[i])
    ensures Chain(Trace(c, moves))
    decreases |moves|
  {
    if |moves| > 0 {
      var t := Trace(c, moves);
      var c2 := Shift(c, moves[0]);
      var t2 := Trace(c2, moves[1..]);
      assert t == [c] + t2;
      assert forall i :: 0 <= i < |moves| - 1 ==> moves[1..][i] == moves[i + 1];
      TraceChain(c2, moves[1..]);
      forall i | 0 <= i < |t| - 1 ensures Linked(t, i) {
        if i > 0 { assert t[i] == t2[i - 1] && t[i + 1] == t2[i] && Linked(t2, i - 1); }
      }
    }
  }

  /** Along a staircase the rank sx*x + sy*y grows by exactly one per cell. */
  lemma {:induction false} TraceRank(c: Cell, moves: seq<Delta>, sx: int, sy: int)
    requires IsSign(sx) && IsSign(sy) && StairMoves(moves, sx, sy)
    ensures forall i :: 0 <= i < |Trace(c, moves)| ==> Rank(Trace(c, moves)[i], sx, sy) == Rank(c, sx, sy) + i
    decreases |moves|
  {
    if |moves| > 0 {
      var t := Trace(c, moves);
      var c2 := Shift(c, moves[0]);
      var t2 := Trace(c2, moves[1..]);
      assert t == [c] + t2;
      StairMovesTail(moves, sx, sy);
      TraceRank(c2, moves[1..], sx, sy);
      assert Rank(c2, sx, sy) == Rank(c, sx, sy) + 1;
      forall i | 1 <= i < |t| ensures Rank(t[i], sx, sy) == Rank(c, sx, sy) + i {
        assert t[i] == t2[i - 1];
        assert Rank(t2[i - 1], sx, sy) == Rank(c2, sx, sy) + (i - 1);
      }
    }
  }

  /** A staircase moves monotonically, so it stays in the box spanned by its ends. */
  lemma {:induction false} TraceBox(c: Cell, moves: seq<Delta>, sx: int, sy: int)
    requires IsSign(sx) && IsSign(sy) && StairMoves(moves, sx, sy)
    ensures var t := Trace(c, moves);
            && (sx == 1 ==> c.x <= Last(t).x) && (sx == -1 ==> Last(t).x <= c.x)
            && (sy == 1 ==> c.y <= Last(t).y) && (sy == -1 ==> Last(t).y <= c.y)
            && forall i :: 0 <= i < |t| ==> Within(t[i].x, c.x, Last(t).x) && Within(t[i].y, c.y, Last(t).y)
    decreases |moves|
  {
    if |moves| > 0 {
      var t := Trace(c, moves);
      var c2 := Shift(c, moves[0]);
      var t2 := Trace(c2, moves[1..]);
      assert t == [c] + t2;
      assert Last(t) == Last(t2);
      StairMovesTail(moves, sx, sy);
      TraceBox(c2, moves[1..], sx, sy);
      forall i | 1 <= i < |t| ensures Within(t[i].x, c.x, Last(t).x) && Within(t[i].y, c.y, Last(t).y) {
        assert t[i] == t2[i - 1];
      }
    }
  }

  /** Cells with pairwise different ranks are distinct. */
  lemma RankedDistinct(t: seq<Cell>, sx: int, sy: int, base: int)
    requires forall i :: 0 <= i < |t| ==> Rank(t[i], sx, sy) == base + i
    ensures Distinct(t)
  {
    forall i, j | 0 <= i < j < |t| ensures t[i] != t[j] {
      assert Rank(t[i], sx, sy) != Rank(t[j], sx, sy);
    }
  }

  /** A sequence inside the box of two in-bounds corners is in bounds. */
  lemma BoxedInBounds(t: seq<Cell>, p: Cell, q: Cell, width: int, height: int)
    requires InBounds(p, width, height) && InBounds(q, width, height)
    requires forall i :: 0 <= i < |t| ==> Within(t[i].x, p.x, q.x) && Within(t[i].y, p.y, q.y)
    ensures AllInBounds(t, width, height)
  {
  }

  /** a copies of one move followed by b copies of another. */
  lemma TwoRepeats(mx: Delta, my: Delta, a: nat, b: nat)
    requires mx != my
    ensures multiset(Repeat(mx, a) + Repeat(my, b))[mx] == a
    ensures multiset(Repeat(mx, a) + Repeat(my, b))[my] == b
    ensures forall e :: e in multiset(Repeat(mx, a) + Repeat(my, b)) ==> e == mx || e == my
  {
    var m := multiset(Repeat(mx, a) + Repeat(my, b));
    assert m == multiset(Repeat(mx, a)) + multiset(Repeat(my, b));
    RepeatCount(mx, a, mx);
    RepeatCount(my, b, mx);
    RepeatCount(mx, a, my);
    RepeatCount(my, b, my);
    forall e | e in m ensures e == mx || e == my {
      if e in multiset(Repeat(mx, a)) {
        RepeatMembers(mx, a, e);
      } else {
        RepeatMembers(my, b, e);
      }
    }
  }

  /** FastMoves holds a x-steps and b y-steps and nothing else. */
  lemma FastMovesCounts(start: Cell, end: Cell, sx: int, sy: int)
    requires sx == StepToward(start.x, end.x) && sy == StepToward(start.y, end.y)
    ensures multiset(FastMoves(start, end))[Delta(sx, 0)] == Abs(end.x - start.x)
    ensures multiset(FastMoves(start, end))[Delta(0, sy)] == Abs(end.y - start.y)
    ensures forall e :: e in multiset(FastMoves(start, end)) ==> e == Delta(sx, 0) || e == Delta(0, sy)
  {
    var mx := Delta(sx, 0);
    var my := Delta(0, sy);
    var a := Abs(end.x - start.x);
    var b := Abs(end.y - start.y);
    assert mx != my;
    assert FastMoves(start, end) == Repeat(mx, a) + Repeat(my, b);
    TwoRepeats(mx, my, a, b);
  }

  /** The moves of a shuffle of FastMoves: only the two steps, in the right numbers. */
  lemma FastMovesShape(start: Cell, end: Cell, moves: seq<Delta>)
    requires multiset(moves) == multiset(FastMoves(start, end))
    ensures var sx := StepToward(start.x, end.x);
            var sy := StepToward(start.y, end.y);
            && StairMoves(moves, sx, sy)
            && multiset(moves)[Delta(sx, 0)] == Abs(end.x - start.x)
            && multiset(moves)[Delta(0, sy)] == Abs(end.y - start.y)
  {
    FastMovesCounts(start, end, StepToward(start.x, end.x), StepToward(start.y, end.y));
    forall i | 0 <= i < |moves|
      ensures moves[i] == Delta(StepToward(start.x, end.x), 0) || moves[i] == Delta(0, StepToward(start.y, end.y))
    {
      assert moves[i] in multiset(moves);
    }
  }

  /** A shuffle of the fast-path moves traces a shortest valid path between the corners. */
  lemma FastPathValid(start: Cell, end: Cell, moves: seq<Delta>, width: int, height: int)
    requires InBounds(start, width, height) && InBounds(end, width, height)
    requires multiset(moves) == multiset(FastMoves(start, end))
    ensures ValidPath(Trace(start, moves), start, end, width, height)
    ensures |Trace(start, moves)| == Manhattan(start, end) + 1
  {
    var sx := StepToward(start.x, end.x);
    var sy := StepToward(start.y, end.y);
    var t := Trace(start, moves);
    FastMovesShape(start, end, moves);
    TraceEnd(start, moves, sx, sy, Abs(end.x - start.x), Abs(end.y - start.y));
    assert Last(t) == end;
    StairUnits(moves, sx, sy);
    TraceChain(start, moves);
    TraceRank(start, moves, sx, sy);
    RankedDistinct(t, sx, sy, Rank(start, sx, sy));
    TraceBox(start, moves, sx, sy);
    BoxedInBounds(t, start, end, width, height);
  }

  // ---------------------------------------------------------------------------
  // generatePath

  datatype PathRules = PathRules(minLen: int, maxLen: int, weights: seq<Dir>, maxRetries: int)

  datatype GeneratedPath = GeneratedPath(start: Cell, end: Cell, cells: seq<Cell>)

  /** What generatePath promises of a returned corridor. */
  predicate Acceptable(p: GeneratedPath, width: int, height: int, rules: PathRules) {
    && ValidPath(p.cells, p.start, p.end, width, height)
    && IsDiagonal(p.start, p.end, width, height)
    && rules.minLen + 1 <= |p.cells| <= rules.maxLen + 1
  }

  /** The fixed-length branch: shuffle the staircase, then pad with up to 120 detours. */
  function FastAttempt(o: Oracle, width: int, height: int, start: Cell, end: Cell, target: int): (r: (Oracle, Option<GeneratedPath>))
    requires InBounds(start, width, height) && InBounds(end, width, height)
    ensures r.1.Some? ==> r.1.value.start == start && r.1.value.end == end
    ensures r.1.Some? ==> ValidPath(r.1.value.cells, start, end, width, height) && |r.1.value.cells| == target + 1
  {
    var (o1, moves) := Shuffle(o, FastMoves(start, end));
    var path := Trace(start, moves);
    FastPathValid(start, end, moves, width, height);
    var targetCells := target + 1;
    if |path| == targetCells then (o1, Some(GeneratedPath(start, end, path)))
    else
      var padded := PadDetours(o1, path, CellSet(path), width, height, targetCells, 120);
      if |padded.path| == targetCells then (padded.rng, Some(GeneratedPath(start, end, padded.path)))
      else (padded.rng, None)
  }

  /** The general branch: walk with budget maxLen + 1, filter, pad with up to 80 detours. */
  function WalkAttempt(o: Oracle, width: int, height: int, start: Cell, end: Cell, rules: PathRules): (r: (Oracle, Option<GeneratedPath>))
    requires InBounds(start, width, height) && UnitDirections(rules.weights)
    ensures r.1.Some? ==> r.1.value.start == start && r.1.value.end == end
    ensures r.1.Some? ==> ValidPath(r.1.value.cells, start, end, width, height)
    ensures r.1.Some? ==> rules.minLen + 1 <= |r.1.value.cells| <= rules.maxLen + 1
  {
    var (o1, walked) := WalkPath(o, width, height, start, end, rules.weights, rules.maxLen + 1);
    if walked.None? then (o1, None)
    else FinishWalk(o1, width, height, start, end, rules, walked.value.0, walked.value.1)
  }

  /** The checks and the detour loop that follow a successful walk. */
  function FinishWalk(o: Oracle, width: int, height: int, start: Cell, end: Cell, rules: PathRules,
                      path: seq<Cell>, visited: set<Cell>): (r: (Oracle, Option<GeneratedPath>))
    requires ValidPath(path, start, end, width, height) && visited == CellSet(path)
    ensures r.1.Some? ==> r.1.value.start == start && r.1.value.end == end
    ensures r.1.Some? ==> ValidPath(r.1.value.cells, start, end, width, height)
    ensures r.1.Some? ==> rules.minLen + 1 <= |r.1.value.cells| <= rules.maxLen + 1
    ensures rules.minLen == rules.maxLen && (rules.minLen + 1 - |path|) % 2 != 0 ==> r.1.None?
  {
    var fixed := rules.minLen == rules.maxLen;
    var target := rules.minLen;
    if fixed && |path| > target + 1 then (o, None)
    else if |path| > rules.maxLen + 1 then (o, None)
    else if fixed && (target + 1 - |path|) % 2 != 0 then (o, None)
    else
      var padded := PadDetours(o, path, visited, width, height, rules.minLen + 1, 80);
      if |padded.path| < rules.minLen + 1 || |padded.path| > rules.maxLen + 1 then (padded.rng, None)
      else (padded.rng, Some(GeneratedPath(start, end, padded.path)))
  }

  /** One iteration of generatePath's retry loop; None where the source continues. */
  function Attempt(o: Oracle, width: int, height: int, rules: PathRules): (r: (Oracle, Option<GeneratedPath>))
    requires width >= 1 && height >= 1 && UnitDirections(rules.weights)
    ensures r.1.Some? ==> Acceptable(r.1.value, width, height, rules)
  {
    var (o1, start, end) := PickStartEnd(o, width, height);
    DiagonalCorners(start, end, width, height);
    var manhattan := Manhattan(start, end);
    var fixed := rules.minLen == rules.maxLen;
    var target := rules.minLen;
    if fixed && target >= manhattan && (target - manhattan) % 2 == 0 then
      FastAttempt(o1, width, height, start, end, target)
    else
      WalkAttempt(o1, width, height, start, end, rules)
  }

  /** The retry loop of generatePath: run `attempt` until one succeeds, at most `left` times. */
  function Retry(o: Oracle, attempt: Oracle -> (Oracle, Option<GeneratedPath>), left: nat): (r: (Oracle, Option<GeneratedPath>))
    ensures r.1.Some? ==> left > 0
    decreases left
  {
    if left == 0 then (o, None)
    else
      var a := attempt(o);
      if a.1.Some? then a else Retry(a.0, attempt, left - 1)
  }

  /** If every attempt's result is acceptable, so is the loop's. */
  lemma {:induction false} RetryKeeps(o: Oracle, attempt: Oracle -> (Oracle, Option<GeneratedPath>), left: nat,
                                      width: int, height: int, rules: PathRules)
    requires forall o' :: attempt(o').1.Some? ==> Acceptable(attempt(o').1.value, width, height, rules)
    ensures var r := Retry(o, attempt, left); r.1.Some? ==> Acceptable(r.1.value, width, height, rules)
    decreases left
  {
    if left > 0 {
      RetryKeeps(attempt(o).0, attempt, left - 1, width, height, rules);
    }
  }

  /** If every attempt fails, the loop returns null. */
  lemma {:induction false} RetryFails(o: Oracle, attempt: Oracle -> (Oracle, Option<GeneratedPath>), left: nat)
    requires forall o' :: attempt(o').1.None?
    ensures Retry(o, attempt, left).1.None?
    decreases left
  {
    if left > 0 {
      RetryFails(attempt(o).0, attempt, left - 1);
    }
  }

  /** One attempt as a function of the generator. */
  function AttemptFn(width: int, height: int, rules: PathRules): Oracle -> (Oracle, Option<GeneratedPath>)
    requires width >= 1 && height >= 1 && UnitDirections(rules.weights)
  {
    o => Attempt(o, width, height, rules)
  }

  /** The number of loop iterations `attempts < maxRetries` allows. */
  function Tries(rules: PathRules): nat {
    if rules.maxRetries > 0 then rules.maxRetries else 0
  }

  /** generatePath: up to maxRetries attempts; null when all of them fail. */
  function GeneratePath(o: Oracle, width: int, height: int, rules: PathRules): (r: (Oracle, Option<GeneratedPath>))
    requires width >= 1 && height >= 1 && UnitDirections(rules.weights)
    ensures r.1.Some? ==> Acceptable(r.1.value, width, height, rules)
    ensures rules.maxRetries <= 0 ==> r.1.None?
  {
    RetryKeeps(o, AttemptFn(width, height, rules), Tries(rules), width, height, rules);
    Retry(o, AttemptFn(width, height, rules), Tries(rules))
  }

  // ---------------------------------------------------------------------------
  // What the length rules allow

  /**
   * With minLen == maxLen, a target whose parity differs from the corner
   * distance can never be met: a walk's length has the parity of that distance
   * and detours add two cells at a time.
   */
  lemma OddGap(target: int, m: int, n: int)
    requires (n - 1 + m) % 2 == 0 && (target - m) % 2 != 0
    ensures (target + 1 - n) % 2 != 0
  {
  }

  /** The walk branch rejects every walk when the target's parity differs from the corner distance. */
  lemma ParityBlocksWalk(o: Oracle, width: int, height: int, start: Cell, end: Cell, rules: PathRules)
    requires InBounds(start, width, height) && UnitDirections(rules.weights)
    requires rules.minLen == rules.maxLen
    requires (rules.minLen - Manhattan(start, end)) % 2 != 0
    ensures WalkAttempt(o, width, height, start, end, rules).1.None?
  {
    var walked := WalkPath(o, width, height, start, end, rules.weights, rules.maxLen + 1).1;
    if walked.Some? {
      var path := walked.value.0;
      ChainParity(path);
      OddGap(rules.minLen, Manhattan(start, end), |path|);
      assert FinishWalk(WalkPath(o, width, height, start, end, rules.weights, rules.maxLen + 1).0,
                        width, height, start, end, rules, path, walked.value.1).1.None?;
    }
  }

  /**
   * With minLen == maxLen, a target whose parity differs from the corner
   * distance can never be met: a walk's length has the parity of that distance
   * and detours add two cells at a time.
   */
  lemma ParityBlocksAttempt(o: Oracle, width: int, height: int, rules: PathRules)
    requires width >= 1 && height >= 1 && UnitDirections(rules.weights)
    requires rules.minLen == rules.maxLen
    requires (rules.minLen - (width - 1) - (height - 1)) % 2 != 0
    ensures Attempt(o, width, height, rules).1.None?
  {
    var (o1, start, end) := PickStartEnd(o, width, height);
    DiagonalCorners(start, end, width, height);
    ParityBlocksWalk(o1, width, height, start, end, rules);
  }

  /** PATH_RULES of constants.js. */
  const DefaultWeights: seq<Dir> := [Dir(1, 0, 0.55), Dir(0, -1, 0.15), Dir(0, 1, 0.15), Dir(-1, 0, 0.15)]
  const DefaultPathRules: PathRules := PathRules(19, 19, DefaultWeights, 160)

  /** The default rules on the 10 x 10 grid: generatePath returns null for every seed. */
  lemma DefaultRulesNeverGenerate(o: Oracle)
    ensures GeneratePath(o, 10, 10, DefaultPathRules).1.None?
  {
    var attempt := AttemptFn(10, 10, DefaultPathRules);
    forall o' ensures attempt(o').1.None? {
      ParityBlocksAttempt(o', 10, 10, DefaultPathRules);
    }
    RetryFails(o, attempt, 160);
  }

  /** The rules with an 18-step target: the first attempt yields a 19-cell corridor. */
  const CorrectedPathRules: PathRules := PathRules(18, 18, DefaultWeights, 160)

  lemma CorrectedAttempt(o: Oracle)
    ensures var r := Attempt(o, 10, 10, CorrectedPathRules);
            r.1.Some? && |r.1.value.cells| == 19
  {
    var (o1, start, end) := PickStartEnd(o, 10, 10);
    DiagonalCorners(start, end, 10, 10);
    assert |FastMoves(start, end)| == 18;
  }

  lemma CorrectedRulesGenerate(o: Oracle)
    ensures var r := GeneratePath(o, 10, 10, CorrectedPathRules);
            r.1.Some? && |r.1.value.cells| == 19
  {
    var attempt := AttemptFn(10, 10, CorrectedPathRules);
    CorrectedAttempt(o);
    assert attempt(o) == Attempt(o, 10, 10, CorrectedPathRules);
    assert Retry(o, attempt, 160) == attempt(o);
  }
}
