/** Round-robin selection of matches over the cells of an image grid. */
module BalancedSelection {

  datatype Match = Match(x: real, y: real, confidence: real)

  function Clamp(v: int, high: nat): nat {
    if v < 0 then 0 else if v > high then high else v
  }

  /** Coordinate `v` of a side of width `w`, counted in parts of which the side has `g`. */
  function InParts(v: real, w: real, g: real): real
    requires w > 0.0
  {
    v * g / w
  }

  function CellAlong(v: real, size: nat, grid: nat): (c: nat)
    requires grid > 1
    ensures c < grid
  {
    Clamp(InParts(v, (if size > 1 then size else 1) as real, grid as real).Floor, grid - 1)
  }

  lemma CellBound(row: nat, column: nat, grid: nat)
    requires row < grid && column < grid
    ensures row * grid + column < grid * grid
  {
    assert row * grid <= (grid - 1) * grid;
    assert (grid - 1) * grid == grid * grid - grid;
  }

  /** Row-major number of the cell a match falls into. */
  function CellOf(m: Match, width: nat, height: nat, grid: nat): (c: nat)
    requires grid > 1
    ensures c < grid * grid
  {
    var row, column := CellAlong(m.y, height, grid), CellAlong(m.x, width, grid);
    CellBound(row, column, grid);
    row * grid + column
  }

  lemma Times(a: real, b: real, c: real)
    requires a < b && c > 0.0
    ensures a * c < b * c
  {
  }

  lemma QuotientBelow(a: real, b: real, w: real)
    requires w > 0.0
    ensures a < b * w <==> a / w < b
  {
    var x := a / w;
    assert x * w == a;
    if x < b {
      Times(x, b, w);
    } else if x > b {
      Times(b, x, w);
    }
  }

  /** The part number `x` falls into when parts are one wide. */
  lemma FloorClamped(x: real, grid: nat)
    requires grid > 1
    ensures var c := Clamp(x.Floor, grid - 1);
            && (x < 0.0 ==> c == 0) && (x >= grid as real ==> c == grid - 1)
            && (0.0 <= x < grid as real ==> c as real <= x < (c + 1) as real)
  {
  }

  /** Side `w` is cut into `g` equal parts, the last one number `last`: part `c` is that of coordinate `v`, which lies
      in it, or beyond the border next to it. */
  predicate PartOf(v: real, w: real, g: real, c: nat, last: int) {
    && (v < 0.0 ==> c == 0)
    && (v >= w ==> c == last)
    && (0.0 <= v < w ==> c as real * w <= v * g < (c + 1) as real * w)
  }

  lemma PartHolds(v: real, size: nat, grid: nat)
    requires grid > 1
    ensures PartOf(v, (if size > 1 then size else 1) as real, grid as real, CellAlong(v, size, grid), grid - 1)
  {
    ClampedPart(v, (if size > 1 then size else 1) as real, grid as real, grid);
  }

  lemma ClampedPart(v: real, w: real, g: real, grid: nat)
    requires w > 0.0 && grid > 1 && g == grid as real
    ensures PartOf(v, w, g, Clamp(InParts(v, w, g).Floor, grid - 1), grid - 1)
  {
    var x := InParts(v, w, g);
    FloorClamped(x, grid);
    PartBounds(v, w, g, Clamp(x.Floor, grid - 1), grid - 1, x);
  }

  lemma PartBounds(v: real, w: real, g: real, c: nat, last: int, x: real)
    requires w > 0.0 && g > 0.0 && x == InParts(v, w, g)
    requires (x < 0.0 ==> c == 0) && (x >= g ==> c == last) && (0.0 <= x < g ==> c as real <= x < (c + 1) as real)
    ensures PartOf(v, w, g, c, last)
  {
    var a := v * g;
    QuotientBelow(a, 0.0, w);
    QuotientBelow(a, g, w);
    QuotientBelow(a, c as real, w);
    QuotientBelow(a, (c + 1) as real, w);
    ScaledOrder(v, w, g);
  }

  lemma ScaledOrder(v: real, w: real, g: real)
    requires w > 0.0 && g > 0.0
    ensures v < 0.0 <==> v * g < 0.0
    ensures v < w <==> v * g < g * w
  {
    if v < w { Times(v, w, g); } else if v > w { Times(w, v, g); }
    if v < 0.0 { Times(v, 0.0, g); } else if v > 0.0 { Times(0.0, v, g); }
  }

  lemma SmallMultiple(d: int, grid: int, x: int)
    requires d * grid == x && -grid < x < grid
    ensures d == 0
  {
    if d >= 1 {
      MultipleGrows(d, grid);
    } else if d <= -1 {
      assert -d * grid == -x;
      MultipleGrows(-d, grid);
    }
  }

  lemma MultipleGrows(d: int, grid: int)
    requires d >= 1 && grid > 0
    ensures d * grid >= grid
  {
  }

  lemma RowMajor(n: nat, row: nat, column: nat, grid: nat)
    requires column < grid && n == row * grid + column
    ensures n / grid == row && n % grid == column
  {
    assert n == n / grid * grid + n % grid;
    assert (n / grid - row) * grid == n / grid * grid - row * grid;
    SmallMultiple(n / grid - row, grid, column - n % grid);
  }

  lemma CellIsRowMajor(m: Match, width: nat, height: nat, grid: nat)
    requires grid > 1
    ensures CellOf(m, width, height, grid) / grid == CellAlong(m.y, height, grid)
    ensures CellOf(m, width, height, grid) % grid == CellAlong(m.x, width, grid)
  {
    var row, column := CellAlong(m.y, height, grid), CellAlong(m.x, width, grid);
    var n := CellOf(m, width, height, grid);
    assert n == row * grid + column;
    RowMajor(n, row, column, grid);
  }

  /** Part `c` of a side of this size, cut into `grid` parts, holds `v`. */
  predicate LiesIn(v: real, c: int, size: nat, grid: nat) {
    c as real * size as real <= v * grid as real < (c + 1) as real * size as real
  }

  lemma PartLiesIn(v: real, size: nat, grid: nat)
    requires grid > 1 && 0.0 <= v < size as real
    ensures LiesIn(v, CellAlong(v, size, grid), size, grid)
  {
    PartHolds(v, size, grid);
  }

  /** A match inside the image lies in the cell it is counted to, rows from the top and columns from the left. */
  lemma MatchLiesInItsCell(m: Match, width: nat, height: nat, grid: nat)
    requires grid > 1 && 0.0 <= m.x < width as real && 0.0 <= m.y < height as real
    ensures var c := CellOf(m, width, height, grid); LiesIn(m.y, c / grid, height, grid) && LiesIn(m.x, c % grid, width, grid)
  {
    PartLiesIn(m.y, height, grid);
    PartLiesIn(m.x, width, grid);
    CellIsRowMajor(m, width, height, grid);
  }

  // ---------------------------------------------------------------- one cell, best first

  /** Higher confidence first; equal confidences by index. */
  predicate Better(points: seq<Match>, i: nat, j: nat)
    requires i < |points| && j < |points|
  {
    points[i].confidence > points[j].confidence || (points[i].confidence == points[j].confidence && i <= j)
  }

  predicate InRange(points: seq<Match>, xs: seq<nat>) {
    forall i :: 0 <= i < |xs| ==> xs[i] < |points|
  }

  predicate BestFirst(points: seq<Match>, xs: seq<nat>)
    requires InRange(points, xs)
  {
    forall i, j :: 0 <= i < j < |xs| ==> Better(points, xs[i], xs[j])
  }

  lemma AllBetter(points: seq<Match>, xs: seq<nat>, x: nat, r: seq<nat>, last: nat)
    requires InRange(points, xs) && InRange(points, r) && x < |points| && last < |points|
    requires multiset(r) == multiset(xs) + multiset{x}
    requires (forall i :: 0 <= i < |xs| ==> Better(points, xs[i], last)) && Better(points, x, last)
    ensures forall i :: 0 <= i < |r| ==> Better(points, r[i], last)
  {
    forall i | 0 <= i < |r| ensures Better(points, r[i], last) {
      assert r[i] in multiset(r);
    }
  }

  lemma WorstLast(points: seq<Match>, xs: seq<nat>, x: nat)
    requires InRange(points, xs) && x < |points| && BestFirst(points, xs)
    requires xs == [] || Better(points, xs[|xs| - 1], x) || forall i :: 0 <= i < |xs| ==> Better(points, xs[i], x)
    ensures InRange(points, xs + [x]) && BestFirst(points, xs + [x])
  {
    forall i | 0 <= i < |xs| ensures Better(points, xs[i], x) {
      assert i < |xs| - 1 ==> Better(points, xs[i], xs[|xs| - 1]);
    }
  }

  function Inserted(points: seq<Match>, xs: seq<nat>, x: nat): (r: seq<nat>)
    requires InRange(points, xs) && x < |points| && BestFirst(points, xs)
    ensures InRange(points, r) && BestFirst(points, r) && multiset(r) == multiset(xs) + multiset{x} && |r| == |xs| + 1
  {
    if xs == [] then [x]
    else
      var last := xs[|xs| - 1];
      assert xs[..|xs| - 1] + [last] == xs;
      if Better(points, last, x) then
        WorstLast(points, xs, x);
        xs + [x]
      else
        var rest := Inserted(points, xs[..|xs| - 1], x);
        AllBetter(points, xs[..|xs| - 1], x, rest, last);
        WorstLast(points, rest, last);
        rest + [last]
  }

  function Sorted(points: seq<Match>, xs: seq<nat>): (r: seq<nat>)
    requires InRange(points, xs)
    ensures InRange(points, r) && BestFirst(points, r) && multiset(r) == multiset(xs) && |r| == |xs|
  {
    if xs == [] then []
    else
      assert xs[..|xs| - 1] + [xs[|xs| - 1]] == xs;
      Inserted(points, Sorted(points, xs[..|xs| - 1]), xs[|xs| - 1])
  }

  /** The indices of one cell in the order they were given. */
  function Bucket(points: seq<Match>, indices: seq<nat>, width: nat, height: nat, grid: nat, cell: nat): (r: seq<nat>)
    requires InRange(points, indices) && grid > 1
    ensures InRange(points, r)
  {
    if indices == [] then []
    else
      var rest := Bucket(points, indices[..|indices| - 1], width, height, grid, cell);
      var x := indices[|indices| - 1];
      if CellOf(points[x], width, height, grid) == cell then rest + [x] else rest
  }

  // ---------------------------------------------------------------- round robin

  function Sum(xs: seq<nat>): nat {
    if xs == [] then 0 else Sum(xs[..|xs| - 1]) + xs[|xs| - 1]
  }

  predicate Within(cells: seq<seq<nat>>, taken: seq<nat>) {
    |taken| == |cells| && forall k :: 0 <= k < |cells| ==> taken[k] <= |cells[k]|
  }

  function TopOf(cell: seq<nat>, n: nat): multiset<nat>
    requires n <= |cell|
  {
    multiset(cell[..n])
  }

  lemma OneMoreTop(cell: seq<nat>, n: nat)
    requires n < |cell|
    ensures TopOf(cell, n + 1) == TopOf(cell, n) + multiset{cell[n]}
  {
    assert cell[..n + 1] == cell[..n] + [cell[n]];
  }

  /** The top `taken[k]` of every cell. */
  function Tops(cells: seq<seq<nat>>, taken: seq<nat>): multiset<nat>
    requires Within(cells, taken)
  {
    if cells == [] then multiset{}
    else
      var n := |cells| - 1;
      Tops(cells[..n], taken[..n]) + TopOf(cells[n], taken[n])
  }

  /** No cell has two fewer than another unless it is exhausted. */
  predicate Fair(cells: seq<seq<nat>>, taken: seq<nat>)
    requires Within(cells, taken)
  {
    forall k, m :: 0 <= k < |cells| && 0 <= m < |cells| && taken[m] < |cells[m]| ==> taken[k] <= taken[m] + 1
  }

  function Lengths(cells: seq<seq<nat>>): seq<nat> {
    seq(|cells|, (k: nat) requires k < |cells| => |cells[k]|)
  }

  lemma {:induction false} SumTaken(taken: seq<nat>, k: nat)
    requires k < |taken|
    ensures Sum(taken[k := taken[k] + 1]) == Sum(taken) + 1
    decreases |taken|
  {
    var n := |taken| - 1;
    if k < n {
      SumTaken(taken[..n], k);
      assert taken[k := taken[k] + 1][..n] == taken[..n][k := taken[k] + 1];
    } else {
      assert taken[k := taken[k] + 1][..n] == taken[..n];
    }
  }

  lemma {:induction false} TopsTaken(cells: seq<seq<nat>>, taken: seq<nat>, k: nat)
    requires Within(cells, taken) && k < |cells| && taken[k] < |cells[k]|
    ensures Tops(cells, taken[k := taken[k] + 1]) == Tops(cells, taken) + multiset{cells[k][taken[k]]}
    decreases |cells|
  {
    var n := |cells| - 1;
    var more := taken[k := taken[k] + 1];
    if k < n {
      TopsTaken(cells[..n], taken[..n], k);
      assert more[..n] == taken[..n][k := taken[k] + 1];
    } else {
      assert more[..n] == taken[..n];
      OneMoreTop(cells[n], taken[n]);
    }
  }

  lemma {:induction false} NothingTaken(cells: seq<seq<nat>>, taken: seq<nat>)
    requires |taken| == |cells| && forall k :: 0 <= k < |cells| ==> taken[k] == 0
    ensures Tops(cells, taken) == multiset{} && Sum(taken) == 0
    decreases |cells|
  {
    if cells != [] {
      NothingTaken(cells[..|cells| - 1], taken[..|cells| - 1]);
    }
  }

  /** After `level` full rounds and the first `p` cells of the next. */
  predicate AtRound(cells: seq<seq<nat>>, taken: seq<nat>, level: nat, p: nat) {
    && Within(cells, taken)
    && forall k :: 0 <= k < |cells| ==>
         taken[k] == (if level + (if k < p then 1 else 0) <= |cells[k]| then level + (if k < p then 1 else 0) else |cells[k]|)
  }

  lemma RoundIsFair(cells: seq<seq<nat>>, taken: seq<nat>, level: nat, p: nat)
    requires AtRound(cells, taken, level, p)
    ensures Fair(cells, taken)
  {
  }

  /** `selected` is made of the top `taken[k]` of every cell. */
  predicate Taking(cells: seq<seq<nat>>, taken: seq<nat>, selected: seq<nat>) {
    Within(cells, taken) && |selected| == Sum(taken) && multiset(selected) == Tops(cells, taken)
  }

  lemma TakeOne(cells: seq<seq<nat>>, taken: seq<nat>, selected: seq<nat>, p: nat, level: nat)
    requires Taking(cells, taken, selected) && AtRound(cells, taken, level, p) && p < |cells|
    ensures if level < |cells[p]| then
              && taken[p] == level
              && Taking(cells, taken[p := level + 1], selected + [cells[p][level]])
              && AtRound(cells, taken[p := level + 1], level, p + 1)
            else AtRound(cells, taken, level, p + 1)
  {
    if level < |cells[p]| {
      SumTaken(taken, p);
      TopsTaken(cells, taken, p);
    }
  }

  /** A round that adds nothing finds every cell exhausted. */
  lemma NothingLeft(cells: seq<seq<nat>>, taken: seq<nat>, level: nat)
    requires AtRound(cells, taken, level, |cells|) && forall k :: 0 <= k < |cells| ==> |cells[k]| <= level
    ensures Sum(taken) == Sum(Lengths(cells))
  {
    assert taken == Lengths(cells);
  }

  // Position `level` of cell `cell`.
  datatype Place = Place(level: nat, cell: nat)

  predicate Earlier(a: Place, b: Place) {
    a.level < b.level || (a.level == b.level && a.cell < b.cell)
  }

  predicate IsPlace(cells: seq<seq<nat>>, a: Place) {
    a.cell < |cells| && a.level < |cells[a.cell]|
  }

  /** `selected` names the indices at these places, level by level and each level cell by cell. */
  predicate Sequenced(cells: seq<seq<nat>>, selected: seq<nat>, places: seq<Place>) {
    && |places| == |selected|
    && (forall i :: 0 <= i < |places| ==> IsPlace(cells, places[i]) && selected[i] == cells[places[i].cell][places[i].level])
    && forall i, j :: 0 <= i < j < |places| ==> Earlier(places[i], places[j])
  }

  /** The places taken are all those before place `p` of the level. */
  ghost predicate AllBefore(cells: seq<seq<nat>>, places: seq<Place>, level: nat, p: nat) {
    forall a: Place :: a in places <==> IsPlace(cells, a) && Earlier(a, Place(level, p))
  }

  /** No place is skipped: one is taken exactly if it is not later than the last one taken. */
  ghost predicate InRounds(cells: seq<seq<nat>>, selected: seq<nat>, places: seq<Place>) {
    && Sequenced(cells, selected, places)
    && forall a: Place :: a in places <==> places != [] && IsPlace(cells, a) && !Earlier(places[|places| - 1], a)
  }

  lemma NoneSkipped(cells: seq<seq<nat>>, selected: seq<nat>, places: seq<Place>, level: nat, p: nat)
    requires Sequenced(cells, selected, places) && AllBefore(cells, places, level, p)
    ensures InRounds(cells, selected, places)
  {
    if places != [] {
      var last := places[|places| - 1];
      assert last in places;
      forall a: Place | a in places ensures !Earlier(last, a) {
        var i :| 0 <= i < |places| && places[i] == a;
      }
      forall a: Place | IsPlace(cells, a) && !Earlier(last, a) ensures a in places {
        assert Earlier(a, last) || a == last;
      }
    }
  }

  lemma PlaceTaken(cells: seq<seq<nat>>, selected: seq<nat>, places: seq<Place>, level: nat, p: nat)
    requires Sequenced(cells, selected, places) && AllBefore(cells, places, level, p) && p < |cells|
    ensures if level < |cells[p]| then
              && Sequenced(cells, selected + [cells[p][level]], places + [Place(level, p)])
              && AllBefore(cells, places + [Place(level, p)], level, p + 1)
            else AllBefore(cells, places, level, p + 1)
  {
    forall i | 0 <= i < |places| ensures Earlier(places[i], Place(level, p)) {
      assert places[i] in places;
    }
    forall a: Place ensures Earlier(a, Place(level, p + 1)) <==> Earlier(a, Place(level, p)) || a == Place(level, p) {}
    if level < |cells[p]| {
      forall a: Place ensures a in places + [Place(level, p)] <==> a in places || a == Place(level, p) {}
    }
  }

  lemma LevelTaken(cells: seq<seq<nat>>, places: seq<Place>, level: nat)
    requires AllBefore(cells, places, level, |cells|)
    ensures AllBefore(cells, places, level + 1, 0)
  {
    forall a: Place | IsPlace(cells, a) ensures Earlier(a, Place(level, |cells|)) <==> Earlier(a, Place(level + 1, 0)) {}
  }

  /** One round over the cells, cut short when the limit is reached. */
  method OneRound(cells: seq<seq<nat>>, limit: nat, level: nat, chosen: seq<nat>, ghost given: seq<nat>, ghost before: seq<Place>)
    returns (selected: seq<nat>, ghost taken: seq<nat>, ghost places: seq<Place>)
    requires AtRound(cells, given, level, 0) && Taking(cells, given, chosen) && |chosen| < limit
    requires Sequenced(cells, chosen, before) && AllBefore(cells, before, level, 0)
    ensures Taking(cells, taken, selected) && Fair(cells, taken) && |chosen| <= |selected| <= limit
    ensures InRounds(cells, selected, places)
    ensures |selected| < limit ==> AtRound(cells, taken, level, |cells|) && AllBefore(cells, places, level, |cells|)
    ensures |selected| == |chosen| ==> Sum(taken) == Sum(Lengths(cells))
  {
    selected, taken, places := chosen, given, before;
    var p := 0;
    while p < |cells| && |selected| < limit
      invariant p <= |cells| && AtRound(cells, taken, level, p)
      invariant Taking(cells, taken, selected) && |chosen| <= |selected| <= limit
      invariant Sequenced(cells, selected, places) && AllBefore(cells, places, level, p)
      invariant |chosen| == |selected| ==> forall k :: 0 <= k < p ==> |cells[k]| <= level
    {
      TakeOne(cells, taken, selected, p, level);
      PlaceTaken(cells, selected, places, level, p);
      if level < |cells[p]| {
        selected := selected + [cells[p][level]];
        taken := taken[p := level + 1];
        places := places + [Place(level, p)];
      }
      p := p + 1;
    }
    RoundIsFair(cells, taken, level, p);
    NoneSkipped(cells, selected, places, level, p);
    if |selected| == |chosen| {
      NothingLeft(cells, taken, level);
    }
  }

  lemma NextRound(cells: seq<seq<nat>>, taken: seq<nat>, level: nat)
    requires AtRound(cells, taken, level, |cells|)
    ensures AtRound(cells, taken, level + 1, 0)
  {
  }

  /** The rounds that fill `selected`. `taken` records how many each cell has given, `places` from where. */
  method RoundRobin(cells: seq<seq<nat>>, limit: nat) returns (selected: seq<nat>, ghost taken: seq<nat>, ghost places: seq<Place>)
    requires limit < Sum(Lengths(cells))
    ensures |selected| == limit && Taking(cells, taken, selected) && Fair(cells, taken)
    ensures InRounds(cells, selected, places)
  {
    selected, places := [], [];
    taken := seq(|cells|, _ => 0);
    NothingTaken(cells, taken);
    RoundIsFair(cells, taken, 0, 0);
    var level := 0;
    while |selected| < limit
      invariant |selected| < limit ==> AtRound(cells, taken, level, 0) && AllBefore(cells, places, level, 0)
      invariant Taking(cells, taken, selected) && Fair(cells, taken) && |selected| <= limit
      invariant InRounds(cells, selected, places)
      decreases limit - |selected|
    {
      selected, taken, places := OneRound(cells, limit, level, selected, taken, places);
      if |selected| < limit {
        NextRound(cells, taken, level);
        LevelTaken(cells, places, level);
      }
      level := level + 1;
    }
  }

  // ---------------------------------------------------------------- the cells of the grid

  /** The nonempty cells numbered below `n`, in order, each best first. */
  function Cells(points: seq<Match>, indices: seq<nat>, width: nat, height: nat, grid: nat, n: nat): seq<seq<nat>>
    requires InRange(points, indices) && grid > 1
  {
    if n == 0 then []
    else
      var rest := Cells(points, indices, width, height, grid, n - 1);
      var bucket := Bucket(points, indices, width, height, grid, n - 1);
      if bucket == [] then rest else rest + [Sorted(points, bucket)]
  }

  /** A cell that is used: it holds only indices of matches counted to it, by falling confidence, equal confidences
      by rising index. */
  predicate CellOk(points: seq<Match>, cell: seq<nat>, width: nat, height: nat, grid: nat, number: nat)
    requires grid > 1
  {
    && cell != []
    && (forall i :: 0 <= i < |cell| ==> cell[i] < |points| && CellOf(points[cell[i]], width, height, grid) == number)
    && forall i, j :: 0 <= i < j < |cell| ==>
         || points[cell[i]].confidence > points[cell[j]].confidence
         || (points[cell[i]].confidence == points[cell[j]].confidence && cell[i] <= cell[j])
  }

  lemma SortedCell(points: seq<Match>, indices: seq<nat>, width: nat, height: nat, grid: nat, cell: nat)
    requires InRange(points, indices) && grid > 1 && Bucket(points, indices, width, height, grid, cell) != []
    ensures CellOk(points, Sorted(points, Bucket(points, indices, width, height, grid, cell)), width, height, grid, cell)
  {
    var bucket := Bucket(points, indices, width, height, grid, cell);
    var sorted := Sorted(points, bucket);
    BucketMembers(points, indices, width, height, grid, cell);
    forall i | 0 <= i < |sorted| ensures CellOf(points[sorted[i]], width, height, grid) == cell {
      assert sorted[i] in multiset(sorted);
    }
    forall i, j | 0 <= i < j < |sorted| ensures Better(points, sorted[i], sorted[j]) {}
  }

  /** The cells have rising numbers below `n`, each of its own. */
  predicate Numbered(points: seq<Match>, cells: seq<seq<nat>>, numbers: seq<nat>, width: nat, height: nat, grid: nat, n: nat)
    requires grid > 1
  {
    && |numbers| == |cells|
    && (forall k :: 0 <= k < |cells| ==> numbers[k] < n && CellOk(points, cells[k], width, height, grid, numbers[k]))
    && forall k, m :: 0 <= k < m < |cells| ==> numbers[k] < numbers[m]
  }

  lemma NumberedMore(points: seq<Match>, cells: seq<seq<nat>>, numbers: seq<nat>, width: nat, height: nat, grid: nat, n: nat, cell: seq<nat>)
    requires grid > 1 && Numbered(points, cells, numbers, width, height, grid, n)
    ensures Numbered(points, cells, numbers, width, height, grid, n + 1)
    ensures CellOk(points, cell, width, height, grid, n) ==> Numbered(points, cells + [cell], numbers + [n], width, height, grid, n + 1)
  {
  }

  /** The cells that are used, in the order of their numbers. */
  lemma {:induction false} CellsMean(points: seq<Match>, indices: seq<nat>, width: nat, height: nat, grid: nat, n: nat)
    returns (numbers: seq<nat>)
    requires InRange(points, indices) && grid > 1
    ensures Numbered(points, Cells(points, indices, width, height, grid, n), numbers, width, height, grid, n)
  {
    numbers := [];
    if n > 0 {
      numbers := CellsMean(points, indices, width, height, grid, n - 1);
      var bucket := Bucket(points, indices, width, height, grid, n - 1);
      var cells := Cells(points, indices, width, height, grid, n - 1);
      NumberedMore(points, cells, numbers, width, height, grid, n - 1, Sorted(points, bucket));
      if bucket != [] {
        SortedCell(points, indices, width, height, grid, n - 1);
        numbers := numbers + [n - 1];
      }
    }
  }

  lemma {:induction false} BucketMembers(points: seq<Match>, indices: seq<nat>, width: nat, height: nat, grid: nat, cell: nat)
    requires InRange(points, indices) && grid > 1
    ensures forall x :: x in Bucket(points, indices, width, height, grid, cell) ==> CellOf(points[x], width, height, grid) == cell
    decreases |indices|
  {
    if indices != [] {
      BucketMembers(points, indices[..|indices| - 1], width, height, grid, cell);
    }
  }

  function Union(points: seq<Match>, indices: seq<nat>, width: nat, height: nat, grid: nat, n: nat): multiset<nat>
    requires InRange(points, indices) && grid > 1
  {
    if n == 0 then multiset{}
    else Union(points, indices, width, height, grid, n - 1) + multiset(Bucket(points, indices, width, height, grid, n - 1))
  }

  lemma {:induction false} NoneInUnion(points: seq<Match>, width: nat, height: nat, grid: nat, n: nat)
    requires grid > 1
    ensures Union(points, [], width, height, grid, n) == multiset{}
  {
    if n > 0 { NoneInUnion(points, width, height, grid, n - 1); }
  }

  lemma {:induction false} UnionAppend(points: seq<Match>, indices: seq<nat>, x: nat, width: nat, height: nat, grid: nat, n: nat)
    requires InRange(points, indices + [x]) && InRange(points, indices) && x < |points| && grid > 1
    ensures Union(points, indices + [x], width, height, grid, n)
         == Union(points, indices, width, height, grid, n)
            + (if CellOf(points[x], width, height, grid) < n then multiset{x} else multiset{})
  {
    if n > 0 {
      UnionAppend(points, indices, x, width, height, grid, n - 1);
      assert (indices + [x])[..|indices|] == indices;
    }
  }

  /** Every index is in exactly one cell. */
  lemma {:induction false} CellsPartition(points: seq<Match>, indices: seq<nat>, width: nat, height: nat, grid: nat)
    requires InRange(points, indices) && grid > 1
    ensures Union(points, indices, width, height, grid, grid * grid) == multiset(indices)
    decreases |indices|
  {
    if indices == [] {
      NoneInUnion(points, width, height, grid, grid * grid);
    } else {
      var m := |indices| - 1;
      CellsPartition(points, indices[..m], width, height, grid);
      assert indices[..m] + [indices[m]] == indices;
      UnionAppend(points, indices[..m], indices[m], width, height, grid, grid * grid);
    }
  }

  lemma TopsAppend(cells: seq<seq<nat>>, taken: seq<nat>, cell: seq<nat>)
    requires Within(cells, taken)
    ensures Tops(cells + [cell], taken + [|cell|]) == Tops(cells, taken) + multiset(cell)
  {
    assert (cells + [cell])[..|cells|] == cells && (taken + [|cell|])[..|cells|] == taken;
    assert cell[..|cell|] == cell;
  }

  lemma LengthsAppend(cells: seq<seq<nat>>, cell: seq<nat>)
    ensures Lengths(cells + [cell]) == Lengths(cells) + [|cell|]
  {
  }

  lemma OneMoreCell(cells: seq<seq<nat>>, points: seq<Match>, bucket: seq<nat>)
    requires InRange(points, bucket)
    ensures var more := cells + [Sorted(points, bucket)];
            Within(more, Lengths(more)) && Tops(more, Lengths(more)) == Tops(cells, Lengths(cells)) + multiset(bucket)
  {
    TopsAppend(cells, Lengths(cells), Sorted(points, bucket));
    LengthsAppend(cells, Sorted(points, bucket));
  }

  /** The cells hold exactly the given indices. */
  predicate Holds(cells: seq<seq<nat>>, all: multiset<nat>) {
    Within(cells, Lengths(cells)) && Tops(cells, Lengths(cells)) == all
  }

  lemma HoldsMore(cells: seq<seq<nat>>, all: multiset<nat>, points: seq<Match>, bucket: seq<nat>)
    requires InRange(points, bucket) && Holds(cells, all)
    ensures Holds(if bucket == [] then cells else cells + [Sorted(points, bucket)], all + multiset(bucket))
  {
    OneMoreCell(cells, points, bucket);
  }

  predicate CellsHold(points: seq<Match>, indices: seq<nat>, width: nat, height: nat, grid: nat, n: nat)
    requires InRange(points, indices) && grid > 1
  {
    Holds(Cells(points, indices, width, height, grid, n), Union(points, indices, width, height, grid, n))
  }

  lemma AddCell(points: seq<Match>, indices: seq<nat>, width: nat, height: nat, grid: nat, n: nat)
    requires InRange(points, indices) && grid > 1 && n > 0
    requires CellsHold(points, indices, width, height, grid, n - 1)
    ensures CellsHold(points, indices, width, height, grid, n)
  {
    var bucket := Bucket(points, indices, width, height, grid, n - 1);
    var cells := Cells(points, indices, width, height, grid, n - 1);
    HoldsMore(cells, Union(points, indices, width, height, grid, n - 1), points, bucket);
    assert Cells(points, indices, width, height, grid, n) == if bucket == [] then cells else cells + [Sorted(points, bucket)];
  }

  lemma NoCells(points: seq<Match>, indices: seq<nat>, width: nat, height: nat, grid: nat)
    requires InRange(points, indices) && grid > 1
    ensures CellsHold(points, indices, width, height, grid, 0)
  {
  }

  lemma {:induction false} AllTops(points: seq<Match>, indices: seq<nat>, width: nat, height: nat, grid: nat, n: nat)
    requires InRange(points, indices) && grid > 1
    ensures CellsHold(points, indices, width, height, grid, n)
  {
    if n == 0 {
      NoCells(points, indices, width, height, grid);
    } else {
      AllTops(points, indices, width, height, grid, n - 1);
      AddCell(points, indices, width, height, grid, n);
    }
  }

  lemma {:induction false} TopsSize(cells: seq<seq<nat>>, taken: seq<nat>)
    requires Within(cells, taken)
    ensures |Tops(cells, taken)| == Sum(taken)
    decreases |cells|
  {
    if cells != [] {
      TopsSize(cells[..|cells| - 1], taken[..|cells| - 1]);
    }
  }

  lemma {:induction false} TopsMonotone(cells: seq<seq<nat>>, a: seq<nat>, b: seq<nat>)
    requires Within(cells, a) && Within(cells, b) && forall k :: 0 <= k < |cells| ==> a[k] <= b[k]
    ensures Tops(cells, a) <= Tops(cells, b)
    decreases |cells|
  {
    if cells != [] {
      var n := |cells| - 1;
      TopsMonotone(cells[..n], a[..n], b[..n]);
      assert cells[n][..b[n]] == cells[n][..a[n]] + cells[n][a[n]..b[n]];
    }
  }

  predicate Distinct(xs: seq<nat>) {
    forall i, j :: 0 <= i < j < |xs| ==> xs[i] != xs[j]
  }

  lemma {:induction false} DistinctIsSingle(xs: seq<nat>)
    ensures Distinct(xs) <==> forall x :: multiset(xs)[x] <= 1
    decreases |xs|
  {
    if xs != [] {
      var n := |xs| - 1;
      assert xs[..n] + [xs[n]] == xs;
      DistinctIsSingle(xs[..n]);
      if Distinct(xs) {
        assert xs[n] !in xs[..n];
      } else if Distinct(xs[..n]) {
        var i, j :| 0 <= i < j < |xs| && xs[i] == xs[j];
        assert xs[..n][i] == xs[n];
        assert multiset(xs)[xs[n]] > 1;
      } else {
        var x :| multiset(xs[..n])[x] > 1;
        assert multiset(xs)[x] > 1;
      }
    }
  }

  /** Picking from the cells picks distinct members of the indices. */
  lemma SelectedDistinct(indices: seq<nat>, cells: seq<seq<nat>>, taken: seq<nat>, selected: seq<nat>)
    requires Within(cells, taken) && multiset(selected) == Tops(cells, taken)
    requires Tops(cells, Lengths(cells)) == multiset(indices) && Distinct(indices)
    ensures Distinct(selected) && forall i :: 0 <= i < |selected| ==> selected[i] in indices
  {
    TopsMonotone(cells, taken, Lengths(cells));
    DistinctIsSingle(indices);
    DistinctIsSingle(selected);
    forall i | 0 <= i < |selected| ensures selected[i] in indices {
      assert selected[i] in multiset(selected);
    }
  }

  /** The buckets dictionary: a cell is a key once an index fell into it. */
  method FillBuckets(points: seq<Match>, indices: seq<nat>, width: nat, height: nat, grid: nat) returns (buckets: map<nat, seq<nat>>)
    requires InRange(points, indices) && grid > 1
    ensures forall c :: c in buckets ==> buckets[c] == Bucket(points, indices, width, height, grid, c)
    ensures forall c: nat :: c !in buckets ==> Bucket(points, indices, width, height, grid, c) == []
  {
    buckets := map[];
    for i := 0 to |indices|
      invariant forall c :: c in buckets ==> buckets[c] == Bucket(points, indices[..i], width, height, grid, c)
      invariant forall c: nat :: c !in buckets ==> Bucket(points, indices[..i], width, height, grid, c) == []
    {
      var cell := CellOf(points[indices[i]], width, height, grid);
      assert indices[..i + 1][..i] == indices[..i];
      buckets := buckets[cell := (if cell in buckets then buckets[cell] else []) + [indices[i]]];
    }
    assert indices[..|indices|] == indices;
  }

  /** The nonempty cells in order, each best first; together they hold every index. */
  method OrderCells(points: seq<Match>, indices: seq<nat>, width: nat, height: nat, grid: nat) returns (ordered: seq<seq<nat>>)
    requires InRange(points, indices) && grid > 1
    ensures ordered == Cells(points, indices, width, height, grid, grid * grid)
    ensures Holds(ordered, multiset(indices)) && Sum(Lengths(ordered)) == |indices|
  {
    var buckets := FillBuckets(points, indices, width, height, grid);
    ordered := [];
    for c := 0 to grid * grid
      invariant ordered == Cells(points, indices, width, height, grid, c)
    {
      if c in buckets && buckets[c] != [] {
        ordered := ordered + [Sorted(points, buckets[c])];
      }
    }
    AllTops(points, indices, width, height, grid, grid * grid);
    CellsPartition(points, indices, width, height, grid);
    TopsSize(ordered, Lengths(ordered));
    assert |multiset(indices)| == |indices|;
  }

  /** Bucket the indices by cell, order each cell, and go round the cells until the limit is reached. */
  method BalancedIndices(points: seq<Match>, indices: seq<nat>, width: nat, height: nat, limit: int, grid: nat)
    returns (selected: seq<nat>, ghost taken: seq<nat>, ghost places: seq<Place>)
    requires InRange(points, indices)
    ensures limit <= 0 || |indices| <= limit ==> selected == indices
    ensures 0 < limit < |indices| ==> |selected| == limit
    ensures 0 < limit < |indices| && grid <= 1 ==> selected == Sorted(points, indices)[..limit]
    ensures 0 < limit < |indices| && grid > 1 ==>
              var cells := Cells(points, indices, width, height, grid, grid * grid);
              && Taking(cells, taken, selected) && Fair(cells, taken) && InRounds(cells, selected, places)
              && (Distinct(indices) ==> Distinct(selected) && forall i :: 0 <= i < |selected| ==> selected[i] in indices)
  {
    taken, places := [], [];
    if limit <= 0 || |indices| <= limit { return indices, taken, places; }
    if grid <= 1 {
      selected := Sorted(points, indices)[..limit];
      return;
    }
    var ordered := OrderCells(points, indices, width, height, grid);
    selected, taken, places := RoundRobin(ordered, limit);
    if Distinct(indices) {
      SelectedDistinct(indices, ordered, taken, selected);
    }
  }
}
