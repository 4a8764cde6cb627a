/** The bug race: each racer splits every leg of its course into equal
    frame-sized steps, queues the steps and takes one per frame. The random
    draws of a course are a parameter; the canvas is reduced to its edges
    and to the racer's position. */
module BugRace {
  import opened Common

  const DivisionByZero := "integer division or modulo by zero"

  function Sum(s: seq<int>): int {
    if s == [] then 0 else Sum(s[..|s| - 1]) + s[|s| - 1]
  }

  /** `m` copies of `base`, the first `bumped` of them one larger. */
  function Bumped(base: int, bumped: int, m: nat): (r: seq<int>)
    ensures |r| == m
  {
    if m == 0 then [] else Bumped(base, bumped, m - 1) + [base + (if m - 1 < bumped then 1 else 0)]
  }

  lemma {:induction false} BumpedAt(base: int, bumped: int, m: nat)
    ensures forall i :: 0 <= i < m ==> Bumped(base, bumped, m)[i] == base + (if i < bumped then 1 else 0)
  {
    if m > 0 {
      BumpedAt(base, bumped, m - 1);
    }
  }

  /** What `partition(n, k)` returns for k > 0: k parts of n // k, the first
      n % k of them one larger. (Python's `//` and `%` with a positive
      divisor agree with Dafny's.) */
  function Parts(n: int, k: nat): seq<int>
    requires k > 0
  {
    Bumped(n / k, n % k, k)
  }

  lemma {:induction false} BumpedSum(base: int, bumped: nat, m: nat)
    ensures Sum(Bumped(base, bumped, m)) == m * base + (if m < bumped then m else bumped)
  {
    if m > 0 {
      var prev := Bumped(base, bumped, m - 1);
      var last := base + (if m - 1 < bumped then 1 else 0);
      BumpedSum(base, bumped, m - 1);
      assert Bumped(base, bumped, m) == prev + [last];
      assert (prev + [last])[..m - 1] == prev;
      assert Sum(prev + [last]) == Sum(prev) + last;
      assert (m - 1) * base + base == m * base;
    }
  }

  /** The parts add up to n. */
  lemma PartsSum(n: int, k: nat)
    requires k > 0
    ensures |Parts(n, k)| == k && Sum(Parts(n, k)) == n
  {
    BumpedSum(n / k, n % k, k);
  }

  /** Every part is n // k or n // k + 1, the larger ones first, so the
      parts never increase and differ by at most one. */
  lemma PartsShape(n: int, k: nat)
    requires k > 0
    ensures forall i :: 0 <= i < k ==> Parts(n, k)[i] == n / k || Parts(n, k)[i] == n / k + 1
    ensures forall i :: 0 <= i < k ==> (Parts(n, k)[i] == n / k + 1 <==> i < n % k)
    ensures forall i, j :: 0 <= i <= j < k ==> Parts(n, k)[j] <= Parts(n, k)[i] <= Parts(n, k)[j] + 1
  {
    BumpedAt(n / k, n % k, k);
  }

  /** `partition(0, k)` as the general rule would compute it is the same k
      zeros the special case returns. */
  lemma PartsOfZero(k: nat)
    requires k > 0
    ensures Parts(0, k) == seq(k, _ => 0)
  {
    BumpedAt(0, 0, k);
  }

  /** `partition(n, k)`: a new list of k parts, filled with n // k and then
      bumped one by one; `n == 0` returns k zeros at once, a zero `k` with a
      non-zero `n` raises, and a negative `k` gives an empty list. */
  method Partition(n: int, k: int) returns (parts: array<int>, err: Option<string>)
    ensures err.Some? <==> n != 0 && k == 0
    ensures err.Some? ==> err.value == DivisionByZero
    ensures err.None? && k <= 0 ==> parts.Length == 0
    ensures err.None? && k > 0 ==> parts[..] == if n == 0 then seq(k, _ => 0) else Parts(n, k)
  {
    if n == 0 {
      parts := new int[if k < 0 then 0 else k](_ => 0);
      return parts, None;
    }
    if k == 0 {
      parts := new int[0];
      return parts, Some(DivisionByZero);
    }
    if k < 0 {
      parts := new int[0];
      return parts, None;
    }
    var base := n / k;
    parts := new int[k](_ => base);
    var i := 0;
    while i < n % k
      invariant 0 <= i <= n % k
      invariant forall j :: 0 <= j < k ==> parts[j] == base + (if j < i then 1 else 0)
    {
      parts[i] := parts[i] + 1;
      i := i + 1;
    }
    BumpedAt(base, n % k, k);
    err := None;
  }

  /** The steps `queue_move` produces for a move split `numSteps` ways: the
      x and y parts side by side, none when the count is not positive. */
  function Steps(dx: int, dy: int, numSteps: int): (r: seq<(int, int)>)
  {
    if numSteps <= 0 then [] else Zip(Parts(dx, numSteps), Parts(dy, numSteps))
  }

  /** `zip` of two lists of the same length. */
  function Zip(xs: seq<int>, ys: seq<int>): (r: seq<(int, int)>)
    requires |xs| == |ys|
    ensures |r| == |xs|
  {
    seq(|xs|, i requires 0 <= i < |xs| => (xs[i], ys[i]))
  }

  function Xs(steps: seq<(int, int)>): seq<int>
  {
    seq(|steps|, i requires 0 <= i < |steps| => steps[i].0)
  }

  function Ys(steps: seq<(int, int)>): seq<int>
  {
    seq(|steps|, i requires 0 <= i < |steps| => steps[i].1)
  }

  /** A move split into a positive number of steps: that many steps, adding
      up to the move. */
  lemma StepsAddUp(dx: int, dy: int, numSteps: int)
    requires numSteps > 0
    ensures |Steps(dx, dy, numSteps)| == numSteps
    ensures Sum(Xs(Steps(dx, dy, numSteps))) == dx && Sum(Ys(Steps(dx, dy, numSteps))) == dy
  {
    PartsSum(dx, numSteps);
    PartsSum(dy, numSteps);
    assert Xs(Steps(dx, dy, numSteps)) == Parts(dx, numSteps);
    assert Ys(Steps(dx, dy, numSteps)) == Parts(dy, numSteps);
  }

  lemma {:induction false} SumAppend(a: seq<int>, b: seq<int>)
    ensures Sum(a + b) == Sum(a) + Sum(b)
    decreases |b|
  {
    if b == [] {
      assert a + b == a;
    } else {
      SumAppend(a, b[..|b| - 1]);
      assert (a + b)[..|a + b| - 1] == a + b[..|b| - 1];
    }
  }

  /** The direction of one leg after the bounce rule: dy is reversed when
      the target row is not strictly inside the canvas. */
  function Bounced(startY: int, totalDy: int, dy: int, top: int, bottom: int): int
  {
    if top < startY + totalDy + dy < bottom then dy else -dy
  }

  /** One draw of `plot_course`: `randint(0, 100)`, `randint(-50, 50)` and
      `randint(500, 2000)`. */
  datatype Draw = Draw(dx: int, dy: int, time: int)

  /** The canvas edges and the starting row a course is plotted against. */
  datatype Canvas = Canvas(left: int, top: int, right: int, bottom: int, centerY: int)

  /** How far right the first `n` legs take the course. */
  function Reached(draws: seq<Draw>, n: nat): int
    requires n <= |draws|
  {
    if n == 0 then 0 else Reached(draws, n - 1) + draws[n - 1].dx
  }

  /** How far down the first `n` legs take the course, each leg's dy having
      bounced. */
  function Lowered(draws: seq<Draw>, n: nat, canvas: Canvas): int
    requires n <= |draws|
    decreases n, 0
  {
    if n == 0 then 0 else Lowered(draws, n - 1, canvas) + LegDy(draws, n - 1, canvas)
  }

  /** The dy leg `i` is queued with: the drawn one, bounced against the row
      the legs before it reached. */
  function LegDy(draws: seq<Draw>, i: nat, canvas: Canvas): int
    requires i < |draws|
    decreases i, 1
  {
    Bounced(canvas.centerY, Lowered(draws, i, canvas), draws[i].dy, canvas.top, canvas.bottom)
  }

  /** Every leg's dy is the drawn one, reversed exactly when the row it
      would reach from the course so far is not strictly inside the canvas. */
  lemma LegBounces(draws: seq<Draw>, i: nat, canvas: Canvas)
    requires i < |draws|
    ensures var target := canvas.centerY + Lowered(draws, i, canvas) + draws[i].dy;
            LegDy(draws, i, canvas) == if canvas.top < target < canvas.bottom then draws[i].dy else -draws[i].dy
    ensures Lowered(draws, i + 1, canvas) == Lowered(draws, i, canvas) + LegDy(draws, i, canvas)
  {
  }

  /** The steps leg `i` puts in the queue. */
  function LegSteps(draws: seq<Draw>, i: nat, canvas: Canvas): seq<(int, int)>
    requires i < |draws|
  {
    Steps(draws[i].dx, LegDy(draws, i, canvas), draws[i].time / 50)
  }

  /** The steps the first `n` legs put in the queue, leg after leg. */
  function Queued(draws: seq<Draw>, n: nat, canvas: Canvas): seq<(int, int)>
    requires n <= |draws|
  {
    if n == 0 then [] else Queued(draws, n - 1, canvas) + LegSteps(draws, n - 1, canvas)
  }

  lemma AppendAssoc<T>(a: seq<T>, b: seq<T>, c: seq<T>)
    ensures a + (b + c) == (a + b) + c
  {
  }

  lemma XsYsAppend(a: seq<(int, int)>, b: seq<(int, int)>)
    ensures Xs(a + b) == Xs(a) + Xs(b) && Ys(a + b) == Ys(a) + Ys(b)
  {
  }

  /** Appending steps adds their sums to the totals so far. */
  lemma SumsAppend(queue: seq<(int, int)>, prev: seq<(int, int)>, steps: seq<(int, int)>, dx: int, dy: int)
    requires queue == prev + steps
    requires Sum(Xs(steps)) == dx && Sum(Ys(steps)) == dy
    ensures Sum(Xs(queue)) == Sum(Xs(prev)) + dx && Sum(Ys(queue)) == Sum(Ys(prev)) + dy
  {
    XsYsAppend(prev, steps);
    SumAppend(Xs(prev), Xs(steps));
    SumAppend(Ys(prev), Ys(steps));
  }

  /** When every leg lasts at least one frame, the queued steps add up to
      the course's totals: the racer ends where the legs take it. */
  lemma QueuedAddsUp(draws: seq<Draw>, n: nat, canvas: Canvas)
    requires n <= |draws|
    requires forall i :: 0 <= i < n ==> draws[i].time >= 50
    ensures Sum(Xs(Queued(draws, n, canvas))) == Reached(draws, n)
    ensures Sum(Ys(Queued(draws, n, canvas))) == Lowered(draws, n, canvas)
  {
    QueuedXsAddUp(draws, n, canvas);
    QueuedYsAddUp(draws, n, canvas);
  }

  lemma {:induction false} QueuedXsAddUp(draws: seq<Draw>, n: nat, canvas: Canvas)
    requires n <= |draws|
    requires forall i :: 0 <= i < n ==> draws[i].time >= 50
    ensures Sum(Xs(Queued(draws, n, canvas))) == Reached(draws, n)
  {
    if n == 0 {
      assert Xs([]) == [];
    } else {
      QueuedXsAddUp(draws, n - 1, canvas);
      QueuedStep(draws, n, canvas);
    }
  }

  lemma {:induction false} QueuedYsAddUp(draws: seq<Draw>, n: nat, canvas: Canvas)
    requires n <= |draws|
    requires forall i :: 0 <= i < n ==> draws[i].time >= 50
    ensures Sum(Ys(Queued(draws, n, canvas))) == Lowered(draws, n, canvas)
  {
    if n == 0 {
      assert Ys([]) == [];
    } else {
      QueuedYsAddUp(draws, n - 1, canvas);
      QueuedStep(draws, n, canvas);
    }
  }

  /** One more leg of at least one frame adds its dx and its bounced dy to
      the queue's sums. */
  lemma QueuedStep(draws: seq<Draw>, n: nat, canvas: Canvas)
    requires 0 < n <= |draws| && draws[n - 1].time >= 50
    ensures Sum(Xs(Queued(draws, n, canvas))) == Sum(Xs(Queued(draws, n - 1, canvas))) + draws[n - 1].dx
    ensures Sum(Ys(Queued(draws, n, canvas))) == Sum(Ys(Queued(draws, n - 1, canvas))) + LegDy(draws, n - 1, canvas)
  {
    LegAddsUp(draws, n - 1, canvas);
    SumsAppend(Queued(draws, n, canvas), Queued(draws, n - 1, canvas), LegSteps(draws, n - 1, canvas),
               draws[n - 1].dx, LegDy(draws, n - 1, canvas));
  }

  /** A leg of at least one frame queues steps that add up to its dx and
      its bounced dy. */
  lemma LegAddsUp(draws: seq<Draw>, i: nat, canvas: Canvas)
    requires i < |draws| && draws[i].time >= 50
    ensures Sum(Xs(LegSteps(draws, i, canvas))) == draws[i].dx
    ensures Sum(Ys(LegSteps(draws, i, canvas))) == LegDy(draws, i, canvas)
  {
    StepsAddUp(draws[i].dx, LegDy(draws, i, canvas), draws[i].time / 50);
  }

  /** The first `n` legs leave the course short of the right edge. */
  predicate ShortOfEdge(draws: seq<Draw>, n: nat, canvas: Canvas)
    requires n <= |draws|
  {
    canvas.left + Reached(draws, n) < canvas.right
  }

  /** Every draw moves the course right or not at all (`randint(0, 100)`),
      so a course that was still short before its last leg was short before
      every leg: `plot_course` stops at the first leg that reaches the edge. */
  lemma {:induction false} ShortBeforeEveryLeg(draws: seq<Draw>, n: nat, canvas: Canvas)
    requires 0 < n <= |draws|
    requires forall i :: 0 <= i < |draws| ==> draws[i].dx >= 0
    requires ShortOfEdge(draws, n - 1, canvas)
    ensures forall j :: 0 <= j < n ==> ShortOfEdge(draws, j, canvas)
  {
    if n > 1 {
      assert Reached(draws, n - 2) <= Reached(draws, n - 1);
      ShortBeforeEveryLeg(draws, n - 1, canvas);
    }
  }

  /** How `plot_course` ended. */
  datatype CourseEnd = Finished | OutOfDraws | Raised(message: string)

  class Racer {
    const left: int
    const top: int
    const right: int
    const bottom: int
    const centerY: int
    /** Where the racer's oval is. */
    var x: int
    var y: int
    var movementQueue: seq<(int, int)>

    constructor (left: int, top: int, right: int, bottom: int)
      ensures this.left == left && this.top == top && this.right == right && this.bottom == bottom
      ensures centerY == bottom / 2 && x == left && y == centerY && movementQueue == []
    {
      this.left, this.top, this.right, this.bottom := left, top, right, bottom;
      centerY := bottom / 2;
      x, y := left, bottom / 2;
      movementQueue := [];
    }

    /** `queue_move`: the move split into `time // FRAME_RES` steps, queued
        in order after those already waiting; nothing is queued when the
        split raises. */
    method QueueMove(dx: int, dy: int, time: int) returns (err: Option<string>)
      modifies this
      ensures x == old(x) && y == old(y)
      ensures err.Some? <==> time / 50 == 0 && (dx != 0 || dy != 0)
      ensures err.Some? ==> err.value == DivisionByZero && movementQueue == old(movementQueue)
      ensures err.None? ==> movementQueue == old(movementQueue) + Steps(dx, dy, time / 50)
    {
      var numSteps := time / 50;
      var xs, errX := Partition(dx, numSteps);
      if errX.Some? {
        return errX;
      }
      var ys, errY := Partition(dy, numSteps);
      if errY.Some? {
        return errY;
      }
      if numSteps <= 0 {
        return None;
      }
      PartsOfZero(numSteps);
      assert xs[..] == Parts(dx, numSteps) && ys[..] == Parts(dy, numSteps);
      var i := 0;
      while i < numSteps
        invariant 0 <= i <= numSteps
        invariant x == old(x) && y == old(y)
        invariant movementQueue == old(movementQueue) + Steps(dx, dy, numSteps)[..i]
        invariant xs[..] == Parts(dx, numSteps) && ys[..] == Parts(dy, numSteps)
      {
        assert Steps(dx, dy, numSteps)[..i + 1] == Steps(dx, dy, numSteps)[..i] + [(xs[i], ys[i])];
        movementQueue := movementQueue + [(xs[i], ys[i])];
        i := i + 1;
      }
      assert Steps(dx, dy, numSteps)[..numSteps] == Steps(dx, dy, numSteps);
      err := None;
    }

    /** `next_move`: the oldest step, if any, leaves the queue and moves the
        racer. */
    method NextMove()
      modifies this
      ensures old(movementQueue) == [] ==> movementQueue == [] && x == old(x) && y == old(y)
      ensures old(movementQueue) != [] ==>
                && movementQueue == old(movementQueue)[1..]
                && x == old(x) + old(movementQueue)[0].0 && y == old(y) + old(movementQueue)[0].1
    {
      if movementQueue != [] {
        var step := movementQueue[0];
        movementQueue := movementQueue[1..];
        x, y := x + step.0, y + step.1;
      }
    }

    function Edges(): Canvas
      reads this
    {
      Canvas(left, top, right, bottom, centerY)
    }

    /** One pass of `plot_course`'s loop: the next draw's dy bounces, and the
        leg is queued. */
    method QueueLeg(draws: seq<Draw>, n: nat, totalDy: int, ghost before: seq<(int, int)>)
      returns (dy: int, err: Option<string>)
      requires n < |draws| && totalDy == Lowered(draws, n, Edges())
      requires movementQueue == before + Queued(draws, n, Edges())
      modifies this
      ensures x == old(x) && y == old(y)
      ensures dy == LegDy(draws, n, Edges())
      ensures err.Some? ==> err.value == DivisionByZero && movementQueue == old(movementQueue)
      ensures err.None? ==> movementQueue == before + Queued(draws, n + 1, Edges())
    {
      var draw := draws[n];
      dy := Bounced(centerY, totalDy, draw.dy, top, bottom);
      err := QueueMove(draw.dx, dy, draw.time);
      if err.None? {
        AppendAssoc(before, Queued(draws, n, Edges()), LegSteps(draws, n, Edges()));
      }
    }

    /** `plot_course` with its random draws given in order: legs are queued
        from the racer's start until the course reaches the right edge.
        Returns how it ended, how many draws it used and the course's total
        movement. */
    method PlotCourse(draws: seq<Draw>) returns (end: CourseEnd, used: nat, totalDx: int, totalDy: int)
      modifies this
      ensures x == old(x) && y == old(y)
      ensures used <= |draws|
      ensures totalDx == Reached(draws, used) && totalDy == Lowered(draws, used, Edges())
      ensures movementQueue == old(movementQueue) + Queued(draws, used, Edges())
      ensures end == Finished ==> left + totalDx >= right
      ensures end == OutOfDraws ==> used == |draws| && left + totalDx < right
      ensures end.Raised? ==> used < |draws| && left + totalDx < right && end.message == DivisionByZero
      ensures used > 0 ==> ShortOfEdge(draws, used - 1, Edges())
    {
      var startX := left;
      totalDx, totalDy := 0, 0;
      used := 0;
      while startX + totalDx < right
        invariant used <= |draws|
        invariant totalDx == Reached(draws, used) && totalDy == Lowered(draws, used, Edges())
        invariant movementQueue == old(movementQueue) + Queued(draws, used, Edges())
        invariant x == old(x) && y == old(y)
        invariant used > 0 ==> ShortOfEdge(draws, used - 1, Edges())
        decreases |draws| - used
      {
        if used == |draws| {
          return OutOfDraws, used, totalDx, totalDy;
        }
        var dy, err := QueueLeg(draws, used, totalDy, old(movementQueue));
        if err.Some? {
          return Raised(err.value), used, totalDx, totalDy;
        }
        totalDx := totalDx + draws[used].dx;
        totalDy := totalDy + dy;
        used := used + 1;
      }
      end := Finished;
    }
  }
}
