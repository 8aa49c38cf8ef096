/**
 * Finite-difference batch gradient descent (src/fitter/BGDFitter.py).
 *
 * The fitter is a state machine driven by render replies. Its cursor walks
 * from the sentinel -5 through -4 (ambient light), -3..-1 (the three
 * directed-light components) and 0..n-1 (the shape coefficients). For every
 * coordinate three replies arrive in turn: the centre render ('start'), the
 * render perturbed by +dx ('right_derivative') and the one perturbed by -dx
 * ('left_derivative'). After the last coordinate one gradient step is taken
 * and the next outer loop starts with a 'start_iteration' request.
 *
 * `Reply` is the transition of one reply as a function of the state; the
 * class BGDFitter does the same in place on its three derivative arrays.
 * `Run` feeds a synchronous renderer (a cost per face) back into `Reply`,
 * and the lemmas after it count the replies of a pass and of a whole run.
 */
module BatchGradientDescent {
  import opened Wrappers
  import opened ModelFitting

  /** Fixed settings of one fitting run. */
  datatype Settings = Settings(n: nat, dx: real, step: real, maxLoops: int)

  /** The fitter's mutable state as a value: face, cursor, loop counter and the three accumulators. */
  datatype FitState = FitState(face: Params, cursor: int, loop: int, d: seq<real>, left: seq<real>, right: seq<real>)

  /** The cursor value before the first coordinate of a pass. */
  const Sentinel: int := -5

  /** The shape every reachable state has. */
  predicate Good(cfg: Settings, s: FitState)
  {
    && cfg.dx != 0.0
    && Shaped(s.face, cfg.n)
    && Sentinel <= s.cursor < cfg.n
    && |s.d| == cfg.n + 4 && |s.left| == cfg.n + 4 && |s.right| == cfg.n + 4
  }

  /** Right and left renders are only ever requested while the cursor is on a coordinate. */
  predicate Answerable(s: FitState, tag: Label)
  {
    (tag == RightDerivative || tag == LeftDerivative) ==> s.cursor >= -4
  }

  predicate Awaiting(s: FitState, o: Outcome)
  {
    o.Emit? ==> forall i :: 0 <= i < |o.requests| ==> Answerable(s, o.requests[i].tag)
  }

  /** Where coordinate p lives in an array of n + 4 entries (Python's negative indexing). */
  function Slot(n: nat, p: int): (k: nat)
    requires -4 <= p < n
    ensures k < n + 4
  {
    if p >= 0 then p else n + 4 + p
  }

  /**
   * The base face with coordinate p moved by delta: a coefficient by delta,
   * the ambient light or a directed-light component by delta / 2.
   */
  function DerivativeFace(f: Params, p: int, delta: real): (g: Params)
    requires -4 <= p < |f.coefficients| && |f.directed| == DirectionComponents
    ensures Shaped(g, |f.coefficients|)
    ensures forall i :: 0 <= i < |f.coefficients| ==>
      g.coefficients[i] == f.coefficients[i] + (if i == p then delta else 0.0)
    ensures g.ambient == f.ambient + (if p == -4 then delta / 2.0 else 0.0)
    ensures forall j :: 0 <= j < DirectionComponents ==>
      g.directed[j] == f.directed[j] + (if j == p + 3 then delta / 2.0 else 0.0)
  {
    if p >= 0 then
      f.(coefficients := f.coefficients[p := f.coefficients[p] + delta])
    else if p == -4 then
      f.(ambient := f.ambient + delta / 2.0)
    else
      f.(directed := f.directed[p + 3 := f.directed[p + 3] + delta / 2.0])
  }

  /**
   * In the flat parameter vector the perturbed face differs from the base
   * face in exactly one entry, the one at Slot(n, p), when delta is not 0.
   */
  lemma PerturbsOneEntry(f: Params, p: int, delta: real, k: nat)
    requires -4 <= p < |f.coefficients| && |f.directed| == DirectionComponents
    requires k < |f.coefficients| + 4
    ensures k != Slot(|f.coefficients|, p) ==> AsArray(DerivativeFace(f, p, delta))[k] == AsArray(f)[k]
    ensures k == Slot(|f.coefficients|, p) && delta != 0.0 ==> AsArray(DerivativeFace(f, p, delta))[k] != AsArray(f)[k]
  {
    var n := |f.coefficients|;
    var g := DerivativeFace(f, p, delta);
    var a, b := AsArray(g), AsArray(f);
    if k < n {
      assert a[k] == g.coefficients[k] && b[k] == f.coefficients[k];
    } else if k > n {
      assert a[k] == g.directed[k - n - 1] && b[k] == f.directed[k - n - 1];
    }
  }

  /** One finite difference: (y1 - y0) / dx. */
  function Derivative(cfg: Settings, y0: real, y1: real): real
    requires cfg.dx != 0.0
  {
    (y1 - y0) / cfg.dx
  }

  /** The gradient step: coefficients - step*d[:n], ambient - step*d[n]/50, directed - step*d[n+1:]/50. */
  function Update(cfg: Settings, f: Params, d: seq<real>): (g: Params)
    requires Shaped(f, cfg.n) && |d| == cfg.n + 4
    ensures Shaped(g, cfg.n)
  {
    Params(seq(cfg.n, i requires 0 <= i < cfg.n => f.coefficients[i] - cfg.step * d[i]),
           f.ambient - cfg.step * d[cfg.n] / 50.0,
           seq(DirectionComponents, j requires 0 <= j < DirectionComponents =>
                 f.directed[j] - cfg.step * d[cfg.n + 1 + j] / 50.0))
  }

  /** The quotient times dx is the rise y1 - y0; equal costs give a zero derivative. */
  lemma DifferenceQuotient(cfg: Settings, y0: real, y1: real)
    requires cfg.dx != 0.0
    ensures Derivative(cfg, y0, y1) * cfg.dx == y1 - y0
    ensures y0 == y1 ==> Derivative(cfg, y0, y1) == 0.0
    ensures Derivative(cfg, y1, y0) == -Derivative(cfg, y0, y1)
  {
    var q := Derivative(cfg, y0, y1);
    assert q * cfg.dx == y1 - y0;
    assert (y0 - y1) / cfg.dx == -((y1 - y0) / cfg.dx);
  }

  /** With all derivatives zero the gradient step leaves the face as it is. */
  lemma UpdateWithZeroGradient(cfg: Settings, f: Params, d: seq<real>)
    requires Shaped(f, cfg.n) && |d| == cfg.n + 4
    requires forall k :: 0 <= k < |d| ==> d[k] == 0.0
    ensures Update(cfg, f, d) == f
  {
    var g := Update(cfg, f, d);
    forall i | 0 <= i < cfg.n
      ensures g.coefficients[i] == f.coefficients[i]
    {
      assert cfg.step * d[i] == 0.0;
    }
    forall j | 0 <= j < DirectionComponents
      ensures g.directed[j] == f.directed[j]
    {
      assert cfg.step * d[cfg.n + 1 + j] / 50.0 == 0.0;
    }
    assert cfg.step * d[cfg.n] / 50.0 == 0.0;
    assert g.coefficients == f.coefficients;
    assert g.directed == f.directed;
  }

  /**
   * With a positive step every component moves against the sign of its
   * derivative: a positive derivative lowers it, a negative one raises it.
   */
  lemma UpdateDescends(cfg: Settings, f: Params, d: seq<real>)
    requires Shaped(f, cfg.n) && |d| == cfg.n + 4 && cfg.step > 0.0
    ensures forall i :: 0 <= i < cfg.n ==>
      (d[i] > 0.0 ==> Update(cfg, f, d).coefficients[i] < f.coefficients[i]) &&
      (d[i] < 0.0 ==> Update(cfg, f, d).coefficients[i] > f.coefficients[i])
    ensures d[cfg.n] > 0.0 ==> Update(cfg, f, d).ambient < f.ambient
    ensures d[cfg.n] < 0.0 ==> Update(cfg, f, d).ambient > f.ambient
    ensures forall j :: 0 <= j < DirectionComponents ==>
      (d[cfg.n + 1 + j] > 0.0 ==> Update(cfg, f, d).directed[j] < f.directed[j]) &&
      (d[cfg.n + 1 + j] < 0.0 ==> Update(cfg, f, d).directed[j] > f.directed[j])
  {
    forall i | 0 <= i < cfg.n
      ensures d[i] > 0.0 ==> cfg.step * d[i] > 0.0
      ensures d[i] < 0.0 ==> cfg.step * d[i] < 0.0
    {
      ProductSign(cfg.step, d[i]);
    }
    ProductSign(cfg.step, d[cfg.n]);
    forall k | cfg.n < k < cfg.n + 4
      ensures d[k] > 0.0 ==> cfg.step * d[k] > 0.0
      ensures d[k] < 0.0 ==> cfg.step * d[k] < 0.0
    {
      ProductSign(cfg.step, d[k]);
    }
  }

  lemma ProductSign(a: real, b: real)
    requires a > 0.0
    ensures b > 0.0 ==> a * b > 0.0
    ensures b < 0.0 ==> a * b < 0.0
  {
  }

  /** The symmetric finite difference the fitter computes for coordinate p of face f. */
  function SymDiff(cfg: Settings, f: Params, p: int, render: Params -> real): real
    requires cfg.dx != 0.0 && -4 <= p < |f.coefficients| && |f.directed| == DirectionComponents
  {
    var centre := render(f);
    0.5 * (Derivative(cfg, render(DerivativeFace(f, p, -cfg.dx)), centre)
           + Derivative(cfg, centre, render(DerivativeFace(f, p, cfg.dx))))
  }

  /** __next_iteration: one gradient step, cursor back to the sentinel, one 'start_iteration' request. */
  function NewIteration(cfg: Settings, s: FitState): (r: (FitState, Outcome))
    requires Good(cfg, s)
    ensures Good(cfg, r.0) && Awaiting(r.0, r.1)
    ensures r.0.loop == s.loop + 1 && r.0.cursor == Sentinel
    ensures r.0.d == s.d && r.0.left == s.left && r.0.right == s.right
    ensures r.0.face == Update(cfg, s.face, s.d)
    ensures r.1 == Emit([Request(r.0.face, StartIteration)])
  {
    var f := Update(cfg, s.face, s.d);
    (s.(loop := s.loop + 1, cursor := Sentinel, face := f), Emit([Request(f, StartIteration)]))
  }

  /**
   * start: a face with the initial coefficients, no directed light and
   * ambient light 1, three zero accumulators of n + 4 entries, then the
   * first __next_iteration. Its step uses zero derivatives, so the first
   * request is the unchanged face.
   */
  function Begin(cfg: Settings, coefficients: seq<real>, loop: int): (r: (FitState, Outcome))
    requires cfg.dx != 0.0 && |coefficients| == cfg.n
    ensures Good(cfg, r.0) && Awaiting(r.0, r.1)
    ensures r.0.face == Params(coefficients, 1.0, [0.0, 0.0, 0.0])
    ensures r.0.loop == loop + 1 && r.0.cursor == Sentinel
    ensures forall k :: 0 <= k < cfg.n + 4 ==> r.0.d[k] == 0.0 && r.0.left[k] == 0.0 && r.0.right[k] == 0.0
    ensures r.1 == Emit([Request(Params(coefficients, 1.0, [0.0, 0.0, 0.0]), StartIteration)])
  {
    var face := Params(coefficients, 1.0, [0.0, 0.0, 0.0]);
    var zero := seq(cfg.n + 4, _ => 0.0);
    UpdateWithZeroGradient(cfg, face, zero);
    NewIteration(cfg, FitState(face, Sentinel, loop, zero, zero, zero))
  }

  /**
   * __get_derivative for the coordinate under the cursor: a 'start' reply
   * stores the centre cost and asks for the +dx render; a right reply stores
   * the forward difference and asks for the -dx render; a left reply stores
   * the backward difference, replaces the centre cost by the mean of both
   * differences and asks for the base face again. Other string labels do
   * nothing; a missing or integer label raises (the substring test on it fails).
   */
  function Derive(cfg: Settings, s: FitState, phase: Label, cost: real): (r: (FitState, Outcome))
    requires Good(cfg, s)
    requires phase == Start || phase == RightDerivative || phase == LeftDerivative ==> s.cursor >= -4
    ensures Good(cfg, r.0) && Awaiting(r.0, r.1)
    ensures r.0.face == s.face && r.0.loop == s.loop && r.0.cursor == s.cursor
    ensures r.1.Fault? <==> phase == NoLabel || phase.Candidate?
    ensures r.1.Fault? || phase == Init || phase == Pre ==> r.0 == s
    ensures !r.1.Fault? ==> r.1.Emit? && |r.1.requests| <= 1
  {
    match phase
    case Start =>
      var k := Slot(cfg.n, s.cursor);
      (s.(d := s.d[k := cost]), Emit([Request(DerivativeFace(s.face, s.cursor, cfg.dx), RightDerivative)]))
    case RightDerivative =>
      var k := Slot(cfg.n, s.cursor);
      (s.(right := s.right[k := Derivative(cfg, s.d[k], cost)]),
       Emit([Request(DerivativeFace(s.face, s.cursor, -cfg.dx), LeftDerivative)]))
    case LeftDerivative =>
      var k := Slot(cfg.n, s.cursor);
      var l := Derivative(cfg, cost, s.d[k]);
      (s.(left := s.left[k := l], d := s.d[k := 0.5 * (l + s.right[k])]), Emit([Request(s.face, Start)]))
    case NoLabel => (s, Fault)
    case Candidate(_) => (s, Fault)
    case _ => (s, Emit([]))
  }

  /**
   * receive_image: a 'start_iteration' reply finishes once the loop bound is
   * reached and is otherwise handled as 'start'; a 'start' reply at the last
   * coordinate begins the next iteration, and any other 'start' reply first
   * moves the cursor one coordinate on.
   */
  function Reply(cfg: Settings, s: FitState, cost: real, tag: Label): (r: (FitState, Outcome))
    requires Good(cfg, s) && Answerable(s, tag)
    ensures Good(cfg, r.0) && Awaiting(r.0, r.1)
    ensures r.1.Emit? ==> |r.1.requests| <= 1
  {
    if tag == StartIteration && s.loop >= cfg.maxLoops then (s, Finish(s.face))
    else
      var phase := if tag == StartIteration then Start else tag;
      if phase == Start && s.cursor >= cfg.n - 1 then NewIteration(cfg, s)
      else
        var s' := if phase == Start then s.(cursor := s.cursor + 1) else s;
        Derive(cfg, s', phase, cost)
  }

  /**
   * The replies the fitter prices: a right or left derivative reply, or a
   * 'start' (or 'start_iteration' below the loop bound) before the last
   * coordinate. The final reply of a run, the last 'start' of a pass and
   * any other label are never priced.
   */
  predicate Prices(cfg: Settings, s: FitState, tag: Label)
  {
    if tag == StartIteration && s.loop >= cfg.maxLoops then false
    else
      var phase := if tag == StartIteration then Start else tag;
      (phase == Start && s.cursor < cfg.n - 1) || phase == RightDerivative || phase == LeftDerivative
  }

  /**
   * A reply raises exactly when it is unlabelled or carries an integer, and a
   * reply that raises or is ignored ('init', 'pre') leaves the state, the
   * three accumulators included, as it was.
   */
  lemma ReplyFaults(cfg: Settings, s: FitState, cost: real, tag: Label)
    requires Good(cfg, s) && Answerable(s, tag)
    ensures var r := Reply(cfg, s, cost, tag);
      && (r.1.Fault? <==> tag == NoLabel || tag.Candidate?)
      && (tag == NoLabel || tag.Candidate? || tag == Init || tag == Pre ==> r.0 == s)
      && (tag == Init || tag == Pre ==> r.1 == Emit([]))
  {
  }

  /** A reply the fitter does not price has the same effect whatever its cost. */
  lemma UnpricedIgnoresCost(cfg: Settings, s: FitState, c1: real, c2: real, tag: Label)
    requires Good(cfg, s) && Answerable(s, tag) && !Prices(cfg, s, tag)
    ensures Reply(cfg, s, c1, tag) == Reply(cfg, s, c2, tag)
  {
  }

  /** A 'start' reply before the last coordinate advances the cursor by exactly one. */
  lemma StartAdvancesCursor(cfg: Settings, s: FitState, cost: real, tag: Label)
    requires Good(cfg, s) && s.cursor < cfg.n - 1
    requires tag == Start || (tag == StartIteration && s.loop < cfg.maxLoops)
    ensures Reply(cfg, s, cost, tag)
      == (s.(cursor := s.cursor + 1, d := s.d[Slot(cfg.n, s.cursor + 1) := cost]),
          Emit([Request(DerivativeFace(s.face, s.cursor + 1, cfg.dx), RightDerivative)]))
  {
  }

  /** The last 'start' reply of a pass begins the next iteration. */
  lemma LastStartBeginsIteration(cfg: Settings, s: FitState, cost: real, tag: Label)
    requires Good(cfg, s) && s.cursor == cfg.n - 1
    requires tag == Start || (tag == StartIteration && s.loop < cfg.maxLoops)
    ensures Reply(cfg, s, cost, tag) == NewIteration(cfg, s)
  {
  }

  /** A 'start_iteration' reply at the loop bound finishes with the current face and requests nothing. */
  lemma FinishesAtLoopBound(cfg: Settings, s: FitState, cost: real)
    requires Good(cfg, s) && s.loop >= cfg.maxLoops
    ensures Reply(cfg, s, cost, StartIteration) == (s, Finish(s.face))
  {
  }

  /** A synchronous renderer answering every request with render(face), `k` times. */
  function Run(cfg: Settings, s: FitState, o: Outcome, render: Params -> real, k: nat): (r: (FitState, Outcome))
    requires Good(cfg, s) && Awaiting(s, o)
    ensures Good(cfg, r.0) && Awaiting(r.0, r.1)
    decreases k
  {
    if k == 0 || !o.Emit? || |o.requests| != 1 then (s, o)
    else
      var q := o.requests[0];
      var t := Reply(cfg, s, render(q.face), q.tag);
      Run(cfg, t.0, t.1, render, k - 1)
  }

  lemma {:induction false} RunAdd(cfg: Settings, s: FitState, o: Outcome, render: Params -> real, a: nat, b: nat)
    requires Good(cfg, s) && Awaiting(s, o)
    ensures var m := Run(cfg, s, o, render, a);
      Run(cfg, s, o, render, a + b) == Run(cfg, m.0, m.1, render, b)
    decreases a
  {
    if a > 0 && o.Emit? && |o.requests| == 1 {
      var q := o.requests[0];
      var t := Reply(cfg, s, render(q.face), q.tag);
      RunAdd(cfg, t.0, t.1, render, a - 1, b);
    }
  }

  /**
   * One coordinate takes three replies (centre, right, left). Afterwards the
   * cursor is on that coordinate, its derivative slot holds the symmetric
   * difference, nothing else in `d` changed, and the base face is requested
   * again with label 'start'.
   */
  lemma CoordinateCycle(cfg: Settings, s: FitState, tag: Label, render: Params -> real)
    requires Good(cfg, s) && s.cursor < cfg.n - 1
    requires tag == Start || (tag == StartIteration && s.loop < cfg.maxLoops)
    ensures var r := Run(cfg, s, Emit([Request(s.face, tag)]), render, 3);
      && r.0.face == s.face && r.0.loop == s.loop && r.0.cursor == s.cursor + 1
      && r.0.d == s.d[Slot(cfg.n, s.cursor + 1) := SymDiff(cfg, s.face, s.cursor + 1, render)]
      && r.1 == Emit([Request(s.face, Start)])
  {
    var c := s.cursor + 1;
    var k := Slot(cfg.n, c);
    var centre := render(s.face);
    var s1 := s.(cursor := c, d := s.d[k := centre]);
    var q1 := Request(DerivativeFace(s.face, c, cfg.dx), RightDerivative);
    StartAdvancesCursor(cfg, s, centre, tag);
    RunStep(cfg, s, Request(s.face, tag), render, 2, (s1, Emit([q1])));
    var s3 := RightThenLeft(cfg, s1, render);
    assert s3.d == s.d[k := centre][k := SymDiff(cfg, s.face, c, render)];
  }

  /**
   * The right and left replies for the coordinate under the cursor, centre
   * cost already stored: the slot then holds the symmetric difference.
   */
  lemma RightThenLeft(cfg: Settings, s: FitState, render: Params -> real) returns (s3: FitState)
    requires Good(cfg, s) && s.cursor >= -4 && s.d[Slot(cfg.n, s.cursor)] == render(s.face)
    ensures var k := Slot(cfg.n, s.cursor);
      && s3.face == s.face && s3.loop == s.loop && s3.cursor == s.cursor
      && s3.d == s.d[k := SymDiff(cfg, s.face, s.cursor, render)]
    ensures Run(cfg, s, Emit([Request(DerivativeFace(s.face, s.cursor, cfg.dx), RightDerivative)]), render, 2)
      == (s3, Emit([Request(s.face, Start)]))
  {
    var c := s.cursor;
    var k := Slot(cfg.n, c);
    var q1 := Request(DerivativeFace(s.face, c, cfg.dx), RightDerivative);
    var q2 := Request(DerivativeFace(s.face, c, -cfg.dx), LeftDerivative);
    var q3 := Request(s.face, Start);
    var plus := render(q1.face);
    var s2 := s.(right := s.right[k := Derivative(cfg, s.d[k], plus)]);
    RightReply(cfg, s, plus);
    RunStep(cfg, s, q1, render, 1, (s2, Emit([q2])));
    var minus := render(q2.face);
    var l := Derivative(cfg, minus, s2.d[k]);
    s3 := s2.(left := s2.left[k := l], d := s2.d[k := 0.5 * (l + s2.right[k])]);
    LeftReply(cfg, s2, minus);
    RunStep(cfg, s2, q2, render, 0, (s3, Emit([q3])));
    assert Run(cfg, s3, Emit([q3]), render, 0) == (s3, Emit([q3]));
  }

  /** With one request outstanding, k + 1 replies are the reply t to it followed by k more. */
  lemma RunStep(cfg: Settings, s: FitState, q: Request, render: Params -> real, k: nat, t: (FitState, Outcome))
    requires Good(cfg, s) && Answerable(s, q.tag)
    requires t == Reply(cfg, s, render(q.face), q.tag)
    ensures Run(cfg, s, Emit([q]), render, k + 1) == Run(cfg, t.0, t.1, render, k)
  {
  }

  /** A right reply stores the forward difference and asks for the -dx render. */
  lemma RightReply(cfg: Settings, s: FitState, cost: real)
    requires Good(cfg, s) && s.cursor >= -4
    ensures var k := Slot(cfg.n, s.cursor);
      Reply(cfg, s, cost, RightDerivative)
        == (s.(right := s.right[k := Derivative(cfg, s.d[k], cost)]),
            Emit([Request(DerivativeFace(s.face, s.cursor, -cfg.dx), LeftDerivative)]))
  {
  }

  /** A left reply stores the backward difference and the mean of both, and asks for the base face. */
  lemma LeftReply(cfg: Settings, s: FitState, cost: real)
    requires Good(cfg, s) && s.cursor >= -4
    ensures var k := Slot(cfg.n, s.cursor);
      var l := Derivative(cfg, cost, s.d[k]);
      Reply(cfg, s, cost, LeftDerivative)
        == (s.(left := s.left[k := l], d := s.d[k := 0.5 * (l + s.right[k])]), Emit([Request(s.face, Start)]))
  {
  }

  /** Every coordinate after c holds its symmetric difference at face f. */
  predicate DerivedAfter(cfg: Settings, f: Params, c: int, d: seq<real>, render: Params -> real)
    requires cfg.dx != 0.0 && Shaped(f, cfg.n) && |d| == cfg.n + 4
  {
    forall p :: c < p < cfg.n && -4 <= p ==> d[Slot(cfg.n, p)] == SymDiff(cfg, f, p, render)
  }

  /** The slots of the coordinates up to c are those of d0. */
  predicate KeptUpTo(cfg: Settings, c: int, d: seq<real>, d0: seq<real>)
    requires |d| == cfg.n + 4 && |d0| == cfg.n + 4
  {
    forall p :: -4 <= p <= c && p < cfg.n ==> d[Slot(cfg.n, p)] == d0[Slot(cfg.n, p)]
  }

  /** What the rest of a pass from s leaves behind in r (see Pass). */
  predicate PassDone(cfg: Settings, s: FitState, r: (FitState, Outcome), render: Params -> real)
    requires Good(cfg, s) && Good(cfg, r.0)
  {
    && r.0.loop == s.loop + 1 && r.0.cursor == Sentinel
    && r.1 == Emit([Request(r.0.face, StartIteration)])
    && r.0.face == Update(cfg, s.face, r.0.d)
    && DerivedAfter(cfg, s.face, s.cursor, r.0.d, render)
    && KeptUpTo(cfg, s.cursor, r.0.d, s.d)
  }

  /**
   * From cursor c, the rest of a pass takes 3 * (n - 1 - c) + 1 replies and
   * ends with the next 'start_iteration' request: the loop counter is one
   * higher, the cursor is back at the sentinel, every coordinate after c
   * holds its symmetric difference at the pass's face, the slots up to c are
   * untouched, and the new face is the gradient step from those derivatives.
   */
  lemma {:induction false} Pass(cfg: Settings, s: FitState, tag: Label, render: Params -> real)
    requires Good(cfg, s) && s.loop < cfg.maxLoops && (tag == Start || tag == StartIteration)
    ensures PassDone(cfg, s, Run(cfg, s, Emit([Request(s.face, tag)]), render, 3 * (cfg.n - 1 - s.cursor) + 1), render)
    decreases cfg.n - s.cursor
  {
    if s.cursor == cfg.n - 1 {
      var t := Reply(cfg, s, render(s.face), tag);
      assert t == NewIteration(cfg, s);
      assert Run(cfg, t.0, t.1, render, 0) == t;
    } else {
      var m := PassSplit(cfg, s, tag, render);
      Pass(cfg, m, Label.Start, render);
      PassCombine(cfg, s, m, Run(cfg, m, Emit([Request(m.face, Label.Start)]), render, 3 * (cfg.n - 1 - m.cursor) + 1), render);
    }
  }

  /** The rest of a pass from s is one coordinate cycle to m followed by the rest of the pass from m. */
  lemma PassSplit(cfg: Settings, s: FitState, tag: Label, render: Params -> real) returns (m: FitState)
    requires Good(cfg, s) && s.loop < cfg.maxLoops && (tag == Start || tag == StartIteration)
    requires s.cursor < cfg.n - 1
    ensures Good(cfg, m) && m.loop == s.loop && m.face == s.face && m.cursor == s.cursor + 1
    ensures m.d == s.d[Slot(cfg.n, s.cursor + 1) := SymDiff(cfg, s.face, s.cursor + 1, render)]
    ensures Run(cfg, s, Emit([Request(s.face, tag)]), render, 3 * (cfg.n - 1 - s.cursor) + 1)
         == Run(cfg, m, Emit([Request(m.face, Start)]), render, 3 * (cfg.n - 1 - m.cursor) + 1)
  {
    var o := Emit([Request(s.face, tag)]);
    CoordinateCycle(cfg, s, tag, render);
    var t := Run(cfg, s, o, render, 3);
    m := t.0;
    var rest := 3 * (cfg.n - 1 - m.cursor) + 1;
    assert 3 * (cfg.n - 1 - s.cursor) + 1 == 3 + rest;
    assert t.1 == Emit([Request(m.face, Start)]);
    RunAdd(cfg, s, o, render, 3, rest);
  }

  /** The bookkeeping step of Pass: one coordinate cycle followed by the rest of the pass. */
  lemma PassCombine(cfg: Settings, s: FitState, m: FitState, r: (FitState, Outcome), render: Params -> real)
    requires Good(cfg, s) && Good(cfg, m) && Good(cfg, r.0) && s.cursor < cfg.n - 1
    requires m.loop == s.loop && m.face == s.face && m.cursor == s.cursor + 1
    requires m.d == s.d[Slot(cfg.n, s.cursor + 1) := SymDiff(cfg, s.face, s.cursor + 1, render)]
    requires PassDone(cfg, m, r, render)
    ensures PassDone(cfg, s, r, render)
  {
    var c := s.cursor + 1;
    var d := r.0.d;
    forall p | -4 <= p <= s.cursor
      ensures d[Slot(cfg.n, p)] == s.d[Slot(cfg.n, p)]
    {
      assert Slot(cfg.n, p) != Slot(cfg.n, c);
      assert d[Slot(cfg.n, p)] == m.d[Slot(cfg.n, p)];
    }
    forall p | s.cursor < p < cfg.n
      ensures d[Slot(cfg.n, p)] == SymDiff(cfg, s.face, p, render)
    {
      if p == c {
        assert d[Slot(cfg.n, p)] == m.d[Slot(cfg.n, p)];
      }
    }
  }

  /** Replies in one full pass: three per coordinate, plus the final 'start'. */
  function PassLength(cfg: Settings): nat
  {
    3 * (cfg.n + 4) + 1
  }

  /**
   * A run from the start of a pass with loop counter L takes
   * max(0, maxLoops - L) passes of PassLength replies, then one more reply
   * finishes it with the current face; the loop counter ends at
   * L + max(0, maxLoops - L).
   */
  lemma {:induction false} Finishes(cfg: Settings, s: FitState, render: Params -> real)
    requires Good(cfg, s) && s.cursor == Sentinel
    ensures var passes := if s.loop < cfg.maxLoops then cfg.maxLoops - s.loop else 0;
      var r := Run(cfg, s, Emit([Request(s.face, StartIteration)]), render, passes * PassLength(cfg) + 1);
      && r.1 == Finish(r.0.face) && r.0.loop == s.loop + passes
    decreases cfg.maxLoops - s.loop
  {
    var o := Emit([Request(s.face, StartIteration)]);
    if s.loop >= cfg.maxLoops {
      var t := Reply(cfg, s, render(s.face), StartIteration);
      assert Run(cfg, t.0, t.1, render, 0) == t;
    } else {
      var passes := cfg.maxLoops - s.loop;
      var len := PassLength(cfg);
      Pass(cfg, s, StartIteration, render);
      var m := Run(cfg, s, o, render, len);
      RunAdd(cfg, s, o, render, len, (passes - 1) * len + 1);
      assert passes * len + 1 == len + ((passes - 1) * len + 1);
      Finishes(cfg, m.0, render);
    }
  }

  /**
   * From `start` with the loop counter at 0, the run finishes after
   * max(0, maxLoops - 1) gradient steps (passes) and hands over the face
   * reached by then; the loop counter ends at max(1, maxLoops).
   */
  lemma GradientSteps(cfg: Settings, coefficients: seq<real>, render: Params -> real)
    requires cfg.dx != 0.0 && |coefficients| == cfg.n
    ensures var b := Begin(cfg, coefficients, 0);
      var steps := if cfg.maxLoops > 1 then cfg.maxLoops - 1 else 0;
      var r := Run(cfg, b.0, b.1, render, steps * PassLength(cfg) + 1);
      && r.1 == Finish(r.0.face) && r.0.loop == 1 + steps
  {
    var b := Begin(cfg, coefficients, 0);
    Finishes(cfg, b.0, render);
  }

  /**
   * The in-place fitter. Before `Start` the accumulators are empty arrays
   * (the source's None); afterwards Snapshot() is the state `Reply` acts on.
   */
  class BGDFitter {
    const base: ModelFitter
    const settings: Settings
    var face: Params
    var cursor: int
    var loop: int
    var derivatives: array<real>
    var leftDerivatives: array<real>
    var rightDerivatives: array<real>
    var started: bool

    ghost predicate Valid()
      reads this, derivatives, leftDerivatives, rightDerivatives
    {
      && settings.dx != 0.0 && settings.n == base.pcs
      && Shaped(base.initialFace, settings.n)
      && derivatives != leftDerivatives && derivatives != rightDerivatives
      && leftDerivatives != rightDerivatives
      && Sentinel <= cursor < settings.n
      && (started ==> Good(settings, Snapshot()))
    }

    function Snapshot(): FitState
      reads this, derivatives, leftDerivatives, rightDerivatives
    {
      FitState(face, cursor, loop, derivatives[..], leftDerivatives[..], rightDerivatives[..])
    }

    constructor (image: seq<real>, dimensions: nat, dx: real, step: real, maxLoops: int,
                 initial: Option<Params>, hasCallback: bool)
      requires dx != 0.0
      requires initial.Some? ==> |initial.value.directed| == DirectionComponents
      ensures Valid() && !started && fresh(base)
      ensures settings == Settings(dimensions, dx, step, maxLoops)
      ensures cursor == Sentinel && loop == 0
      ensures base.target == image && base.initialFace == InitialFace(initial, dimensions)
      ensures base.hasCallback == hasCallback && base.outbox == [] && base.delivered == []
    {
      var b := new ModelFitter(image, dimensions, initial, hasCallback);
      base := b;
      settings := Settings(dimensions, dx, step, maxLoops);
      face := b.initialFace;
      cursor := Sentinel;
      loop := 0;
      derivatives := new real[0];
      leftDerivatives := new real[0];
      rightDerivatives := new real[0];
      started := false;
    }

    method Start()
      requires Valid()
      modifies this, base
      ensures Valid() && started
      ensures fresh(derivatives) && fresh(leftDerivatives) && fresh(rightDerivatives)
      ensures var r := Begin(settings, base.initialFace.coefficients, old(loop));
        Snapshot() == r.0 && base.outbox == old(base.outbox) + Sent(r.1)
      ensures base.delivered == old(base.delivered)
    {
      face := Params(base.initialFace.coefficients, 1.0, [0.0, 0.0, 0.0]);
      var size := settings.n + 4;
      derivatives := new real[size](_ => 0.0);
      leftDerivatives := new real[size](_ => 0.0);
      rightDerivatives := new real[size](_ => 0.0);
      started := true;
      ghost var zero := seq(size, _ => 0.0);
      assert derivatives[..] == zero && leftDerivatives[..] == zero && rightDerivatives[..] == zero;
      ghost var pre := Snapshot();
      assert NewIteration(settings, pre) == Begin(settings, base.initialFace.coefficients, old(loop));
      NextIteration();
    }

    method NextIteration()
      requires Valid() && started
      modifies this, base
      ensures Valid() && started
      ensures derivatives == old(derivatives) && leftDerivatives == old(leftDerivatives)
      ensures rightDerivatives == old(rightDerivatives)
      ensures var r := NewIteration(settings, old(Snapshot()));
        Snapshot() == r.0 && base.outbox == old(base.outbox) + Sent(r.1)
      ensures base.delivered == old(base.delivered)
    {
      loop := loop + 1;
      cursor := Sentinel;
      face := Update(settings, face, derivatives[..]);
      base.RequestFace(face, StartIteration);
    }

    /** A reply is priced only where the fitter computes a derivative from it. */
    method ReceiveImage(obs: seq<seq<real>>, tag: Label) returns (ok: bool)
      requires Valid() && started && Answerable(Snapshot(), tag)
      requires Prices(settings, Snapshot(), tag) ==> Priceable(base.target, obs)
      modifies this, base, derivatives, leftDerivatives, rightDerivatives
      ensures Valid() && started
      ensures derivatives == old(derivatives) && leftDerivatives == old(leftDerivatives)
      ensures rightDerivatives == old(rightDerivatives)
      ensures var cost := if Prices(settings, old(Snapshot()), tag) then Cost(base.target, obs) else 0.0;
        var r := Reply(settings, old(Snapshot()), cost, tag);
        && Snapshot() == r.0 && ok == !r.1.Fault?
        && base.outbox == old(base.outbox) + Sent(r.1)
        && base.delivered == old(base.delivered) + (if r.1.Finish? && base.hasCallback then [r.1.face] else [])
    {
      var cost := 0.0;
      if Prices(settings, Snapshot(), tag) {
        cost := Cost(base.target, obs);
      }
      ok := Respond(cost, tag);
    }

    /** The handling of one reply once its cost is known. */
    method Respond(cost: real, tag: Label) returns (ok: bool)
      requires Valid() && started && Answerable(Snapshot(), tag)
      modifies this, base, derivatives, leftDerivatives, rightDerivatives
      ensures Valid() && started
      ensures derivatives == old(derivatives) && leftDerivatives == old(leftDerivatives)
      ensures rightDerivatives == old(rightDerivatives)
      ensures var r := Reply(settings, old(Snapshot()), cost, tag);
        && Snapshot() == r.0 && ok == !r.1.Fault?
        && base.outbox == old(base.outbox) + Sent(r.1)
        && base.delivered == old(base.delivered) + (if r.1.Finish? && base.hasCallback then [r.1.face] else [])
    {
      var phase := tag;
      if phase == StartIteration {
        phase := Label.Start;
        if loop >= settings.maxLoops {
          base.Finish(face);
          return true;
        }
      }
      if phase == Label.Start && cursor >= settings.n - 1 {
        NextIteration();
        return true;
      } else if phase == Label.Start {
        cursor := cursor + 1;
      }
      ok := GetDerivative(phase, cost);
    }

    method GetDerivative(phase: Label, cost: real) returns (ok: bool)
      requires Valid() && started
      requires phase == Label.Start || phase == RightDerivative || phase == LeftDerivative ==> cursor >= -4
      modifies base, derivatives, leftDerivatives, rightDerivatives
      ensures Valid() && started
      ensures var r := Derive(settings, old(Snapshot()), phase, cost);
        && Snapshot() == r.0 && ok == !r.1.Fault?
        && base.outbox == old(base.outbox) + Sent(r.1)
      ensures base.delivered == old(base.delivered)
    {
      ok := true;
      if phase == Label.Start {
        var k := Slot(settings.n, cursor);
        derivatives[k] := cost;
        var f := DerivativeFace(face, cursor, settings.dx);
        base.RequestFace(f, RightDerivative);
      } else if phase == RightDerivative || phase == LeftDerivative {
        var k := Slot(settings.n, cursor);
        var f := face;
        var action;
        if phase == RightDerivative {
          f := DerivativeFace(face, cursor, -settings.dx);
          action := LeftDerivative;
          rightDerivatives[k] := Derivative(settings, derivatives[k], cost);
        } else {
          action := Label.Start;
          leftDerivatives[k] := Derivative(settings, cost, derivatives[k]);
          derivatives[k] := 0.5 * (leftDerivatives[k] + rightDerivatives[k]);
        }
        base.RequestFace(f, action);
      } else if phase == NoLabel || phase.Candidate? {
        ok := false;
      }
    }
  }
}
