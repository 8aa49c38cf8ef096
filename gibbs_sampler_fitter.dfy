/**
 * Coordinate-wise grid search with optional sampling
 * (src/fitter/GibbsSamplerFitter.py).
 *
 * The fitter walks the D = n + 4 entries of the flat parameter vector. For
 * the coordinate under the cursor it builds an odd-sized grid over [-4, 4]
 * and sends one request per grid value, labelled with the value's index.
 * Replies fill an error table slot by slot; once no slot is empty it picks
 * a grid value (first minimum while the loop counter is below the number of
 * determined loops, otherwise a walk over weights derived from the errors
 * and a uniform draw), commits it, and asks for a 'pre' render that moves it
 * on to the next coordinate.
 *
 * `Reply` is the transition of one reply as a function of the state; the
 * class GibbsSamplerFitter does the same with its parameter array updated
 * in place. `exp` and the random draw are parameters.
 */
module GibbsSampling {
  import opened Wrappers
  import opened ModelFitting

  /** Fixed settings: coefficient count, grid steps per entry, loop bounds. */
  datatype Settings = Settings(n: nat, steps: seq<nat>, maxLoops: int, determinedLoops: int)

  /** The fitter's mutable state as a value. */
  datatype GState = GState(params: seq<real>, face: Params, cursor: int, loop: int,
                           values: seq<real>, errors: seq<Option<real>>)

  /** The shape every state after `start` has. */
  predicate Good(cfg: Settings, s: GState)
  {
    && |cfg.steps| == ParameterCount(cfg.n)
    && |s.params| == ParameterCount(cfg.n)
    && s.face == FromArray(s.params)
    && 0 <= s.cursor < ParameterCount(cfg.n)
    && |s.values| == |s.errors| > 0
  }

  /** The exponential the sampling weights are built from; only its positivity is used. */
  ghost predicate Positive(exp: real -> real)
  {
    forall x :: exp(x) > 0.0
  }

  // ---------------------------------------------------------------------
  // The grid of candidate values.
  // ---------------------------------------------------------------------

  /** Number of grid values for `steps` steps: the least odd number above `steps`. */
  function GridSize(steps: nat): (m: nat)
    ensures m % 2 == 1 && steps < m <= steps + 2
  {
    if steps % 2 == 0 then steps + 1 else steps + 2
  }

  /** The spacing of an m-value grid over [-4, 4]. */
  function Spacing(m: nat): real
    requires m > 1
  {
    8.0 / ((m - 1) as real)
  }

  /**
   * numpy's linspace(-4, 4, m): -4 + k * spacing for k = 0 .. m - 1, so m
   * evenly spaced values from -4 to 4 inclusive (a single value is -4).
   */
  function Linspace(m: nat): (g: seq<real>)
    requires m >= 1
    ensures |g| == m && g[0] == -4.0
    ensures m > 1 ==> g[m - 1] == 4.0
  {
    if m == 1 then [-4.0]
    else
      var h := Spacing(m);
      assert ((m - 1) as real) * h == 8.0;
      seq(m, k requires 0 <= k < m => -4.0 + (k as real) * h)
  }

  /** The grid of coordinate `i`. */
  function Grid(cfg: Settings, i: nat): (g: seq<real>)
    requires i < |cfg.steps|
    ensures |g| == GridSize(cfg.steps[i])
  {
    Linspace(GridSize(cfg.steps[i]))
  }

  /** Neighbouring grid values are 8 / (m - 1) apart, so the grid increases. */
  lemma LinspaceEvenlySpaced(m: nat, k: nat)
    requires m > 1 && k + 1 < m
    ensures Linspace(m)[k + 1] - Linspace(m)[k] == Spacing(m) > 0.0
  {
    var h := Spacing(m);
    assert ((k + 1) as real) * h == (k as real) * h + h;
  }

  /** The grid is symmetric about 0, and an odd grid of three or more values has 0 in its middle. */
  lemma LinspaceSymmetric(m: nat, k: nat)
    requires m > 1 && k < m
    ensures Linspace(m)[k] == -Linspace(m)[m - 1 - k]
    ensures m % 2 == 1 ==> Linspace(m)[m / 2] == 0.0
  {
    var h := Spacing(m);
    var d := (m - 1) as real;
    assert d * h == 8.0;
    assert (k as real) * h + ((m - 1 - k) as real) * h == d * h;
    if m % 2 == 1 {
      assert ((m / 2) as real) * 2.0 == d;
      assert ((m / 2) as real) * h * 2.0 == d * h;
    }
  }

  /** Four steps and three steps both give the grid -4, -2, 0, 2, 4. */
  lemma FiveValueGrid()
    ensures GridSize(4) == 5 && GridSize(3) == 5
    ensures Linspace(5) == [-4.0, -2.0, 0.0, 2.0, 4.0]
  {
    var g := Linspace(5);
    assert g[1] == -2.0 && g[2] == 0.0 && g[3] == 2.0;
  }

  /**
   * The fan-out of __get_parameter: one request per grid value, labelled with
   * its index, each the current parameters with entry i set to that value.
   */
  function Candidates(params: seq<real>, i: nat, values: seq<real>): (r: seq<Request>)
    requires i < |params| && |params| >= LightComponents + DirectionComponents
    ensures |r| == |values|
    ensures forall k :: 0 <= k < |values| ==> r[k].tag == Candidate(k)
  {
    seq(|values|, k requires 0 <= k < |values| => Request(FromArray(params[i := values[k]]), Candidate(k)))
  }

  /** Candidate k differs from the current parameters only at entry i, where it holds values[k]. */
  lemma CandidateDiffersAtOneEntry(params: seq<real>, i: nat, values: seq<real>, k: nat, j: nat)
    requires i < |params| && |params| >= LightComponents + DirectionComponents
    requires k < |values| && j < |params|
    ensures var a := AsArray(Candidates(params, i, values)[k].face);
      |a| == |params| && a[j] == (if j == i then values[k] else params[j])
  {
    assert Candidates(params, i, values)[k].face == FromArray(params[i := values[k]]);
  }

  /**
   * __get_parameter(i): the cursor moves to i, the grid of i becomes the
   * candidate values, the error table is emptied to the grid's size, and one
   * request per candidate is sent. Parameters, face and loop are kept.
   */
  function BeginCoordinate(cfg: Settings, s: GState, i: nat): (r: (GState, Outcome))
    requires |cfg.steps| == ParameterCount(cfg.n) && |s.params| == ParameterCount(cfg.n)
    requires s.face == FromArray(s.params) && i < ParameterCount(cfg.n)
    ensures Good(cfg, r.0)
    ensures r.0.params == s.params && r.0.face == s.face && r.0.loop == s.loop && r.0.cursor == i
    ensures r.0.values == Linspace(GridSize(cfg.steps[i]))
    ensures forall k :: 0 <= k < |r.0.errors| ==> r.0.errors[k].None?
    ensures r.1 == Emit(Candidates(s.params, i, r.0.values))
  {
    var values := Grid(cfg, i);
    (s.(cursor := i, values := values, errors := seq(|values|, _ => None)),
     Emit(Candidates(s.params, i, values)))
  }

  /**
   * start: the loop counter at 0, the initial face and its flat vector, an
   * 'init' request for the face itself, then the candidates of entry 0.
   */
  function Begin(cfg: Settings, initial: Params): (r: (GState, Outcome))
    requires |cfg.steps| == ParameterCount(cfg.n) && Shaped(initial, cfg.n)
    ensures Good(cfg, r.0)
    ensures r.0.loop == 0 && r.0.cursor == 0 && r.0.face == initial && r.0.params == AsArray(initial)
    ensures forall k :: 0 <= k < |r.0.errors| ==> r.0.errors[k].None?
    ensures r.1 == Emit([Request(initial, Init)] + Candidates(AsArray(initial), 0, r.0.values))
  {
    FromArrayAsArray(initial);
    var t := BeginCoordinate(cfg, GState(AsArray(initial), initial, 0, 0, [], []), 0);
    (t.0, Emit([Request(initial, Init)] + t.1.requests))
  }

  /** `start` does not depend on the cursor, grid or table left from before. */
  lemma BeginFromAnyTable(cfg: Settings, s: GState, initial: Params)
    requires |cfg.steps| == ParameterCount(cfg.n) && Shaped(initial, cfg.n)
    requires s.params == AsArray(initial) && s.face == initial && s.loop == 0
    ensures FromArray(s.params) == s.face
    ensures var t := BeginCoordinate(cfg, s, 0);
      && Begin(cfg, initial).0 == t.0
      && Begin(cfg, initial).1 == Emit([Request(initial, Init)] + Sent(t.1))
  {
    FromArrayAsArray(initial);
  }

  // ---------------------------------------------------------------------
  // Selection: first minimum, or a walk over weights.
  // ---------------------------------------------------------------------

  /** Python's list index k into a list of m entries: negative k counts from the end. */
  function ListIndex(m: nat, k: int): (r: Option<nat>)
    ensures r.Some? <==> -(m as int) <= k < m
    ensures r.Some? ==> r.value < m && (r.value == k || r.value == k + m)
  {
    if 0 <= k < m then Some(k) else if -(m as int) <= k < 0 then Some(k + m) else None
  }

  /** No slot of the error table is empty. */
  predicate Full(errors: seq<Option<real>>)
  {
    forall k :: 0 <= k < |errors| ==> errors[k].Some?
  }

  function Costs(errors: seq<Option<real>>): (e: seq<real>)
    requires Full(errors)
    ensures |e| == |errors| && forall k :: 0 <= k < |e| ==> errors[k] == Some(e[k])
  {
    seq(|errors|, k requires 0 <= k < |errors| => errors[k].value)
  }

  /** numpy's argmin: the first index of a minimal entry. */
  function FirstArgmin(e: seq<real>): (r: nat)
    requires |e| > 0
    ensures r < |e|
    ensures forall j :: 0 <= j < |e| ==> e[r] <= e[j]
    ensures forall j :: 0 <= j < r ==> e[j] > e[r]
  {
    if |e| == 1 then 0
    else
      var b := FirstArgmin(e[..|e| - 1]);
      if e[|e| - 1] < e[b] then |e| - 1 else b
  }

  function Sum(xs: seq<real>): real
  {
    if |xs| == 0 then 0.0 else Sum(xs[..|xs| - 1]) + xs[|xs| - 1]
  }

  lemma {:induction false} SumPositive(xs: seq<real>)
    requires |xs| > 0 && forall k :: 0 <= k < |xs| ==> xs[k] > 0.0
    ensures Sum(xs) > 0.0
  {
    if |xs| > 1 {
      SumPositive(xs[..|xs| - 1]);
    }
  }

  /** The largest entry. */
  function MaxOf(e: seq<real>): (r: real)
    requires |e| > 0
    ensures forall k :: 0 <= k < |e| ==> e[k] <= r
    ensures exists k :: 0 <= k < |e| && e[k] == r
  {
    if |e| == 1 then e[0]
    else
      var m := MaxOf(e[..|e| - 1]);
      if e[|e| - 1] > m then e[|e| - 1] else m
  }

  /** The normaliser X: the sum of exp(-e / max) over the errors. */
  function Normaliser(e: seq<real>, mx: real, exp: real -> real): (x: real)
    requires |e| > 0 && mx != 0.0 && Positive(exp)
    ensures x > 0.0
  {
    var terms := seq(|e|, k requires 0 <= k < |e| => exp(-e[k] / mx));
    SumPositive(terms);
    Sum(terms)
  }

  /**
   * The sampling weights exp(e / max) / X. When the largest error is 0 the
   * source divides 0 by 0 and every weight is NaN; that case is None.
   */
  function Weights(e: seq<real>, exp: real -> real): (w: Option<seq<real>>)
    requires |e| > 0 && Positive(exp)
    ensures w.None? <==> MaxOf(e) == 0.0
    ensures w.Some? ==> |w.value| == |e| && forall k :: 0 <= k < |e| ==> w.value[k] > 0.0
  {
    var mx := MaxOf(e);
    if mx == 0.0 then None
    else
      var x := Normaliser(e, mx, exp);
      Some(seq(|e|, k requires 0 <= k < |e| => exp(e[k] / mx) / x))
  }

  /** The sum of the first k weights. */
  function Prefix(w: seq<real>, k: nat): real
    requires k <= |w|
  {
    if k == 0 then 0.0 else Prefix(w, k - 1) + w[k - 1]
  }

  /** The running total up to and including weight j reaches v. */
  predicate Reaches(w: seq<real>, v: real, j: nat)
    requires j < |w|
  {
    v <= Prefix(w, j + 1)
  }

  /** The first index from i on whose running total reaches v, else the last index. */
  function FirstReaching(w: seq<real>, v: real, i: nat): (r: nat)
    requires 0 < |w| && i <= |w|
    ensures i <= r < |w| || (i == |w| && r == |w| - 1)
    ensures forall j :: i <= j < |w| && j < r ==> !Reaches(w, v, j)
    ensures (exists j :: i <= j < |w| && Reaches(w, v, j)) ==> i <= r && Reaches(w, v, r)
    ensures (forall j :: i <= j < |w| ==> !Reaches(w, v, j)) ==> r == |w| - 1
    decreases |w| - i
  {
    if i == |w| then |w| - 1
    else if Reaches(w, v, i) then i
    else FirstReaching(w, v, i + 1)
  }

  /**
   * The cumulative-weight walk: the smallest i with v <= w[0] + ... + w[i],
   * or the last index when the draw exceeds every running total.
   */
  function CumulativePick(w: seq<real>, v: real): (r: nat)
    requires |w| > 0
    ensures r < |w|
    ensures forall j :: 0 <= j < r ==> !Reaches(w, v, j)
    ensures (exists j :: 0 <= j < |w| && Reaches(w, v, j)) ==> Reaches(w, v, r)
    ensures (forall j :: 0 <= j < |w| ==> !Reaches(w, v, j)) ==> r == |w| - 1
  {
    FirstReaching(w, v, 0)
  }

  /** The sampled index: the walk over the weights, or the last index when they are NaN. */
  function Sample(e: seq<real>, exp: real -> real, draw: real): (r: nat)
    requires |e| > 0 && Positive(exp)
    ensures r < |e|
    ensures MaxOf(e) == 0.0 ==> r == |e| - 1
  {
    match Weights(e, exp)
    case None => |e| - 1
    case Some(w) => CumulativePick(w, draw)
  }

  /**
   * The sampling loop as the source runs it: it subtracts each weight from
   * the draw until the remainder fits under the current weight, and falls
   * back to the last index (the -1 marker) when no weight catches it.
   */
  method SampleIndex(errors: seq<real>, exp: real -> real, draw: real) returns (best: nat)
    requires |errors| > 0 && Positive(exp)
    ensures best == Sample(errors, exp, draw)
  {
    var maxError := MaxOf(errors);
    if maxError == 0.0 {
      // every weight is NaN: no comparison succeeds
      return |errors| - 1;
    }
    var x := Normaliser(errors, maxError, exp);
    ghost var w := Weights(errors, exp).value;
    var v := draw;
    var t := 0.0;
    var bestIndex := -1;
    var i := 0;
    while i < |errors|
      invariant 0 <= i <= |errors| && bestIndex == -1
      invariant t == Prefix(w, i) && v == draw - t
      invariant forall j :: 0 <= j < i ==> !Reaches(w, draw, j)
    {
      var e := exp(errors[i] / maxError) / x;
      assert e == w[i];
      t := t + e;
      if v <= e {
        bestIndex := i;
        break;
      } else {
        v := v - e;
      }
      i := i + 1;
    }
    if bestIndex == -1 {
      assert forall j :: 0 <= j < |w| ==> !Reaches(w, draw, j);
      bestIndex := |errors| - 1;
    } else {
      assert Reaches(w, draw, i);
      var r := CumulativePick(w, draw);
      assert !(r < i) && !(r > i);
    }
    best := bestIndex;
  }

  /** The index the fitter commits: first minimum in the determined loops, a sample afterwards. */
  function Choose(cfg: Settings, s: GState, exp: real -> real, draw: real): (r: nat)
    requires Good(cfg, s) && Full(s.errors) && Positive(exp)
    ensures r < |s.values|
  {
    var e := Costs(s.errors);
    if s.loop >= cfg.determinedLoops then Sample(e, exp, draw) else FirstArgmin(e)
  }

  /** While the loop counter is below the determined loops, the choice is the first minimal error. */
  lemma DeterminedLoopsTakeArgmin(cfg: Settings, s: GState, exp: real -> real, draw: real)
    requires Good(cfg, s) && Full(s.errors) && Positive(exp) && s.loop < cfg.determinedLoops
    ensures var r := Choose(cfg, s, exp, draw);
      && (forall k :: 0 <= k < |s.errors| ==> s.errors[r].value <= s.errors[k].value)
      && (forall k :: 0 <= k < r ==> s.errors[k].value > s.errors[r].value)
  {
    var e := Costs(s.errors);
    var r := FirstArgmin(e);
    assert forall k :: 0 <= k < |s.errors| ==> s.errors[k].value == e[k];
  }

  // ---------------------------------------------------------------------
  // Commit and advance.
  // ---------------------------------------------------------------------

  /** This coordinate was the last one of the last loop: the next request is unlabelled. */
  predicate Final(cfg: Settings, s: GState)
  {
    s.cursor + 1 == ParameterCount(cfg.n) && s.loop + 1 >= cfg.maxLoops
  }

  /** This coordinate was the last one of a loop that is not the last. */
  predicate Wraps(cfg: Settings, s: GState)
  {
    s.cursor + 1 == ParameterCount(cfg.n) && s.loop + 1 < cfg.maxLoops
  }

  /**
   * The commit: entry `cursor` of the parameters becomes values[best] and the
   * face is rebuilt from them. At the last coordinate of the last loop it
   * sends an unlabelled request; at the last coordinate of another loop it
   * resets the cursor to 0, counts the loop and sends 'pre'; otherwise it
   * sends 'pre'.
   */
  function Commit(cfg: Settings, s: GState, best: nat): (r: (GState, Outcome))
    requires Good(cfg, s) && best < |s.values|
    ensures Good(cfg, r.0)
    ensures |r.0.params| == |s.params| && r.0.params[s.cursor] == s.values[best]
    ensures forall k :: 0 <= k < |s.params| && k != s.cursor ==> r.0.params[k] == s.params[k]
    ensures AsArray(r.0.face) == r.0.params
    ensures r.0.values == s.values && r.0.errors == s.errors
    ensures r.0.cursor == (if Wraps(cfg, s) then 0 else s.cursor)
    ensures r.0.loop == (if Wraps(cfg, s) then s.loop + 1 else s.loop)
    ensures r.1 == Emit([Request(r.0.face, if Final(cfg, s) then NoLabel else Pre)])
  {
    var p := s.params[s.cursor := s.values[best]];
    var f := FromArray(p);
    if Final(cfg, s) then
      (s.(params := p, face := f), Emit([Request(f, NoLabel)]))
    else if Wraps(cfg, s) then
      (s.(params := p, face := f, cursor := 0, loop := s.loop + 1), Emit([Request(f, Pre)]))
    else
      (s.(params := p, face := f), Emit([Request(f, Pre)]))
  }

  /** The error table after a reply for grid slot k, or None when k is no index of it. */
  function Fill(errors: seq<Option<real>>, k: int, cost: real): (r: Option<seq<Option<real>>>)
    ensures r.Some? <==> -|errors| <= k < |errors|
    ensures r.Some? ==> |r.value| == |errors|
    ensures r.Some? ==> forall j :: 0 <= j < |errors| ==>
      r.value[j] == (if ListIndex(|errors|, k) == Some(j) then Some(cost) else errors[j])
  {
    var slot := ListIndex(|errors|, k);
    if slot.None? then None else Some(errors[slot.value := Some(cost)])
  }

  /**
   * receive_image: 'init' is ignored; 'pre' starts the next coordinate (an
   * IndexError past the last one); an unlabelled reply finishes with the
   * current face; an integer label fills its slot of the error table and,
   * once no slot is empty, commits the chosen value. Any other label raises
   * (a string is no list index).
   */
  function Reply(cfg: Settings, s: GState, cost: real, tag: Label, exp: real -> real, draw: real): (r: (GState, Outcome))
    requires Good(cfg, s) && Positive(exp)
    ensures Good(cfg, r.0)
    ensures r.1.Fault? <==>
      || (tag == Pre && s.cursor + 1 == ParameterCount(cfg.n))
      || (tag.Candidate? && !(-|s.errors| <= tag.index < |s.errors|))
      || tag == StartIteration || tag == Start || tag == RightDerivative || tag == LeftDerivative
    ensures r.1.Fault? ==> r.0 == s
  {
    match tag
    case Init => (s, Emit([]))
    case Pre => NextCoordinate(cfg, s)
    case NoLabel => (s, Finish(s.face))
    case Candidate(k) => Record(cfg, s, k, cost, exp, draw)
    case _ => (s, Fault)
  }

  /** A 'pre' reply: the grid of the next entry, or a fault past the last one. */
  function NextCoordinate(cfg: Settings, s: GState): (r: (GState, Outcome))
    requires Good(cfg, s)
    ensures Good(cfg, r.0)
    ensures r.1.Fault? <==> s.cursor + 1 == ParameterCount(cfg.n)
    ensures r.1.Fault? ==> r.0 == s
  {
    if s.cursor + 1 < ParameterCount(cfg.n) then BeginCoordinate(cfg, s, s.cursor + 1) else (s, Fault)
  }

  /**
   * An integer-labelled reply: its cost fills slot k of the error table (a
   * fault when k is no index of it), and once no slot is empty the chosen
   * value is committed.
   */
  function Record(cfg: Settings, s: GState, k: int, cost: real, exp: real -> real, draw: real): (r: (GState, Outcome))
    requires Good(cfg, s) && Positive(exp)
    ensures Good(cfg, r.0)
    ensures r.1.Fault? <==> !(-|s.errors| <= k < |s.errors|)
    ensures r.1.Fault? ==> r.0 == s
  {
    var filled := Fill(s.errors, k, cost);
    if filled.None? then (s, Fault)
    else
      var t := s.(errors := filled.value);
      if !Full(t.errors) then (t, Emit([]))
      else Commit(cfg, t, Choose(cfg, t, exp, draw))
  }

  /** An 'init' reply changes nothing and sends nothing. */
  lemma InitIgnored(cfg: Settings, s: GState, cost: real, exp: real -> real, draw: real)
    requires Good(cfg, s) && Positive(exp)
    ensures Reply(cfg, s, cost, Init, exp, draw) == (s, Emit([]))
  {
  }

  /** A 'pre' reply before the last coordinate starts the next one. */
  lemma PreAdvances(cfg: Settings, s: GState, cost: real, exp: real -> real, draw: real)
    requires Good(cfg, s) && Positive(exp) && s.cursor + 1 < ParameterCount(cfg.n)
    ensures var r := Reply(cfg, s, cost, Pre, exp, draw);
      && r.0.cursor == s.cursor + 1 && r.0.params == s.params && r.0.loop == s.loop
      && r.1 == Emit(Candidates(s.params, s.cursor + 1, r.0.values))
  {
  }

  /**
   * A candidate reply that leaves some slot empty only records its cost: no
   * selection, no parameter change, no request.
   */
  lemma PartialFillWaits(cfg: Settings, s: GState, cost: real, k: int, exp: real -> real, draw: real)
    requires Good(cfg, s) && Positive(exp) && -|s.errors| <= k < |s.errors|
    requires !Full(Fill(s.errors, k, cost).value)
    ensures var r := Reply(cfg, s, cost, Candidate(k), exp, draw);
      && r == (s.(errors := Fill(s.errors, k, cost).value), Emit([]))
      && r.0.params == s.params && r.0.face == s.face && r.0.cursor == s.cursor && r.0.loop == s.loop
  {
  }

  /**
   * Replies for two different empty slots may arrive in either order: the
   * first of them only records its cost, and both orders end in the same
   * state with the same outcome, including the commit when the second one
   * fills the table.
   */
  lemma ArrivalOrderIrrelevant(cfg: Settings, s: GState, a: real, ka: nat, b: real, kb: nat,
                               exp: real -> real, draw: real)
    requires Good(cfg, s) && Positive(exp)
    requires ka < |s.errors| && kb < |s.errors| && ka != kb
    requires s.errors[ka].None? && s.errors[kb].None?
    ensures var x1 := Reply(cfg, s, a, Candidate(ka), exp, draw);
      var x2 := Reply(cfg, s, b, Candidate(kb), exp, draw);
      && x1.1 == Emit([]) && x2.1 == Emit([])
      && Reply(cfg, x1.0, b, Candidate(kb), exp, draw) == Reply(cfg, x2.0, a, Candidate(ka), exp, draw)
  {
    var e1 := s.errors[ka := Some(a)];
    var e2 := s.errors[kb := Some(b)];
    assert !Full(e1) by { assert e1[kb].None?; }
    assert !Full(e2) by { assert e2[ka].None?; }
    assert e1[kb := Some(b)] == e2[ka := Some(a)];
  }

  /**
   * The reply that fills the last empty slot commits: the current entry of
   * the parameters becomes the chosen grid value, every other entry stays.
   */
  lemma LastFillCommits(cfg: Settings, s: GState, cost: real, k: int, exp: real -> real, draw: real)
    requires Good(cfg, s) && Positive(exp) && -|s.errors| <= k < |s.errors|
    requires Full(Fill(s.errors, k, cost).value)
    ensures var t := s.(errors := Fill(s.errors, k, cost).value);
      var best := Choose(cfg, t, exp, draw);
      var r := Reply(cfg, s, cost, Candidate(k), exp, draw);
      && r == Commit(cfg, t, best)
      && r.0.params == s.params[s.cursor := s.values[best]]
  {
    var t := s.(errors := Fill(s.errors, k, cost).value);
    var best := Choose(cfg, t, exp, draw);
    var r := Commit(cfg, t, best);
    assert r.0.params == s.params[s.cursor := s.values[best]];
  }

  /**
   * At the last coordinate of a loop that is not the last the cursor goes
   * back to 0, so the 'pre' reply that follows starts coordinate 1, not 0:
   * after the first loop entry 0 is never searched again.
   */
  lemma WrapSkipsFirstEntry(cfg: Settings, s: GState, best: nat, cost: real, exp: real -> real, draw: real)
    requires Good(cfg, s) && Positive(exp) && best < |s.values| && Wraps(cfg, s)
    ensures var c := Commit(cfg, s, best);
      var r := Reply(cfg, c.0, cost, Pre, exp, draw);
      && c.0.cursor == 0 && c.0.loop == s.loop + 1
      && c.1 == Emit([Request(c.0.face, Pre)])
      && r.0.cursor == 1 && r.0.loop == s.loop + 1
  {
  }

  /** At the last coordinate of the last loop an unlabelled request goes out, and its reply finishes. */
  lemma FinalReplyFinishes(cfg: Settings, s: GState, best: nat, cost: real, exp: real -> real, draw: real)
    requires Good(cfg, s) && Positive(exp) && best < |s.values| && Final(cfg, s)
    ensures var c := Commit(cfg, s, best);
      && c.1 == Emit([Request(c.0.face, NoLabel)])
      && Reply(cfg, c.0, cost, NoLabel, exp, draw) == (c.0, Finish(c.0.face))
      && c.0.face == FromArray(s.params[s.cursor := s.values[best]])
  {
  }

  /**
   * The in-place fitter. Before `Start` the table and grid are empty (the
   * source's None) and the cursor is 0; afterwards Snapshot() is the state
   * `Reply` acts on.
   */
  class GibbsSamplerFitter {
    const base: ModelFitter
    const settings: Settings
    var parameters: array<real>
    var face: Params
    var cursor: int
    var loop: int
    var values: seq<real>
    var errors: seq<Option<real>>
    var started: bool

    ghost predicate Valid()
      reads this, parameters
    {
      && settings.n == base.pcs && |settings.steps| == ParameterCount(settings.n)
      && Shaped(base.initialFace, settings.n)
      && (started ==> Good(settings, Snapshot()))
    }

    function Snapshot(): GState
      reads this, parameters
    {
      GState(parameters[..], face, cursor, loop, values, errors)
    }

    /** Without steps every entry gets one step, that is a grid of three values. */
    constructor (image: seq<real>, dimensions: nat, steps: Option<seq<nat>>, maxLoops: int,
                 determinedLoops: int, initial: Option<Params>, hasCallback: bool)
      requires initial.Some? ==> |initial.value.directed| == DirectionComponents
      requires steps.Some? ==> |steps.value| == ParameterCount(dimensions)
      ensures Valid() && !started && fresh(base) && loop == 0
      ensures settings.n == dimensions && settings.maxLoops == maxLoops
      ensures settings.determinedLoops == determinedLoops
      ensures steps.Some? ==> settings.steps == steps.value
      ensures steps.None? ==> forall k :: 0 <= k < |settings.steps| ==> settings.steps[k] == 1
      ensures base.target == image && base.initialFace == InitialFace(initial, dimensions)
      ensures base.hasCallback == hasCallback && base.outbox == [] && base.delivered == []
    {
      var b := new ModelFitter(image, dimensions, initial, hasCallback);
      base := b;
      var size := ParameterCount(dimensions);
      settings := Settings(dimensions, if steps.None? then seq(size, _ => 1) else steps.value,
                           maxLoops, determinedLoops);
      parameters := new real[size](_ => 0.0);
      face := b.initialFace;
      cursor := 0;
      loop := 0;
      values := [];
      errors := [];
      started := false;
    }

    method Start()
      requires Valid()
      modifies this, base
      ensures Valid() && started && fresh(parameters)
      ensures var r := Begin(settings, base.initialFace);
        Snapshot() == r.0 && base.outbox == old(base.outbox) + Sent(r.1)
      ensures base.delivered == old(base.delivered)
    {
      ghost var o0 := base.outbox;
      LoadInitialFace();
      ghost var o1 := base.outbox;
      ghost var s1 := Snapshot();
      GetParameter(0);
      ghost var sent := Sent(BeginCoordinate(settings, s1, 0).1);
      BeginFromAnyTable(settings, s1, base.initialFace);
      assert base.outbox == o1 + sent;
      assert o1 + sent == o0 + ([Request(base.initialFace, Init)] + sent);
    }

    /** The first half of start: the initial face in a fresh parameter array, and the 'init' request. */
    method LoadInitialFace()
      requires Valid()
      modifies this, base
      ensures fresh(parameters) && started && loop == 0 && face == base.initialFace
      ensures parameters[..] == AsArray(base.initialFace) && face == FromArray(parameters[..])
      ensures cursor == old(cursor) && values == old(values) && errors == old(errors)
      ensures base.outbox == old(base.outbox) + [Request(base.initialFace, Init)]
      ensures base.delivered == old(base.delivered)
    {
      loop := 0;
      face := base.initialFace;
      var a := AsArray(face);
      parameters := new real[|a|](k requires 0 <= k < |a| => a[k]);
      assert parameters[..] == a;
      FromArrayAsArray(face);
      base.RequestFace(face, Init);
      started := true;
    }

    /** __get_parameter: the grid of entry i and one request per grid value. */
    method GetParameter(i: nat)
      requires settings.n == base.pcs && |settings.steps| == ParameterCount(settings.n)
      requires Shaped(base.initialFace, settings.n)
      requires parameters.Length == ParameterCount(settings.n) && face == FromArray(parameters[..])
      requires i < ParameterCount(settings.n)
      modifies this, base
      ensures Valid() && parameters == old(parameters) && started == old(started)
      ensures var r := BeginCoordinate(settings, old(Snapshot()), i);
        Snapshot() == r.0 && base.outbox == old(base.outbox) + Sent(r.1)
      ensures base.delivered == old(base.delivered)
    {
      ghost var s0 := Snapshot();
      cursor := i;
      values := Grid(settings, i);
      errors := seq(|values|, _ => None);
      RequestCandidates(parameters[..], i, values);
      ghost var r := BeginCoordinate(settings, s0, i);
      assert r.0 == s0.(cursor := i, values := values, errors := errors);
    }

    /** The fan-out of __get_parameter: one request per grid value, labelled with its index. */
    method RequestCandidates(params: seq<real>, i: nat, values: seq<real>)
      requires i < |params| && |params| >= LightComponents + DirectionComponents
      modifies base
      ensures base.outbox == old(base.outbox) + Candidates(params, i, values)
      ensures base.delivered == old(base.delivered)
    {
      ghost var requests := Candidates(params, i, values);
      var k := 0;
      while k < |values|
        invariant 0 <= k <= |values|
        invariant base.outbox == old(base.outbox) + requests[..k]
        invariant base.delivered == old(base.delivered)
      {
        var face' := FromArray(params[i := values[k]]);
        assert requests[k] == Request(face', Candidate(k));
        base.RequestFace(face', Candidate(k));
        assert requests[..k + 1] == requests[..k] + [requests[k]];
        k := k + 1;
      }
      assert requests[..|values|] == requests;
    }

    /** The index to commit, with the sampling loop when the determined loops are over. */
    method Select(exp: real -> real, draw: real) returns (best: nat)
      requires Valid() && started && Full(errors) && Positive(exp)
      ensures best == Choose(settings, Snapshot(), exp, draw)
    {
      var e := Costs(errors);
      if loop >= settings.determinedLoops {
        best := SampleIndex(e, exp, draw);
      } else {
        best := FirstArgmin(e);
      }
    }

    /**
     * receive_image. The cost of the observation is taken only for integer
     * labels, as in the source; the return value is false where the source raises.
     */
    method ReceiveImage(obs: seq<seq<real>>, tag: Label, exp: real -> real, draw: real) returns (ok: bool)
      requires Valid() && started && Positive(exp)
      requires tag.Candidate? ==> Priceable(base.target, obs)
      modifies this, base, parameters
      ensures Valid() && started && parameters == old(parameters)
      ensures var cost := if tag.Candidate? then Cost(base.target, obs) else 0.0;
        var r := Reply(settings, old(Snapshot()), cost, tag, exp, draw);
        && Snapshot() == r.0 && ok == !r.1.Fault?
        && base.outbox == old(base.outbox) + Sent(r.1)
        && base.delivered == old(base.delivered) + (if r.1.Finish? && base.hasCallback then [r.1.face] else [])
    {
      var cost := 0.0;
      if tag.Candidate? {
        cost := Cost(base.target, obs);
      }
      ok := Respond(cost, tag, exp, draw);
    }

    /** receive_image once the cost of the observation is known. */
    method Respond(cost: real, tag: Label, exp: real -> real, draw: real) returns (ok: bool)
      requires Valid() && started && Positive(exp)
      modifies this, base, parameters
      ensures Valid() && started && parameters == old(parameters)
      ensures var r := Reply(settings, old(Snapshot()), cost, tag, exp, draw);
        && Snapshot() == r.0 && ok == !r.1.Fault?
        && base.outbox == old(base.outbox) + Sent(r.1)
        && base.delivered == old(base.delivered) + (if r.1.Finish? && base.hasCallback then [r.1.face] else [])
    {
      ghost var s0 := Snapshot();
      ghost var r := Reply(settings, s0, cost, tag, exp, draw);
      if tag == Init {
        return true;
      } else if tag == Pre {
        assert r == NextCoordinate(settings, s0);
        ok := NextParameter();
        return;
      }
      if tag == NoLabel {
        base.Finish(face);
        return true;
      }
      if !tag.Candidate? {
        return false;
      }
      assert r == Record(settings, s0, tag.index, cost, exp, draw);
      ok := RecordError(tag.index, cost, exp, draw);
    }

    /** The 'pre' branch of receive_image. */
    method NextParameter() returns (ok: bool)
      requires Valid() && started
      modifies this, base
      ensures Valid() && started && parameters == old(parameters)
      ensures var r := NextCoordinate(settings, old(Snapshot()));
        && Snapshot() == r.0 && ok == !r.1.Fault?
        && base.outbox == old(base.outbox) + Sent(r.1)
      ensures base.delivered == old(base.delivered)
    {
      if cursor + 1 >= ParameterCount(settings.n) {
        return false;
      }
      GetParameter(cursor + 1);
      ok := true;
    }

    /** The integer-label branch of receive_image. */
    method RecordError(k: int, cost: real, exp: real -> real, draw: real) returns (ok: bool)
      requires Valid() && started && Positive(exp)
      modifies this, base, parameters
      ensures Valid() && started && parameters == old(parameters)
      ensures var r := Record(settings, old(Snapshot()), k, cost, exp, draw);
        && Snapshot() == r.0 && ok == !r.1.Fault?
        && base.outbox == old(base.outbox) + Sent(r.1)
      ensures base.delivered == old(base.delivered)
    {
      ghost var s0 := Snapshot();
      ghost var r := Record(settings, s0, k, cost, exp, draw);
      var filled := Fill(errors, k, cost);
      if filled.None? {
        return false;
      }
      errors := filled.value;
      ghost var t := Snapshot();
      assert t == s0.(errors := filled.value);
      if !Full(errors) {
        return true;
      }
      var best := Select(exp, draw);
      assert r == Commit(settings, t, best);
      CommitChoice(best);
      ok := true;
    }

    /** The commit step of receive_image: entry `cursor` takes values[best], then the next request. */
    method CommitChoice(best: nat)
      requires Valid() && started && best < |values|
      modifies this, base, parameters
      ensures Valid() && started && parameters == old(parameters)
      ensures var r := Commit(settings, old(Snapshot()), best);
        Snapshot() == r.0 && base.outbox == old(base.outbox) + Sent(r.1)
      ensures base.delivered == old(base.delivered)
    {
      parameters[cursor] := values[best];
      face := FromArray(parameters[..]);
      var size := ParameterCount(settings.n);
      if cursor + 1 == size && loop + 1 >= settings.maxLoops {
        base.RequestFace(face, NoLabel);
        return;
      } else if cursor + 1 == size {
        cursor := 0;
        loop := loop + 1;
        base.RequestFace(face, Pre);
        return;
      }
      base.RequestFace(face, Pre);
    }
  }
}
