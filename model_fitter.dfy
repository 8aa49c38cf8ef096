/**
 * The abstract fitting protocol (src/fitter/ModelFitter.py): the parameter
 * vector of a face, the labels that correlate render requests with their
 * replies, the masked mean-squared cost of a rendered observation, and the
 * base fitter object that owns the corrected initial face, the requests it
 * has sent to the renderer (its outbox) and the faces it has handed to the
 * completion callback.
 */
module ModelFitting {
  import opened Wrappers

  /** Components of the ambient light and of the directed light of a face. */
  const LightComponents: nat := 1
  const DirectionComponents: nat := 3

  /** A face's tunable parameters: shape coefficients, ambient light, directed light. */
  datatype Params = Params(coefficients: seq<real>, ambient: real, directed: seq<real>)

  /** `p` has `n` shape coefficients and a three-component directed light. */
  predicate Shaped(p: Params, n: nat)
  {
    |p.coefficients| == n && |p.directed| == DirectionComponents
  }

  /** Number of entries of the flat parameter vector of a face with `pcs` coefficients. */
  function ParameterCount(pcs: nat): nat
  {
    pcs + LightComponents + DirectionComponents
  }

  /** The flat vector of a face: coefficients, then ambient light, then directed light. */
  function AsArray(p: Params): (a: seq<real>)
    ensures |a| == |p.coefficients| + LightComponents + |p.directed|
    ensures a[|p.coefficients|] == p.ambient
  {
    p.coefficients + [p.ambient] + p.directed
  }

  /** The flat vector lists the coefficients first and the directed light last. */
  lemma AsArrayLayout(p: Params)
    ensures AsArray(p)[..|p.coefficients|] == p.coefficients
    ensures AsArray(p)[|p.coefficients| + 1..] == p.directed
  {
    var a := AsArray(p);
    assert a == p.coefficients + [p.ambient] + p.directed;
  }

  /** The face whose flat vector is `a`: the inverse of AsArray. */
  function FromArray(a: seq<real>): (p: Params)
    requires |a| >= LightComponents + DirectionComponents
    ensures Shaped(p, |a| - LightComponents - DirectionComponents)
    ensures AsArray(p) == a
  {
    var n := |a| - LightComponents - DirectionComponents;
    Params(a[..n], a[n], a[n + 1..])
  }

  lemma FromArrayAsArray(p: Params)
    requires |p.directed| == DirectionComponents
    ensures FromArray(AsArray(p)) == p
  {
    AsArrayLayout(p);
  }

  /** The flat vector of a well-shaped face has ParameterCount(n) entries. */
  lemma ParameterCountIsArrayLength(p: Params, n: nat)
    requires Shaped(p, n)
    ensures |AsArray(p)| == ParameterCount(n)
  {
  }

  /** The face used when no initial face is given. */
  function DefaultFace(pcs: nat): (p: Params)
    ensures Shaped(p, pcs)
    ensures forall i :: 0 <= i < pcs ==> p.coefficients[i] == 0.0
    ensures p.directed == [0.0, 0.0, 0.0] && p.ambient == 0.5
  {
    Params(seq(pcs, _ => 0.0), 0.5, [0.0, 0.0, 0.0])
  }

  function Min(a: int, b: int): int
  {
    if a < b then a else b
  }

  /** The coefficient vector zero-padded or truncated to `n` entries. */
  function PadOrTruncate(c: seq<real>, n: nat): (r: seq<real>)
    ensures |r| == n
    ensures r[..Min(|c|, n)] == c[..Min(|c|, n)]
    ensures forall i :: Min(|c|, n) <= i < n ==> r[i] == 0.0
    ensures |c| == n ==> r == c
  {
    seq(n, i requires 0 <= i < n => if i < |c| then c[i] else 0.0)
  }

  /**
   * The imperative correction of the constructor: a zero vector of `pcs`
   * entries whose first min(|coefficients|, pcs) entries are copied over.
   */
  method CorrectCoefficients(coefficients: seq<real>, pcs: nat) returns (r: seq<real>)
    ensures r == PadOrTruncate(coefficients, pcs)
  {
    var correct := new real[pcs](_ => 0.0);
    var count := Min(|coefficients|, pcs);
    var i := 0;
    while i < count
      invariant 0 <= i <= count
      invariant forall j :: 0 <= j < pcs ==> correct[j] == (if j < i then coefficients[j] else 0.0)
    {
      correct[i] := coefficients[i];
      i := i + 1;
    }
    r := correct[..];
  }

  /** The initial face after the constructor: the default one, with its coefficients corrected. */
  function InitialFace(initial: Option<Params>, pcs: nat): (f: Params)
    requires initial.Some? ==> |initial.value.directed| == DirectionComponents
    ensures Shaped(f, pcs)
    ensures initial.None? ==> f == DefaultFace(pcs)
    ensures initial.Some? ==>
      var g := initial.value;
      && f.coefficients[..Min(|g.coefficients|, pcs)] == g.coefficients[..Min(|g.coefficients|, pcs)]
      && (forall i :: Min(|g.coefficients|, pcs) <= i < pcs ==> f.coefficients[i] == 0.0)
      && f.ambient == g.ambient && f.directed == g.directed
      && (|g.coefficients| == pcs ==> f == g)
  {
    var face := if initial.None? then DefaultFace(pcs) else initial.value;
    if |face.coefficients| != pcs then
      Params(PadOrTruncate(face.coefficients, pcs), face.ambient, face.directed)
    else
      face
  }

  /** Labels threaded unchanged through the renderer, one per kind the fitters use. */
  datatype Label =
    | NoLabel               // a request sent without a label (`None`)
    | Init                  // 'init'
    | Pre                   // 'pre'
    | StartIteration        // 'start_iteration'
    | Start                 // 'start'
    | RightDerivative       // 'right_derivative'
    | LeftDerivative        // 'left_derivative'
    | Candidate(index: int) // an integer grid index

  /** One render request: the face to draw and the label its reply will carry. */
  datatype Request = Request(face: Params, tag: Label)

  /** What handling one reply makes a fitter do: send requests, finish with a face, or raise. */
  datatype Outcome = Emit(requests: seq<Request>) | Finish(face: Params) | Fault

  /** The requests an outcome sends to the renderer. */
  function Sent(o: Outcome): seq<Request>
  {
    if o.Emit? then o.requests else []
  }

  // ---------------------------------------------------------------------
  // Cost: masked mean squared deviation of channel 0 from the target.
  // An observation is one row per pixel, one entry per channel; the last
  // channel is the validity flag the renderer sets for drawn pixels.
  // ---------------------------------------------------------------------

  predicate Drawn(px: seq<real>)
  {
    |px| > 0 && px[|px| - 1] != 0.0
  }

  /** The observation has one non-empty pixel per target value. */
  predicate WellFormed(target: seq<real>, obs: seq<seq<real>>)
  {
    |obs| == |target| && forall i :: 0 <= i < |obs| ==> |obs[i]| > 0
  }

  function Square(x: real): real
  {
    x * x
  }

  lemma SquareNonNegative(x: real)
    ensures Square(x) >= 0.0
  {
    if x < 0.0 {
      assert (-x) * (-x) == x * x;
    }
  }

  /** Number of drawn pixels among the first `k`. */
  function DrawnCount(obs: seq<seq<real>>, k: nat): nat
    requires k <= |obs|
  {
    if k == 0 then 0 else DrawnCount(obs, k - 1) + (if Drawn(obs[k - 1]) then 1 else 0)
  }

  /** Sum of squared channel-0 deviations over the drawn pixels among the first `k`. */
  function SquaredError(target: seq<real>, obs: seq<seq<real>>, k: nat): real
    requires WellFormed(target, obs) && k <= |obs|
  {
    if k == 0 then 0.0
    else SquaredError(target, obs, k - 1)
         + (if Drawn(obs[k - 1]) then Square(obs[k - 1][0] - target[k - 1]) else 0.0)
  }

  lemma {:induction false} DrawnCountPositive(obs: seq<seq<real>>, k: nat)
    requires k <= |obs|
    ensures DrawnCount(obs, k) > 0 <==> exists i :: 0 <= i < k && Drawn(obs[i])
  {
    if k > 0 {
      DrawnCountPositive(obs, k - 1);
    }
  }

  lemma {:induction false} SquaredErrorBounds(target: seq<real>, obs: seq<seq<real>>, k: nat)
    requires WellFormed(target, obs) && k <= |obs|
    ensures SquaredError(target, obs, k) >= 0.0
    ensures (forall i :: 0 <= i < k && Drawn(obs[i]) ==> obs[i][0] == target[i]) ==>
            SquaredError(target, obs, k) == 0.0
  {
    if k > 0 {
      SquaredErrorBounds(target, obs, k - 1);
      SquareNonNegative(obs[k - 1][0] - target[k - 1]);
    }
  }

  /**
   * The cost of an observation: the mean of the squared deviations over the
   * drawn pixels, or None when no pixel is drawn (the source's numpy mean of
   * an empty selection).
   */
  function Deviation(target: seq<real>, obs: seq<seq<real>>): (r: Option<real>)
    requires WellFormed(target, obs)
    ensures r.Some? <==> exists i :: 0 <= i < |obs| && Drawn(obs[i])
    ensures r.Some? ==> r.value >= 0.0
    ensures r.Some? && (forall i :: 0 <= i < |obs| && Drawn(obs[i]) ==> obs[i][0] == target[i]) ==>
      r.value == 0.0
  {
    DrawnCountPositive(obs, |obs|);
    SquaredErrorBounds(target, obs, |obs|);
    var count := DrawnCount(obs, |obs|);
    if count == 0 then None else Some(SquaredError(target, obs, |obs|) / (count as real))
  }

  /** A reply the fitters can price: well formed, with at least one drawn pixel. */
  predicate Priceable(target: seq<real>, obs: seq<seq<real>>)
  {
    WellFormed(target, obs) && exists i :: 0 <= i < |obs| && Drawn(obs[i])
  }

  function Cost(target: seq<real>, obs: seq<seq<real>>): (c: real)
    requires Priceable(target, obs)
    ensures c >= 0.0
  {
    Deviation(target, obs).value
  }

  /**
   * Observations that agree on which pixels are drawn and on channel 0 of the
   * drawn pixels have the same cost: undrawn pixels and the other channels
   * are never compared with the target.
   */
  lemma {:induction false} DeviationReadsDrawnChannelZero(target: seq<real>, a: seq<seq<real>>, b: seq<seq<real>>, k: nat)
    requires WellFormed(target, a) && WellFormed(target, b) && k <= |a|
    requires forall i :: 0 <= i < |a| ==> Drawn(a[i]) == Drawn(b[i])
    requires forall i :: 0 <= i < |a| && Drawn(a[i]) ==> a[i][0] == b[i][0]
    ensures DrawnCount(a, k) == DrawnCount(b, k)
    ensures SquaredError(target, a, k) == SquaredError(target, b, k)
  {
    if k > 0 {
      DeviationReadsDrawnChannelZero(target, a, b, k - 1);
    }
  }

  lemma DeviationCongruent(target: seq<real>, a: seq<seq<real>>, b: seq<seq<real>>)
    requires WellFormed(target, a) && WellFormed(target, b)
    requires forall i :: 0 <= i < |a| ==> Drawn(a[i]) == Drawn(b[i])
    requires forall i :: 0 <= i < |a| && Drawn(a[i]) ==> a[i][0] == b[i][0]
    ensures Deviation(target, a) == Deviation(target, b)
  {
    DeviationReadsDrawnChannelZero(target, a, b, |a|);
  }

  /**
   * The base of every fitter: the target image, the number of shape
   * coefficients, the corrected initial face, whether a completion callback
   * was given, the render requests sent so far and the faces handed to the
   * callback so far.
   */
  class ModelFitter {
    const target: seq<real>
    const pcs: nat
    const dimensions: nat
    const initialFace: Params
    const hasCallback: bool
    var outbox: seq<Request>
    var delivered: seq<Params>

    constructor (image: seq<real>, dimensions: nat, initial: Option<Params>, hasCallback: bool)
      requires initial.Some? ==> |initial.value.directed| == DirectionComponents
      ensures target == image && pcs == dimensions && this.hasCallback == hasCallback
      ensures this.dimensions == ParameterCount(dimensions)
      ensures initialFace == InitialFace(initial, dimensions)
      ensures outbox == [] && delivered == []
    {
      target := image;
      pcs := dimensions;
      this.dimensions := ParameterCount(dimensions);
      this.hasCallback := hasCallback;
      var face := if initial.None? then DefaultFace(dimensions) else initial.value;
      if |face.coefficients| != dimensions {
        var correct := CorrectCoefficients(face.coefficients, dimensions);
        face := Params(correct, face.ambient, face.directed);
      }
      initialFace := face;
      outbox := [];
      delivered := [];
    }

    /** Sends one render request; its reply comes back with this same tag. */
    method RequestFace(face: Params, tag: Label)
      modifies this
      ensures outbox == old(outbox) + [Request(face, tag)]
      ensures delivered == old(delivered)
    {
      outbox := outbox + [Request(face, tag)];
    }

    /** Hands the face to the completion callback, once, when there is one. */
    method Finish(face: Params)
      modifies this
      ensures delivered == old(delivered) + (if hasCallback then [face] else [])
      ensures outbox == old(outbox)
    {
      if hasCallback {
        delivered := delivered + [face];
      }
    }
  }
}
