/** The decode forward: the unfused chain of residual adds, norms and products, and the
    chain whose products carry the add and norm as a prologue. */
module Fusion {

  /** The kernels of one model as functions on vectors. `Attend` stands for rope, cache
      write and attention of one layer. */
  datatype Kernels<!V> = Kernels(
    layers: nat,
    Add: (V, V) -> V,
    Norm1: (nat, V) -> V, Norm2: (nat, V) -> V, FinalNorm: V -> V,
    Qkv: (nat, V) -> V, Attend: (nat, V) -> V, Out: (nat, V) -> V,
    GateUp: (nat, V) -> V, Swiglu: V -> V, Down: (nat, V) -> V, Head: V -> V)

  /** What a layer adds to the residual stream. */
  function AfterAttention<V>(k: Kernels<V>, i: nat, x: V): V {
    k.Add(x, k.Out(i, k.Attend(i, k.Qkv(i, k.Norm1(i, x)))))
  }

  function Mlp<V>(k: Kernels<V>, i: nat, y: V): V {
    k.Down(i, k.Swiglu(k.GateUp(i, k.Norm2(i, y))))
  }

  /** The residual stream entering layer `i`. */
  function Residual<V>(k: Kernels<V>, embedded: V, i: nat): V {
    if i == 0 then embedded
    else
      var y := AfterAttention(k, i - 1, Residual(k, embedded, i - 1));
      k.Add(y, Mlp(k, i - 1, y))
  }

  /** The logits the unfused chain defines. */
  function Logits<V>(k: Kernels<V>, embedded: V): V {
    k.Head(k.FinalNorm(Residual(k, embedded, k.layers)))
  }

  /** The norm that follows layer `i`. */
  function NextNorm<V>(k: Kernels<V>, i: nat, x: V): V {
    if i + 1 < k.layers then k.Norm1(i + 1, x) else k.FinalNorm(x)
  }

  lemma LogitsMeaning<V>(k: Kernels<V>, embedded: V)
    ensures Logits(k, embedded) == k.Head(k.FinalNorm(Residual(k, embedded, k.layers)))
    ensures Residual(k, embedded, 0) == embedded
  {
  }

  /** What each layer's attention reads and caches. */
  function Attended<V>(k: Kernels<V>, embedded: V, i: nat): V {
    k.Qkv(i, k.Norm1(i, Residual(k, embedded, i)))
  }

  /** The logits of a step with given switches that starts with `alt` in the spare buffer. */
  function StepLogits<V>(k: Kernels<V>, embedded: V, alt: V, layersFused: bool, headFused: bool): V
    requires k.layers > 0
  {
    if headFused && !layersFused
    then
      var last := k.layers - 1;
      k.Head(k.FinalNorm(k.Add(alt, Mlp(k, last, AfterAttention(k, last, Residual(k, embedded, last))))))
    else Logits(k, embedded)
  }

  lemma UnlessAlone<V>(k: Kernels<V>, embedded: V, alt: V, layersFused: bool, headFused: bool)
    requires k.layers > 0
    ensures (headFused ==> layersFused) ==> StepLogits(k, embedded, alt, layersFused, headFused) == Logits(k, embedded)
  {
  }

  /** The activation buffers of a decode step, written in place. */
  class Forward<V> {
    var residual: V
    var residualAlt: V
    var normed: V
    var qkv: V
    var ctx: V
    var oOut: V
    var gateUp: V
    var mlpMid: V
    var downOut: V
    var logits: V
    /** The inputs of the attention calls made, layer by layer. */
    var attended: seq<V>

    constructor (v: V)
      ensures attended == []
    {
      residual, residualAlt, normed, qkv, ctx := v, v, v, v, v;
      oOut, gateUp, mlpMid, downOut, logits := v, v, v, v, v;
      attended := [];
    }

    /** One decode step. `layersFused` moves each residual add and norm into the product
        that follows it, the stream swapping between the two residual buffers;
        `headFused` does so for the last norm. The two switches are set independently. */
    method Run(k: Kernels<V>, embedded: V, layersFused: bool, headFused: bool)
      requires k.layers > 0
      modifies this
      ensures logits == StepLogits(k, embedded, old(residualAlt), layersFused, headFused)
      ensures (headFused ==> layersFused) ==> logits == k.Head(k.FinalNorm(Residual(k, embedded, k.layers)))
      ensures |attended| == k.layers && forall i :: 0 <= i < k.layers ==> attended[i] == Attended(k, embedded, i)
    {
      LogitsMeaning(k, embedded);
      UnlessAlone(k, embedded, residualAlt, layersFused, headFused);
      residual, attended := embedded, [];
      var i := 0;
      hide Residual, StepLogits, Attended, AtHead;
      AtFirst(k, embedded, old(residualAlt), layersFused, headFused);
      while i < k.layers
        invariant 0 <= i <= k.layers
        invariant |attended| == i && forall j :: 0 <= j < i ==> attended[j] == Attended(k, embedded, j)
        invariant AtHead(k, embedded, old(residualAlt), i, layersFused, headFused)
      {
        OneLayer(k, embedded, old(residualAlt), i, layersFused, headFused);
        i := i + 1;
      }
      Finish(k, embedded, old(residualAlt), layersFused, headFused);
    }

    /** The buffers before layer `i`, or before the head when `i` is past the last layer:
        where the residual stream is, or the two parts it will be added from. */
    ghost predicate AtHead(k: Kernels<V>, embedded: V, alt: V, i: nat, layersFused: bool, headFused: bool)
      reads this
    {
      && (!layersFused ==> residualAlt == alt)
      && (i == 0 ==> residual == embedded)
      && (i > 0 && !layersFused && (i < k.layers || !headFused) ==> residual == Residual(k, embedded, i))
      && (i > 0 && !layersFused && i < k.layers ==> normed == k.Norm1(i, residual))
      && (i > 0 && layersFused && (i < k.layers || headFused) ==>
           k.Add(residualAlt, downOut) == Residual(k, embedded, i))
      && (i > 0 && i == k.layers && !headFused ==> normed == k.FinalNorm(Residual(k, embedded, i)))
      && (i > 0 && i == k.layers ==> downOut == Mlp(k, i - 1, AfterAttention(k, i - 1, Residual(k, embedded, i - 1))))
    }

    lemma AtFirst(k: Kernels<V>, embedded: V, alt: V, layersFused: bool, headFused: bool)
      requires residual == embedded && residualAlt == alt
      ensures AtHead(k, embedded, alt, 0, layersFused, headFused)
    {
    }

    method OneLayer(k: Kernels<V>, ghost embedded: V, ghost alt: V, i: nat, layersFused: bool, headFused: bool)
      requires i < k.layers && AtHead(k, embedded, alt, i, layersFused, headFused)
      modifies this
      ensures AtHead(k, embedded, alt, i + 1, layersFused, headFused)
      ensures attended == old(attended) + [Attended(k, embedded, i)]
    {
      hide Mlp, AfterAttention, Attended;
      LogitsMeaning(k, embedded);
      hide Residual;
      Layer(k, embedded, i, layersFused);
      Tail(k, embedded, i, layersFused, headFused);
    }

    method Finish(k: Kernels<V>, ghost embedded: V, ghost alt: V, layersFused: bool, headFused: bool)
      requires k.layers > 0 && AtHead(k, embedded, alt, k.layers, layersFused, headFused)
      modifies this`residual, this`logits
      ensures logits == StepLogits(k, embedded, alt, layersFused, headFused)
    {
      hide Mlp, AfterAttention, Residual;
      if headFused {
        HeadPrologue(k);
      } else {
        logits := k.Head(normed);
      }
    }

    /** Layer `i` up to its down product. */
    method Layer(k: Kernels<V>, ghost embedded: V, i: nat, layersFused: bool)
      requires i == 0 || !layersFused ==> residual == Residual(k, embedded, i)
      requires !layersFused && i > 0 ==> normed == k.Norm1(i, residual)
      requires layersFused && i > 0 ==> k.Add(residualAlt, downOut) == Residual(k, embedded, i)
      modifies this`residual, this`residualAlt, this`normed, this`qkv, this`ctx, this`oOut, this`gateUp,
                 this`mlpMid, this`downOut, this`attended
      ensures attended == old(attended) + [Attended(k, embedded, i)]
      ensures downOut == Mlp(k, i, AfterAttention(k, i, Residual(k, embedded, i)))
      ensures layersFused ==> residualAlt == AfterAttention(k, i, Residual(k, embedded, i))
      ensures !layersFused ==>
                residual == AfterAttention(k, i, Residual(k, embedded, i)) && residualAlt == old(residualAlt)
    {
      hide Residual;
      if i == 0 && !layersFused {
        normed := k.Norm1(0, residual);
      }
      if layersFused && i == 0 {
        residualAlt := residual;
        qkv := k.Qkv(i, k.Norm1(i, residual));
      } else if layersFused {
        residual := k.Add(residualAlt, downOut);
        qkv := k.Qkv(i, k.Norm1(i, residual));
      } else {
        qkv := k.Qkv(i, normed);
      }
      attended := attended + [qkv];
      ctx := k.Attend(i, qkv);
      oOut := k.Out(i, ctx);
      if layersFused {
        residualAlt := k.Add(residual, oOut);
        gateUp := k.GateUp(i, k.Norm2(i, residualAlt));
      } else {
        residual := k.Add(residual, oOut);
        normed := k.Norm2(i, residual);
        gateUp := k.GateUp(i, normed);
      }
      mlpMid := k.Swiglu(gateUp);
      downOut := k.Down(i, mlpMid);
    }

    /** The add and norm after layer `i`, unless the next product carries them. */
    method Tail(k: Kernels<V>, ghost embedded: V, i: nat, layersFused: bool, headFused: bool)
      requires i < k.layers
      requires downOut == Mlp(k, i, AfterAttention(k, i, Residual(k, embedded, i)))
      requires layersFused ==> residualAlt == AfterAttention(k, i, Residual(k, embedded, i))
      requires !layersFused ==> residual == AfterAttention(k, i, Residual(k, embedded, i))
      modifies this`residual, this`residualAlt, this`normed
      ensures !layersFused ==> residualAlt == old(residualAlt)
      ensures
        var x := Residual(k, embedded, i + 1);
        && (layersFused && (i + 1 < k.layers || headFused) ==> k.Add(residualAlt, downOut) == x)
        && (!layersFused && (i + 1 < k.layers || !headFused) ==> residual == x)
        && (!layersFused && i + 1 < k.layers ==> normed == k.Norm1(i + 1, x))
        && (i + 1 == k.layers && !headFused ==> normed == k.FinalNorm(x))
    {
      hide Mlp, AfterAttention;
      var carried := (i + 1 < k.layers && layersFused) || (i + 1 == k.layers && headFused);
      if !carried {
        if layersFused {
          residualAlt := k.Add(residualAlt, downOut);
          normed := NextNorm(k, i, residualAlt);
        } else {
          residual := k.Add(residual, downOut);
          normed := NextNorm(k, i, residual);
        }
      }
    }

    /** The final add and norm inside the head product; the sum goes to the buffer nobody
        reads any more. */
    method HeadPrologue(k: Kernels<V>)
      modifies this`residual, this`logits
      ensures logits == k.Head(k.FinalNorm(k.Add(residualAlt, downOut)))
    {
      residual := k.Add(residualAlt, downOut);
      logits := k.Head(k.FinalNorm(residual));
    }
  }

  /** A one-layer model whose layer adds nothing, on which the head-only fusion goes wrong:
      the spare buffer was never written. */
  function SmallModel<V>(): Kernels<V> {
    Kernels(1, (a: V, b: V) => a,
            (i: nat, x: V) => x, (i: nat, x: V) => x, (x: V) => x,
            (i: nat, x: V) => x, (i: nat, x: V) => x, (i: nat, x: V) => x,
            (i: nat, x: V) => x, (x: V) => x, (i: nat, x: V) => x, (x: V) => x)
  }

  /** Whatever the vectors are, as long as there are two: fusion preserves the logits of
      every model, input and leftover buffer exactly if the head is not fused without the
      layers. */
  lemma FusionExact<V(!new)>(a: V, b: V, layersFused: bool, headFused: bool)
    requires a != b
    ensures (forall k: Kernels<V>, embedded: V, alt: V :: k.layers > 0 ==>
               StepLogits(k, embedded, alt, layersFused, headFused) == Logits(k, embedded))
            <==> (headFused ==> layersFused)
  {
    var k := SmallModel<V>();
    assert Residual(k, a, 0) == a;
    assert Residual(k, a, 1) == a;
    assert headFused && !layersFused ==> StepLogits(k, a, b, layersFused, headFused) == b;
    assert Logits(k, a) == a;
  }
}
