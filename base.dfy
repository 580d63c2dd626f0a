/**
 * The bookkeeping layer of the toolkit: a trainable `Parameter` (a tensor and
 * its gradient buffer) and the base `Module` that owns named parameters, a
 * cache of activations and a training/evaluation flag.
 *
 * Tensors are objects: a fixed shape and a flat, row-major element buffer that
 * is updated in place. Each class also gives a value view (`TensorValue`,
 * `ParamView`, `ModuleView`) of its current contents, and the effect of
 * `zero_grad` is specified as a function on those views.
 */
module Base {
  import opened Wrappers
  import OrderedDict

  /** Number of elements of a tensor of the given shape (1 for a scalar). */
  function Size(shape: seq<nat>): nat {
    if shape == [] then 1 else shape[0] * Size(shape[1..])
  }

  // ---------------------------------------------------------------------------
  // Value views
  // ---------------------------------------------------------------------------

  /** The contents of a tensor at one moment. */
  datatype TensorValue = TensorValue(shape: seq<nat>, elems: seq<real>)

  /** The contents of a parameter at one moment. */
  datatype ParamView = ParamView(data: TensorValue, grad: TensorValue, requiresGrad: bool)

  /** What a module holds at one moment: its named parameters in insertion order, its cache and its mode. */
  datatype ModuleView = ModuleView(
    params: OrderedDict.Entries<ParamView>,
    cache: map<int, seq<TensorValue>>,
    training: bool)

  predicate AllZero(s: seq<real>) {
    forall k :: 0 <= k < |s| ==> s[k] == 0.0
  }

  /** `t.fill(0.0)` on a value: same shape, every element zero. */
  function ZeroFilled(t: TensorValue): (r: TensorValue)
    ensures r.shape == t.shape && |r.elems| == |t.elems| && AllZero(r.elems)
  {
    t.(elems := seq(|t.elems|, _ => 0.0))
  }

  /** Two zero-filled tensors of the same shape and size are the same value. */
  lemma ZeroFilledUnique(t: TensorValue, u: TensorValue)
    requires u.shape == t.shape && |u.elems| == |t.elems| && AllZero(u.elems)
    ensures u == ZeroFilled(t)
  {
  }

  /** Every entry of `ps` with its gradient zero-filled and everything else kept. */
  function ZeroGrads(ps: OrderedDict.Entries<ParamView>): (r: OrderedDict.Entries<ParamView>)
    ensures |r| == |ps|
    ensures forall i :: 0 <= i < |ps| ==>
      && r[i].0 == ps[i].0
      && r[i].1.data == ps[i].1.data
      && r[i].1.requiresGrad == ps[i].1.requiresGrad
      && r[i].1.grad.shape == ps[i].1.grad.shape
      && |r[i].1.grad.elems| == |ps[i].1.grad.elems|
      && AllZero(r[i].1.grad.elems)
  {
    if ps == [] then []
    else
      var (name, p) := ps[|ps| - 1];
      ZeroGrads(ps[..|ps| - 1]) + [(name, p.(grad := ZeroFilled(p.grad)))]
  }

  /** The module after `zero_grad()`, as a function of the module before. */
  function ZeroGradSpec(m: ModuleView): ModuleView {
    m.(params := ZeroGrads(m.params))
  }

  /**
   * The module-level reading of `ZeroGrads`' entry-by-entry contract: each
   * gradient is exactly the zero-filled old gradient, and the fields of the
   * module other than the parameters are untouched.
   *
   * `zero_grad()` resets every gradient to zero, whatever it held, and keeps
   * the names, the order, every `data` tensor, every `requires_grad` flag, the
   * shape of every gradient, the cache and the mode.
   */
  lemma ZeroGradEffect(m: ModuleView)
    ensures |ZeroGradSpec(m).params| == |m.params|
    ensures forall i :: 0 <= i < |m.params| ==>
      var (n, p) := m.params[i];
      var (n', p') := ZeroGradSpec(m).params[i];
      && n' == n
      && p'.data == p.data
      && p'.requiresGrad == p.requiresGrad
      && p'.grad == ZeroFilled(p.grad)
    ensures ZeroGradSpec(m).cache == m.cache
    ensures ZeroGradSpec(m).training == m.training
    ensures OrderedDict.Keys(ZeroGradSpec(m).params) == OrderedDict.Keys(m.params)
  {
  }

  /** A second `zero_grad()` changes nothing. */
  lemma ZeroGradIdempotent(m: ModuleView)
    ensures ZeroGradSpec(ZeroGradSpec(m)) == ZeroGradSpec(m)
  {
    var once := ZeroGradSpec(m).params;
    var twice := ZeroGradSpec(ZeroGradSpec(m)).params;
    forall i | 0 <= i < |once| ensures twice[i] == once[i] {
      ZeroFilledUnique(once[i].1.grad, twice[i].1.grad);
      ZeroFilledUnique(m.params[i].1.grad, once[i].1.grad);
    }
  }

  // ---------------------------------------------------------------------------
  // Tensors
  // ---------------------------------------------------------------------------

  /** A dense tensor: a fixed shape over a flat element buffer that is updated in place. */
  class Tensor {
    const shape: seq<nat>
    const elems: array<real>

    predicate Valid() {
      elems.Length == Size(shape)
    }

    /** The tensor whose elements are the given buffer (no copy). */
    constructor (shape: seq<nat>, elems: array<real>)
      requires elems.Length == Size(shape)
      ensures this.shape == shape && this.elems == elems && Valid()
    {
      this.shape := shape;
      this.elems := elems;
    }

    /** `np.zeros_like(t)`: a new buffer of the same shape, all zero. */
    constructor ZerosLike(t: Tensor)
      ensures shape == t.shape && elems.Length == t.elems.Length
      ensures fresh(elems)
      ensures forall k :: 0 <= k < elems.Length ==> elems[k] == 0.0
      ensures t.Valid() ==> Valid()
    {
      shape := t.shape;
      elems := new real[t.elems.Length](_ => 0.0);
    }

    ghost function Value(): TensorValue
      reads elems
    {
      TensorValue(shape, elems[..])
    }

    /** `t.fill(v)`: every element becomes `v`, in place. */
    method Fill(v: real)
      modifies elems
      ensures forall k :: 0 <= k < elems.Length ==> elems[k] == v
    {
      forall k | 0 <= k < elems.Length {
        elems[k] := v;
      }
    }
  }

  // ---------------------------------------------------------------------------
  // Parameter
  // ---------------------------------------------------------------------------

  /** A tensor together with the gradient buffer it accumulates. */
  class Parameter {
    const data: Tensor
    const grad: Tensor
    const requiresGrad: bool

    /** The gradient has the shape of the data and its own buffer. */
    predicate Valid() {
      && data.Valid()
      && grad.Valid()
      && grad.shape == data.shape
      && grad.elems != data.elems
    }

    /**
     * Keeps `data` as given and allocates a fresh zero gradient of the same
     * shape; `requires_grad` defaults to true.
     */
    constructor (data: Tensor, requiresGrad: bool := true)
      requires data.Valid()
      ensures this.data == data && this.requiresGrad == requiresGrad
      ensures fresh(grad) && fresh(grad.elems)
      ensures grad.shape == data.shape && grad.elems.Length == data.elems.Length
      ensures forall k :: 0 <= k < grad.elems.Length ==> grad.elems[k] == 0.0
      ensures Valid()
    {
      this.data := data;
      this.grad := new Tensor.ZerosLike(data);
      this.requiresGrad := requiresGrad;
    }

    ghost function View(): ParamView
      reads data.elems, grad.elems
    {
      ParamView(data.Value(), grad.Value(), requiresGrad)
    }
  }

  /** The gradient buffers of named parameters. */
  function GradBuffers(ps: OrderedDict.Entries<Parameter>): set<array<real>> {
    set i | 0 <= i < |ps| :: ps[i].1.grad.elems
  }

  /** The data buffers of named parameters. */
  function DataBuffers(ps: OrderedDict.Entries<Parameter>): set<array<real>> {
    set i | 0 <= i < |ps| :: ps[i].1.data.elems
  }

  /**
   * Names are distinct, every parameter is well formed, and no gradient
   * buffer is the data buffer of any of the parameters.
   */
  predicate WellFormed(ps: OrderedDict.Entries<Parameter>) {
    && OrderedDict.DistinctKeys(ps)
    && (forall i :: 0 <= i < |ps| ==> ps[i].1.Valid())
    && GradBuffers(ps) !! DataBuffers(ps)
  }

  /**
   * `d[name] = p` keeps the parameters well formed when `p` is, its gradient
   * buffer is no data buffer there and its data buffer no gradient buffer.
   */
  lemma SetKeepsWellFormed(ps: OrderedDict.Entries<Parameter>, name: string, p: Parameter)
    requires WellFormed(ps) && p.Valid()
    requires p.grad.elems !in DataBuffers(ps) && p.data.elems !in GradBuffers(ps)
    ensures WellFormed(OrderedDict.Set(ps, name, p))
  {
    var r := OrderedDict.Set(ps, name, p);
    OrderedDict.SetKeys(ps, name, p);
    forall i | 0 <= i < |r|
      ensures r[i].1 == p || (r[i].1.grad.elems in GradBuffers(ps) && r[i].1.data.elems in DataBuffers(ps) && r[i].1.Valid())
    {
      if r[i].1 != p {
        assert r[i] == ps[i];
      }
    }
    assert GradBuffers(r) <= GradBuffers(ps) + {p.grad.elems};
    assert DataBuffers(r) <= DataBuffers(ps) + {p.data.elems};
  }

  /** The value view of named parameters, entry by entry (the abstraction behind `Module.State`). */
  ghost function Views(ps: OrderedDict.Entries<Parameter>): OrderedDict.Entries<ParamView>
    reads GradBuffers(ps) + DataBuffers(ps)
  {
    seq(|ps|, i requires 0 <= i < |ps| reads GradBuffers(ps) + DataBuffers(ps) => (ps[i].0, ps[i].1.View()))
  }

  /**
   * Assigning `d[name] = p` and then taking the view is taking the view and
   * then assigning the view of `p`: the value-level dictionary follows the
   * object-level one.
   */
  lemma ViewsOfSet(ps: OrderedDict.Entries<Parameter>, name: string, p: Parameter)
    ensures Views(OrderedDict.Set(ps, name, p)) == OrderedDict.Set(Views(ps), name, p.View())
  {
    var vs := Views(ps);
    OrderedDict.FindDependsOnKeys(ps, vs, name);
    match OrderedDict.Find(ps, name)
    case Some(i) =>
      assert Views(ps[i := (name, p)]) == vs[i := (name, p.View())];
    case None =>
      assert Views(ps + [(name, p)]) == vs + [(name, p.View())];
  }

  // ---------------------------------------------------------------------------
  // Module
  // ---------------------------------------------------------------------------

  /** Raised by the abstract members of the base class. */
  datatype Error = NotImplementedError

  /**
   * The computation a module performs. The base class has none (`Abstract`);
   * a concrete layer supplies its forward and backward maps, each taking a
   * tensor and a micro-batch id.
   */
  datatype Layer =
    | Abstract
    | Concrete(forward: (TensorValue, int) -> TensorValue, backward: (TensorValue, int) -> TensorValue)

  class Module {
    /** The named parameters, in insertion order (a dict). */
    var params: OrderedDict.Entries<Parameter>
    /** Activations kept per micro-batch id for the backward pass. */
    var cache: map<int, seq<TensorValue>>
    var training: bool
    const layer: Layer

    /** The owned parameters are well formed: no gradient buffer is an owned data buffer. */
    ghost predicate Valid()
      reads this
    {
      WellFormed(params)
    }

    ghost function State(): ModuleView
      reads this, GradBuffers(params), DataBuffers(params)
    {
      ModuleView(Views(params), cache, training)
    }

    /** No parameters, an empty cache, training mode. */
    constructor (layer: Layer)
      ensures params == [] && cache == map[] && training
      ensures this.layer == layer
      ensures Valid()
    {
      params := [];
      cache := map[];
      training := true;
      this.layer := layer;
    }

    /**
     * `self._params[name] = p`, as a concrete layer does while it is built.
     * The gradient buffer of `p` must not be the data of an owned parameter,
     * nor its data an owned gradient: a parameter built on the gradient
     * buffer of an owned one is outside the model.
     */
    method Register(name: string, p: Parameter)
      requires Valid() && p.Valid()
      requires p.grad.elems !in DataBuffers(params) && p.data.elems !in GradBuffers(params)
      modifies this`params
      ensures params == OrderedDict.Set(old(params), name, p)
      ensures OrderedDict.ToMap(params) == OrderedDict.ToMap(old(params))[name := p]
      ensures State() == old(State()).(params := OrderedDict.Set(old(State()).params, name, p.View()))
      ensures Valid()
    {
      ghost var views := Views(params);
      OrderedDict.SetIsMapUpdate(params, name, p);
      ViewsOfSet(params, name, p);
      SetKeepsWellFormed(params, name, p);
      params := OrderedDict.Set(params, name, p);
      assert Views(params) == OrderedDict.Set(views, name, p.View());
    }

    /**
     * `forward(inputs, mubatch_id)`: the layer's output, or
     * `NotImplementedError` on the base class.
     */
    function Forward(inputs: TensorValue, mubatchId: int := 0): (r: Result<TensorValue, Error>)
      ensures r.Failure? <==> layer.Abstract?
      ensures r.Failure? ==> r.error == NotImplementedError
      ensures r.Success? ==> r.value == layer.forward(inputs, mubatchId)
    {
      match layer
      case Abstract => Failure(NotImplementedError)
      case Concrete(forward, _) => Success(forward(inputs, mubatchId))
    }

    /**
     * `backward(dout, mubatch_id)`: the gradient for the input, or
     * `NotImplementedError` on the base class.
     */
    function Backward(dout: TensorValue, mubatchId: int := 0): (r: Result<TensorValue, Error>)
      ensures r.Failure? <==> layer.Abstract?
      ensures r.Failure? ==> r.error == NotImplementedError
      ensures r.Success? ==> r.value == layer.backward(dout, mubatchId)
    {
      match layer
      case Abstract => Failure(NotImplementedError)
      case Concrete(_, backward) => Success(backward(dout, mubatchId))
    }

    /** Calling a module is calling its `forward` with the same micro-batch id (0 by default). */
    function Call(inputs: TensorValue, mubatchId: int := 0): (r: Result<TensorValue, Error>)
      ensures r == Forward(inputs, mubatchId)
    {
      Forward(inputs, mubatchId)
    }

    /** Switches to training mode; nothing else changes. */
    method Train()
      modifies this`training
      ensures training
      ensures State() == old(State()).(training := true)
      ensures params == old(params) && cache == old(cache)
    {
      training := true;
    }

    /** Switches to evaluation mode; nothing else changes. */
    method Eval()
      modifies this`training
      ensures !training
      ensures State() == old(State()).(training := false)
      ensures params == old(params) && cache == old(cache)
    {
      training := false;
    }

    /** `list(self._params.values())`: the owned parameters in insertion order. */
    function Parameters(): (r: seq<Parameter>)
      reads this
      ensures |r| == |params|
      ensures forall i :: 0 <= i < |params| ==> r[i] == params[i].1
    {
      OrderedDict.Values(params)
    }

    /**
     * Fills every owned gradient with zero in place. Every data buffer keeps
     * its elements, and so does everything else the module holds.
     */
    method ZeroGrad()
      requires Valid()
      modifies GradBuffers(params)
      ensures forall i, k :: 0 <= i < |params| && 0 <= k < params[i].1.grad.elems.Length ==>
        params[i].1.grad.elems[k] == 0.0
      ensures forall i :: 0 <= i < |params| ==> params[i].1.data.elems[..] == old(params[i].1.data.elems[..])
      ensures params == old(params) && cache == old(cache) && training == old(training)
      ensures State() == ZeroGradSpec(old(State()))
    {
      var ps := Parameters();
      var i := 0;
      while i < |ps|
        invariant 0 <= i <= |ps|
        invariant forall j, k :: 0 <= j < i && 0 <= k < ps[j].grad.elems.Length ==> ps[j].grad.elems[k] == 0.0
        invariant forall j, k :: 0 <= j < |ps| && 0 <= k < ps[j].data.elems.Length ==>
          ps[j].data.elems[k] == old(ps[j].data.elems[k])
      {
        assert ps[i].grad.elems in GradBuffers(params);
        ps[i].grad.Fill(0.0);
        i := i + 1;
      }
      forall j | 0 <= j < |params| ensures params[j].1.data.elems[..] == old(params[j].1.data.elems[..]) {
        assert params[j].1.data.elems[..] == old(params[j].1.data.elems[..]);
      }
      ghost var before := old(State());
      forall j | 0 <= j < |params| ensures State().params[j] == ZeroGradSpec(before).params[j] {
        var p := params[j].1;
        var was := before.params[j].1;
        var spec := ZeroGradSpec(before).params[j].1;
        ZeroFilledUnique(was.grad, p.grad.Value());
        ZeroFilledUnique(was.grad, spec.grad);
        assert p.data.Value() == was.data;
        assert p.View() == spec;
      }
    }
  }

  /**
   * A 2x3 tensor of ones: its parameter starts with a zero gradient; after the
   * gradient is filled with ones and the owning module zeroes gradients, the
   * gradient is zero again and the data are still ones.
   */
  method ZeroGradScenario()
  {
    var buffer := new real[6](_ => 1.0);
    var ones := new Tensor([2, 3], buffer);
    var p := new Parameter(ones);
    assert p.requiresGrad && p.grad.shape == [2, 3];
    var m := new Module(Abstract);
    m.Register("weight", p);
    assert m.Parameters() == [p];
    p.grad.Fill(1.0);
    m.ZeroGrad();
    assert forall k :: 0 <= k < 6 ==> p.grad.elems[k] == 0.0;
    assert forall k :: 0 <= k < 6 ==> p.data.elems[k] == 1.0;
    m.Eval();
    assert !m.training;
    m.Train();
    assert m.training && m.Parameters() == [p];
  }
}
