# minMLP base classes in Dafny

This project models the bookkeeping layer of the minMLP toolkit (`minMLP/base.py`).
It has two classes:

- `Parameter` wraps a tensor `data`. It allocates a zero gradient buffer `grad` of
  the same shape and records a `requires_grad` flag.
- `Module` owns an insertion-ordered dictionary of named parameters, a cache
  keyed by micro-batch id and a training flag. It offers `train`/`eval`,
  `zero_grad` and `parameters()`, and `__call__` delegates to the abstract
  `forward`.

Layout:

- `wrappers.dfy` (`Wrappers`): `Option` and `Result`.
- `ordered_dict.dfy` (`OrderedDict`): a Python `dict` as a sequence of `(key, value)`
  entries with distinct keys. `Set` is `d[k] = v`, `Values` is `list(d.values())`,
  and `ToMap` is the map the dictionary stands for.
- `base.dfy` (`Base`):
  - `Tensor` is a class with a fixed shape and a flat element `array` that is
    updated in place.
  - `Parameter` and `Module` are classes.
  - Value views (`TensorValue`, `ParamView`, `ModuleView`) snapshot an object's
    contents. `ZeroGradSpec` gives the effect of `zero_grad` on those views.
  - `Module.ZeroGrad` is the in-place loop. Its postcondition ties the new state
    to `ZeroGradSpec` of the old state. The properties of `zero_grad` are
    lemmas about `ZeroGradSpec`.

Aliasing: each gradient buffer is freshly allocated (minMLP/base.py:13), so it
is not the data buffer of any parameter that existed before. `Module.Valid`
keeps "no owned gradient buffer is an owned data buffer" as an invariant. That
is what proves that `ZeroGrad` leaves every data buffer unchanged. A parameter
whose `data` is another owned parameter's gradient buffer breaks this and is
not covered (see "## Left out").

The abstract `forward`/`backward` are modelled by the module's `layer`:
- `Abstract` stands for the base class. Both members then fail with
  `NotImplementedError`, as the source's bodies do.
- `Concrete(forward, backward)` stands for a subclass that overrides them.

Behaviour of minMLP/base.py the model keeps as written:
- `parameters()` lists the values in the dictionary's insertion order (minMLP/base.py:52-53).
- The base class only creates the cache empty and never reads or writes it (minMLP/base.py:28).
- `backward` on the base class raises `NotImplementedError` (minMLP/base.py:38-40);
  nothing checks for a missing cache entry.

## Model

| member | source | states |
|---|---|---|
| `Base.Tensor.ZerosLike` | minMLP/base.py:13 | `zeros_like`: a fresh buffer with the same shape and length as the argument, every element zero |
| `Base.Tensor.Fill` | minMLP/base.py:50 | `fill(v)` sets every element of the buffer to `v` in place |
| `Base.Parameter.constructor` | minMLP/base.py:11-14 | `data` is the tensor passed in; `grad` is a fresh buffer (distinct from every existing array) with the shape and length of `data`, all zero; `requires_grad` is the argument, true by default |
| `Base.Module.constructor` | minMLP/base.py:26-29 | a new module has no parameters, an empty cache and is in training mode |
| `Base.Module.Register` | minMLP/base.py:27 | assigning `_params[name] = p` updates the dictionary at `name` (replacing in place or appending); the value view of the module is the old view with `name` set to the view of `p`; names stay distinct and the aliasing invariant holds |
| `Base.Module.Call` | minMLP/base.py:31-32 | calling the module with `(inputs, k)` gives exactly `forward(inputs, k)`; the micro-batch id defaults to 0 |
| `Base.Module.Forward` | minMLP/base.py:34-36 | fails with `NotImplementedError` exactly when the module is the abstract base; otherwise returns the layer's forward result |
| `Base.Module.Backward` | minMLP/base.py:38-40 | fails with `NotImplementedError` exactly when the module is the abstract base; otherwise returns the layer's backward result |
| `Base.Module.Train` | minMLP/base.py:42-43 | the flag becomes true; the parameter map, cache, every data and grad buffer are unchanged |
| `Base.Module.Eval` | minMLP/base.py:45-46 | the flag becomes false; the parameter map, cache, every data and grad buffer are unchanged |
| `Base.Module.ZeroGrad` | minMLP/base.py:48-50 | every element of every owned grad is zero afterwards; every data buffer is unchanged element by element; map, cache and flag unchanged; new state is `ZeroGradSpec` of the old |
| `Base.ZeroFilled` | minMLP/base.py:50 | filling with zero keeps the shape and length and makes every element zero |
| `Base.ZeroFilledUnique` | minMLP/base.py:50 | a zero-filled tensor value is determined by its shape and length, whatever it held before |
| `Base.ZeroGrads` | minMLP/base.py:49-50 | over all entries in order: names, data and `requires_grad` kept, each grad keeps shape and length and becomes all zero |
| `Base.ZeroGradEffect` | minMLP/base.py:48-50 | after `zero_grad` each grad is the zero-filled grad of before; names, order, data, `requires_grad`, cache and mode are unchanged |
| `Base.ZeroGradIdempotent` | minMLP/base.py:48-50 | a second `zero_grad` changes nothing |
| `Base.ViewsOfSet` | minMLP/base.py:27 | assigning `d[name] = p` and then viewing equals viewing and then assigning the view of `p`: the value-level dictionary follows the object-level one |
| `Base.SetKeepsWellFormed` | minMLP/base.py:27 | `d[name] = p` keeps names distinct, every parameter well formed and no gradient buffer equal to a data buffer, given that `p` does not alias the owned buffers the wrong way round |
| `Base.Module.Parameters` | minMLP/base.py:52-53 | `parameters()` has one element per entry, and its i-th element is the i-th entry's parameter (insertion order) |
| `OrderedDict.Values` | minMLP/base.py:53 | `list(d.values())` has the length of the entries and lists their values in order |
| `OrderedDict.Keys` | minMLP/base.py:27 | the keys in insertion order, one per entry |
| `OrderedDict.ValuesOfDict` | minMLP/base.py:52-53 | for a dict, `list(d.values())` has as many elements as the map has keys, its i-th element is the map's value at the i-th key, and every key's value appears |
| `OrderedDict.Find` | minMLP/base.py:27 | finds the position of a key exactly when some entry has that key |
| `OrderedDict.FindDependsOnKeys` | minMLP/base.py:27 | the position of a key depends on the keys only, not on the values |
| `OrderedDict.Set` | minMLP/base.py:27 | `d[k] = v` replaces an existing key's value at its position, otherwise appends the entry |
| `OrderedDict.SetKeys` | minMLP/base.py:27 | `d[k] = v` keeps keys distinct and the key set becomes the old keys plus `k` |
| `OrderedDict.ToMapReplaceAt` | minMLP/base.py:27 | giving an existing entry a new value changes the denoted map at that key only |
| `OrderedDict.SetIsMapUpdate` | minMLP/base.py:27 | `d[k] = v` changes the denoted map at `k` only |
| `OrderedDict.SetKeepsOrder` | minMLP/base.py:27 | `d[k] = v` leaves every other entry at its position; the length grows only for a new key |
| `OrderedDict.ToMapOfDistinct` | minMLP/base.py:27 | with distinct keys, the map's keys are the entries' keys and each entry's value is found under its key |
| `OrderedDict.KeySetSize` | minMLP/base.py:27 | with distinct keys there are as many keys as entries |
| `OrderedDict.KeySetOfSnoc` | minMLP/base.py:27 | the keys of the entries are the keys of all but the last plus the last one's |

## Left out

- The float32 normalisation of `grad` (minMLP/base.py:13): elements are mathematical reals and the gradient has the data's element type; no floating-point rounding is modelled.
- `Parameter.__repr__` (minMLP/base.py:16-17): presentation only.
- The `ABC`/`abstractmethod` machinery: Python refuses to instantiate `Module` itself. The model can build a module with `layer == Abstract`, so that the base class's `forward`/`backward` can be called and shown to fail.
- The numeric bodies of concrete `forward`/`backward`, and their reads and writes of `_cache` and of the gradients: a concrete layer is a pair of pure functions of the input and the micro-batch id, so the model does not capture the state changes of a real forward or backward pass, nor its reads of the parameters' data or of the training flag.
- Rebinding of `Parameter.data`, `grad` or `requires_grad`: the fields are constant (the core only mutates buffers in place).
- Base.Parameter.constructor: requires the tensor's buffer length to match its shape, which every numpy array satisfies.
- Base.Module.Register: requires that the new parameter's grad buffer is no owned data buffer and its data buffer no owned grad buffer. Python does not check this. A parameter built on another owned parameter's gradient buffer (`Parameter(p.grad)`, whose `data` is not copied at minMLP/base.py:12) violates it and is not covered; in Python, `zero_grad` would then also zero that parameter's data.
- Concrete subclasses themselves: they are not part of this model; `Register` stands for their `self._params[...] = ...` assignments.
