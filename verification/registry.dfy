/**
 * Choosing the optimizer and the loss criterion of a deep-learning estimator
 * by name. The estimator carries a registry of named constructors; a falsy
 * name selects the default constructor, a registry key selects that entry,
 * and any other name is refused. Keyword arguments reach a registry entry
 * only when the keyword dictionary is non-empty, and never reach the default.
 * The optimizer is always given the learning rate as the keyword `lr`.
 */
module Registry {
  import opened Common

  /** Which constructor is called: the built-in default or a registry entry. */
  datatype Ctor = Default(name: string) | Entry(key: string)

  /** A constructor call with the keyword arguments it receives. */
  datatype Call<V> = Call(ctor: Ctor, kwargs: map<string, V>)

  const LR: string := "lr"

  /**
   * `_instantiate_criterion`: `name` is the `criterion` attribute, `kwargs`
   * the `criterion_kwargs` attribute, `keys` the registry's keys and
   * `default` the default loss.
   */
  function Criterion<V>(name: Option<string>, kwargs: Option<map<string, V>>, keys: set<string>, default: string): (r: Result<Call<V>>)
    ensures r.Ok? && r.value.ctor.Default? <==> !Truthy(name)
    ensures r.Ok? && r.value.ctor.Entry? <==> Truthy(name) && name.value in keys
    ensures r.Err? <==> Truthy(name) && name.value !in keys
    ensures r.Err? ==> r.error == UnknownName("criterion", keys)
    ensures r.Ok? && r.value.ctor.Default? ==> r.value == Call(Default(default), map[])
    ensures r.Ok? && r.value.ctor.Entry? ==> r.value.ctor.key == name.value
    ensures r.Ok? && r.value.ctor.Entry? && TruthyMap(kwargs) ==> r.value.kwargs == kwargs.value
    ensures r.Ok? && r.value.ctor.Entry? && !TruthyMap(kwargs) ==> r.value.kwargs == map[]
  {
    if Truthy(name) then
      if name.value in keys then
        if TruthyMap(kwargs) then Ok(Call(Entry(name.value), kwargs.value))
        else Ok(Call(Entry(name.value), map[]))
      else Err(UnknownName("criterion", keys))
    else Ok(Call(Default(default), map[]))
  }

  /**
   * `_instantiate_optimizer`: as for the criterion, except that every
   * constructor also receives the learning rate `lr`, so a keyword
   * dictionary that itself holds `lr` makes the call fail with a duplicate
   * keyword.
   */
  function Optimizer<V>(name: Option<string>, kwargs: Option<map<string, V>>, keys: set<string>, default: string, lr: V): (r: Result<Call<V>>)
    ensures r.Ok? ==> LR in r.value.kwargs && r.value.kwargs[LR] == lr
    ensures r.Ok? && r.value.ctor.Default? <==> !Truthy(name)
    ensures r.Ok? && r.value.ctor.Default? ==> r.value == Call(Default(default), map[LR := lr])
    ensures r.Ok? && r.value.ctor.Entry? ==> r.value.ctor.key == name.value && name.value in keys
    ensures r.Ok? && r.value.ctor.Entry? ==>
      r.value.kwargs == (if TruthyMap(kwargs) then kwargs.value[LR := lr] else map[LR := lr])
    ensures Truthy(name) && name.value !in keys ==> r == Err(UnknownName("optimizer", keys))
    ensures Truthy(name) && name.value in keys ==>
      (r.Err? <==> TruthyMap(kwargs) && LR in kwargs.value)
    ensures Truthy(name) && name.value in keys && r.Err? ==> r.error == DuplicateKeyword(LR)
  {
    if Truthy(name) then
      if name.value in keys then
        if TruthyMap(kwargs) then
          if LR in kwargs.value then Err(DuplicateKeyword(LR))
          else Ok(Call(Entry(name.value), kwargs.value[LR := lr]))
        else Ok(Call(Entry(name.value), map[LR := lr]))
      else Err(UnknownName("optimizer", keys))
    else Ok(Call(Default(default), map[LR := lr]))
  }

  /** The optimizer and the criterion follow the same name rule. */
  lemma SameRule<V>(name: Option<string>, ck: Option<map<string, V>>, ok: Option<map<string, V>>, keys: set<string>, cd: string, od: string, lr: V)
    requires ok.None? || LR !in ok.value
    ensures Criterion(name, ck, keys, cd).Ok? <==> Optimizer(name, ok, keys, od, lr).Ok?
    ensures Criterion(name, ck, keys, cd).Ok? ==>
      Criterion(name, ck, keys, cd).value.ctor.Entry? == Optimizer(name, ok, keys, od, lr).value.ctor.Entry?
  {
  }
}
