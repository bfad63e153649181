/**
 * The library's process-wide configuration (src/config.ts): a nested tree of
 * JavaScript values, the recursive merge `deepMerge` that folds a partial
 * update into it, and the store that `setConfig` writes and `getConfig` reads.
 */
module Config {

  /** A JavaScript primitive other than `null` and `undefined`. */
  datatype Primitive = Bool(b: bool) | Num(n: real) | Str(s: string)

  /**
   * A JavaScript value as far as the configuration tree is concerned: a plain
   * object (its own enumerable properties), a function (known only by an
   * identity), a primitive, `null` or `undefined`.
   */
  datatype Value =
    | Obj(fields: map<string, Value>)
    | Func(id: nat)
    | Prim(p: Primitive)
    | Null
    | Undef

  /** JavaScript's `typeof` operator. */
  function TypeOf(v: Value): string {
    match v
    case Obj(_) => "object"
    case Null => "object"
    case Func(_) => "function"
    case Undef => "undefined"
    case Prim(p) =>
      match p
      case Bool(_) => "boolean"
      case Num(_) => "number"
      case Str(_) => "string"
  }

  /** JavaScript truthiness: objects and functions are truthy; `null`, `undefined`, `false`, `0` and `""` are not. */
  predicate Truthy(v: Value) {
    match v
    case Obj(_) => true
    case Func(_) => true
    case Null => false
    case Undef => false
    case Prim(p) =>
      match p
      case Bool(b) => b
      case Num(n) => n != 0.0
      case Str(s) => s != ""
  }

  /**
   * The guard of deepMerge's recursive branch: both values truthy and of type
   * "object". `null` has type "object" but is falsy, and functions have type
   * "function", so the guard holds exactly when both are plain objects.
   */
  predicate BothObjects(baseValue: Value, updateValue: Value)
    ensures BothObjects(baseValue, updateValue) <==> baseValue.Obj? && updateValue.Obj?
  {
    Truthy(baseValue) && Truthy(updateValue) && TypeOf(baseValue) == "object" && TypeOf(updateValue) == "object"
  }

  /** Reading property `key` of a plain object: a missing property reads as `undefined`. */
  function Lookup(fields: map<string, Value>, key: string): Value {
    if key in fields then fields[key] else Undef
  }

  /** The keys of `update` whose value is not `undefined`: the only ones deepMerge writes. */
  function DefinedKeys(update: map<string, Value>): set<string> {
    set key | key in update && update[key] != Undef
  }

  /** What deepMerge leaves at `key`, for a key of `base` or of `update`. */
  function MergedEntry(base: map<string, Value>, update: map<string, Value>, key: string): Value
    requires key in base || key in update
    decreases Obj(update), 0
  {
    var baseValue := Lookup(base, key);
    var updateValue := Lookup(update, key);
    if BothObjects(baseValue, updateValue) then Obj(DeepMerge(baseValue.fields, updateValue.fields))
    else if updateValue != Undef then updateValue
    else baseValue
  }

  /**
   * The tree deepMerge(base, update) returns: a copy of `base` in which every
   * key of `update` is merged recursively (both sides plain objects), kept
   * (the update is `undefined`) or replaced (anything else).
   */
  function DeepMerge(base: map<string, Value>, update: map<string, Value>): (merged: map<string, Value>)
    ensures merged.Keys == base.Keys + DefinedKeys(update)
    ensures forall key :: key in base && key !in update ==> merged[key] == base[key]
    ensures forall key :: key in base && key in update && update[key] == Undef ==> merged[key] == base[key]
    ensures forall key :: key in base && key in update && base[key].Obj? && update[key].Obj? ==>
      merged[key] == Obj(DeepMerge(base[key].fields, update[key].fields))
    ensures forall key :: key in update && update[key] != Undef && !(key in base && base[key].Obj? && update[key].Obj?) ==>
      merged[key] == update[key]
    decreases Obj(update), 1
  {
    map key | key in base.Keys + DefinedKeys(update) :: MergedEntry(base, update, key)
  }

  /**
   * deepMerge as the source runs it: start from a shallow copy of `base` and
   * write the merged value of each key of `update` in turn. Neither argument
   * is changed.
   */
  method MergeInto(base: map<string, Value>, update: map<string, Value>) returns (result: map<string, Value>)
    ensures result == DeepMerge(base, update)
    decreases Obj(update)
  {
    result := base;
    var keys := update.Keys;
    while keys != {}
      invariant keys <= update.Keys
      invariant result.Keys == base.Keys + (DefinedKeys(update) - keys)
      invariant forall key :: key in result ==>
        result[key] == if key in keys then base[key] else MergedEntry(base, update, key)
      decreases keys
    {
      var key :| key in keys;
      var baseValue := Lookup(base, key);
      var updateValue := update[key];
      if BothObjects(baseValue, updateValue) {
        var merged := MergeInto(baseValue.fields, updateValue.fields);
        result := result[key := Obj(merged)];
      } else if updateValue != Undef {
        result := result[key := updateValue];
      }
      keys := keys - {key};
    }
    assert forall key :: key in result ==> result[key] == DeepMerge(base, update)[key];
  }

  /** `Object.assign(target, source)`: copy every own property of `source` onto `target`. */
  function Assign(target: map<string, Value>, source: map<string, Value>): map<string, Value> {
    target + source
  }

  /** Assigning a merge back onto its base yields exactly the merge: the merge already holds every key of the base. */
  lemma AssignMerged(base: map<string, Value>, update: map<string, Value>)
    ensures Assign(base, DeepMerge(base, update)) == DeepMerge(base, update)
  {
  }

  /** Merging an empty update changes nothing. */
  lemma MergeEmpty(base: map<string, Value>)
    ensures DeepMerge(base, map[]) == base
  {
  }

  /** Merging a tree into itself changes nothing. */
  lemma {:induction false} MergeSelf(tree: map<string, Value>)
    ensures DeepMerge(tree, tree) == tree
    decreases Obj(tree)
  {
    forall key | key in tree && tree[key].Obj?
      ensures DeepMerge(tree[key].fields, tree[key].fields) == tree[key].fields
    {
      MergeSelf(tree[key].fields);
    }
    assert DeepMerge(tree, tree).Keys == tree.Keys;
  }

  /** Merging the same update twice gives the same tree as merging it once. */
  lemma {:induction false} MergeIdempotent(base: map<string, Value>, update: map<string, Value>)
    ensures DeepMerge(DeepMerge(base, update), update) == DeepMerge(base, update)
    decreases Obj(update)
  {
    var once := DeepMerge(base, update);
    var twice := DeepMerge(once, update);
    forall key | key in update && update[key].Obj?
      ensures DeepMerge(update[key].fields, update[key].fields) == update[key].fields
    {
      MergeSelf(update[key].fields);
    }
    forall key | key in base && key in update && base[key].Obj? && update[key].Obj?
      ensures DeepMerge(DeepMerge(base[key].fields, update[key].fields), update[key].fields)
           == DeepMerge(base[key].fields, update[key].fields)
    {
      MergeIdempotent(base[key].fields, update[key].fields);
    }
    assert twice.Keys == once.Keys;
    forall key | key in once ensures twice[key] == once[key] { }
  }

  // ---------------------------------------------------------------------
  // The shape of the configuration and the `onError` slot
  // ---------------------------------------------------------------------

  /** The identity of the no-op `onError` of the default configuration. */
  const NoopHandler: nat := 0

  /** The configuration `CONFIG` holds at process start. */
  function Default(): (tree: map<string, Value>)
    ensures ShapeOk(tree)
    ensures OnErrorHandler(tree) == Call(NoopHandler)
    ensures FuseConfig(tree) == map[]
  {
    map["hooks" := Obj(map[
      "useAsync" := Obj(map["onError" := Func(NoopHandler)]),
      "useFilter" := Obj(map["fuseConfig" := Obj(map[])])])]
  }

  /** The tree has the declared Config shape: `hooks.useAsync.onError` a function and `hooks.useFilter.fuseConfig` an object. */
  ghost predicate ShapeOk(tree: map<string, Value>) {
    && "hooks" in tree && tree["hooks"].Obj?
    && "useAsync" in tree["hooks"].fields && tree["hooks"].fields["useAsync"].Obj?
    && "onError" in tree["hooks"].fields["useAsync"].fields
    && tree["hooks"].fields["useAsync"].fields["onError"].Func?
    && "useFilter" in tree["hooks"].fields && tree["hooks"].fields["useFilter"].Obj?
    && "fuseConfig" in tree["hooks"].fields["useFilter"].fields
    && tree["hooks"].fields["useFilter"].fields["fuseConfig"].Obj?
  }

  /** The Fuse.js options bag of a well-shaped tree. */
  ghost function FuseConfig(tree: map<string, Value>): map<string, Value>
    requires ShapeOk(tree)
  {
    tree["hooks"].fields["useFilter"].fields["fuseConfig"].fields
  }

  /** `v` is left out (`undefined`) or a plain object. */
  ghost predicate AbsentOrObj(v: Value) {
    v == Undef || v.Obj?
  }

  /**
   * An update whose known paths are each left out (`undefined`) or of the
   * declared kind; other keys may hold anything. This is stricter than the
   * `DeepPartial<Config>` type, which maps the function type of `onError` to an
   * empty object type and so admits any non-nullish value there.
   */
  ghost predicate FitsPartial(update: map<string, Value>) {
    var hooks := Lookup(update, "hooks");
    && AbsentOrObj(hooks)
    && (hooks.Obj? ==>
        var useAsync := Lookup(hooks.fields, "useAsync");
        var useFilter := Lookup(hooks.fields, "useFilter");
        && AbsentOrObj(useAsync)
        && (useAsync.Obj? ==> var onError := Lookup(useAsync.fields, "onError"); onError == Undef || onError.Func?)
        && AbsentOrObj(useFilter)
        && (useFilter.Obj? ==> AbsentOrObj(Lookup(useFilter.fields, "fuseConfig"))))
  }

  /** An update whose known paths are absent or of the declared kind keeps a well-shaped tree well-shaped. */
  lemma FittingUpdateKeepsShape(tree: map<string, Value>, update: map<string, Value>)
    requires ShapeOk(tree) && FitsPartial(update)
    ensures ShapeOk(DeepMerge(tree, update))
  {
  }

  /** Outcome of a property read `v[key]`: reading a property of `null` or `undefined` throws a TypeError. */
  datatype Read = Got(value: Value) | ReadTypeError

  /** JavaScript property read `v.key` (for the configuration's own keys, which no function or primitive has). */
  function Member(v: Value, key: string): Read {
    match v
    case Obj(fields) => Got(Lookup(fields, key))
    case Null => ReadTypeError
    case Undef => ReadTypeError
    case Func(_) => Got(Undef)
    case Prim(_) => Got(Undef)
  }

  /**
   * What `if (getConfig().hooks.useAsync.onError) getConfig().hooks.useAsync.onError(error)`
   * does: nothing (a falsy slot), call the function with identity `id`, or throw a
   * TypeError (a broken path or a truthy value that is not a function).
   */
  datatype Handler = NoHandler | Call(id: nat) | Throws

  /**
   * The `onError` dispatch the tree `tree` produces. A call always goes to the
   * function stored at `hooks.useAsync.onError`; a missing or nullish `hooks`
   * makes the read throw; a well-shaped tree always calls its handler.
   */
  function OnErrorHandler(tree: map<string, Value>): (h: Handler)
    ensures h.Call? ==>
      && Lookup(tree, "hooks").Obj?
      && Lookup(Lookup(tree, "hooks").fields, "useAsync").Obj?
      && Lookup(Lookup(Lookup(tree, "hooks").fields, "useAsync").fields, "onError") == Func(h.id)
    ensures Lookup(tree, "hooks") == Null || Lookup(tree, "hooks") == Undef ==> h == Throws
    ensures ShapeOk(tree) ==> h == Call(tree["hooks"].fields["useAsync"].fields["onError"].id)
  {
    match Member(Lookup(tree, "hooks"), "useAsync")
    case ReadTypeError => Throws
    case Got(useAsync) =>
      match Member(useAsync, "onError")
      case ReadTypeError => Throws
      case Got(onError) =>
        if !Truthy(onError) then NoHandler
        else if onError.Func? then Call(onError.id)
        else Throws
  }

  /** The update `{hooks: {useAsync: {onError: fn}}}`. */
  function OnErrorUpdate(id: nat): map<string, Value> {
    map["hooks" := Obj(map["useAsync" := Obj(map["onError" := Func(id)])])]
  }

  /**
   * Configuring a new `onError` replaces the old one outright and leaves the
   * Fuse.js options untouched.
   */
  lemma OnErrorUpdateKeepsFuseConfig(tree: map<string, Value>, id: nat)
    requires ShapeOk(tree)
    ensures ShapeOk(DeepMerge(tree, OnErrorUpdate(id)))
    ensures OnErrorHandler(DeepMerge(tree, OnErrorUpdate(id))) == Call(id)
    ensures FuseConfig(DeepMerge(tree, OnErrorUpdate(id))) == FuseConfig(tree)
  {
  }

  /** An update `{hooks: {useAsync: null}}` is accepted and breaks the `onError` path: dispatch then throws. */
  lemma NullUpdateBreaksOnError(tree: map<string, Value>)
    requires ShapeOk(tree)
    ensures OnErrorHandler(DeepMerge(tree, map["hooks" := Obj(map["useAsync" := Null])])) == Throws
  {
  }

  /** The update `{hooks: {useAsync: {onError: n}}}` with a number `n`. */
  function NumberOnErrorUpdate(n: real): map<string, Value> {
    map["hooks" := Obj(map["useAsync" := Obj(map["onError" := Prim(Num(n))])])]
  }

  /**
   * A number at `onError` replaces the handler outright: a non-zero number is
   * truthy and calling it throws; zero is falsy and no handler is called.
   */
  lemma NumberOnErrorReplacesHandler(tree: map<string, Value>, n: real)
    requires ShapeOk(tree)
    ensures OnErrorHandler(DeepMerge(tree, NumberOnErrorUpdate(n))) == if n != 0.0 then Throws else NoHandler
  {
    var update := NumberOnErrorUpdate(n);
    var h := tree["hooks"].fields;
    assert DeepMerge(tree, update)["hooks"] == Obj(DeepMerge(h, update["hooks"].fields));
    assert DeepMerge(h, update["hooks"].fields)["useAsync"]
        == Obj(DeepMerge(h["useAsync"].fields, update["hooks"].fields["useAsync"].fields));
  }

  /**
   * The single process-wide `CONFIG` object. `Set` merges an update into it in
   * place (the object itself is kept, its properties are overwritten) and
   * returns the current tree; `Get` returns it.
   */
  class ConfigStore {
    var tree: map<string, Value>

    constructor ()
      ensures tree == Default()
    {
      tree := Default();
    }

    /** setConfig: `Object.assign(CONFIG, deepMerge(CONFIG, value)); return CONFIG`. */
    method Set(update: map<string, Value>) returns (current: map<string, Value>)
      modifies this
      ensures tree == DeepMerge(old(tree), update)
      ensures current == tree
    {
      var merged := MergeInto(tree, update);
      AssignMerged(tree, update);
      tree := Assign(tree, merged);
      current := tree;
    }

    /** getConfig: the current tree. */
    method Get() returns (current: map<string, Value>)
      ensures current == tree
    {
      current := tree;
    }
  }
}
