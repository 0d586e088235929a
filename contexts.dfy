/** The context model: property lookup on context data, the dotted-path
    getter that `ensureFn` makes of a string, and the two derived contexts
    that `each` and `within` render their content against. */
module Contexts {
  import opened Wrappers
  import opened Text
  import opened Values

  /** The value of the first field named `key`, `undefined` when there is none. */
  function Get(fields: seq<Field>, key: string): (r: Data)
    ensures (forall k :: 0 <= k < |fields| ==> fields[k].key != key) ==> r == Undefined
  {
    if |fields| == 0 then Undefined
    else if fields[0].key == key then fields[0].value
    else Get(fields[1..], key)
  }

  /** `d[key]` for own properties; every other value gives `undefined`. */
  function Lookup(d: Data, key: string): Data
  {
    match d
    case Obj(fields) => Get(fields, key)
    case Arr(items) => Get(Indexed(items), key)
    case Iteration(entry, index, parent, root) =>
      if key == "entry" then entry
      else if key == "index" then Num(index)
      else if key == "parent" then parent
      else if key == "$root" then root
      else Undefined
    case Shifted(fields, parent, root) =>
      if key == "$root" then root
      else if key == "$parent" then parent
      else Get(fields, key)
    case _ => Undefined
  }

  /** Looks the keys up one after the other; a missing step yields `undefined`. */
  function Walk(keys: seq<string>, d: Data): Data
  {
    if |keys| == 0 then d else Walk(keys[1..], Lookup(d, keys[0]))
  }

  /** The getter for a dotted path such as `entry.val` or `$root.rootValue`. */
  function Eval(path: string, ctx: Data): Data
  {
    Walk(Split(path, '.'), ctx)
  }

  /** `context['$root'] || context`, as `each` computes it. */
  function EachRoot(ctx: Data): Result<Data, Error>
  {
    if Nullish(ctx) then Err(NullContext)
    else
      var r := Lookup(ctx, "$root");
      Ok(if Truthy(r) then r else ctx)
  }

  /** `const { $root = context } = context`, as `within` computes it: the
      default applies only when `$root` is `undefined`. */
  function WithinRoot(ctx: Data): Result<Data, Error>
  {
    if Nullish(ctx) then Err(NullContext)
    else
      var r := Lookup(ctx, "$root");
      Ok(if r != Undefined then r else ctx)
  }

  /** The context `each` renders element `index` against. */
  function EachScope(ctx: Data, entry: Data, index: nat): Result<Data, Error>
  {
    match EachRoot(ctx)
    case Err(e) => Err(e)
    case Ok(root) => Ok(Iteration(entry, index, ctx, root))
  }

  /** The context `within` renders against, given the root it computed and
      the getter's result. */
  function ShiftedScope(ctx: Data, root: Data, scope: Data): Data
  {
    Shifted(OwnEntries(scope), ctx, root)
  }

  /** A caller-supplied context: an object with no `$root` of its own. */
  predicate IsTopContext(top: Data)
  {
    Truthy(top) && Lookup(top, "$root") == Undefined
  }

  /** `ctx` is `top` or was derived from it by a chain of `each` and `within`
      scopes, each recording `top` as its root. */
  predicate DerivedFrom(ctx: Data, top: Data)
  {
    ctx == top
    || (ctx.Iteration? && ctx.root == top && DerivedFrom(ctx.parent, top))
    || (ctx.Shifted? && ctx.root == top && DerivedFrom(ctx.parent, top))
  }

  /** At any depth of `each`, the new context's `$root` is the outermost
      context and its `parent` the enclosing one. */
  lemma EachPreservesRoot(top: Data, ctx: Data, entry: Data, index: nat)
    requires IsTopContext(top) && DerivedFrom(ctx, top)
    ensures EachScope(ctx, entry, index) == Ok(Iteration(entry, index, ctx, top))
    ensures DerivedFrom(Iteration(entry, index, ctx, top), top)
    ensures Lookup(Iteration(entry, index, ctx, top), "$root") == top
    ensures Lookup(Iteration(entry, index, ctx, top), "parent") == ctx
  {
  }

  /** At any depth of `within`, the shifted context's `$root` is the
      outermost context and its `$parent` the enclosing one. */
  lemma WithinPreservesRoot(top: Data, ctx: Data, scope: Data)
    requires IsTopContext(top) && DerivedFrom(ctx, top)
    ensures WithinRoot(ctx) == Ok(top)
    ensures DerivedFrom(ShiftedScope(ctx, top, scope), top)
    ensures Lookup(ShiftedScope(ctx, top, scope), "$root") == top
    ensures Lookup(ShiftedScope(ctx, top, scope), "$parent") == ctx
  {
  }

  /** A one-key path is a plain property lookup. */
  lemma EvalSingleKey(key: string, ctx: Data)
    requires NoChar(key, '.')
    ensures Eval(key, ctx) == Lookup(ctx, key)
  {
    SplitWithoutSeparator(key, '.');
    assert Walk([key], ctx) == Walk([], Lookup(ctx, key));
  }

  /** `a.b` looks `b` up in what `a` gives. */
  lemma EvalTwoKeys(a: string, b: string, ctx: Data)
    requires NoChar(a, '.') && NoChar(b, '.')
    ensures Eval(a + "." + b, ctx) == Lookup(Lookup(ctx, a), b)
  {
    SplitAfterHead(a, '.', b);
    SplitWithoutSeparator(b, '.');
    assert Split(a + "." + b, '.') == [a, b];
    assert Walk([a, b], ctx) == Walk([b], Lookup(ctx, a));
    assert Walk([b], Lookup(ctx, a)) == Walk([], Lookup(Lookup(ctx, a), b));
  }

  /** Nothing is found below `undefined` or `null`. */
  lemma {:induction false} WalkNullish(keys: seq<string>, d: Data)
    requires Nullish(d)
    ensures Walk(keys, d) == (if |keys| == 0 then d else Undefined)
  {
    if |keys| > 0 {
      WalkNullish(keys[1..], Lookup(d, keys[0]));
    }
  }
}
