/** What rendering pushes onto the output buffer, as functions: the `render`
    dispatcher, the bodies that `withBuffer` wraps (the tag closure and each
    combinator), the attribute serialiser and `classRender`. */
module Rendering {
  import opened Wrappers
  import opened Text
  import opened Values
  import opened Contexts
  import Escape

  /** Stands for `JSON.stringify(renderComplexObject(value, context))`, the
      text an object-valued attribute is given; JSON serialisation is not
      part of this model. */
  type Stringify = (Value, Data) -> string

  /** The fragments a call pushes onto the buffer, and the error it throws
      after pushing them, if any. */
  datatype Out = Out(pushed: seq<string>, failure: Option<Error>)

  function Done(pushed: seq<string>): Out
  {
    Out(pushed, None)
  }

  function Fail(e: Error): Out
  {
    Out([], Some(e))
  }

  /** Running one step after another on the same buffer: a throw stops
      everything after it. */
  function Then(a: Out, b: Out): Out
  {
    if a.failure.Some? then a else Out(a.pushed + b.pushed, b.failure)
  }

  const BooleanAttributes: seq<string> :=
    ["hidden", "checked", "required", "readonly", "selected", "disabled", "multiple"]

  // ---------------------------------------------------------------------
  // render(entity, context, buffer, escaped)

  /** `render` of a value with no functions in it. */
  function RenderData(d: Data, escaped: bool): Out
  {
    match d
    case Undefined => Done([])
    case Null => Done([])
    case Bool(_) => Done([])
    case Str(s) => if s == "" then Done([]) else Done([if escaped then s else Escape.EscapeText(s)])
    case Num(n) => Done([IntToString(n)])
    case Date(json, _) => Done([json])
    case Arr(items) => RenderItems(items, escaped)
    case _ => Fail(NotIterable)
  }

  /** `for (const obj of entity) render(obj, …)` over an array. */
  function RenderItems(items: seq<Data>, escaped: bool): Out
  {
    if |items| == 0 then Done([])
    else Then(RenderItems(items[..|items| - 1], escaped), RenderData(items[|items| - 1], escaped))
  }

  /** What a function returns when it is called with the caller's buffer:
      the tag and the combinators return `''`, a path getter its value. */
  function NestedReturn(f: Func, ctx: Data): Data
  {
    if f.PathGet? then Eval(f.path, ctx) else Str("")
  }

  /** `render(entity, context, buffer, escaped)`. */
  function Render(v: Value, ctx: Data, escaped: bool, json: Stringify): Out
    decreases v, 0
  {
    match v
    case Plain(d) => RenderData(d, escaped)
    case Func(f) => Then(Emit(f, ctx, escaped, json), RenderData(NestedReturn(f, ctx), escaped))
    case Dict(_) => Fail(NotIterable)
    case Array(items) => RenderAll(items, ctx, escaped, json)
  }

  /** Rendering a list of values in order against one context and flag. */
  function RenderAll(vs: seq<Value>, ctx: Data, escaped: bool, json: Stringify): Out
    decreases vs, 0
  {
    if |vs| == 0 then Done([])
    else Then(RenderAll(vs[..|vs| - 1], ctx, escaped, json), Render(vs[|vs| - 1], ctx, escaped, json))
  }

  // ---------------------------------------------------------------------
  // The functions wrapped by withBuffer

  function OpenTag(name: string, attributes: string): string
  {
    "<" + name + (if |attributes| > 0 then " " else "") + attributes + ">"
  }

  function CloseTag(name: string): string
  {
    "</" + name + ">"
  }

  /** What calling `f` with a buffer pushes onto it. */
  function Emit(f: Func, ctx: Data, escaped: bool, json: Stringify): Out
    decreases f, 0
  {
    match f
    case Tag(name, attrs, fixed, content) =>
      (match Attributes(attrs, fixed, ctx, escaped, json)
       case Err(e) => Fail(e)
       case Ok(rendered) =>
         Then(Then(Done([OpenTag(name, JoinWith(rendered, " "))]), RenderAll(content, ctx, escaped, json)),
              Done([CloseTag(name)])))
    case Each(getter, content) =>
      (match Call(getter, ctx, json)
       case Err(e) => Fail(e)
       case Ok(collection) =>
         if !Truthy(collection) then Done([])
         else if collection.Arr? then EachItems(collection.items, |collection.items|, content, ctx, escaped, json)
         else Fail(NotAnArray))
    case Within(getter, content) =>
      (match WithinRoot(ctx)
       case Err(e) => Fail(e)
       case Ok(root) =>
         match Call(getter, ctx, json)
         case Err(e) => Fail(e)
         case Ok(scope) => RenderAll(content, ShiftedScope(ctx, root, scope), escaped, json))
    case Group(content) => RenderAll(content, ctx, escaped, json)
    case Safe(content) => RenderAll(content, ctx, true, json)
    case If(condition, ifTrue, ifFalse) =>
      (match Test(condition, ctx, json)
       case Err(e) => Fail(e)
       case Ok(b) => Render(if b then ifTrue else ifFalse, ctx, escaped, json))
    case PathGet(_) => Done([])
  }

  /** `collection.forEach` in `each`, over the first `n` elements. */
  function EachItems(items: seq<Data>, n: nat, content: seq<Value>, ctx: Data, escaped: bool, json: Stringify): Out
    requires n <= |items|
    decreases content, 1, n
  {
    if n == 0 then Done([])
    else
      Then(EachItems(items, n - 1, content, ctx, escaped, json),
           (match EachScope(ctx, items[n - 1], n - 1)
            case Err(e) => Fail(e)
            case Ok(scope) => RenderAll(content, scope, escaped, json)))
  }

  /** The condition of `html.if`, evaluated against the context. */
  function Test(condition: Condition, ctx: Data, json: Stringify): Result<bool, Error>
    decreases condition, 0
  {
    match condition
    case Getter(g) =>
      (match Call(g, ctx, json)
       case Err(e) => Err(e)
       case Ok(d) => Ok(Truthy(d)))
    case Matcher(test) => Ok(test(ctx))
  }

  /** A function called with no buffer, as `withBuffer` runs it at top level:
      a fresh buffer is filled and its fragments joined. A path getter just
      returns its value. */
  function TopLevel(f: Func, ctx: Data, escaped: bool, json: Stringify): Result<Data, Error>
    decreases f, 1
  {
    if f.PathGet? then Ok(Eval(f.path, ctx))
    else
      var o := Emit(f, ctx, escaped, json);
      if o.failure.Some? then Err(o.failure.value) else Ok(Str(Concat(o.pushed)))
  }

  /** `getter(context)`, `condition(context)` and `renderWith`: a function
      called with the context alone. */
  function Call(f: Func, ctx: Data, json: Stringify): Result<Data, Error>
    decreases f, 2
  {
    TopLevel(f, ctx, false, json)
  }

  // ---------------------------------------------------------------------
  // Attributes

  /** The rendered attributes, in the order of the attribute map; the ones
      that render to `undefined` are dropped. */
  function Attributes(attrs: seq<Entry>, fixed: string, ctx: Data, escaped: bool, json: Stringify): Result<seq<string>, Error>
    decreases attrs, 0
  {
    if |attrs| == 0 then Ok([])
    else
      match Attributes(attrs[..|attrs| - 1], fixed, ctx, escaped, json)
      case Err(e) => Err(e)
      case Ok(front) =>
        (match AttributeValue(attrs[|attrs| - 1], fixed, ctx, json)
        case Err(e) => Err(e)
        case Ok(rendered) =>
          var text := Serialise(attrs[|attrs| - 1].key, rendered, escaped);
          Ok(if text.Some? then front + [text.value] else front))
  }

  /** The attribute's value resolved against the context: `classRender` for
      `class`; otherwise the value, or what the function returns, with an
      object replaced by its JSON text. */
  function AttributeValue(e: Entry, fixed: string, ctx: Data, json: Stringify): Result<Data, Error>
    decreases e, 0
  {
    if e.key == "class" then
      (match ClassValue(fixed, e.value, ctx, json)
       case Err(err) => Err(err)
       case Ok(s) => Ok(Str(s)))
    else
      match e.value
      case Plain(d) => Ok(Jsonify(d, ctx, json))
      case Func(f) =>
        (match Call(f, ctx, json)
         case Err(err) => Err(err)
         case Ok(d) => Ok(Jsonify(d, ctx, json)))
      case Dict(_) => Ok(Str(json(e.value, ctx)))
      case Array(_) => Ok(Str(json(e.value, ctx)))
  }

  /** `if (rendered && typeof rendered === 'object') rendered = JSON.stringify(…)`. */
  function Jsonify(d: Data, ctx: Data, json: Stringify): Data
  {
    if Truthy(d) && IsObject(d) then Str(json(Plain(d), ctx)) else d
  }

  /** One attribute's text: a boolean attribute is its bare name when its
      value is truthy and absent otherwise; any other attribute is absent when
      its value is `undefined` and `name="value"` otherwise, the value escaped
      unless the flag says it already is. */
  function Serialise(name: string, rendered: Data, escaped: bool): Option<string>
  {
    if name in BooleanAttributes then
      if Truthy(rendered) then Some(name) else None
    else if rendered == Undefined then None
    else Some(name + "=\"" + (if escaped then ToText(rendered) else EscapeData(rendered)) + "\"")
  }

  // ---------------------------------------------------------------------
  // classRender(fixed, value, context)

  /** The names of the truthy toggles of a plain object, in key order. */
  function DataToggles(fields: seq<Field>): seq<Data>
  {
    if |fields| == 0 then []
    else
      var last := fields[|fields| - 1];
      DataToggles(fields[..|fields| - 1]) + (if Truthy(last.value) then [Str(last.key)] else [])
  }

  /** The names of the truthy toggles of an object literal; a function toggle
      is called with the context. */
  function Toggles(entries: seq<Entry>, ctx: Data, json: Stringify): Result<seq<Data>, Error>
    decreases entries, 0
  {
    if |entries| == 0 then Ok([])
    else
      var last := entries[|entries| - 1];
      match Toggles(entries[..|entries| - 1], ctx, json)
      case Err(e) => Err(e)
      case Ok(front) =>
        (match ToggleOn(last.value, ctx, json)
         case Err(e) => Err(e)
         case Ok(on) => Ok(front + (if on then [Str(last.key)] else [])))
  }

  /** The indices of the truthy toggles of an array literal, as `forEachKey`
      names them. */
  function ItemToggles(items: seq<Value>, ctx: Data, json: Stringify): Result<seq<Data>, Error>
    decreases items, 0
  {
    if |items| == 0 then Ok([])
    else
      var n := |items| - 1;
      match ItemToggles(items[..n], ctx, json)
      case Err(e) => Err(e)
      case Ok(front) =>
        (match ToggleOn(items[n], ctx, json)
         case Err(e) => Err(e)
         case Ok(on) => Ok(front + (if on then [Str(NatToString(n))] else [])))
  }

  /** Whether one toggle is on: `!!toggler`, or `!!toggler(context)` for a
      function. */
  function ToggleOn(v: Value, ctx: Data, json: Stringify): Result<bool, Error>
    decreases v, 0
  {
    match v
    case Func(f) =>
      (match Call(f, ctx, json)
       case Err(err) => Err(err)
       case Ok(d) => Ok(Truthy(d)))
    case _ => Ok(IsTruthy(v))
  }

  /** The class tokens: the fixed classes first, then a non-empty string, or
      what a function returns, or the names of the truthy toggles. */
  function ClassTokens(fixed: string, v: Value, ctx: Data, json: Stringify): Result<seq<Data>, Error>
    decreases v, 0
  {
    var start := if fixed != "" then [Str(fixed)] else [];
    match v
    case Func(f) =>
      (match Call(f, ctx, json)
       case Err(e) => Err(e)
       case Ok(d) => Ok(start + [d]))
    case Dict(entries) =>
      (match Toggles(entries, ctx, json)
       case Err(e) => Err(e)
       case Ok(names) => Ok(start + names))
    case Array(items) =>
      (match ItemToggles(items, ctx, json)
       case Err(e) => Err(e)
       case Ok(names) => Ok(start + names))
    case Plain(d) =>
      if d.Str? then Ok(if d.s != "" then start + [d] else start)
      else if IsObject(d) then Ok(start + DataToggles(OwnEntries(d)))
      else Ok(start)
  }

  /** The class attribute's value: the tokens joined with single spaces. */
  function ClassValue(fixed: string, v: Value, ctx: Data, json: Stringify): Result<string, Error>
    decreases v, 1
  {
    match ClassTokens(fixed, v, ctx, json)
    case Err(e) => Err(e)
    case Ok(tokens) => Ok(if |tokens| > 0 then JoinWith(ElementTexts(tokens), " ") else "")
  }
}
