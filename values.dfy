/** The JavaScript values the renderer dispatches on, as two closed types.

    `Data` is what a context holds and what a getter returns: the plain values
    of the language, plus the two context objects the combinators build
    (`each` builds `{entry, index, parent, $root}`, `within` a copy of the
    getter's result with `$root` and `$parent` attached).

    `Value` is what `html` and the combinators receive as arguments and
    content: plain data, one of the deferred forms (the functions that `html`,
    `each`, `within`, `group`, `safe`, `if` and a path getter return), an
    object literal whose values may themselves be functions (an attribute map,
    a class-toggle map), or an array literal whose elements may be functions
    (`[h('a'), h('b')]`). */
module Values {
  import opened Text
  import Escape

  datatype Data =
    | Undefined
    | Null
    | Bool(b: bool)
    | Num(n: int)
    | Str(s: string)
    /** A `Date`: the text `toJSON` gives for it and the text `String` gives. */
    | Date(json: string, display: string)
    | Arr(items: seq<Data>)
    /** A plain object, its own enumerable properties in enumeration order. */
    | Obj(fields: seq<Field>)
    /** The context `each` renders one element against. */
    | Iteration(entry: Data, index: nat, parent: Data, root: Data)
    /** The context `within` renders against: the copied properties of the
        getter's result; `$parent` and `$root` are not enumerable. */
    | Shifted(fields: seq<Field>, parent: Data, root: Data)

  datatype Field = Field(key: string, value: Data)

  datatype Value =
    | Plain(d: Data)
    | Func(f: Func)
    | Dict(entries: seq<Entry>)
    /** An array whose elements may be deferred forms; an array of plain
        data is `Plain(Arr(…))`. */
    | Array(items: seq<Value>)

  datatype Entry = Entry(key: string, value: Value)

  /** The functions a renderable tree is built from. Each of them, called as
      `(context, buffer, escaped)`, pushes onto `buffer`. */
  datatype Func =
    /** What `html(descriptor, ...args)` returns: the tag name, the attribute
        map in insertion order, the classes fixed by the descriptor ("" for
        none) and the content in argument order. */
    | Tag(name: string, attrs: seq<Entry>, fixedClasses: string, content: seq<Value>)
    | Each(collection: Func, content: seq<Value>)
    | Within(scope: Func, content: seq<Value>)
    | Group(content: seq<Value>)
    | Safe(content: seq<Value>)
    | If(condition: Condition, ifTrue: Value, ifFalse: Value)
    /** The getter a dotted path stands for (`ensureFn('entry.val')`). */
    | PathGet(path: string)

  /** The first argument of `html.if`: a getter, or the predicate that the
      external `when` helper makes of a matcher object. */
  datatype Condition =
    | Getter(g: Func)
    | Matcher(test: Data -> bool)

  /** The errors the renderer throws. */
  datatype Error =
    /** `html` was given an argument of another type than string, function or object. */
    | UnsupportedParameter(typeName: string)
    /** `render` reached `for…of` with a plain object. */
    | NotIterable
    /** `each` got a truthy collection that has no `forEach`. */
    | NotAnArray
    /** `each` or `within` read `$root` of an undefined or null context. */
    | NullContext

  function Message(e: Error): string
  {
    match e
    case UnsupportedParameter(t) => "Unsupported parameter of type " + t
    case NotIterable => "object is not iterable"
    case NotAnArray => "collection.forEach is not a function"
    case NullContext => "Cannot read properties of undefined"
  }

  predicate Nullish(d: Data)
  {
    d.Undefined? || d.Null?
  }

  /** JavaScript truthiness. */
  predicate Truthy(d: Data)
  {
    match d
    case Undefined => false
    case Null => false
    case Bool(b) => b
    case Num(n) => n != 0
    case Str(s) => s != ""
    case _ => true
  }

  /** Truthiness of an argument value: functions and objects are truthy. */
  predicate IsTruthy(v: Value)
  {
    match v
    case Plain(d) => Truthy(d)
    case _ => true
  }

  /** `typeof d === 'object'`. */
  predicate IsObject(d: Data)
  {
    d.Null? || d.Date? || d.Arr? || d.Obj? || d.Iteration? || d.Shifted?
  }

  /** `String(d)`. */
  function ToText(d: Data): (r: string)
    ensures d.Str? ==> r == d.s
    decreases d, 0
  {
    match d
    case Undefined => "undefined"
    case Null => "null"
    case Bool(b) => if b then "true" else "false"
    case Num(n) => IntToString(n)
    case Str(s) => s
    case Date(_, display) => display
    case Arr(items) => JoinWith(ElementTexts(items), ",")
    case _ => "[object Object]"
  }

  /** How `Array.prototype.join` prints one element: `undefined` and `null`
      as nothing. */
  function ElementText(d: Data): (r: string)
    ensures Nullish(d) ==> r == ""
    decreases d, 1
  {
    if Nullish(d) then "" else ToText(d)
  }

  function ElementTexts(items: seq<Data>): (r: seq<string>)
    ensures |r| == |items|
    ensures forall k :: 0 <= k < |items| ==> r[k] == ElementText(items[k])
    decreases items, 2
  {
    if |items| == 0 then []
    else ElementTexts(items[..|items| - 1]) + [ElementText(items[|items| - 1])]
  }

  /** `escape(unsafe)`: `null` becomes the empty string, anything else is
      printed and escaped. */
  function EscapeData(d: Data): (r: string)
    ensures d.Null? ==> r == ""
    ensures d.Str? ==> r == Escape.EscapeText(d.s)
  {
    if d.Null? then "" else Escape.EscapeText(ToText(d))
  }

  /** The entries of an array, keyed by index. */
  function Indexed(items: seq<Data>): (r: seq<Field>)
    ensures |r| == |items|
    ensures forall k :: 0 <= k < |items| ==> r[k] == Field(NatToString(k), items[k])
  {
    seq(|items|, k requires 0 <= k < |items| => Field(NatToString(k), items[k]))
  }

  /** The own enumerable properties of a value, in order: what `forEachKey`
      visits and what object spread copies. */
  function OwnEntries(d: Data): seq<Field>
  {
    match d
    case Obj(fields) => fields
    case Arr(items) => Indexed(items)
    case Str(s) => seq(|s|, k requires 0 <= k < |s| => Field(NatToString(k), Str([s[k]])))
    case Iteration(e, i, p, r) =>
      [Field("entry", e), Field("index", Num(i)), Field("parent", p), Field("$root", r)]
    case Shifted(fields, _, _) => fields
    case _ => []
  }

  /** The entries of an array literal, keyed by index: what `forEachKey`
      visits. */
  function IndexedValues(items: seq<Value>): (r: seq<Entry>)
    ensures |r| == |items|
    ensures forall k :: 0 <= k < |items| ==> r[k] == Entry(NatToString(k), items[k])
  {
    seq(|items|, k requires 0 <= k < |items| => Entry(NatToString(k), items[k]))
  }

  /** The properties of an argument object, each taken as an argument value. */
  function ArgumentEntries(fields: seq<Field>): (r: seq<Entry>)
    ensures |r| == |fields|
    ensures forall k :: 0 <= k < |fields| ==> r[k] == Entry(fields[k].key, Plain(fields[k].value))
  {
    seq(|fields|, k requires 0 <= k < |fields| => Entry(fields[k].key, Plain(fields[k].value)))
  }
}
