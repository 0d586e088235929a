# A verified model of the `html` string builder

`html` (snootyfoxpub/html, `index.js`) builds HTML as text from JavaScript
values:

- `html('tag#id.c1.c2', ...args)` returns a deferred tag;
- the combinators `html.each`, `html.within`, `html.group`, `html.safe` and
  `html.if` return deferred fragments;
- calling a deferred value with a context renders it into one shared output
  buffer.

This project models that core in Dafny and proves what it produces.

The model is split by the pieces of `index.js`:

| file | module | what it models |
|---|---|---|
| `wrappers.dfy` | `Wrappers` | `Option` and `Result` |
| `text.dfy` | `Text` | `split`, `join`, decimal printing of integers |
| `escape.dfy` | `Escape` | `escape`: the six-character entity table, and its inverse |
| `values.dfy` | `Values` | the JavaScript values the code dispatches on; truthiness, `String(…)`, own enumerable properties |
| `contexts.dfy` | `Contexts` | property lookup, the dotted-path getter a string stands for, the contexts `each` and `within` build |
| `descriptor.dfy` | `Descriptor` | the `tag#id.c1.c2` descriptor |
| `builder.dfy` | `ElementBuilder` | the argument loop of `html`, the insertion-ordered attribute map, the `class` placeholder |
| `render.dfy` | `Rendering` | the functions that say what every call pushes, and what it throws after pushing |
| `buffer.dfy` | `Buffers` | the imperative renderer; each method is proved to push exactly what `Rendering` says |
| `builder_props.dfy` | `BuilderProperties` | properties of `html`, against per-argument reference definitions |
| `render_props.dfy` | `RenderingProperties` | properties of rendering, serialising and the combinators |
| `examples_witness.dfy` | `Witnesses` | most of the repository's test cases (listed below), stated for any tag, id, class list or text |

The definitions that carry the model, and the source lines each one follows:

- `Escape.EscapeText`: `escape`, index.js:24-28 (its table is `Escape.Entity`, index.js:13-20);
- `Descriptor.Parse`: the descriptor split, index.js:31-38;
- `ElementBuilder.Classify`: one pass of the argument loop, index.js:41-56;
- `ElementBuilder.Collect`: the whole argument loop, index.js:40-57;
- `ElementBuilder.Finish`: the `class` placeholder, index.js:59;
- `ElementBuilder.Build`: `html(tagDescription, ...data)` up to the returned closure, index.js:30-60;
- `Contexts.Eval`: the getter a dotted-path string stands for (`ensureFn`, index.js:145);
- `Contexts.EachRoot`: `context['$root'] || context`, index.js:152-158;
- `Contexts.WithinRoot`: the `$root` and `$parent` that `within` defines, index.js:166-169;
- `Rendering.RenderData` and `Rendering.Render`: `render`, index.js:118-142;
- `Rendering.Emit`: the closures `html` and the combinators return, index.js:61-87 and 144-198;
- `Rendering.Attributes`: the `mapKeys` pass over the attributes, index.js:63-82;
- `Rendering.Serialise`: one attribute's text, index.js:75-81;
- `Rendering.ClassValue`: `classRender`, index.js:200-223.

How the JavaScript values are modelled:

- The values a context holds and a getter returns are `Values.Data`. It has one constructor per JavaScript type, plus the two context objects that `each` and `within` build:
  - `Iteration` is `{entry, index, parent, $root}`;
  - `Shifted` is a copy of the getter's result, with non-enumerable `$root` and `$parent`.
- Arguments and content are `Values.Value`. A `Value` is one of:
  - plain data;
  - a deferred form, `Values.Func`: `Tag`, `Each`, `Within`, `Group`, `Safe`, `If`, or `PathGet` (the getter a dotted-path string stands for);
  - an object literal whose values may be further `Value`s;
  - an array literal whose elements may be further `Value`s (`Array`). An array of plain data alone is `Plain(Arr(…))`; `RenderingProperties.PlainArrayAgrees` shows the two forms render alike.

How the output is modelled:

- A call's output is `Rendering.Out(pushed, failure)`: the fragments pushed, and the error thrown after them, if any.
- `Rendering.Then` sequences two steps on one buffer.

The imperative layer is `Buffers.Buffer`:

- A class whose `fragments: seq<string>` field is the shared array.
- Its methods (`Render`, `RenderData`, `RenderSeq`, `Emit`, `EmitEach`) append to that field. Each one ensures `fragments == old(fragments) + Rendering.….pushed` and returns the same failure.
- `Buffers.WithBuffer` is `withBuffer`:
  - with no caller buffer (`null`), it allocates a fresh one and returns the joined text;
  - with a caller buffer, it appends to it and returns `''`.

## Model

| member | source | states |
|---|---|---|
| Escape.Entity | index.js:13-20 | each of `& < > " ' `` ` `` maps to its entity, which starts with `&` and is longer than one character; every other character maps to itself |
| Escape.EscapeAppend | index.js:24-28 | escaping works character by character, left to right: escaping `a + b` is escaping `a`, then `b` |
| Escape.EscapePlain | index.js:24-28 | text with none of the six characters is unchanged |
| Escape.EscapedIsInert | index.js:24-28 | escaped text contains none of `< > " '` or the backtick |
| Escape.UnescapeEntity | index.js:13-20 | each entity is read back as the character it replaced |
| Escape.UnescapeEscape | index.js:24-28 | nothing is lost: unescaping the escaped text gives back the original |
| Escape.EscapeTwice | index.js:24-28 | re-escaping escaped text escapes its `&` again (the function is not idempotent) |
| Witnesses.DoubleAmpersand | index.js:24-28 | `&&` becomes `&amp;&amp;`; replacements are not rescanned |
| Values.EscapeData | index.js:24-28 | `escape(null)` is `''`; a string is escaped as text |
| Values.ToText | index.js:27 | `String(v)` of a string is that string |
| Values.IndexedValues | index.js:52 | an array's own enumerable properties are its indices, as decimal text, with its elements, in index order |
| Values.ElementTexts | index.js:222 | `join` prints each element in order, `undefined` and `null` as nothing |
| Text.Split | index.js:31-32 | `split` always gives at least one piece |
| Text.JoinSplit | index.js:31-32 | joining the pieces of `split` with the separator gives back the text |
| Text.SplitJoin | index.js:31-32 | splitting joined pieces that hold no separator gives back the pieces |
| Text.SplitPiecesHaveNoSeparator | index.js:31-32 | no piece of `split` holds the separator |
| Text.IntToString | index.js:130 | a number is printed as `-` exactly when it is negative, followed by at least one decimal digit and nothing else, with no leading zero |
| Text.ParseIntToString | index.js:130 | the printed text is a decimal numeral that reads back as the number, so different numbers print differently |
| Text.ParseNatToString | index.js:130 | decimal printing of naturals reads back as the number |
| Text.NatToStringInjective | index.js:130 | different naturals print differently |
| Text.ConcatAppend | index.js:114 | joining two fragment lists one after the other is joining their concatenation |
| Descriptor.ParseShorthand | index.js:31-38 | `tag#id.c1.c2` is read back as tag `tag`, id `id` and fixed classes `c1 c2`, with no id or no classes when they are absent |
| Descriptor.ParseExtraHash | index.js:32 | only the first two `#` pieces count: `a#b#c` has id `b` |
| ElementBuilder.PutKeys | index.js:52 | assigning a key keeps the key order, and a new key goes last |
| ElementBuilder.PutFind | index.js:52 | assigning stores the value under the key; every other key keeps its value |
| ElementBuilder.PutUnique | index.js:52 | assigning never duplicates a key |
| ElementBuilder.PutAllSpec | index.js:52 | after copying an object's properties, the last property for a key wins, other keys keep their old value, and no key repeats |
| ElementBuilder.PutAllFind | index.js:52 | the value under a key after the copy is the last copied property for it, or the old value |
| ElementBuilder.PutAllUnique | index.js:52 | copying properties never duplicates a key |
| ElementBuilder.PutAllKeys | index.js:52 | after copying properties, the key order is the old keys followed by the copied keys that were new, each where it first occurs |
| ElementBuilder.NewKeysSpec | index.js:52 | the added keys are exactly the copied keys not already present, none twice |
| ElementBuilder.NewKeysOrder | index.js:52 | the added keys come in the order of their first occurrence among the copied properties |
| ElementBuilder.LastIndexOf | index.js:52 | the index is the last entry with that key |
| ElementBuilder.CollectKeepsError | index.js:40-57 | once an argument throws, later arguments are never looked at |
| ElementBuilder.Html | index.js:30-60 | the imperative argument loop builds the tag that `Build` describes, or throws its error |
| ElementBuilder.MergeKeys | index.js:52 | the `forEachKey` copy loop merges the entries in order |
| BuilderProperties.ClassifySpec | index.js:40-57 | one argument throws exactly when it is `true` or a number, naming its type; otherwise strings, functions and dates are appended to content and every object's properties are merged into the attributes |
| BuilderProperties.CollectSpec | index.js:40-57 | the loop throws exactly when some argument is refused, with the first refused argument's error; otherwise content is the content arguments in order and the attributes are all contributed properties merged in order |
| BuilderProperties.CollectRefusal | index.js:40-57 | the loop throws exactly when some argument is refused, with the first refused argument's error |
| BuilderProperties.CollectParts | index.js:40-57 | when the loop does not throw, content is the content arguments in order and the attributes are the merged properties |
| BuilderProperties.CollectedAttribute | index.js:37-52 | after the loop a key holds its last supplied value, or else the descriptor's id for `id`; no key repeats |
| BuilderProperties.FinishAttribute | index.js:59 | the class placeholder is added only when no argument set `class` and fixed classes exist; it keeps the keys unique |
| BuilderProperties.PutAllAppend | index.js:52 | merging two lists of properties in turn is merging their concatenation |
| BuilderProperties.FindHasKey | index.js:59 | a key is found exactly when the map holds it |
| BuilderProperties.BuildSpec | index.js:30-60 | `html` keeps the descriptor's tag and fixed classes and the content arguments in order; the value under any key is the last argument property with that key, or else the descriptor's id for `id`, or else the empty placeholder for `class` when fixed classes exist; no key repeats; the keys come out with `id` first when the descriptor has one, then the argument keys in the order they were first introduced, then the `class` placeholder when it is added |
| BuilderProperties.BuildKeys | index.js:37-59 | the key order of the finished attribute map: `id` first when the descriptor has one, then the argument keys in first-introduction order, then the `class` placeholder when it is added |
| BuilderProperties.BuildFails | index.js:40-57 | `html` throws exactly when an argument is `true` or a number |
| Contexts.EachPreservesRoot | index.js:152-158 | at any depth of `each`, the iteration context's `$root` is the outermost context and its `parent` the enclosing one |
| Contexts.WithinPreservesRoot | index.js:166-169 | at any depth of `within`, the shifted context's `$root` is the outermost context and its `$parent` the enclosing one |
| Contexts.EvalSingleKey | index.js:145 | a one-key path is a property lookup |
| Contexts.EvalTwoKeys | index.js:145 | `a.b` looks `b` up in what `a` gives |
| Contexts.WalkNullish | index.js:145 | nothing is found below `undefined` or `null` |
| RenderingProperties.ThenAssociative | index.js:84-86 | pushing steps onto one buffer groups either way |
| RenderingProperties.RenderAllAppend | index.js:85 | rendering two content lists in turn is rendering their concatenation; a throw in the first stops the second |
| RenderingProperties.GroupConcatenates | index.js:176-181 | `group(...xs, ...ys)` returns the text of `group(...xs)` followed by that of `group(...ys)` |
| RenderingProperties.RenderedOnce | index.js:114-124 | a nested tag or combinator pushes its output once; the `''` it returns adds nothing |
| RenderingProperties.TopLevelMatchesNested | index.js:108-116 | the text returned at top level is exactly what the nested call pushes, and both throw in the same cases |
| RenderingProperties.GetterRendersValue | index.js:124 | a function's result is rendered in its place |
| RenderingProperties.RendersNothing | index.js:119-141 | `undefined`, `null`, booleans and `''` push nothing; any other non-array value pushes one fragment or throws |
| RenderingProperties.StringEscaping | index.js:126-128 | a string is pushed escaped unless the flag is set, and the escaped fragment reads back as the string |
| RenderingProperties.NumbersPrintVerbatim | index.js:129-131 | a number is pushed as its decimal text; that text has no special character |
| RenderingProperties.ItemsAppend | index.js:137-139 | array elements render in order; a throw stops the rest |
| RenderingProperties.ArrayRendersItems | index.js:137-139 | an array of content, deferred forms included, renders its elements in order with the same context and flag; a throw stops the rest |
| RenderingProperties.PlainArrayAgrees | index.js:137-139 | an array of plain data renders the same whether its elements are held as data or as argument values |
| RenderingProperties.SafeDisablesEscaping | index.js:176-186 | `safe` renders any content exactly as with escaping switched off, whatever flag it is called with; `group` renders its content with the caller's flag |
| RenderingProperties.SafeStrings | index.js:176-186 | strings are pushed one fragment each, in order: as written under `safe`, escaped under `group` unless the caller's flag is set |
| RenderingProperties.TextsRendered | index.js:126-128 | non-empty strings as content push one fragment each, in order, escaped unless the flag is set |
| RenderingProperties.EachFalsyCollection | index.js:150 | `each` over a falsy collection renders nothing |
| RenderingProperties.EachItemsFromFront | index.js:152-158 | the `forEach` over elements equals the front-to-back fold of the iterations |
| RenderingProperties.EachInOrder | index.js:144-160 | `each` renders the content once per element, in index order, against `{entry, index, parent, $root}` |
| RenderingProperties.EachNeedsArray | index.js:152 | a truthy collection that is not an array makes `each` throw |
| RenderingProperties.WithinScope | index.js:162-174 | `within` renders against the getter's result: its own properties stay visible, `$root` is the outermost context, `$parent` the enclosing one |
| RenderingProperties.IfSelectsBranch | index.js:188-198 | `if` renders exactly the branch its condition's truthiness picks, and throws when the condition does |
| RenderingProperties.TagLayout | index.js:84-86 | a tag pushes its opening tag, its content and its closing tag in that order; a throw in the content leaves the opening tag pushed and no closing tag; with no attribute rendered the opening tag is `<name>`, and with some it is `<name`, one space, the attributes joined by spaces, `>` |
| RenderingProperties.OpenTagSpacing | index.js:84 | the opening tag has one space after the name exactly when the attribute text is not empty |
| RenderingProperties.SerialisedNonEmpty | index.js:75-81 | a rendered attribute starts with its name, so it is never empty; a non-boolean one is at least its name and `=""` |
| RenderingProperties.AttributesNonEmpty | index.js:63-82 | no rendered attribute is empty text, so a tag with some attribute rendered has a non-empty attribute string |
| RenderingProperties.AttributesAppend | index.js:63-82 | attributes render in map order and a throw in one part is the whole map's throw |
| RenderingProperties.BooleanAttribute | index.js:77-78 | a boolean attribute (one of the seven names of `BOOLEAN_ATTRIBUTES`, index.js:3-11) is its bare name when its value is truthy, and is absent otherwise |
| RenderingProperties.PlainAttribute | index.js:75-81 | any other attribute is absent exactly when its value is `undefined`; otherwise it is `name="value"`, and an escaped value cannot close the quotes or open a tag |
| RenderingProperties.UndefinedAttributeOmitted | index.js:69-80 | an attribute whose function returns `undefined` is left out |
| RenderingProperties.DataTogglesMembership | index.js:210-218 | a plain object's class names are exactly its keys with truthy values |
| RenderingProperties.TogglesMembership | index.js:210-218 | a toggle map's class names are exactly its keys whose value, or whose function's result, is truthy |
| RenderingProperties.ItemTogglesAsEntries | index.js:210-218 | an array as a class toggle object is toggled through its index-keyed properties |
| RenderingProperties.ItemTogglesMembership | index.js:210-218 | the class names of an array of toggles are exactly the indices whose element is on |
| RenderingProperties.ClassString | index.js:200-222 | the fixed classes come first; an empty class string adds nothing, and a non-empty one follows after one space |
| RenderingProperties.ClassToggles | index.js:200-222 | with a toggle object the tokens are the fixed classes, then the truthy names in key order |
| Witnesses.PlainTag | index.js:30-87 | `h('div')()` is `<div></div>` |
| Witnesses.TagWithId | index.js:30-87 | `h('div#test')()` is `<div id="test"></div>` |
| Witnesses.TagWithClasses | index.js:38-67 | `h('div.class1.class2')()` is `<div class="class1 class2"></div>` |
| Witnesses.TagWithIdAndClasses | index.js:30-87 | `h('tag#id.c1.c2')()` is `<tag id="id" class="c1 c2"></tag>` |
| Witnesses.IdOverride | index.js:37-52 | `h('div#old', { id: 'new' })()` is `<div id="new"></div>` |
| Witnesses.StringContent | index.js:44-47 | `h('div', 'test1', 'test2')()` is `<div>test1test2</div>` |
| Witnesses.SafeInsideTag | index.js:183-186 | `h('div', h.safe('&&'))()` is `<div>&&</div>` |
| Witnesses.EscapedInsideTag | index.js:124-128 | `h('div', h('span', '&&'))()` is `<div><span>&amp;&amp;</span></div>` |
| Witnesses.ClassProperty | test/html.js:19-21 | `h('div.class1', { class: 'class2' })()` is `<div class="class1 class2"></div>` |
| Witnesses.ClassToggleOn | test/html.js:23-26 | a class toggle object whose toggle is on, given as `true` or as a getter, adds its name after the fixed classes |
| Witnesses.AttributeHash | test/html.js:28-30 | `h('div', { test: 'bla' })()` is `<div test="bla"></div>`, and `{ text: '&&' }` is escaped (test/html.js:55) |
| Witnesses.GetterAttribute | test/html.js:32-34 | an attribute given as a getter is rendered with the getter's value |
| Witnesses.GetterContent | test/html.js:41 | `h('div', G('test'))({ test: 'bla' })` is `<div>bla</div>` |
| Witnesses.NestedGetter | test/html.js:42 | a getter inside a nested tag renders its value, escaped, once (also test/html.js:51) |
| Witnesses.NestedSafe | test/html.js:62 | inside `safe`, a nested tag and its getter push their text unescaped |
| Witnesses.EachOverTwo | test/html.js:76-83 | `each` over a two-element collection renders the content once per element, in order, against each element's iteration context |
| Witnesses.GroupOfTags | test/html.js:109-114 | `h.group(h('div', 'test1'), h('div', 'test2'))()` is `<div>test1</div><div>test2</div>` |
| Witnesses.IfOfTags | test/html.js:118-121 | `h.if(G('bla'), h('div'), h('span'))` is `<div></div>` when `bla` is truthy and `<span></span>` otherwise |
| Witnesses.UndefinedClassToken | index.js:204-222 | a class function that returns `undefined`, next to fixed classes, leaves a trailing space |
| Buffers.Buffer.Push | index.js:84 | `buffer.push` appends one fragment |
| Buffers.Buffer.Render | index.js:118-142 | `render` appends exactly what `Rendering.Render` says, and throws its error |
| Buffers.Buffer.RenderData | index.js:119-141 | rendering plain data appends what `Rendering.RenderData` says |
| Buffers.Buffer.RenderItems | index.js:137-139 | the `for…of` loop over an array appends what `Rendering.RenderItems` says, stopping at the first throw |
| Buffers.Buffer.RenderSeq | index.js:171-179 | the content loop appends what `Rendering.RenderAll` says |
| Buffers.Buffer.Emit | index.js:61-198 | each deferred form's body appends what `Rendering.Emit` says |
| Buffers.Buffer.EmitTag | index.js:61-87 | the tag closure appends what `Rendering.Emit` says for a tag |
| Buffers.Buffer.EmitEach | index.js:144-160 | the body of `each` appends what `Rendering.Emit` says for `each` |
| Buffers.Buffer.EachLoop | index.js:152-158 | the `forEach` loop of `each` appends what `Rendering.EachItems` says for all the elements |
| Buffers.WithBuffer | index.js:108-116 | at top level it returns the joined text `Rendering.TopLevel` gives; nested, it appends to the caller's buffer and returns `''` (a getter's value, for a path getter) |
| Buffers.Invoke | index.js:104-106 | a function called with the context alone returns `Rendering.Call` |
| Buffers.RenderAttributes | index.js:63-82 | the `mapKeys` pass renders, filters and joins the attributes as `Rendering.Attributes` says |
| Buffers.ResolveAttribute | index.js:64-73 | one attribute resolves to the value `Rendering.AttributeValue` gives |
| Buffers.ClassRender | index.js:200-223 | the token-collecting `classRender` returns `Rendering.ClassValue` |
| Buffers.ToggleNames | index.js:211-218 | the `forEachKey` pass over a toggle map collects the names `Rendering.Toggles` gives |
| Buffers.ToggleValue | index.js:213-216 | one toggle is on as `Rendering.ToggleOn` says |
| Buffers.ItemToggleNames | index.js:211-218 | the same pass over an array literal collects the names `Rendering.ItemToggles` gives |
| Buffers.DataToggleNames | index.js:211-218 | the same pass over a plain object collects `Rendering.DataToggles` |

Some lemmas in the table follow straight from the definitions they are about and need no proof steps of their own. They record the property the source relies on:
- `Contexts.EachPreservesRoot` and `Contexts.WithinPreservesRoot`;
- `BuilderProperties.ClassifySpec`;
- `Escape.EscapeTwice` and `Witnesses.DoubleAmpersand`;
- from `RenderingProperties`: `ThenAssociative`, `RenderedOnce`, `GetterRendersValue`, `RendersNothing`, `EachFalsyCollection`, `EachNeedsArray`, `IfSelectsBranch`, `OpenTagSpacing`, `SafeDisablesEscaping`, `SerialisedNonEmpty` and `WithinScope`.

## Left out

- JavaScript closures as content: arbitrary functions are replaced by the closed set `Values.Func`. It covers what `html`, the combinators and a dotted-path getter return. Context data holds no functions. This is why rendering terminates by structure.
- The `@snooty/utils` helpers (index.js:1) are foreign code:
  - `ensureFn` of a string is modelled as `PathGet`, a dotted-path lookup over the context; on other non-function values it is not modelled.
  - `when` is modelled as an opaque predicate on the context (`Condition.Matcher`).
  - `mapKeys` and `forEachKey` are modelled as in-order passes over the own enumerable properties.
  - `forEachKey` over `null` and non-objects is taken to visit nothing.
- `JSON.stringify(renderComplexObject(…))` (index.js:71-72, 90-102) is the parameter `json: Stringify`, an uninterpreted function that gives the text of an object-valued attribute.
- Dates carry two opaque strings: the `toJSON` text and the `String` text. The reflective `constructor.name === 'Date'` test is the `Date` constructor.
- Numbers are integers. `Number.prototype.toString` of fractions, of exponent forms (1e21 and above) and of `NaN`/`Infinity` is not modelled.
- Property lookup covers own properties of objects, arrays and the two context objects. Inherited properties, `length`, string indexing in paths, and the runtime's reordering of integer-like keys are not modelled.
- Thrown JavaScript `TypeError`s are modelled as `Values.Error` values:
  - `for…of` over a plain object gives `NotIterable`;
  - `forEach` on a non-array gives `NotAnArray`;
  - reading `$root` of `undefined`/`null` gives `NullContext`.
  - The message text is only indicative.
- `within` gives the shifted context's `$root`/`$parent` precedence over same-named properties copied from the getter's result, as `Object.defineProperty` does. An own `$root` getter on that result is not modelled.
- The empty string stands for the source's `undefined` id and fixed classes. Both values are falsy, and the code only looks at their truthiness.
- `Escape.Unescape` is a reading-back function. It exists only to state that escaping loses nothing; the source has no such function.
- `test/html.js` is not modelled. It only supplies the cases in `Witnesses`, which are stated for any tag, id and text rather than for the tests' literal strings. Every case of it has a witness except two:
  - "should preserve parent" (test/html.js:85-92) is covered only by the general `RenderingProperties.EachInOrder`, whose iteration context has the enclosing context as `parent`;
  - "should preserve root context on all levels" (test/html.js:94-105) is covered only by `Contexts.EachPreservesRoot` and `RenderingProperties.EachInOrder`.
- An array passed to `html` as an argument is an object to the code: its elements are merged into the attributes under the keys `"0"`, `"1"`, … (index.js:52). The model does the same (`Values.IndexedValues`).

## Surprises in the code

The model follows the code in each case:

- **Empty class value.** One might expect an empty class value to omit the attribute. The code renders `class=""`: `classRender` returns `''`, which is not `undefined` (index.js:80, 222). `Rendering.Serialise` drops only `Undefined`.
- **Class function returning `undefined`.** With fixed classes, the class becomes `"fixed "`, because `[fixed, undefined].join(' ')` keeps the separator (`Witnesses.UndefinedClassToken`).
- **`null` attribute values.** With the `escaped` flag set, a `null` attribute value renders as `name="null"`; without the flag, `escape(null)` makes it `name=""` (index.js:75).
- **`true` as content.** `render(true)` pushes nothing: a boolean falls through the `switch` (index.js:122-141), although only `false` is tested for explicitly at index.js:120.
