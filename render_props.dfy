/** Properties of rendering: how output composes, what a nested call pushes
    compared with a top-level one, what `each`, `safe`, `if`, the attribute
    serialiser and `classRender` produce. */
module RenderingProperties {
  import opened Wrappers
  import opened Text
  import opened Values
  import opened Contexts
  import opened Rendering
  import Escape

  // ---------------------------------------------------------------------
  // Composition

  /** Running steps on one buffer groups either way. */
  lemma ThenAssociative(a: Out, b: Out, c: Out)
    ensures Then(Then(a, b), c) == Then(a, Then(b, c))
  {
    if a.failure.None? && b.failure.None? {
      assert (a.pushed + b.pushed) + c.pushed == a.pushed + (b.pushed + c.pushed);
    }
  }

  lemma ThenDone(a: Out)
    ensures Then(Done([]), a) == a
    ensures Then(a, Done([])) == a
  {
    assert [] + a.pushed == a.pushed;
    assert a.pushed + [] == a.pushed;
  }

  /** Rendering two lists one after the other is rendering their
      concatenation: what was pushed for the first stays, and a throw in the
      first stops the second. */
  lemma {:induction false} RenderAllAppend(xs: seq<Value>, ys: seq<Value>, ctx: Data, escaped: bool, json: Stringify)
    ensures RenderAll(xs + ys, ctx, escaped, json) ==
      Then(RenderAll(xs, ctx, escaped, json), RenderAll(ys, ctx, escaped, json))
    decreases |ys|
  {
    if |ys| == 0 {
      assert xs + ys == xs;
      ThenDone(RenderAll(xs, ctx, escaped, json));
    } else {
      var n := |ys| - 1;
      assert (xs + ys)[..|xs + ys| - 1] == xs + ys[..n];
      assert (xs + ys)[|xs + ys| - 1] == ys[n];
      RenderAllAppend(xs, ys[..n], ctx, escaped, json);
      ThenAssociative(RenderAll(xs, ctx, escaped, json), RenderAll(ys[..n], ctx, escaped, json),
                      Render(ys[n], ctx, escaped, json));
    }
  }

  /** `html.group(...xs, ...ys)` called at top level returns the text of
      `html.group(...xs)` followed by that of `html.group(...ys)`. */
  lemma GroupConcatenates(xs: seq<Value>, ys: seq<Value>, ctx: Data, json: Stringify, a: string, b: string)
    requires TopLevel(Group(xs), ctx, false, json) == Ok(Str(a))
    requires TopLevel(Group(ys), ctx, false, json) == Ok(Str(b))
    ensures TopLevel(Group(xs + ys), ctx, false, json) == Ok(Str(a + b))
  {
    RenderAllAppend(xs, ys, ctx, false, json);
    ConcatAppend(RenderAll(xs, ctx, false, json).pushed, RenderAll(ys, ctx, false, json).pushed);
  }

  // ---------------------------------------------------------------------
  // Nested and top-level calls

  /** A tag or combinator rendered inside another pushes its fragments once:
      the `''` it returns to `render` adds nothing. */
  lemma RenderedOnce(f: Func, ctx: Data, escaped: bool, json: Stringify)
    requires !f.PathGet?
    ensures Render(Func(f), ctx, escaped, json) == Emit(f, ctx, escaped, json)
  {
    ThenDone(Emit(f, ctx, escaped, json));
  }

  /** The text a function returns at top level is exactly what it pushes
      when rendered inside another, and it throws in the same cases. */
  lemma TopLevelMatchesNested(f: Func, ctx: Data, escaped: bool, json: Stringify)
    requires !f.PathGet?
    ensures TopLevel(f, ctx, escaped, json).Ok? <==> Render(Func(f), ctx, escaped, json).failure.None?
    ensures TopLevel(f, ctx, escaped, json).Err? ==>
      Render(Func(f), ctx, escaped, json).failure == Some(TopLevel(f, ctx, escaped, json).error)
    ensures TopLevel(f, ctx, escaped, json).Ok? ==>
      TopLevel(f, ctx, escaped, json).value == Str(Concat(Render(Func(f), ctx, escaped, json).pushed))
  {
    RenderedOnce(f, ctx, escaped, json);
  }

  /** A path getter pushes nothing itself; the value it returns is rendered
      in its place. */
  lemma GetterRendersValue(path: string, ctx: Data, escaped: bool, json: Stringify)
    ensures Render(Func(PathGet(path)), ctx, escaped, json) == RenderData(Eval(path, ctx), escaped)
  {
    ThenDone(RenderData(Eval(path, ctx), escaped));
  }

  // ---------------------------------------------------------------------
  // Rendering data

  /** The values `render` skips: `undefined`, `null`, booleans, `''`; any
      other non-array value pushes one fragment or throws. */
  lemma RendersNothing(d: Data, escaped: bool)
    requires !d.Arr?
    ensures RenderData(d, escaped) == Done([]) <==> (d.Undefined? || d.Null? || d.Bool? || d == Str(""))
    ensures RenderData(d, escaped).failure.None? ==> |RenderData(d, escaped).pushed| <= 1
  {
  }

  /** A string is escaped unless the flag says it is already safe, and the
      escaped fragment reads back as the string. */
  lemma StringEscaping(s: string, escaped: bool)
    requires s != ""
    ensures RenderData(Str(s), escaped).pushed == [if escaped then s else Escape.EscapeText(s)]
    ensures !escaped ==> Escape.Unescape(Concat(RenderData(Str(s), escaped).pushed)) == s
  {
    var t := if escaped then s else Escape.EscapeText(s);
    assert [t][..0] == [];
    assert Concat([t]) == Concat([]) + t == t;
    Escape.UnescapeEscape(s);
  }

  /** A number is printed as its decimal text and never escaped: the text
      has no special character, so escaping would not change it anyway. */
  lemma NumbersPrintVerbatim(n: int, escaped: bool)
    ensures RenderData(Num(n), escaped) == Done([IntToString(n)])
    ensures Escape.EscapeText(IntToString(n)) == IntToString(n)
  {
    var s := IntToString(n);
    forall i | 0 <= i < |s| ensures !Escape.IsSpecial(s[i]) {
      assert s[i] == '-' || IsDigit(s[i]);
    }
    Escape.EscapePlain(s);
  }

  /** An array renders its elements in order, and throws at the first plain
      object among them. */
  lemma {:induction false} ItemsAppend(xs: seq<Data>, ys: seq<Data>, escaped: bool)
    ensures RenderItems(xs + ys, escaped) == Then(RenderItems(xs, escaped), RenderItems(ys, escaped))
    decreases |ys|
  {
    if |ys| == 0 {
      assert xs + ys == xs;
      ThenDone(RenderItems(xs, escaped));
    } else {
      var n := |ys| - 1;
      assert (xs + ys)[..|xs + ys| - 1] == xs + ys[..n];
      assert (xs + ys)[|xs + ys| - 1] == ys[n];
      ItemsAppend(xs, ys[..n], escaped);
      ThenAssociative(RenderItems(xs, escaped), RenderItems(ys[..n], escaped), RenderData(ys[n], escaped));
    }
  }

  // ---------------------------------------------------------------------
  // Arrays of deferred forms

  /** An array renders its elements in order against the same context and
      flag; a throw stops the rest. */
  lemma ArrayRendersItems(xs: seq<Value>, ys: seq<Value>, ctx: Data, escaped: bool, json: Stringify)
    ensures Render(Array(xs), ctx, escaped, json) == RenderAll(xs, ctx, escaped, json)
    ensures Render(Array(xs + ys), ctx, escaped, json)
         == Then(Render(Array(xs), ctx, escaped, json), Render(Array(ys), ctx, escaped, json))
  {
    RenderAllAppend(xs, ys, ctx, escaped, json);
  }

  /** Each element of plain data, as an argument value. */
  function Plains(ds: seq<Data>): (r: seq<Value>)
    ensures |r| == |ds|
    ensures forall k :: 0 <= k < |ds| ==> r[k] == Plain(ds[k])
  {
    seq(|ds|, k requires 0 <= k < |ds| => Plain(ds[k]))
  }

  /** An array of plain data renders the same whichever of the two forms
      holds it. */
  lemma {:induction false} PlainArrayAgrees(ds: seq<Data>, ctx: Data, escaped: bool, json: Stringify)
    ensures Render(Array(Plains(ds)), ctx, escaped, json) == Render(Plain(Arr(ds)), ctx, escaped, json)
    ensures RenderAll(Plains(ds), ctx, escaped, json) == RenderItems(ds, escaped)
  {
    if |ds| > 0 {
      var n := |ds| - 1;
      PlainArrayAgrees(ds[..n], ctx, escaped, json);
      assert Plains(ds)[..n] == Plains(ds[..n]);
      assert Render(Plains(ds)[n], ctx, escaped, json) == RenderData(ds[n], escaped);
    }
    assert Render(Plain(Arr(ds)), ctx, escaped, json) == RenderItems(ds, escaped);
  }

  // ---------------------------------------------------------------------
  // safe

  /** `html.safe` renders its content with escaping switched off, whatever
      flag it is itself called with; `html.group` passes the caller's flag
      on. */
  lemma SafeDisablesEscaping(c: seq<Value>, ctx: Data, escaped: bool, json: Stringify)
    ensures Emit(Safe(c), ctx, escaped, json) == RenderAll(c, ctx, true, json)
    ensures Emit(Safe(c), ctx, escaped, json) == Emit(Safe(c), ctx, !escaped, json)
    ensures Emit(Group(c), ctx, escaped, json) == RenderAll(c, ctx, escaped, json)
  {
  }

  /** Content made of the strings `ss`. */
  function Texts(ss: seq<string>): (r: seq<Value>)
    ensures |r| == |ss|
    ensures forall k :: 0 <= k < |ss| ==> r[k] == Plain(Str(ss[k]))
  {
    seq(|ss|, k requires 0 <= k < |ss| => Plain(Str(ss[k])))
  }

  function EscapeEach(ss: seq<string>): (r: seq<string>)
    ensures |r| == |ss|
    ensures forall k :: 0 <= k < |ss| ==> r[k] == Escape.EscapeText(ss[k])
  {
    seq(|ss|, k requires 0 <= k < |ss| => Escape.EscapeText(ss[k]))
  }

  /** Non-empty strings are pushed one fragment each, in order: as written
      under `safe`, escaped under `group` unless the caller's flag is set. */
  lemma SafeStrings(ss: seq<string>, ctx: Data, escaped: bool, json: Stringify)
    requires forall k :: 0 <= k < |ss| ==> ss[k] != ""
    ensures Emit(Safe(Texts(ss)), ctx, escaped, json) == Done(ss)
    ensures Emit(Group(Texts(ss)), ctx, escaped, json) == Done(if escaped then ss else EscapeEach(ss))
  {
    TextsRendered(ss, ctx, true, json);
    TextsRendered(ss, ctx, escaped, json);
    assert Pushed(ss, true) == ss;
  }

  lemma {:induction false} TextsRendered(ss: seq<string>, ctx: Data, escaped: bool, json: Stringify)
    requires forall k :: 0 <= k < |ss| ==> ss[k] != ""
    ensures RenderAll(Texts(ss), ctx, escaped, json) == Done(Pushed(ss, escaped))
  {
    if |ss| > 0 {
      var n := |ss| - 1;
      TextsRendered(ss[..n], ctx, escaped, json);
      TextRendered(ss[n], ctx, escaped, json);
      TextsLast(ss, escaped);
    }
  }

  /** The fragments non-empty strings push. */
  function Pushed(ss: seq<string>, escaped: bool): seq<string>
  {
    if escaped then ss else EscapeEach(ss)
  }

  lemma TextsLast(ss: seq<string>, escaped: bool)
    requires |ss| > 0
    ensures Texts(ss)[..|ss| - 1] == Texts(ss[..|ss| - 1])
    ensures Texts(ss)[|ss| - 1] == Plain(Str(ss[|ss| - 1]))
    ensures Pushed(ss[..|ss| - 1], escaped) + [if escaped then ss[|ss| - 1] else Escape.EscapeText(ss[|ss| - 1])]
         == Pushed(ss, escaped)
  {
    var n := |ss| - 1;
    assert Texts(ss)[..n] == Texts(ss[..n]);
    if escaped {
      assert ss[..n] + [ss[n]] == ss;
    } else {
      assert EscapeEach(ss[..n]) + [Escape.EscapeText(ss[n])] == EscapeEach(ss);
    }
  }

  lemma TextRendered(s: string, ctx: Data, escaped: bool, json: Stringify)
    requires s != ""
    ensures Render(Plain(Str(s)), ctx, escaped, json) == Done([if escaped then s else Escape.EscapeText(s)])
  {
  }

  /** One non-empty string as content. */
  lemma OneString(s: string, ctx: Data, escaped: bool, json: Stringify)
    requires s != ""
    ensures RenderAll([Plain(Str(s))], ctx, escaped, json) == Done([if escaped then s else Escape.EscapeText(s)])
  {
    TextsRendered([s], ctx, escaped, json);
    assert Texts([s]) == [Plain(Str(s))];
    assert Pushed([s], escaped) == [if escaped then s else Escape.EscapeText(s)];
    assert EscapeEach([s]) == [Escape.EscapeText(s)];
  }

  // ---------------------------------------------------------------------
  // each

  /** A falsy collection renders nothing. */
  lemma EachFalsyCollection(getter: Func, content: seq<Value>, ctx: Data, escaped: bool, json: Stringify)
    requires Call(getter, ctx, json).Ok? && !Truthy(Call(getter, ctx, json).value)
    ensures Emit(Each(getter, content), ctx, escaped, json) == Done([])
  {
  }

  /** The iterations from element `k` on, folded from the front: element `k`
      is rendered against `{entry, index, parent, $root}` before the rest. */
  function EachFrom(items: seq<Data>, k: nat, content: seq<Value>, ctx: Data, root: Data, escaped: bool, json: Stringify): Out
    requires k <= |items|
    decreases |items| - k
  {
    if k == |items| then Done([])
    else Then(RenderAll(content, Iteration(items[k], k, ctx, root), escaped, json),
              EachFrom(items, k + 1, content, ctx, root, escaped, json))
  }

  lemma {:induction false} EachItemsFromFront(items: seq<Data>, n: nat, content: seq<Value>, ctx: Data, escaped: bool, json: Stringify)
    requires n <= |items| && EachRoot(ctx).Ok?
    ensures Then(EachItems(items, n, content, ctx, escaped, json),
                 EachFrom(items, n, content, ctx, EachRoot(ctx).value, escaped, json))
         == EachFrom(items, 0, content, ctx, EachRoot(ctx).value, escaped, json)
  {
    var root := EachRoot(ctx).value;
    if n == 0 {
      ThenDone(EachFrom(items, 0, content, ctx, root, escaped, json));
    } else {
      EachItemsFromFront(items, n - 1, content, ctx, escaped, json);
      ThenAssociative(EachItems(items, n - 1, content, ctx, escaped, json),
                      RenderAll(content, Iteration(items[n - 1], n - 1, ctx, root), escaped, json),
                      EachFrom(items, n, content, ctx, root, escaped, json));
    }
  }

  /** `html.each` over an array, in a context that is not `undefined` or
      `null`, renders the content once per element in index order, each time
      against an iteration context whose `entry`, `index` and `parent` are
      the element, its position and the enclosing context, and whose `$root`
      is the enclosing `$root` (or the enclosing context itself). */
  lemma EachInOrder(getter: Func, content: seq<Value>, ctx: Data, escaped: bool, json: Stringify, items: seq<Data>)
    requires Call(getter, ctx, json) == Ok(Arr(items))
    requires !Nullish(ctx)
    ensures Emit(Each(getter, content), ctx, escaped, json)
         == EachFrom(items, 0, content, ctx, EachRoot(ctx).value, escaped, json)
  {
    EachItemsFromFront(items, |items|, content, ctx, escaped, json);
    ThenDone(EachItems(items, |items|, content, ctx, escaped, json));
  }

  /** A truthy collection that is not an array makes `each` throw. */
  lemma EachNeedsArray(getter: Func, content: seq<Value>, ctx: Data, escaped: bool, json: Stringify)
    requires Call(getter, ctx, json).Ok?
    requires Truthy(Call(getter, ctx, json).value) && !Call(getter, ctx, json).value.Arr?
    ensures Emit(Each(getter, content), ctx, escaped, json) == Fail(NotAnArray)
  {
  }

  // ---------------------------------------------------------------------
  // if

  /** `html.if` renders exactly one branch, chosen by the condition's
      truthiness, and nothing when the condition throws. */
  lemma IfSelectsBranch(cond: Condition, ifTrue: Value, ifFalse: Value, ctx: Data, escaped: bool, json: Stringify)
    ensures Test(cond, ctx, json).Ok? ==>
      Emit(If(cond, ifTrue, ifFalse), ctx, escaped, json)
        == Render(if Test(cond, ctx, json).value then ifTrue else ifFalse, ctx, escaped, json)
    ensures Test(cond, ctx, json).Err? ==>
      Emit(If(cond, ifTrue, ifFalse), ctx, escaped, json) == Fail(Test(cond, ctx, json).error)
    ensures cond.Getter? && Call(cond.g, ctx, json).Ok? ==>
      Test(cond, ctx, json) == Ok(Truthy(Call(cond.g, ctx, json).value))
  {
  }

  // ---------------------------------------------------------------------
  // Tags and attributes

  /** A tag pushes its opening tag, its content and its closing tag, in
      that order; a throw in the content leaves the opening tag pushed and
      the closing one out. A space follows the tag name exactly when some
      attribute is rendered. */
  lemma TagLayout(name: string, attrs: seq<Entry>, fixed: string, content: seq<Value>, ctx: Data, escaped: bool, json: Stringify)
    requires Attributes(attrs, fixed, ctx, escaped, json).Ok?
    ensures var open := OpenTag(name, JoinWith(Attributes(attrs, fixed, ctx, escaped, json).value, " "));
      var body := RenderAll(content, ctx, escaped, json);
      Emit(Tag(name, attrs, fixed, content), ctx, escaped, json)
        == if body.failure.None? then Done([open] + body.pushed + [CloseTag(name)])
           else Out([open] + body.pushed, body.failure)
    ensures Attributes(attrs, fixed, ctx, escaped, json).value == [] ==>
      Emit(Tag(name, attrs, fixed, content), ctx, escaped, json).pushed[0] == "<" + name + ">"
    ensures Attributes(attrs, fixed, ctx, escaped, json).value != [] ==>
      Emit(Tag(name, attrs, fixed, content), ctx, escaped, json).pushed[0]
        == "<" + name + " " + JoinWith(Attributes(attrs, fixed, ctx, escaped, json).value, " ") + ">"
  {
    var rendered := Attributes(attrs, fixed, ctx, escaped, json).value;
    if rendered != [] {
      AttributesNonEmpty(attrs, fixed, ctx, escaped, json);
      JoinNonEmpty(rendered, " ");
    }
  }

  lemma OpenTagSpacing(name: string, attributes: string)
    ensures attributes == "" ==> OpenTag(name, attributes) == "<" + name + ">"
    ensures attributes != "" ==> OpenTag(name, attributes) == "<" + name + " " + attributes + ">"
  {
  }

  /** A rendered attribute is never empty text: it is a name, or a name
      followed by `="…"`. */
  lemma SerialisedNonEmpty(name: string, rendered: Data, escaped: bool)
    ensures Serialise(name, rendered, escaped).Some? ==>
      |Serialise(name, rendered, escaped).value| >= |name| && Serialise(name, rendered, escaped).value[..|name|] == name
    ensures name != "" && Serialise(name, rendered, escaped).Some? ==> Serialise(name, rendered, escaped).value != ""
    ensures name !in BooleanAttributes && Serialise(name, rendered, escaped).Some? ==>
      |Serialise(name, rendered, escaped).value| >= |name| + 3
  {
  }

  lemma {:induction false} AttributesNonEmpty(attrs: seq<Entry>, fixed: string, ctx: Data, escaped: bool, json: Stringify)
    requires Attributes(attrs, fixed, ctx, escaped, json).Ok?
    ensures forall k :: 0 <= k < |Attributes(attrs, fixed, ctx, escaped, json).value| ==>
      Attributes(attrs, fixed, ctx, escaped, json).value[k] != ""
  {
    if |attrs| > 0 {
      var n := |attrs| - 1;
      AttributesNonEmpty(attrs[..n], fixed, ctx, escaped, json);
      var rendered := AttributeValue(attrs[n], fixed, ctx, json).value;
      SerialisedNonEmpty(attrs[n].key, rendered, escaped);
    }
  }

  /** Joining pieces whose first is not empty gives text that is not empty. */
  lemma JoinNonEmpty(pieces: seq<string>, sep: string)
    requires |pieces| > 0 && pieces[0] != ""
    ensures JoinWith(pieces, sep) != ""
  {
    if |pieces| > 1 {
      assert JoinWith(pieces, sep) == pieces[0] + sep + JoinWith(pieces[1..], sep);
      assert |JoinWith(pieces, sep)| >= |pieces[0]|;
    }
  }

  /** A boolean attribute is its bare name when its value is truthy and is
      left out otherwise. */
  lemma BooleanAttribute(name: string, v: Value, fixed: string, ctx: Data, escaped: bool, json: Stringify)
    requires name in BooleanAttributes
    requires AttributeValue(Entry(name, v), fixed, ctx, json).Ok?
    ensures Attributes([Entry(name, v)], fixed, ctx, escaped, json)
      == Ok(if Truthy(AttributeValue(Entry(name, v), fixed, ctx, json).value) then [name] else [])
  {
    assert [Entry(name, v)][..0] == [];
    assert [] + [name] == [name];
  }

  /** Any other attribute is left out exactly when its value is
      `undefined`; otherwise it is `name="value"`, and an escaped value can
      never close the quotes or open a tag. */
  lemma PlainAttribute(name: string, rendered: Data, escaped: bool)
    requires name !in BooleanAttributes
    ensures Serialise(name, rendered, escaped).None? <==> rendered == Undefined
    ensures rendered != Undefined && !escaped ==>
      exists t :: Serialise(name, rendered, escaped) == Some(name + "=\"" + t + "\"") &&
        forall i :: 0 <= i < |t| ==> t[i] !in "<>\"'`"
  {
    if rendered != Undefined && !escaped {
      var t := EscapeData(rendered);
      if !rendered.Null? {
        Escape.EscapedIsInert(ToText(rendered));
      }
      assert Serialise(name, rendered, escaped) == Some(name + "=\"" + t + "\"");
    }
  }

  /** An attribute whose function returns `undefined` is left out. */
  lemma UndefinedAttributeOmitted(name: string, path: string, fixed: string, ctx: Data, escaped: bool, json: Stringify)
    requires name != "class"
    requires Eval(path, ctx) == Undefined
    ensures Attributes([Entry(name, Func(PathGet(path)))], fixed, ctx, escaped, json) == Ok([])
  {
    assert [Entry(name, Func(PathGet(path)))][..0] == [];
    assert Call(PathGet(path), ctx, json) == Ok(Undefined);
  }

  // ---------------------------------------------------------------------
  // classRender

  /** The names of a plain object's truthy toggles are exactly its keys
      with truthy values, in key order. */
  lemma {:induction false} DataTogglesMembership(fields: seq<Field>, key: string)
    ensures Str(key) in DataToggles(fields) <==>
      exists i :: 0 <= i < |fields| && fields[i].key == key && Truthy(fields[i].value)
  {
    if |fields| > 0 {
      var n := |fields| - 1;
      DataTogglesMembership(fields[..n], key);
      if exists i :: 0 <= i < |fields| && fields[i].key == key && Truthy(fields[i].value) {
        var i :| 0 <= i < |fields| && fields[i].key == key && Truthy(fields[i].value);
        if i < n {
          assert fields[..n][i] == fields[i];
        }
      }
      if exists i :: 0 <= i < n && fields[..n][i].key == key && Truthy(fields[..n][i].value) {
        var i :| 0 <= i < n && fields[..n][i].key == key && Truthy(fields[..n][i].value);
        assert fields[i] == fields[..n][i];
      }
    }
  }

  /** The fixed classes come first; an empty class string adds nothing and a
      non-empty one is appended after a single space. */
  lemma ClassString(fixed: string, s: string, ctx: Data, json: Stringify)
    ensures ClassValue(fixed, Plain(Str("")), ctx, json) == Ok(fixed)
    ensures s != "" ==>
      ClassValue(fixed, Plain(Str(s)), ctx, json) == Ok(if fixed != "" then fixed + " " + s else s)
  {
    if s != "" && fixed != "" {
      assert [Str(fixed)] + [Str(s)] == [Str(fixed), Str(s)];
      var texts := ElementTexts([Str(fixed), Str(s)]);
      assert texts == [fixed, s];
      assert texts[1..] == [s];
      assert JoinWith(texts, " ") == fixed + " " + JoinWith([s], " ");
      assert ClassTokens(fixed, Plain(Str(s)), ctx, json) == Ok([Str(fixed), Str(s)]);
    }
  }

  /** With a toggle object the class is the fixed classes, then the names of
      the truthy toggles, in key order. */
  lemma ClassToggles(fixed: string, fields: seq<Field>, ctx: Data, json: Stringify)
    ensures ClassTokens(fixed, Plain(Obj(fields)), ctx, json)
      == Ok((if fixed != "" then [Str(fixed)] else []) + DataToggles(fields))
    ensures forall key :: Str(key) in ClassTokens(fixed, Plain(Obj(fields)), ctx, json).value <==>
      (fixed != "" && key == fixed) ||
      exists i :: 0 <= i < |fields| && fields[i].key == key && Truthy(fields[i].value)
  {
    forall key ensures Str(key) in DataToggles(fields) <==>
      exists i :: 0 <= i < |fields| && fields[i].key == key && Truthy(fields[i].value) {
      DataTogglesMembership(fields, key);
    }
  }

  /** With a toggle map the names are exactly the keys whose toggle is on,
      a function toggle being called with the context. */
  lemma {:induction false} TogglesMembership(entries: seq<Entry>, ctx: Data, json: Stringify, key: string)
    requires Toggles(entries, ctx, json).Ok?
    ensures Str(key) in Toggles(entries, ctx, json).value <==>
      exists i :: 0 <= i < |entries| && entries[i].key == key && ToggleOn(entries[i].value, ctx, json) == Ok(true)
  {
    if |entries| > 0 {
      var n := |entries| - 1;
      var front, last := entries[..n], entries[n];
      TogglesMembership(front, ctx, json, key);
      var names := Toggles(front, ctx, json).value;
      var on := ToggleOn(last.value, ctx, json).value;
      assert Toggles(entries, ctx, json).value == names + (if on then [Str(last.key)] else []);
      assert (exists i :: 0 <= i < |entries| && entries[i].key == key && ToggleOn(entries[i].value, ctx, json) == Ok(true))
        <==> (exists i :: 0 <= i < n && front[i].key == key && ToggleOn(front[i].value, ctx, json) == Ok(true))
             || (last.key == key && on)
      by {
        assert forall i :: 0 <= i < n ==> front[i] == entries[i];
      }
    }
  }


  /** The toggles of an array literal are those of its index-keyed entries. */
  lemma {:induction false} ItemTogglesAsEntries(items: seq<Value>, ctx: Data, json: Stringify)
    ensures ItemToggles(items, ctx, json) == Toggles(IndexedValues(items), ctx, json)
  {
    if |items| > 0 {
      var n := |items| - 1;
      ItemTogglesAsEntries(items[..n], ctx, json);
      assert IndexedValues(items)[..n] == IndexedValues(items[..n]);
    }
  }

  /** With an array literal of toggles, the names are exactly the indices
      whose toggle is on. */
  lemma ItemTogglesMembership(items: seq<Value>, ctx: Data, json: Stringify, key: string)
    requires ItemToggles(items, ctx, json).Ok?
    ensures Str(key) in ItemToggles(items, ctx, json).value <==>
      exists i :: 0 <= i < |items| && NatToString(i) == key && ToggleOn(items[i], ctx, json) == Ok(true)
  {
    ItemTogglesAsEntries(items, ctx, json);
    var es := IndexedValues(items);
    TogglesMembership(es, ctx, json, key);
    assert forall i :: 0 <= i < |items| ==> es[i].key == NatToString(i) && es[i].value == items[i];
  }

  /** The attributes render in the order of the map: rendering two parts of
      the map one after the other is rendering the whole, and a throw in the
      first part is the whole map's throw. */
  lemma {:induction false} AttributesAppend(a: seq<Entry>, b: seq<Entry>, fixed: string, ctx: Data, escaped: bool, json: Stringify)
    ensures Attributes(a, fixed, ctx, escaped, json).Err? ==>
      Attributes(a + b, fixed, ctx, escaped, json) == Attributes(a, fixed, ctx, escaped, json)
    ensures Attributes(a, fixed, ctx, escaped, json).Ok? && Attributes(b, fixed, ctx, escaped, json).Ok? ==>
      Attributes(a + b, fixed, ctx, escaped, json)
        == Ok(Attributes(a, fixed, ctx, escaped, json).value + Attributes(b, fixed, ctx, escaped, json).value)
    decreases |b|
  {
    if |b| == 0 {
      assert a + b == a;
      if Attributes(a, fixed, ctx, escaped, json).Ok? {
        assert Attributes(a, fixed, ctx, escaped, json).value + [] == Attributes(a, fixed, ctx, escaped, json).value;
      }
    } else {
      var n := |b| - 1;
      assert (a + b)[..|a + b| - 1] == a + b[..n];
      assert (a + b)[|a + b| - 1] == b[n];
      AttributesAppend(a, b[..n], fixed, ctx, escaped, json);
      if Attributes(a, fixed, ctx, escaped, json).Ok? && Attributes(b, fixed, ctx, escaped, json).Ok? {
        var x := Attributes(a, fixed, ctx, escaped, json).value;
        var y := Attributes(b[..n], fixed, ctx, escaped, json).value;
        match AttributeValue(b[n], fixed, ctx, json)
        case Ok(r) =>
          var text := Serialise(b[n].key, r, escaped);
          if text.Some? {
            assert x + (y + [text.value]) == (x + y) + [text.value];
          }
      }
    }
  }

  // ---------------------------------------------------------------------
  // within

  /** Below a caller's context, `html.within` renders its content against
      the getter's result, whose own properties stay visible, with `$root`
      the caller's context and `$parent` the enclosing one. */
  lemma WithinScope(getter: Func, content: seq<Value>, top: Data, ctx: Data, escaped: bool, json: Stringify, scope: Data)
    requires IsTopContext(top) && DerivedFrom(ctx, top)
    requires Call(getter, ctx, json) == Ok(scope)
    ensures Emit(Within(getter, content), ctx, escaped, json)
         == RenderAll(content, Shifted(OwnEntries(scope), ctx, top), escaped, json)
    ensures Lookup(Shifted(OwnEntries(scope), ctx, top), "$root") == top
    ensures Lookup(Shifted(OwnEntries(scope), ctx, top), "$parent") == ctx
    ensures forall key :: key != "$root" && key != "$parent" ==>
      Lookup(Shifted(OwnEntries(scope), ctx, top), key) == Get(OwnEntries(scope), key)
  {
    WithinPreservesRoot(top, ctx, scope);
  }
}
