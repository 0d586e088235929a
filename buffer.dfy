/** The imperative renderer: one output buffer, passed by reference down the
    whole call tree and appended to, and `withBuffer`, which decides whether
    a call is the top-level one (fresh buffer, joined text returned) or a
    nested one (caller's buffer, `''` returned). Every method is proved to
    push exactly what the functions of `Rendering` describe. */
module Buffers {
  import opened Wrappers
  import opened Text
  import opened Values
  import opened Contexts
  import opened Rendering
  import Escape
  import RenderingProperties

  class Buffer {
    /** The fragments pushed so far, in order. */
    var fragments: seq<string>

    constructor ()
      ensures fragments == []
    {
      fragments := [];
    }

    /** `buffer.join('')`. */
    function Joined(): string
      reads this
    {
      Concat(fragments)
    }

    /** `buffer.push(s)`. */
    method Push(s: string)
      modifies this
      ensures fragments == old(fragments) + [s]
    {
      fragments := fragments + [s];
    }

    /** `render(entity, context, buffer, escaped)`. */
    method Render(v: Value, ctx: Data, escaped: bool, json: Stringify) returns (failure: Option<Error>)
      modifies this
      ensures fragments == old(fragments) + Rendering.Render(v, ctx, escaped, json).pushed
      ensures failure == Rendering.Render(v, ctx, escaped, json).failure
      decreases v, 0
    {
      match v {
        case Plain(d) =>
          failure := RenderData(d, escaped);
        case Dict(_) =>
          failure := Some(NotIterable);
        case Array(items) =>
          failure := RenderSeq(items, ctx, escaped, json);
        case Func(f) =>
          var returned := WithBuffer(f, ctx, this, escaped, json);
          if returned.Err? {
            failure := Some(returned.error);
          } else {
            failure := RenderData(returned.value, escaped);
          }
      }
    }

    /** `render` of a value with no functions in it. */
    method RenderData(d: Data, escaped: bool) returns (failure: Option<Error>)
      modifies this
      ensures fragments == old(fragments) + Rendering.RenderData(d, escaped).pushed
      ensures failure == Rendering.RenderData(d, escaped).failure
      decreases d
    {
      failure := None;
      match d {
        case Undefined =>
        case Null =>
        case Bool(_) =>
        case Str(s) =>
          if s != "" {
            Push(if escaped then s else Escape.EscapeText(s));
          }
        case Num(n) =>
          Push(IntToString(n));
        case Date(json, _) =>
          Push(json);
        case Arr(items) =>
          failure := RenderItems(items, escaped);
        case _ =>
          failure := Some(NotIterable);
      }
    }

    /** `for (const obj of entity) render(obj, …)` over an array. */
    method RenderItems(items: seq<Data>, escaped: bool) returns (failure: Option<Error>)
      modifies this
      ensures fragments == old(fragments) + Rendering.RenderItems(items, escaped).pushed
      ensures failure == Rendering.RenderItems(items, escaped).failure
      decreases items
    {
      failure := None;
      var i := 0;
      while i < |items| && failure.None?
        invariant 0 <= i <= |items|
        invariant fragments == old(fragments) + Rendering.RenderItems(items[..i], escaped).pushed
        invariant failure == Rendering.RenderItems(items[..i], escaped).failure
      {
        ItemsStep(items, i, escaped);
        failure := RenderData(items[i], escaped);
        i := i + 1;
      }
      if failure.Some? {
        ItemsKeepFailure(items, i, escaped);
      } else {
        assert items[..i] == items;
      }
    }

    /** Renders each value in order (`content.forEach(…)`, and `for…of` over
      an array, such as the content list `each` and `safe` pass to
      `render`). */
    method RenderSeq(vs: seq<Value>, ctx: Data, escaped: bool, json: Stringify) returns (failure: Option<Error>)
      modifies this
      ensures fragments == old(fragments) + RenderAll(vs, ctx, escaped, json).pushed
      ensures failure == RenderAll(vs, ctx, escaped, json).failure
      decreases vs, 0
    {
      failure := None;
      var i := 0;
      while i < |vs| && failure.None?
        invariant 0 <= i <= |vs|
        invariant fragments == old(fragments) + RenderAll(vs[..i], ctx, escaped, json).pushed
        invariant failure == RenderAll(vs[..i], ctx, escaped, json).failure
      {
        AllStep(vs, i, ctx, escaped, json);
        failure := Render(vs[i], ctx, escaped, json);
        i := i + 1;
      }
      if failure.Some? {
        AllKeepFailure(vs, i, ctx, escaped, json);
      } else {
        assert vs[..i] == vs;
      }
    }

    /** The body a deferred form runs with this buffer: the tag closure and
      the bodies of `each`, `within`, `group`, `safe` and `if`. */
    method Emit(f: Func, ctx: Data, escaped: bool, json: Stringify) returns (failure: Option<Error>)
      modifies this
      ensures fragments == old(fragments) + Rendering.Emit(f, ctx, escaped, json).pushed
      ensures failure == Rendering.Emit(f, ctx, escaped, json).failure
      decreases f, 0
    {
      match f {
        case Tag(name, attrs, fixed, content) =>
          failure := EmitTag(name, attrs, fixed, content, ctx, escaped, json);
        case Each(getter, content) =>
          failure := EmitEach(getter, content, ctx, escaped, json);
        case Within(getter, content) =>
          var root := WithinRoot(ctx);
          if root.Err? {
            return Some(root.error);
          }
          var scope := Invoke(getter, ctx, json);
          if scope.Err? {
            return Some(scope.error);
          }
          failure := RenderSeq(content, ShiftedScope(ctx, root.value, scope.value), escaped, json);
        case Group(content) =>
          failure := RenderSeq(content, ctx, escaped, json);
        case Safe(content) =>
          failure := RenderSeq(content, ctx, true, json);
        case If(condition, ifTrue, ifFalse) =>
          var result: bool;
          match condition {
            case Getter(g) =>
              var d := Invoke(g, ctx, json);
              if d.Err? {
                return Some(d.error);
              }
              result := Truthy(d.value);
            case Matcher(test) =>
              result := test(ctx);
          }
          failure := Render(if result then ifTrue else ifFalse, ctx, escaped, json);
        case PathGet(_) =>
          failure := None;
      }
    }

    /** The body of `html.each`. */
    method EmitEach(getter: Func, content: seq<Value>, ctx: Data, escaped: bool, json: Stringify)
      returns (failure: Option<Error>)
      modifies this
      ensures fragments == old(fragments) + Rendering.Emit(Each(getter, content), ctx, escaped, json).pushed
      ensures failure == Rendering.Emit(Each(getter, content), ctx, escaped, json).failure
      decreases Each(getter, content), 0, 0
    {
      var collection := Invoke(getter, ctx, json);
      if collection.Err? {
        return Some(collection.error);
      }
      var c := collection.value;
      if !Truthy(c) {
        return None;
      }
      if !c.Arr? {
        return Some(NotAnArray);
      }
      failure := EachLoop(c.items, content, ctx, escaped, json);
    }

    /** `collection.forEach((entry, index) => …)` in `each`: each element's
      content is rendered against its own iteration context. */
    method EachLoop(items: seq<Data>, content: seq<Value>, ctx: Data, escaped: bool, json: Stringify)
      returns (failure: Option<Error>)
      modifies this
      ensures fragments == old(fragments) + EachItems(items, |items|, content, ctx, escaped, json).pushed
      ensures failure == EachItems(items, |items|, content, ctx, escaped, json).failure
      decreases content, 1
    {
      failure := None;
      var index := 0;
      while index < |items| && failure.None?
        invariant 0 <= index <= |items|
        invariant fragments == old(fragments) + EachItems(items, index, content, ctx, escaped, json).pushed
        invariant failure == EachItems(items, index, content, ctx, escaped, json).failure
      {
        EachStep(items, index, content, ctx, escaped, json);
        var scope := EachScope(ctx, items[index], index);
        if scope.Err? {
          failure := Some(scope.error);
        } else {
          failure := RenderSeq(content, scope.value, escaped, json);
        }
        index := index + 1;
      }
      if failure.Some? {
        EachKeepsFailure(items, index, content, ctx, escaped, json);
      }
    }

    /** The tag closure: the opening tag with the rendered attributes, the
      content in order, then the closing tag. */
    method EmitTag(name: string, attrs: seq<Entry>, fixed: string, content: seq<Value>,
                   ctx: Data, escaped: bool, json: Stringify)
      returns (failure: Option<Error>)
      modifies this
      ensures fragments == old(fragments) + Rendering.Emit(Tag(name, attrs, fixed, content), ctx, escaped, json).pushed
      ensures failure == Rendering.Emit(Tag(name, attrs, fixed, content), ctx, escaped, json).failure
      decreases Tag(name, attrs, fixed, content), 0, 0
    {
      var rendered := RenderAttributes(attrs, fixed, ctx, escaped, json);
      if rendered.Err? {
        return Some(rendered.error);
      }
      TagPushes(name, attrs, fixed, content, ctx, escaped, json);
      Push(OpenTag(name, rendered.value));
      failure := RenderSeq(content, ctx, escaped, json);
      if failure.None? {
        Push(CloseTag(name));
      }
    }
  }

  /** `withBuffer(fn)(context, callerBuffer, escaped)`: with no caller buffer
      a fresh one is filled and its joined text returned; with one, the
      fragments go onto it and `''` is returned. A path getter pushes nothing
      and returns its value either way. */
  method WithBuffer(f: Func, ctx: Data, caller: Buffer?, escaped: bool, json: Stringify)
    returns (returned: Result<Data, Error>)
    modifies caller
    ensures caller == null ==> returned == TopLevel(f, ctx, escaped, json)
    ensures caller != null ==>
      caller.fragments == old(caller.fragments) + Rendering.Emit(f, ctx, escaped, json).pushed
    ensures caller != null ==>
      returned == (if Rendering.Emit(f, ctx, escaped, json).failure.Some?
                   then Err(Rendering.Emit(f, ctx, escaped, json).failure.value)
                   else Ok(NestedReturn(f, ctx)))
    decreases f, 1
  {
    if f.PathGet? {
      return Ok(Eval(f.path, ctx));
    }
    var buffer: Buffer;
    if caller == null {
      buffer := new Buffer();
    } else {
      buffer := caller;
    }
    var failure := buffer.Emit(f, ctx, escaped, json);
    if failure.Some? {
      return Err(failure.value);
    }
    if caller == null {
      assert buffer.fragments == Rendering.Emit(f, ctx, escaped, json).pushed;
      returned := Ok(Str(buffer.Joined()));
    } else {
      returned := Ok(Str(""));
    }
  }

  /** A function called with the context alone. */
  method Invoke(f: Func, ctx: Data, json: Stringify) returns (returned: Result<Data, Error>)
    ensures returned == Rendering.Call(f, ctx, json)
    decreases f, 2
  {
    returned := WithBuffer(f, ctx, null, false, json);
  }

  /** The `mapKeys` pass over the attribute map, filtered and joined with
      single spaces. */
  method RenderAttributes(attrs: seq<Entry>, fixed: string, ctx: Data, escaped: bool, json: Stringify)
    returns (r: Result<string, Error>)
    ensures Attributes(attrs, fixed, ctx, escaped, json).Err? ==>
      r == Err(Attributes(attrs, fixed, ctx, escaped, json).error)
    ensures Attributes(attrs, fixed, ctx, escaped, json).Ok? ==>
      r == Ok(JoinWith(Attributes(attrs, fixed, ctx, escaped, json).value, " "))
    decreases attrs, 0
  {
    var acc: Result<seq<string>, Error> := Ok([]);
    var i := 0;
    while i < |attrs| && acc.Ok?
      invariant 0 <= i <= |attrs|
      invariant acc == Attributes(attrs[..i], fixed, ctx, escaped, json)
    {
      AttributesStep(attrs, i, acc.value, fixed, ctx, escaped, json);
      var rendered := ResolveAttribute(attrs[i], fixed, ctx, json);
      if rendered.Err? {
        acc := Err(rendered.error);
      } else {
        var text := Serialise(attrs[i].key, rendered.value, escaped);
        acc := Ok(if text.Some? then acc.value + [text.value] else acc.value);
      }
      i := i + 1;
    }
    if acc.Err? {
      AttributesKeepError(attrs, i, fixed, ctx, escaped, json);
      r := Err(acc.error);
    } else {
      assert attrs[..i] == attrs;
      r := Ok(JoinWith(acc.value, " "));
    }
  }

  /** The value one attribute renders to: `classRender` for `class`,
      otherwise `renderWith`, with an object replaced by its JSON text. */
  method ResolveAttribute(e: Entry, fixed: string, ctx: Data, json: Stringify)
    returns (r: Result<Data, Error>)
    ensures r == AttributeValue(e, fixed, ctx, json)
    decreases e, 0
  {
    if e.key == "class" {
      var cls := ClassRender(fixed, e.value, ctx, json);
      if cls.Err? {
        return Err(cls.error);
      }
      return Ok(Str(cls.value));
    }
    match e.value {
      case Plain(d) =>
        r := Ok(Jsonify(d, ctx, json));
      case Func(g) =>
        var d := Invoke(g, ctx, json);
        if d.Err? {
          return Err(d.error);
        }
        r := Ok(Jsonify(d.value, ctx, json));
      case Dict(_) =>
        r := Ok(Str(json(e.value, ctx)));
      case Array(_) =>
        r := Ok(Str(json(e.value, ctx)));
    }
  }

  /** `classRender(fixed, value, context)`: collects the tokens in a local
      list and joins them. */
  method ClassRender(fixed: string, v: Value, ctx: Data, json: Stringify) returns (r: Result<string, Error>)
    ensures r == ClassValue(fixed, v, ctx, json)
    decreases v, 1
  {
    var classes: seq<Data> := if fixed != "" then [Str(fixed)] else [];
    match v {
      case Func(f) =>
        var d := Invoke(f, ctx, json);
        if d.Err? {
          return Err(d.error);
        }
        classes := classes + [d.value];
      case Dict(entries) =>
        var names := ToggleNames(entries, ctx, json);
        if names.Err? {
          return Err(names.error);
        }
        classes := classes + names.value;
      case Array(items) =>
        var names := ItemToggleNames(items, ctx, json);
        if names.Err? {
          return Err(names.error);
        }
        classes := classes + names.value;
      case Plain(d) =>
        if d.Str? {
          if d.s != "" {
            classes := classes + [d];
          }
        } else if IsObject(d) {
          var names := DataToggleNames(OwnEntries(d));
          classes := classes + names;
        }
    }
    r := Ok(if |classes| > 0 then JoinWith(ElementTexts(classes), " ") else "");
  }

  /** The `forEachKey` pass of `classRender` over an object literal. */
  method ToggleNames(entries: seq<Entry>, ctx: Data, json: Stringify) returns (r: Result<seq<Data>, Error>)
    ensures r == Toggles(entries, ctx, json)
    decreases entries, 1
  {
    r := Ok([]);
    var i := 0;
    while i < |entries| && r.Ok?
      invariant 0 <= i <= |entries|
      invariant r == Toggles(entries[..i], ctx, json)
    {
      ToggleStep(entries, i, r.value, ctx, json);
      var on := ToggleValue(entries[i].value, ctx, json);
      if on.Err? {
        r := Err(on.error);
      } else {
        r := Ok(if on.value then r.value + [Str(entries[i].key)] else r.value);
      }
      i := i + 1;
    }
    if r.Err? {
      TogglesKeepError(entries, i, ctx, json);
    } else {
      assert entries[..i] == entries;
    }
  }

  /** The same pass over an array literal: the keys are the indices. */
  method ItemToggleNames(items: seq<Value>, ctx: Data, json: Stringify) returns (r: Result<seq<Data>, Error>)
    ensures r == ItemToggles(items, ctx, json)
    decreases items, 1
  {
    r := Ok([]);
    var i := 0;
    while i < |items| && r.Ok?
      invariant 0 <= i <= |items|
      invariant r == ItemToggles(items[..i], ctx, json)
    {
      ItemToggleStep(items, i, r.value, ctx, json);
      var on := ToggleValue(items[i], ctx, json);
      if on.Err? {
        r := Err(on.error);
      } else {
        r := Ok(if on.value then r.value + [Str(NatToString(i))] else r.value);
      }
      i := i + 1;
    }
    if r.Err? {
      ItemTogglesKeepError(items, i, ctx, json);
    } else {
      assert items[..i] == items;
    }
  }

  /** Whether one toggle is on: the value's truthiness, or that of what its
      function returns. */
  method ToggleValue(v: Value, ctx: Data, json: Stringify) returns (r: Result<bool, Error>)
    ensures r == ToggleOn(v, ctx, json)
    decreases v, 0
  {
    match v {
      case Func(g) =>
        var d := Invoke(g, ctx, json);
        if d.Err? {
          return Err(d.error);
        }
        r := Ok(Truthy(d.value));
      case _ =>
        r := Ok(IsTruthy(v));
    }
  }

  /** The `forEachKey` pass of `classRender` over a plain object. */
  method DataToggleNames(fields: seq<Field>) returns (names: seq<Data>)
    ensures names == DataToggles(fields)
  {
    names := [];
    var i := 0;
    while i < |fields|
      invariant 0 <= i <= |fields|
      invariant names == DataToggles(fields[..i])
    {
      assert fields[..i + 1][..i] == fields[..i];
      if Truthy(fields[i].value) {
        names := names + [Str(fields[i].key)];
      }
      i := i + 1;
    }
    assert fields[..i] == fields;
  }

  // ---------------------------------------------------------------------
  // One loop iteration, stated on the specification functions.

  lemma TagPushes(name: string, attrs: seq<Entry>, fixed: string, content: seq<Value>, ctx: Data, escaped: bool, json: Stringify)
    ensures Attributes(attrs, fixed, ctx, escaped, json).Err? ==>
      Emit(Tag(name, attrs, fixed, content), ctx, escaped, json) == Fail(Attributes(attrs, fixed, ctx, escaped, json).error)
    ensures Attributes(attrs, fixed, ctx, escaped, json).Ok? ==>
      var open := OpenTag(name, JoinWith(Attributes(attrs, fixed, ctx, escaped, json).value, " "));
      var body := RenderAll(content, ctx, escaped, json);
      Emit(Tag(name, attrs, fixed, content), ctx, escaped, json)
        == Out([open] + body.pushed + (if body.failure.None? then [CloseTag(name)] else []), body.failure)
  {
    var body := RenderAll(content, ctx, escaped, json);
    assert body.pushed + [] == body.pushed;
  }

  lemma ItemsStep(items: seq<Data>, i: nat, escaped: bool)
    requires i < |items| && RenderItems(items[..i], escaped).failure.None?
    ensures RenderItems(items[..i + 1], escaped)
      == Out(RenderItems(items[..i], escaped).pushed + RenderData(items[i], escaped).pushed,
             RenderData(items[i], escaped).failure)
  {
    assert items[..i + 1][..i] == items[..i];
  }

  lemma AllStep(vs: seq<Value>, i: nat, ctx: Data, escaped: bool, json: Stringify)
    requires i < |vs| && RenderAll(vs[..i], ctx, escaped, json).failure.None?
    ensures RenderAll(vs[..i + 1], ctx, escaped, json)
      == Out(RenderAll(vs[..i], ctx, escaped, json).pushed + Render(vs[i], ctx, escaped, json).pushed,
             Render(vs[i], ctx, escaped, json).failure)
  {
    assert vs[..i + 1][..i] == vs[..i];
  }

  lemma EachStep(items: seq<Data>, n: nat, content: seq<Value>, ctx: Data, escaped: bool, json: Stringify)
    requires n < |items| && EachItems(items, n, content, ctx, escaped, json).failure.None?
    ensures EachScope(ctx, items[n], n).Err? ==>
      EachItems(items, n + 1, content, ctx, escaped, json)
        == Out(EachItems(items, n, content, ctx, escaped, json).pushed, Some(EachScope(ctx, items[n], n).error))
    ensures EachScope(ctx, items[n], n).Ok? ==>
      var body := RenderAll(content, EachScope(ctx, items[n], n).value, escaped, json);
      EachItems(items, n + 1, content, ctx, escaped, json)
        == Out(EachItems(items, n, content, ctx, escaped, json).pushed + body.pushed, body.failure)
  {
    var front := EachItems(items, n, content, ctx, escaped, json).pushed;
    assert front + [] == front;
  }

  lemma AttributesStep(attrs: seq<Entry>, i: nat, parts: seq<string>, fixed: string, ctx: Data, escaped: bool, json: Stringify)
    requires i < |attrs| && Attributes(attrs[..i], fixed, ctx, escaped, json) == Ok(parts)
    ensures AttributeValue(attrs[i], fixed, ctx, json).Err? ==>
      Attributes(attrs[..i + 1], fixed, ctx, escaped, json) == Err(AttributeValue(attrs[i], fixed, ctx, json).error)
    ensures AttributeValue(attrs[i], fixed, ctx, json).Ok? ==>
      var text := Serialise(attrs[i].key, AttributeValue(attrs[i], fixed, ctx, json).value, escaped);
      Attributes(attrs[..i + 1], fixed, ctx, escaped, json) == Ok(if text.Some? then parts + [text.value] else parts)
  {
    assert attrs[..i + 1][..i] == attrs[..i];
  }

  // ---------------------------------------------------------------------
  // A throw ends the loop it happens in: these lemmas carry a failure at
  // position n to the whole sequence.

  lemma {:induction false} ItemsKeepFailure(items: seq<Data>, n: nat, escaped: bool)
    requires 0 < n <= |items|
    requires RenderItems(items[..n], escaped).failure.Some?
    ensures RenderItems(items, escaped) == RenderItems(items[..n], escaped)
  {
    if n < |items| {
      var m := |items| - 1;
      assert items[..m][..n] == items[..n];
      ItemsKeepFailure(items[..m], n, escaped);
    } else {
      assert items[..n] == items;
    }
  }

  lemma {:induction false} AllKeepFailure(vs: seq<Value>, n: nat, ctx: Data, escaped: bool, json: Stringify)
    requires 0 < n <= |vs|
    requires RenderAll(vs[..n], ctx, escaped, json).failure.Some?
    ensures RenderAll(vs, ctx, escaped, json) == RenderAll(vs[..n], ctx, escaped, json)
  {
    if n < |vs| {
      var m := |vs| - 1;
      assert vs[..m][..n] == vs[..n];
      AllKeepFailure(vs[..m], n, ctx, escaped, json);
    } else {
      assert vs[..n] == vs;
    }
  }

  lemma {:induction false} EachKeepsFailure(items: seq<Data>, n: nat, content: seq<Value>, ctx: Data, escaped: bool, json: Stringify)
    requires 0 < n <= |items|
    requires EachItems(items, n, content, ctx, escaped, json).failure.Some?
    ensures EachItems(items, |items|, content, ctx, escaped, json) == EachItems(items, n, content, ctx, escaped, json)
    decreases |items| - n
  {
    if n < |items| {
      EachKeepsFailure(items, n + 1, content, ctx, escaped, json);
    }
  }

  lemma {:induction false} AttributesKeepError(attrs: seq<Entry>, n: nat, fixed: string, ctx: Data, escaped: bool, json: Stringify)
    requires 0 < n <= |attrs|
    requires Attributes(attrs[..n], fixed, ctx, escaped, json).Err?
    ensures Attributes(attrs, fixed, ctx, escaped, json) == Attributes(attrs[..n], fixed, ctx, escaped, json)
  {
    if n < |attrs| {
      var m := |attrs| - 1;
      assert attrs[..m][..n] == attrs[..n];
      AttributesKeepError(attrs[..m], n, fixed, ctx, escaped, json);
    } else {
      assert attrs[..n] == attrs;
    }
  }

  lemma ToggleStep(entries: seq<Entry>, i: nat, names: seq<Data>, ctx: Data, json: Stringify)
    requires i < |entries| && Toggles(entries[..i], ctx, json) == Ok(names)
    ensures ToggleOn(entries[i].value, ctx, json).Err? ==>
      Toggles(entries[..i + 1], ctx, json) == Err(ToggleOn(entries[i].value, ctx, json).error)
    ensures ToggleOn(entries[i].value, ctx, json).Ok? ==>
      Toggles(entries[..i + 1], ctx, json)
        == Ok(if ToggleOn(entries[i].value, ctx, json).value then names + [Str(entries[i].key)] else names)
  {
    assert entries[..i + 1][..i] == entries[..i];
    assert names + [] == names;
  }

  lemma ItemToggleStep(items: seq<Value>, i: nat, names: seq<Data>, ctx: Data, json: Stringify)
    requires i < |items| && ItemToggles(items[..i], ctx, json) == Ok(names)
    ensures ToggleOn(items[i], ctx, json).Err? ==>
      ItemToggles(items[..i + 1], ctx, json) == Err(ToggleOn(items[i], ctx, json).error)
    ensures ToggleOn(items[i], ctx, json).Ok? ==>
      ItemToggles(items[..i + 1], ctx, json)
        == Ok(if ToggleOn(items[i], ctx, json).value then names + [Str(NatToString(i))] else names)
  {
    assert items[..i + 1][..i] == items[..i];
    assert names + [] == names;
  }

  lemma {:induction false} ItemTogglesKeepError(items: seq<Value>, n: nat, ctx: Data, json: Stringify)
    requires 0 < n <= |items|
    requires ItemToggles(items[..n], ctx, json).Err?
    ensures ItemToggles(items, ctx, json) == ItemToggles(items[..n], ctx, json)
  {
    if n < |items| {
      var m := |items| - 1;
      assert items[..m][..n] == items[..n];
      ItemTogglesKeepError(items[..m], n, ctx, json);
    } else {
      assert items[..n] == items;
    }
  }

  lemma {:induction false} TogglesKeepError(entries: seq<Entry>, n: nat, ctx: Data, json: Stringify)
    requires 0 < n <= |entries|
    requires Toggles(entries[..n], ctx, json).Err?
    ensures Toggles(entries, ctx, json) == Toggles(entries[..n], ctx, json)
  {
    if n < |entries| {
      var m := |entries| - 1;
      assert entries[..m][..n] == entries[..n];
      TogglesKeepError(entries[..m], n, ctx, json);
    } else {
      assert entries[..n] == entries;
    }
  }
}
