/** The cases the repository's tests check, stated for any tag name, id,
    class list and text rather than for the tests' particular strings. */
module Witnesses {
  import opened Wrappers
  import opened Text
  import opened Values
  import opened Contexts
  import opened Rendering
  import opened ElementBuilder
  import Escape
  import Descriptor
  import RenderingProperties

  /** `escape('&&')` is `&amp;&amp;`: each ampersand is replaced once and
      the entities are not scanned again. */
  lemma DoubleAmpersand()
    ensures Escape.EscapeText("&&") == "&amp;&amp;"
    ensures Escape.EscapeText(Escape.EscapeText("&&")) == "&amp;amp;&amp;amp;"
  {
    AmpersandPair();
    EntityEscapedAgain();
  }

  lemma EntityEscapedAgain()
    ensures Escape.EscapeText("&amp;&amp;") == "&amp;amp;&amp;amp;"
  {
    var x, y := "&amp;", "&amp;amp;";
    Escape.EscapeTwice();
    Escape.EscapeAppend(x, x);
    assert x + x == "&amp;&amp;";
    assert y + y == "&amp;amp;&amp;amp;";
  }

  lemma AmpersandPair()
    ensures Escape.EscapeText("&&") == "&amp;&amp;"
  {
    assert "&&" == "&" + "&";
    Escape.EscapeAppend("&", "&");
    assert Escape.EscapeText("&") == "&amp;";
  }

  /** One fragment joins to itself. */
  lemma ConcatOne(a: string)
    ensures Concat([a]) == a
  {
    assert [a][..0] == [];
  }

  /** What a tag pushes when none of its steps throws, joined. */
  lemma TagText(name: string, attrs: seq<Entry>, fixed: string, content: seq<Value>, ctx: Data, json: Stringify, rendered: seq<string>)
    requires Attributes(attrs, fixed, ctx, false, json) == Ok(rendered)
    requires RenderAll(content, ctx, false, json).failure.None?
    ensures TopLevel(Tag(name, attrs, fixed, content), ctx, false, json)
      == Ok(Str(OpenTag(name, JoinWith(rendered, " ")) + Concat(RenderAll(content, ctx, false, json).pushed) + CloseTag(name)))
  {
    var open := OpenTag(name, JoinWith(rendered, " "));
    var body := RenderAll(content, ctx, false, json).pushed;
    ConcatOne(open);
    ConcatAppend([open], body);
    ConcatAppend([open] + body, [CloseTag(name)]);
    ConcatOne(CloseTag(name));
  }

  /** One attribute with a string value. */
  lemma OneStringAttribute(name: string, value: string, fixed: string, ctx: Data, json: Stringify)
    requires name != "class" && name !in BooleanAttributes
    ensures Attributes([Entry(name, Plain(Str(value)))], fixed, ctx, false, json)
      == Ok([name + "=\"" + Escape.EscapeText(value) + "\""])
  {
    var attrs := [Entry(name, Plain(Str(value)))];
    assert attrs[..0] == [];
    assert AttributeValue(attrs[0], fixed, ctx, json) == Ok(Str(value));
    var text := name + "=\"" + Escape.EscapeText(value) + "\"";
    assert Serialise(name, Str(value), false) == Some(text);
    assert [] + [text] == [text];
  }

  /** A tag whose only attribute is a string id, and no content. */
  lemma IdTagText(tag: string, id: string, ctx: Data, json: Stringify)
    ensures TopLevel(Tag(tag, [Entry("id", Plain(Str(id)))], "", []), ctx, false, json)
      == Ok(Str("<" + tag + " id=\"" + Escape.EscapeText(id) + "\"></" + tag + ">"))
  {
    var text := "id" + "=\"" + Escape.EscapeText(id) + "\"";
    OneStringAttribute("id", id, "", ctx, json);
    TagText(tag, [Entry("id", Plain(Str(id)))], "", [], ctx, json, [text]);
    EmptyTagText(tag, "id", text, Escape.EscapeText(id), ctx, json);
    Spelled(tag, "id", Escape.EscapeText(id));
  }

  /** The text of a tag with one rendered attribute and no content. */
  lemma EmptyTagText(tag: string, name: string, text: string, v: string, ctx: Data, json: Stringify)
    requires text == name + "=\"" + v + "\""
    ensures OpenTag(tag, JoinWith([text], " ")) + Concat(RenderAll([], ctx, false, json).pushed) + CloseTag(tag)
         == "<" + tag + " " + name + "=\"" + v + "\"></" + tag + ">"
  {
    assert JoinWith([text], " ") == text;
    assert Concat(RenderAll([], ctx, false, json).pushed) == "";
  }

  lemma Spelled(tag: string, name: string, v: string)
    requires name == "id" || name == "class"
    ensures name == "id" ==>
      ("<" + tag + " " + name + "=\"" + v + "\"></" + tag + ">" == "<" + tag + " id=\"" + v + "\"></" + tag + ">")
    ensures name == "class" ==>
      ("<" + tag + " " + name + "=\"" + v + "\"></" + tag + ">" == "<" + tag + " class=\"" + v + "\"></" + tag + ">")
  {
  }

  /** `h('div')()` is `<div></div>`. */
  lemma PlainTag(tag: string, ctx: Data, json: Stringify)
    requires NoChar(tag, '.') && NoChar(tag, '#')
    ensures Build(tag, []) == Ok(Tag(tag, [], "", []))
    ensures TopLevel(Build(tag, []).value, ctx, false, json) == Ok(Str("<" + tag + "></" + tag + ">"))
  {
    Descriptor.ParseShorthand(tag, "", []);
    assert tag + Descriptor.IdSuffix("") + Descriptor.ClassSuffix([]) == tag;
    TagText(tag, [], "", [], ctx, json, []);
    assert OpenTag(tag, JoinWith([], " ")) == "<" + tag + ">";
    assert Concat(RenderAll([], ctx, false, json).pushed) == "";
    assert "<" + tag + ">" + "" + CloseTag(tag) == "<" + tag + "></" + tag + ">";
  }

  /** `h('div#test')()` is `<div id="test"></div>`. */
  lemma TagWithId(tag: string, id: string, ctx: Data, json: Stringify)
    requires NoChar(tag, '.') && NoChar(tag, '#') && NoChar(id, '.') && NoChar(id, '#') && id != ""
    ensures Build(tag + "#" + id, []) == Ok(Tag(tag, [Entry("id", Plain(Str(id)))], "", []))
    ensures TopLevel(Build(tag + "#" + id, []).value, ctx, false, json)
      == Ok(Str("<" + tag + " id=\"" + Escape.EscapeText(id) + "\"></" + tag + ">"))
  {
    Descriptor.ParseShorthand(tag, id, []);
    assert tag + Descriptor.IdSuffix(id) + Descriptor.ClassSuffix([]) == tag + "#" + id;
    var attrs := [Entry("id", Plain(Str(id)))];
    assert !HasKey(attrs, "class");
    OneStringAttribute("id", id, "", ctx, json);
    IdTagText(tag, id, ctx, json);
  }

  /** `h('div#old', { id: 'new' })()` is `<div id="new"></div>`: the
      argument's id replaces the descriptor's in place. */
  lemma IdOverride(tag: string, prior: string, id: string, ctx: Data, json: Stringify)
    requires NoChar(tag, '.') && NoChar(tag, '#') && NoChar(prior, '.') && NoChar(prior, '#') && prior != ""
    ensures Build(tag + "#" + prior, [Dict([Entry("id", Plain(Str(id)))])])
      == Ok(Tag(tag, [Entry("id", Plain(Str(id)))], "", []))
    ensures TopLevel(Build(tag + "#" + prior, [Dict([Entry("id", Plain(Str(id)))])]).value, ctx, false, json)
      == Ok(Str("<" + tag + " id=\"" + Escape.EscapeText(id) + "\"></" + tag + ">"))
  {
    Descriptor.ParseShorthand(tag, prior, []);
    assert tag + Descriptor.IdSuffix(prior) + Descriptor.ClassSuffix([]) == tag + "#" + prior;
    var d := Descriptor.Descriptor(tag, prior, "");
    var args := [Dict([Entry("id", Plain(Str(id)))])];
    OverrideCollect(d, args, id);
    assert !HasKey([Entry("id", Plain(Str(id)))], "class");
    IdTagText(tag, id, ctx, json);
  }

  lemma OverrideCollect(d: Descriptor.Descriptor, args: seq<Value>, id: string)
    requires d.id != "" && args == [Dict([Entry("id", Plain(Str(id)))])]
    ensures Collect(args, Initial(d)) == Ok(Parts([], [Entry("id", Plain(Str(id)))]))
  {
    var entries := [Entry("id", Plain(Str(id)))];
    assert args[..0] == [];
    assert entries[..0] == [];
    assert PutAll(Initial(d).attrs, entries) == Put(Initial(d).attrs, "id", Plain(Str(id)));
    assert Initial(d).attrs[1..] == [];
    assert Put(Initial(d).attrs, "id", Plain(Str(id))) == [Entry("id", Plain(Str(id)))] + [];
    assert [Entry("id", Plain(Str(id)))] + [] == entries;
    assert Classify(args[0], Initial(d)) == Ok(Parts([], entries));
  }

  /** `h('div.class1.class2')()` is `<div class="class1 class2"></div>`: the
      descriptor's classes become a `class` attribute. */
  lemma TagWithClasses(tag: string, classes: seq<string>, ctx: Data, json: Stringify)
    requires NoChar(tag, '.') && NoChar(tag, '#')
    requires forall k :: 0 <= k < |classes| ==> NoChar(classes[k], '.')
    requires JoinWith(classes, " ") != ""
    ensures Build(tag + Descriptor.ClassSuffix(classes), [])
      == Ok(Tag(tag, [Entry("class", Plain(Str("")))], JoinWith(classes, " "), []))
    ensures TopLevel(Build(tag + Descriptor.ClassSuffix(classes), []).value, ctx, false, json)
      == Ok(Str("<" + tag + " class=\"" + Escape.EscapeText(JoinWith(classes, " ")) + "\"></" + tag + ">"))
  {
    var fixed := JoinWith(classes, " ");
    Descriptor.ParseShorthand(tag, "", classes);
    assert tag + Descriptor.IdSuffix("") + Descriptor.ClassSuffix(classes) == tag + Descriptor.ClassSuffix(classes);
    var attrs := [Entry("class", Plain(Str("")))];
    assert Put([], "class", Plain(Str(""))) == attrs;
    var text := "class" + "=\"" + Escape.EscapeText(fixed) + "\"";
    ClassAttribute(fixed, ctx, json);
    TagText(tag, attrs, fixed, [], ctx, json, [text]);
    EmptyTagText(tag, "class", text, Escape.EscapeText(fixed), ctx, json);
    Spelled(tag, "class", Escape.EscapeText(fixed));
  }

  /** `h('tag#id.c1.c2')()` is `<tag id="id" class="c1 c2"></tag>`: the id
      comes first, then the class placeholder. */
  lemma TagWithIdAndClasses(tag: string, id: string, classes: seq<string>, ctx: Data, json: Stringify)
    requires NoChar(tag, '.') && NoChar(tag, '#') && NoChar(id, '.') && NoChar(id, '#') && id != ""
    requires forall k :: 0 <= k < |classes| ==> NoChar(classes[k], '.')
    requires JoinWith(classes, " ") != ""
    ensures Build(tag + "#" + id + Descriptor.ClassSuffix(classes), [])
      == Ok(Tag(tag, [Entry("id", Plain(Str(id))), Entry("class", Plain(Str("")))], JoinWith(classes, " "), []))
    ensures TopLevel(Build(tag + "#" + id + Descriptor.ClassSuffix(classes), []).value, ctx, false, json)
      == Ok(Str("<" + tag + " id=\"" + Escape.EscapeText(id) + "\" class=\""
                + Escape.EscapeText(JoinWith(classes, " ")) + "\"></" + tag + ">"))
  {
    var fixed := JoinWith(classes, " ");
    BuildIdAndClasses(tag, id, classes);
    var idEntry, classEntry := Entry("id", Plain(Str(id))), Entry("class", Plain(Str("")));
    var attrs := [idEntry, classEntry];
    var t1 := "id" + "=\"" + Escape.EscapeText(id) + "\"";
    var t2 := "class" + "=\"" + Escape.EscapeText(fixed) + "\"";
    IdAndClassAttributes(id, fixed, ctx, json);
    TagText(tag, attrs, fixed, [], ctx, json, [t1, t2]);
    TwoAttributeText(tag, t1, t2, Escape.EscapeText(id), Escape.EscapeText(fixed), ctx, json);
  }

  lemma BuildIdAndClasses(tag: string, id: string, classes: seq<string>)
    requires NoChar(tag, '.') && NoChar(tag, '#') && NoChar(id, '.') && NoChar(id, '#') && id != ""
    requires forall k :: 0 <= k < |classes| ==> NoChar(classes[k], '.')
    requires JoinWith(classes, " ") != ""
    ensures Build(tag + "#" + id + Descriptor.ClassSuffix(classes), [])
      == Ok(Tag(tag, [Entry("id", Plain(Str(id))), Entry("class", Plain(Str("")))], JoinWith(classes, " "), []))
  {
    var desc := tag + "#" + id + Descriptor.ClassSuffix(classes);
    Descriptor.ParseShorthand(tag, id, classes);
    IdSpelled(tag, id, Descriptor.ClassSuffix(classes));
    BuildIdClassPlaceholder(desc, Descriptor.Descriptor(tag, id, JoinWith(classes, " ")));
  }

  /** A descriptor with an id and fixed classes, and no arguments: the id
      attribute, then the class placeholder. */
  lemma BuildIdClassPlaceholder(desc: string, d: Descriptor.Descriptor)
    requires Descriptor.Parse(desc) == d && d.id != "" && d.fixedClasses != ""
    ensures Build(desc, [])
      == Ok(Tag(d.tag, [Entry("id", Plain(Str(d.id))), Entry("class", Plain(Str("")))], d.fixedClasses, []))
  {
    var idEntry, classEntry := Entry("id", Plain(Str(d.id))), Entry("class", Plain(Str("")));
    assert !HasKey([idEntry], "class");
    assert Put([idEntry], "class", Plain(Str(""))) == [idEntry, classEntry];
  }

  lemma IdSpelled(tag: string, id: string, rest: string)
    requires id != ""
    ensures tag + Descriptor.IdSuffix(id) + rest == tag + "#" + id + rest
  {
    assert Descriptor.IdSuffix(id) == "#" + id;
  }

  lemma IdAndClassAttributes(id: string, fixed: string, ctx: Data, json: Stringify)
    requires fixed != ""
    ensures Attributes([Entry("id", Plain(Str(id))), Entry("class", Plain(Str("")))], fixed, ctx, false, json)
      == Ok(["id" + "=\"" + Escape.EscapeText(id) + "\"", "class" + "=\"" + Escape.EscapeText(fixed) + "\""])
  {
    var idEntry, classEntry := Entry("id", Plain(Str(id))), Entry("class", Plain(Str("")));
    var t1 := "id" + "=\"" + Escape.EscapeText(id) + "\"";
    var t2 := "class" + "=\"" + Escape.EscapeText(fixed) + "\"";
    OneStringAttribute("id", id, fixed, ctx, json);
    ClassAttribute(fixed, ctx, json);
    RenderingProperties.AttributesAppend([idEntry], [classEntry], fixed, ctx, false, json);
    assert [idEntry] + [classEntry] == [idEntry, classEntry];
    assert [t1] + [t2] == [t1, t2];
  }

  lemma TwoAttributeText(tag: string, t1: string, t2: string, v1: string, v2: string, ctx: Data, json: Stringify)
    requires t1 == "id" + "=\"" + v1 + "\"" && t2 == "class" + "=\"" + v2 + "\""
    ensures OpenTag(tag, JoinWith([t1, t2], " ")) + Concat(RenderAll([], ctx, false, json).pushed) + CloseTag(tag)
         == "<" + tag + " id=\"" + v1 + "\" class=\"" + v2 + "\"></" + tag + ">"
  {
    assert [t1, t2][1..] == [t2];
    assert JoinWith([t1, t2], " ") == t1 + " " + t2;
    assert Concat(RenderAll([], ctx, false, json).pushed) == "";
  }

  /** The class placeholder renders the fixed classes. */
  lemma ClassAttribute(fixed: string, ctx: Data, json: Stringify)
    requires fixed != ""
    ensures Attributes([Entry("class", Plain(Str("")))], fixed, ctx, false, json)
      == Ok(["class" + "=\"" + Escape.EscapeText(fixed) + "\""])
  {
    var attrs := [Entry("class", Plain(Str("")))];
    assert attrs[..0] == [];
    assert [Str(fixed)][..0] == [];
    assert ClassValue(fixed, Plain(Str("")), ctx, json) == Ok(fixed);
    assert AttributeValue(attrs[0], fixed, ctx, json) == Ok(Str(fixed));
    var text := "class" + "=\"" + Escape.EscapeText(fixed) + "\"";
    assert Serialise("class", Str(fixed), false) == Some(text);
    assert [] + [text] == [text];
  }

  /** `h('div', 'test1', 'test2')()` is `<div>test1test2</div>`: strings are
      content, escaped, in order. */
  lemma StringContent(tag: string, a: string, b: string, ctx: Data, json: Stringify)
    requires NoChar(tag, '.') && NoChar(tag, '#') && a != "" && b != ""
    ensures Build(tag, [Plain(Str(a)), Plain(Str(b))]) == Ok(Tag(tag, [], "", [Plain(Str(a)), Plain(Str(b))]))
    ensures TopLevel(Build(tag, [Plain(Str(a)), Plain(Str(b))]).value, ctx, false, json)
      == Ok(Str("<" + tag + ">" + Escape.EscapeText(a) + Escape.EscapeText(b) + "</" + tag + ">"))
  {
    var args := [Plain(Str(a)), Plain(Str(b))];
    TwoStrings(args, a, b, ctx, json);
    BuildContentOnly(tag, args);
    var ea, eb := Escape.EscapeText(a), Escape.EscapeText(b);
    ContentTagText(tag, args, [ea, eb], ctx, json);
    WrapTwo(tag, ea, eb);
  }

  lemma WrapTwo(tag: string, a: string, b: string)
    ensures "<" + tag + ">" + Concat([a, b]) + "</" + tag + ">" == "<" + tag + ">" + a + b + "</" + tag + ">"
  {
    assert [a, b][..1] == [a];
    ConcatOne(a);
  }

  /** A descriptor that is just a tag name, with content arguments only. */
  lemma BuildContentOnly(tag: string, args: seq<Value>)
    requires NoChar(tag, '.') && NoChar(tag, '#')
    requires Collect(args, Parts([], [])) == Ok(Parts(args, []))
    ensures Build(tag, args) == Ok(Tag(tag, [], "", args))
  {
    Descriptor.ParseShorthand(tag, "", []);
    assert tag + Descriptor.IdSuffix("") + Descriptor.ClassSuffix([]) == tag;
  }

  /** A tag with no attributes around content that renders without a throw. */
  lemma ContentTagText(tag: string, content: seq<Value>, pushed: seq<string>, ctx: Data, json: Stringify)
    requires RenderAll(content, ctx, false, json) == Done(pushed)
    ensures TopLevel(Tag(tag, [], "", content), ctx, false, json)
      == Ok(Str("<" + tag + ">" + Concat(pushed) + "</" + tag + ">"))
  {
    TagText(tag, [], "", content, ctx, json, []);
    var open, body := OpenTag(tag, JoinWith([], " ")), Concat(pushed);
    assert open == "<" + tag + ">";
    assert open + body + CloseTag(tag) == "<" + tag + ">" + body + "</" + tag + ">";
  }

  lemma TwoStrings(args: seq<Value>, a: string, b: string, ctx: Data, json: Stringify)
    requires a != "" && b != "" && args == [Plain(Str(a)), Plain(Str(b))]
    ensures Collect(args, Parts([], [])) == Ok(Parts(args, []))
    ensures RenderAll(args, ctx, false, json) == Done([Escape.EscapeText(a), Escape.EscapeText(b)])
  {
    TwoStringsCollected(args);
    TwoStringsRendered(args, a, b, ctx, json);
  }

  lemma TwoStringsCollected(args: seq<Value>)
    requires |args| == 2 && args[0].Plain? && args[0].d.Str? && args[1].Plain? && args[1].d.Str?
    ensures Collect(args, Parts([], [])) == Ok(Parts(args, []))
  {
    assert args[..1] == [args[0]];
    assert [args[0]][..0] == [];
    assert Collect([args[0]], Parts([], [])) == Ok(Parts([] + [args[0]], []));
    assert [] + [args[0]] == [args[0]];
    assert [args[0]] + [args[1]] == args;
  }

  lemma TwoStringsRendered(args: seq<Value>, a: string, b: string, ctx: Data, json: Stringify)
    requires a != "" && b != "" && args == [Plain(Str(a)), Plain(Str(b))]
    ensures RenderAll(args, ctx, false, json) == Done([Escape.EscapeText(a), Escape.EscapeText(b)])
  {
    var ea, eb := Escape.EscapeText(a), Escape.EscapeText(b);
    RenderOne(args[0], ctx, false, json);
    RenderOne(args[1], ctx, false, json);
    RenderingProperties.RenderAllAppend([args[0]], [args[1]], ctx, false, json);
    assert [args[0]] + [args[1]] == args;
    assert [ea] + [eb] == [ea, eb];
  }

  /** A single content value renders as that value. */
  lemma RenderOne(v: Value, ctx: Data, escaped: bool, json: Stringify)
    ensures RenderAll([v], ctx, escaped, json) == Render(v, ctx, escaped, json)
  {
    assert [v][..0] == [];
    RenderingProperties.ThenDone(Render(v, ctx, escaped, json));
  }

  /** `h('div', h.safe('&&'))()` is `<div>&&</div>`. */
  lemma SafeInsideTag(tag: string, s: string, ctx: Data, json: Stringify)
    requires s != ""
    ensures TopLevel(Tag(tag, [], "", [Func(Safe([Plain(Str(s))]))]), ctx, false, json)
      == Ok(Str("<" + tag + ">" + s + "</" + tag + ">"))
  {
    var safe := Safe([Plain(Str(s))]);
    RenderingProperties.OneString(s, ctx, true, json);
    RenderingProperties.RenderedOnce(safe, ctx, false, json);
    RenderOne(Func(safe), ctx, false, json);
    ContentTagText(tag, [Func(safe)], [s], ctx, json);
    ConcatOne(s);
  }

  /** `h('div', h('span', '&&'))()` is `<div><span>&amp;&amp;</span></div>`:
      a nested tag escapes its text and is pushed once. */
  lemma EscapedInsideTag(tag: string, s: string, ctx: Data, json: Stringify)
    requires s != ""
    ensures TopLevel(Tag(tag, [], "", [Func(Tag("span", [], "", [Plain(Str(s))]))]), ctx, false, json)
      == Ok(Str("<" + tag + "><span>" + Escape.EscapeText(s) + "</span></" + tag + ">"))
  {
    var e := Escape.EscapeText(s);
    var inner := Tag("span", [], "", [Plain(Str(s))]);
    SpanPushes(s, ctx, json);
    RenderingProperties.RenderedOnce(inner, ctx, false, json);
    RenderOne(Func(inner), ctx, false, json);
    ContentTagText(tag, [Func(inner)], ["<span>", e, "</span>"], ctx, json);
    NestedSpanText(tag, e);
  }

  lemma NestedSpanText(tag: string, e: string)
    ensures "<" + tag + ">" + Concat(["<span>", e, "</span>"]) + "</" + tag + ">"
         == "<" + tag + "><span>" + e + "</span></" + tag + ">"
  {
    WrapThree(tag, "<span>", e, "</span>");
    assert "<" + tag + ">" + "<span>" + e + "</span>" + "</" + tag + ">"
        == "<" + tag + "><span>" + e + "</span></" + tag + ">";
  }

  lemma SpanPushes(s: string, ctx: Data, json: Stringify)
    requires s != ""
    ensures Emit(Tag("span", [], "", [Plain(Str(s))]), ctx, false, json)
      == Done(["<span>", Escape.EscapeText(s), "</span>"])
  {
    RenderingProperties.OneString(s, ctx, false, json);
    RenderingProperties.TagLayout("span", [], "", [Plain(Str(s))], ctx, false, json);
    assert OpenTag("span", JoinWith([], " ")) == "<span>";
    assert CloseTag("span") == "</span>";
    assert ["<span>"] + [Escape.EscapeText(s)] + [CloseTag("span")] == ["<span>", Escape.EscapeText(s), "</span>"];
  }

  lemma WrapThree(tag: string, a: string, b: string, c: string)
    ensures "<" + tag + ">" + Concat([a, b, c]) + "</" + tag + ">" == "<" + tag + ">" + a + b + c + "</" + tag + ">"
  {
    assert [a, b, c][..2] == [a, b];
    assert [a, b][..1] == [a];
    ConcatOne(a);
  }

  /** A class function that returns `undefined` next to fixed classes
      leaves a trailing space: `[fixed, undefined].join(' ')`. */
  lemma UndefinedClassToken(fixed: string, path: string, ctx: Data, json: Stringify)
    requires fixed != "" && Eval(path, ctx) == Undefined
    ensures ClassValue(fixed, Func(PathGet(path)), ctx, json) == Ok(fixed + " ")
  {
    assert Call(PathGet(path), ctx, json) == Ok(Undefined);
    assert [Str(fixed)] + [Undefined] == [Str(fixed), Undefined];
    assert ClassTokens(fixed, Func(PathGet(path)), ctx, json) == Ok([Str(fixed), Undefined]);
    var texts := ElementTexts([Str(fixed), Undefined]);
    assert texts == [fixed, ""];
    assert texts[1..] == [""];
    assert JoinWith(texts, " ") == fixed + " " + "";
    assert fixed + " " + "" == fixed + " ";
  }

  // ---------------------------------------------------------------------
  // Attributes passed by hash

  /** A tag with one attribute whose value resolves to a string, and no
      content. */
  lemma AttributeTagText(tag: string, e: Entry, fixed: string, v: string, ctx: Data, json: Stringify)
    requires e.key !in BooleanAttributes
    requires AttributeValue(e, fixed, ctx, json) == Ok(Str(v))
    ensures TopLevel(Tag(tag, [e], fixed, []), ctx, false, json)
      == Ok(Str("<" + tag + " " + e.key + "=\"" + Escape.EscapeText(v) + "\"></" + tag + ">"))
  {
    var text := e.key + "=\"" + Escape.EscapeText(v) + "\"";
    assert Serialise(e.key, Str(v), false) == Some(text);
    assert [e][..0] == [];
    assert Attributes([e], fixed, ctx, false, json) == Ok([] + [text]);
    assert [] + [text] == [text];
    TagText(tag, [e], fixed, [], ctx, json, [text]);
    EmptyTagText(tag, e.key, text, Escape.EscapeText(v), ctx, json);
  }

  /** `html` on a plain tag name and one object argument with one property. */
  lemma BuildOneProperty(tag: string, e: Entry)
    requires NoChar(tag, '.') && NoChar(tag, '#')
    requires e.key != "class"
    ensures Build(tag, [Dict([e])]) == Ok(Tag(tag, [e], "", []))
  {
    Descriptor.ParseShorthand(tag, "", []);
    assert tag + Descriptor.IdSuffix("") + Descriptor.ClassSuffix([]) == tag;
    OnePropertyCollected(e, Parts([], []));
  }

  lemma OnePropertyCollected(e: Entry, init: Parts)
    requires init == Parts([], [])
    ensures Collect([Dict([e])], init) == Ok(Parts([], [e]))
  {
    assert [Dict([e])][..0] == [];
    assert [e][..0] == [];
    assert PutAll([], [e]) == Put([], e.key, e.value) == [e];
  }

  /** `h('div', { test: 'bla' })()` is `<div test="bla"></div>`, and
      `h('div', { text: '&&' })()` escapes the value. */
  lemma AttributeHash(tag: string, name: string, v: string, ctx: Data, json: Stringify)
    requires NoChar(tag, '.') && NoChar(tag, '#')
    requires name != "class" && name !in BooleanAttributes
    ensures Build(tag, [Dict([Entry(name, Plain(Str(v)))])]) == Ok(Tag(tag, [Entry(name, Plain(Str(v)))], "", []))
    ensures TopLevel(Build(tag, [Dict([Entry(name, Plain(Str(v)))])]).value, ctx, false, json)
      == Ok(Str("<" + tag + " " + name + "=\"" + Escape.EscapeText(v) + "\"></" + tag + ">"))
  {
    var e := Entry(name, Plain(Str(v)));
    BuildOneProperty(tag, e);
    assert AttributeValue(e, "", ctx, json) == Ok(Str(v));
    AttributeTagText(tag, e, "", v, ctx, json);
  }

  /** `h('div', { test: G('test') })({ test: 'bla' })` is
      `<div test="bla"></div>`: a function attribute is called with the
      context. */
  lemma GetterAttribute(tag: string, name: string, path: string, v: string, ctx: Data, json: Stringify)
    requires NoChar(tag, '.') && NoChar(tag, '#')
    requires name != "class" && name !in BooleanAttributes
    requires Eval(path, ctx) == Str(v)
    ensures Build(tag, [Dict([Entry(name, Func(PathGet(path)))])]) == Ok(Tag(tag, [Entry(name, Func(PathGet(path)))], "", []))
    ensures TopLevel(Build(tag, [Dict([Entry(name, Func(PathGet(path)))])]).value, ctx, false, json)
      == Ok(Str("<" + tag + " " + name + "=\"" + Escape.EscapeText(v) + "\"></" + tag + ">"))
  {
    var e := Entry(name, Func(PathGet(path)));
    BuildOneProperty(tag, e);
    assert Call(PathGet(path), ctx, json) == Ok(Str(v));
    assert AttributeValue(e, "", ctx, json) == Ok(Str(v));
    AttributeTagText(tag, e, "", v, ctx, json);
  }

  // ---------------------------------------------------------------------
  // The class property

  /** `html` on a descriptor with fixed classes and one `class` property. */
  lemma BuildClassProperty(tag: string, classes: seq<string>, v: Value)
    requires NoChar(tag, '.') && NoChar(tag, '#')
    requires forall k :: 0 <= k < |classes| ==> NoChar(classes[k], '.')
    ensures Build(tag + Descriptor.ClassSuffix(classes), [Dict([Entry("class", v)])])
      == Ok(Tag(tag, [Entry("class", v)], JoinWith(classes, " "), []))
  {
    ClassDescriptor(tag, classes);
    BuildOneClass(tag + Descriptor.ClassSuffix(classes), Descriptor.Descriptor(tag, "", JoinWith(classes, " ")), v);
  }

  lemma ClassDescriptor(tag: string, classes: seq<string>)
    requires NoChar(tag, '.') && NoChar(tag, '#')
    requires forall k :: 0 <= k < |classes| ==> NoChar(classes[k], '.')
    ensures Descriptor.Parse(tag + Descriptor.ClassSuffix(classes)) == Descriptor.Descriptor(tag, "", JoinWith(classes, " "))
  {
    var suffix := Descriptor.ClassSuffix(classes);
    Descriptor.ParseShorthand(tag, "", classes);
    NoIdSuffix(tag, suffix);
  }

  lemma NoIdSuffix(tag: string, rest: string)
    ensures tag + Descriptor.IdSuffix("") + rest == tag + rest
  {
    assert Descriptor.IdSuffix("") == "";
    assert tag + "" == tag;
  }

  lemma BuildOneClass(desc: string, d: Descriptor.Descriptor, v: Value)
    requires Descriptor.Parse(desc) == d && d.id == ""
    ensures Build(desc, [Dict([Entry("class", v)])]) == Ok(Tag(d.tag, [Entry("class", v)], d.fixedClasses, []))
  {
    OnePropertyCollected(Entry("class", v), Initial(d));
    assert HasKey([Entry("class", v)], "class");
  }

  /** The class attribute of a tag whose `class` value resolves to `cls`. */
  lemma ClassTagText(tag: string, classes: seq<string>, v: Value, cls: string, ctx: Data, json: Stringify)
    requires NoChar(tag, '.') && NoChar(tag, '#')
    requires forall k :: 0 <= k < |classes| ==> NoChar(classes[k], '.')
    requires ClassValue(JoinWith(classes, " "), v, ctx, json) == Ok(cls)
    ensures Build(tag + Descriptor.ClassSuffix(classes), [Dict([Entry("class", v)])])
      == Ok(Tag(tag, [Entry("class", v)], JoinWith(classes, " "), []))
    ensures TopLevel(Build(tag + Descriptor.ClassSuffix(classes), [Dict([Entry("class", v)])]).value, ctx, false, json)
      == Ok(Str("<" + tag + " class=\"" + Escape.EscapeText(cls) + "\"></" + tag + ">"))
  {
    var fixed := JoinWith(classes, " ");
    BuildClassProperty(tag, classes, v);
    assert AttributeValue(Entry("class", v), fixed, ctx, json) == Ok(Str(cls));
    AttributeTagText(tag, Entry("class", v), fixed, cls, ctx, json);
    Spelled(tag, "class", Escape.EscapeText(cls));
  }

  /** `h('div.class1', { class: 'class2' })()` is
      `<div class="class1 class2"></div>`. */
  lemma ClassProperty(tag: string, classes: seq<string>, c: string, ctx: Data, json: Stringify)
    requires NoChar(tag, '.') && NoChar(tag, '#')
    requires forall k :: 0 <= k < |classes| ==> NoChar(classes[k], '.')
    requires JoinWith(classes, " ") != "" && c != ""
    ensures Build(tag + Descriptor.ClassSuffix(classes), [Dict([Entry("class", Plain(Str(c)))])])
      == Ok(Tag(tag, [Entry("class", Plain(Str(c)))], JoinWith(classes, " "), []))
    ensures TopLevel(Build(tag + Descriptor.ClassSuffix(classes), [Dict([Entry("class", Plain(Str(c)))])]).value, ctx, false, json)
      == Ok(Str("<" + tag + " class=\"" + Escape.EscapeText(JoinWith(classes, " ") + " " + c) + "\"></" + tag + ">"))
  {
    var fixed := JoinWith(classes, " ");
    RenderingProperties.ClassString(fixed, c, ctx, json);
    ClassTagText(tag, classes, Plain(Str(c)), fixed + " " + c, ctx, json);
  }

  /** `h('div.class1', { class: { class2: true } })()` and
      `h('div.class1', { class: { class2: G('bla') } })({ bla: true })` are
      `<div class="class1 class2"></div>`: a toggle that is on adds its name. */
  lemma ClassToggleOn(tag: string, classes: seq<string>, c: string, toggle: Value, ctx: Data, json: Stringify)
    requires NoChar(tag, '.') && NoChar(tag, '#')
    requires forall k :: 0 <= k < |classes| ==> NoChar(classes[k], '.')
    requires JoinWith(classes, " ") != ""
    requires ToggleOn(toggle, ctx, json) == Ok(true)
    ensures Build(tag + Descriptor.ClassSuffix(classes), [Dict([Entry("class", Dict([Entry(c, toggle)]))])])
      == Ok(Tag(tag, [Entry("class", Dict([Entry(c, toggle)]))], JoinWith(classes, " "), []))
    ensures TopLevel(Build(tag + Descriptor.ClassSuffix(classes), [Dict([Entry("class", Dict([Entry(c, toggle)]))])]).value, ctx, false, json)
      == Ok(Str("<" + tag + " class=\"" + Escape.EscapeText(JoinWith(classes, " ") + " " + c) + "\"></" + tag + ">"))
  {
    var fixed := JoinWith(classes, " ");
    OneToggle(fixed, c, toggle, ctx, json);
    ClassTagText(tag, classes, Dict([Entry(c, toggle)]), fixed + " " + c, ctx, json);
  }

  lemma OneToggle(fixed: string, c: string, toggle: Value, ctx: Data, json: Stringify)
    requires fixed != ""
    requires ToggleOn(toggle, ctx, json) == Ok(true)
    ensures ClassValue(fixed, Dict([Entry(c, toggle)]), ctx, json) == Ok(fixed + " " + c)
  {
    var es := [Entry(c, toggle)];
    assert es[..0] == [];
    assert Toggles(es, ctx, json) == Ok([] + [Str(c)]);
    assert [] + [Str(c)] == [Str(c)];
    assert [Str(fixed)] + [Str(c)] == [Str(fixed), Str(c)];
    var texts := ElementTexts([Str(fixed), Str(c)]);
    assert texts == [fixed, c];
    assert texts[1..] == [c];
    assert JoinWith(texts, " ") == fixed + " " + c;
  }

  // ---------------------------------------------------------------------
  // Functions as content

  /** `h('div', G('test'))({ test: 'bla' })` is `<div>bla</div>`: the
      getter's value is rendered, escaped, in its place. */
  lemma GetterContent(tag: string, path: string, v: string, ctx: Data, json: Stringify)
    requires v != "" && Eval(path, ctx) == Str(v)
    ensures TopLevel(Tag(tag, [], "", [Func(PathGet(path))]), ctx, false, json)
      == Ok(Str("<" + tag + ">" + Escape.EscapeText(v) + "</" + tag + ">"))
  {
    var e := Escape.EscapeText(v);
    GetterPushes(path, v, ctx, false, json);
    ContentTagText(tag, [Func(PathGet(path))], [e], ctx, json);
    ConcatOne(e);
  }

  lemma GetterPushes(path: string, v: string, ctx: Data, escaped: bool, json: Stringify)
    requires v != "" && Eval(path, ctx) == Str(v)
    ensures RenderAll([Func(PathGet(path))], ctx, escaped, json) == Done([if escaped then v else Escape.EscapeText(v)])
  {
    RenderingProperties.GetterRendersValue(path, ctx, escaped, json);
    RenderOne(Func(PathGet(path)), ctx, escaped, json);
  }

  /** `h('div', h('span', G('test')))({ test: 'bla' })` is
      `<div><span>bla</span></div>`, and with `{ bla: '&&' }` the text is
      escaped: a nested tag renders a getter's value, escaped, once. */
  lemma NestedGetter(tag: string, path: string, v: string, ctx: Data, json: Stringify)
    requires v != "" && Eval(path, ctx) == Str(v)
    ensures TopLevel(Tag(tag, [], "", [Func(Tag("span", [], "", [Func(PathGet(path))]))]), ctx, false, json)
      == Ok(Str("<" + tag + "><span>" + Escape.EscapeText(v) + "</span></" + tag + ">"))
  {
    var e := Escape.EscapeText(v);
    var inner := Tag("span", [], "", [Func(PathGet(path))]);
    GetterPushes(path, v, ctx, false, json);
    SpanAround(inner, [e], ctx, false, json);
    RenderingProperties.RenderedOnce(inner, ctx, false, json);
    RenderOne(Func(inner), ctx, false, json);
    ContentTagText(tag, [Func(inner)], ["<span>"] + [e] + ["</span>"], ctx, json);
    assert ["<span>"] + [e] + ["</span>"] == ["<span>", e, "</span>"];
    NestedSpanText(tag, e);
  }

  /** A tag with no attributes around content that pushes `pushed`. */
  lemma TagAround(name: string, content: seq<Value>, pushed: seq<string>, ctx: Data, escaped: bool, json: Stringify)
    requires RenderAll(content, ctx, escaped, json) == Done(pushed)
    ensures Emit(Tag(name, [], "", content), ctx, escaped, json) == Done(["<" + name + ">"] + pushed + ["</" + name + ">"])
  {
    assert Attributes([], "", ctx, escaped, json) == Ok([]);
    RenderingProperties.TagLayout(name, [], "", content, ctx, escaped, json);
    assert OpenTag(name, JoinWith([], " ")) == "<" + name + ">";
  }

  /** The same, spelled for a `span`. */
  lemma SpanAround(inner: Func, pushed: seq<string>, ctx: Data, escaped: bool, json: Stringify)
    requires inner.Tag? && inner.name == "span" && inner.attrs == [] && inner.fixedClasses == ""
    requires RenderAll(inner.content, ctx, escaped, json) == Done(pushed)
    ensures Emit(inner, ctx, escaped, json) == Done(["<span>"] + pushed + ["</span>"])
  {
    assert inner == Tag("span", [], "", inner.content);
    TagAround("span", inner.content, pushed, ctx, escaped, json);
    assert "<" + "span" + ">" == "<span>";
    assert "</" + "span" + ">" == "</span>";
  }

  // ---------------------------------------------------------------------
  // safe around nested content

  /** `h('div', h.safe(h('span', G('bla'), '&'), '&'))({ bla: '&&' })` is
      `<div><span>&&&</span>&</div>`: inside `safe`, nested tags and
      getters push their text unescaped too. */
  lemma NestedSafe(tag: string, path: string, t: string, s: string, ctx: Data, json: Stringify)
    requires t != "" && s != "" && Eval(path, ctx) == Str(t)
    ensures TopLevel(Tag(tag, [], "", [Func(Safe([Func(Tag("span", [], "", [Func(PathGet(path)), Plain(Str(s))])), Plain(Str(s))]))]),
                     ctx, false, json)
      == Ok(Str("<" + tag + "><span>" + t + s + "</span>" + s + "</" + tag + ">"))
  {
    var span := Tag("span", [], "", [Func(PathGet(path)), Plain(Str(s))]);
    var safe := Safe([Func(span), Plain(Str(s))]);
    SafeBody(span, path, t, s, ctx, json);
    RenderingProperties.RenderedOnce(safe, ctx, false, json);
    RenderOne(Func(safe), ctx, false, json);
    ContentTagText(tag, [Func(safe)], ["<span>", t, s, "</span>", s], ctx, json);
    NestedSafeText(tag, t, s);
  }

  /** What the `safe` of the nested case pushes, whatever the caller's flag. */
  lemma SafeBody(span: Func, path: string, t: string, s: string, ctx: Data, json: Stringify)
    requires t != "" && s != "" && Eval(path, ctx) == Str(t)
    requires span == Tag("span", [], "", [Func(PathGet(path)), Plain(Str(s))])
    ensures Emit(Safe([Func(span), Plain(Str(s))]), ctx, false, json) == Done(["<span>", t, s, "</span>", s])
  {
    GetterPushes(path, t, ctx, true, json);
    RenderingProperties.OneString(s, ctx, true, json);
    RenderingProperties.RenderAllAppend([Func(PathGet(path))], [Plain(Str(s))], ctx, true, json);
    assert [Func(PathGet(path))] + [Plain(Str(s))] == span.content;
    SpanAround(span, [t] + [s], ctx, true, json);
    RenderingProperties.RenderedOnce(span, ctx, true, json);
    RenderOne(Func(span), ctx, true, json);
    RenderingProperties.RenderAllAppend([Func(span)], [Plain(Str(s))], ctx, true, json);
    assert [Func(span)] + [Plain(Str(s))] == [Func(span), Plain(Str(s))];
    RenderingProperties.SafeDisablesEscaping([Func(span), Plain(Str(s))], ctx, false, json);
    assert ["<span>"] + ([t] + [s]) + ["</span>"] + [s] == ["<span>", t, s, "</span>", s];
  }

  lemma NestedSafeText(tag: string, t: string, s: string)
    ensures "<" + tag + ">" + Concat(["<span>", t, s, "</span>", s]) + "</" + tag + ">"
         == "<" + tag + "><span>" + t + s + "</span>" + s + "</" + tag + ">"
  {
    ConcatAppend(["<span>", t, s], ["</span>", s]);
    assert ["<span>", t, s] + ["</span>", s] == ["<span>", t, s, "</span>", s];
    ConcatThree("<span>", t, s);
    ConcatTwo("</span>", s);
    SafeSpanSpelled(tag, t + s, s);
  }

  lemma SafeSpanSpelled(tag: string, body: string, s: string)
    ensures "<" + tag + ">" + ("<span>" + body + ("</span>" + s)) + "</" + tag + ">"
         == "<" + tag + "><span>" + body + "</span>" + s + "</" + tag + ">"
  {
    assert "<" + tag + "><span>" == "<" + tag + ">" + "<span>";
  }

  lemma ConcatTwo(a: string, b: string)
    ensures Concat([a, b]) == a + b
  {
    assert [a, b][..1] == [a];
    ConcatOne(a);
  }

  // ---------------------------------------------------------------------
  // each, group and if

  /** `h('div', h.each('collection', h('a', G('entry.val'))))(context)` with
      a two-element collection is `<div><a>test1</a><a>test2</a></div>`: the
      content is rendered once per element, in order, each time against the
      iteration context of that element. */
  lemma EachOverTwo(tag: string, coll: string, path: string, x: Data, y: Data, v1: string, v2: string, ctx: Data, json: Stringify)
    requires !Nullish(ctx) && Eval(coll, ctx) == Arr([x, y])
    requires v1 != "" && Eval(path, Iteration(x, 0, ctx, EachRoot(ctx).value)) == Str(v1)
    requires v2 != "" && Eval(path, Iteration(y, 1, ctx, EachRoot(ctx).value)) == Str(v2)
    ensures TopLevel(Tag(tag, [], "", [Func(Each(PathGet(coll), [Func(Tag("a", [], "", [Func(PathGet(path))]))]))]), ctx, false, json)
      == Ok(Str("<" + tag + "><a>" + Escape.EscapeText(v1) + "</a><a>" + Escape.EscapeText(v2) + "</a></" + tag + ">"))
  {
    var e1, e2 := Escape.EscapeText(v1), Escape.EscapeText(v2);
    var each := Each(PathGet(coll), [Func(Tag("a", [], "", [Func(PathGet(path))]))]);
    EachTwoPushes(coll, path, x, y, v1, v2, ctx, json);
    ContentTagText(tag, [Func(each)], ["<a>", e1, "</a>"] + ["<a>", e2, "</a>"], ctx, json);
    TwoAnchorsText(tag, e1, e2);
  }

  lemma EachTwoPushes(coll: string, path: string, x: Data, y: Data, v1: string, v2: string, ctx: Data, json: Stringify)
    requires !Nullish(ctx) && Eval(coll, ctx) == Arr([x, y])
    requires v1 != "" && Eval(path, Iteration(x, 0, ctx, EachRoot(ctx).value)) == Str(v1)
    requires v2 != "" && Eval(path, Iteration(y, 1, ctx, EachRoot(ctx).value)) == Str(v2)
    ensures RenderAll([Func(Each(PathGet(coll), [Func(Tag("a", [], "", [Func(PathGet(path))]))]))], ctx, false, json)
      == Done(["<a>", Escape.EscapeText(v1), "</a>"] + ["<a>", Escape.EscapeText(v2), "</a>"])
  {
    var root := EachRoot(ctx).value;
    var e1, e2 := Escape.EscapeText(v1), Escape.EscapeText(v2);
    var content := [Func(Tag("a", [], "", [Func(PathGet(path))]))];
    var each := Each(PathGet(coll), content);
    AnchorPushes(path, v1, Iteration(x, 0, ctx, root), json);
    AnchorPushes(path, v2, Iteration(y, 1, ctx, root), json);
    RenderingProperties.EachInOrder(PathGet(coll), content, ctx, false, json, [x, y]);
    EachFromTwo([x, y], content, ctx, root, json, ["<a>", e1, "</a>"], ["<a>", e2, "</a>"]);
    RenderingProperties.RenderedOnce(each, ctx, false, json);
    RenderOne(Func(each), ctx, false, json);
  }

  lemma TwoAnchorsText(tag: string, e1: string, e2: string)
    ensures "<" + tag + ">" + Concat(["<a>", e1, "</a>"] + ["<a>", e2, "</a>"]) + "</" + tag + ">"
         == "<" + tag + "><a>" + e1 + "</a><a>" + e2 + "</a></" + tag + ">"
  {
    ConcatThree("<a>", e1, "</a>");
    ConcatThree("<a>", e2, "</a>");
    ConcatAppend(["<a>", e1, "</a>"], ["<a>", e2, "</a>"]);
  }

  /** What `h('a', G(path))` pushes against one scope. */
  lemma AnchorPushes(path: string, v: string, scope: Data, json: Stringify)
    requires v != "" && Eval(path, scope) == Str(v)
    ensures RenderAll([Func(Tag("a", [], "", [Func(PathGet(path))]))], scope, false, json)
      == Done(["<a>", Escape.EscapeText(v), "</a>"])
  {
    var e := Escape.EscapeText(v);
    var inner := Tag("a", [], "", [Func(PathGet(path))]);
    GetterPushes(path, v, scope, false, json);
    TagAround("a", [Func(PathGet(path))], [e], scope, false, json);
    assert "<" + "a" + ">" == "<a>";
    assert "</" + "a" + ">" == "</a>";
    assert ["<a>"] + [e] + ["</a>"] == ["<a>", e, "</a>"];
    RenderingProperties.RenderedOnce(inner, scope, false, json);
    RenderOne(Func(inner), scope, false, json);
  }

  lemma EachFromTwo(items: seq<Data>, content: seq<Value>, ctx: Data, root: Data, json: Stringify, p: seq<string>, q: seq<string>)
    requires |items| == 2
    requires RenderAll(content, Iteration(items[0], 0, ctx, root), false, json) == Done(p)
    requires RenderAll(content, Iteration(items[1], 1, ctx, root), false, json) == Done(q)
    ensures RenderingProperties.EachFrom(items, 0, content, ctx, root, false, json) == Done(p + q)
  {
    assert RenderingProperties.EachFrom(items, 2, content, ctx, root, false, json) == Done([]);
    assert RenderingProperties.EachFrom(items, 1, content, ctx, root, false, json) == Done(q + []);
    assert q + [] == q;
  }

  lemma ConcatThree(a: string, b: string, c: string)
    ensures Concat([a, b, c]) == a + b + c
  {
    assert [a, b, c][..2] == [a, b];
    assert [a, b][..1] == [a];
    ConcatOne(a);
  }

  /** `h.group(h('div', 'test1'), h('div', 'test2'))()` is
      `<div>test1</div><div>test2</div>`: the members' texts, concatenated. */
  lemma GroupOfTags(tag: string, a: string, b: string, ctx: Data, json: Stringify)
    requires a != "" && b != ""
    ensures TopLevel(Group([Func(Tag(tag, [], "", [Plain(Str(a))])), Func(Tag(tag, [], "", [Plain(Str(b))]))]), ctx, false, json)
      == Ok(Str("<" + tag + ">" + Escape.EscapeText(a) + "</" + tag + ">" + "<" + tag + ">" + Escape.EscapeText(b) + "</" + tag + ">"))
  {
    var x, y := Func(Tag(tag, [], "", [Plain(Str(a))])), Func(Tag(tag, [], "", [Plain(Str(b))]));
    GroupOfOneTag(tag, a, ctx, json);
    GroupOfOneTag(tag, b, ctx, json);
    RenderingProperties.GroupConcatenates([x], [y], ctx, json,
      "<" + tag + ">" + Escape.EscapeText(a) + "</" + tag + ">",
      "<" + tag + ">" + Escape.EscapeText(b) + "</" + tag + ">");
    assert [x] + [y] == [x, y];
    assert ("<" + tag + ">" + Escape.EscapeText(a) + "</" + tag + ">") + ("<" + tag + ">" + Escape.EscapeText(b) + "</" + tag + ">")
        == "<" + tag + ">" + Escape.EscapeText(a) + "</" + tag + ">" + "<" + tag + ">" + Escape.EscapeText(b) + "</" + tag + ">";
  }

  lemma GroupOfOneTag(tag: string, s: string, ctx: Data, json: Stringify)
    requires s != ""
    ensures TopLevel(Group([Func(Tag(tag, [], "", [Plain(Str(s))]))]), ctx, false, json)
      == Ok(Str("<" + tag + ">" + Escape.EscapeText(s) + "</" + tag + ">"))
  {
    var t := Tag(tag, [], "", [Plain(Str(s))]);
    RenderingProperties.OneString(s, ctx, false, json);
    ContentTagText(tag, [Plain(Str(s))], [Escape.EscapeText(s)], ctx, json);
    ConcatOne(Escape.EscapeText(s));
    RenderingProperties.RenderedOnce(t, ctx, false, json);
    RenderOne(Func(t), ctx, false, json);
  }

  /** `h.if(G('bla'), h('div'), h('span'))` is `<div></div>` when `bla` is
      truthy and `<span></span>` when it is not. */
  lemma IfOfTags(path: string, yes: string, no: string, ctx: Data, json: Stringify)
    ensures TopLevel(If(Getter(PathGet(path)), Func(Tag(yes, [], "", [])), Func(Tag(no, [], "", []))), ctx, false, json)
      == Ok(Str(if Truthy(Eval(path, ctx)) then "<" + yes + "></" + yes + ">" else "<" + no + "></" + no + ">"))
  {
    var t, f := Tag(yes, [], "", []), Tag(no, [], "", []);
    RenderingProperties.IfSelectsBranch(Getter(PathGet(path)), Func(t), Func(f), ctx, false, json);
    RenderingProperties.RenderedOnce(t, ctx, false, json);
    RenderingProperties.RenderedOnce(f, ctx, false, json);
    EmptyTagPushes(yes, ctx, json);
    EmptyTagPushes(no, ctx, json);
  }

  lemma EmptyTagPushes(name: string, ctx: Data, json: Stringify)
    ensures Emit(Tag(name, [], "", []), ctx, false, json) == Done(["<" + name + ">", "</" + name + ">"])
    ensures Concat(["<" + name + ">", "</" + name + ">"]) == "<" + name + "></" + name + ">"
  {
    assert RenderAll([], ctx, false, json) == Done([]);
    TagAround(name, [], [], ctx, false, json);
    assert ["<" + name + ">"] + [] + ["</" + name + ">"] == ["<" + name + ">", "</" + name + ">"];
    assert ["<" + name + ">", "</" + name + ">"][..1] == ["<" + name + ">"];
    ConcatOne("<" + name + ">");
  }
}
