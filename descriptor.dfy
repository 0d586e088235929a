/** The tag descriptor `tag#id.class1.class2` that `html` takes first. */
module Descriptor {
  import opened Text

  /** The parsed descriptor. An empty `id` or `fixedClasses` stands for the
      source's `undefined`: both are falsy and the code only looks at their
      truthiness. */
  datatype Descriptor = Descriptor(tag: string, id: string, fixedClasses: string)

  /** Splits on `.` first, then the first piece on `#`: the text before `#` is
      the tag and the text after it, up to any further `#`, the id; the other
      `.` pieces are the fixed classes, joined with single spaces. */
  function Parse(description: string): Descriptor
  {
    var parts := Split(description, '.');
    var head := Split(parts[0], '#');
    Descriptor(head[0], if |head| > 1 then head[1] else "", JoinWith(parts[1..], " "))
  }

  function IdSuffix(id: string): string
  {
    if id == "" then "" else "#" + id
  }

  function ClassSuffix(classes: seq<string>): string
  {
    if |classes| == 0 then "" else "." + JoinWith(classes, ".")
  }

  /** The shorthand is read back exactly: `div#test` has tag `div` and id
      `test`, `div.class1.class2` the fixed classes `class1 class2`. */
  lemma ParseShorthand(tag: string, id: string, classes: seq<string>)
    requires NoChar(tag, '.') && NoChar(tag, '#')
    requires NoChar(id, '.') && NoChar(id, '#')
    requires forall k :: 0 <= k < |classes| ==> NoChar(classes[k], '.')
    ensures Parse(tag + IdSuffix(id) + ClassSuffix(classes)) == Descriptor(tag, id, JoinWith(classes, " "))
  {
    var head := tag + IdSuffix(id);
    HeadHasNoDot(tag, id);
    SplitOnDots(head, classes);
    SplitOnHash(tag, id);
  }

  lemma HeadHasNoDot(tag: string, id: string)
    requires NoChar(tag, '.') && NoChar(id, '.')
    ensures NoChar(tag + IdSuffix(id), '.')
  {
    var head := tag + IdSuffix(id);
    if id != "" {
      assert head == tag + "#" + id;
      forall i | 0 <= i < |head| ensures head[i] != '.' {
        if i > |tag| { assert head[i] == id[i - |tag| - 1]; }
      }
    }
  }

  lemma SplitOnDots(head: string, classes: seq<string>)
    requires NoChar(head, '.')
    requires forall k :: 0 <= k < |classes| ==> NoChar(classes[k], '.')
    ensures Split(head + ClassSuffix(classes), '.') == [head] + classes
  {
    if |classes| == 0 {
      assert head + ClassSuffix(classes) == head;
      SplitWithoutSeparator(head, '.');
    } else {
      assert head + ClassSuffix(classes) == head + ['.'] + JoinWith(classes, ".");
      SplitAfterHead(head, '.', JoinWith(classes, "."));
      SplitJoin(classes, '.');
    }
  }

  lemma SplitOnHash(tag: string, id: string)
    requires NoChar(tag, '#') && NoChar(id, '#')
    ensures var head := Split(tag + IdSuffix(id), '#');
      head[0] == tag && (if |head| > 1 then head[1] else "") == id
  {
    if id == "" {
      assert tag + IdSuffix(id) == tag;
      SplitWithoutSeparator(tag, '#');
    } else {
      assert tag + IdSuffix(id) == tag + ['#'] + id;
      SplitAfterHead(tag, '#', id);
      SplitWithoutSeparator(id, '#');
    }
  }

  /** Only the first two `#` pieces matter: `a#b#c` has id `b`. */
  lemma ParseExtraHash()
    ensures Parse("a#b#c").id == "b"
  {
    SplitWithoutSeparator("a#b#c", '.');
    assert "a#b#c" == "a" + ['#'] + "b#c";
    SplitAfterHead("a", '#', "b#c");
    assert "b#c" == "b" + ['#'] + "c";
    SplitAfterHead("b", '#', "c");
  }
}
