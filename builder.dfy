/** The element builder `html(tagDescription, ...data)`: parses the descriptor,
    sorts the arguments into content and attributes, and returns the tag
    function. */
module ElementBuilder {
  import opened Wrappers
  import opened Values
  import Descriptor

  // ---------------------------------------------------------------------
  // The attribute map: a JavaScript object, so keys keep the position at
  // which they were first set and a later assignment replaces the value.

  function Keys(attrs: seq<Entry>): (r: seq<string>)
    ensures |r| == |attrs|
    ensures forall k :: 0 <= k < |attrs| ==> r[k] == attrs[k].key
  {
    if |attrs| == 0 then [] else [attrs[0].key] + Keys(attrs[1..])
  }

  predicate HasKey(attrs: seq<Entry>, key: string)
  {
    exists k :: 0 <= k < |attrs| && attrs[k].key == key
  }

  predicate UniqueKeys(attrs: seq<Entry>)
  {
    forall i, j :: 0 <= i < j < |attrs| ==> attrs[i].key != attrs[j].key
  }

  /** `attrs[key]`, when the key is present. */
  function Find(attrs: seq<Entry>, key: string): Option<Value>
  {
    if |attrs| == 0 then None
    else if attrs[0].key == key then Some(attrs[0].value)
    else Find(attrs[1..], key)
  }

  /** `attrs[key] = value`. */
  function Put(attrs: seq<Entry>, key: string, value: Value): seq<Entry>
  {
    if |attrs| == 0 then [Entry(key, value)]
    else if attrs[0].key == key then [Entry(key, value)] + attrs[1..]
    else [attrs[0]] + Put(attrs[1..], key, value)
  }

  lemma {:induction false} HasKeyTail(attrs: seq<Entry>, key: string)
    requires |attrs| > 0 && attrs[0].key != key
    ensures HasKey(attrs, key) <==> HasKey(attrs[1..], key)
  {
    if HasKey(attrs, key) {
      var k :| 0 <= k < |attrs| && attrs[k].key == key;
      assert attrs[1..][k - 1].key == key;
    }
    if HasKey(attrs[1..], key) {
      var k :| 0 <= k < |attrs[1..]| && attrs[1..][k].key == key;
      assert attrs[k + 1].key == key;
    }
  }

  /** Assigning keeps the key order and adds a new key at the end. */
  lemma {:induction false} PutKeys(attrs: seq<Entry>, key: string, value: Value)
    ensures Keys(Put(attrs, key, value)) == if HasKey(attrs, key) then Keys(attrs) else Keys(attrs) + [key]
  {
    if |attrs| == 0 {
    } else if attrs[0].key == key {
      assert HasKey(attrs, key);
      assert Keys(Put(attrs, key, value)) == [key] + Keys(attrs[1..]);
    } else {
      PutKeys(attrs[1..], key, value);
      HasKeyTail(attrs, key);
      var rest := Put(attrs[1..], key, value);
      assert Keys([attrs[0]] + rest) == [attrs[0].key] + Keys(rest);
    }
  }

  /** Assigning stores the value under the key and leaves every other key's
      value as it was. */
  lemma {:induction false} PutFind(attrs: seq<Entry>, key: string, value: Value, other: string)
    ensures Find(Put(attrs, key, value), other) == if other == key then Some(value) else Find(attrs, other)
  {
    if |attrs| > 0 && attrs[0].key != key {
      PutFind(attrs[1..], key, value, other);
      var rest := Put(attrs[1..], key, value);
      assert ([attrs[0]] + rest)[1..] == rest;
    }
  }

  /** Assigning never duplicates a key. */
  lemma PutUnique(attrs: seq<Entry>, key: string, value: Value)
    requires UniqueKeys(attrs)
    ensures UniqueKeys(Put(attrs, key, value))
  {
    var r := Put(attrs, key, value);
    PutKeys(attrs, key, value);
    var ks := Keys(r);
    forall i, j | 0 <= i < j < |r|
      ensures r[i].key != r[j].key
    {
      assert r[i].key == ks[i] && r[j].key == ks[j];
      assert ks[i] == attrs[i].key;
      if j < |attrs| {
        assert ks[j] == attrs[j].key;
      } else {
        assert ks[j] == key && !HasKey(attrs, key);
      }
    }
  }

  /** `forEachKey(entity, (key, val) => attrs[key] = val)`. */
  function PutAll(attrs: seq<Entry>, entries: seq<Entry>): seq<Entry>
  {
    if |entries| == 0 then attrs
    else
      var last := entries[|entries| - 1];
      Put(PutAll(attrs, entries[..|entries| - 1]), last.key, last.value)
  }

  /** The keys of `entries` that are not in `known`, each once, in the order
      of their first occurrence. */
  function NewKeys(known: seq<string>, entries: seq<Entry>): seq<string>
  {
    if |entries| == 0 then []
    else
      var front := NewKeys(known, entries[..|entries| - 1]);
      var key := entries[|entries| - 1].key;
      if key in known || key in front then front else front + [key]
  }

  lemma {:induction false} HasKeyKeys(attrs: seq<Entry>, key: string)
    ensures HasKey(attrs, key) <==> key in Keys(attrs)
  {
    if HasKey(attrs, key) {
      var k :| 0 <= k < |attrs| && attrs[k].key == key;
      assert Keys(attrs)[k] == key;
    }
    if key in Keys(attrs) {
      var k :| 0 <= k < |Keys(attrs)| && Keys(attrs)[k] == key;
      assert attrs[k].key == key;
    }
  }

  /** Copying properties keeps the keys already there in place and adds the
      new ones after them, in the order they are first met. */
  lemma {:induction false} PutAllKeys(attrs: seq<Entry>, entries: seq<Entry>)
    ensures Keys(PutAll(attrs, entries)) == Keys(attrs) + NewKeys(Keys(attrs), entries)
  {
    if |entries| == 0 {
      assert Keys(attrs) + [] == Keys(attrs);
    } else {
      var n := |entries| - 1;
      PutAllKeys(attrs, entries[..n]);
      PutAllKeysStep(attrs, entries[..n], entries[n]);
      assert entries[..n] + [entries[n]] == entries;
    }
  }

  lemma PutAllKeysStep(attrs: seq<Entry>, front: seq<Entry>, last: Entry)
    requires Keys(PutAll(attrs, front)) == Keys(attrs) + NewKeys(Keys(attrs), front)
    ensures Keys(PutAll(attrs, front + [last])) == Keys(attrs) + NewKeys(Keys(attrs), front + [last])
  {
    var es := front + [last];
    assert es[..|es| - 1] == front && es[|es| - 1] == last;
    var merged := PutAll(attrs, front);
    var known, ks := Keys(attrs), NewKeys(Keys(attrs), front);
    PutKeys(merged, last.key, last.value);
    HasKeyKeys(merged, last.key);
    if last.key in known || last.key in ks {
      assert HasKey(merged, last.key);
    } else {
      assert !HasKey(merged, last.key);
      assert known + ks + [last.key] == known + (ks + [last.key]);
    }
  }

  /** A key is among the new keys exactly when some entry has it and it was
      not known; no new key repeats. */
  lemma {:induction false} NewKeysSpec(known: seq<string>, entries: seq<Entry>)
    ensures forall x :: x in NewKeys(known, entries) <==> x !in known && HasKey(entries, x)
    ensures forall i, j :: 0 <= i < j < |NewKeys(known, entries)| ==>
      NewKeys(known, entries)[i] != NewKeys(known, entries)[j]
  {
    if |entries| > 0 {
      var n := |entries| - 1;
      var front := entries[..n];
      NewKeysSpec(known, front);
      forall x ensures HasKey(entries, x) <==> HasKey(front, x) || entries[n].key == x
      {
        if HasKey(entries, x) {
          var j :| 0 <= j < |entries| && entries[j].key == x;
          if j < n {
            assert front[j].key == x;
          }
        }
        if HasKey(front, x) {
          var j :| 0 <= j < n && front[j].key == x;
          assert entries[j].key == x;
        }
      }
    }
  }

  /** The position of the first entry for `key`. */
  function FirstIndexOf(entries: seq<Entry>, key: string): (j: nat)
    requires exists j :: 0 <= j < |entries| && entries[j].key == key
    ensures j < |entries| && entries[j].key == key
    ensures forall k :: 0 <= k < j ==> entries[k].key != key
  {
    if entries[0].key == key then 0
    else
      assert exists j :: 0 <= j < |entries| - 1 && entries[1..][j].key == key by {
        var j :| 0 <= j < |entries| && entries[j].key == key;
        assert entries[1..][j - 1].key == key;
      }
      1 + FirstIndexOf(entries[1..], key)
  }

  /** The new keys come in the order of their first occurrence. */
  lemma {:induction false} NewKeysOrder(known: seq<string>, entries: seq<Entry>)
    ensures forall i :: 0 <= i < |NewKeys(known, entries)| ==>
      exists j :: 0 <= j < |entries| && entries[j].key == NewKeys(known, entries)[i]
    ensures forall i, j :: 0 <= i < j < |NewKeys(known, entries)| ==>
      FirstIndexOf(entries, NewKeys(known, entries)[i]) < FirstIndexOf(entries, NewKeys(known, entries)[j])
  {
    NewKeysSpec(known, entries);
    forall i | 0 <= i < |NewKeys(known, entries)|
      ensures exists j :: 0 <= j < |entries| && entries[j].key == NewKeys(known, entries)[i]
    {
      assert NewKeys(known, entries)[i] in NewKeys(known, entries);
    }
    if |entries| > 0 {
      var n := |entries| - 1;
      var front := entries[..n];
      var ks := NewKeys(known, front);
      NewKeysOrder(known, front);
      NewKeysSpec(known, front);
      forall i | 0 <= i < |ks|
        ensures FirstIndexOf(entries, ks[i]) == FirstIndexOf(front, ks[i])
      {
        FirstIndexPrefix(entries, n, ks[i]);
      }
      var key := entries[n].key;
      if !(key in known || key in ks) {
        assert !HasKey(front, key);
        assert FirstIndexOf(entries, key) == n;
      }
    }
  }

  lemma FirstIndexPrefix(entries: seq<Entry>, n: nat, key: string)
    requires n <= |entries|
    requires exists j :: 0 <= j < n && entries[..n][j].key == key
    ensures exists j :: 0 <= j < |entries| && entries[j].key == key
    ensures FirstIndexOf(entries, key) == FirstIndexOf(entries[..n], key)
  {
    var j :| 0 <= j < n && entries[..n][j].key == key;
    assert entries[j].key == key;
    var a, b := FirstIndexOf(entries, key), FirstIndexOf(entries[..n], key);
    assert entries[b].key == key;
    assert a <= b;
    assert entries[..n][a] == entries[a];
  }

  /** The last entry for a key wins; keys not among the entries keep their old
      value, and no key is ever duplicated. */
  lemma PutAllSpec(attrs: seq<Entry>, entries: seq<Entry>, key: string)
    ensures Find(PutAll(attrs, entries), key) ==
      if exists j :: 0 <= j < |entries| && entries[j].key == key
      then Some(entries[LastIndexOf(entries, key)].value)
      else Find(attrs, key)
    ensures UniqueKeys(attrs) ==> UniqueKeys(PutAll(attrs, entries))
  {
    PutAllFind(attrs, entries, key);
    if UniqueKeys(attrs) {
      PutAllUnique(attrs, entries);
    }
  }

  lemma {:induction false} PutAllFind(attrs: seq<Entry>, entries: seq<Entry>, key: string)
    ensures Find(PutAll(attrs, entries), key) ==
      if exists j :: 0 <= j < |entries| && entries[j].key == key
      then Some(entries[LastIndexOf(entries, key)].value)
      else Find(attrs, key)
  {
    if |entries| > 0 {
      var n := |entries| - 1;
      var front := entries[..n];
      PutAllFind(attrs, front, key);
      PutFind(PutAll(attrs, front), entries[n].key, entries[n].value, key);
      if entries[n].key != key {
        assert (exists j :: 0 <= j < |entries| && entries[j].key == key)
          <==> (exists j :: 0 <= j < |front| && front[j].key == key) by {
          if exists j :: 0 <= j < |entries| && entries[j].key == key {
            var j :| 0 <= j < |entries| && entries[j].key == key;
            assert front[j].key == key;
          }
        }
      }
    }
  }

  lemma {:induction false} PutAllUnique(attrs: seq<Entry>, entries: seq<Entry>)
    requires UniqueKeys(attrs)
    ensures UniqueKeys(PutAll(attrs, entries))
  {
    if |entries| > 0 {
      var n := |entries| - 1;
      PutAllUnique(attrs, entries[..n]);
      PutUnique(PutAll(attrs, entries[..n]), entries[n].key, entries[n].value);
    }
  }

  /** The position of the last entry for `key`. */
  function LastIndexOf(entries: seq<Entry>, key: string): (j: nat)
    requires exists j :: 0 <= j < |entries| && entries[j].key == key
    ensures j < |entries| && entries[j].key == key
    ensures forall k :: j < k < |entries| ==> entries[k].key != key
  {
    var n := |entries| - 1;
    if entries[n].key == key then n
    else
      assert exists j :: 0 <= j < n && entries[..n][j].key == key by {
        var j :| 0 <= j < |entries| && entries[j].key == key;
        assert entries[..n][j].key == key;
      }
      LastIndexOf(entries[..n], key)
  }

  // ---------------------------------------------------------------------
  // Argument classification.

  datatype Parts = Parts(content: seq<Value>, attrs: seq<Entry>)

  /** One argument, as the loop over `data` sorts it: `undefined`, `null` and
      `false` are skipped, strings and functions are content, a `Date` is
      content, every object's properties (an array's, keyed by index) are
      merged into the attributes, and any other type is refused. */
  function Classify(arg: Value, p: Parts): Result<Parts, Error>
  {
    match arg
    case Func(_) => Ok(Parts(p.content + [arg], p.attrs))
    case Dict(entries) => Ok(Parts(p.content, PutAll(p.attrs, entries)))
    case Array(items) => Ok(Parts(p.content, PutAll(p.attrs, IndexedValues(items))))
    case Plain(d) =>
      match d
      case Undefined => Ok(p)
      case Null => Ok(p)
      case Bool(b) => if b then Err(UnsupportedParameter("boolean")) else Ok(p)
      case Num(_) => Err(UnsupportedParameter("number"))
      case Str(_) => Ok(Parts(p.content + [arg], p.attrs))
      case _ =>
        Ok(Parts(if d.Date? then p.content + [arg] else p.content,
                 PutAll(p.attrs, ArgumentEntries(OwnEntries(d)))))
  }

  /** The state after the loop over `args`, or the error it throws. */
  function Collect(args: seq<Value>, init: Parts): Result<Parts, Error>
  {
    if |args| == 0 then Ok(init)
    else
      match Collect(args[..|args| - 1], init)
      case Err(e) => Err(e)
      case Ok(p) => Classify(args[|args| - 1], p)
  }

  /** Once an argument is refused, the later ones are never looked at. */
  lemma {:induction false} CollectKeepsError(args: seq<Value>, n: nat, init: Parts)
    requires n <= |args| && Collect(args[..n], init).Err?
    ensures Collect(args, init) == Collect(args[..n], init)
  {
    if n < |args| {
      var m := |args| - 1;
      assert args[..m][..n] == args[..n];
      CollectKeepsError(args[..m], n, init);
    } else {
      assert args[..n] == args;
    }
  }

  /** The attribute map before the loop: the descriptor's id when it has one. */
  function Initial(d: Descriptor.Descriptor): Parts
  {
    Parts([], if d.id != "" then [Entry("id", Plain(Str(d.id)))] else [])
  }

  /** The tag function, with an empty `class` placeholder installed when only
      the descriptor gives classes. */
  function Finish(d: Descriptor.Descriptor, p: Parts): Func
  {
    var attrs := if !HasKey(p.attrs, "class") && d.fixedClasses != ""
                 then Put(p.attrs, "class", Plain(Str(""))) else p.attrs;
    Tag(d.tag, attrs, d.fixedClasses, p.content)
  }

  /** `html(description, ...args)`. */
  function Build(description: string, args: seq<Value>): Result<Func, Error>
  {
    var d := Descriptor.Parse(description);
    match Collect(args, Initial(d))
    case Err(e) => Err(e)
    case Ok(p) => Ok(Finish(d, p))
  }

  /** `html` itself: fills `content` and `attrs` argument by argument. */
  method Html(description: string, args: seq<Value>) returns (r: Result<Func, Error>)
    ensures r == Build(description, args)
  {
    var d := Descriptor.Parse(description);
    var content: seq<Value> := [];
    var attrs: seq<Entry> := [];
    if d.id != "" {
      attrs := attrs + [Entry("id", Plain(Str(d.id)))];
    }
    assert Parts(content, attrs) == Initial(d);
    var i := 0;
    while i < |args|
      invariant 0 <= i <= |args|
      invariant Collect(args[..i], Initial(d)) == Ok(Parts(content, attrs))
    {
      var entity := args[i];
      assert args[..i + 1][..i] == args[..i];
      match entity {
        case Func(_) =>
          content := content + [entity];
        case Dict(entries) =>
          attrs := MergeKeys(attrs, entries);
        case Array(items) =>
          attrs := MergeKeys(attrs, IndexedValues(items));
        case Plain(v) =>
          if v.Undefined? || v.Null? || v == Bool(false) {
          } else if v.Bool? {
            r := Err(UnsupportedParameter("boolean"));
            CollectKeepsError(args, i + 1, Initial(d));
            return;
          } else if v.Num? {
            r := Err(UnsupportedParameter("number"));
            CollectKeepsError(args, i + 1, Initial(d));
            return;
          } else if v.Str? {
            content := content + [entity];
          } else {
            if v.Date? {
              content := content + [entity];
            }
            attrs := MergeKeys(attrs, ArgumentEntries(OwnEntries(v)));
          }
      }
      i := i + 1;
    }
    assert args[..i] == args;
    if !HasKey(attrs, "class") && d.fixedClasses != "" {
      attrs := Put(attrs, "class", Plain(Str("")));
    }
    r := Ok(Tag(d.tag, attrs, d.fixedClasses, content));
  }

  /** The `forEachKey` loop that copies an object's properties into `attrs`. */
  method MergeKeys(attrs: seq<Entry>, entries: seq<Entry>) returns (merged: seq<Entry>)
    ensures merged == PutAll(attrs, entries)
  {
    merged := attrs;
    var j := 0;
    while j < |entries|
      invariant 0 <= j <= |entries|
      invariant merged == PutAll(attrs, entries[..j])
    {
      assert entries[..j + 1][..j] == entries[..j];
      merged := Put(merged, entries[j].key, entries[j].value);
      j := j + 1;
    }
    assert entries[..j] == entries;
  }
}
