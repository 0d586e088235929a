/** What `html(description, ...args)` builds, stated against reference
    definitions written per argument: which arguments are content, which
    entries reach the attribute map, and which argument is refused. */
module BuilderProperties {
  import opened Wrappers
  import opened Text
  import opened Values
  import opened ElementBuilder
  import Descriptor

  /** The arguments `html` throws on: `true` and numbers. */
  predicate Refused(arg: Value)
  {
    arg == Plain(Bool(true)) || (arg.Plain? && arg.d.Num?)
  }

  /** The error a refused argument throws, naming its `typeof`. */
  function Rejection(arg: Value): Error
    requires Refused(arg)
  {
    if arg.d.Bool? then UnsupportedParameter("boolean") else UnsupportedParameter("number")
  }

  /** The arguments that become content: functions, strings and dates. */
  predicate IsContent(arg: Value)
  {
    arg.Func? || (arg.Plain? && (arg.d.Str? || arg.d.Date?))
  }

  function ContentOf(args: seq<Value>): (r: seq<Value>)
    ensures forall k :: 0 <= k < |r| ==> IsContent(r[k])
  {
    if |args| == 0 then []
    else ContentOf(args[..|args| - 1]) + (if IsContent(args[|args| - 1]) then [args[|args| - 1]] else [])
  }

  /** The properties an argument contributes to the attribute map, in order. */
  function EntriesOf(arg: Value): seq<Entry>
  {
    match arg
    case Func(_) => []
    case Dict(entries) => entries
    case Array(items) => IndexedValues(items)
    case Plain(d) =>
      if d.Undefined? || d.Null? || d.Bool? || d.Num? || d.Str? then []
      else ArgumentEntries(OwnEntries(d))
  }

  /** All the properties the arguments contribute, in argument order. */
  function AttributeEntries(args: seq<Value>): seq<Entry>
  {
    if |args| == 0 then []
    else AttributeEntries(args[..|args| - 1]) + EntriesOf(args[|args| - 1])
  }

  /** Merging two lists of entries one after the other is merging their
      concatenation. */
  lemma {:induction false} PutAllAppend(attrs: seq<Entry>, x: seq<Entry>, y: seq<Entry>)
    ensures PutAll(attrs, x + y) == PutAll(PutAll(attrs, x), y)
    decreases |y|
  {
    if |y| == 0 {
      assert x + y == x;
    } else {
      var n := |y| - 1;
      assert (x + y)[..|x + y| - 1] == x + y[..n];
      assert (x + y)[|x + y| - 1] == y[n];
      PutAllAppend(attrs, x, y[..n]);
    }
  }

  /** One argument, as `Classify` sorts it, against the per-argument
      definitions. */
  lemma ClassifySpec(arg: Value, p: Parts)
    ensures Classify(arg, p).Err? <==> Refused(arg)
    ensures Refused(arg) ==> Classify(arg, p).error == Rejection(arg)
    ensures Classify(arg, p).Ok? ==>
      Classify(arg, p).value ==
        Parts(p.content + (if IsContent(arg) then [arg] else []), PutAll(p.attrs, EntriesOf(arg)))
  {
    if !Refused(arg) && !(arg.Plain? && !arg.d.Undefined? && !arg.d.Null? && !arg.d.Bool? && !arg.d.Num? && !arg.d.Str?) {
      assert p.content + [] == p.content;
    } else if !Refused(arg) && !arg.d.Date? {
      assert p.content + [] == p.content;
    }
  }

  /** The argument loop throws exactly when some argument is refused, and
      then with the error of the first refused one; otherwise the content is
      the content arguments in order and the attribute map is every
      contributed property merged in order. */
  lemma CollectSpec(args: seq<Value>, init: Parts)
    ensures Collect(args, init).Err? <==> exists i :: 0 <= i < |args| && Refused(args[i])
    ensures Collect(args, init).Err? ==>
      exists i :: 0 <= i < |args| && Refused(args[i]) &&
        (forall j :: 0 <= j < i ==> !Refused(args[j])) &&
        Collect(args, init).error == Rejection(args[i])
    ensures Collect(args, init).Ok? ==>
      Collect(args, init).value ==
        Parts(init.content + ContentOf(args), PutAll(init.attrs, AttributeEntries(args)))
  {
    CollectRefusal(args, init);
    CollectParts(args, init);
  }

  /** Which argument the loop throws on. */
  lemma {:induction false} CollectRefusal(args: seq<Value>, init: Parts)
    ensures Collect(args, init).Err? <==> exists i :: 0 <= i < |args| && Refused(args[i])
    ensures Collect(args, init).Err? ==>
      exists i :: 0 <= i < |args| && Refused(args[i]) &&
        (forall j :: 0 <= j < i ==> !Refused(args[j])) &&
        Collect(args, init).error == Rejection(args[i])
  {
    if |args| > 0 {
      var n := |args| - 1;
      var front := args[..n];
      CollectRefusal(front, init);
      assert forall i :: 0 <= i < n ==> front[i] == args[i];
      match Collect(front, init)
      case Err(e) =>
        var i :| 0 <= i < |front| && Refused(front[i]) &&
          (forall j :: 0 <= j < i ==> !Refused(front[j])) && e == Rejection(front[i]);
        assert Refused(args[i]);
      case Ok(p) =>
        ClassifySpec(args[n], p);
        assert !exists i :: 0 <= i < n && Refused(args[i]);
    }
  }

  /** What the loop builds when no argument throws. */
  lemma {:induction false} CollectParts(args: seq<Value>, init: Parts)
    ensures Collect(args, init).Ok? ==>
      Collect(args, init).value ==
        Parts(init.content + ContentOf(args), PutAll(init.attrs, AttributeEntries(args)))
  {
    if |args| == 0 {
      assert init.content + [] == init.content;
    } else {
      var n := |args| - 1;
      var front := args[..n];
      CollectParts(front, init);
      if Collect(args, init).Ok? {
        var p := Collect(front, init).value;
        ClassifySpec(args[n], p);
        PutAllAppend(init.attrs, AttributeEntries(front), EntriesOf(args[n]));
        assert init.content + ContentOf(args) ==
          init.content + ContentOf(front) + (if IsContent(args[n]) then [args[n]] else []);
      }
    }
  }

  /** `Find` sees exactly the keys the map holds. */
  lemma {:induction false} FindHasKey(attrs: seq<Entry>, key: string)
    ensures Find(attrs, key).Some? <==> HasKey(attrs, key)
  {
    if |attrs| > 0 && attrs[0].key != key {
      FindHasKey(attrs[1..], key);
      HasKeyTail(attrs, key);
    } else if |attrs| > 0 {
      assert attrs[0].key == key;
    }
  }

  predicate Supplies(args: seq<Value>, key: string)
  {
    exists j :: 0 <= j < |AttributeEntries(args)| && AttributeEntries(args)[j].key == key
  }

  /** The value `html` stores under a key: the last argument property with
      that key wins; failing that, `id` comes from the descriptor and `class`
      is the empty placeholder when the descriptor has classes. */
  function ExpectedAttribute(d: Descriptor.Descriptor, args: seq<Value>, key: string): Option<Value>
  {
    if Supplies(args, key) then
      Some(AttributeEntries(args)[LastIndexOf(AttributeEntries(args), key)].value)
    else if key == "id" && d.id != "" then Some(Plain(Str(d.id)))
    else if key == "class" && d.fixedClasses != "" then Some(Plain(Str("")))
    else None
  }

  /** Everything `html` builds, when it does not throw: the tag and fixed
      classes from the descriptor, the content arguments in order, each
      attribute as `ExpectedAttribute` says and no key twice. */
  lemma BuildSpec(description: string, args: seq<Value>, key: string)
    requires Build(description, args).Ok?
    ensures Build(description, args).value.Tag?
    ensures Build(description, args).value.name == Descriptor.Parse(description).tag
    ensures Build(description, args).value.fixedClasses == Descriptor.Parse(description).fixedClasses
    ensures Build(description, args).value.content == ContentOf(args)
    ensures Find(Build(description, args).value.attrs, key) == ExpectedAttribute(Descriptor.Parse(description), args, key)
    ensures UniqueKeys(Build(description, args).value.attrs)
    ensures Keys(Build(description, args).value.attrs) == ExpectedKeys(Descriptor.Parse(description), args)
  {
    var d := Descriptor.Parse(description);
    var init := Initial(d);
    BuildKeys(description, args);
    CollectSpec(args, init);
    assert [] + ContentOf(args) == ContentOf(args);
    var p := Collect(args, init).value;
    CollectedAttribute(d, args, key);
    CollectedAttribute(d, args, "class");
    FinishAttribute(d, p, key);
    FindHasKey(p.attrs, "class");
  }

  /** The order of the attribute map `html` builds: the descriptor's `id`
      first when it has one, then the keys the arguments introduce, in the
      order they first appear, then the `class` placeholder when it is
      added. */
  function ExpectedKeys(d: Descriptor.Descriptor, args: seq<Value>): seq<string>
  {
    var start := if d.id != "" then ["id"] else [];
    var keys := start + NewKeys(start, AttributeEntries(args));
    keys + (if "class" !in keys && d.fixedClasses != "" then ["class"] else [])
  }

  lemma BuildKeys(description: string, args: seq<Value>)
    requires Build(description, args).Ok?
    ensures Keys(Build(description, args).value.attrs) == ExpectedKeys(Descriptor.Parse(description), args)
  {
    var d := Descriptor.Parse(description);
    var init := Initial(d);
    CollectParts(args, init);
    var p := Collect(args, init).value;
    assert Keys(init.attrs) == if d.id != "" then ["id"] else [];
    PutAllKeys(init.attrs, AttributeEntries(args));
    HasKeyKeys(p.attrs, "class");
    if !HasKey(p.attrs, "class") && d.fixedClasses != "" {
      PutKeys(p.attrs, "class", Plain(Str("")));
    } else {
      assert Keys(p.attrs) + [] == Keys(p.attrs);
    }
  }

  /** After the argument loop, a key holds its last supplied value, or else
      what the descriptor set; no key repeats. */
  lemma CollectedAttribute(d: Descriptor.Descriptor, args: seq<Value>, key: string)
    requires Collect(args, Initial(d)).Ok?
    ensures Find(Collect(args, Initial(d)).value.attrs, key) ==
      if Supplies(args, key) then Some(AttributeEntries(args)[LastIndexOf(AttributeEntries(args), key)].value)
      else if key == "id" && d.id != "" then Some(Plain(Str(d.id)))
      else None
    ensures UniqueKeys(Collect(args, Initial(d)).value.attrs)
  {
    CollectSpec(args, Initial(d));
    PutAllSpec(Initial(d).attrs, AttributeEntries(args), key);
  }

  /** The class placeholder is added only when no argument set `class`. */
  lemma FinishAttribute(d: Descriptor.Descriptor, p: Parts, key: string)
    ensures Find(Finish(d, p).attrs, key) ==
      if key == "class" && !HasKey(p.attrs, "class") && d.fixedClasses != "" then Some(Plain(Str("")))
      else Find(p.attrs, key)
    ensures UniqueKeys(p.attrs) ==> UniqueKeys(Finish(d, p).attrs)
  {
    if !HasKey(p.attrs, "class") && d.fixedClasses != "" {
      PutFind(p.attrs, "class", Plain(Str("")), key);
      if UniqueKeys(p.attrs) {
        PutUnique(p.attrs, "class", Plain(Str("")));
      }
    }
  }

  /** Build refuses exactly the argument lists with a refused argument. */
  lemma BuildFails(description: string, args: seq<Value>)
    ensures Build(description, args).Err? <==> exists i :: 0 <= i < |args| && Refused(args[i])
  {
    CollectSpec(args, Initial(Descriptor.Parse(description)));
  }
}
