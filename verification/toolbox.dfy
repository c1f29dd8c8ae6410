/** The `ToolBox` registry: an insertion-ordered map from tool name to its
    stripped docstring, filled from functions, bound methods and the public
    functions of classes, and rendered as the catalog shown to the model. */
module ToolBox {
  import opened Common
  import opened Text

  /** A Python function or bound method, reduced to its `__name__` and
      `__doc__`. */
  datatype Function = Function(name: string, doc: Option<string>)

  /** One attribute of a class: its attribute name and, when
      `inspect.isfunction` holds of it, the function stored there. */
  datatype Member = Member(attr: string, fn: Option<Function>)

  /** What `store` may be handed: a function or method, a class (its
      attributes in any order), or any other object. */
  datatype Item =
    | FunctionItem(f: Function)
    | ClassItem(members: seq<Member>)
    | OtherItem(typeName: string, callable: bool)

  datatype Entry = Entry(name: string, doc: string)

  /** `tools_dict`, in insertion order. */
  datatype ToolBox = ToolBox(entries: seq<Entry>)

  /** Distinct names, as in a Python `dict`. */
  predicate Distinct(entries: seq<Entry>) {
    forall i, j :: 0 <= i < j < |entries| ==> entries[i].name != entries[j].name
  }

  predicate Valid(tb: ToolBox) {
    Distinct(tb.entries)
  }

  function Names(tb: ToolBox): set<string> {
    set e | e in tb.entries :: e.name
  }

  /** `tools_dict.get(name)`. */
  function DocIn(entries: seq<Entry>, name: string): (r: Option<string>)
    ensures r.Some? <==> exists i :: 0 <= i < |entries| && entries[i].name == name
    ensures r.Some? ==> exists i :: 0 <= i < |entries| && entries[i] == Entry(name, r.value)
  {
    if |entries| == 0 then None
    else if entries[0].name == name then Some(entries[0].doc)
    else
      var r := DocIn(entries[1..], name);
      assert forall i :: 1 <= i < |entries| ==> entries[i] == entries[1..][i - 1];
      r
  }

  function Doc(tb: ToolBox, name: string): Option<string> {
    DocIn(tb.entries, name)
  }

  /** The catalog line of one entry: `name: "doc"`. */
  function Line(e: Entry): string {
    e.name + ": \"" + e.doc + "\""
  }

  function Lines(tb: ToolBox): seq<string> {
    seq(|tb.entries|, i requires 0 <= i < |tb.entries| => Line(tb.entries[i]))
  }

  /** `describe_tools`: the catalog lines joined by newlines. */
  function Describe(tb: ToolBox): string {
    Join(Lines(tb), "\n")
  }

  /** `ToolBox()`: an empty registry, whose catalog is the empty string. */
  function New(): (tb: ToolBox)
    ensures Valid(tb) && Names(tb) == {}
    ensures Describe(tb) == ""
  {
    ToolBox([])
  }

  /** The docstring `_register` records: `(__doc__ or "").strip()`, the
      docstring with its leading and trailing whitespace removed. */
  function DocOf(f: Function): (doc: string)
    ensures |doc| > 0 ==> !IsSpace(doc[0]) && !IsSpace(doc[|doc| - 1])
    ensures f.doc.None? ==> doc == ""
    ensures f.doc.Some? ==>
              exists i, j ::
                && 0 <= i <= j <= |f.doc.value| && doc == f.doc.value[i..j]
                && (forall k :: 0 <= k < i ==> IsSpace(f.doc.value[k]))
                && (forall k :: j <= k < |f.doc.value| ==> IsSpace(f.doc.value[k]))
  {
    Strip(f.doc.GetOr(""))
  }

  /** `tools_dict[name] = doc`: an existing key keeps its position and takes
      the new value; a new key goes at the end. */
  function Put(entries: seq<Entry>, name: string, doc: string): (r: seq<Entry>)
    ensures |r| == |entries| || r == entries + [Entry(name, doc)]
    ensures |r| == |entries| <==> exists i :: 0 <= i < |entries| && entries[i].name == name
    ensures forall i :: 0 <= i < |entries| ==> r[i].name == entries[i].name
    ensures forall i :: 0 <= i < |entries| && entries[i].name != name ==> r[i] == entries[i]
  {
    if |entries| == 0 then [Entry(name, doc)]
    else if entries[0].name == name then [Entry(name, doc)] + entries[1..]
    else
      var rest := Put(entries[1..], name, doc);
      assert forall i :: 1 <= i < |entries| ==> entries[i] == entries[1..][i - 1];
      [entries[0]] + rest
  }

  /** After `tools_dict[name] = doc`, `name` reads back `doc` and every other
      key reads what it read before. */
  lemma {:induction false} PutDoc(entries: seq<Entry>, name: string, doc: string, n: string)
    ensures DocIn(Put(entries, name, doc), n) == if n == name then Some(doc) else DocIn(entries, n)
  {
    if |entries| > 0 && entries[0].name != name {
      PutDoc(entries[1..], name, doc, n);
    }
  }

  lemma PutDistinct(entries: seq<Entry>, name: string, doc: string)
    requires Distinct(entries)
    ensures Distinct(Put(entries, name, doc))
  {
    var es := Put(entries, name, doc);
    forall i, j | 0 <= i < j < |es| ensures es[i].name != es[j].name {
      if j >= |entries| {
        assert es[j].name == name;
      }
    }
  }

  lemma NamesByDoc(tb: ToolBox, n: string)
    ensures n in Names(tb) <==> Doc(tb, n).Some?
  {
    if Doc(tb, n).Some? {
      var i :| 0 <= i < |tb.entries| && tb.entries[i].name == n;
      assert tb.entries[i] in tb.entries;
    }
  }

  /** `_register(func)`: records `func.__name__` with its stripped
      docstring. The last registration of a name wins, the entry count grows
      only for a new name, and an existing entry keeps its place. */
  function Register(tb: ToolBox, f: Function): (r: ToolBox)
    requires Valid(tb)
    ensures Valid(r)
    ensures Doc(r, f.name) == Some(DocOf(f))
    ensures forall n :: n != f.name ==> Doc(r, n) == Doc(tb, n)
    ensures Names(r) == Names(tb) + {f.name}
    ensures f.name in Names(tb) ==>
              |r.entries| == |tb.entries| &&
              forall i :: 0 <= i < |tb.entries| ==> r.entries[i].name == tb.entries[i].name
    ensures f.name !in Names(tb) ==> r.entries == tb.entries + [Entry(f.name, DocOf(f))]
  {
    var r := ToolBox(Put(tb.entries, f.name, DocOf(f)));
    PutDistinct(tb.entries, f.name, DocOf(f));
    forall n ensures Doc(r, n) == if n == f.name then Some(DocOf(f)) else Doc(tb, n) {
      PutDoc(tb.entries, f.name, DocOf(f), n);
    }
    forall n ensures n in Names(r) <==> n in Names(tb) + {f.name} {
      NamesByDoc(r, n);
      NamesByDoc(tb, n);
    }
    NamesByDoc(tb, f.name);
    r
  }

  // ---------------------------------------------------------------------
  // inspect.getmembers(cls, predicate=inspect.isfunction)
  // ---------------------------------------------------------------------

  /** The function-valued attributes of a class, in the given order. */
  function FunctionMembers(ms: seq<Member>): (r: seq<Member>)
    ensures forall m :: m in r <==> m in ms && m.fn.Some?
  {
    if |ms| == 0 then []
    else (if ms[0].fn.Some? then [ms[0]] else []) + FunctionMembers(ms[1..])
  }

  predicate SortedByAttr(ms: seq<Member>) {
    forall i :: 0 <= i < |ms| - 1 ==> StrLe(ms[i].attr, ms[i + 1].attr)
  }

  function Insert(m: Member, ms: seq<Member>): (r: seq<Member>)
    requires SortedByAttr(ms)
    ensures SortedByAttr(r)
    ensures multiset(r) == multiset(ms) + multiset{m}
    ensures |r| > 0 && (r[0] == m || (|ms| > 0 && r[0] == ms[0]))
  {
    if |ms| == 0 then [m]
    else if StrLe(m.attr, ms[0].attr) then [m] + ms
    else
      StrLeTotal(m.attr, ms[0].attr);
      var rest := Insert(m, ms[1..]);
      assert ms == [ms[0]] + ms[1..];
      [ms[0]] + rest
  }

  /** `getmembers` lists attributes sorted by name. */
  function SortByAttr(ms: seq<Member>): (r: seq<Member>)
    ensures SortedByAttr(r)
    ensures multiset(r) == multiset(ms)
  {
    if |ms| == 0 then []
    else
      assert ms == [ms[0]] + ms[1..];
      Insert(ms[0], SortByAttr(ms[1..]))
  }

  /** `inspect.getmembers(cls, predicate=inspect.isfunction)`. */
  function GetMembers(ms: seq<Member>): (r: seq<Member>)
    ensures SortedByAttr(r)
    ensures forall m :: m in r <==> m in ms && m.fn.Some?
  {
    var fs := FunctionMembers(ms);
    var r := SortByAttr(fs);
    assert forall m :: m in r <==> m in multiset(r);
    assert forall m :: m in fs <==> m in multiset(fs);
    r
  }

  predicate IsPublic(m: Member) {
    !StartsWith(m.attr, "_")
  }

  /** The inner loop of `store` for a class: registers each public function
      member, in the order given. */
  function RegisterMembers(tb: ToolBox, ms: seq<Member>): (r: ToolBox)
    requires Valid(tb)
    requires forall m :: m in ms ==> m.fn.Some?
    ensures Valid(r)
    ensures forall n :: n in Names(r) <==>
              n in Names(tb) || exists m :: m in ms && IsPublic(m) && m.fn.value.name == n
    decreases ms
  {
    if |ms| == 0 then tb
    else
      var next := if IsPublic(ms[0]) then Register(tb, ms[0].fn.value) else tb;
      var r := RegisterMembers(next, ms[1..]);
      assert forall m :: m in ms <==> m == ms[0] || m in ms[1..];
      r
  }

  /** `TypeError` text for an item that is neither function, method nor class. */
  function KindError(typeName: string): string {
    "TypeError: Tool must be a function, method, or class. Got " + typeName + "."
  }

  /** The registry after `store(items)` and whether it raised: a `TypeError`
      leaves every earlier registration in place. */
  datatype StoreResult = Stored(box: ToolBox) | StoreFailed(box: ToolBox, error: string)

  /** One pass of the `store` loop body. */
  function StoreOne(tb: ToolBox, item: Item): (r: Result<ToolBox>)
    requires Valid(tb)
    ensures r.Ok? ==> Valid(r.value) && Names(tb) <= Names(r.value)
    ensures r.Err? <==> item.OtherItem?
  {
    match item
    case FunctionItem(f) => Ok(Register(tb, f))
    case ClassItem(ms) => Ok(RegisterMembers(tb, GetMembers(ms)))
    case OtherItem(name, _) => Err(KindError(name))
  }

  /** `store(items)`. Keys are never removed, the call fails exactly when some
      item is neither a function nor a class, and the registry it returns is
      the same (grown) map. */
  function Store(tb: ToolBox, items: seq<Item>): (r: StoreResult)
    requires Valid(tb)
    ensures Valid(r.box)
    ensures Names(tb) <= Names(r.box)
    ensures r.StoreFailed? <==> exists i :: 0 <= i < |items| && items[i].OtherItem?
    decreases items
  {
    if |items| == 0 then Stored(tb)
    else
      match StoreOne(tb, items[0])
      case Err(e) => StoreFailed(tb, e)
      case Ok(next) =>
        var r := Store(next, items[1..]);
        assert forall i :: 1 <= i < |items| ==> items[i] == items[1..][i - 1];
        r
  }

  /** `items[i]` is the first item `store` cannot register. */
  predicate FirstUnsupported(items: seq<Item>, i: int) {
    0 <= i < |items| && items[i].OtherItem? && forall k :: 0 <= k < i ==> !items[k].OtherItem?
  }

  /** Some item is unsupported exactly when there is a first one. */
  lemma {:induction false} FirstUnsupportedExists(items: seq<Item>)
    requires exists i :: 0 <= i < |items| && items[i].OtherItem?
    ensures exists i :: FirstUnsupported(items, i)
    decreases items
  {
    if items[0].OtherItem? {
      assert FirstUnsupported(items, 0);
    } else {
      var i :| 0 <= i < |items| && items[i].OtherItem?;
      assert items[1..][i - 1] == items[i];
      FirstUnsupportedExists(items[1..]);
      var j :| FirstUnsupported(items[1..], j);
      forall k | 0 <= k < j + 1
        ensures !items[k].OtherItem?
      {
        if k > 0 {
          assert items[k] == items[1..][k - 1];
        }
      }
      assert FirstUnsupported(items, j + 1);
    }
  }

  /** A failed `store` raises the `TypeError` naming the type of the first
      unsupported item. */
  lemma StoreFailsOnFirst(tb: ToolBox, items: seq<Item>)
    requires Valid(tb) && Store(tb, items).StoreFailed?
    ensures exists i :: FirstUnsupported(items, i) && Store(tb, items).error == KindError(items[i].typeName)
  {
    FirstUnsupportedExists(items);
    var i :| FirstUnsupported(items, i);
    StoreNoRollback(tb, items, i);
  }

  /** Items processed before an unsupported one stay registered: the failed
      call leaves exactly the registry that storing the earlier items gives. */
  lemma {:induction false} StoreNoRollback(tb: ToolBox, items: seq<Item>, i: nat)
    requires Valid(tb)
    requires i < |items| && items[i].OtherItem?
    requires forall k :: 0 <= k < i ==> !items[k].OtherItem?
    ensures Store(tb, items[..i]).Stored?
    ensures Store(tb, items) == StoreFailed(Store(tb, items[..i]).box, KindError(items[i].typeName))
    decreases i
  {
    if i == 0 {
      assert items[..i] == [];
    } else {
      assert !items[0].OtherItem?;
      var next := StoreOne(tb, items[0]).value;
      var pre := items[..i];
      assert pre[0] == items[0] && pre[1..] == items[1..][..i - 1];
      assert Store(tb, items) == Store(next, items[1..]);
      assert Store(tb, pre) == Store(next, pre[1..]);
      StoreNoRollback(next, items[1..], i - 1);
    }
  }

  /** Storing a class registers exactly the `__name__`s of its function
      attributes whose attribute names do not start with `_`. */
  lemma ClassRegistersPublicFunctions(tb: ToolBox, ms: seq<Member>, n: string)
    requires Valid(tb)
    ensures Store(tb, [ClassItem(ms)]).Stored?
    ensures n in Names(Store(tb, [ClassItem(ms)]).box) <==>
              n in Names(tb) ||
              exists m :: m in ms && m.fn.Some? && IsPublic(m) && m.fn.value.name == n
  {
    var g := GetMembers(ms);
    assert Store(tb, [ClassItem(ms)]) == Store(RegisterMembers(tb, g), []);
  }

  /** A non-empty catalog ends with the closing quote of its last entry,
      whatever the docs hold: `describe_tools` adds no trailing newline. */
  lemma DescribeEndsWithQuote(tb: ToolBox)
    requires |tb.entries| >= 1
    ensures Describe(tb)[|Describe(tb)| - 1] == '"'
  {
    JoinEndsWith(Lines(tb), "\n");
  }

  /** Catalog shape: when no name or doc holds a line break, the catalog
      splits back into one `name: "doc"` line per entry in insertion order,
      and it ends with the closing quote of the last entry (no trailing
      newline). */
  lemma DescribeLines(tb: ToolBox)
    requires |tb.entries| >= 1
    requires forall e :: e in tb.entries ==> '\n' !in e.name && '\n' !in e.doc
    ensures Split(Describe(tb), '\n') == Lines(tb)
    ensures Describe(tb)[|Describe(tb)| - 1] == '"'
  {
    var ls := Lines(tb);
    forall k | 0 <= k < |ls| ensures '\n' !in ls[k] {
      assert tb.entries[k] in tb.entries;
    }
    SplitJoin(ls, '\n');
    DescribeEndsWithQuote(tb);
  }
}
