/** The dictionary-to-object adapter `NestedNamespace` in utils/containers.py,
    on JSON-like values.

    A namespace is built from a dict: dict values become nested namespaces,
    a list that holds dicts becomes one namespace collected from the first
    pair of each dict item, and every other value is kept as it is. The
    namespace remembers the dict it was built from, which `to_dict` returns.
    Python's `str` on arbitrary values is the parameter `str`. */
module NestedNamespaces {
  import opened Results

  /** A JSON-like value; a dict keeps its pairs in insertion order. */
  datatype Json =
    | JNull
    | JBool(b: bool)
    | JNum(n: int)
    | JStr(s: string)
    | JList(items: seq<Json>)
    | JDict(fields: seq<(string, Json)>)

  /** The exceptions building a namespace raises: `IndexError` for the first
      pair of an empty dict item, `TypeError` for a keyword argument `self`. */
  datatype NamespaceError = IndexError | TypeError

  /** An attribute value: a value passed through unchanged, or a nested namespace. */
  datatype Attr = Raw(json: Json) | Nested(ns: Namespace)

  /** A `NestedNamespace`: its attributes in insertion order, and the mapping it
      was constructed from. */
  datatype Namespace = Namespace(attrs: seq<(string, Attr)>, source: seq<(string, Json)>)

  /** The name of the first parameter of `__init__` and `_prepare_`: a key
      with this name is a second value for that parameter. */
  const SelfParam: string := "self"

  /** Passing `f` as keyword arguments binds `self` twice. */
  predicate BindsSelf(f: seq<(string, Json)>) {
    exists i :: 0 <= i < |f| && f[i].0 == SelfParam
  }

  /** The pairs of the first dict item of a list, if it has one. */
  function FirstDict(items: seq<Json>): (r: Option<seq<(string, Json)>>)
    decreases |items|
  {
    if items == [] then None
    else if items[0].JDict? then Some(items[0].fields)
    else FirstDict(items[1..])
  }

  /** The first dict item of a list has `self` as its first key. */
  predicate FirstDictBindsSelf(items: seq<Json>) {
    var d := FirstDict(items);
    d.Some? && d.value != [] && d.value[0].0 == SelfParam
  }

  /** Some item of the list is a dict. */
  predicate HasDict(items: seq<Json>) {
    exists i :: 0 <= i < |items| && items[i].JDict?
  }

  /** The attribute named `k`, if there is one. */
  function Lookup(attrs: seq<(string, Attr)>, k: string): (r: Option<Attr>) {
    if attrs == [] then None
    else if attrs[0].0 == k then Some(attrs[0].1)
    else Lookup(attrs[1..], k)
  }

  /** `setattr`: an existing attribute keeps its place and takes the new
      value, a new attribute goes last. */
  function SetAttr(attrs: seq<(string, Attr)>, k: string, a: Attr): (r: seq<(string, Attr)>)
    ensures Lookup(r, k) == Some(a)
    ensures forall k' :: k' != k ==> Lookup(r, k') == Lookup(attrs, k')
    ensures attrs != [] ==> r != [] && r[0].0 == attrs[0].0
  {
    if attrs == [] then [(k, a)]
    else if attrs[0].0 == k then [(k, a)] + attrs[1..]
    else [attrs[0]] + SetAttr(attrs[1..], k, a)
  }

  /** `to_dict`: the mapping the namespace was built from. */
  function ToDict(ns: Namespace): (r: seq<(string, Json)>) {
    ns.source
  }

  /** The namespace made from the first dict item of a list: built from the
      one-pair dict `{k: str(v)}` with the value already a string. */
  function FirstItemNamespace(k: string, s: string): (r: Namespace) {
    Namespace([(k, Raw(JStr(s)))], [(k, JStr(s))])
  }

  /** One pass of the inner loop of `_prepare_` over a list's items. `acc`
      is `None` while `counter == 1` and holds the namespace built so far
      afterwards. A dict item contributes its first pair (stringified for the
      first dict item, as it is for the later ones); any other item is skipped.
      The first dict item's namespace is built by `__init__`, which rejects
      the key `self`; the later `setattr` calls accept it. */
  function Step(item: Json, acc: Option<Namespace>, str: Json -> string): (r: Result<Option<Namespace>, NamespaceError>) {
    match item
    case JDict(f) =>
      if f == [] then Err(IndexError)
      else if acc.None? then
        if f[0].0 == SelfParam then Err(TypeError)
        else Ok(Some(FirstItemNamespace(f[0].0, str(f[0].1))))
      else Ok(Some(Namespace(SetAttr(acc.value.attrs, f[0].0, Raw(f[0].1)), acc.value.source)))
    case _ => Ok(acc)
  }

  /** The inner loop of `_prepare_` over a list's items. */
  function ListLoop(items: seq<Json>, acc: Option<Namespace>, str: Json -> string): (r: Result<Option<Namespace>, NamespaceError>)
    decreases |items|
  {
    if items == [] then Ok(acc)
    else
      var next :- Step(items[0], acc, str);
      ListLoop(items[1..], next, str)
  }

  /** What `_prepare_` stores for a list value: the list itself when it holds
      no dict, the collected namespace otherwise. */
  function ConvertList(items: seq<Json>, str: Json -> string): (r: Result<Attr, NamespaceError>) {
    var acc :- ListLoop(items, None, str);
    Ok(if acc.None? then Raw(JList(items)) else Nested(acc.value))
  }

  /** Position `i` holds the first failed result. */
  predicate FirstFailure<T, E>(results: seq<Result<T, E>>, i: int) {
    0 <= i < |results| && results[i].Err? && forall m :: 0 <= m < i ==> results[m].Ok?
  }

  /** The value of the pair at position `i` is the first that fails to convert. */
  predicate FirstFailing(f: seq<(string, Json)>, str: Json -> string, i: int)
    decreases JDict(f), 0
  {
    0 <= i < |f| && Convert(f[i].1, str).Err? && forall m :: 0 <= m < i ==> Convert(f[m].1, str).Ok?
  }

  /** Only one position holds the first failing value. */
  lemma FirstFailingUnique(f: seq<(string, Json)>, str: Json -> string, i: int, j: int)
    requires FirstFailing(f, str, i) && FirstFailing(f, str, j)
    ensures i == j
  {
  }

  /** Pairs each key with its converted value, or fails with the first failure. */
  function Collect(f: seq<(string, Json)>, converted: seq<Result<Attr, NamespaceError>>): (r: Result<seq<(string, Attr)>, NamespaceError>)
    requires |converted| == |f|
    ensures r.Ok? <==> forall i :: 0 <= i < |f| ==> converted[i].Ok?
    ensures r.Ok? ==> |r.value| == |f|
    ensures r.Ok? ==> forall i :: 0 <= i < |f| ==> r.value[i] == (f[i].0, converted[i].value)
    ensures r.Err? ==> exists i :: FirstFailure(converted, i) && r.error == converted[i].error
    decreases |f|
  {
    if f == [] then Ok([])
    else if converted[0].Err? then Err(converted[0].error)
    else
      var rest := Collect(f[1..], converted[1..]);
      assert forall i :: 1 <= i < |f| ==> converted[i] == converted[1..][i - 1];
      if rest.Err? then
        var i :| FirstFailure(converted[1..], i) && rest.error == converted[1..][i].error;
        assert FirstFailure(converted, i + 1);
        Err(rest.error)
      else
        Ok([(f[0].0, converted[0].value)] + rest.value)
  }

  /** `NestedNamespace(**f)`: a key `self` is a `TypeError` before anything
      is converted; otherwise every attribute is the converted value of the
      pair at the same position, the first failing value's error is raised,
      and the namespace remembers `f`. */
  function Construct(f: seq<(string, Json)>, str: Json -> string): (r: Result<Namespace, NamespaceError>)
    ensures r.Ok? <==> !BindsSelf(f) && forall i :: 0 <= i < |f| ==> Convert(f[i].1, str).Ok?
    ensures BindsSelf(f) ==> r == Err(TypeError)
    ensures r.Err? && !BindsSelf(f) ==> exists i :: FirstFailing(f, str, i) && r.error == Convert(f[i].1, str).error
    ensures r.Ok? ==> r.value.source == f && |r.value.attrs| == |f|
    ensures r.Ok? ==> forall i :: 0 <= i < |f| ==> r.value.attrs[i] == (f[i].0, Convert(f[i].1, str).value)
    decreases JDict(f), 1
  {
    if BindsSelf(f) then Err(TypeError)
    else
    var converted := seq(|f|, i requires 0 <= i < |f| => Convert(f[i].1, str));
    var collected := Collect(f, converted);
    assert forall i :: 0 <= i < |f| ==> converted[i] == Convert(f[i].1, str);
    if collected.Err? then
      var i :| FirstFailure(converted, i) && collected.error == converted[i].error;
      assert FirstFailing(f, str, i);
      Err(collected.error)
    else
      Ok(Namespace(collected.value, f))
  }

  /** What `_prepare_` stores for one value. */
  function Convert(j: Json, str: Json -> string): (r: Result<Attr, NamespaceError>)
    decreases j, 2
  {
    match j
    case JDict(f) =>
      var ns :- Construct(f, str);
      Ok(Nested(ns))
    case JList(items) => ConvertList(items, str)
    case _ => Ok(Raw(j))
  }

  // ---------------------------------------------------------------------------
  // The imperative `_prepare_` and `__init__`
  // ---------------------------------------------------------------------------

  /** `_prepare_(**attrs)`: rejects a key `self` when binding its arguments,
      then walks the attributes and replaces each value in place, with the
      `counter` of the source's inner loop over list items; the first value
      that fails stops it with its error. */
  method Prepare(attrs: seq<(string, Json)>, str: Json -> string) returns (r: Result<seq<(string, Attr)>, NamespaceError>)
    ensures r.Ok? <==> !BindsSelf(attrs) && forall i :: 0 <= i < |attrs| ==> Convert(attrs[i].1, str).Ok?
    ensures BindsSelf(attrs) ==> r == Err(TypeError)
    ensures r.Err? && !BindsSelf(attrs) ==> exists i :: FirstFailing(attrs, str, i) && r.error == Convert(attrs[i].1, str).error
    ensures r.Ok? ==> |r.value| == |attrs|
    ensures r.Ok? ==> forall i :: 0 <= i < |attrs| ==> r.value[i] == (attrs[i].0, Convert(attrs[i].1, str).value)
    decreases JDict(attrs), 1
  {
    if BindsSelf(attrs) {
      return Err(TypeError);
    }
    var out: seq<(string, Attr)> := seq(|attrs|, i requires 0 <= i < |attrs| => (attrs[i].0, Raw(attrs[i].1)));
    var i := 0;
    while i < |attrs|
      invariant 0 <= i <= |attrs|
      invariant |out| == |attrs|
      invariant forall m :: 0 <= m < i ==> Convert(attrs[m].1, str).Ok? && out[m] == (attrs[m].0, Convert(attrs[m].1, str).value)
      invariant forall m :: i <= m < |attrs| ==> out[m] == (attrs[m].0, Raw(attrs[m].1))
    {
      var key := attrs[i].0;
      var value := attrs[i].1;
      var converted := PrepareValue(value, str);
      if converted.Err? {
        assert FirstFailing(attrs, str, i);
        return Err(converted.error);
      }
      out := out[i := (key, converted.value)];
      i := i + 1;
    }
    r := Ok(out);
  }

  /** The body of the loop of `_prepare_` for one value: a dict becomes a
      nested namespace, a list goes through the inner loop, and anything
      else is kept. */
  method PrepareValue(value: Json, str: Json -> string) returns (r: Result<Attr, NamespaceError>)
    ensures r == Convert(value, str)
    decreases value, 3
  {
    match value {
      case JDict(g) =>
        var ns := New(g, str);
        if ns.Err? {
          return Err(ns.error);
        }
        r := Ok(Nested(ns.value));
      case JList(items) =>
        r := PrepareList(items, str);
      case _ =>
        r := Ok(Raw(value));
    }
  }

  /** The inner loop of `_prepare_` for a list value: `slot` is `attrs[key]`,
      which holds the list until the namespace built from the first dict
      item replaces it; building that namespace rejects the key `self`. */
  method PrepareList(items: seq<Json>, str: Json -> string) returns (r: Result<Attr, NamespaceError>)
    ensures r == ConvertList(items, str)
  {
    var slot := Raw(JList(items));
    var counter := 1;
    var j := 0;
    while j < |items|
      invariant 0 <= j <= |items|
      invariant counter == 1 || counter == 2
      invariant counter == 1 ==> slot == Raw(JList(items))
      invariant counter == 2 ==> slot.Nested?
      invariant ListLoop(items, None, str) == ListLoop(items[j..], if counter == 1 then None else Some(slot.ns), str)
    {
      match items[j] {
        case JDict(item) =>
          if item == [] {
            return Err(IndexError);
          }
          var k := item[0].0;
          var v := item[0].1;
          if counter == 1 {
            if k == SelfParam {
              return Err(TypeError);
            }
            slot := Nested(FirstItemNamespace(k, str(v)));
            counter := counter + 1;
          } else {
            slot := Nested(Namespace(SetAttr(slot.ns.attrs, k, Raw(v)), slot.ns.source));
          }
        case _ =>
      }
      j := j + 1;
    }
    r := Ok(slot);
  }

  /** `NestedNamespace(**fields)`: rejects a key `self` when binding its
      arguments, keeps `fields` for `to_dict` and takes its attributes from
      `_prepare_`. */
  method New(fields: seq<(string, Json)>, str: Json -> string) returns (r: Result<Namespace, NamespaceError>)
    ensures r == Construct(fields, str)
    decreases JDict(fields), 2
  {
    if BindsSelf(fields) {
      return Err(TypeError);
    }
    var prepared := Prepare(fields, str);
    ghost var expected := Construct(fields, str);
    if prepared.Err? {
      ghost var i :| FirstFailing(fields, str, i) && prepared.error == Convert(fields[i].1, str).error;
      ghost var e :| FirstFailing(fields, str, e) && expected.error == Convert(fields[e].1, str).error;
      FirstFailingUnique(fields, str, i, e);
      return Err(prepared.error);
    }
    var ns := Namespace(prepared.value, fields);
    assert expected.Ok? && expected.value.attrs == ns.attrs;
    r := Ok(ns);
  }

  // ---------------------------------------------------------------------------
  // Properties
  // ---------------------------------------------------------------------------

  /** The first value of the last dict item among `items` whose first key is
      `k`: the value that the later `setattr` calls leave under `k`. */
  function LastFirst(items: seq<Json>, k: string): (r: Option<Json>)
    decreases |items|
  {
    if items == [] then None
    else
      var later := LastFirst(items[1..], k);
      if later.Some? then later
      else match items[0]
        case JDict(f) => if f != [] && f[0].0 == k then Some(f[0].1) else None
        case _ => None
  }

  /** Items that are not dicts leave the inner loop's state as it was. */
  lemma {:induction false} LoopSkips(items: seq<Json>, n: nat, acc: Option<Namespace>, str: Json -> string)
    requires n <= |items|
    requires forall m :: 0 <= m < n ==> !items[m].JDict?
    ensures ListLoop(items, acc, str) == ListLoop(items[n..], acc, str)
    decreases n
  {
    if n > 0 {
      assert !items[0].JDict?;
      LoopSkips(items[1..], n - 1, acc, str);
      assert items[1..][n - 1..] == items[n..];
    }
  }

  /** A value that is neither a dict nor a list holding a dict is kept as it is. */
  lemma PassThrough(j: Json, str: Json -> string)
    requires !j.JDict?
    requires j.JList? ==> !HasDict(j.items)
    ensures Convert(j, str) == Ok(Raw(j))
  {
    if j.JList? {
      LoopSkips(j.items, |j.items|, None, str);
    }
  }

  /** Some item of the list is an empty dict. */
  predicate HasEmptyDict(items: seq<Json>) {
    exists i :: 0 <= i < |items| && items[i] == JDict([])
  }

  /** The inner loop fails exactly when some item is an empty dict or, while
      no namespace has been built yet, the first dict item starts with the
      key `self`. */
  lemma {:induction false} LoopFails(items: seq<Json>, acc: Option<Namespace>, str: Json -> string)
    ensures ListLoop(items, acc, str).Err? <==> HasEmptyDict(items) || (acc.None? && FirstDictBindsSelf(items))
    decreases |items|
  {
    if items != [] {
      var next := Step(items[0], acc, str);
      assert forall i :: 1 <= i < |items| ==> items[i] == items[1..][i - 1];
      if HasEmptyDict(items[1..]) {
        var i :| 0 <= i < |items[1..]| && items[1..][i] == JDict([]);
        assert items[i + 1] == JDict([]);
      }
      if next.Ok? {
        LoopFails(items[1..], next.value, str);
      }
    }
  }

  /** Which error the inner loop raises: `TypeError` only for a first dict
      item starting with `self`, `IndexError` only for an empty dict item. */
  lemma {:induction false} LoopErrors(items: seq<Json>, acc: Option<Namespace>, str: Json -> string)
    ensures ListLoop(items, acc, str) == Err(TypeError) ==> acc.None? && FirstDictBindsSelf(items)
    ensures ListLoop(items, acc, str) == Err(IndexError) ==> HasEmptyDict(items)
    decreases |items|
  {
    if items != [] {
      var next := Step(items[0], acc, str);
      if next.Ok? {
        LoopErrors(items[1..], next.value, str);
        if HasEmptyDict(items[1..]) {
          var i :| 0 <= i < |items[1..]| && items[1..][i] == JDict([]);
          assert items[i + 1] == JDict([]);
        }
      }
    }
  }

  /** A list value fails to convert exactly when one of its items is an
      empty dict (`IndexError`) or its first dict item starts with the key
      `self` (`TypeError`). */
  lemma ListFails(items: seq<Json>, str: Json -> string)
    ensures Convert(JList(items), str).Err? <==> HasEmptyDict(items) || FirstDictBindsSelf(items)
    ensures !FirstDictBindsSelf(items) ==> (Convert(JList(items), str).Err? <==> Convert(JList(items), str) == Err(IndexError))
    ensures !HasEmptyDict(items) ==> (Convert(JList(items), str).Err? <==> Convert(JList(items), str) == Err(TypeError))
  {
    LoopFails(items, None, str);
    LoopErrors(items, None, str);
    var c := Convert(JList(items), str);
    if c.Err? {
      assert c == ListLoop(items, None, str).PropagateFailure();
      assert c.error == IndexError || c.error == TypeError;
    }
  }

  /** Once the namespace exists, the rest of the inner loop keeps its source
      and its first attribute name, and leaves under each key the value of
      the last dict item whose first key it is, or what was there before. */
  lemma {:induction false} LoopLookup(items: seq<Json>, ns: Namespace, str: Json -> string, k: string)
    requires ListLoop(items, Some(ns), str).Ok?
    ensures ListLoop(items, Some(ns), str).value.Some?
    ensures var r := ListLoop(items, Some(ns), str).value.value;
      && r.source == ns.source
      && (ns.attrs != [] ==> r.attrs != [] && r.attrs[0].0 == ns.attrs[0].0)
      && Lookup(r.attrs, k) == (match LastFirst(items, k) case Some(v) => Some(Raw(v)) case None => Lookup(ns.attrs, k))
    decreases |items|
  {
    if items != [] {
      var next := Step(items[0], Some(ns), str);
      LoopLookup(items[1..], next.value.value, str, k);
    }
  }

  /** A list whose first dict item (at index `i`) has the first pair
      `k0: v0` becomes one namespace: its first attribute is named `k0`
      and, unless a later dict item overwrites it, holds `str(v0)`; each
      later dict item sets its first key to its first value, unstringified,
      the last one winning; and `to_dict` of that namespace shows only
      `{k0: str(v0)}`. */
  lemma ListNamespace(items: seq<Json>, i: nat, str: Json -> string)
    requires i < |items| && items[i].JDict? && items[i].fields != []
    requires forall m :: 0 <= m < i ==> !items[m].JDict?
    requires Convert(JList(items), str).Ok?
    ensures Convert(JList(items), str).value.Nested?
    ensures var ns := Convert(JList(items), str).value.ns;
      var k0 := items[i].fields[0].0;
      var v0 := items[i].fields[0].1;
      && ToDict(ns) == [(k0, JStr(str(v0)))]
      && ns.attrs != [] && ns.attrs[0].0 == k0
      && forall k :: Lookup(ns.attrs, k) ==
           match LastFirst(items[i + 1..], k)
           case Some(v) => Some(Raw(v))
           case None => if k == k0 then Some(Raw(JStr(str(v0)))) else None
  {
    var k0 := items[i].fields[0].0;
    var v0 := items[i].fields[0].1;
    var first := FirstItemNamespace(k0, str(v0));
    LoopSkips(items, i, None, str);
    assert items[i..][1..] == items[i + 1..];
    assert ListLoop(items, None, str) == ListLoop(items[i + 1..], Some(first), str);
    LoopLookup(items[i + 1..], first, str, k0);
    var ns := ListLoop(items[i + 1..], Some(first), str).value.value;
    forall k
      ensures Lookup(ns.attrs, k) ==
        match LastFirst(items[i + 1..], k)
        case Some(v) => Some(Raw(v))
        case None => if k == k0 then Some(Raw(JStr(str(v0)))) else None
    {
      LoopLookup(items[i + 1..], first, str, k);
      assert first.attrs[1..] == [];
    }
  }

  /** The namespace made from the first dict item is the one `__init__`
      builds from the one-pair dict `{k: s}`, and the key `self` fails in
      both. */
  lemma FirstItemIsConstructed(k: string, s: string, str: Json -> string)
    ensures Construct([(k, JStr(s))], str) == if k == SelfParam then Err(TypeError) else Ok(FirstItemNamespace(k, s))
  {
    var r := Construct([(k, JStr(s))], str);
    if k == SelfParam {
      assert BindsSelf([(k, JStr(s))]);
    } else {
      assert Convert(JStr(s), str) == Ok(Raw(JStr(s)));
      assert r.Ok?;
      assert r.value.attrs == [(k, Raw(JStr(s)))];
    }
  }

  /** `to_dict` returns the mapping the namespace was built from, with none
      of its values converted, and so does `to_dict` of every namespace
      nested for a dict value: it gives back that dict. */
  lemma ToDictIsSource(f: seq<(string, Json)>, str: Json -> string)
    requires Construct(f, str).Ok?
    ensures ToDict(Construct(f, str).value) == f
    ensures forall i :: 0 <= i < |f| && f[i].1.JDict? ==>
      Construct(f, str).value.attrs[i].1.Nested? && ToDict(Construct(f, str).value.attrs[i].1.ns) == f[i].1.fields
  {
    var ns := Construct(f, str).value;
    forall i | 0 <= i < |f| && f[i].1.JDict?
      ensures ns.attrs[i].1.Nested? && ToDict(ns.attrs[i].1.ns) == f[i].1.fields
    {
      assert Convert(f[i].1, str).Ok?;
      assert Construct(f[i].1.fields, str).Ok?;
    }
  }
}
