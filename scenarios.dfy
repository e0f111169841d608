/** Client code that exercises the models through their contracts only,
    following the behaviours the cache and the adapter are meant to show. */
module Scenarios {
  import opened Results
  import opened TimedCaches
  import opened NestedNamespaces
  import opened Sequences

  /** A key stored with timeout 2 is there at time 1 and gone once its task
      has run at time 3. */
  method ExpiryScenario() {
    var c := new TimedCache<string, int>(2);
    c.SetItem("a", 1);
    var id := c.storage["a"].task;
    c.Advance(1);
    assert c.Get("a") == Some(1);
    var ran := c.Fire(id);
    assert !ran;
    c.Advance(2);
    ran := c.Fire(id);
    assert ran;
    assert c.Get("a") == None;
    assert c.GetItem("a") == Err(KeyError);
    assert c.Len() == 0;
  }

  /** Setting a key again at time 8 restarts its timer: the first task does
      nothing at time 15, and the key expires at 18. */
  method TimerResetScenario() {
    var c := new TimedCache<string, int>(10);
    c.SetItem("k", 1);
    var first := c.storage["k"].task;
    c.Advance(8);
    c.SetItem("k", 2);
    var second := c.storage["k"].task;
    c.Advance(7);
    var ran := c.Fire(first);
    assert !ran;
    assert c.Get("k") == Some(2);
    ran := c.Fire(second);
    assert !ran;
    c.Advance(3);
    ran := c.Fire(second);
    assert ran && c.Get("k") == None;
  }

  /** A key deleted before its timer runs can be stored again; the old
      timer then removes nothing. A falsy value is still found by `get`. */
  method DeleteThenReuseScenario() {
    var c := new TimedCache<string, int>(5);
    c.SetItem("k", 1);
    var stale := c.storage["k"].task;
    var d := c.DelItem("k");
    assert d.Ok?;
    d := c.DelItem("k");
    assert d == Err(KeyError);
    c.SetItem("k", 0, Seconds(100));
    c.Advance(50);
    var ran := c.Fire(stale);
    assert !ran;
    assert c.Get("k") == Some(0);
  }

  /** Two keys stored: the size is two. */
  method SizeScenario() {
    var c := new TimedCache<int, int>(600);
    c.SetItem(1, 10);
    var r := c.Set(2, 20, Duration(60));
    assert r == 20;
    assert c.Contents().Keys == {1, 2};
    assert c.Len() == 2;
  }

  /** Deleting one of two keys leaves one, and its task is the only one. */
  method ShrinkScenario() {
    var c := new TimedCache<int, int>(600);
    c.SetItem(1, 10);
    c.SetItem(2, 20);
    var d := c.DelItem(1);
    assert c.Contents().Keys == {2};
    assert c.Len() == 1;
  }

  /** Keys come in insertion order, a key set again moves to the end, and a
      key list taken before a deletion is not affected by it. */
  method SnapshotScenario() {
    var c := new TimedCache<string, int>(600);
    c.SetItem("a", 1);
    c.SetItem("b", 2);
    assert Without(["a"], "b") == ["a"];
    c.SetItem("a", 3);
    assert Without(["a", "b"], "a") == ["b"];
    var keys := c.Iter();
    assert keys == ["b", "a"];
    var d := c.DelItem("b");
    assert keys == ["b", "a"];
    assert c.Iter() == ["a"];
  }

  /** A falsy number or `None` as timeout breaks construction; the default
      timeout is 600, and a zero `timedelta` is kept as it is. */
  method ConstructionScenario() {
    var bad := TimedCache<string, int>.Create(Seconds(0));
    assert bad == Err(AttributeError);
    bad := TimedCache<string, int>.Create(Absent);
    assert bad == Err(AttributeError);
    var good := TimedCache<string, int>.Create();
    assert good.Ok? && good.value.timeout == 600;
    var short := TimedCache<string, int>.Create(Duration(0));
    assert short.Ok? && short.value.timeout == 0;
  }

  /** A list of dicts collapses into one namespace: the first dict item
      gives a stringified attribute, later ones overwrite it unstringified. */
  method ListScenario() {
    var str := (j: Json) => "s";
    var items := [JNum(1), JDict([("x", JNum(2))]), JDict([("y", JNum(3))]), JDict([("x", JNum(4))])];
    ListFails(items, str);
    assert FirstDict(items) == Some([("x", JNum(2))]);
    ListNamespace(items, 1, str);
    var ns := Convert(JList(items), str).value.ns;
    assert ToDict(ns) == [("x", JStr("s"))];
    assert ns.attrs[0].0 == "x";
    assert items[2..] == [JDict([("y", JNum(3))]), JDict([("x", JNum(4))])];
    assert Lookup(ns.attrs, "x") == Some(Raw(JNum(4)));
  }

  /** A dict value nests; an empty dict inside a list makes construction fail. */
  method NestingScenario() {
    var str := (j: Json) => "s";
    var r := New([("inner", JDict([("b", JNull)]))], str);
    PassThrough(JNull, str);
    var inner := Construct([("b", JNull)], str);
    assert inner.Ok? && inner.value.attrs == [("b", Raw(JNull))];
    assert r.Ok?;
    assert r.value.attrs[0] == ("inner", Nested(Namespace([("b", Raw(JNull))], [("b", JNull)])));
    var empty := New([("l", JList([JDict([])]))], str);
    ListFails([JDict([])], str);
    assert empty == Err(IndexError);
  }

  /** A key `self` is refused by `__init__`, also in a nested dict and as
      the first key of a list's first dict item; later `setattr` calls take it. */
  method SelfKeyScenario() {
    var str := (j: Json) => "s";
    var top := New([("self", JNull)], str);
    assert BindsSelf([("self", JNull)]);
    assert top == Err(TypeError);
    var nested := New([("_links", JDict([("self", JNull)]))], str);
    assert BindsSelf([("self", JNull)]);
    assert nested == Err(TypeError);
    var first := [JDict([("self", JNull)])];
    ListFails(first, str);
    assert FirstDict(first) == Some([("self", JNull)]);
    assert Convert(JList(first), str) == Err(TypeError);
    var later := [JDict([("a", JNull)]), JDict([("self", JNull)])];
    ListFails(later, str);
    assert FirstDict(later) == Some([("a", JNull)]);
    assert Convert(JList(later), str).Ok?;
  }
}
