/** `ConfigMgr` (source/config.cpp:20-62) over its settings as objects. */
module ConfigMgrModel {
  import opened Types
  import opened Config
  import opened Loggers

  /** listAllMember (20-36): the recursion that appends to one list. */
  method ListAllMember(key: string, node: Node, output: seq<Member>) returns (result: seq<Member>)
    ensures result == output + Listed(key, node)
    decreases node
  {
    result := output;
    if !ValidKey(key) { return; }
    result := result + [Member(key, node)];
    if node.Branch? {
      var i := 0;
      assert result + ListedFrom(key, node, 0) == output + Listed(key, node);
      while i < |node.entries|
        invariant 0 <= i <= |node.entries|
        invariant result + ListedFrom(key, node, i) == output + Listed(key, node)
      {
        var c := node.entries[i];
        assert result + (Listed(Join(key, c.key), c.node) + ListedFrom(key, node, i + 1))
            == result + Listed(Join(key, c.key), c.node) + ListedFrom(key, node, i + 1);
        result := ListAllMember(if key == "" then c.key else key + "." + c.key, c.node, result);
        i := i + 1;
      }
    }
  }

  /** Every setting has taken what the listed nodes give it. */
  ghost predicate Gave<V(!new)>(was: map<string, Past<V>>, now: map<string, Past<V>>, convert: Conversion<V>, ms: seq<Member>) {
    was.Keys == now.Keys && forall name | name in was :: Took(was[name], now[name], AllGiven(convert, ms, name))
  }

  ghost predicate GaveOne<V(!new)>(was: map<string, Past<V>>, now: map<string, Past<V>>, convert: Conversion<V>, m: Member) {
    was.Keys == now.Keys && forall name | name in was :: Took(was[name], now[name], Given(convert, m, name))
  }

  /** Every setting has taken the texts of all nodes of the tree with its dotted key that convert, in order. */
  ghost predicate GaveTree<V(!new)>(was: map<string, Past<V>>, now: map<string, Past<V>>, convert: Conversion<V>, root: Node) {
    was.Keys == now.Keys && forall name | name in was ::
      Took(was[name], now[name], if name != "" && ValidKey(name) then Converted(convert, Walk("", root), name) else [])
  }

  lemma TookNothing<V(!new)>(was: Past<V>)
    ensures Took(was, was, [])
  {
  }

  /** Taking some values and then at most one more. */
  lemma TookOn<V(!new)>(was: Past<V>, mid: Past<V>, now: Past<V>, a: seq<V>, b: seq<V>)
    requires |b| <= 1 && Took(was, mid, a) && Took(mid, now, b)
    ensures Took(was, now, a + b)
  {
    if b == [] {
      assert a + b == a && Calls(mid.val, b) == [];
    } else {
      assert b == [b[0]] && [] + [b[0]] == b;
      CallsSnoc(was.val, a, b[0]);
      CallsSnoc(mid.val, [], b[0]);
    }
  }

  ghost function ValuesOf<V>(now: map<string, Past<V>>): Values<V> { map name | name in now :: now[name].val }

  lemma ValuesUpdate<V>(was: map<string, Past<V>>, key: string, one: Past<V>)
    requires key in was
    ensures ValuesOf(was[key := one]) == ValuesOf(was)[key := one.val]
    ensures one.val == was[key].val ==> ValuesOf(was[key := one]) == ValuesOf(was)
  {
  }

  lemma GaveNothing<V(!new)>(was: map<string, Past<V>>, convert: Conversion<V>)
    ensures Gave(was, was, convert, [])
  {
    forall name | name in was
      ensures Took(was[name], was[name], AllGiven(convert, [], name))
    {
      TookNothing(was[name]);
    }
  }

  lemma GaveOn<V(!new)>(was: map<string, Past<V>>, mid: map<string, Past<V>>, now: map<string, Past<V>>, convert: Conversion<V>,
      ms: seq<Member>, i: nat)
    requires i < |ms| && Gave(was, mid, convert, ms[..i]) && GaveOne(mid, now, convert, ms[i])
    ensures Gave(was, now, convert, ms[..i + 1])
  {
    assert ms[..i + 1][..i] == ms[..i];
    forall name | name in was
      ensures Took(was[name], now[name], AllGiven(convert, ms[..i + 1], name))
    {
      TookOn(was[name], mid[name], now[name], AllGiven(convert, ms[..i], name), Given(convert, ms[i], name));
    }
  }

  lemma GaveAll<V(!new)>(was: map<string, Past<V>>, now: map<string, Past<V>>, convert: Conversion<V>, root: Node)
    requires Gave(was, now, convert, Listed("", root))
    ensures GaveTree(was, now, convert, root)
  {
    forall name | name in was
      ensures Took(was[name], now[name], if name != "" && ValidKey(name) then Converted(convert, Walk("", root), name) else [])
    {
      LoadGives(convert, root, name);
    }
  }

  /** Only the setting the node names, if there is one, has changed. */
  lemma OneGiven<V(!new)>(was: map<string, Past<V>>, now: map<string, Past<V>>, convert: Conversion<V>, m: Member)
    requires was.Keys == now.Keys
    requires
      var key := ToLower(m.key);
      if m.key != "" && key in was then
        now == was[key := now[key]] && Took(was[key], now[key], if convert(key, m.node.text).Some? then [convert(key, m.node.text).value] else [])
      else now == was
    ensures GaveOne(was, now, convert, m)
  {
    forall name | name in was
      ensures Took(was[name], now[name], Given(convert, m, name))
    {
      if !(m.key != "" && name == ToLower(m.key)) { TookNothing(was[name]); }
    }
  }

  class ConfigMgr<V(==, !new)> {
    var data: map<string, ConfigArg<V>>

    /** Settings of different names are different objects, each in order. */
    ghost predicate Valid()
      reads this, data.Values
    {
      && (forall a, b | a in data && b in data && a != b :: data[a] != data[b])
      && (forall a | a in data :: data[a].Valid())
    }

    ghost function Abs(): (m: Values<V>)
      reads this, data.Values
    {
      ValuesOf(Now())
    }

    ghost function Now(): (m: map<string, Past<V>>)
      reads this, data.Values
      ensures m.Keys == data.Keys
      ensures forall name | name in m :: m[name] == data[name].Now()
    {
      map name | name in data :: data[name].Now()
    }

    /** fromString of one setting: the others stay (329-340). */
    method SetFromString(key: string, val: Option<V>)
      requires Valid() && key in data
      modifies data[key]
      ensures Valid() && Abs() == old(Abs())[key := val.GetOr(old(Abs())[key])]
      ensures Now() == old(Now())[key := Now()[key]]
      ensures Took(old(Now()[key]), Now()[key], if val.Some? then [val.value] else [])
    {
      ghost var was := Now();
      var ok := data[key].FromString(val);
      ghost var one := data[key].Now();
      assert Now() == was[key := one];
      ValuesUpdate(was, key, one);
    }

    /** One turn of the loop (43-61). */
    method LoadOne(convert: Conversion<V>, m: Member)
      requires Valid()
      modifies data.Values
      ensures Valid() && Abs() == Config.LoadOne(old(Abs()), convert, m)
      ensures GaveOne(old(Now()), Now(), convert, m)
    {
      ghost var was := Now();
      var key := ToLower(m.key);
      if m.key != "" && key in data {
        SetFromString(key, convert(key, m.node.text));
      }
      OneGiven(was, Now(), convert, m);
    }

    method LoadMembers(convert: Conversion<V>, allNodes: seq<Member>)
      requires Valid()
      modifies data.Values
      ensures Valid() && Abs() == LoadAll(old(Abs()), convert, allNodes)
      ensures Gave(old(Now()), Now(), convert, allNodes)
    {
      ghost var all, was := LoadAll(Abs(), convert, allNodes), Now();
      GaveNothing(was, convert);
      assert allNodes[..0] == [];
      var i := 0;
      while i < |allNodes|
        invariant 0 <= i <= |allNodes| && Valid()
        invariant LoadAll(Abs(), convert, allNodes[i..]) == all
        invariant Gave(was, Now(), convert, allNodes[..i])
      {
        ghost var mid := Now();
        LoadOne(convert, allNodes[i]);
        GaveOn(was, mid, Now(), convert, allNodes, i);
        assert allNodes[i..][0] == allNodes[i] && allNodes[i..][1..] == allNodes[i + 1..];
        i := i + 1;
      }
      assert allNodes[i..] == [] && allNodes[..i] == allNodes;
    }

    /** loadFromYaml (39-62): every setting takes the texts given to it, and its listeners hear of each change. */
    method LoadFromYaml(convert: Conversion<V>, root: Node)
      requires Valid()
      modifies data.Values
      ensures Valid() && Abs() == Load(old(Abs()), convert, root)
      ensures GaveTree(old(Now()), Now(), convert, root)
    {
      ghost var was := Now();
      var allNodes := ListAllMember("", root, []);
      assert allNodes == Listed("", root);
      LoadMembers(convert, allNodes);
      GaveAll(was, Now(), convert, root);
    }
  }
}
