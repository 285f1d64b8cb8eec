/**
 Loading of settings from a YAML tree (source/config.cpp:20-62) and one setting with its listeners
 (source/config.hpp:329-390).  The text of a tree and the conversion of a text to a value are not modelled: a node
 carries the string `fromString` gets, and a conversion is any partial function.
 */
module Config {
  import opened Types
  import opened Loggers

  /** A YAML node: its text for `fromString`, and its entries when it is a map. */
  datatype Node = Leaf(text: string) | Branch(text: string, entries: seq<Child>)
  datatype Child = Child(key: string, node: Node)

  /** An element of the list built by listAllMember. */
  datatype Member = Member(key: string, node: Node)

  /** abcdefghijklmnopqrstuvwxyz._0123456789 (23) */
  predicate Allowed(c: char) { 'a' <= c <= 'z' || c == '.' || c == '_' || '0' <= c <= '9' }
  predicate ValidKey(key: string) { forall c | c in key :: Allowed(c) }

  function Join(key: string, child: string): string { if key == "" then child else key + "." + child }

  /** listAllMember (20-36): a subtree with a bad key is left out whole. */
  function Listed(key: string, node: Node): seq<Member>
    decreases node, 1, 0
  {
    if !ValidKey(key) then [] else [Member(key, node)] + ListedFrom(key, node, 0)
  }

  function ListedFrom(key: string, node: Node, i: nat): seq<Member>
    decreases node, 0, if node.Branch? then |node.entries| - i else 0
  {
    if node.Leaf? || i >= |node.entries| then []
    else Listed(Join(key, node.entries[i].key), node.entries[i].node) + ListedFrom(key, node, i + 1)
  }

  /** Every node of the tree with its dotted key, parents first. */
  function Walk(key: string, node: Node): seq<Member>
    decreases node, 1, 0
  {
    [Member(key, node)] + WalkFrom(key, node, 0)
  }

  function WalkFrom(key: string, node: Node, i: nat): seq<Member>
    decreases node, 0, if node.Branch? then |node.entries| - i else 0
  {
    if node.Leaf? || i >= |node.entries| then []
    else Walk(Join(key, node.entries[i].key), node.entries[i].node) + WalkFrom(key, node, i + 1)
  }

  function OnlyValid(ms: seq<Member>): seq<Member> {
    if ms == [] then [] else (if ValidKey(ms[0].key) then [ms[0]] else []) + OnlyValid(ms[1..])
  }

  lemma {:induction false} OnlyValidConcat(a: seq<Member>, b: seq<Member>)
    ensures OnlyValid(a + b) == OnlyValid(a) + OnlyValid(b)
  {
    if a == [] {
      assert a + b == b;
    } else {
      assert (a + b)[1..] == a[1..] + b;
      OnlyValidConcat(a[1..], b);
    }
  }

  /** A key below a bad key is bad. */
  lemma JoinBad(key: string, child: string)
    requires !ValidKey(key)
    ensures !ValidKey(Join(key, child))
  {
    var c :| c in key && !Allowed(c);
    assert c in Join(key, child);
  }

  lemma {:induction false} BelowBad(key: string, node: Node)
    requires !ValidKey(key)
    ensures OnlyValid(Walk(key, node)) == []
    decreases node, 1, 0
  {
    BelowBadFrom(key, node, 0);
    assert Walk(key, node)[1..] == WalkFrom(key, node, 0);
  }

  lemma {:induction false} BelowBadFrom(key: string, node: Node, i: nat)
    requires !ValidKey(key)
    ensures OnlyValid(WalkFrom(key, node, i)) == []
    decreases node, 0, if node.Branch? then |node.entries| - i else 0
  {
    if node.Branch? && i < |node.entries| {
      var c := node.entries[i];
      JoinBad(key, c.key);
      BelowBad(Join(key, c.key), c.node);
      BelowBadFrom(key, node, i + 1);
      OnlyValidConcat(Walk(Join(key, c.key), c.node), WalkFrom(key, node, i + 1));
    }
  }

  /** Leaving out subtrees comes to leaving out the nodes whose own dotted key is bad. */
  lemma {:induction false} PruningIsFiltering(key: string, node: Node)
    ensures Listed(key, node) == OnlyValid(Walk(key, node))
    decreases node, 1, 0
  {
    assert Walk(key, node)[1..] == WalkFrom(key, node, 0);
    if ValidKey(key) {
      PruningIsFilteringFrom(key, node, 0);
    } else {
      BelowBad(key, node);
    }
  }

  lemma {:induction false} PruningIsFilteringFrom(key: string, node: Node, i: nat)
    requires ValidKey(key)
    ensures ListedFrom(key, node, i) == OnlyValid(WalkFrom(key, node, i))
    decreases node, 0, if node.Branch? then |node.entries| - i else 0
  {
    if node.Branch? && i < |node.entries| {
      var c := node.entries[i];
      PruningIsFiltering(Join(key, c.key), c.node);
      PruningIsFilteringFrom(key, node, i + 1);
      OnlyValidConcat(Walk(Join(key, c.key), c.node), WalkFrom(key, node, i + 1));
    }
  }

  /** ::tolower in the C locale. */
  function Lower(c: char): char { if 'A' <= c <= 'Z' then c - 'A' + 'a' else c }
  function ToLower(s: string): (r: string)
    ensures |r| == |s| && forall i | 0 <= i < |s| :: r[i] == Lower(s[i])
  {
    seq(|s|, i requires 0 <= i < |s| => Lower(s[i]))
  }

  /** Lower-casing (49) changes no listed key. */
  lemma LowerIdentity(key: string)
    requires ValidKey(key)
    ensures ToLower(key) == key
  {
    forall i | 0 <= i < |key|
      ensures ToLower(key)[i] == key[i]
    {
      assert key[i] in key;
    }
  }

  // ---- keys, said without the functions that build them --------------------------------------------------

  /** The characters of a key, by their codes: a to z, 0 to 9, the dot and the underscore (23). */
  lemma AllowedExact(c: char)
    ensures Allowed(c) <==> 97 <= c as int <= 122 || 48 <= c as int <= 57 || c as int == 46 || c as int == 95
  {
  }

  /** Child i of a map, its child, and so on. */
  predicate IsPath(node: Node, path: seq<nat>)
    decreases path
  {
    path == [] || (node.Branch? && path[0] < |node.entries| && IsPath(node.entries[path[0]].node, path[1..]))
  }

  function NodeAt(node: Node, path: seq<nat>): Node
    requires IsPath(node, path)
    decreases path
  {
    if path == [] then node else NodeAt(node.entries[path[0]].node, path[1..])
  }

  /** The names along a path, each after a dot. */
  function Dotted(node: Node, path: seq<nat>): string
    requires IsPath(node, path)
    decreases path
  {
    if path == [] then "" else "." + node.entries[path[0]].key + Dotted(node.entries[path[0]].node, path[1..])
  }

  lemma {:induction false} WalkReaches(key: string, node: Node, path: seq<nat>)
    requires IsPath(node, path) && key != ""
    ensures Member(key + Dotted(node, path), NodeAt(node, path)) in Walk(key, node)
    decreases path
  {
    if path == [] {
      assert key + "" == key && Walk(key, node)[0] == Member(key, node);
    } else {
      var c := node.entries[path[0]];
      WalkReaches(Join(key, c.key), c.node, path[1..]);
      var below := Dotted(c.node, path[1..]);
      ChildIn(key, node, 0, path[0], Member(Join(key, c.key) + below, NodeAt(c.node, path[1..])));
      DottedOn(key, c.key, below);
    }
  }

  lemma DottedOn(key: string, child: string, below: string)
    requires key != ""
    ensures Join(key, child) + below == key + ("." + child + below)
  {
    assert key + "." + child + below == key + ("." + child + below);
  }

  lemma {:induction false} ChildIn(key: string, node: Node, i: nat, k: nat, m: Member)
    requires node.Branch? && i <= k < |node.entries| && m in Walk(Join(key, node.entries[k].key), node.entries[k].node)
    ensures m in WalkFrom(key, node, i) && m in Walk(key, node)
    decreases k - i
  {
    if i < k { ChildIn(key, node, i + 1, k, m); }
    WalkHas(key, node, i, m);
  }

  /** What follows child i is part of the whole walk. */
  lemma {:induction false} WalkHas(key: string, node: Node, i: nat, m: Member)
    requires node.Branch? && i <= |node.entries| && m in WalkFrom(key, node, i)
    ensures m in Walk(key, node)
    decreases i
  {
    if i > 0 { WalkHas(key, node, i - 1, m); }
  }

  /** Every node of a tree is visited under the names on its path, joined by dots (31-34). */
  lemma NodeReached(root: Node, path: seq<nat>)
    requires IsPath(root, path) && path != [] && root.entries[path[0]].key != ""
    ensures
      var c := root.entries[path[0]];
      Member(c.key + Dotted(c.node, path[1..]), NodeAt(root, path)) in Walk("", root)
  {
    var c := root.entries[path[0]];
    WalkReaches(c.key, c.node, path[1..]);
    ChildIn("", root, 0, path[0], Member(c.key + Dotted(c.node, path[1..]), NodeAt(c.node, path[1..])));
  }

  /** Of two children with the same name the later one is visited later. */
  lemma SiblingsInOrder(name: string, text: string, x: string, y: string)
    requires name != ""
    ensures Walk("", Branch(text, [Child(name, Leaf(x)), Child(name, Leaf(y))])) ==
      [Member("", Branch(text, [Child(name, Leaf(x)), Child(name, Leaf(y))])), Member(name, Leaf(x)), Member(name, Leaf(y))]
  {
    var root := Branch(text, [Child(name, Leaf(x)), Child(name, Leaf(y))]);
    assert WalkFrom("", root, 2) == [];
    assert forall z :: Walk(name, Leaf(z)) == [Member(name, Leaf(z))];
    assert WalkFrom("", root, 1) == [Member(name, Leaf(y))];
    assert WalkFrom("", root, 0) == [Member(name, Leaf(x))] + [Member(name, Leaf(y))];
  }

  // ---- loading ------------------------------------------------------------------------------------------

  /** The registered settings and their values. */
  type Values<V> = map<string, V>

  /** How the text of a setting is converted, if it can be. */
  type Conversion<V> = (string, string) -> Option<V>

  /** One turn of the loop (43-61), with fromString (329-340): a text that does not convert changes nothing. */
  function LoadOne<V>(args: Values<V>, convert: Conversion<V>, m: Member): Values<V> {
    var key := ToLower(m.key);
    if m.key == "" || key !in args then args
    else if convert(key, m.node.text).None? then args
    else args[key := convert(key, m.node.text).value]
  }

  function LoadAll<V>(args: Values<V>, convert: Conversion<V>, ms: seq<Member>): Values<V> {
    if ms == [] then args else LoadAll(LoadOne(args, convert, ms[0]), convert, ms[1..])
  }

  /** The value from the last of these nodes that has the key and converts, else before. */
  function LastGood<V>(before: V, convert: Conversion<V>, ms: seq<Member>, key: string): V {
    if ms == [] then before
    else
      var v := if ms[0].key == key then convert(key, ms[0].node.text).GetOr(before) else before;
      LastGood(v, convert, ms[1..], key)
  }

  lemma {:induction false} LoadAllAt<V>(args: Values<V>, convert: Conversion<V>, ms: seq<Member>, key: string)
    requires forall m | m in ms :: ValidKey(m.key)
    ensures LoadAll(args, convert, ms).Keys == args.Keys
    ensures key in args && key != "" ==> LoadAll(args, convert, ms)[key] == LastGood(args[key], convert, ms, key)
    ensures "" in args ==> LoadAll(args, convert, ms)[""] == args[""]
  {
    if ms != [] {
      LowerIdentity(ms[0].key);
      LoadAllAt(LoadOne(args, convert, ms[0]), convert, ms[1..], key);
    }
  }

  lemma {:induction false} LastGoodFiltered<V>(before: V, convert: Conversion<V>, ms: seq<Member>, key: string)
    requires ValidKey(key)
    ensures LastGood(before, convert, OnlyValid(ms), key) == LastGood(before, convert, ms, key)
  {
    if ms != [] {
      var v := if ms[0].key == key then convert(key, ms[0].node.text).GetOr(before) else before;
      LastGoodFiltered(v, convert, ms[1..], key);
      if ValidKey(ms[0].key) {
        assert OnlyValid(ms)[0] == ms[0] && OnlyValid(ms)[1..] == OnlyValid(ms[1..]);
      } else {
        assert ms[0].key != key && OnlyValid(ms) == OnlyValid(ms[1..]);
        assert v == before;
      }
    }
  }

  lemma {:induction false} OnlyValidIsValid(ms: seq<Member>)
    ensures forall m | m in OnlyValid(ms) :: ValidKey(m.key)
  {
    if ms != [] { OnlyValidIsValid(ms[1..]); }
  }

  /** loadFromYaml (39-62) */
  function Load<V>(args: Values<V>, convert: Conversion<V>, root: Node): Values<V> {
    LoadAll(args, convert, Listed("", root))
  }

  /**
   After loading, every setting with a proper name holds the value of the last node anywhere in the tree that has its
   dotted key and converts, else its old value: neither pruning nor lower-casing shows.  No setting is added.
   */
  lemma LoadExact<V>(args: Values<V>, convert: Conversion<V>, root: Node, key: string)
    ensures Load(args, convert, root).Keys == args.Keys
    ensures key in args && key != "" && ValidKey(key) ==>
      Load(args, convert, root)[key] == LastGood(args[key], convert, Walk("", root), key)
    ensures key in args && (key == "" || !ValidKey(key)) ==> Load(args, convert, root)[key] == args[key]
  {
    PruningIsFiltering("", root);
    OnlyValidIsValid(Walk("", root));
    LoadAllAt(args, convert, Listed("", root), key);
    if ValidKey(key) {
      if key in args { LastGoodFiltered(args[key], convert, Walk("", root), key); }
    } else {
      NeverGood(convert, Listed("", root), key);
    }
  }

  lemma {:induction false} NeverGood<V>(convert: Conversion<V>, ms: seq<Member>, key: string)
    requires !ValidKey(key) && forall m | m in ms :: ValidKey(m.key)
    ensures forall before: V :: LastGood(before, convert, ms, key) == before
  {
    if ms != [] { NeverGood(convert, ms[1..], key); }
  }

  /** Either some node converts and the value before does not show, or none does and it stays. */
  lemma {:induction false} LastGoodEither<V>(a: V, b: V, convert: Conversion<V>, ms: seq<Member>, key: string)
    ensures
      var x, y := LastGood(a, convert, ms, key), LastGood(b, convert, ms, key);
      x == y || (x == a && y == b)
    decreases |ms|
  {
    if ms != [] {
      var v := if ms[0].key == key then convert(key, ms[0].node.text) else None;
      LastGoodEither(v.GetOr(a), v.GetOr(b), convert, ms[1..], key);
    }
  }

  /** Loading the same tree again changes nothing. */
  lemma LoadTwice<V>(args: Values<V>, convert: Conversion<V>, root: Node)
    ensures Load(Load(args, convert, root), convert, root) == Load(args, convert, root)
  {
    var once := Load(args, convert, root);
    var twice := Load(once, convert, root);
    LoadExact(args, convert, root, "");
    LoadExact(once, convert, root, "");
    forall key | key in args
      ensures twice[key] == once[key]
    {
      LoadExact(args, convert, root, key);
      LoadExact(once, convert, root, key);
      LastGoodEither(args[key], once[key], convert, Walk("", root), key);
    }
  }

  // ---- what listeners hear of a load --------------------------------------------------------------------

  /** What one listed node gives a setting: its converted text, if the key is its name and the text converts. */
  function Given<V>(convert: Conversion<V>, m: Member, name: string): seq<V> {
    if m.key != "" && ToLower(m.key) == name && convert(name, m.node.text).Some? then [convert(name, m.node.text).value] else []
  }

  function AllGiven<V>(convert: Conversion<V>, ms: seq<Member>, name: string): seq<V> {
    if ms == [] then [] else AllGiven(convert, ms[..|ms| - 1], name) + Given(convert, ms[|ms| - 1], name)
  }

  /** The texts with this key that convert, in order. */
  function Converted<V>(convert: Conversion<V>, ms: seq<Member>, key: string): seq<V> {
    if ms == [] then []
    else
      Converted(convert, ms[..|ms| - 1], key) +
      (if ms[|ms| - 1].key == key && convert(key, ms[|ms| - 1].node.text).Some? then [convert(key, ms[|ms| - 1].node.text).value] else [])
  }

  lemma {:induction false} GivenIsConverted<V>(convert: Conversion<V>, ms: seq<Member>, key: string)
    requires forall m | m in ms :: ValidKey(m.key)
    ensures AllGiven(convert, ms, key) == if key == "" then [] else Converted(convert, ms, key)
    ensures !ValidKey(key) ==> AllGiven(convert, ms, key) == []
    decreases |ms|
  {
    if ms != [] {
      assert ms[|ms| - 1] in ms;
      LowerIdentity(ms[|ms| - 1].key);
      GivenIsConverted(convert, ms[..|ms| - 1], key);
    }
  }

  lemma {:induction false} ConvertedFiltered<V>(convert: Conversion<V>, ms: seq<Member>, key: string)
    requires ValidKey(key)
    ensures Converted(convert, OnlyValid(ms), key) == Converted(convert, ms, key)
    decreases |ms|
  {
    if ms != [] {
      var front, last := ms[..|ms| - 1], ms[|ms| - 1];
      assert ms == front + [last];
      OnlyValidConcat(front, [last]);
      assert OnlyValid([last]) == if ValidKey(last.key) then [last] else [];
      ConvertedFiltered(convert, front, key);
      if ValidKey(last.key) {
        assert OnlyValid(ms) == OnlyValid(front) + [last];
        assert OnlyValid(ms)[..|OnlyValid(ms)| - 1] == OnlyValid(front);
      } else {
        assert OnlyValid(ms) == OnlyValid(front);
      }
    }
  }

  function Loaded<V>(convert: Conversion<V>, root: Node, name: string): seq<V> {
    if name != "" && ValidKey(name) then Converted(convert, Walk("", root), name) else []
  }

  /** A load gives a setting the texts of all nodes with its dotted key that convert, in the order of the tree. */
  lemma LoadGives<V>(convert: Conversion<V>, root: Node, name: string)
    ensures AllGiven(convert, Listed("", root), name) == Loaded(convert, root, name)
  {
    PruningIsFiltering("", root);
    OnlyValidIsValid(Walk("", root));
    GivenIsConverted(convert, Listed("", root), name);
    if ValidKey(name) { ConvertedFiltered(convert, Walk("", root), name); }
  }

  // ---- objects ------------------------------------------------------------------------------------------

  /** A notification of one listener. */
  datatype Note<V> = Note(listener: nat, change: Change<V>)

  function NotesTo<V>(ids: seq<nat>, c: Change<V>): (r: seq<Note<V>>)
    ensures |r| == |ids| && forall i | 0 <= i < |ids| :: r[i] == Note(ids[i], c)
  {
    seq(|ids|, i requires 0 <= i < |ids| => Note(ids[i], c))
  }

  /** What one listener has been told. */
  function Heard<V>(notes: seq<Note<V>>, id: nat): seq<Change<V>> {
    if notes == [] then [] else (if notes[0].listener == id then [notes[0].change] else []) + Heard(notes[1..], id)
  }

  lemma {:induction false} HeardConcat<V>(a: seq<Note<V>>, b: seq<Note<V>>, id: nat)
    ensures Heard(a + b, id) == Heard(a, id) + Heard(b, id)
  {
    if a == [] {
      assert a + b == b;
    } else {
      assert (a + b)[1..] == a[1..] + b;
      HeardConcat(a[1..], b, id);
      Associative(if a[0].listener == id then [a[0].change] else [], Heard(a[1..], id), Heard(b, id));
    }
  }

  predicate Ascending(ids: seq<nat>) { forall i, j | 0 <= i < j < |ids| :: ids[i] < ids[j] }

  /** A registered listener is told once, another one not at all. */
  lemma {:induction false} NotesHeard<V>(ids: seq<nat>, c: Change<V>, id: nat)
    requires Ascending(ids)
    ensures Heard(NotesTo(ids, c), id) == if id in ids then [c] else []
  {
    if ids != [] {
      assert NotesTo(ids, c)[1..] == NotesTo(ids[1..], c);
      NotesHeard(ids[1..], c, id);
    }
  }

  lemma Removed(ids: seq<nat>, i: nat)
    requires Ascending(ids) && i < |ids|
    ensures
      var rest := ids[..i] + ids[i + 1..];
      Ascending(rest) && forall id :: id in rest <==> id in ids && id != ids[i]
  {
    var rest := ids[..i] + ids[i + 1..];
    forall id | id in ids && id != ids[i]
      ensures id in rest
    {
      var k :| 0 <= k < |ids| && ids[k] == id;
      assert id == if k < i then rest[k] else rest[k - 1];
    }
  }

  /** A setting at some moment: its listeners, its value, what they have been told. */
  datatype Past<V> = Past(cbs: seq<nat>, val: V, notes: seq<Note<V>>)

  /** A setting has taken values one after the other, and each of its listeners, and no other, has heard the changes. */
  ghost predicate Took<V(!new)>(was: Past<V>, now: Past<V>, values: seq<V>) {
    && now.cbs == was.cbs && now.val == Final(was.val, values)
    && forall id: nat :: (
      Heard(now.notes, id) == Heard(was.notes, id) + (if id in was.cbs then Calls(was.val, values) else []))
  }

  /** `ConfigArg<T>` (config.hpp:302-396); its listeners by id, and what they have been told. */
  class ConfigArg<V(==, !new)> {
    var m_val: V
    var m_cbs: seq<nat>
    var funcId: nat
    var notes: seq<Note<V>>

    constructor (defaultValue: V)
      ensures Valid() && m_val == defaultValue && m_cbs == [] && notes == []
    {
      m_val, m_cbs, funcId, notes := defaultValue, [], 0, [];
    }

    ghost function Now(): Past<V>
      reads this
    {
      Past(m_cbs, m_val, notes)
    }

    /** Ids are given out in rising order and never again. */
    ghost predicate Valid()
      reads this
    {
      Ascending(m_cbs) && forall i | 0 <= i < |m_cbs| :: m_cbs[i] <= funcId
    }

    /** addListener (366-372) */
    method AddListener() returns (id: nat)
      requires Valid()
      modifies this`m_cbs, this`funcId
      ensures Valid() && m_cbs == old(m_cbs) + [id] && id !in old(m_cbs) && id > old(funcId)
    {
      funcId := funcId + 1;
      m_cbs := m_cbs + [funcId];
      return funcId;
    }

    /** delListener (374-377) */
    method DelListener(key: nat)
      requires Valid()
      modifies this`m_cbs
      ensures Valid() && key !in m_cbs
      ensures forall id | id != key :: id in m_cbs <==> id in old(m_cbs)
    {
      var i := 0;
      while i < |m_cbs| && m_cbs[i] != key
        invariant 0 <= i <= |m_cbs| && forall k | 0 <= k < i :: m_cbs[k] != key
      {
        i := i + 1;
      }
      if i < |m_cbs| {
        Removed(m_cbs, i);
        m_cbs := m_cbs[..i] + m_cbs[i + 1..];
      }
    }

    /** setValue (347-362): every listener is told of the change, none of an equal value. */
    method SetValue(val: V)
      requires Valid()
      modifies this`m_val, this`notes
      ensures Valid() && m_val == val
      ensures forall id: nat :: (
        Heard(notes, id) == Heard(old(notes), id) + (if id in m_cbs then Calls(old(m_val), [val]) else []))
    {
      if m_val == val { return; }
      var i := 0;
      ghost var c := Change(m_val, val);
      while i < |m_cbs|
        invariant 0 <= i <= |m_cbs| && m_val == old(m_val)
        invariant notes == old(notes) + NotesTo(m_cbs[..i], c)
      {
        assert NotesTo(m_cbs[..i + 1], c) == NotesTo(m_cbs[..i], c) + [Note(m_cbs[i], c)];
        notes := notes + [Note(m_cbs[i], Change(m_val, val))];
        i := i + 1;
      }
      m_val := val;
      assert m_cbs[..i] == m_cbs;
      forall id: nat
        ensures Heard(notes, id) == Heard(old(notes), id) + (if id in m_cbs then [c] else [])
      {
        HeardConcat(old(notes), NotesTo(m_cbs, c), id);
        NotesHeard(m_cbs, c, id);
      }
      assert Calls(old(m_val), [val]) == [c] + Calls(val, []);
    }

    /** fromString (329-340) */
    method FromString(val: Option<V>) returns (ok: bool)
      requires Valid()
      modifies this`m_val, this`notes
      ensures Valid() && ok == val.Some? && m_val == val.GetOr(old(m_val))
      ensures forall id: nat :: (
        Heard(notes, id) == Heard(old(notes), id) + (if val.Some? && id in m_cbs then Calls(old(m_val), [val.value]) else []))
      ensures Took(old(Now()), Now(), if val.Some? then [val.value] else [])
    {
      if val.None? { return false; }
      SetValue(val.value);
      return true;
    }
  }
}
