/** Keyed in-place reconciliation of a list of rows against freshly generated markup.

    Markup is taken at face value: two nodes have the same markup exactly when tag, attributes and inner
    markup agree. */
module PatchRows {
  import opened Base

  datatype Element = Element(tag: string, attributes: map<string, string>, inner: string)

  function KeyOf(attributes: map<string, string>): Option<string> {
    if "data-history-id" in attributes then Some(attributes["data-history-id"])
    else if "data-build-number" in attributes then Some(attributes["data-build-number"])
    else None
  }

  function KeysOf(rows: seq<Element>): (keys: seq<Option<string>>)
    ensures |keys| == |rows| && forall i :: 0 <= i < |rows| ==> keys[i] == KeyOf(rows[i].attributes)
  {
    if rows == [] then [] else [KeyOf(rows[0].attributes)] + KeysOf(rows[1..])
  }

  // ---------------------------------------------------------------- which old row a new row takes over

  function LastIndex(keys: seq<Option<string>>, key: Option<string>): (found: Option<nat>)
    ensures found == None <==> key !in keys
    ensures found.Some? ==> found.value < |keys| && keys[found.value] == key
    ensures found.Some? ==> forall j :: found.value < j < |keys| ==> keys[j] != key
  {
    if keys == [] then None
    else if keys[|keys| - 1] == key then Some(|keys| - 1)
    else LastIndex(keys[..|keys| - 1], key)
  }

  /** The first new row of a key takes over the last old row of that key; every other row is new. */
  function MatchOf(olds: seq<Option<string>>, news: seq<Option<string>>, i: nat): Option<nat>
    requires i < |news|
  {
    if news[i] == None || news[i] in news[..i] then None else LastIndex(olds, news[i])
  }

  lemma MatchesAreDistinct(olds: seq<Option<string>>, news: seq<Option<string>>, i: nat, j: nat)
    requires i < j < |news| && MatchOf(olds, news, i).Some?
    ensures MatchOf(olds, news, i) != MatchOf(olds, news, j)
  {
    assert news[..j][i] == news[i];
  }

  /** A key that old and new rows share keeps exactly one old row: the last of its duplicates, at the place
      of the first new row of that key. */
  lemma SurvivingKeyKeepsOneRow(olds: seq<Option<string>>, news: seq<Option<string>>, key: Option<string>)
      returns (i: nat)
    requires key.Some? && key in olds && key in news
    ensures i < |news| && news[i] == key && MatchOf(olds, news, i) == LastIndex(olds, key) && LastIndex(olds, key).Some?
    ensures forall j :: 0 <= j < |news| && j != i && news[j] == key ==> MatchOf(olds, news, j) == None
    ensures forall j :: 0 <= j < i ==> news[j] != key
  {
    i := 0;
    while news[i] != key
      invariant i < |news| && key in news[i..]
      invariant forall j :: 0 <= j < i ==> news[j] != key
      decreases |news| - i
    {
      assert news[i..] == [news[i]] + news[i + 1..];
      i := i + 1;
    }
    forall j | 0 <= j < |news| && j != i && news[j] == key
      ensures MatchOf(olds, news, j) == None
    {
      assert news[..j][i] == key;
    }
  }

  // ---------------------------------------------------------------- sequences of nodes

  function Without<T(==)>(s: seq<T>, x: T): (rest: seq<T>)
    ensures forall y :: y in rest ==> y in s && y != x
    ensures forall y :: y in s && y != x ==> y in rest
  {
    if s == [] then [] else if s[0] == x then Without(s[1..], x) else [s[0]] + Without(s[1..], x)
  }

  lemma {:induction false} WithoutAppend<T>(s: seq<T>, t: seq<T>, x: T)
    ensures Without(s + t, x) == Without(s, x) + Without(t, x)
  {
    if s == [] {
      assert s + t == t;
    } else {
      assert (s + t)[1..] == s[1..] + t;
      WithoutAppend(s[1..], t, x);
    }
  }

  lemma {:induction false} WithoutAbsent<T>(s: seq<T>, x: T)
    requires x !in s
    ensures Without(s, x) == s
  {
    if s != [] {
      WithoutAbsent(s[1..], x);
    }
  }

  ghost predicate AllDistinct<T>(s: seq<T>) {
    forall i, j :: 0 <= i < j < |s| ==> s[i] != s[j]
  }

  lemma PartsAreDisjoint<T>(s: seq<T>, t: seq<T>)
    requires AllDistinct(s + t)
    ensures AllDistinct(s) && AllDistinct(t)
    ensures forall k :: 0 <= k < |t| ==> t[k] !in s
  {
    forall k | 0 <= k < |t|
      ensures t[k] !in s
    {
      forall i | 0 <= i < |s|
        ensures s[i] != t[k]
      {
        assert (s + t)[i] == s[i] && (s + t)[|s| + k] == t[k];
      }
    }
    assert forall i, j :: 0 <= i < j < |t| ==> (s + t)[|s| + i] == t[i] && (s + t)[|s| + j] == t[j];
    assert forall i :: 0 <= i < |s| ==> (s + t)[i] == s[i];
  }

  lemma {:induction false} WithoutKeepsDistinct<T>(s: seq<T>, x: T)
    requires AllDistinct(s)
    ensures AllDistinct(Without(s, x))
  {
    if s != [] {
      WithoutKeepsDistinct(s[1..], x);
      if s[0] != x {
        assert s[0] !in Without(s[1..], x);
      }
    }
  }

  function IndexOf<T(==)>(s: seq<T>, x: T): (k: nat)
    requires x in s
    ensures k < |s| && s[k] == x && x !in s[..k]
  {
    if s[0] == x then 0
    else
      var k := IndexOf(s[1..], x);
      assert s[..k + 1] == [s[0]] + s[1..][..k];
      k + 1
  }

  lemma {:induction false} IndexAfterPrefix<T>(s: seq<T>, t: seq<T>, x: T)
    requires x !in s && t != [] && t[0] == x
    ensures IndexOf(s + t, x) == |s|
  {
    if s == [] {
      assert s + t == t;
    } else {
      assert (s + t)[1..] == s[1..] + t;
      IndexAfterPrefix(s[1..], t, x);
    }
  }

  lemma PlacedIsDistinct<T>(s: seq<T>, t: seq<T>, x: T)
    requires AllDistinct(s + t) && x !in s
    ensures AllDistinct(s + [x] + Without(t, x))
  {
    PartsAreDisjoint(s, t);
    WithoutKeepsDistinct(t, x);
    var u := s + [x] + Without(t, x);
    forall i, j | 0 <= i < j < |u|
      ensures u[i] != u[j]
    {
      if j > |s| {
        assert u[j] == Without(t, x)[j - |s| - 1];
        assert u[j] in Without(t, x);
      }
    }
  }

  lemma HeadLeaves<T>(s: seq<T>, t: seq<T>)
    requires AllDistinct(s + t) && t != []
    ensures Without(t, t[0]) == t[1..] && Without(s + t, t[0]) == s + t[1..]
    ensures s + t == s + [t[0]] + t[1..] && AllDistinct(s + t[1..])
  {
    PartsAreDisjoint(s, t);
    WithoutAbsent(t[1..], t[0]);
    WithoutAppend(s, t, t[0]);
    WithoutAbsent(s, t[0]);
    WithoutKeepsDistinct(s + t, t[0]);
  }

  lemma HeadStays<T>(t: seq<T>, x: T)
    requires t == [] || t[0] != x
    ensures Without(t, x) == [] <==> t == []
    ensures t != [] ==> Without(t, x)[0] == t[0]
  {
  }

  // ---------------------------------------------------------------- the document

  class Node {
    const tag: string
    var attributes: map<string, string>
    var inner: string

    constructor (e: Element)
      ensures Value() == e
    {
      tag, attributes, inner := e.tag, e.attributes, e.inner;
    }

    function Value(): Element
      reads this
    {
      Element(tag, attributes, inner)
    }

    /** Bring attributes and inner markup to those of another node; the tag stays what it is. */
    method PatchTo(next: Node)
      requires next != this
      modifies this
      ensures attributes == next.attributes && inner == next.inner
    {
      if Value() == next.Value() {
        return;
      }
      var names := next.attributes.Keys;
      while names != {}
        invariant names <= next.attributes.Keys
        invariant forall a :: a in next.attributes && a !in names ==> a in attributes && attributes[a] == next.attributes[a]
        decreases |names|
      {
        var name :| name in names;
        if name !in attributes || attributes[name] != next.attributes[name] {
          attributes := attributes[name := next.attributes[name]];
        }
        names := names - {name};
      }
      names := attributes.Keys;
      while names != {}
        invariant forall a :: a in next.attributes ==> a in attributes && attributes[a] == next.attributes[a]
        invariant forall a :: a in attributes && a !in names ==> a in next.attributes
        decreases |names|
      {
        var name :| name in names;
        if name !in next.attributes {
          attributes := attributes - {name};
        }
        names := names - {name};
      }
      if inner != next.inner {
        inner := next.inner;
      }
    }
  }

  class Container {
    var children: seq<Node>
    var rendered: Option<string>

    constructor ()
      ensures children == [] && rendered == None
    {
      children, rendered := [], None;
    }

    method NextSibling(node: Node, ghost placed: seq<Node>, ghost rest: seq<Node>) returns (next: Node?)
      requires children == placed + rest && AllDistinct(children) && rest != [] && rest[0] == node
      ensures next == if |rest| == 1 then null else rest[1]
    {
      PartsAreDisjoint(placed, rest);
      IndexAfterPrefix(placed, rest, node);
      var k := IndexOf(children, node);
      next := if k + 1 < |children| then children[k + 1] else null;
    }

    /** Moves the node if it is already a child. */
    method InsertBefore(target: Node, cursor: Node?, ghost placed: seq<Node>, ghost rest: seq<Node>)
      requires children == placed + rest && AllDistinct(children)
      requires cursor == if rest == [] then null else rest[0]
      requires target !in placed && target != cursor
      modifies this`children
      ensures children == placed + [target] + Without(rest, target)
    {
      PartsAreDisjoint(placed, rest);
      WithoutAppend(placed, rest, target);
      WithoutAbsent(placed, target);
      children := Without(children, target);
      var k := if cursor == null then |children| else IndexOf(children, cursor);
      if rest != [] {
        assert Without(rest, target)[0] == rest[0];
        IndexAfterPrefix(placed, Without(rest, target), rest[0]);
      }
      children := children[..k] + [target] + children[k..];
    }

    /** The next row goes where the cursor stands: it is already there, or it is brought there. */
    method PlaceNext(target: Node, cursor: Node?, ghost placed: seq<Node>, ghost rest: seq<Node>) returns (after: Node?)
      requires children == placed + rest && AllDistinct(children)
      requires cursor == if rest == [] then null else rest[0]
      requires target !in placed
      modifies this`children
      ensures children == placed + [target] + Without(rest, target) && AllDistinct(children)
      ensures after == if Without(rest, target) == [] then null else Without(rest, target)[0]
    {
      PlacedIsDistinct(placed, rest, target);
      if cursor == target {
        HeadLeaves(placed, rest);
        hide AllDistinct, Without;
        after := NextSibling(target, placed, rest);
      } else {
        HeadStays(rest, target);
        hide AllDistinct, Without;
        InsertBefore(target, cursor, placed, rest);
        after := cursor;
      }
    }

    method Remove(node: Node)
      modifies this`children
      ensures children == Without(old(children), node)
    {
      children := Without(children, node);
    }

    /** Remove everything from the cursor on. */
    method RemoveFrom(first: Node?, ghost placed: seq<Node>, ghost tail: seq<Node>)
      requires children == placed + tail && AllDistinct(children)
      requires first == if tail == [] then null else tail[0]
      modifies this`children
      ensures children == placed
    {
      var cursor := first;
      ghost var rest := tail;
      while cursor != null
        invariant children == placed + rest && AllDistinct(children)
        invariant cursor == if rest == [] then null else rest[0]
        decreases |rest|
      {
        HeadLeaves(placed, rest);
        hide AllDistinct, Without;
        var doomed := cursor;
        cursor := NextSibling(doomed, placed, rest);
        Remove(doomed);
        rest := rest[1..];
      }
      assert placed + [] == placed;
    }
  }

  // ---------------------------------------------------------------- the reconciliation

  function Values(nodes: seq<Node>): (rows: seq<Element>)
    reads nodes
    ensures |rows| == |nodes| && forall i :: 0 <= i < |nodes| ==> rows[i] == nodes[i].Value()
  {
    if nodes == [] then [] else [nodes[0].Value()] + Values(nodes[1..])
  }

  lemma LastIndexStep(keys: seq<Option<string>>, i: nat, key: Option<string>)
    requires i < |keys|
    ensures LastIndex(keys[..i + 1], key) == if keys[i] == key then Some(i) else LastIndex(keys[..i], key)
  {
    assert keys[..i + 1][..i] == keys[..i];
  }

  /** The keyed children; of several with one key the last one stays in the map. */
  method Keyed(nodes: seq<Node>, ghost keys: seq<Option<string>>) returns (existing: map<string, Node>)
    requires keys == KeysOf(Values(nodes))
    ensures forall key :: key in existing <==> LastIndex(keys, Some(key)).Some?
    ensures forall key :: key in existing ==> existing[key] == nodes[LastIndex(keys, Some(key)).value]
  {
    hide LastIndex, Values;
    existing := map[];
    for i := 0 to |nodes|
      invariant forall key :: key in existing <==> LastIndex(keys[..i], Some(key)).Some?
      invariant forall key :: key in existing ==> existing[key] == nodes[LastIndex(keys[..i], Some(key)).value]
    {
      assert keys[i] == KeyOf(nodes[i].attributes);
      forall key: string
        ensures LastIndex(keys[..i + 1], Some(key)) == if keys[i] == Some(key) then Some(i) else LastIndex(keys[..i], Some(key))
      {
        LastIndexStep(keys, i, Some(key));
      }
      var key := KeyOf(nodes[i].attributes);
      if key.Some? {
        existing := existing[key.value := nodes[i]];
      }
    }
    assert keys[..|nodes|] == keys;
  }

  /** The node that ends up as row i: the old node it matches, or the staged one. */
  ghost function Chosen(olds: seq<Node>, oldKeys: seq<Option<string>>, staged: seq<Node>,
      newKeys: seq<Option<string>>, i: nat): Node
    requires i < |staged| == |newKeys| && |olds| == |oldKeys|
  {
    match MatchOf(oldKeys, newKeys, i)
    case None => staged[i]
    case Some(m) => olds[m]
  }

  /** Parse the markup into nodes that belong to no document yet. */
  method Stage(rows: seq<Element>) returns (staged: seq<Node>)
    ensures fresh(staged) && AllDistinct(staged) && Values(staged) == rows
  {
    staged := [];
    for i := 0 to |rows|
      invariant |staged| == i && fresh(staged) && AllDistinct(staged)
      invariant forall j :: 0 <= j < i ==> staged[j].Value() == rows[j]
    {
      var node := new Node(rows[i]);
      staged := staged + [node];
    }
  }

  // ---------------------------------------------------------------- which node becomes which row

  /** Before row i the map holds the old node of every key that no earlier new row has taken. */
  ghost predicate Remaining(existing: map<string, Node>, olds: seq<Node>, oldKeys: seq<Option<string>>,
      newKeys: seq<Option<string>>, i: nat)
    requires |olds| == |oldKeys| && i <= |newKeys|
  {
    && (forall key :: key in existing <==> LastIndex(oldKeys, Some(key)).Some? && Some(key) !in newKeys[..i])
    && (forall key :: key in existing ==> existing[key] == olds[LastIndex(oldKeys, Some(key)).value])
  }

  lemma RemainingDecides(existing: map<string, Node>, olds: seq<Node>, oldKeys: seq<Option<string>>,
      newKeys: seq<Option<string>>, i: nat)
    requires |olds| == |oldKeys| && i < |newKeys| && Remaining(existing, olds, oldKeys, newKeys, i)
    ensures var key := newKeys[i];
            && (key.Some? && key.value in existing ==>
                  && MatchOf(oldKeys, newKeys, i).Some? && existing[key.value] == olds[MatchOf(oldKeys, newKeys, i).value]
                  && Remaining(existing - {key.value}, olds, oldKeys, newKeys, i + 1))
            && (key.None? || key.value !in existing ==>
                  && MatchOf(oldKeys, newKeys, i) == None
                  && Remaining(existing, olds, oldKeys, newKeys, i + 1))
  {
    hide LastIndex;
    assert newKeys[..i + 1] == newKeys[..i] + [newKeys[i]];
  }

  lemma ChosenIsNew(olds: seq<Node>, oldKeys: seq<Option<string>>, staged: seq<Node>, newKeys: seq<Option<string>>,
      j: nat, i: nat)
    requires j < i < |staged| == |newKeys| && |olds| == |oldKeys|
    requires AllDistinct(olds) && AllDistinct(staged) && forall n :: n in staged ==> n !in olds
    ensures Chosen(olds, oldKeys, staged, newKeys, j) != Chosen(olds, oldKeys, staged, newKeys, i)
  {
    if MatchOf(oldKeys, newKeys, j).Some? {
      MatchesAreDistinct(oldKeys, newKeys, j, i);
    }
    hide MatchOf;
    assert staged[i] in staged && staged[j] in staged;
  }

  // ---------------------------------------------------------------- the whole patch

  /** The nodes placed so far: each the chosen one, carrying the attributes and inner markup of its row. */
  ghost predicate PlacedWell(placed: seq<Node>, olds: seq<Node>, oldKeys: seq<Option<string>>, staged: seq<Node>,
                             newKeys: seq<Option<string>>, rows: seq<Element>)
    requires |placed| <= |staged| == |newKeys| == |rows| && |olds| == |oldKeys|
    reads placed
  {
    forall j :: 0 <= j < |placed| ==>
      && placed[j] == Chosen(olds, oldKeys, staged, newKeys, j)
      && placed[j].attributes == rows[j].attributes && placed[j].inner == rows[j].inner
  }

  /** The staged nodes are none of the old ones and still are what was parsed. */
  ghost predicate StagedWell(staged: seq<Node>, olds: seq<Node>, rows: seq<Element>)
    reads staged
  {
    && AllDistinct(staged) && AllDistinct(olds) && |staged| == |rows|
    && (forall j :: 0 <= j < |staged| ==> staged[j].Value() == rows[j])
    && (forall n :: n in staged ==> n !in olds)
  }

  lemma ChosenIsUnplaced(placed: seq<Node>, olds: seq<Node>, oldKeys: seq<Option<string>>, staged: seq<Node>,
                         newKeys: seq<Option<string>>, rows: seq<Element>)
    requires |placed| < |staged| == |newKeys| == |rows| && |olds| == |oldKeys| && StagedWell(staged, olds, rows)
    requires PlacedWell(placed, olds, oldKeys, staged, newKeys, rows)
    ensures Chosen(olds, oldKeys, staged, newKeys, |placed|) !in placed
  {
    forall j | 0 <= j < |placed|
      ensures placed[j] != Chosen(olds, oldKeys, staged, newKeys, |placed|)
    {
      ChosenIsNew(olds, oldKeys, staged, newKeys, j, |placed|);
    }
  }

  lemma StagedIsReady(staged: seq<Node>, olds: seq<Node>, rows: seq<Element>, k: nat)
    requires k < |staged| && StagedWell(staged, olds, rows)
    ensures k < |rows| && staged[k].Value() == rows[k] && staged[k] !in olds
  {
    assert staged[k] in staged;
  }

  lemma MapDecides(existing: map<string, Node>, olds: seq<Node>, oldKeys: seq<Option<string>>, staged: seq<Node>,
      newKeys: seq<Option<string>>, i: nat)
    requires |olds| == |oldKeys| && i < |newKeys| == |staged| && Remaining(existing, olds, oldKeys, newKeys, i)
    ensures var key, chosen := newKeys[i], Chosen(olds, oldKeys, staged, newKeys, i);
            && (key.Some? && key.value in existing ==>
                  existing[key.value] == chosen && chosen in olds && Remaining(existing - {key.value}, olds, oldKeys, newKeys, i + 1))
            && (key.None? || key.value !in existing ==> chosen == staged[i] && Remaining(existing, olds, oldKeys, newKeys, i + 1))
  {
    hide Remaining, LastIndex;
    RemainingDecides(existing, olds, oldKeys, newKeys, i);
  }

  lemma OneMorePlaced(placed: seq<Node>, target: Node, olds: seq<Node>, oldKeys: seq<Option<string>>, staged: seq<Node>,
                      newKeys: seq<Option<string>>, rows: seq<Element>)
    requires |placed| < |staged| == |newKeys| == |rows| && |olds| == |oldKeys|
    requires PlacedWell(placed, olds, oldKeys, staged, newKeys, rows) && target == Chosen(olds, oldKeys, staged, newKeys, |placed|)
    requires target.attributes == rows[|placed|].attributes && target.inner == rows[|placed|].inner
    ensures PlacedWell(placed + [target], olds, oldKeys, staged, newKeys, rows)
  {
    hide Chosen;
  }

  /** Find the node for the next row, patch it if it is an old one, and take its key out of the map. */
  method Prepare(next: Node, existing: map<string, Node>, ghost placed: seq<Node>, ghost olds: seq<Node>,
      ghost oldKeys: seq<Option<string>>,
                 ghost staged: seq<Node>, ghost newKeys: seq<Option<string>>, ghost rows: seq<Element>)
      returns (target: Node, left: map<string, Node>)
    requires |placed| < |staged| == |newKeys| == |rows| && |olds| == |oldKeys| && StagedWell(staged, olds, rows)
    requires next == staged[|placed|] && newKeys == KeysOf(rows)
    requires PlacedWell(placed, olds, oldKeys, staged, newKeys, rows) && Remaining(existing, olds, oldKeys, newKeys, |placed|)
    modifies olds
    ensures target == Chosen(olds, oldKeys, staged, newKeys, |placed|) && target !in placed
    ensures Remaining(left, olds, oldKeys, newKeys, |placed| + 1) && StagedWell(staged, olds, rows)
    ensures PlacedWell(placed + [target], olds, oldKeys, staged, newKeys, rows)
  {
    MapDecides(existing, olds, oldKeys, staged, newKeys, |placed|);
    ChosenIsUnplaced(placed, olds, oldKeys, staged, newKeys, rows);
    StagedIsReady(staged, olds, rows, |placed|);
    NoneOld(staged, olds, rows);
    hide PlacedWell, StagedWell, Remaining, Chosen;
    var key := KeyOf(next.attributes);
    target, left := next, existing;
    if key.Some? && key.value in existing {
      target := existing[key.value];
      target.PatchTo(next);
      left := existing - {key.value};
    }
    OneMorePlaced(placed, target, olds, oldKeys, staged, newKeys, rows);
  }

  lemma NoneOld(staged: seq<Node>, olds: seq<Node>, rows: seq<Element>)
    requires StagedWell(staged, olds, rows)
    ensures forall n :: n in olds ==> n !in staged
  {
  }

  /** Every row has its node: the matched old one or another, with the row's attributes and inner markup. */
  ghost predicate Rebuilt(olds: seq<Node>, oldKeys: seq<Option<string>>, nodes: seq<Node>, rows: seq<Element>)
    requires |olds| == |oldKeys|
    reads nodes
  {
    && |nodes| == |rows|
    && forall i :: 0 <= i < |rows| ==>
         && nodes[i].attributes == rows[i].attributes && nodes[i].inner == rows[i].inner
         && match MatchOf(oldKeys, KeysOf(rows), i)
            case Some(m) => nodes[i] == olds[m]
            case None => nodes[i] !in olds && nodes[i].tag == rows[i].tag
  }

  lemma NothingPlaced(existing: map<string, Node>, olds: seq<Node>, oldKeys: seq<Option<string>>, staged: seq<Node>,
      rows: seq<Element>)
    requires |olds| == |oldKeys| && AllDistinct(olds) && AllDistinct(staged) && Values(staged) == rows
    requires forall n :: n in staged ==> n !in olds
    requires forall key :: key in existing <==> LastIndex(oldKeys, Some(key)).Some?
    requires forall key :: key in existing ==> existing[key] == olds[LastIndex(oldKeys, Some(key)).value]
    ensures StagedWell(staged, olds, rows) && PlacedWell([], olds, oldKeys, staged, KeysOf(rows), rows)
    ensures Remaining(existing, olds, oldKeys, KeysOf(rows), 0)
  {
    hide LastIndex, MatchOf;
  }

  lemma EverythingPlaced(placed: seq<Node>, olds: seq<Node>, oldKeys: seq<Option<string>>, staged: seq<Node>, rows: seq<Element>)
    requires |placed| == |staged| == |rows| && |olds| == |oldKeys| && StagedWell(staged, olds, rows)
    requires PlacedWell(placed, olds, oldKeys, staged, KeysOf(rows), rows)
    ensures Rebuilt(olds, oldKeys, placed, rows)
    ensures forall i :: 0 <= i < |placed| ==> placed[i] in olds || placed[i] in staged
  {
    hide MatchOf;
    assert forall i :: 0 <= i < |staged| ==> staged[i] in staged;
  }

  /** Row after row: every staged row gets its node, and what is left behind the cursor goes. */
  method PlaceAll(container: Container, staged: seq<Node>, keyed: map<string, Node>, ghost olds: seq<Node>,
                  ghost oldKeys: seq<Option<string>>, ghost rows: seq<Element>)
    requires container.children == olds && AllDistinct(olds) && |olds| == |oldKeys| && |staged| == |rows|
    requires StagedWell(staged, olds, rows) && PlacedWell([], olds, oldKeys, staged, KeysOf(rows), rows)
    requires Remaining(keyed, olds, oldKeys, KeysOf(rows), 0)
    modifies container`children, olds
    ensures Rebuilt(olds, oldKeys, container.children, rows) && AllDistinct(container.children)
    ensures forall i :: 0 <= i < |container.children| ==> container.children[i] in olds || container.children[i] in staged
  {
    hide AllDistinct, KeysOf, Without, StagedWell, PlacedWell, Remaining, Rebuilt, Chosen;
    var existing := keyed;
    var cursor := if container.children == [] then null else container.children[0];
    ghost var placed: seq<Node>, rest, newKeys := [], olds, KeysOf(rows);
    assert [] + olds == olds;
    for i := 0 to |staged|
      invariant container.children == placed + rest && AllDistinct(container.children)
      invariant cursor == if rest == [] then null else rest[0]
      invariant |placed| == i && StagedWell(staged, olds, rows) && PlacedWell(placed, olds, oldKeys, staged, newKeys, rows)
      invariant Remaining(existing, olds, oldKeys, newKeys, i)
    {
      var target;
      target, existing := Prepare(staged[i], existing, placed, olds, oldKeys, staged, newKeys, rows);
      cursor := container.PlaceNext(target, cursor, placed, rest);
      placed, rest := placed + [target], Without(rest, target);
    }
    container.RemoveFrom(cursor, placed, rest);
    PrefixIsDistinct(placed, rest);
    EverythingPlaced(placed, olds, oldKeys, staged, rows);
  }

  lemma PrefixIsDistinct<T>(s: seq<T>, t: seq<T>)
    requires AllDistinct(s + t)
    ensures AllDistinct(s)
  {
    PartsAreDisjoint(s, t);
  }

  /** Every new row that takes over an old one is of the same tag. */
  ghost predicate TagsFit(olds: seq<Node>, oldKeys: seq<Option<string>>, rows: seq<Element>)
    requires |olds| == |oldKeys|
  {
    forall i :: 0 <= i < |rows| ==>
      match MatchOf(oldKeys, KeysOf(rows), i)
      case Some(m) => olds[m].tag == rows[i].tag
      case None => true
  }

  /** The patched list equals a full rebuild if and only if no key changed its tag: a tag is never patched. */
  lemma EqualsRebuildIff(olds: seq<Node>, oldKeys: seq<Option<string>>, nodes: seq<Node>, rows: seq<Element>)
    requires |olds| == |oldKeys| && Rebuilt(olds, oldKeys, nodes, rows)
    ensures Values(nodes) == rows <==> TagsFit(olds, oldKeys, rows)
  {
    hide LastIndex, KeysOf;
    if TagsFit(olds, oldKeys, rows) {
      assert forall i :: 0 <= i < |rows| ==> nodes[i].Value() == rows[i];
    }
    if Values(nodes) == rows {
      forall i | 0 <= i < |rows|
        ensures match MatchOf(oldKeys, KeysOf(rows), i)
                case Some(m) => olds[m].tag == rows[i].tag
                case None => true
      {
        assert nodes[i].Value() == rows[i];
      }
    }
  }

  // ---------------------------------------------------------------- the same, on the rows' own attributes

  /** A row is known by its history id, and one without by its build number. */
  predicate KnownBy(row: Element, name: string) {
    if "data-history-id" in row.attributes then row.attributes["data-history-id"] == name
    else "data-build-number" in row.attributes && row.attributes["data-build-number"] == name
  }

  /** Row i is the first new row known by that name, and m the last old one. */
  predicate TakesOver(oldRows: seq<Element>, rows: seq<Element>, i: nat, m: nat, name: string) {
    && i < |rows| && KnownBy(rows[i], name) && (forall j :: 0 <= j < i ==> !KnownBy(rows[j], name))
    && m < |oldRows| && KnownBy(oldRows[m], name) && (forall n :: m < n < |oldRows| ==> !KnownBy(oldRows[n], name))
  }

  lemma KeyIsName(row: Element, name: string)
    ensures KeyOf(row.attributes) == Some(name) <==> KnownBy(row, name)
  {
  }

  lemma MatchIffTakesOver(oldRows: seq<Element>, rows: seq<Element>, i: nat, m: nat, name: string)
    requires i < |rows| && KnownBy(rows[i], name)
    ensures MatchOf(KeysOf(oldRows), KeysOf(rows), i) == Some(m) <==> TakesOver(oldRows, rows, i, m, name)
  {
    forall row: Element
      ensures KeyOf(row.attributes) == Some(name) <==> KnownBy(row, name)
    {
      KeyIsName(row, name);
    }
    var olds, news := KeysOf(oldRows), KeysOf(rows);
    assert news[i] == Some(name);
    assert news[i] in news[..i] <==> exists j :: 0 <= j < i && news[j] == Some(name);
    hide KeyOf, KnownBy, KeysOf;
  }

  /** Which node shows a row after a patch: the last old node known by the row's history id, or, for a row without one,
      by its build number, if the row is the first of that name; and a new node of the row's own tag otherwise. */
  lemma NodeOfRow(olds: seq<Node>, oldRows: seq<Element>, nodes: seq<Node>, rows: seq<Element>, i: nat)
    requires |olds| == |oldRows| && Rebuilt(olds, KeysOf(oldRows), nodes, rows) && i < |rows|
    ensures forall m, name :: 0 <= m < |oldRows| && TakesOver(oldRows, rows, i, m, name) ==> nodes[i] == olds[m]
    ensures (forall m, name :: 0 <= m < |oldRows| ==> !TakesOver(oldRows, rows, i, m, name)) ==>
              nodes[i] !in olds && nodes[i].tag == rows[i].tag
  {
    forall m, name | 0 <= m < |oldRows| && TakesOver(oldRows, rows, i, m, name)
      ensures nodes[i] == olds[m]
    {
      MatchIffTakesOver(oldRows, rows, i, m, name);
    }
    var found, key := MatchOf(KeysOf(oldRows), KeysOf(rows), i), KeyOf(rows[i].attributes);
    if found.Some? {
      KeyIsName(rows[i], key.value);
      MatchIffTakesOver(oldRows, rows, i, found.value, key.value);
    }
  }

  /** The remembered markup, if any, is what the container shows. */
  ghost predicate Faithful(container: Container, parse: string -> seq<Element>)
    reads container, container.children
  {
    container.rendered.Some? ==> Values(container.children) == parse(container.rendered.value)
  }

  /** True exactly when the container was brought to new markup.  Then its children are the rows, in order:
      a key's old node where the key survives, a new node everywhere else, with each row's attributes and
      inner markup; an old node keeps its tag. */
  method Patch(container: Container?, html: string, parse: string -> seq<Element>) returns (changed: bool)
    requires container != null ==> AllDistinct(container.children)
    modifies container, if container == null then [] else container.children
    ensures changed <==> container != null && old(container.rendered) != Some(html)
    ensures container != null && !changed ==>
              unchanged(container) && Values(container.children) == old(Values(container.children))
    ensures changed ==> container.rendered == Some(html) && AllDistinct(container.children)
    ensures changed ==> Rebuilt(old(container.children), old(KeysOf(Values(container.children))), container.children, parse(html))
    ensures changed ==> forall i :: 0 <= i < |container.children| ==>
              container.children[i] in old(container.children) || fresh(container.children[i])
    ensures container != null && old(Faithful(container, parse)) ==>
              (Values(container.children) == parse(html) <==>
               !changed || TagsFit(old(container.children), old(KeysOf(Values(container.children))), parse(html)))
  {
    hide TagsFit, LastIndex, MatchOf, AllDistinct, Values, KeysOf, StagedWell, PlacedWell, Remaining, Rebuilt;
    if container == null {
      return false;
    }
    if container.rendered == Some(html) {
      return false;
    }
    container.rendered := Some(html);
    var rows := parse(html);
    var staged := Stage(rows);
    ghost var olds, oldKeys := container.children, KeysOf(Values(container.children));
    var existing := Keyed(container.children, oldKeys);
    NothingPlaced(existing, olds, oldKeys, staged, rows);
    PlaceAll(container, staged, existing, olds, oldKeys, rows);
    EqualsRebuildIff(olds, oldKeys, container.children, rows);
    return true;
  }
}
