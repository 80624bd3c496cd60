/**
 The shared-event groups of internal/epggather/program_merge.go: a union-find forest
 with path compression over event keys.
 */
module PeerForest {

  datatype Key = Key(network: nat, service: nat, event: nat)

  type Edges = set<(Key, Key)>

  // ---------------------------------------------- connection by shared references

  ghost predicate Linked(edges: Edges, a: Key, b: Key) { a == b || (a, b) in edges || (b, a) in edges }

  ghost predicate IsPath(edges: Edges, p: seq<Key>) {
    |p| > 0 && forall i | 0 <= i < |p| - 1 :: Linked(edges, p[i], p[i + 1])
  }

  /** The reflexive, symmetric and transitive closure of the references. */
  ghost predicate Connected(edges: Edges, a: Key, b: Key) {
    exists p :: IsPath(edges, p) && p[0] == a && p[|p| - 1] == b
  }

  lemma ConnectedByLink(edges: Edges, a: Key, b: Key)
    requires Linked(edges, a, b)
    ensures Connected(edges, a, b)
  {
    var p := [a, b];
    assert IsPath(edges, p) && p[0] == a && p[|p| - 1] == b;
  }

  lemma ConnectedTrans(edges: Edges, a: Key, b: Key, c: Key)
    requires Connected(edges, a, b) && Connected(edges, b, c)
    ensures Connected(edges, a, c)
  {
    var p :| IsPath(edges, p) && p[0] == a && p[|p| - 1] == b;
    var q :| IsPath(edges, q) && q[0] == b && q[|q| - 1] == c;
    var r := p + q;
    forall i | 0 <= i < |r| - 1 ensures Linked(edges, r[i], r[i + 1]) {
      if i < |p| - 1 {
        assert r[i] == p[i] && r[i + 1] == p[i + 1];
      } else if i >= |p| {
        assert r[i] == q[i - |p|] && r[i + 1] == q[i + 1 - |p|];
      }
    }
    assert r[0] == a && r[|r| - 1] == c;
  }

  lemma ConnectedSym(edges: Edges, a: Key, b: Key)
    requires Connected(edges, a, b)
    ensures Connected(edges, b, a)
  {
    var p :| IsPath(edges, p) && p[0] == a && p[|p| - 1] == b;
    var r := seq(|p|, i requires 0 <= i < |p| => p[|p| - 1 - i]);
    forall i | 0 <= i < |r| - 1 ensures Linked(edges, r[i], r[i + 1]) {
      assert Linked(edges, p[|p| - 2 - i], p[|p| - 2 - i + 1]);
    }
    assert r[0] == b && r[|r| - 1] == a;
  }

  lemma ConnectedGrows(edges: Edges, more: Edges, a: Key, b: Key)
    requires Connected(edges, a, b) && edges <= more
    ensures Connected(more, a, b)
  {}

  // ------------------------------------------------------------------- the forest

  type Keys = map<Key, Key>
  type Heights = map<Key, nat>

  /** `rep` names each key's root; `height` grows from child to parent up to `top`, so following
      parents ends. */
  ghost predicate NodeOk(parent: Keys, rep: Keys, height: Heights, top: nat, k: Key) {
    k in parent ==>
      && k in rep && k in height && parent[k] in parent && parent[k] in rep && parent[k] in height
      && height[k] <= top && rep[parent[k]] == rep[k]
      && (if parent[k] == k then rep[k] == k else height[k] < height[parent[k]])
      && rep[k] in parent && parent[rep[k]] == rep[k] && rep[k] in height && height[k] <= height[rep[k]]
      && (k != rep[k] ==> height[k] < height[rep[k]])
  }

  ghost predicate RootOk(edges: Edges, rep: Keys, k: Key) { k in rep ==> Connected(edges, k, rep[k]) }

  ghost predicate EdgeOk(edges: Edges, rep: Keys, a: Key, b: Key) {
    (a, b) in edges ==> a in rep && b in rep && rep[a] == rep[b]
  }

  ghost predicate ForestOk(parent: Keys, rep: Keys, height: Heights, top: nat) {
    parent.Keys == rep.Keys == height.Keys && forall k :: NodeOk(parent, rep, height, top, k)
  }

  ghost predicate GroupsOk(edges: Edges, rep: Keys) {
    (forall k :: RootOk(edges, rep, k)) && (forall a, b :: EdgeOk(edges, rep, a, b))
  }

  lemma {:induction false} PathKeepsRoot(edges: Edges, rep: Keys, p: seq<Key>, n: nat)
    requires GroupsOk(edges, rep) && IsPath(edges, p) && p[0] in rep && n < |p|
    ensures p[n] in rep && rep[p[n]] == rep[p[0]]
  {
    if n > 0 {
      PathKeepsRoot(edges, rep, p, n - 1);
      assert Linked(edges, p[n - 1], p[n - 1 + 1]);
      assert EdgeOk(edges, rep, p[n - 1], p[n]) && EdgeOk(edges, rep, p[n], p[n - 1]);
    }
  }

  /** Two keys have one root exactly when shared references connect them. */
  lemma RootsAreGroups(edges: Edges, rep: Keys, a: Key, b: Key)
    requires GroupsOk(edges, rep) && a in rep && b in rep
    ensures rep[a] == rep[b] <==> Connected(edges, a, b)
  {
    if rep[a] == rep[b] {
      assert RootOk(edges, rep, a) && RootOk(edges, rep, b);
      ConnectedSym(edges, b, rep[b]);
      ConnectedTrans(edges, a, rep[a], b);
    }
    if Connected(edges, a, b) {
      var p :| IsPath(edges, p) && p[0] == a && p[|p| - 1] == b;
      PathKeepsRoot(edges, rep, p, |p| - 1);
    }
  }

  /** A key that is new becomes its own root. */
  lemma AddRootOk(parent: Keys, rep: Keys, height: Heights, top: nat, edges: Edges, key: Key)
    requires ForestOk(parent, rep, height, top) && GroupsOk(edges, rep) && key !in parent
    ensures ForestOk(parent[key := key], rep[key := key], height[key := 0], top) && GroupsOk(edges, rep[key := key])
  {
    var parent', rep', height' := parent[key := key], rep[key := key], height[key := 0];
    forall k ensures NodeOk(parent', rep', height', top, k) { assert NodeOk(parent, rep, height, top, k); }
    forall k ensures RootOk(edges, rep', k) {
      assert RootOk(edges, rep, k);
      if k == key { ConnectedByLink(edges, k, k); }
    }
    forall a, b ensures EdgeOk(edges, rep', a, b) { assert EdgeOk(edges, rep, a, b); }
  }

  /** Pointing a key straight at its root changes no root. */
  lemma CompressOk(parent: Keys, rep: Keys, height: Heights, top: nat, key: Key)
    requires ForestOk(parent, rep, height, top) && key in parent && parent[key] != key
    ensures ForestOk(parent[key := rep[key]], rep, height, top)
  {
    var root := rep[key];
    assert NodeOk(parent, rep, height, top, key) && NodeOk(parent, rep, height, top, root);
    var parent' := parent[key := root];
    forall k ensures NodeOk(parent', rep, height, top, k) { assert NodeOk(parent, rep, height, top, k); }
  }

  lemma RootsAreRoots(parent: Keys, rep: Keys, height: Heights, top: nat, k: Key)
    requires ForestOk(parent, rep, height, top) && k in rep
    ensures rep[k] in parent && rep[k] in rep && rep[rep[k]] == rep[k]
  {
    assert NodeOk(parent, rep, height, top, k) && NodeOk(parent, rep, height, top, rep[k]);
  }

  ghost function Joined(rep: Keys, rootA: Key, rootB: Key): Keys {
    map k | k in rep :: if rep[k] == rootB then rootA else rep[k]
  }

  ghost function Raised(height: Heights, rootA: Key, rootB: Key): Heights
    requires rootA in height && rootB in height
  {
    height[rootA := if height[rootB] < height[rootA] then height[rootA] else height[rootB] + 1]
  }

  /** Hanging one root under another joins their groups. */
  lemma AttachOk(parent: Keys, rep: Keys, height: Heights, top: nat, rootA: Key, rootB: Key)
    requires ForestOk(parent, rep, height, top) && rootA in parent && rootB in parent && rootA != rootB
    requires rep[rootA] == rootA && rep[rootB] == rootB
    ensures ForestOk(parent[rootB := rootA], Joined(rep, rootA, rootB), Raised(height, rootA, rootB), top + 1)
  {
    var parent', rep', height' := parent[rootB := rootA], Joined(rep, rootA, rootB), Raised(height, rootA, rootB);
    var n := top + 1;
    assert NodeOk(parent, rep, height, top, rootA) && NodeOk(parent, rep, height, top, rootB);
    forall k ensures NodeOk(parent', rep', height', n, k) { assert NodeOk(parent, rep, height, top, k); }
  }

  lemma JoinedGroupsOk(edges: Edges, rep: Keys, a: Key, b: Key)
    requires GroupsOk(edges, rep) && a in rep && b in rep
    ensures GroupsOk(edges + {(a, b)}, Joined(rep, rep[a], rep[b]))
  {
    var more := edges + {(a, b)};
    var rep' := Joined(rep, rep[a], rep[b]);
    forall x, y ensures EdgeOk(more, rep', x, y) { assert EdgeOk(edges, rep, x, y); }
    forall k ensures RootOk(more, rep', k) {
      assert RootOk(edges, rep, k) && RootOk(edges, rep, a) && RootOk(edges, rep, b);
      if k in rep { Rejoined(edges, more, a, b, rep[a], rep[b], k, rep[k]); }
    }
  }

  lemma Rejoined(was: Edges, edges: Edges, a: Key, b: Key, rootA: Key, rootB: Key, k: Key, root: Key)
    requires edges == was + {(a, b)}
    requires Connected(was, a, rootA) && Connected(was, b, rootB) && Connected(was, k, root)
    ensures Connected(edges, k, if root == rootB then rootA else root)
  {
    ConnectedGrows(was, edges, k, root);
    if root == rootB {
      ConnectedGrows(was, edges, a, rootA);
      ConnectedGrows(was, edges, b, rootB);
      ConnectedSym(edges, b, rootB);
      ConnectedTrans(edges, k, rootB, b);
      ConnectedByLink(edges, b, a);
      ConnectedTrans(edges, k, b, a);
      ConnectedTrans(edges, k, a, rootA);
    }
  }

  /** `parent` is the source's map; the ghost fields are what is proved about it. */
  class Forest {
    var parent: Keys
    ghost var rep: Keys
    ghost var height: Heights
    ghost var top: nat
    ghost var edges: Edges

    ghost predicate Valid()
      reads this
    {
      ForestOk(parent, rep, height, top) && GroupsOk(edges, rep)
    }

    constructor ()
      ensures Valid() && edges == {} && parent == map[]
    {
      parent, rep, height, top, edges := map[], map[], map[], 0, {};
    }

    /** The root of a key, which becomes known if it was not; every key on the way is pointed at it. */
    method Find(key: Key) returns (root: Key)
      requires Valid()
      modifies this
      ensures Valid() && edges == old(edges) && top == old(top)
      ensures key in rep && root == rep[key]
      ensures rep == if key in old(rep) then old(rep) else old(rep)[key := key]
      ensures height == if key in old(height) then old(height) else old(height)[key := 0]
      decreases if key in height then top - height[key] else 0, if key in height then 0 else 1
    {
      assert NodeOk(parent, rep, height, top, key);
      if key !in parent {
        AddRootOk(parent, rep, height, top, edges, key);
        parent, rep, height := parent[key := key], rep[key := key], height[key := 0];
        return key;
      }
      var current := parent[key];
      if current == key { return key; }
      assert NodeOk(parent, rep, height, top, current);
      root := Find(current);
      Compress(key, root);
    }

    method Compress(key: Key, root: Key)
      requires Valid() && key in parent && root == rep[key]
      modifies this`parent
      ensures Valid()
    {
      if parent[key] == key {
        assert NodeOk(parent, rep, height, top, key);
        assert parent[key := root] == parent;
      } else {
        CompressOk(parent, rep, height, top, key);
      }
      parent := parent[key := root];
    }

    /** Joins the groups of two keys that a shared reference connects. */
    method Union(a: Key, b: Key)
      requires Valid()
      modifies this
      ensures Valid() && edges == old(edges) + {(a, b)} && rep.Keys == old(rep).Keys + {a, b}
    {
      var rootA := Find(a);
      assert rep.Keys == old(rep).Keys + {a};
      var rootB := Find(b);
      assert rep.Keys == old(rep).Keys + {a, b};
      Join(a, b, rootA, rootB);
    }

    method Join(a: Key, b: Key, rootA: Key, rootB: Key)
      requires Valid() && a in rep && b in rep && rootA == rep[a] && rootB == rep[b]
      modifies this
      ensures Valid() && edges == old(edges) + {(a, b)} && rep.Keys == old(rep).Keys
    {
      JoinedGroupsOk(edges, rep, a, b);
      if rootA == rootB {
        assert Joined(rep, rootA, rootB) == rep;
      } else {
        RootsAreRoots(parent, rep, height, top, a);
        RootsAreRoots(parent, rep, height, top, b);
        AttachOk(parent, rep, height, top, rootA, rootB);
        parent := parent[rootB := rootA];
        rep, height, top := Joined(rep, rootA, rootB), Raised(height, rootA, rootB), top + 1;
      }
      edges := edges + {(a, b)};
    }
  }
}
