/**
 * Parent chains over a parent map, independent of the heap.
 *
 * A parent map `P` sends every node that has a parent to that parent; a node
 * that is not a key of `P` has none (Java's null `_parent`). `Rooted(s, P, V)`
 * says that the walk from `s` up through `P` visits only nodes of `V`, never
 * the same node twice, and stops at a node without a parent. `Path` is the
 * node sequence that walk visits, root first: what `Shape.path()` returns.
 */
module Ancestry {
  import opened Util

  ghost predicate Rooted<T>(s: T, P: map<T, T>, V: set<T>)
    decreases V
  {
    s in V && (s in P ==> Rooted(P[s], P, V - {s}))
  }

  /** The nodes from the root down to `s`, inclusive. */
  ghost function Path<T>(s: T, P: map<T, T>, V: set<T>): seq<T>
    requires Rooted(s, P, V)
    decreases V
  {
    if s in P then Path(P[s], P, V - {s}) + [s] else [s]
  }

  /** A parent chain: the first node has no parent and each node is the parent of the next. */
  ghost predicate Chain<T>(p: seq<T>, P: map<T, T>)
  {
    |p| >= 1 && p[0] !in P &&
    forall i :: 0 < i < |p| ==> p[i] in P && P[p[i]] == p[i - 1]
  }

  /** A path is a chain of distinct nodes of `V`, ending at `s`. */
  lemma {:induction false} PathShape<T>(s: T, P: map<T, T>, V: set<T>)
    requires Rooted(s, P, V)
    ensures Chain(Path(s, P, V), P)
    ensures Path(s, P, V)[|Path(s, P, V)| - 1] == s
    ensures forall i :: 0 <= i < |Path(s, P, V)| ==> Path(s, P, V)[i] in V
    ensures NoDuplicates(Path(s, P, V))
    ensures |Path(s, P, V)| <= |V|
    decreases V
  {
    if s in P {
      var q := Path(P[s], P, V - {s});
      PathShape(P[s], P, V - {s});
      assert Path(s, P, V) == q + [s];
      assert |V - {s}| == |V| - 1;
    }
  }

  /** A path depends only on the nodes it visits, not on the rest of `V`. */
  lemma {:induction false} PathFrame<T>(s: T, P: map<T, T>, V: set<T>, V2: set<T>)
    requires Rooted(s, P, V)
    requires forall z :: z in Path(s, P, V) ==> z in V2
    ensures Rooted(s, P, V2) && Path(s, P, V2) == Path(s, P, V)
    decreases V
  {
    if s in P {
      var q := Path(P[s], P, V - {s});
      PathShape(P[s], P, V - {s});
      assert Path(s, P, V) == q + [s];
      forall z | z in q ensures z in V2 - {s} {
        assert z in Path(s, P, V);
      }
      PathFrame(P[s], P, V - {s}, V2 - {s});
    }
  }

  /** The path of a node with a parent extends the parent's path by that node. */
  lemma ParentPath<T>(s: T, P: map<T, T>, V: set<T>)
    requires Rooted(s, P, V) && s in P
    ensures Rooted(P[s], P, V) && Path(s, P, V) == Path(P[s], P, V) + [s]
  {
    PathShape(P[s], P, V - {s});
    PathFrame(P[s], P, V - {s}, V);
  }

  /** Every node on a path is rooted, and its own path is the prefix ending at it. */
  lemma {:induction false} PrefixPath<T>(d: T, P: map<T, T>, V: set<T>, i: int)
    requires Rooted(d, P, V) && 0 <= i < |Path(d, P, V)|
    ensures Rooted(Path(d, P, V)[i], P, V)
    ensures Path(Path(d, P, V)[i], P, V) == Path(d, P, V)[..i + 1]
    decreases V
  {
    var p := Path(d, P, V);
    PathShape(d, P, V);
    if i < |p| - 1 {
      var q := Path(P[d], P, V - {d});
      assert p == q + [d];
      PrefixPath(P[d], P, V - {d}, i);
      assert p[i] == q[i] && p[..i + 1] == q[..i + 1];
      PathShape(q[i], P, V - {d});
      PathFrame(q[i], P, V - {d}, V);
    }
  }

  /** Re-parenting `r` does not disturb a path that avoids `r`. */
  lemma {:induction false} KeepPath<T>(d: T, P: map<T, T>, V: set<T>, r: T, t: T)
    requires Rooted(d, P, V) && r !in Path(d, P, V)
    ensures Rooted(d, P[r := t], V) && Path(d, P[r := t], V) == Path(d, P, V)
    decreases V
  {
    if d in P {
      assert Path(d, P, V) == Path(P[d], P, V - {d}) + [d];
      KeepPath(P[d], P, V - {d}, r, t);
    }
  }

  /**
   * Giving the parentless node `r` the parent `t` puts `t`'s path in front of
   * every path through `r`, provided the two paths share no node.
   */
  lemma {:induction false} GraftPath<T>(d: T, P: map<T, T>, V: set<T>, r: T, t: T)
    requires Rooted(d, P, V) && r !in P && r in Path(d, P, V)
    requires Rooted(t, P, V)
    requires forall z :: z in Path(t, P, V) ==> z !in Path(d, P, V)
    ensures Rooted(d, P[r := t], V)
    ensures Path(d, P[r := t], V) == Path(t, P, V) + Path(d, P, V)
    decreases V
  {
    var P' := P[r := t];
    if d == r {
      assert Path(r, P, V) == [r];
      PathShape(t, P, V);
      PathFrame(t, P, V, V - {r});
      KeepPath(t, P, V - {r}, r, t);
    } else {
      assert d in P;
      var q := Path(P[d], P, V - {d});
      assert Path(d, P, V) == q + [d];
      assert d !in Path(t, P, V);
      PathShape(t, P, V);
      PathFrame(t, P, V, V - {d});
      GraftPath(P[d], P, V - {d}, r, t);
      assert P'[d] == P[d];
    }
  }

  /** In a forest, the root of a path is the root of every node on it. */
  lemma RootOfPath<T>(d: T, P: map<T, T>, V: set<T>, r: T)
    requires Rooted(d, P, V) && r !in P && r in Path(d, P, V)
    ensures Path(d, P, V)[0] == r
  {
    PathShape(d, P, V);
  }

  /**
   * Attaching the root `r` below `t` keeps every node of a forest rooted
   * exactly when `r` is not an ancestor-or-self of `t`.
   */
  lemma AttachPreservesRooted<T>(P: map<T, T>, W: set<T>, r: T, t: T)
    requires forall d :: d in W ==> Rooted(d, P, W)
    requires r in W && t in W && r !in P && r !in Path(t, P, W)
    ensures forall d :: d in W ==> Rooted(d, P[r := t], W)
  {
    forall d | d in W ensures Rooted(d, P[r := t], W) {
      if r in Path(d, P, W) {
        forall z | z in Path(t, P, W) ensures z !in Path(d, P, W) {
          if z in Path(d, P, W) {
            var i :| 0 <= i < |Path(d, P, W)| && Path(d, P, W)[i] == z;
            var k :| 0 <= k < |Path(t, P, W)| && Path(t, P, W)[k] == z;
            PrefixPath(d, P, W, i);
            PrefixPath(t, P, W, k);
            RootOfPath(d, P, W, r);
            assert false;
          }
        }
        GraftPath(d, P, W, r, t);
      } else {
        KeepPath(d, P, W, r, t);
      }
    }
  }

  /** In a forest no node is its own parent. */
  lemma RootedNotOwnParent<T>(s: T, P: map<T, T>, V: set<T>)
    requires Rooted(s, P, V) && s in P
    ensures P[s] != s
  {
  }

  /** Clearing a parent link never creates a cycle. */
  lemma {:induction false} DetachPreservesRooted<T>(d: T, P: map<T, T>, V: set<T>, r: T)
    requires Rooted(d, P, V)
    ensures Rooted(d, P - {r}, V)
    decreases V
  {
    if d in P && d != r {
      DetachPreservesRooted(P[d], P, V - {d}, r);
    }
  }

  /**
   * Attaching the root `r` below a node `t` of its own tree closes a cycle:
   * no node of that tree is rooted any more.
   */
  lemma {:induction false} AttachIntoOwnTree<T>(x: T, P: map<T, T>, W: set<T>, r: T, t: T, V: set<T>)
    requires Rooted(x, P, W) && Rooted(t, P, W) && r !in P
    requires r in Path(x, P, W) && r in Path(t, P, W)
    ensures !Rooted(x, P[r := t], V)
    decreases V
  {
    if Rooted(x, P[r := t], V) {
      if x == r {
        AttachIntoOwnTree(t, P, W, r, t, V - {r});
      } else {
        assert x in P;
        ParentPath(x, P, W);
        AttachIntoOwnTree(P[x], P, W, r, t, V - {x});
      }
    }
  }
}
