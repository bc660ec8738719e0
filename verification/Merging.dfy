/**
 Folder merging (`TripView.canon` in app/pipeline/agent/trip.py, the `merge` node in
 app/pipeline/agent/graph.py).  `merged` sends a folder to the one it was put into.  Kept in the
 order in which the entries were made, the same links can be read as a series of substitutions.
 */
module Merging {
  import opened Photos

  /** A folder and the folder it was merged into. */
  datatype Link = Link(child: PlaceId, parent: PlaceId)

  function Root(links: seq<Link>, p: PlaceId): PlaceId
    decreases |links|
  {
    if links == [] then p
    else Root(links[1..], if p == links[0].child then links[0].parent else p)
  }

  /** A folder is merged once, and never into one that is already gone. */
  ghost predicate Chained(links: seq<Link>) {
    && (forall i, j | 0 <= i < j < |links| :: links[i].child != links[j].child)
    && (forall i, j | 0 <= i <= j < |links| :: links[j].parent != links[i].child)
  }

  function Children(links: seq<Link>): set<PlaceId> {
    set i | 0 <= i < |links| :: links[i].child
  }

  /** The dictionary `merged` holds exactly these links. */
  ghost predicate Represents(merged: map<PlaceId, PlaceId>, links: seq<Link>) {
    && merged.Keys == Children(links)
    && forall i | 0 <= i < |links| :: links[i].child in merged && merged[links[i].child] == links[i].parent
  }

  lemma {:induction false} RootAppend(links: seq<Link>, link: Link, x: PlaceId)
    ensures Root(links + [link], x) == (if Root(links, x) == link.child then link.parent else Root(links, x))
    decreases |links|
  {
    if links == [] {
      assert ([link])[1..] == [];
    } else {
      assert (links + [link])[1..] == links[1..] + [link];
      RootAppend(links[1..], link, if x == links[0].child then links[0].parent else x);
    }
  }

  lemma {:induction false} RootAvoids(links: seq<Link>, x: PlaceId, gone: PlaceId)
    requires x != gone && forall i | 0 <= i < |links| :: links[i].parent != gone
    ensures Root(links, x) != gone
    decreases |links|
  {
    if links != [] {
      RootAvoids(links[1..], if x == links[0].child then links[0].parent else x, gone);
    }
  }

  /** Following the links ends at a folder that was not merged away. */
  lemma {:induction false} RootIsLeft(links: seq<Link>, x: PlaceId)
    requires Chained(links)
    ensures Root(links, x) !in Children(links)
    decreases |links|
  {
    if links != [] {
      var y := if x == links[0].child then links[0].parent else x;
      RootIsLeft(links[1..], y);
      RootAvoids(links[1..], y, links[0].child);
      assert Root(links, x) != links[0].child;
      forall i | 0 <= i < |links| ensures links[i].child != Root(links, x) {
        if i > 0 { assert links[i] == links[1..][i - 1]; }
      }
    }
  }

  lemma {:induction false} RootOfLeft(links: seq<Link>, x: PlaceId)
    requires x !in Children(links)
    ensures Root(links, x) == x
    decreases |links|
  {
    if links != [] {
      assert links[0].child in Children(links);
      forall i | 0 <= i < |links| - 1 ensures links[1..][i].child in Children(links) {
        assert links[1..][i] == links[i + 1];
      }
      RootOfLeft(links[1..], x);
    }
  }

  /** A folder has the same root as the folder it was merged into. */
  lemma {:induction false} RootOfChild(links: seq<Link>, i: nat)
    requires Chained(links) && i < |links|
    ensures Root(links, links[i].child) == Root(links, links[i].parent)
    decreases |links|
  {
    if i == 0 {
      assert links[0].parent != links[0].child;
    } else {
      RootOfChild(links[1..], i - 1);
      assert links[0].child != links[i].child && links[i].parent != links[0].child;
    }
  }

  // ---------- The closure that merging computes

  /** Already one folder, or named together in one group. */
  ghost predicate Hop(links: seq<Link>, groups: seq<seq<PlaceId>>, x: PlaceId, y: PlaceId) {
    Root(links, x) == Root(links, y) || exists g | g in groups :: x in g && y in g
  }

  ghost predicate Walk(links: seq<Link>, groups: seq<seq<PlaceId>>, path: seq<PlaceId>) {
    path != [] && forall i | 0 <= i < |path| - 1 :: Hop(links, groups, path[i], path[i + 1])
  }

  ghost predicate Connected(links: seq<Link>, groups: seq<seq<PlaceId>>, x: PlaceId, y: PlaceId) {
    exists path :: Walk(links, groups, path) && path[0] == x && path[|path| - 1] == y
  }

  lemma HopConnects(links: seq<Link>, groups: seq<seq<PlaceId>>, x: PlaceId, y: PlaceId)
    requires Hop(links, groups, x, y)
    ensures Connected(links, groups, x, y)
  {
    var path := [x, y];
    assert Walk(links, groups, path);
  }

  lemma ConnectedJoins(links: seq<Link>, groups: seq<seq<PlaceId>>, x: PlaceId, y: PlaceId, z: PlaceId)
    requires Connected(links, groups, x, y) && Connected(links, groups, y, z)
    ensures Connected(links, groups, x, z)
  {
    var p :| Walk(links, groups, p) && p[0] == x && p[|p| - 1] == y;
    var q :| Walk(links, groups, q) && q[0] == y && q[|q| - 1] == z;
    var path := p + q[1..];
    forall i | 0 <= i < |path| - 1 ensures Hop(links, groups, path[i], path[i + 1]) {
      if i < |p| - 1 {
        assert path[i] == p[i] && path[i + 1] == p[i + 1];
      } else {
        assert path[i] == q[i - |p| + 1] && path[i + 1] == q[i - |p| + 2];
      }
    }
    assert Walk(links, groups, path);
  }

  lemma ConnectedGrows(links: seq<Link>, groups: seq<seq<PlaceId>>, g: seq<PlaceId>, x: PlaceId, y: PlaceId)
    requires Connected(links, groups, x, y)
    ensures Connected(links, groups + [g], x, y)
  {
    var p :| Walk(links, groups, p) && p[0] == x && p[|p| - 1] == y;
    forall i | 0 <= i < |p| - 1 ensures Hop(links, groups + [g], p[i], p[i + 1]) {
      assert Hop(links, groups, p[i], p[i + 1]);
      if Root(links, p[i]) != Root(links, p[i + 1]) {
        var h :| h in groups && p[i] in h && p[i + 1] in h;
        assert h in groups + [g];
      }
    }
    assert Walk(links, groups + [g], p);
  }

  function Roots(links: seq<Link>, group: seq<PlaceId>): (ids: seq<PlaceId>)
    ensures |ids| == |group| && forall i | 0 <= i < |ids| :: ids[i] == Root(links, group[i])
  {
    seq(|group|, i requires 0 <= i < |group| => Root(links, group[i]))
  }

  /** Where one group sends a root: the roots of the group fall together onto the first of them. */
  function Gathered(ids: seq<PlaceId>, root: PlaceId): PlaceId {
    if root in ids then ids[0] else root
  }

  /** `after` has the roots of `before`, except that group `g` has been put together. */
  ghost predicate Gathers(before: seq<Link>, g: seq<PlaceId>, after: seq<Link>) {
    forall x :: Root(after, x) == Gathered(Roots(before, g), Root(before, x))
  }

  /** Two folders have the same root exactly when the groups connect them. */
  ghost predicate Closure(links: seq<Link>, groups: seq<seq<PlaceId>>, after: seq<Link>) {
    forall x, y :: Root(after, x) == Root(after, y) <==> Connected(links, groups, x, y)
  }

  lemma ClosureStarts(links: seq<Link>)
    ensures Closure(links, [], links)
  {
    forall x, y ensures Root(links, x) == Root(links, y) <==> Connected(links, [], x, y) {
      if Root(links, x) == Root(links, y) {
        HopConnects(links, [], x, y);
      } else if Connected(links, [], x, y) {
        var p :| Walk(links, [], p) && p[0] == x && p[|p| - 1] == y;
        WalkKeepsRoot(links, [], links, p, |p| - 1);
      }
    }
  }

  lemma {:induction false} WalkKeepsRoot(links: seq<Link>, groups: seq<seq<PlaceId>>, after: seq<Link>,
                                         p: seq<PlaceId>, k: nat)
    requires Walk(links, groups, p) && k < |p|
    requires forall x, y | Hop(links, groups, x, y) :: Root(after, x) == Root(after, y)
    ensures Root(after, p[0]) == Root(after, p[k])
    decreases k
  {
    if k > 0 {
      WalkKeepsRoot(links, groups, after, p, k - 1);
      assert Hop(links, groups, p[k - 1], p[k - 1 + 1]);
    }
  }

  lemma GatheredConnects(links: seq<Link>, groups: seq<seq<PlaceId>>, g: seq<PlaceId>, before: seq<Link>,
                         after: seq<Link>, x: PlaceId, y: PlaceId)
    requires Closure(links, groups, before) && Gathers(before, g, after) && Root(after, x) == Root(after, y)
    ensures Connected(links, groups + [g], x, y)
  {
    if Root(before, x) == Root(before, y) {
      assert Connected(links, groups, x, y);
      ConnectedGrows(links, groups, g, x, y);
    } else {
      var ids := Roots(before, g);
      assert Gathered(ids, Root(before, x)) == Gathered(ids, Root(before, y));
      assert Root(before, x) in ids && Root(before, y) in ids;
      var i :| 0 <= i < |ids| && ids[i] == Root(before, x);
      var j :| 0 <= j < |ids| && ids[j] == Root(before, y);
      assert Connected(links, groups, x, g[i]) && Connected(links, groups, g[j], y);
      ConnectedGrows(links, groups, g, x, g[i]);
      ConnectedGrows(links, groups, g, g[j], y);
      assert g in groups + [g];
      HopConnects(links, groups + [g], g[i], g[j]);
      ConnectedJoins(links, groups + [g], x, g[i], g[j]);
      ConnectedJoins(links, groups + [g], x, g[j], y);
    }
  }

  lemma HopGathers(links: seq<Link>, groups: seq<seq<PlaceId>>, g: seq<PlaceId>, before: seq<Link>,
                   after: seq<Link>, x: PlaceId, y: PlaceId)
    requires Closure(links, groups, before) && Gathers(before, g, after) && Hop(links, groups + [g], x, y)
    ensures Root(after, x) == Root(after, y)
  {
    if Hop(links, groups, x, y) {
      HopConnects(links, groups, x, y);
      assert Root(before, x) == Root(before, y);
    } else {
      assert x in g && y in g;
      var ids := Roots(before, g);
      var i :| 0 <= i < |g| && g[i] == x;
      var j :| 0 <= j < |g| && g[j] == y;
      assert ids[i] in ids && ids[j] in ids;
    }
  }

  lemma ClosureStep(links: seq<Link>, groups: seq<seq<PlaceId>>, g: seq<PlaceId>, before: seq<Link>, after: seq<Link>)
    requires Closure(links, groups, before) && Gathers(before, g, after)
    ensures Closure(links, groups + [g], after)
  {
    forall x, y ensures Root(after, x) == Root(after, y) <==> Connected(links, groups + [g], x, y) {
      if Root(after, x) == Root(after, y) {
        GatheredConnects(links, groups, g, before, after, x, y);
      } else if Connected(links, groups + [g], x, y) {
        var p :| Walk(links, groups + [g], p) && p[0] == x && p[|p| - 1] == y;
        forall a, b | Hop(links, groups + [g], a, b) ensures Root(after, a) == Root(after, b) {
          HopGathers(links, groups, g, before, after, a, b);
        }
        WalkKeepsRoot(links, groups + [g], after, p, |p| - 1);
      }
    }
  }

  // ---------- Which folder stands for the others

  /** Where a folder ends up when the groups are put together one after the other, each onto its first folder. */
  function MergedRoot(links: seq<Link>, groups: seq<seq<PlaceId>>, x: PlaceId): PlaceId
    decreases |groups|
  {
    if groups == [] then Root(links, x)
    else
      var before := groups[..|groups| - 1];
      var g := groups[|groups| - 1];
      Gathered(seq(|g|, i requires 0 <= i < |g| => MergedRoot(links, before, g[i])), MergedRoot(links, before, x))
  }

  ghost predicate RootsMerged(links: seq<Link>, groups: seq<seq<PlaceId>>, after: seq<Link>) {
    forall x :: Root(after, x) == MergedRoot(links, groups, x)
  }

  lemma RootsMergedStep(links: seq<Link>, groups: seq<seq<PlaceId>>, g: seq<PlaceId>, before: seq<Link>, after: seq<Link>)
    requires RootsMerged(links, groups, before) && Gathers(before, g, after)
    ensures RootsMerged(links, groups + [g], after)
  {
    assert (groups + [g])[..|groups|] == groups;
    forall x ensures Root(after, x) == MergedRoot(links, groups + [g], x) {
      assert seq(|g|, i requires 0 <= i < |g| => MergedRoot(links, groups, g[i])) == Roots(before, g);
    }
  }
}
