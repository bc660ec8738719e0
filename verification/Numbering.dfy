/** The order and the numbers `TripView.finish` gives to the folders in use. */
module Numbering {
  import opened Sets
  import opened Photos

  /** Folders of CLUSTERING by number, then the agent's folders in the order they were opened. */
  predicate Before(p: PlaceId, q: PlaceId) {
    if p.New? == q.New? then p.n < q.n else q.New?
  }

  ghost predicate Ordered(order: seq<PlaceId>) {
    forall i, j | 0 <= i < j < |order| :: Before(order[i], order[j])
  }

  function Preceding(used: set<PlaceId>, p: PlaceId): set<PlaceId> {
    set q | q in used && Before(q, p)
  }

  /** The number a folder gets: one more than the number of folders in use that come before it. */
  function Renumbered(used: set<PlaceId>, p: PlaceId): PlaceId {
    Folder(|Preceding(used, p)| + 1)
  }

  lemma OrderedPosition(order: seq<PlaceId>, i: nat)
    requires Ordered(order) && i < |order|
    ensures Renumbered(Elements(order), order[i]) == Folder(i + 1)
  {
    var used := Elements(order);
    assert Preceding(used, order[i]) == Elements(order[..i]) by {
      forall q ensures q in Preceding(used, order[i]) <==> q in order[..i] {
        if q in used {
          var j :| 0 <= j < |order| && order[j] == q;
          if j < i { assert order[..i][j] == q; } else { assert !Before(q, order[i]); }
        }
      }
    }
    DistinctElements(order[..i]);
  }

  /** Distinct folders get distinct numbers, in the same order, from 1 to how many there are. */
  lemma RenumberingKeepsOrder(used: set<PlaceId>, p: PlaceId, q: PlaceId)
    requires p in used && q in used
    ensures Before(p, q) <==> Renumbered(used, p).n < Renumbered(used, q).n
    ensures p == q <==> Renumbered(used, p) == Renumbered(used, q)
    ensures 1 <= Renumbered(used, p).n <= |used|
    ensures p.Folder? && q.New? ==> Renumbered(used, p).n < Renumbered(used, q).n
    ensures (p.Folder? <==> q.Folder?) && p.n < q.n ==> Renumbered(used, p).n < Renumbered(used, q).n
  {
    if Before(p, q) {
      PrecedingGrows(used, p, q);
    } else if p != q {
      assert Before(q, p);
      PrecedingGrows(used, q, p);
    }
    assert p !in Preceding(used, p);
    SubsetSize(Preceding(used, p) + {p}, used);
  }

  lemma PrecedingGrows(used: set<PlaceId>, p: PlaceId, q: PlaceId)
    requires p in used && Before(p, q)
    ensures |Preceding(used, p)| < |Preceding(used, q)|
  {
    assert p !in Preceding(used, p);
    SubsetSize(Preceding(used, p) + {p}, Preceding(used, q));
  }

  function FirstFolders(k: nat): set<PlaceId> {
    set n | 1 <= n <= k :: Folder(n)
  }

  lemma {:induction false} FirstFoldersCard(k: nat)
    ensures |FirstFolders(k)| == k
  {
    if k > 0 {
      FirstFoldersCard(k - 1);
      assert FirstFolders(k) == FirstFolders(k - 1) + {Folder(k)};
    } else {
      assert FirstFolders(0) == {};
    }
  }

  /** Folders already numbered p1..pk, with none opened and none merged, keep their numbers. */
  lemma NumbersStay(k: nat, p: PlaceId)
    requires p in FirstFolders(k)
    ensures Renumbered(FirstFolders(k), p) == p
  {
    assert Preceding(FirstFolders(k), p) == FirstFolders(p.n - 1);
    FirstFoldersCard(p.n - 1);
  }

  function Renamed(used: set<PlaceId>, some: set<PlaceId>): set<PlaceId> {
    set p | p in some :: Renumbered(used, p)
  }

  lemma {:induction false} RenamedCard(used: set<PlaceId>, some: set<PlaceId>)
    requires some <= used
    ensures |Renamed(used, some)| == |some|
    decreases |some|
  {
    if some == {} {
      assert Renamed(used, some) == {};
    } else {
      var p :| p in some;
      var rest := some - {p};
      RenamedCard(used, rest);
      assert Renamed(used, some) == Renamed(used, rest) + {Renumbered(used, p)};
      forall q | q in rest ensures Renumbered(used, q) != Renumbered(used, p) { RenumberingKeepsOrder(used, p, q); }
    }
  }

  /** With k folders in use, the numbers given out are exactly p1..pk. */
  lemma AllNumbersTaken(used: set<PlaceId>)
    ensures Renamed(used, used) == FirstFolders(|used|)
  {
    RenamedCard(used, used);
    FirstFoldersCard(|used|);
    forall p | p in used ensures Renumbered(used, p) in FirstFolders(|used|) { RenumberingKeepsOrder(used, p, p); }
    assert Renamed(used, used) <= FirstFolders(|used|);
    SameSize(Renamed(used, used), FirstFolders(|used|));
  }

  method Insert(order: seq<PlaceId>, p: PlaceId) returns (longer: seq<PlaceId>)
    requires Ordered(order) && p !in order
    ensures Ordered(longer) && Elements(longer) == Elements(order) + {p}
  {
    var i := 0;
    while i < |order| && Before(order[i], p)
      invariant i <= |order| && forall k | 0 <= k < i :: Before(order[k], p)
    {
      i := i + 1;
    }
    assert forall k | i <= k < |order| :: Before(p, order[k]) by {
      if i < |order| { assert order[i] != p && Before(p, order[i]); }
    }
    longer := order[..i] + [p] + order[i..];
    assert order == order[..i] + order[i..];
  }

  /** `sorted(used, key=...)`. */
  method SortPlaces(used: set<PlaceId>) returns (order: seq<PlaceId>)
    ensures Ordered(order) && Elements(order) == used
    ensures forall i, j | 0 <= i < j < |order| ::
              && (order[j].Folder? ==> order[i].Folder?)
              && (order[i].Folder? == order[j].Folder? ==> order[i].n < order[j].n)
  {
    order := [];
    var rest := used;
    while rest != {}
      invariant Ordered(order) && rest <= used && Elements(order) == used - rest
      decreases |rest|
    {
      var p :| p in rest;
      rest := rest - {p};
      assert p !in Elements(order);
      order := Insert(order, p);
    }
  }
}
