/** The data-processing effect of the graph view (graph-view.tsx): it copies
    the nodes into a Map, walks the links to record children and `parentId`,
    picks a main root, assigns depth levels, lays the nodes out row by row,
    builds a connection index for highlighting and sizes the drawing. */
module GraphView {
  import opened Js
  import opened Links

  // ---------------------------------------------------------------------
  // The link pass: `children.push` and `parentId`
  // ---------------------------------------------------------------------

  /** `parentId` after the link pass: every resolvable link sets its child's
      parent, so a later link overwrites an earlier one. */
  function ParentsFrom(byId: map<string, NodeIn>, links: seq<Link>): map<string, string>
  {
    if links == [] then map[]
    else
      var before := ParentsFrom(byId, links[..|links| - 1]);
      var r := Resolve(byId, links[|links| - 1]);
      if r.Some? then before[r.value.1 := r.value.0] else before
  }

  /** The link pass as the source runs it: every node starts with an empty
      `children` array, and each link whose two endpoints are in the map
      pushes the child onto the parent's array and sets the child's
      `parentId`. */
  method LinkPass(byId: map<string, NodeIn>, links: seq<Link>)
    returns (children: map<string, seq<string>>, parentOf: map<string, string>)
    ensures children.Keys == byId.Keys
    ensures forall p :: p in children ==> children[p] == ChildrenFrom(byId, links, p)
    ensures parentOf == ParentsFrom(byId, links)
  {
    children := map k | k in byId :: [];
    parentOf := map[];
    for i := 0 to |links|
      invariant children.Keys == byId.Keys
      invariant forall p :: p in children ==> children[p] == ChildrenFrom(byId, links[..i], p)
      invariant parentOf == ParentsFrom(byId, links[..i])
    {
      LinkStep(byId, links, i);
      children, parentOf := ApplyLink(byId, children, parentOf, links[i]);
    }
    assert links[..|links|] == links;
  }

  /** The body of the `links.forEach` callback: a link whose endpoints are
      both in the map appends the child to the parent's `children` and sets
      the child's `parentId`; any other link changes nothing. */
  method ApplyLink(byId: map<string, NodeIn>, children0: map<string, seq<string>>,
                   parentOf0: map<string, string>, link: Link)
    returns (children: map<string, seq<string>>, parentOf: map<string, string>)
    requires children0.Keys == byId.Keys
    ensures children.Keys == byId.Keys
    ensures forall p :: p in children ==>
      children[p] == children0[p] + (if Resolve(byId, link).Some? && Resolve(byId, link).value.0 == p
                                     then [Resolve(byId, link).value.1] else [])
    ensures parentOf == if Resolve(byId, link).Some?
      then parentOf0[Resolve(byId, link).value.1 := Resolve(byId, link).value.0] else parentOf0
  {
    children, parentOf := children0, parentOf0;
    var sourceId := EndpointId(link.source);
    var targetId := EndpointId(link.target);
    if sourceId in byId && targetId in byId {
      var sourceNode, targetNode := byId[sourceId], byId[targetId];
      if RankBelow(sourceNode.kind, targetNode.kind) {
        children := children[sourceId := children[sourceId] + [targetId]];
        parentOf := parentOf[targetId := sourceId];
      } else if RankBelow(targetNode.kind, sourceNode.kind) {
        children := children[targetId := children[targetId] + [sourceId]];
        parentOf := parentOf[sourceId := targetId];
      } else {
        children := children[sourceId := children[sourceId] + [targetId]];
        parentOf := parentOf[targetId := sourceId];
      }
    }
  }

  /** What link i adds to the children lists and the parents. */
  lemma {:induction false} LinkStep(byId: map<string, NodeIn>, links: seq<Link>, i: nat)
    requires i < |links|
    ensures forall p ::
      ChildrenFrom(byId, links[..i + 1], p) == ChildrenFrom(byId, links[..i], p) +
        (if Resolve(byId, links[i]).Some? && Resolve(byId, links[i]).value.0 == p
         then [Resolve(byId, links[i]).value.1] else [])
    ensures ParentsFrom(byId, links[..i + 1]) ==
      if Resolve(byId, links[i]).Some?
      then ParentsFrom(byId, links[..i])[Resolve(byId, links[i]).value.1 := Resolve(byId, links[i]).value.0]
      else ParentsFrom(byId, links[..i])
  {
    assert links[..i + 1][..i] == links[..i];
  }

  /** The link resolves and makes c the child. */
  predicate MakesChild(byId: map<string, NodeIn>, l: Link, c: string)
  {
    Resolve(byId, l).Some? && Resolve(byId, l).value.1 == c
  }

  /** A node has a `parentId` exactly when some resolvable link makes it a
      child, and the recorded parent is the parent of such a link. */
  lemma {:induction false} ParentFromSomeLink(byId: map<string, NodeIn>, links: seq<Link>, c: string)
    ensures c in ParentsFrom(byId, links) <==> exists j :: 0 <= j < |links| && MakesChild(byId, links[j], c)
    ensures c in ParentsFrom(byId, links) ==>
      exists j :: 0 <= j < |links| && Resolve(byId, links[j]) == Some((ParentsFrom(byId, links)[c], c))
  {
    ParentOnlyFromLink(byId, links, c);
    ParentFromLink(byId, links, c);
  }

  lemma {:induction false} ParentOnlyFromLink(byId: map<string, NodeIn>, links: seq<Link>, c: string)
    ensures c in ParentsFrom(byId, links) ==>
      exists j :: 0 <= j < |links| && Resolve(byId, links[j]) == Some((ParentsFrom(byId, links)[c], c))
  {
    if links != [] {
      var n := |links|;
      var pre := links[..n - 1];
      ParentOnlyFromLink(byId, pre, c);
      var P, Q := ParentsFrom(byId, links), ParentsFrom(byId, pre);
      var r := Resolve(byId, links[n - 1]);
      assert P == if r.Some? then Q[r.value.1 := r.value.0] else Q;
      if MakesChild(byId, links[n - 1], c) {
        assert Resolve(byId, links[n - 1]) == Some((P[c], c));
      } else if c in P {
        assert c in Q && P[c] == Q[c];
        var j :| 0 <= j < |pre| && Resolve(byId, pre[j]) == Some((Q[c], c));
        assert links[j] == pre[j];
      }
    }
  }

  lemma {:induction false} ParentFromLink(byId: map<string, NodeIn>, links: seq<Link>, c: string)
    ensures (exists j :: 0 <= j < |links| && MakesChild(byId, links[j], c)) ==> c in ParentsFrom(byId, links)
  {
    if links != [] {
      var n := |links|;
      var pre := links[..n - 1];
      ParentFromLink(byId, pre, c);
      var r := Resolve(byId, links[n - 1]);
      assert ParentsFrom(byId, links) ==
        if r.Some? then ParentsFrom(byId, pre)[r.value.1 := r.value.0] else ParentsFrom(byId, pre);
      if !MakesChild(byId, links[n - 1], c) && exists j :: 0 <= j < n && MakesChild(byId, links[j], c) {
        var j :| 0 <= j < n && MakesChild(byId, links[j], c);
        assert j < n - 1 && pre[j] == links[j];
      }
    }
  }

  /** Last write wins: the parent recorded for a child is the parent of the
      last resolvable link that names that child. */
  lemma {:induction false} LastParentWins(byId: map<string, NodeIn>, links: seq<Link>, j: nat)
    requires j < |links| && Resolve(byId, links[j]).Some?
    requires forall k :: j < k < |links| && Resolve(byId, links[k]).Some? ==>
      Resolve(byId, links[k]).value.1 != Resolve(byId, links[j]).value.1
    ensures Resolve(byId, links[j]).value.1 in ParentsFrom(byId, links)
    ensures ParentsFrom(byId, links)[Resolve(byId, links[j]).value.1] == Resolve(byId, links[j]).value.0
  {
    var n := |links|;
    if j < n - 1 {
      var pre := links[..n - 1];
      assert pre[j] == links[j];
      forall k | j < k < |pre| && Resolve(byId, pre[k]).Some?
        ensures Resolve(byId, pre[k]).value.1 != Resolve(byId, pre[j]).value.1
      {
        assert pre[k] == links[k];
      }
      LastParentWins(byId, pre, j);
    }
  }

  /** The other half of last-write-wins: a later link that re-parents a child
      does not take it out of the earlier parent's `children`. */
  lemma {:induction false} EarlierParentKeepsChild(byId: map<string, NodeIn>, links: seq<Link>, j: nat, k: nat)
    requires j < k < |links|
    requires Resolve(byId, links[j]).Some? && Resolve(byId, links[k]).Some?
    requires Resolve(byId, links[j]).value.1 == Resolve(byId, links[k]).value.1
    ensures Resolve(byId, links[j]).value.1 in ChildrenFrom(byId, links, Resolve(byId, links[j]).value.0)
    ensures Resolve(byId, links[k]).value.1 in ChildrenFrom(byId, links, Resolve(byId, links[k]).value.0)
  {
    ChildOccurs(byId, links, j);
    ChildOccurs(byId, links, k);
  }

  // ---------------------------------------------------------------------
  // Roots and the main root
  // ---------------------------------------------------------------------

  /** `filter(node => !node.parentId)` over the Map in iteration order: a
      node is a root when it has no `parentId` or an empty one. */
  function Roots(order: seq<string>, parentOf: map<string, string>): (r: seq<string>)
    ensures forall k :: k in r <==> k in order && (k !in parentOf || parentOf[k] == "")
    ensures |r| <= |order|
  {
    if order == [] then []
    else
      (if order[0] !in parentOf || parentOf[order[0]] == "" then [order[0]] else [])
        + Roots(order[1..], parentOf)
  }

  /** Index of the first facility-typed root (`find`). */
  function FirstFacility(roots: seq<string>, byId: map<string, NodeIn>): (r: Option<nat>)
    requires forall k :: k in roots ==> k in byId
    ensures r.Some? ==> (r.value < |roots| && byId[roots[r.value]].kind == "facility"
      && forall j :: 0 <= j < r.value ==> byId[roots[j]].kind != "facility")
    ensures r.None? ==> forall j :: 0 <= j < |roots| ==> byId[roots[j]].kind != "facility"
  {
    if roots == [] then None
    else if byId[roots[0]].kind == "facility" then Some(0)
    else match FirstFacility(roots[1..], byId)
      case None => None
      case Some(i) => Some(i + 1)
  }

  /** `facilityNode || rootNodes[0]`: the first facility root, else the first
      root, else nothing. */
  function MainRoot(roots: seq<string>, byId: map<string, NodeIn>): (r: Option<string>)
    requires forall k :: k in roots ==> k in byId
    ensures r.None? <==> roots == []
    ensures (exists i :: 0 <= i < |roots| && byId[roots[i]].kind == "facility") ==>
      exists i :: (0 <= i < |roots| && r == Some(roots[i]) && byId[roots[i]].kind == "facility"
        && forall j :: 0 <= j < i ==> byId[roots[j]].kind != "facility")
    ensures roots != [] && (forall i :: 0 <= i < |roots| ==> byId[roots[i]].kind != "facility") ==>
      r == Some(roots[0])
  {
    match FirstFacility(roots, byId)
    case Some(i) => Some(roots[i])
    case None => if roots == [] then None else Some(roots[0])
  }

  // ---------------------------------------------------------------------
  // Levels: `assignLevels(node, level)`
  // ---------------------------------------------------------------------

  /** `assignLevels(id, level)`: set the node's level, then recurse into each
      child in order with `level + 1`. A node reached again while it is
      still on the recursion path means the recursion never ends (a
      RangeError, caught by the effect), modelled as None; so is an id with
      no node. A node reached again by another path is simply re-assigned. */
  function Visit(ch: map<string, seq<string>>, id: string, level: int, onPath: set<string>,
                 lv: map<string, int>): Option<map<string, int>>
    decreases ch.Keys - onPath, 0, 0
  {
    if id !in ch || id in onPath then None
    else VisitAll(ch, ch[id], level + 1, onPath + {id}, lv[id := level], 0)
  }

  /** `node.children.forEach(child => assignLevels(child, level))` from index i. */
  function VisitAll(ch: map<string, seq<string>>, kids: seq<string>, level: int, onPath: set<string>,
                    lv: map<string, int>, i: nat): Option<map<string, int>>
    requires i <= |kids|
    decreases ch.Keys - onPath, 1, |kids| - i
  {
    if i == |kids| then Some(lv)
    else match Visit(ch, kids[i], level, onPath, lv)
      case None => None
      case Some(lv') => VisitAll(ch, kids, level, onPath, lv', i + 1)
  }

  /** Every child of a member of `w` is in `w` and not in `avoid`. */
  ghost predicate Sealed(ch: map<string, seq<string>>, w: set<string>, avoid: set<string>)
    requires w <= ch.Keys
  {
    forall p :: p in w ==> forall c :: c in ch[p] ==> c in w && c !in avoid
  }

  /** `out` is `lv` with exactly the nodes of `w` written, each at `level`
      or deeper, and each node of `par` one level below its parent `par[k]`,
      a written node whose children list holds it. */
  ghost predicate Wrote(ch: map<string, seq<string>>, lv: map<string, int>, out: map<string, int>,
                        w: set<string>, par: map<string, string>, level: int)
  {
    && w <= ch.Keys
    && out.Keys == lv.Keys + w
    && (forall k :: k in lv && k !in w ==> out[k] == lv[k])
    && (forall k :: k in w ==> out[k] >= level)
    && par.Keys <= w
    && (forall k {:trigger par[k]} :: k in par ==> par[k] in w && k in ch[par[k]] && out[k] == out[par[k]] + 1)
  }

  /** What one `assignLevels(id, level)` does, in terms of the set `w` of
      nodes it writes: `w` holds `id`, is closed under children and reaches
      nothing on the path (that would be a cycle), nothing outside `w`
      changes, `id` keeps `level`, and every other written node k sits one
      level below a written node `par[k]` whose children list holds it. */
  lemma {:induction false} VisitShape(ch: map<string, seq<string>>, id: string, level: int,
                                      onPath: set<string>, lv: map<string, int>, out: map<string, int>)
    returns (w: set<string>, par: map<string, string>)
    requires Visit(ch, id, level, onPath, lv) == Some(out)
    ensures Wrote(ch, lv, out, w, par, level)
    ensures id in w && w !! onPath && Sealed(ch, w, onPath + {id})
    ensures out[id] == level && par.Keys == w - {id}
    decreases ch.Keys - onPath, 0, 0
  {
    var lv1 := lv[id := level];
    assert VisitAll(ch, ch[id], level + 1, onPath + {id}, lv1, 0) == Some(out);
    var w', par' := VisitAllShape(ch, ch[id], level + 1, onPath + {id}, lv1, 0, out);
    w, par := AddRoot(ch, id, level, onPath, lv, out, w', par');
  }

  /** The step from the children's visits to the node's own visit, on the
      facts alone: `id` joins the written set and becomes the parent of the
      written nodes that had none. */
  lemma {:induction false} AddRoot(ch: map<string, seq<string>>, id: string, level: int, onPath: set<string>,
                                   lv: map<string, int>, out: map<string, int>, w': set<string>, par': map<string, string>)
    returns (w: set<string>, par: map<string, string>)
    requires id in ch && id !in onPath
    requires Wrote(ch, lv[id := level], out, w', par', level + 1)
    requires w' !! onPath + {id} && Sealed(ch, w', onPath + {id})
    requires forall j :: 0 <= j < |ch[id]| ==> ch[id][j] in w'
    requires forall k :: k in w' && k !in par' ==> k in ch[id][0..] && out[k] == level + 1
    ensures Wrote(ch, lv, out, w, par, level)
    ensures id in w && w !! onPath && Sealed(ch, w, onPath + {id})
    ensures out[id] == level && par.Keys == w - {id}
  {
    assert id !in w';
    w := w' + {id};
    par := Reparented(par', w', id);
    assert w - {id} == w';
    SealedRoot(ch, w', id, onPath);
    RootLevels(lv, id, level, out, w');
    RootParents(ch, id, level, out, w', par');
  }

  /** The levels around the visited node: it keeps `level`, the nodes
      below it are deeper, and the unwritten ones keep their level. */
  lemma {:induction false} RootLevels(lv: map<string, int>, id: string, level: int, out: map<string, int>,
                                      w': set<string>)
    requires id !in w' && out.Keys == lv[id := level].Keys + w'
    requires forall k :: k in lv[id := level] && k !in w' ==> out[k] == lv[id := level][k]
    requires forall k :: k in w' ==> out[k] >= level + 1
    ensures out.Keys == lv.Keys + (w' + {id}) && out[id] == level
    ensures forall k :: k in lv && k !in w' + {id} ==> out[k] == lv[k]
    ensures forall k :: k in w' + {id} ==> out[k] >= level
  {
    var lv1 := lv[id := level];
    assert out[id] == level;
    forall k | k in lv && k !in w' + {id} ensures out[k] == lv[k] {
      assert k != id && k in lv1 && k !in w';
    }
  }

  /** The visited node becomes the parent of the written nodes that had
      none, which are its own children, one level below it. */
  lemma {:induction false} RootParents(ch: map<string, seq<string>>, id: string, level: int, out: map<string, int>,
                                       w': set<string>, par': map<string, string>)
    requires id in ch && id !in w' && w' <= ch.Keys && id in out && out[id] == level
    requires par'.Keys <= w'
    requires forall k {:trigger par'[k]} :: k in par' ==> par'[k] in w' && k in ch[par'[k]] && k in out && par'[k] in out && out[k] == out[par'[k]] + 1
    requires forall k :: k in w' && k !in par' ==> k in ch[id][0..] && k in out && out[k] == level + 1
    ensures var par := Reparented(par', w', id);
      forall k {:trigger par[k]} :: k in par ==> par[k] in w' + {id} && k in ch[par[k]] && out[k] == out[par[k]] + 1
  {
    var par := Reparented(par', w', id);
    forall k | k in par ensures par[k] in w' + {id} && k in ch[par[k]] && out[k] == out[par[k]] + 1 {
      if k !in par' {
        assert k in ch[id][0..];
        assert ch[id][0..] == ch[id];
        assert par[k] == id;
      }
    }
  }

  /** The parents within `w`, with `id` as the parent of the rest. */
  ghost function Reparented(par: map<string, string>, w: set<string>, id: string): (r: map<string, string>)
    ensures r.Keys == w
    ensures forall k :: k in w ==> r[k] == if k in par then par[k] else id
  {
    map k | k in w :: if k in par then par[k] else id
  }

  /** Adding the visited node to the set its children's visits wrote. */
  lemma {:induction false} SealedRoot(ch: map<string, seq<string>>, w: set<string>, id: string, onPath: set<string>)
    requires id in ch && w <= ch.Keys && w !! onPath + {id}
    requires Sealed(ch, w, onPath + {id})
    requires forall j :: 0 <= j < |ch[id]| ==> ch[id][j] in w
    ensures Sealed(ch, w + {id}, onPath + {id})
  {
    forall p | p in w + {id} ensures forall c :: c in ch[p] ==> c in w + {id} && c !in onPath + {id} {
      if p == id {
        forall c | c in ch[p] ensures c in w {
          var j :| 0 <= j < |ch[id]| && ch[id][j] == c;
        }
      }
    }
  }

  /** What `children.forEach(assignLevels)` does from index i: as above, with
      every remaining child written, and each written node k either a child
      of this list at `level` or one below its written parent `par[k]`. */
  lemma {:induction false} VisitAllShape(ch: map<string, seq<string>>, kids: seq<string>, level: int,
                                         onPath: set<string>, lv: map<string, int>, i: nat, out: map<string, int>)
    returns (w: set<string>, par: map<string, string>)
    requires i <= |kids|
    requires VisitAll(ch, kids, level, onPath, lv, i) == Some(out)
    ensures Wrote(ch, lv, out, w, par, level)
    ensures w !! onPath && Sealed(ch, w, onPath)
    ensures forall j :: i <= j < |kids| ==> kids[j] in w
    ensures forall k :: k in w && k !in par ==> k in kids[i..] && out[k] == level
    decreases ch.Keys - onPath, 1, |kids| - i
  {
    if i == |kids| {
      w, par := {}, map[];
    } else {
      var lv1 := Visit(ch, kids[i], level, onPath, lv).value;
      var w1, par1 := VisitShape(ch, kids[i], level, onPath, lv, lv1);
      var w2, par2 := VisitAllShape(ch, kids, level, onPath, lv1, i + 1, out);
      w, par := JoinVisits(ch, kids, level, onPath, lv, i, lv1, out, w1, par1, w2, par2);
    }
  }

  /** The parents of the later visits, and those of the first visit for
      the nodes the later ones did not write. */
  ghost function Merged(par2: map<string, string>, par1: map<string, string>, w2: set<string>): (r: map<string, string>)
    ensures r.Keys == par2.Keys + (par1.Keys - w2)
    ensures forall k :: k in r ==> r[k] == if k in par2 then par2[k] else par1[k]
  {
    map k | k in par2.Keys + (par1.Keys - w2) :: if k in par2 then par2[k] else par1[k]
  }

  /** The step from the visit of `kids[i]` and the visits of the later
      children to the visits from i, on the facts alone. */
  lemma {:induction false} JoinVisits(ch: map<string, seq<string>>, kids: seq<string>, level: int, onPath: set<string>,
                                      lv: map<string, int>, i: nat, lv1: map<string, int>, out: map<string, int>,
                                      w1: set<string>, par1: map<string, string>, w2: set<string>, par2: map<string, string>)
    returns (w: set<string>, par: map<string, string>)
    requires i < |kids|
    requires Wrote(ch, lv, lv1, w1, par1, level)
    requires kids[i] in w1 && w1 !! onPath && Sealed(ch, w1, onPath + {kids[i]})
    requires lv1[kids[i]] == level && par1.Keys == w1 - {kids[i]}
    requires Wrote(ch, lv1, out, w2, par2, level)
    requires w2 !! onPath && Sealed(ch, w2, onPath)
    requires forall j :: i + 1 <= j < |kids| ==> kids[j] in w2
    requires forall k :: k in w2 && k !in par2 ==> k in kids[i + 1..] && out[k] == level
    ensures Wrote(ch, lv, out, w, par, level)
    ensures w !! onPath && Sealed(ch, w, onPath)
    ensures forall j :: i <= j < |kids| ==> kids[j] in w
    ensures forall k :: k in w && k !in par ==> k in kids[i..] && out[k] == level
  {
    w := w1 + w2;
    par := Merged(par2, par1, w2);
    forall k | k in lv && k !in w ensures out[k] == lv[k] {
      assert k in lv1 && k !in w2 && k !in w1;
    }
    forall k | k in w ensures out[k] >= level {
      if k !in w2 {
        assert k in lv1 && k in w1;
      }
    }
    forall k | k in w && k !in par ensures k in kids[i..] && out[k] == level {
      if k in w2 {
        assert k in kids[i + 1..];
        var j :| 0 <= j < |kids[i + 1..]| && kids[i + 1..][j] == k;
        assert kids[i..][j + 1] == k;
      } else {
        assert k == kids[i] && k in lv1;
        assert kids[i..][0] == k;
      }
    }
    forall k | k in par ensures par[k] in w && k in ch[par[k]] && out[k] == out[par[k]] + 1 {
      if k !in par2 {
        var p := par1[k];
        assert p !in w2;
        assert k in lv1 && p in lv1;
      }
    }
  }

  /** The levels the effect assigns: from the main root when there is one;
      otherwise there are no roots at all and no node gets a level. */
  function Levels(ch: map<string, seq<string>>, main: Option<string>): Option<map<string, int>>
  {
    if main.Some? then Visit(ch, main.value, 0, {}, map[]) else Some(map[])
  }

  /** When the recursion ends, the main root has level 0 and is in no
      children list of a leveled node, every leveled node is a node, the
      children of a leveled node are leveled, and every other leveled node
      is one level below a leveled node whose children list holds it: the
      leveled nodes are exactly those reachable from the main root, each at
      the depth of the path the recursion last took to it. */
  lemma {:induction false} LevelsShape(ch: map<string, seq<string>>, root: string, l: map<string, int>)
    requires Visit(ch, root, 0, {}, map[]) == Some(l)
    ensures root in l && l[root] == 0
    ensures l.Keys <= ch.Keys
    ensures forall p :: p in l ==> forall c :: c in ch[p] ==> c in l && c != root
    ensures forall k :: k in l ==> l[k] >= 0
    ensures forall k :: k in l && k != root ==> exists p :: p in l && k in ch[p] && l[k] == l[p] + 1
  {
    var w, par := VisitShape(ch, root, 0, {}, map[], l);
    forall k | k in l && k != root ensures exists p :: p in l && k in ch[p] && l[k] == l[p] + 1 {
      assert par[k] in l;
    }
  }

  /** In a forest (every node in at most one children list), a child's level
      is its parent's level plus one. */
  lemma {:induction false} ForestLevels(ch: map<string, seq<string>>, root: string, l: map<string, int>, p: string, c: string)
    requires Visit(ch, root, 0, {}, map[]) == Some(l)
    requires forall q :: q in ch && c in ch[q] ==> q == p
    requires p in l && p in ch && c in ch[p]
    ensures c in l && l[c] == l[p] + 1
  {
    LevelsShape(ch, root, l);
  }

  /** The recursion always ends when every child has a strictly higher rank
      than its parent. */
  lemma {:induction false} VisitEnds(byId: map<string, NodeIn>, ch: map<string, seq<string>>, id: string,
                                     level: int, onPath: set<string>, lv: map<string, int>)
    requires ch.Keys <= byId.Keys
    requires forall p :: p in ch ==> forall c :: c in ch[p] ==> c in ch && RankBelow(byId[p].kind, byId[c].kind)
    requires id in ch && forall q :: q in onPath ==> q in byId && RankBelow(byId[q].kind, byId[id].kind)
    ensures Visit(ch, id, level, onPath, lv).Some?
    decreases ch.Keys - onPath, 0, 0
  {
    assert id !in onPath;
    VisitAllEnds(byId, ch, ch[id], level + 1, onPath + {id}, lv[id := level], 0);
  }

  lemma {:induction false} VisitAllEnds(byId: map<string, NodeIn>, ch: map<string, seq<string>>, kids: seq<string>,
                                        level: int, onPath: set<string>, lv: map<string, int>, i: nat)
    requires ch.Keys <= byId.Keys
    requires forall p :: p in ch ==> forall c :: c in ch[p] ==> c in ch && RankBelow(byId[p].kind, byId[c].kind)
    requires i <= |kids|
    requires forall j :: i <= j < |kids| ==> (kids[j] in ch &&
      forall q :: q in onPath ==> q in byId && RankBelow(byId[q].kind, byId[kids[j]].kind))
    ensures VisitAll(ch, kids, level, onPath, lv, i).Some?
    decreases ch.Keys - onPath, 1, |kids| - i
  {
    if i < |kids| {
      VisitEnds(byId, ch, kids[i], level, onPath, lv);
      var lv1 := Visit(ch, kids[i], level, onPath, lv).value;
      VisitAllEnds(byId, ch, kids, level, onPath, lv1, i + 1);
    }
  }

  /** Every link that joins two different ranks makes the children lists
      rank-increasing, so the recursion ends; only equal-rank or unranked
      links can create the cycles that stop the effect. */
  lemma {:induction false} StrictRanksIncrease(byId: map<string, NodeIn>, links: seq<Link>, p: string)
    requires forall j :: 0 <= j < |links| && Resolve(byId, links[j]).Some? ==>
      var s, t := EndpointId(links[j].source), EndpointId(links[j].target);
      RankBelow(byId[s].kind, byId[t].kind) || RankBelow(byId[t].kind, byId[s].kind)
    ensures forall c :: c in ChildrenFrom(byId, links, p) ==> p in byId && c in byId && RankBelow(byId[p].kind, byId[c].kind)
  {
    if links != [] {
      var pre := links[..|links| - 1];
      forall j | 0 <= j < |pre| && Resolve(byId, pre[j]).Some?
        ensures var s, t := EndpointId(pre[j].source), EndpointId(pre[j].target);
          RankBelow(byId[s].kind, byId[t].kind) || RankBelow(byId[t].kind, byId[s].kind)
      {
        assert pre[j] == links[j];
      }
      StrictRanksIncrease(byId, pre, p);
      assert Resolve(byId, links[|links| - 1]).Some? ==> true;
    }
  }

  // ---------------------------------------------------------------------
  // Layout: `nodesByLevel` and the row positions
  // ---------------------------------------------------------------------

  /** A node's group key: its level, or undefined (None) when it has none. */
  function LevelOf(lv: map<string, int>, k: string): Option<int>
  {
    if k in lv then Some(lv[k]) else None
  }

  /** The nodes of `order` in group g, in order (`nodesByLevel[g]`). */
  function Group(order: seq<string>, lv: map<string, int>, g: Option<int>): seq<string>
  {
    if order == [] then []
    else
      Group(order[..|order| - 1], lv, g)
        + (if LevelOf(lv, order[|order| - 1]) == g then [order[|order| - 1]] else [])
  }

  lemma {:induction false} GroupMembers(order: seq<string>, lv: map<string, int>, g: Option<int>)
    ensures forall k :: k in Group(order, lv, g) <==> k in order && LevelOf(lv, k) == g
  {
    if order != [] {
      GroupMembers(order[..|order| - 1], lv, g);
      assert order == order[..|order| - 1] + [order[|order| - 1]];
    }
  }

  lemma {:induction false} GroupAppend(a: seq<string>, b: seq<string>, lv: map<string, int>, g: Option<int>)
    ensures Group(a + b, lv, g) == Group(a, lv, g) + Group(b, lv, g)
    decreases |b|
  {
    if b == [] {
      assert a + b == a;
    } else {
      assert (a + b)[..|a + b| - 1] == a + b[..|b| - 1];
      GroupAppend(a, b[..|b| - 1], lv, g);
    }
  }

  lemma {:induction false} GroupDistinct(order: seq<string>, lv: map<string, int>, g: Option<int>)
    requires Distinct(order)
    ensures Distinct(Group(order, lv, g))
  {
    if order != [] {
      var pre := order[..|order| - 1];
      GroupDistinct(pre, lv, g);
      GroupMembers(pre, lv, g);
    }
  }

  /** The node at position i of the node order is at position
      `|Group(order[..i])|` of its row. */
  lemma {:induction false} GroupIndex(order: seq<string>, lv: map<string, int>, i: nat)
    requires i < |order|
    ensures |Group(order[..i], lv, LevelOf(lv, order[i]))| < |Group(order, lv, LevelOf(lv, order[i]))|
    ensures Group(order, lv, LevelOf(lv, order[i]))[|Group(order[..i], lv, LevelOf(lv, order[i]))|] == order[i]
  {
    var g := LevelOf(lv, order[i]);
    assert order == order[..i + 1] + order[i + 1..];
    GroupAppend(order[..i + 1], order[i + 1..], lv, g);
    assert order[..i + 1][..i] == order[..i];
  }

  /** Position of the first k in s (`indexOf`), |s| when there is none. */
  function IndexOf(s: seq<string>, k: string): (r: nat)
    ensures r <= |s|
    ensures r < |s| <==> k in s
    ensures r < |s| ==> s[r] == k
  {
    if s == [] then 0 else if s[0] == k then 0 else 1 + IndexOf(s[1..], k)
  }

  lemma {:induction false} IndexOfDistinct(s: seq<string>, j: nat)
    requires Distinct(s) && j < |s|
    ensures IndexOf(s, s[j]) == j
  {
    if j > 0 {
      assert s[1..][j - 1] == s[j];
      IndexOfDistinct(s[1..], j - 1);
    }
  }

  /** The x of the node at index j in a row of n: `-n*250/2 + 250/2 + 250*j`. */
  function RowX(n: int, j: int): int
  {
    125 - 125 * n + 250 * j
  }

  /** The x a node gets: from the size of its row and its index in it. */
  function XOf(order: seq<string>, lv: map<string, int>, k: string): int
  {
    var row := Group(order, lv, LevelOf(lv, k));
    RowX(|row|, IndexOf(row, k))
  }

  /** The y a node gets: `Number(level) * 150`, NaN (None) without a level. */
  function YOf(lv: map<string, int>, k: string): Option<int>
  {
    if k in lv then Some(lv[k] * 150) else None
  }

  /** The node at index j of row g gets the x of index j in a row of that
      size. */
  lemma {:induction false} XInRow(order: seq<string>, lv: map<string, int>, g: Option<int>, j: nat)
    requires Distinct(order) && j < |Group(order, lv, g)|
    ensures Group(order, lv, g)[j] in order && LevelOf(lv, Group(order, lv, g)[j]) == g
    ensures XOf(order, lv, Group(order, lv, g)[j]) == RowX(|Group(order, lv, g)|, j)
  {
    var row := Group(order, lv, g);
    var k := row[j];
    GroupMembers(order, lv, g);
    assert k in row;
    GroupDistinct(order, lv, g);
    IndexOfDistinct(row, j);
    assert Group(order, lv, LevelOf(lv, k)) == row;
  }

  /** The grouping pass: `nodesByLevel[node.level].push(node)` in Map
      order, creating a group the first time its level is seen. */
  method GroupByLevel(order: seq<string>, lv: map<string, int>) returns (groups: map<Option<int>, seq<string>>)
    ensures forall g :: g in groups <==> Group(order, lv, g) != []
    ensures forall g :: g in groups ==> groups[g] == Group(order, lv, g)
  {
    groups := map[];
    for i := 0 to |order|
      invariant forall g :: g in groups ==> groups[g] == Group(order[..i], lv, g)
      invariant forall g :: g in groups <==> Group(order[..i], lv, g) != []
    {
      var groups0 := groups;
      groups := Pushed(groups, LevelOf(lv, order[i]), order[i]);
      GroupStep(order, lv, i, groups0, groups);
    }
    assert order[..|order|] == order;
  }

  /** One node of the grouping pass keeps the groups equal to `Group`. */
  lemma {:induction false} GroupStep(order: seq<string>, lv: map<string, int>, i: nat,
                                     groups0: map<Option<int>, seq<string>>, groups: map<Option<int>, seq<string>>)
    requires i < |order|
    requires forall g :: g in groups0 ==> groups0[g] == Group(order[..i], lv, g)
    requires forall g :: g in groups0 <==> Group(order[..i], lv, g) != []
    requires groups == Pushed(groups0, LevelOf(lv, order[i]), order[i])
    ensures forall g :: g in groups ==> groups[g] == Group(order[..i + 1], lv, g)
    ensures forall g :: g in groups <==> Group(order[..i + 1], lv, g) != []
  {
    assert order[..i + 1][..i] == order[..i];
    assert order[..i + 1][i] == order[i];
    forall g ensures g in groups <==> Group(order[..i + 1], lv, g) != []
      ensures g in groups ==> groups[g] == Group(order[..i + 1], lv, g)
    {
      var before := if g in groups0 then groups0[g] else [];
      assert Group(order[..i], lv, g) == before;
      assert Group(order[..i + 1], lv, g) == before + (if LevelOf(lv, order[i]) == g then [order[i]] else []);
    }
  }

  /** One row of the positioning pass: `startX = -levelWidth / 2 +
      nodePadding / 2` and, for the node at index j, `x = startX + j * 250`
      and `y = Number(level) * 150`. */
  method PlaceRow(order: seq<string>, lv: map<string, int>, g: Option<int>, row: seq<string>,
                  x0: map<string, int>, y0: map<string, Option<int>>)
    returns (x: map<string, int>, y: map<string, Option<int>>)
    requires Distinct(order) && row == Group(order, lv, g)
    requires x0.Keys <= set k | k in order
    requires y0.Keys == x0.Keys
    requires forall k {:trigger x0[k]} {:trigger y0[k]} :: k in x0 ==> x0[k] == XOf(order, lv, k) && y0[k] == YOf(lv, k)
    ensures forall k :: k in x <==> k in x0 || (k in order && LevelOf(lv, k) == g)
    ensures y.Keys == x.Keys
    ensures forall k {:trigger x[k]} {:trigger y[k]} :: k in x ==> x[k] == XOf(order, lv, k) && y[k] == YOf(lv, k)
  {
    GroupMembers(order, lv, g);
    x, y := x0, y0;
    var levelWidth := |row| * 250;
    var startX := -levelWidth / 2 + 250 / 2;
    assert startX == 125 - 125 * |row|;
    for j := 0 to |row|
      invariant forall k :: k in x <==> k in x0 || k in row[..j]
      invariant y.Keys == x.Keys
      invariant forall k {:trigger x[k]} :: k in x ==> x[k] == XOf(order, lv, k)
      invariant forall k {:trigger y[k]} :: k in y ==> y[k] == YOf(lv, k)
    {
      var x1, y1 := x, y;
      XInRow(order, lv, g, j);
      x := x[row[j] := startX + j * 250];
      y := y[row[j] := if g.Some? then Some(g.value * 150) else None];
      PlaceX(order, lv, g, j, x1, x);
      PlaceY(lv, g, row[j], y1, y);
      assert row[..j + 1] == row[..j] + [row[j]];
    }
    assert row[..|row|] == row;
  }

  /** Placing the node at index j of row g keeps every placed node at its
      formula x. */
  lemma {:induction false} PlaceX(order: seq<string>, lv: map<string, int>, g: Option<int>, j: nat,
                                  x1: map<string, int>, x: map<string, int>)
    requires Distinct(order) && j < |Group(order, lv, g)|
    requires forall k {:trigger x1[k]} :: k in x1 ==> x1[k] == XOf(order, lv, k)
    requires x == x1[Group(order, lv, g)[j] := 125 - 125 * |Group(order, lv, g)| + j * 250]
    ensures forall k {:trigger x[k]} :: k in x ==> x[k] == XOf(order, lv, k)
  {
    XInRow(order, lv, g, j);
  }

  /** and its y from its level. */
  lemma {:induction false} PlaceY(lv: map<string, int>, g: Option<int>, k0: string,
                                  y1: map<string, Option<int>>, y: map<string, Option<int>>)
    requires LevelOf(lv, k0) == g
    requires forall k {:trigger y1[k]} :: k in y1 ==> y1[k] == YOf(lv, k)
    requires y == y1[k0 := if g.Some? then Some(g.value * 150) else None]
    ensures forall k {:trigger y[k]} :: k in y ==> y[k] == YOf(lv, k)
  {
  }

  /** Groups the nodes by level, then places each row (in any order of the
      rows): every input x and y is overwritten, and each node gets the x
      from its row size and index, and the y from its level. */
  method Layout(order: seq<string>, lv: map<string, int>) returns (x: map<string, int>, y: map<string, Option<int>>)
    requires Distinct(order)
    ensures x.Keys == y.Keys == set k | k in order
    ensures forall k {:trigger x[k]} {:trigger y[k]} :: k in x ==> x[k] == XOf(order, lv, k) && y[k] == YOf(lv, k)
  {
    var groups := GroupByLevel(order, lv);
    x, y := map[], map[];
    var remaining := groups.Keys;
    while remaining != {}
      invariant remaining <= groups.Keys
      invariant forall k :: k in x <==> k in order && LevelOf(lv, k) in groups.Keys - remaining
      invariant y.Keys == x.Keys
      invariant forall k {:trigger x[k]} {:trigger y[k]} :: k in x ==> x[k] == XOf(order, lv, k) && y[k] == YOf(lv, k)
      decreases remaining
    {
      var g :| g in remaining;
      x, y := PlaceRow(order, lv, g, groups[g], x, y);
      remaining := remaining - {g};
    }
    forall k | k in order ensures k in x {
      GroupMembers(order, lv, LevelOf(lv, k));
    }
  }

  /** The formula in index form: the i-th node in the order has x
      `125 - 125*n + 250*c`, where n is the size of its row and c the number
      of nodes of that row before it. */
  lemma {:induction false} XByIndex(order: seq<string>, lv: map<string, int>, i: nat)
    requires Distinct(order) && i < |order|
    ensures XOf(order, lv, order[i])
      == RowX(|Group(order, lv, LevelOf(lv, order[i]))|, |Group(order[..i], lv, LevelOf(lv, order[i]))|)
  {
    var g := LevelOf(lv, order[i]);
    GroupIndex(order, lv, i);
    GroupDistinct(order, lv, g);
    IndexOfDistinct(Group(order, lv, g), |Group(order[..i], lv, g)|);
  }

  /** Neighbours in a row are exactly 250 apart. */
  lemma {:induction false} NeighboursSpaced(order: seq<string>, lv: map<string, int>, g: Option<int>, j: nat)
    requires Distinct(order) && j + 1 < |Group(order, lv, g)|
    ensures Group(order, lv, g)[j] in order && Group(order, lv, g)[j + 1] in order
    ensures XOf(order, lv, Group(order, lv, g)[j + 1]) - XOf(order, lv, Group(order, lv, g)[j]) == 250
  {
    XInRow(order, lv, g, j);
    XInRow(order, lv, g, j + 1);
  }

  /** A row is centred on 0: the i-th and the i-th-from-last nodes mirror. */
  lemma {:induction false} RowSymmetric(order: seq<string>, lv: map<string, int>, g: Option<int>, j: nat)
    requires Distinct(order) && j < |Group(order, lv, g)|
    ensures Group(order, lv, g)[j] in order && Group(order, lv, g)[|Group(order, lv, g)| - 1 - j] in order
    ensures XOf(order, lv, Group(order, lv, g)[j]) + XOf(order, lv, Group(order, lv, g)[|Group(order, lv, g)| - 1 - j]) == 0
  {
    var n := |Group(order, lv, g)|;
    XInRow(order, lv, g, j);
    XInRow(order, lv, g, n - 1 - j);
    assert RowX(n, j) + RowX(n, n - 1 - j) == 0;
  }

  /** Sum of the x of the first m nodes of a row of n. */
  function RowSum(n: int, m: nat): int
  {
    if m == 0 then 0 else RowSum(n, m - 1) + RowX(n, m - 1)
  }

  lemma {:induction false} RowSumClosed(n: int, m: nat)
    ensures RowSum(n, m) == m * (125 - 125 * n) + 125 * m * (m - 1)
  {
    if m > 0 {
      RowSumClosed(n, m - 1);
      assert 125 * m * (m - 1) == 125 * (m - 1) * (m - 2) + 250 * (m - 1);
    }
  }

  /** The x values of a row sum to 0. */
  lemma {:induction false} RowSumsToZero(n: nat)
    ensures RowSum(n, n) == 0
  {
    RowSumClosed(n, n);
    assert n * (125 - 125 * n) == -(125 * n * (n - 1));
  }

  // ---------------------------------------------------------------------
  // The connection index
  // ---------------------------------------------------------------------

  /** `connections.get(id)`: for each link, the target is pushed onto the
      source's list and then the source onto the target's list, whether or
      not the endpoints are nodes. */
  function Neighbours(links: seq<Link>, id: string): seq<string>
  {
    if links == [] then []
    else
      var l := links[|links| - 1];
      var s, t := EndpointId(l.source), EndpointId(l.target);
      Neighbours(links[..|links| - 1], id) + (if s == id then [t] else []) + (if t == id then [s] else [])
  }

  /** The link joins a and b, in either direction. */
  predicate Joins(l: Link, a: string, b: string)
  {
    (EndpointId(l.source) == a && EndpointId(l.target) == b) ||
    (EndpointId(l.target) == a && EndpointId(l.source) == b)
  }

  /** b is listed under a exactly when some link joins a and b, in either
      direction. */
  lemma {:induction false} NeighbourIff(links: seq<Link>, a: string, b: string)
    ensures b in Neighbours(links, a) <==> exists j :: 0 <= j < |links| && Joins(links[j], a, b)
  {
    if links != [] {
      var pre := links[..|links| - 1];
      NeighbourIff(pre, a, b);
      forall j | 0 <= j < |pre| ensures pre[j] == links[j] { }
    }
  }

  /** The index is symmetric: b is listed under a as often as a under b. */
  lemma {:induction false} NeighboursSymmetric(links: seq<Link>, a: string, b: string)
    ensures multiset(Neighbours(links, a))[b] == multiset(Neighbours(links, b))[a]
  {
    if links != [] {
      var pre := links[..|links| - 1];
      var s, t := EndpointId(links[|links| - 1].source), EndpointId(links[|links| - 1].target);
      NeighboursSymmetric(pre, a, b);
      assert Neighbours(links, a) == Neighbours(pre, a) + (if s == a then [t] else []) + (if t == a then [s] else []);
      assert Neighbours(links, b) == Neighbours(pre, b) + (if s == b then [t] else []) + (if t == b then [s] else []);
      assert multiset(Neighbours(links, a))[b] == multiset(Neighbours(pre, a))[b]
        + (if s == a && t == b then 1 else 0) + (if t == a && s == b then 1 else 0);
      assert multiset(Neighbours(links, b))[a] == multiset(Neighbours(pre, b))[a]
        + (if s == b && t == a then 1 else 0) + (if t == b && s == a then 1 else 0);
    }
  }

  /** The connection index built by the second pass over the links. */
  method BuildConnections(links: seq<Link>) returns (conn: map<string, seq<string>>)
    ensures forall id :: id in conn <==> Neighbours(links, id) != []
    ensures forall id :: id in conn ==> conn[id] == Neighbours(links, id)
  {
    conn := map[];
    for i := 0 to |links|
      invariant forall id :: id in conn <==> Neighbours(links[..i], id) != []
      invariant forall id :: id in conn ==> conn[id] == Neighbours(links[..i], id)
    {
      var sourceId := EndpointId(links[i].source);
      var targetId := EndpointId(links[i].target);
      var conn0 := conn;
      conn := Pushed(Pushed(conn, sourceId, targetId), targetId, sourceId);
      ConnectionStep(links, i, conn0, conn);
    }
    assert links[..|links|] == links;
  }

  /** `if (!m.has(k)) m.set(k, []); m.get(k).push(v)`: v appended to the
      list under k, which is created empty first when missing. */
  function Pushed<K, V>(m: map<K, seq<V>>, k: K, v: V): map<K, seq<V>>
  {
    m[k := (if k in m then m[k] else []) + [v]]
  }

  /** One link of the second pass keeps the index equal to `Neighbours`. */
  lemma {:induction false} ConnectionStep(links: seq<Link>, i: nat, conn0: map<string, seq<string>>,
                                          conn: map<string, seq<string>>)
    requires i < |links|
    requires forall id :: id in conn0 <==> Neighbours(links[..i], id) != []
    requires forall id :: id in conn0 ==> conn0[id] == Neighbours(links[..i], id)
    requires conn == Pushed(Pushed(conn0, EndpointId(links[i].source), EndpointId(links[i].target)),
                            EndpointId(links[i].target), EndpointId(links[i].source))
    ensures forall id :: id in conn <==> Neighbours(links[..i + 1], id) != []
    ensures forall id :: id in conn ==> conn[id] == Neighbours(links[..i + 1], id)
  {
    var s, t := EndpointId(links[i].source), EndpointId(links[i].target);
    assert links[..i + 1][..i] == links[..i];
    assert links[..i + 1][i] == links[i];
    forall id ensures id in conn <==> Neighbours(links[..i + 1], id) != []
      ensures id in conn ==> conn[id] == Neighbours(links[..i + 1], id)
    {
      var before := if id in conn0 then conn0[id] else [];
      assert Neighbours(links[..i], id) == before;
      assert Neighbours(links[..i + 1], id) == before + (if s == id then [t] else []) + (if t == id then [s] else []);
    }
  }

  /** `[node.id, ...(nodeConnections.get(node.id) || [])]` */
  function Highlight(conn: map<string, seq<string>>, id: string): (r: seq<string>)
    ensures |r| >= 1 && r[0] == id
    ensures id in conn ==> r[1..] == conn[id]
    ensures id !in conn ==> r == [id]
  {
    [id] + (if id in conn then conn[id] else [])
  }

  /** Highlighting a node lights it and exactly the nodes a link joins to it. */
  lemma {:induction false} HighlightNeighbours(links: seq<Link>, conn: map<string, seq<string>>, a: string, b: string)
    requires forall id :: id in conn <==> Neighbours(links, id) != []
    requires forall id :: id in conn ==> conn[id] == Neighbours(links, id)
    ensures b in Highlight(conn, a)[1..] <==> exists j :: 0 <= j < |links| && Joins(links[j], a, b)
  {
    NeighbourIff(links, a, b);
  }

  // ---------------------------------------------------------------------
  // Drawing size
  // ---------------------------------------------------------------------

  function MinOf(s: seq<int>): (r: int)
    requires s != []
    ensures (exists i :: 0 <= i < |s| && r == s[i]) && forall i :: 0 <= i < |s| ==> r <= s[i]
  {
    if |s| == 1 then s[0] else var m := MinOf(s[1..]); if s[0] <= m then s[0] else m
  }

  function MaxOf(s: seq<int>): (r: int)
    requires s != []
    ensures (exists i :: 0 <= i < |s| && r == s[i]) && forall i :: 0 <= i < |s| ==> s[i] <= r
  {
    if |s| == 1 then s[0] else var m := MaxOf(s[1..]); if s[0] >= m then s[0] else m
  }

  function Max(a: int, b: int): int { if a >= b then a else b }

  /** True when every y is a number (no node lacks a level). */
  predicate AllNumbers(ys: seq<Option<int>>)
  {
    forall i :: 0 <= i < |ys| ==> ys[i].Some?
  }

  function Numbers(ys: seq<Option<int>>): (r: seq<int>)
    requires AllNumbers(ys)
    ensures |r| == |ys| && forall i :: 0 <= i < |ys| ==> r[i] == ys[i].value
  {
    if ys == [] then [] else [ys[0].value] + Numbers(ys[1..])
  }

  /** The SVG size: width `max(1000, (maxX + 150) - (minX - 150))`, and
      height `max(600, (maxY + 120) - (minY - 80))`, which is NaN (None) as
      soon as one y is NaN. */
  function Dimensions(xs: seq<int>, ys: seq<Option<int>>): (int, Option<int>)
    requires xs != [] && |ys| == |xs|
  {
    var minX := MinOf(xs) - 150;
    var maxX := MaxOf(xs) + 150;
    var width := Max(1000, maxX - minX);
    if AllNumbers(ys) then
      var ns := Numbers(ys);
      var minY := MinOf(ns) - 80;
      var maxY := MaxOf(ns) + 120;
      (width, Some(Max(600, maxY - minY)))
    else (width, None)
  }

  /** The drawing is at least 1000 by 600, spans every horizontal gap plus
      300 and every vertical gap plus 200, and is exactly its minimum or
      such a span; the height is NaN exactly when some node has no level. */
  lemma {:induction false} DimensionsBound(xs: seq<int>, ys: seq<Option<int>>)
    requires xs != [] && |ys| == |xs|
    ensures Dimensions(xs, ys).0 >= 1000
    ensures forall i, j :: 0 <= i < |xs| && 0 <= j < |xs| ==> xs[i] - xs[j] + 300 <= Dimensions(xs, ys).0
    ensures Dimensions(xs, ys).0 == 1000 ||
      exists i, j :: 0 <= i < |xs| && 0 <= j < |xs| && Dimensions(xs, ys).0 == xs[i] - xs[j] + 300
    ensures Dimensions(xs, ys).1.Some? <==> AllNumbers(ys)
    ensures Dimensions(xs, ys).1.Some? ==> Dimensions(xs, ys).1.value >= 600
    ensures Dimensions(xs, ys).1.Some? ==> forall i, j :: 0 <= i < |ys| && 0 <= j < |ys| ==>
      ys[i].value - ys[j].value + 200 <= Dimensions(xs, ys).1.value
  {
    if AllNumbers(ys) {
      var ns := Numbers(ys);
      assert MinOf(ns) <= MaxOf(ns);
    }
  }

  /** A lone node gives the minimum drawing, 1000 by 600. */
  lemma {:induction false} SingleNodeSize(x: int, y: int)
    ensures Dimensions([x], [Some(y)]) == (1000, Some(600))
  {
  }

  // ---------------------------------------------------------------------
  // The component state
  // ---------------------------------------------------------------------

  /** A node as the effect leaves it: the input fields, `parentId`,
      `children` (as ids), `level` and the position (y None is NaN). */
  datatype GNode = GNode(id: string, title: string, kind: string, parentId: Option<string>,
                         children: seq<string>, level: Option<int>, x: int, y: Option<int>)

  /** The graph data prop: `data && data.nodes && data.links`. */
  datatype GraphData = GraphData(nodes: seq<NodeIn>, links: seq<Link>)

  /** The node the effect records for id k. */
  function NodeOut(byId: map<string, NodeIn>, order: seq<string>, links: seq<Link>, lv: map<string, int>, k: string): GNode
    requires k in byId && k in order
  {
    var parents := ParentsFrom(byId, links);
    GNode(k, byId[k].title, byId[k].kind, if k in parents then Some(parents[k]) else None,
          ChildrenFrom(byId, links, k), LevelOf(lv, k), XOf(order, lv, k), YOf(lv, k))
  }

  /** The main root the effect computes for the data. */
  function MainRootOf(d: GraphData): Option<string>
  {
    MapShape(d.nodes);
    MainRoot(Roots(MapOrder(d.nodes), ParentsFrom(MapValues(d.nodes), d.links)), MapValues(d.nodes))
  }

  /** The levels the effect computes for the data, None when it throws. */
  function LevelsOf(d: GraphData): Option<map<string, int>>
  {
    var byId := MapValues(d.nodes);
    Levels(map k | k in byId :: ChildrenFrom(byId, d.links, k), MainRootOf(d))
  }

  /** The nodes the effect records, in Map order. */
  function NodesOut(d: GraphData, lv: map<string, int>): (r: seq<GNode>)
    ensures |r| == |MapOrder(d.nodes)|
  {
    OrderInMap(d.nodes);
    var order, byId := MapOrder(d.nodes), MapValues(d.nodes);
    seq(|order|, i requires 0 <= i < |order| => NodeOut(byId, order, d.links, lv, order[i]))
  }

  /** `nodes.map(node => node.x)` */
  function Xs(ns: seq<GNode>): (r: seq<int>)
    ensures |r| == |ns|
  {
    if ns == [] then [] else [ns[0].x] + Xs(ns[1..])
  }

  /** `nodes.map(node => node.y)` */
  function Ys(ns: seq<GNode>): (r: seq<Option<int>>)
    ensures |r| == |ns|
  {
    if ns == [] then [] else [ns[0].y] + Ys(ns[1..])
  }

  /** Copies the Map's nodes out with their new fields
      (`Array.from(nodeMap.values())`), in Map order. */
  method RecordNodes(order: seq<string>, byId: map<string, NodeIn>,
                     children: map<string, seq<string>>, parentOf: map<string, string>,
                     lv: map<string, int>, x: map<string, int>, y: map<string, Option<int>>)
    returns (nodes: seq<GNode>)
    requires forall k :: k in order ==> k in byId && k in children && k in x && k in y
    ensures |nodes| == |order|
    ensures forall j :: 0 <= j < |order| ==> nodes[j] == Snapshot(byId, children, parentOf, lv, x, y, order[j])
  {
    nodes := [];
    for i := 0 to |order|
      invariant |nodes| == i
      invariant forall j :: 0 <= j < i ==> nodes[j] == Snapshot(byId, children, parentOf, lv, x, y, order[j])
    {
      nodes := nodes + [Snapshot(byId, children, parentOf, lv, x, y, order[i])];
    }
  }

  /** A node copied out of the Map together with the fields the passes
      gave it. */
  function Snapshot(byId: map<string, NodeIn>, children: map<string, seq<string>>,
                    parentOf: map<string, string>, lv: map<string, int>,
                    x: map<string, int>, y: map<string, Option<int>>, k: string): GNode
    requires k in byId && k in children && k in x && k in y
  {
    GNode(k, byId[k].title, byId[k].kind, if k in parentOf then Some(parentOf[k]) else None,
          children[k], LevelOf(lv, k), x[k], y[k])
  }

  /** After the passes, the copied nodes are the nodes the effect records:
      each keeps its id, title and type, and carries its last link parent,
      its children in link order, its level and its row position. */
  lemma {:induction false} SnapshotsAreNodesOut(d: GraphData, order: seq<string>, byId: map<string, NodeIn>,
                     children: map<string, seq<string>>, parentOf: map<string, string>,
                     lv: map<string, int>, x: map<string, int>, y: map<string, Option<int>>, nodes: seq<GNode>)
    requires order == MapOrder(d.nodes) && byId == MapValues(d.nodes)
    requires forall k :: k in order ==> k in byId
    requires children.Keys == byId.Keys
    requires forall p :: p in children ==> children[p] == ChildrenFrom(byId, d.links, p)
    requires parentOf == ParentsFrom(byId, d.links)
    requires x.Keys == y.Keys == set k | k in order
    requires forall k {:trigger x[k]} {:trigger y[k]} :: k in x ==> x[k] == XOf(order, lv, k) && y[k] == YOf(lv, k)
    requires |nodes| == |order|
    requires forall j :: 0 <= j < |order| ==> nodes[j] == Snapshot(byId, children, parentOf, lv, x, y, order[j])
    ensures nodes == NodesOut(d, lv)
  {
    forall j | 0 <= j < |order| ensures nodes[j] == NodesOut(d, lv)[j] {
      var k := order[j];
      assert k in x;
      assert Snapshot(byId, children, parentOf, lv, x, y, k) == NodeOut(byId, order, d.links, lv, k);
    }
  }

  /** Every id of the Map order is a key of the Map. */
  lemma {:induction false} OrderInMap(nodes: seq<NodeIn>)
    ensures forall k :: k in MapOrder(nodes) ==> k in MapValues(nodes)
  {
    MapShape(nodes);
  }

  /** What the effect hands to the state setters. */
  datatype Outcome = Outcome(nodes: seq<GNode>, conn: map<string, seq<string>>, mainRoot: Option<string>,
                             size: Option<(int, Option<int>)>)

  /** The drawing size for the recorded nodes; None when there are none
      (the size is then left as it was). */
  function SizeOf(ns: seq<GNode>): Option<(int, Option<int>)>
  {
    if ns == [] then None else Some(Dimensions(Xs(ns), Ys(ns)))
  }

  /** The outcome of the effect on the data, None when the level recursion
      does not end (the effect's `catch`). */
  function EffectOutcome(d: GraphData): Option<Outcome>
  {
    match LevelsOf(d)
    case None => None
    case Some(lv) =>
      var ns := NodesOut(d, lv);
      Some(Outcome(ns, ConnOf(d.links), MainRootOf(d), SizeOf(ns)))
  }

  /** The computing part of the effect, up to the state setters. */
  method RunEffect(d: GraphData) returns (r: Option<Outcome>)
    ensures r == EffectOutcome(d)
    ensures r.Some? ==> forall id :: id in r.value.conn <==> Neighbours(d.links, id) != []
    ensures r.Some? ==> forall id :: id in r.value.conn ==> r.value.conn[id] == Neighbours(d.links, id)
    ensures r.Some? ==> r.value.mainRoot == MainRootOf(d)
  {
    var order, byId := BuildNodeMap(d.nodes);
    var children, parentOf := LinkPass(byId, d.links);
    assert children == map k | k in byId :: ChildrenFrom(byId, d.links, k);
    var roots := Roots(order, parentOf);
    var mainRoot := MainRoot(roots, byId);
    assert mainRoot == MainRootOf(d);
    var levels := Levels(children, mainRoot);
    assert levels == LevelsOf(d);
    if levels.None? {
      return None;
    }
    var lv := levels.value;
    var x, y := Layout(order, lv);
    var conn := BuildConnections(d.links);
    OrderInMap(d.nodes);
    var nodes := RecordNodes(order, byId, children, parentOf, lv, x, y);
    SnapshotsAreNodesOut(d, order, byId, children, parentOf, lv, x, y, nodes);
    ConnectionKeys(d.links, conn);
    var size := None;
    if |nodes| > 0 {
      size := Some(Dimensions(Xs(nodes), Ys(nodes)));
    }
    r := Some(Outcome(nodes, conn, mainRoot, size));
  }

  /** The ids that occur as an endpoint of some link. */
  function Endpoints(links: seq<Link>): set<string>
  {
    if links == [] then {}
    else
      var l := links[|links| - 1];
      Endpoints(links[..|links| - 1]) + {EndpointId(l.source), EndpointId(l.target)}
  }

  /** The connection index as a map: one entry per link endpoint. */
  function ConnOf(links: seq<Link>): map<string, seq<string>>
  {
    map id | id in Endpoints(links) :: Neighbours(links, id)
  }

  /** The connection index built by the loop is `ConnOf`. */
  lemma {:induction false} ConnectionKeys(links: seq<Link>, conn: map<string, seq<string>>)
    requires forall id :: id in conn <==> Neighbours(links, id) != []
    requires forall id :: id in conn ==> conn[id] == Neighbours(links, id)
    ensures conn == ConnOf(links)
  {
    forall id ensures id in conn <==> id in Endpoints(links) {
      NeighboursNonEmpty(links, id);
    }
  }

  /** An id has neighbours exactly when it is an endpoint of some link. */
  lemma {:induction false} NeighboursNonEmpty(links: seq<Link>, id: string)
    ensures Neighbours(links, id) != [] <==> id in Endpoints(links)
  {
    if links != [] {
      NeighboursNonEmpty(links[..|links| - 1], id);
    }
  }

  class GraphViewState {
    var hierarchicalNodes: seq<GNode>
    var nodeConnections: map<string, seq<string>>
    var mainRootNode: Option<string>
    var svgWidth: int
    var svgHeight: Option<int>
    var highlightedNodes: seq<string>
    var isInitialRender: bool
    /** The id handed to `onFirstNodeFound`, once. */
    var firstNodeFound: Option<string>

    constructor ()
      ensures hierarchicalNodes == [] && nodeConnections == map[] && mainRootNode.None?
      ensures svgWidth == 1000 && svgHeight == Some(600) && highlightedNodes == []
      ensures isInitialRender && firstNodeFound.None?
    {
      hierarchicalNodes, nodeConnections, mainRootNode := [], map[], None;
      svgWidth, svgHeight, highlightedNodes := 1000, Some(600), [];
      isInitialRender, firstNodeFound := true, None;
    }

    /** The data-processing effect. Without data, or when the level
        recursion does not end, nothing changes; otherwise the outcome is
        stored as `Store` describes. */
    method ProcessData(data: Option<GraphData>, hasFirstNodeCallback: bool)
      modifies this
      ensures data.None? ==> unchanged(this)
      ensures data.Some? ==> Stored(EffectOutcome(data.value), hasFirstNodeCallback)
    {
      if data.None? {
        return;
      }
      var r := RunEffect(data.value);
      Store(r, hasFirstNodeCallback);
    }

    /** The state after `Store(r, hasFirstNodeCallback)`. */
    twostate predicate Stored(r: Option<Outcome>, hasFirstNodeCallback: bool)
      reads this
    {
      && (r.None? ==> unchanged(this))
      && (r.Some? ==>
        && hierarchicalNodes == r.value.nodes && nodeConnections == r.value.conn
        && mainRootNode == r.value.mainRoot
        && highlightedNodes == old(highlightedNodes)
        && (r.value.size.Some? ==> (svgWidth, svgHeight) == r.value.size.value)
        && (r.value.size.None? ==> svgWidth == old(svgWidth) && svgHeight == old(svgHeight))
        && (if r.value.mainRoot.Some? && hasFirstNodeCallback && old(isInitialRender)
            then firstNodeFound == r.value.mainRoot && !isInitialRender
            else firstNodeFound == old(firstNodeFound) && isInitialRender == old(isInitialRender)))
    }

    /** The state setters: the nodes, the connection index, the main root,
        the size when there is a node, and `onFirstNodeFound` with the main
        root on the first render. A failed run (None) sets nothing. */
    method Store(r: Option<Outcome>, hasFirstNodeCallback: bool)
      modifies this
      ensures Stored(r, hasFirstNodeCallback)
    {
      if r.None? {
        return;
      }
      var o := r.value;
      nodeConnections := o.conn;
      hierarchicalNodes := o.nodes;
      mainRootNode := o.mainRoot;
      if o.size.Some? {
        svgWidth, svgHeight := o.size.value.0, o.size.value.1;
      }
      if o.mainRoot.Some? && hasFirstNodeCallback && isInitialRender {
        firstNodeFound := o.mainRoot;
        isInitialRender := false;
      }
    }

    /** `handleNodeSelect`: highlight the node and its connected nodes. */
    method SelectNode(id: string)
      modifies this
      ensures highlightedNodes == Highlight(nodeConnections, id)
      ensures hierarchicalNodes == old(hierarchicalNodes) && nodeConnections == old(nodeConnections)
      ensures mainRootNode == old(mainRootNode) && svgWidth == old(svgWidth) && svgHeight == old(svgHeight)
      ensures isInitialRender == old(isInitialRender) && firstNodeFound == old(firstNodeFound)
    {
      highlightedNodes := Highlight(nodeConnections, id);
    }
  }
}
