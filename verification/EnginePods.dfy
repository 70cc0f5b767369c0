/** The pod-delete escape, exactly: which pods go, in which order, up to which failure, and whose clock restarts. */
module EnginePods {
  import opened Text
  import opened Collections
  import opened RankSet
  import opened DaosStatus
  import opened Mailbox
  import opened EngineRestart
  import opened EngineRuns

  /** The pods of a node that are not on their way out already. */
  ghost function OnNode(pods: seq<Pod>, node: string): seq<Pod> {
    if pods == [] then []
    else (if pods[0].node == node && !pods[0].deleting then [pods[0]] else []) + OnNode(pods[1..], node)
  }

  lemma {:induction false} OnNodeMembers(pods: seq<Pod>, node: string, p: Pod)
    ensures p in OnNode(pods, node) <==> p in pods && p.node == node && !p.deleting
  {
    if pods != [] {
      assert pods == [pods[0]] + pods[1..];
      OnNodeMembers(pods[1..], node, p);
    }
  }

  lemma {:induction false} OnNodeAppend(a: seq<Pod>, b: seq<Pod>, node: string)
    ensures OnNode(a + b, node) == OnNode(a, node) + OnNode(b, node)
  {
    if a == [] {
      assert a + b == b;
    } else {
      assert (a + b)[1..] == a[1..] + b;
      OnNodeAppend(a[1..], b, node);
    }
  }

  lemma {:induction false} OnNodeTwice(pods: seq<Pod>, a: string, b: string)
    ensures OnNode(OnNode(pods, a), b) == if a == b then OnNode(pods, a) else []
  {
    if pods != [] {
      OnNodeTwice(pods[1..], a, b);
      var first := if pods[0].node == a && !pods[0].deleting then [pods[0]] else [];
      OnNodeAppend(first, OnNode(pods[1..], a), b);
      if first != [] { assert first[1..] == []; }
    }
  }

  /** gone is what of due can be deleted in order, up to the first pod whose delete fails. */
  ghost predicate UpToFailure(due: seq<Pod>, undeletable: set<string>, gone: seq<Pod>, ok: bool) {
    && gone <= due && (forall p :: p in gone ==> p.name !in undeletable)
    && (if ok then gone == due else |gone| < |due| && due[|gone|].name in undeletable)
  }

  lemma {:induction false} NodeExactly(pods: seq<Pod>, node: string, undeletable: set<string>)
    ensures var (gone, ok) := DeletePods(pods, node, undeletable);
      UpToFailure(OnNode(pods, node), undeletable, gone, ok)
  {
    if pods != [] {
      NodeExactly(pods[1..], node, undeletable);
      var (rest, ok) := DeletePods(pods[1..], node, undeletable);
      var due := OnNode(pods[1..], node);
      if pods[0].node == node && !pods[0].deleting && pods[0].name !in undeletable {
        assert ([pods[0]] + due)[1..] == due;
        assert [pods[0]] + rest <= [pods[0]] + due;
      } else if pods[0].node != node || pods[0].deleting {
        assert [] + due == due;
      }
    }
  }

  // ---- the nodes in turn

  /** What the nodes have to lose, in the order given. */
  ghost function DueOn(nodes: seq<string>, want: set<int>, i: Input): seq<Pod> {
    if nodes == [] then []
    else
      (if HealthyElsewhere(i.members, want, nodes[0]) then []
       else OnNode(i.pods, nodes[0])) + DueOn(nodes[1..], want, i)
  }

  lemma {:induction false} NodesExactly(tracks: map<int, Track>, nodes: seq<string>, want: set<int>, i: Input)
    ensures var (_, gone, ok) := RestartNodes(tracks, nodes, want, i);
      UpToFailure(DueOn(nodes, want, i), i.undeletable, gone, ok)
  {
    if nodes != [] {
      if HealthyElsewhere(i.members, want, nodes[0]) {
        NodesExactly(tracks, nodes[1..], want, i);
        assert [] + DueOn(nodes[1..], want, i) == DueOn(nodes[1..], want, i);
      } else {
        NodeExactly(i.pods, nodes[0], i.undeletable);
        var (gone, ok) := DeletePods(i.pods, nodes[0], i.undeletable);
        var touched := Touch(tracks, RanksOn(i.members, want, nodes[0]), i.later);
        NodesExactly(touched, nodes[1..], want, i);
        hide HealthyElsewhere, DeletePods, OnNode, Touch;
        Concat(OnNode(i.pods, nodes[0]), DueOn(nodes[1..], want, i), i.undeletable, gone, ok,
               RestartNodes(touched, nodes[1..], want, i).1, RestartNodes(touched, nodes[1..], want, i).2);
      }
    }
  }

  lemma Concat(a: seq<Pod>, b: seq<Pod>, undeletable: set<string>, gone: seq<Pod>, ok: bool, rest: seq<Pod>, all: bool)
    requires UpToFailure(a, undeletable, gone, ok) && UpToFailure(b, undeletable, rest, all)
    ensures if ok then UpToFailure(a + b, undeletable, gone + rest, all)
      else UpToFailure(a + b, undeletable, gone, false)
  {
    if ok {
      assert gone + rest <= a + b;
    } else {
      assert gone <= a + b && (a + b)[|gone|] == a[|gone|];
    }
  }

  lemma {:induction false} DueOnNode(nodes: seq<string>, want: set<int>, i: Input, n: string)
    requires NoDuplicates(nodes)
    ensures OnNode(DueOn(nodes, want, i), n) ==
      if n in nodes && !HealthyElsewhere(i.members, want, n) then OnNode(i.pods, n) else []
    ensures forall p :: p in DueOn(nodes, want, i) ==> !p.deleting && p.node in nodes
  {
    if nodes != [] {
      var first := if HealthyElsewhere(i.members, want, nodes[0]) then [] else OnNode(i.pods, nodes[0]);
      assert nodes == [nodes[0]] + nodes[1..] && nodes[0] !in nodes[1..];
      DueOnNode(nodes[1..], want, i, n);
      OnNodeAppend(first, DueOn(nodes[1..], want, i), n);
      OnNodeTwice(i.pods, nodes[0], n);
      forall p | p in first ensures !p.deleting && p.node in nodes { OnNodeMembers(i.pods, nodes[0], p); }
      hide HealthyElsewhere;
    }
  }

  ghost predicate ByNode(pods: seq<Pod>) {
    forall a, b :: 0 <= a < b < |pods| ==> LeString(pods[a].node, pods[b].node)
  }

  lemma {:induction false} LeStringReflexive(a: string)
    ensures LeString(a, a)
  {
    if a != "" { LeStringReflexive(a[1..]); }
  }

  lemma {:induction false} DueInOrder(nodes: seq<string>, want: set<int>, i: Input)
    requires SortedStrings(nodes) && NoDuplicates(nodes)
    ensures ByNode(DueOn(nodes, want, i))
  {
    if nodes != [] {
      var first := if HealthyElsewhere(i.members, want, nodes[0]) then [] else OnNode(i.pods, nodes[0]);
      var rest := DueOn(nodes[1..], want, i);
      DueInOrder(nodes[1..], want, i);
      DueOnNode(nodes[1..], want, i, "");
      LeStringReflexive(nodes[0]);
      forall p | p in first ensures p.node == nodes[0] { OnNodeMembers(i.pods, nodes[0], p); }
      hide HealthyElsewhere, LeString, OnNode;
      forall a, b | 0 <= a < b < |first + rest| ensures LeString((first + rest)[a].node, (first + rest)[b].node) {
        var p, q := (first + rest)[a], (first + rest)[b];
        if a < |first| { assert p in first; }
        if b < |first| { assert q in first; } else { assert q in rest; }
      }
    }
  }

  // ---- whose clock restarts

  /** The node comes before any failure: it and the nodes before it lose all they have to lose. */
  ghost predicate Cleared(nodes: seq<string>, want: set<int>, i: Input, k: nat) {
    && k < |nodes| && !HealthyElsewhere(i.members, want, nodes[k])
    && forall j :: 0 <= j <= k && !HealthyElsewhere(i.members, want, nodes[j]) ==>
      DeletePods(i.pods, nodes[j], i.undeletable).1
  }

  ghost predicate Restamped(nodes: seq<string>, want: set<int>, i: Input, r: int) {
    exists k :: 0 <= k < |nodes| && Cleared(nodes, want, i, k) && r in RanksOn(i.members, want, nodes[k])
  }

  lemma {:induction false} TracksExactly(tracks: map<int, Track>, nodes: seq<string>, want: set<int>, i: Input, r: int)
    ensures var t := RestartNodes(tracks, nodes, want, i).0;
      && (r in t <==> r in tracks)
      && (r in tracks ==> t[r] == if Restamped(nodes, want, i, r) then tracks[r].(lastTry := i.later) else tracks[r])
  {
    if nodes != [] {
      var healthy := HealthyElsewhere(i.members, want, nodes[0]);
      var ok := DeletePods(i.pods, nodes[0], i.undeletable).1;
      var touched := Touch(tracks, RanksOn(i.members, want, nodes[0]), i.later);
      if healthy || ok {
        TracksExactly(if healthy then tracks else touched, nodes[1..], want, i, r);
      }
      hide HealthyElsewhere, DeletePods, RanksOn;
      RestampedTail(nodes, want, i, r);
    }
  }

  lemma RestampedTail(nodes: seq<string>, want: set<int>, i: Input, r: int)
    requires nodes != []
    ensures var healthy := HealthyElsewhere(i.members, want, nodes[0]);
      var ok := DeletePods(i.pods, nodes[0], i.undeletable).1;
      Restamped(nodes, want, i, r) <==>
        || (!healthy && ok && r in RanksOn(i.members, want, nodes[0]))
        || ((healthy || ok) && Restamped(nodes[1..], want, i, r))
  {
    hide HealthyElsewhere, DeletePods, RanksOn;
    var rest := nodes[1..];
    if k :| 0 <= k < |nodes| && Cleared(nodes, want, i, k) && r in RanksOn(i.members, want, nodes[k]) {
      if k > 0 {
        assert rest[k - 1] == nodes[k] && forall j :: 0 <= j < |rest| ==> rest[j] == nodes[j + 1];
        assert Cleared(rest, want, i, k - 1);
      }
    }
    if k :| 0 <= k < |rest| && Cleared(rest, want, i, k) && r in RanksOn(i.members, want, rest[k]) {
      if HealthyElsewhere(i.members, want, nodes[0]) || DeletePods(i.pods, nodes[0], i.undeletable).1 {
        assert nodes[k + 1] == rest[k] && forall j :: 0 < j < |nodes| ==> nodes[j] == rest[j - 1];
        assert Cleared(nodes, want, i, k + 1);
      }
    }
    if !HealthyElsewhere(i.members, want, nodes[0]) && DeletePods(i.pods, nodes[0], i.undeletable).1 {
      assert Cleared(nodes, want, i, 0);
    }
  }

  // ---- in terms of the batch and the pods alone

  /** Every pod up to and on this node that has to go can be deleted. */
  ghost predicate ReachedWhole(batch: seq<int>, i: Input, node: string) {
    && Expendable(i.members, batch, node)
    && forall p :: p in i.pods && MayDelete(i.members, batch, p) && LeString(p.node, node) ==> p.name !in i.undeletable
  }

  lemma {:induction false} SortedStringsAt(s: seq<string>, a: nat, b: nat)
    requires SortedStrings(s) && a < b < |s|
    ensures LeString(s[a], s[b])
  {
    if a == 0 { assert s[b] in s[1..]; } else { SortedStringsAt(s[1..], a - 1, b - 1); }
  }

  lemma NodeDeletable(pods: seq<Pod>, node: string, undeletable: set<string>)
    ensures DeletePods(pods, node, undeletable).1 <==>
      forall p :: p in pods && p.node == node && !p.deleting ==> p.name !in undeletable
  {
    NodeExactly(pods, node, undeletable);
    var (gone, ok) := DeletePods(pods, node, undeletable);
    var due := OnNode(pods, node);
    forall p ensures p in due <==> p in pods && p.node == node && !p.deleting { OnNodeMembers(pods, node, p); }
    hide DeletePods, OnNode;
    if !ok { assert due[|gone|] in due; }
  }

  lemma InOrder(nodes: seq<string>, j: nat, k: nat)
    requires SortedStrings(nodes) && NoDuplicates(nodes) && j < |nodes| && k < |nodes|
    ensures LeString(nodes[j], nodes[k]) <==> j <= k
  {
    LeStringReflexive(nodes[k]);
    if j < k { SortedStringsAt(nodes, j, k); }
    if j > k {
      SortedStringsAt(nodes, k, j);
      if LeString(nodes[j], nodes[k]) { LeStringAntisymmetric(nodes[j], nodes[k]); }
    }
  }

  /** The sorted nodes of a batch. */
  ghost predicate BatchNodes(nodes: seq<string>, batch: seq<int>, i: Input) {
    && SortedStrings(nodes) && NoDuplicates(nodes)
    && forall n :: n in nodes <==> HasRankIn(i.members, Elements(batch), n)
  }

  lemma BatchNode(nodes: seq<string>, batch: seq<int>, i: Input, n: string)
    requires BatchNodes(nodes, batch, i)
    ensures Expendable(i.members, batch, n) <==> n in nodes && !HealthyElsewhere(i.members, Elements(batch), n)
  {
    hide Expendable, SortedStrings, NoDuplicates, HasRankIn, HealthyElsewhere;
    ExpendableNodes(i.members, batch, n);
  }

  lemma ClearedIsWhole(nodes: seq<string>, batch: seq<int>, i: Input, k: nat)
    requires BatchNodes(nodes, batch, i) && Cleared(nodes, Elements(batch), i, k)
    ensures ReachedWhole(batch, i, nodes[k])
  {
    hide HealthyElsewhere, Expendable, DeletePods, LeString, Elements, BatchNodes;
    BatchNode(nodes, batch, i, nodes[k]);
    forall p | p in i.pods && MayDelete(i.members, batch, p) && LeString(p.node, nodes[k])
      ensures p.name !in i.undeletable
    {
      BatchNode(nodes, batch, i, p.node);
      var j :| 0 <= j < |nodes| && nodes[j] == p.node;
      Ordered(nodes, batch, i, j, k);
      NodeDeletable(i.pods, p.node, i.undeletable);
    }
  }

  lemma Ordered(nodes: seq<string>, batch: seq<int>, i: Input, j: nat, k: nat)
    requires BatchNodes(nodes, batch, i) && j < |nodes| && k < |nodes|
    ensures LeString(nodes[j], nodes[k]) <==> j <= k
  {
    InOrder(nodes, j, k);
  }

  lemma WholeIsCleared(nodes: seq<string>, batch: seq<int>, i: Input, k: nat)
    requires BatchNodes(nodes, batch, i) && k < |nodes| && ReachedWhole(batch, i, nodes[k])
    ensures Cleared(nodes, Elements(batch), i, k)
  {
    hide HealthyElsewhere, Expendable, DeletePods, LeString, Elements, BatchNodes;
    BatchNode(nodes, batch, i, nodes[k]);
    forall j | 0 <= j <= k && !HealthyElsewhere(i.members, Elements(batch), nodes[j])
      ensures DeletePods(i.pods, nodes[j], i.undeletable).1
    {
      BatchNode(nodes, batch, i, nodes[j]);
      Ordered(nodes, batch, i, j, k);
      NodeDeletable(i.pods, nodes[j], i.undeletable);
    }
  }

  /** The rank is in the batch and has a row on such a node. */
  ghost predicate StartsAnew(batch: seq<int>, i: Input, r: int) {
    r in batch && exists m :: m in i.members && m.rank == r && ReachedWhole(batch, i, m.node)
  }

  lemma RestampedMeans(nodes: seq<string>, batch: seq<int>, i: Input, r: int)
    requires BatchNodes(nodes, batch, i)
    ensures Restamped(nodes, Elements(batch), i, r) <==> StartsAnew(batch, i, r)
  {
    var want := Elements(batch);
    hide Cleared, ReachedWhole, SortedStrings;
    forall k | 0 <= k < |nodes| ensures Cleared(nodes, want, i, k) <==> ReachedWhole(batch, i, nodes[k]) {
      if Cleared(nodes, want, i, k) { ClearedIsWhole(nodes, batch, i, k); }
      if ReachedWhole(batch, i, nodes[k]) { WholeIsCleared(nodes, batch, i, k); }
    }
    if k :| 0 <= k < |nodes| && Cleared(nodes, want, i, k) && r in RanksOn(i.members, want, nodes[k]) {
      var l :| 0 <= l < |i.members| && i.members[l].node == nodes[k] && i.members[l].rank in want
          && i.members[l].rank == r;
      assert i.members[l] in i.members;
    }
    if StartsAnew(batch, i, r) {
      var m :| m in i.members && m.rank == r && ReachedWhole(batch, i, m.node);
      var l :| 0 <= l < |i.members| && i.members[l] == m;
      assert HasRankIn(i.members, want, m.node);
      var k :| 0 <= k < |nodes| && nodes[k] == m.node;
    }
  }

  /** What the escape has to delete: by node name, and on each node its pods in the order listed. */
  ghost predicate IsDueList(due: seq<Pod>, batch: seq<int>, i: Input) {
    && ByNode(due) && (forall p :: p in due ==> !p.deleting)
    && forall n :: OnNode(due, n) == if Expendable(i.members, batch, n) then OnNode(i.pods, n) else []
  }

  lemma DueListMembers(due: seq<Pod>, batch: seq<int>, i: Input, p: Pod)
    requires IsDueList(due, batch, i)
    ensures p in due <==> p in i.pods && MayDelete(i.members, batch, p)
  {
    OnNodeMembers(due, p.node, p);
    OnNodeMembers(i.pods, p.node, p);
    assert OnNode(due, p.node) == if Expendable(i.members, batch, p.node) then OnNode(i.pods, p.node) else [];
  }

  /** What the escape did: all of a due list, or its part up to a delete that fails; and the ranks of the batch on the
      nodes that lost all they had to, and on no other, count their next start from now. */
  ghost predicate Escaped(tracks: map<int, Track>, batch: seq<int>, i: Input, t: map<int, Track>, gone: seq<Pod>,
                          ok: bool, due: seq<Pod>) {
    && IsDueList(due, batch, i) && UpToFailure(due, i.undeletable, gone, ok)
    && (forall r :: r in t <==> r in tracks)
    && forall r :: r in tracks ==>
         t[r] == if StartsAnew(batch, i, r) then tracks[r].(lastTry := i.later) else tracks[r]
  }

  lemma SortedNodes(batch: seq<int>, i: Input) returns (nodes: seq<string>)
    requires ValidRanks(batch)
    ensures RankSetOf(RankListText(batch)) == Elements(batch)
    ensures nodes == SortStrings(NodesOf(i.members, Elements(batch))) && BatchNodes(nodes, batch, i)
  {
    RankListRoundTrip(batch);
    var want := Elements(batch);
    assert RankSetOf(RankListText(batch)) == want by { assert forall k :: 0 <= k < |batch| ==> batch[k] >= 0; }
    hide RankSetOf, RankListText, HasRankIn;
    var found := NodesOf(i.members, want);
    nodes := SortStrings(found);
    SortStringsSorts(found);
    NodesOfOnce(i.members, want);
    SortedOnce(found);
    forall n ensures n in nodes <==> HasRankIn(i.members, want, n) { NodesOfMember(i.members, want, n); }
  }

  lemma DueList(nodes: seq<string>, batch: seq<int>, i: Input)
    requires BatchNodes(nodes, batch, i)
    ensures IsDueList(DueOn(nodes, Elements(batch), i), batch, i)
  {
    var due := DueOn(nodes, Elements(batch), i);
    hide DueOn, OnNode, HealthyElsewhere, Expendable, Elements, LeString;
    DueInOrder(nodes, Elements(batch), i);
    DueOnNode(nodes, Elements(batch), i, "");
    forall n ensures OnNode(due, n) == if Expendable(i.members, batch, n) then OnNode(i.pods, n) else [] {
      DueOnNode(nodes, Elements(batch), i, n);
      BatchNode(nodes, batch, i, n);
    }
  }

  lemma EscapeExactly(tracks: map<int, Track>, batch: seq<int>, i: Input) returns (due: seq<Pod>)
    requires ValidRanks(batch) && !i.podListFails
    ensures var (t, gone, ok) := Escape(tracks, RankListText(batch), i); Escaped(tracks, batch, i, t, gone, ok, due)
  {
    hide RankSetOf, RankListText, SortStrings, NodesOf, RestartNodes, DueOn, Elements, BatchNodes, IsDueList,
         UpToFailure, Restamped, StartsAnew, ValidRanks;
    var nodes := SortedNodes(batch, i);
    var want := Elements(batch);
    due := DueOn(nodes, want, i);
    DueList(nodes, batch, i);
    NodesExactly(tracks, nodes, want, i);
    var t := RestartNodes(tracks, nodes, want, i).0;
    forall r ensures r in t <==> r in tracks { TracksExactly(tracks, nodes, want, i, r); }
    forall r | r in tracks
      ensures t[r] == if StartsAnew(batch, i, r) then tracks[r].(lastTry := i.later) else tracks[r]
    {
      TracksExactly(tracks, nodes, want, i, r);
      RestampedMeans(nodes, batch, i, r);
    }
  }

  lemma SeenTwice(t: seq<string>, a: nat, b: nat)
    requires a < b < |t| && t[a] == t[b]
    ensures multiset(t)[t[a]] >= 2
  {
    var init, rest := t[..b], t[b..];
    assert t == init + rest && multiset(t) == multiset(init) + multiset(rest);
    assert init[a] in multiset(init) && rest[0] in multiset(rest);
  }

  lemma SortedOnce(s: seq<string>)
    requires NoDuplicates(s)
    ensures NoDuplicates(SortStrings(s))
  {
    SortStringsSorts(s);
    NoDuplicatesMultiset(s);
    var t := SortStrings(s);
    hide SortStrings;
    forall a, b | 0 <= a < b < |t| ensures t[a] != t[b] {
      if t[a] == t[b] { SeenTwice(t, a, b); }
    }
  }

  lemma AftermathIs(p: Plan, b: Box<StartAnswer>, sys: string, i: Input)
    requires Conclude(p, b, sys, i).2.answer.Some?
    ensures var (m', _, rep) := Conclude(p, b, sys, i);
      (m'.tracks, rep.deleted, !rep.failed) ==
        if rep.answer.value == DmgError(true)
            || (rep.answer.value.RankResults? && true in rep.answer.value.errored) then
          Escape(p.tracks, p.running, i)
        else (p.tracks, [], true)
  {
    hide Escape;
  }

  /** For every pass of every run that reads a start result: nothing is deleted unless the start timed out or a rank
      reported an error; then, with the pods listed, exactly the pods of expendable nodes go, by node name and up to
      the first delete that fails, and exactly the ranks of the batch on nodes reached whole start anew. */
  lemma PodsGoExactly(sys: string, w: World, i: Input) returns (due: seq<Pod>)
    requires Reachable(sys, w) && Pass(w.mem, w.box, sys, i).2.answer.Some?
    requires ValidRanks(Current(w.trace, Pass(w.mem, w.box, sys, i).2))
    ensures var (m', _, rep) := Pass(w.mem, w.box, sys, i);
      var tracks := PlanOf(w.mem, i).tracks;
      var batch := Current(w.trace, rep);
      if rep.answer.value == DmgError(true) || (rep.answer.value.RankResults? && true in rep.answer.value.errored) then
        if i.podListFails then rep.deleted == [] && rep.failed && m'.tracks == tracks
        else Escaped(tracks, batch, i, m'.tracks, rep.deleted, !rep.failed, due)
      else rep.deleted == [] && !rep.failed && m'.tracks == tracks
  {
    ReachableInv(sys, w);
    var (m', _, rep) := Pass(w.mem, w.box, sys, i);
    var p := PlanOf(w.mem, i);
    var batch := Current(w.trace, rep);
    PlanRunning(w.mem, i);
    PlanText(w.mem, i);
    ConcludeRunning(p, w.box, sys, i);
    assert p.running == RankListText(batch) by {
      if Outstanding(w.trace) != [] { RankListNotEmpty(Outstanding(w.trace)); }
    }
    AftermathIs(p, w.box, sys, i);
    due := [];
    hide Reachable, Inv, PlanOf, Conclude, RankListText, Current, ValidRanks, Escaped;
    if !i.podListFails { due := EscapeExactly(p.tracks, batch, i); }
  }

  /** With the pods listed and none of them undeletable, those are just the pods that may go. */
  lemma AllExpendableGo(sys: string, w: World, i: Input, p: Pod)
    requires Reachable(sys, w) && !i.podListFails && i.undeletable == {}
    requires Pass(w.mem, w.box, sys, i).2.answer == Some(DmgError(true))
    requires ValidRanks(Current(w.trace, Pass(w.mem, w.box, sys, i).2))
    ensures var rep := Pass(w.mem, w.box, sys, i).2;
      p in rep.deleted <==> p in i.pods && MayDelete(i.members, Current(w.trace, rep), p)
  {
    var due := PodsGoExactly(sys, w, i);
    hide Reachable, Pass, PlanOf, Current, ValidRanks, MayDelete, IsDueList;
    DueListMembers(due, Current(w.trace, Pass(w.mem, w.box, sys, i).2), i, p);
  }
}
