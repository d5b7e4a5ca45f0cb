/** Single-linkage clustering of a run's failing outputs: the merge loop over a shrinking
    distance matrix, proved to return the connected components of the graph that joins two
    outputs whose distance is at most the threshold. The pairwise distance is a parameter;
    as in the source it is computed once for each pair, lower index first. */
module Clustering {
  datatype Graph = Graph(n: nat, distance: (nat, nat) -> real, threshold: real)

  function Between(g: Graph, a: nat, b: nat): real {
    if a < b then g.distance(a, b) else g.distance(b, a)
  }

  predicate Edge(g: Graph, a: nat, b: nat) {
    a < g.n && b < g.n && a != b && Between(g, a, b) <= g.threshold
  }

  ghost predicate IsPath(g: Graph, path: seq<nat>) {
    && path != []
    && (forall i :: 0 <= i < |path| ==> path[i] < g.n)
    && (forall i :: 0 <= i < |path| - 1 ==> Edge(g, path[i], path[i + 1]))
  }

  ghost predicate Joins(g: Graph, path: seq<nat>, a: nat, b: nat) {
    IsPath(g, path) && path[0] == a && path[|path| - 1] == b
  }

  /** `a` and `b` are in the same connected component. */
  ghost predicate Connected(g: Graph, a: nat, b: nat) {
    exists path :: Joins(g, path, a, b)
  }

  lemma ConnectedSelf(g: Graph, a: nat)
    requires a < g.n
    ensures Connected(g, a, a)
  {
    assert Joins(g, [a], a, a);
  }

  lemma ConnectedEdge(g: Graph, a: nat, b: nat)
    requires Edge(g, a, b)
    ensures Connected(g, a, b)
  {
    assert Joins(g, [a, b], a, b);
  }

  lemma ConnectedTransitive(g: Graph, a: nat, b: nat, c: nat)
    requires Connected(g, a, b) && Connected(g, b, c)
    ensures Connected(g, a, c)
  {
    var p :| Joins(g, p, a, b);
    var q :| Joins(g, q, b, c);
    var path := p + q[1..];
    forall i | 0 <= i < |path| - 1
      ensures Edge(g, path[i], path[i + 1])
    {
      if i >= |p| - 1 {
        assert path[i] == q[i - |p| + 1] && path[i + 1] == q[i - |p| + 2];
      }
    }
    assert path[|path| - 1] == c;
    assert Joins(g, path, a, c);
  }

  lemma ConnectedSymmetric(g: Graph, a: nat, b: nat)
    requires Connected(g, a, b)
    ensures Connected(g, b, a)
  {
    var p :| Joins(g, p, a, b);
    var q := seq(|p|, i requires 0 <= i < |p| => p[|p| - 1 - i]);
    forall i | 0 <= i < |q| - 1
      ensures Edge(g, q[i], q[i + 1])
    {
      assert Edge(g, p[|p| - 2 - i], p[|p| - 2 - i + 1]);
    }
    assert Joins(g, q, b, a);
  }

  // --- the loop's invariant -------------------------------------------------------------

  /** `x` is the smallest distance between a member of `a` and a member of `b`. */
  ghost predicate IsGap(g: Graph, x: real, a: seq<nat>, b: seq<nat>) {
    && (forall p, q :: p in a && q in b ==> x <= Between(g, p, q))
    && (exists p, q :: p in a && q in b && x == Between(g, p, q))
  }

  ghost predicate In(clusters: seq<seq<nat>>, c: int, p: nat) {
    0 <= c < |clusters| && p in clusters[c]
  }

  ghost predicate Covered(clusters: seq<seq<nat>>, p: nat) {
    exists c :: In(clusters, c, p)
  }

  ghost predicate Disjoint(clusters: seq<seq<nat>>) {
    forall c, d, p :: In(clusters, c, p) && In(clusters, d, p) ==> c == d
  }

  /** Each cluster starts with its smallest member, and they are listed by smallest member. */
  ghost predicate Headed(clusters: seq<seq<nat>>) {
    && (forall c :: 0 <= c < |clusters| ==> clusters[c] != [])
    && (forall c, p :: In(clusters, c, p) ==> clusters[c][0] <= p)
    && (forall c, d :: 0 <= c < d < |clusters| ==> clusters[c][0] < clusters[d][0])
  }

  /** The clusters are disjoint and hold exactly the indices below `n`. */
  ghost predicate Partition(g: Graph, clusters: seq<seq<nat>>) {
    && Headed(clusters)
    && Disjoint(clusters)
    && (forall c, p: nat :: In(clusters, c, p) ==> p < g.n)
    && (forall p: nat :: p < g.n ==> Covered(clusters, p))
  }

  /** No index is listed twice in one cluster. */
  ghost predicate NoRepeats(clusters: seq<seq<nat>>) {
    forall c, i, j :: 0 <= c < |clusters| && 0 <= i < j < |clusters[c]| ==> clusters[c][i] != clusters[c][j]
  }

  ghost predicate Linked(g: Graph, clusters: seq<seq<nat>>) {
    forall c, p, q :: In(clusters, c, p) && In(clusters, c, q) ==> Connected(g, p, q)
  }

  ghost predicate Square(gap: seq<seq<real>>, n: nat) {
    |gap| == n && forall i :: 0 <= i < n ==> |gap[i]| == n
  }

  /** Off the diagonal the matrix holds the gaps between clusters. */
  ghost predicate Gaps(g: Graph, clusters: seq<seq<nat>>, gap: seq<seq<real>>) {
    && Square(gap, |clusters|)
    && forall c, d :: 0 <= c < |clusters| && 0 <= d < |clusters| && c != d ==>
        IsGap(g, gap[c][d], clusters[c], clusters[d])
  }

  ghost predicate Inv(g: Graph, clusters: seq<seq<nat>>, gap: seq<seq<real>>) {
    Partition(g, clusters) && NoRepeats(clusters) && Linked(g, clusters) && Gaps(g, clusters, gap)
  }

  function Without<T>(s: seq<T>, j: nat): (r: seq<T>)
    requires j < |s|
    ensures |r| == |s| - 1
    ensures forall k :: 0 <= k < |r| ==> r[k] == s[Old(j, k)]
  {
    s[..j] + s[j + 1..]
  }

  /** Where the element now at `k` was before index `j` was deleted. */
  function Old(j: nat, k: nat): nat {
    if k < j then k else k + 1
  }

  function Min(x: real, y: real): real {
    if x <= y then x else y
  }

  function Merged(clusters: seq<seq<nat>>, i: nat, j: nat): seq<seq<nat>>
    requires i < j < |clusters|
  {
    Without(clusters[i := clusters[i] + clusters[j]], j)
  }

  /** The cluster of the merged list that holds what cluster `c` held. */
  function Home(i: nat, j: nat, c: nat): nat
    requires i < j
  {
    if c == j then i else if c < j then c else c - 1
  }

  lemma MergedMembers(clusters: seq<seq<nat>>, i: nat, j: nat)
    requires i < j < |clusters|
    ensures var m := Merged(clusters, i, j);
            && |m| == |clusters| - 1
            && (forall c :: 0 <= c < |m| ==> m[c] == if c == i then clusters[i] + clusters[j] else clusters[Old(j, c)])
            && (forall c: nat, p :: In(clusters, c, p) ==> In(m, Home(i, j, c), p))
            && (forall c, p :: In(m, c, p) ==> In(clusters, Old(j, c), p) || (c == i && In(clusters, j, p)))
  {
  }

  lemma MergedDisjoint(clusters: seq<seq<nat>>, i: nat, j: nat)
    requires Disjoint(clusters) && i < j < |clusters|
    ensures Disjoint(Merged(clusters, i, j))
  {
    MergedMembers(clusters, i, j);
  }

  lemma MergedHeaded(clusters: seq<seq<nat>>, i: nat, j: nat)
    requires Headed(clusters) && i < j < |clusters|
    ensures Headed(Merged(clusters, i, j))
  {
    MergedMembers(clusters, i, j);
    var m := Merged(clusters, i, j);
    assert forall c :: 0 <= c < |m| ==> m[c][0] == clusters[Old(j, c)][0];
    forall c, p | In(m, c, p)
      ensures m[c][0] <= p
    {
      if c == i && In(clusters, j, p) {
        assert clusters[i][0] < clusters[j][0];
      }
    }
  }

  lemma MergedPartition(g: Graph, clusters: seq<seq<nat>>, i: nat, j: nat)
    requires Partition(g, clusters) && i < j < |clusters|
    ensures Partition(g, Merged(clusters, i, j))
  {
    MergedMembers(clusters, i, j);
    MergedDisjoint(clusters, i, j);
    MergedHeaded(clusters, i, j);
    var m := Merged(clusters, i, j);
    forall p: nat | p < g.n
      ensures Covered(m, p)
    {
      assert Covered(clusters, p);
      var c :| In(clusters, c, p);
      assert In(m, Home(i, j, c), p);
    }
  }

  lemma MergedNoRepeats(clusters: seq<seq<nat>>, i: nat, j: nat)
    requires Disjoint(clusters) && NoRepeats(clusters) && i < j < |clusters|
    ensures NoRepeats(Merged(clusters, i, j))
  {
    MergedMembers(clusters, i, j);
    var both := clusters[i] + clusters[j];
    forall x, y | 0 <= x < y < |both|
      ensures both[x] != both[y]
    {
      if x < |clusters[i]| <= y {
        assert In(clusters, i, both[x]) && In(clusters, j, both[y]);
      }
    }
  }

  lemma MergedLinked(g: Graph, clusters: seq<seq<nat>>, i: nat, j: nat, p: nat, q: nat)
    requires Linked(g, clusters) && i < j < |clusters|
    requires In(clusters, i, p) && In(clusters, j, q) && Edge(g, p, q)
    ensures Linked(g, Merged(clusters, i, j))
  {
    var m := Merged(clusters, i, j);
    MergedMembers(clusters, i, j);
    forall c, a, b | In(m, c, a) && In(m, c, b)
      ensures Connected(g, a, b)
    {
      if In(clusters, Old(j, c), a) && In(clusters, Old(j, c), b) {
      } else if In(clusters, j, a) && In(clusters, j, b) {
      } else if In(clusters, i, a) {
        AcrossLink(g, clusters, i, j, p, q, a, b);
      } else {
        AcrossLink(g, clusters, i, j, p, q, b, a);
        ConnectedSymmetric(g, b, a);
      }
    }
  }

  lemma AcrossLink(g: Graph, clusters: seq<seq<nat>>, i: nat, j: nat, p: nat, q: nat, a: nat, b: nat)
    requires Linked(g, clusters)
    requires In(clusters, i, p) && In(clusters, j, q) && Edge(g, p, q)
    requires In(clusters, i, a) && In(clusters, j, b)
    ensures Connected(g, a, b)
  {
    ConnectedEdge(g, p, q);
    ConnectedTransitive(g, a, p, q);
    ConnectedTransitive(g, a, q, b);
  }

  lemma GapOfUnion(g: Graph, x: real, y: real, a: seq<nat>, b: seq<nat>, c: seq<nat>)
    requires IsGap(g, x, a, c) && IsGap(g, y, b, c)
    ensures IsGap(g, Min(x, y), a + b, c) && IsGap(g, Min(x, y), c, a + b)
  {
    if x <= y {
      var p, q :| p in a && q in c && x == Between(g, p, q);
      assert p in a + b;
      assert Between(g, q, p) == x;
    } else {
      var p, q :| p in b && q in c && y == Between(g, p, q);
      assert p in a + b;
      assert Between(g, q, p) == y;
    }
    forall p, q | p in c && q in a + b
      ensures Min(x, y) <= Between(g, p, q)
    {
      assert Between(g, p, q) == Between(g, q, p);
    }
  }

  /** The matrix after the update of row and column `i` and the deletion of row and column
      `j`: off the diagonal every entry is an old one, or the smaller of two. */
  ghost predicate MergedGaps(gap: seq<seq<real>>, gap': seq<seq<real>>, i: nat, j: nat) {
    && Square(gap, |gap|) && i < j < |gap|
    && Square(gap', |gap| - 1)
    && forall c, d :: 0 <= c < |gap| - 1 && 0 <= d < |gap| - 1 && c != d ==>
         gap'[c][d] == if c == i then Min(gap[i][Old(j, d)], gap[j][Old(j, d)])
                       else if d == i then Min(gap[i][Old(j, c)], gap[j][Old(j, c)])
                       else gap[Old(j, c)][Old(j, d)]
  }

  lemma MergedGapsHold(g: Graph, clusters: seq<seq<nat>>, gap: seq<seq<real>>, gap': seq<seq<real>>, i: nat, j: nat)
    requires Gaps(g, clusters, gap) && i < j < |clusters| && MergedGaps(gap, gap', i, j)
    ensures Gaps(g, Merged(clusters, i, j), gap')
  {
    var m := Merged(clusters, i, j);
    MergedMembers(clusters, i, j);
    forall c, d | 0 <= c < |m| && 0 <= d < |m| && c != d
      ensures IsGap(g, gap'[c][d], m[c], m[d])
    {
      if c == i {
        GapOfUnion(g, gap[i][Old(j, d)], gap[j][Old(j, d)], clusters[i], clusters[j], clusters[Old(j, d)]);
      } else if d == i {
        GapOfUnion(g, gap[i][Old(j, c)], gap[j][Old(j, c)], clusters[i], clusters[j], clusters[Old(j, c)]);
      } else {
        assert IsGap(g, gap[Old(j, c)][Old(j, d)], clusters[Old(j, c)], clusters[Old(j, d)]);
      }
    }
  }

  // --- the methods ------------------------------------------------------------------------

  /** Every pair's distance, computed once. */
  method Distances(g: Graph) returns (gap: seq<seq<real>>)
    ensures Square(gap, g.n)
    ensures forall a, b :: 0 <= a < g.n && 0 <= b < g.n && a != b ==> gap[a][b] == Between(g, a, b)
  {
    gap := seq(g.n, _ => seq(g.n, _ => 0.0));
    for a := 0 to g.n
      invariant Square(gap, g.n)
      invariant forall x, y :: 0 <= x < g.n && 0 <= y < g.n && x != y && (x < a || y < a) ==>
                gap[x][y] == Between(g, x, y)
    {
      for b := a + 1 to g.n
        invariant Square(gap, g.n)
        invariant forall x, y :: 0 <= x < g.n && 0 <= y < g.n && x != y && (x < a || y < a) ==>
                  gap[x][y] == Between(g, x, y)
        invariant forall y :: a < y < b ==> gap[a][y] == Between(g, a, y) && gap[y][a] == Between(g, y, a)
      {
        var distance := g.distance(a, b);
        gap := gap[b := gap[b][a := distance]];
        gap := gap[a := gap[a][b := distance]];
      }
    }
  }

  predicate Before(x: real, i: nat, j: nat, y: real, k: nat, l: nat) {
    x < y || (x == y && (i < k || (i == k && j <= l)))
  }

  /** The nearest two clusters; ties go to the lowest indices. */
  method Nearest(gap: seq<seq<real>>) returns (distance: real, i: nat, j: nat)
    requires Square(gap, |gap|) && |gap| > 1
    ensures i < j < |gap| && distance == gap[i][j]
    ensures forall k, l :: 0 <= k < l < |gap| ==> Before(distance, i, j, gap[k][l], k, l)
  {
    i, j := 0, 1;
    distance := gap[0][1];
    for k := 0 to |gap|
      invariant i < j < |gap| && distance == gap[i][j]
      invariant k == 0 ==> i == 0 && j == 1
      invariant k > 0 ==> i < k
      invariant forall x, y :: 0 <= x < y < |gap| && x < k ==> Before(distance, i, j, gap[x][y], x, y)
    {
      for l := k + 1 to |gap|
        invariant i < j < |gap| && distance == gap[i][j] && i <= k
        invariant k == 0 && i == 0 && l == 1 ==> j == 1
        invariant i == k ==> j < l || (k == 0 && j == 1)
        invariant forall x, y :: 0 <= x < y < |gap| && x < k ==> Before(distance, i, j, gap[x][y], x, y)
        invariant forall y :: k < y < l ==> Before(distance, i, j, gap[k][y], k, y)
      {
        if gap[k][l] < distance {
          distance, i, j := gap[k][l], k, l;
        }
      }
    }
  }

  /** Row and column `i` take the smaller of their own entry and row `j`'s. The loop reads
      what it writes, but only on the diagonal and in row and column `j`. */
  method TakeSmaller(gap: seq<seq<real>>, i: nat, j: nat) returns (merged: seq<seq<real>>)
    requires Square(gap, |gap|) && i < j < |gap|
    ensures Square(merged, |gap|)
    ensures forall r, c :: 0 <= r < |gap| && 0 <= c < |gap| && r != i && c != i ==> merged[r][c] == gap[r][c]
    ensures forall c :: 0 <= c < |gap| && c != i && c != j ==> merged[i][c] == merged[c][i] == Min(gap[i][c], gap[j][c])
  {
    merged := gap;
    for k := 0 to |gap|
      invariant Square(merged, |gap|)
      invariant forall r, c :: 0 <= r < |gap| && 0 <= c < |gap| && r != i && c != i ==> merged[r][c] == gap[r][c]
      invariant forall c :: 0 <= c < k && c != i && c != j ==> merged[i][c] == merged[c][i] == Min(gap[i][c], gap[j][c])
      invariant forall c :: k <= c < |gap| && c != i ==> merged[i][c] == gap[i][c]
    {
      var smaller := Min(merged[i][k], merged[j][k]);
      merged := merged[k := merged[k][i := smaller]];
      merged := merged[i := merged[i][k := smaller]];
    }
  }

  /** Row and column `j` are deleted. */
  method Drop(gap: seq<seq<real>>, j: nat) returns (dropped: seq<seq<real>>)
    requires Square(gap, |gap|) && j < |gap|
    ensures Square(dropped, |gap| - 1)
    ensures forall r, c :: 0 <= r < |gap| - 1 && 0 <= c < |gap| - 1 ==> dropped[r][c] == gap[Old(j, r)][Old(j, c)]
  {
    dropped := Without(gap, j);
    for r := 0 to |dropped|
      invariant |dropped| == |gap| - 1
      invariant forall x :: 0 <= x < r ==> dropped[x] == Without(gap[Old(j, x)], j)
      invariant forall x :: r <= x < |dropped| ==> dropped[x] == gap[Old(j, x)]
    {
      dropped := dropped[r := Without(dropped[r], j)];
    }
  }

  /** The matrix half of one merge. */
  method MergeGaps(gap: seq<seq<real>>, i: nat, j: nat) returns (merged: seq<seq<real>>)
    requires Square(gap, |gap|) && i < j < |gap|
    ensures MergedGaps(gap, merged, i, j)
  {
    var taken := TakeSmaller(gap, i, j);
    merged := Drop(taken, j);
  }

  lemma StartInv(g: Graph, clusters: seq<seq<nat>>, gap: seq<seq<real>>)
    requires clusters == seq(g.n, i => [i])
    requires Square(gap, g.n)
    requires forall a, b :: 0 <= a < g.n && 0 <= b < g.n && a != b ==> gap[a][b] == Between(g, a, b)
    ensures Inv(g, clusters, gap)
  {
    forall p: nat | p < g.n
      ensures Covered(clusters, p)
    {
      assert In(clusters, p, p);
    }
    forall c, p, q | In(clusters, c, p) && In(clusters, c, q)
      ensures Connected(g, p, q)
    {
      ConnectedSelf(g, p);
    }
    forall c, d | 0 <= c < g.n && 0 <= d < g.n && c != d
      ensures IsGap(g, gap[c][d], clusters[c], clusters[d])
    {
      assert c in clusters[c] && d in clusters[d];
    }
  }

  /** With every gap above the threshold no edge leaves a cluster, so no path does. */
  lemma {:induction false} PathStays(g: Graph, clusters: seq<seq<nat>>, path: seq<nat>, c: int)
    requires IsPath(g, path) && In(clusters, c, path[0])
    requires Partition(g, clusters)
    requires forall a, b, x, y :: In(clusters, x, a) && In(clusters, y, b) && x != y ==> !Edge(g, a, b)
    ensures In(clusters, c, path[|path| - 1])
    decreases |path|
  {
    if |path| > 1 {
      assert Edge(g, path[0], path[0 + 1]);
      assert Covered(clusters, path[1]);
      var d :| In(clusters, d, path[1]);
      assert IsPath(g, path[1..]) by {
        forall i | 0 <= i < |path[1..]| - 1
          ensures Edge(g, path[1..][i], path[1..][i + 1])
        {
          assert Edge(g, path[i + 1], path[i + 1 + 1]);
        }
      }
      PathStays(g, clusters, path[1..], c);
    }
  }

  ghost predicate Together(clusters: seq<seq<nat>>, p: nat, q: nat) {
    exists c :: In(clusters, c, p) && In(clusters, c, q)
  }

  /** The clusters are exactly the connected components, listed by smallest member, each with
      its smallest member first. */
  ghost predicate AreComponents(g: Graph, clusters: seq<seq<nat>>) {
    && Partition(g, clusters)
    && NoRepeats(clusters)
    && forall p: nat, q: nat :: p < g.n && q < g.n ==> (Together(clusters, p, q) <==> Connected(g, p, q))
  }

  lemma StoppedAreComponents(g: Graph, clusters: seq<seq<nat>>)
    requires Partition(g, clusters) && NoRepeats(clusters) && Linked(g, clusters)
    requires forall a, b, x, y :: In(clusters, x, a) && In(clusters, y, b) && x != y ==> !Edge(g, a, b)
    ensures AreComponents(g, clusters)
  {
    forall p: nat, q: nat | p < g.n && q < g.n && Connected(g, p, q)
      ensures Together(clusters, p, q)
    {
      var path :| Joins(g, path, p, q);
      assert Covered(clusters, p);
      var c :| In(clusters, c, p);
      PathStays(g, clusters, path, c);
    }
  }

  method AgglomerativeCluster(g: Graph) returns (clusters: seq<seq<nat>>)
    ensures AreComponents(g, clusters)
  {
    clusters := seq(g.n, i => [i]);
    var gap := Distances(g);
    StartInv(g, clusters, gap);
    while |clusters| > 1
      invariant Inv(g, clusters, gap)
    {
      var distance, i, j := Nearest(gap);
      if distance > g.threshold {
        FarApart(g, clusters, gap, distance, i, j);
        StoppedAreComponents(g, clusters);
        return;
      }
      MergeInv(g, clusters, gap, i, j);
      var merged := MergeGaps(gap, i, j);
      MergedGapsHold(g, clusters, gap, merged, i, j);
      gap := merged;
      clusters := Without(clusters[i := clusters[i] + clusters[j]], j);
    }
    StoppedAreComponents(g, clusters);
  }

  lemma FarApart(g: Graph, clusters: seq<seq<nat>>, gap: seq<seq<real>>, distance: real, i: nat, j: nat)
    requires Inv(g, clusters, gap) && distance > g.threshold
    requires forall k, l :: 0 <= k < l < |gap| ==> Before(distance, i, j, gap[k][l], k, l)
    ensures forall a, b, x, y :: In(clusters, x, a) && In(clusters, y, b) && x != y ==> !Edge(g, a, b)
  {
    forall a, b, x, y | In(clusters, x, a) && In(clusters, y, b) && x != y
      ensures !Edge(g, a, b)
    {
      var lo, hi := if x < y then x else y, if x < y then y else x;
      assert IsGap(g, gap[lo][hi], clusters[lo], clusters[hi]);
      assert Before(distance, i, j, gap[lo][hi], lo, hi);
      assert Between(g, a, b) == Between(g, b, a);
    }
  }

  lemma MergeInv(g: Graph, clusters: seq<seq<nat>>, gap: seq<seq<real>>, i: nat, j: nat)
    requires Inv(g, clusters, gap) && i < j < |clusters| && gap[i][j] <= g.threshold
    ensures var m := Merged(clusters, i, j); Partition(g, m) && NoRepeats(m) && Linked(g, m)
  {
    assert IsGap(g, gap[i][j], clusters[i], clusters[j]);
    var p, q :| p in clusters[i] && q in clusters[j] && gap[i][j] == Between(g, p, q);
    assert In(clusters, i, p) && In(clusters, j, q);
    assert p != q;
    MergedPartition(g, clusters, i, j);
    MergedNoRepeats(clusters, i, j);
    MergedLinked(g, clusters, i, j, p, q);
  }

  // --- what the components give -------------------------------------------------------------

  /** A larger threshold only joins: outputs that were together stay together. */
  lemma LargerThresholdCoarsens(g: Graph, larger: Graph, clusters: seq<seq<nat>>, coarser: seq<seq<nat>>, p: nat,
                                q: nat)
    requires larger == g.(threshold := larger.threshold) && g.threshold <= larger.threshold
    requires AreComponents(g, clusters) && AreComponents(larger, coarser)
    requires Together(clusters, p, q)
    ensures Together(coarser, p, q)
  {
    assert Connected(g, p, q);
    var path :| Joins(g, path, p, q);
    forall i | 0 <= i < |path| - 1
      ensures Edge(larger, path[i], path[i + 1])
    {
      assert Edge(g, path[i], path[i + 1]);
    }
    assert Joins(larger, path, p, q);
  }

  /** Reordering the outputs reorders the components and nothing else: `place` says where an
      output goes, `origin` where it came from. */
  lemma ReorderingKeepsGroups(g: Graph, reordered: Graph, place: nat -> nat, origin: nat -> nat, p: nat, q: nat)
    requires Reordering(g, reordered, place) && Reordering(reordered, g, origin)
    requires p < g.n && q < g.n && origin(place(p)) == p && origin(place(q)) == q
    ensures Connected(g, p, q) <==> Connected(reordered, place(p), place(q))
  {
    if Connected(g, p, q) {
      Moved(g, reordered, place, p, q);
    }
    if Connected(reordered, place(p), place(q)) {
      Moved(reordered, g, origin, place(p), place(q));
    }
  }

  ghost predicate Reordering(g: Graph, g': Graph, place: nat -> nat) {
    && g'.n == g.n && g'.threshold == g.threshold
    && (forall a: nat :: a < g.n ==> place(a) < g.n)
    && (forall a: nat, b: nat :: a < g.n && b < g.n && a != b ==>
          place(a) != place(b) && Between(g', place(a), place(b)) == Between(g, a, b))
  }

  lemma Moved(g: Graph, g': Graph, place: nat -> nat, p: nat, q: nat)
    requires Reordering(g, g', place) && Connected(g, p, q)
    ensures Connected(g', place(p), place(q))
  {
    var path :| Joins(g, path, p, q);
    var path' := seq(|path|, i requires 0 <= i < |path| => place(path[i]));
    forall i | 0 <= i < |path'| - 1
      ensures Edge(g', path'[i], path'[i + 1])
    {
      assert Edge(g, path[i], path[i + 1]);
    }
    assert Joins(g', path', place(p), place(q));
  }

  /** There is only one way to list the components: the same clusters, in the same order. */
  lemma ComponentsAreUnique(g: Graph, a: seq<seq<nat>>, b: seq<seq<nat>>)
    requires AreComponents(g, a) && AreComponents(g, b)
    ensures |a| == |b|
    ensures forall c, p :: In(a, c, p) <==> In(b, c, p)
  {
    HeadsAgree(g, a, b);
    HeadsAgree(g, b, a);
    IncreasingUnique(Heads(a), Heads(b));
    forall c, p | In(a, c, p) || In(b, c, p)
      ensures In(a, c, p) && In(b, c, p)
    {
      SameCluster(g, a, b, c, p);
      SameCluster(g, b, a, c, p);
    }
  }

  function Heads(clusters: seq<seq<nat>>): (heads: seq<nat>)
    requires forall c :: 0 <= c < |clusters| ==> clusters[c] != []
    ensures |heads| == |clusters| && forall c :: 0 <= c < |clusters| ==> heads[c] == clusters[c][0]
  {
    seq(|clusters|, c requires 0 <= c < |clusters| => clusters[c][0])
  }

  lemma SameCluster(g: Graph, a: seq<seq<nat>>, b: seq<seq<nat>>, c: int, p: nat)
    requires AreComponents(g, a) && AreComponents(g, b) && Heads(a) == Heads(b)
    ensures In(a, c, p) ==> In(b, c, p)
  {
    if In(a, c, p) {
      var head := a[c][0];
      assert In(a, c, head) && Heads(b)[c] == head;
      assert In(b, c, head);
      assert Together(a, head, p) && Connected(g, head, p);
      assert Together(b, head, p);
      var d :| In(b, d, head) && In(b, d, p);
    }
  }

  /** The smallest member of a component heads its cluster in any list of the components. */
  lemma HeadsAgree(g: Graph, a: seq<seq<nat>>, b: seq<seq<nat>>)
    requires AreComponents(g, a) && AreComponents(g, b)
    ensures forall h :: h in Heads(a) ==> h in Heads(b)
  {
    forall h | h in Heads(a)
      ensures h in Heads(b)
    {
      var c :| 0 <= c < |a| && a[c][0] == h;
      assert In(a, c, h);
      assert Covered(b, h);
      var d :| In(b, d, h);
      var k := b[d][0];
      assert In(b, d, k) && k <= h;
      assert Together(b, k, h) && Connected(g, k, h);
      assert Together(a, k, h);
      var e :| In(a, e, k) && In(a, e, h);
      assert e == c && h <= k;
      assert Heads(b)[d] == h;
    }
  }

  lemma {:induction false} IncreasingUnique(s: seq<nat>, t: seq<nat>)
    requires forall i, j :: 0 <= i < j < |s| ==> s[i] < s[j]
    requires forall i, j :: 0 <= i < j < |t| ==> t[i] < t[j]
    requires forall x :: x in s <==> x in t
    ensures s == t
  {
    assert t != [] ==> t[0] in s;
    if s != [] {
      assert s[0] in t;
      assert s[0] == t[0];
      forall x
        ensures x in s[1..] <==> x in t[1..]
      {
        assert x in s[1..] <==> x in s && x != s[0];
        assert x in t[1..] <==> x in t && x != t[0];
      }
      IncreasingUnique(s[1..], t[1..]);
    }
  }
}
