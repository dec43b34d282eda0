/** The order of the lines of `klad log`: siblings and instances come in the order of their rows,
    the instances of a snapshot right below it (spikes/engine/klad:40-59). */
module RowOrder {
  import opened Wrappers
  import opened Engine
  import opened Render
  import opened RenderLaws

  // ---------------------------------------------------------------- one family

  /** Rows of one parent keep their order. */
  lemma {:induction false} ChildrenInRowOrder(snaps: seq<SnapRow>, i: nat, j: nat) returns (a: nat, b: nat)
    requires i <= j < |snaps| && snaps[i].parent == snaps[j].parent
    ensures
      var kids := Children(snaps, snaps[i].parent);
      a <= b < |kids| && kids[a] == snaps[i] && kids[b] == snaps[j] && (i < j ==> a < b)
  {
    var p := snaps[i].parent;
    var rest := snaps[1..];
    if i > 0 {
      assert rest[i - 1] == snaps[i] && rest[j - 1] == snaps[j];
      a, b := ChildrenInRowOrder(rest, i - 1, j - 1);
      if snaps[0].parent == p {
        a, b := a + 1, b + 1;
      }
    } else if j > 0 {
      assert rest[j - 1] == snaps[j];
      a, b := ChildrenInRowOrder(rest, j - 1, j - 1);
      a, b := 0, b + 1;
    } else {
      a, b := 0, 0;
    }
  }

  lemma {:induction false} InstancesInRowOrder(insts: seq<InstRow>, i: nat, j: nat) returns (a: nat, b: nat)
    requires i <= j < |insts| && insts[i].snapshot == insts[j].snapshot
    ensures
      var here := On(insts, insts[i].snapshot);
      a <= b < |here| && here[a] == insts[i] && here[b] == insts[j] && (i < j ==> a < b)
  {
    var p := insts[i].snapshot;
    var rest := insts[1..];
    if i > 0 {
      assert rest[i - 1] == insts[i] && rest[j - 1] == insts[j];
      a, b := InstancesInRowOrder(rest, i - 1, j - 1);
      if insts[0].snapshot == p {
        a, b := a + 1, b + 1;
      }
    } else if j > 0 {
      assert rest[j - 1] == insts[j];
      a, b := InstancesInRowOrder(rest, j - 1, j - 1);
      a, b := 0, b + 1;
    } else {
      a, b := 0, 0;
    }
  }

  /** The genesis lines: one for each instance named so, in row order, and none besides. */
  lemma {:induction false} GenesisInRowOrder(insts: seq<InstRow>, i: nat, j: nat) returns (a: nat, b: nat)
    requires i <= j < |insts| && insts[i].branch == insts[j].branch == "genesis"
    ensures
      var lines := GenesisLines(insts);
      && a <= b < |lines| && lines[a] == Genesis(insts[i]) && lines[b] == Genesis(insts[j]) && (i < j ==> a < b)
  {
    var rest := insts[1..];
    if i > 0 {
      assert rest[i - 1] == insts[i] && rest[j - 1] == insts[j];
      a, b := GenesisInRowOrder(rest, i - 1, j - 1);
      if insts[0].branch == "genesis" {
        a, b := a + 1, b + 1;
      }
    } else if j > 0 {
      assert rest[j - 1] == insts[j];
      a, b := GenesisInRowOrder(rest, j - 1, j - 1);
      a, b := 0, b + 1;
    } else {
      a, b := 0, 0;
    }
  }

  lemma {:induction false} OnlyGenesisAbove(insts: seq<InstRow>, a: nat)
    requires a < |GenesisLines(insts)|
    ensures exists i :: 0 <= i < |insts| && insts[i].branch == "genesis" && GenesisLines(insts)[a] == Genesis(insts[i])
  {
    if insts[0].branch == "genesis" && a == 0 {
      assert GenesisLines(insts)[0] == Genesis(insts[0]);
    } else {
      var k := if insts[0].branch == "genesis" then a - 1 else a;
      OnlyGenesisAbove(insts[1..], k);
      var i :| 0 <= i < |insts[1..]| && insts[1..][i].branch == "genesis"
        && GenesisLines(insts[1..])[k] == Genesis(insts[1..][i]);
      assert insts[i + 1] == insts[1..][i];
    }
  }

  // ---------------------------------------------------------------- pieces of what is drawn

  /** `part` begins at line `m` and is drawn in one piece. */
  predicate Piece(lines: seq<Line>, m: nat, part: seq<Line>) {
    m + |part| <= |lines| && lines[m..m + |part|] == part
  }

  lemma PieceOfPiece(lines: seq<Line>, m: nat, piece: seq<Line>, k: nat, part: seq<Line>)
    requires Piece(lines, m, piece) && Piece(piece, k, part)
    ensures Piece(lines, m + k, part)
  {
    var a, b := lines[m..m + |piece|][k..k + |part|], lines[m + k..m + k + |part|];
    forall x | 0 <= x < |part| ensures a[x] == b[x] {
      assert a[x] == lines[m + (k + x)];
    }
    assert a == b;
  }

  lemma Pieces(a: seq<Line>, b: seq<Line>)
    ensures Piece(a + b, 0, a) && Piece(a + b, |a|, b)
  {
  }

  /** What one family's loop prints: from its `k`-th turn on `rests[k]`, in that turn `heads[k]` and
      what lies under it. */
  predicate Family(rests: seq<seq<Line>>, heads: seq<seq<Line>>, belows: seq<seq<Line>>) {
    && |rests| == |heads| + 1 == |belows| + 1
    && forall k :: 0 <= k < |heads| ==> heads[k] != [] && rests[k] == (heads[k] + belows[k]) + rests[k + 1]
  }

  /** Where the `a`-th turn begins, and that the next one begins where it ends. */
  lemma {:induction false} TurnBegins(rests: seq<seq<Line>>, heads: seq<seq<Line>>, belows: seq<seq<Line>>,
                                      k: nat, a: nat)
    returns (m: nat)
    requires Family(rests, heads, belows) && k <= a < |heads|
    ensures Piece(rests[k], m, heads[a] + belows[a]) && Piece(rests[k], m + |heads[a] + belows[a]|, rests[a + 1])
    decreases a - k
  {
    Pieces(heads[k] + belows[k], rests[k + 1]);
    m := 0;
    if k < a {
      var n := |heads[k] + belows[k]|;
      m := TurnBegins(rests, heads, belows, k + 1, a);
      PieceOfPiece(rests[k], n, rests[k + 1], m, heads[a] + belows[a]);
      PieceOfPiece(rests[k], n, rests[k + 1], m + |heads[a] + belows[a]|, rests[a + 1]);
      m := n + m;
    }
  }

  lemma HeadsInOrder(rests: seq<seq<Line>>, heads: seq<seq<Line>>, belows: seq<seq<Line>>, a: nat, b: nat)
    returns (m: nat, n: nat)
    requires Family(rests, heads, belows) && a < b < |heads|
    ensures m < n && Piece(rests[0], m, heads[a]) && Piece(rests[0], n, heads[b])
  {
    m := TurnBegins(rests, heads, belows, 0, a);
    var k := TurnBegins(rests, heads, belows, a + 1, b);
    Pieces(heads[a], belows[a]);
    Pieces(heads[b], belows[b]);
    n := m + |heads[a] + belows[a]| + k;
    PieceOfPiece(rests[0], m + |heads[a] + belows[a]|, rests[a + 1], k, heads[b] + belows[b]);
    PieceOfPiece(rests[0], m, heads[a] + belows[a], 0, heads[a]);
    PieceOfPiece(rests[0], n, heads[b] + belows[b], 0, heads[b]);
  }

  lemma BelowIsThere(rests: seq<seq<Line>>, heads: seq<seq<Line>>, belows: seq<seq<Line>>, a: nat)
    returns (m: nat)
    requires Family(rests, heads, belows) && a < |heads|
    ensures Piece(rests[0], m, belows[a])
  {
    m := TurnBegins(rests, heads, belows, 0, a);
    Pieces(heads[a], belows[a]);
    PieceOfPiece(rests[0], m, heads[a] + belows[a], |heads[a]|, belows[a]);
    m := m + |heads[a]|;
  }

  lemma DrawnNext(snaps: seq<SnapRow>, insts: seq<InstRow>, p: Option<Id>, k: nat, depth: nat,
                  rank: Id -> nat, bound: nat)
    requires TreeRows(snaps, rank, bound) && k < |Children(snaps, p)|
    ensures
      var s := Children(snaps, p)[k];
      && Own(insts, s, depth) != []
      && Drawn(snaps, insts, p, k, depth, rank, bound)
         == (Own(insts, s, depth) + Drawn(snaps, insts, Some(s.id), 0, depth + 1, rank, bound))
            + Drawn(snaps, insts, p, k + 1, depth, rank, bound)
  {
  }

  /** The loop of `walk` over one family. */
  lemma FamilyOf(snaps: seq<SnapRow>, insts: seq<InstRow>, p: Option<Id>, depth: nat, rank: Id -> nat, bound: nat)
    returns (rests: seq<seq<Line>>, heads: seq<seq<Line>>, belows: seq<seq<Line>>)
    requires TreeRows(snaps, rank, bound)
    ensures Family(rests, heads, belows) && rests[0] == Drawn(snaps, insts, p, 0, depth, rank, bound)
    ensures
      var kids := Children(snaps, p);
      |heads| == |kids| && forall k :: 0 <= k < |kids| ==>
        && heads[k] == Own(insts, kids[k], depth)
        && belows[k] == Drawn(snaps, insts, Some(kids[k].id), 0, depth + 1, rank, bound)
  {
    var kids := Children(snaps, p);
    rests := seq(|kids| + 1, k requires 0 <= k <= |kids| => Drawn(snaps, insts, p, k, depth, rank, bound));
    heads := seq(|kids|, k requires 0 <= k < |kids| => Own(insts, kids[k], depth));
    belows := seq(|kids|, k requires 0 <= k < |kids| =>
      Drawn(snaps, insts, Some(kids[k].id), 0, depth + 1, rank, bound));
    forall k | 0 <= k < |kids| ensures heads[k] != [] && rests[k] == (heads[k] + belows[k]) + rests[k + 1] {
      DrawnNext(snaps, insts, p, k, depth, rank, bound);
      Joins(Drawn(snaps, insts, p, k, depth, rank, bound), Own(insts, kids[k], depth),
            Drawn(snaps, insts, Some(kids[k].id), 0, depth + 1, rank, bound),
            Drawn(snaps, insts, p, k + 1, depth, rank, bound), rests[k], heads[k], belows[k], rests[k + 1]);
    }
  }

  lemma Joins(a: seq<Line>, b: seq<Line>, c: seq<Line>, d: seq<Line>,
              a': seq<Line>, b': seq<Line>, c': seq<Line>, d': seq<Line>)
    requires a == a' && b == b' && c == c' && d == d' && a == (b + c) + d && b != []
    ensures b' != [] && a' == (b' + c') + d'
  {
  }

  // ---------------------------------------------------------------- the tree

  /** What lies under a snapshot that is shown is drawn in one piece, somewhere in the tree. */
  lemma {:induction false} FamilyIsDrawn(snaps: seq<SnapRow>, insts: seq<InstRow>, p: Option<Id>,
                                         rank: Id -> nat, bound: nat, tree: seq<Line>)
    returns (m: nat, depth: nat)
    requires TreeRows(snaps, rank, bound) && ParentsPresent(snaps) && (p.Some? ==> HasRow(snaps, p.value))
    requires tree == Tree(snaps, insts, rank, bound)
    ensures Piece(tree, m, Drawn(snaps, insts, p, 0, depth, rank, bound))
    decreases Floor(p, rank) + 1
  {
    m, depth := 0, 0;
    if p.Some? {
      var i :| 0 <= i < |snaps| && snaps[i].id == p.value;
      assert snaps[i] in snaps;
      m, depth := FamilyIsDrawn(snaps, insts, snaps[i].parent, rank, bound, tree);
      var k := OneLevelDown(snaps, insts, i, depth, rank, bound);
      PieceOfPiece(tree, m, Drawn(snaps, insts, snaps[i].parent, 0, depth, rank, bound),
                   k, Drawn(snaps, insts, Some(snaps[i].id), 0, depth + 1, rank, bound));
      m, depth := m + k, depth + 1;
    }
  }

  lemma OneLevelDown(snaps: seq<SnapRow>, insts: seq<InstRow>, i: nat, depth: nat, rank: Id -> nat, bound: nat)
    returns (k: nat)
    requires TreeRows(snaps, rank, bound) && i < |snaps|
    ensures Piece(Drawn(snaps, insts, snaps[i].parent, 0, depth, rank, bound), k,
                  Drawn(snaps, insts, Some(snaps[i].id), 0, depth + 1, rank, bound))
  {
    var a, _ := ChildrenInRowOrder(snaps, i, i);
    var rests, heads, belows := FamilyOf(snaps, insts, snaps[i].parent, depth, rank, bound);
    k := BelowIsThere(rests, heads, belows, a);
  }

  lemma TwoAreDrawn(snaps: seq<SnapRow>, insts: seq<InstRow>, i: nat, j: nat, depth: nat, rank: Id -> nat, bound: nat)
    returns (m: nat, n: nat)
    requires TreeRows(snaps, rank, bound) && i < j < |snaps| && snaps[i].parent == snaps[j].parent
    ensures
      var lines := Drawn(snaps, insts, snaps[i].parent, 0, depth, rank, bound);
      m < n && Piece(lines, m, Own(insts, snaps[i], depth)) && Piece(lines, n, Own(insts, snaps[j], depth))
  {
    var a, b := ChildrenInRowOrder(snaps, i, j);
    var rests, heads, belows := FamilyOf(snaps, insts, snaps[i].parent, depth, rank, bound);
    m, n := HeadsInOrder(rests, heads, belows, a, b);
  }

  /**
   Of two rows with the same parent, the first one's line comes first, at the same depth, and right
   below each come its instances, in their own row order.
   */
  lemma SiblingsInRowOrder(snaps: seq<SnapRow>, insts: seq<InstRow>, rank: Id -> nat, bound: nat, i: nat, j: nat)
    returns (depth: nat, m: nat, n: nat)
    requires TreeRows(snaps, rank, bound) && ParentsPresent(snaps)
    requires i < j < |snaps| && snaps[i].parent == snaps[j].parent
    ensures
      var tree := Tree(snaps, insts, rank, bound);
      && m < n
      && Piece(tree, m, [Node(snaps[i], depth)] + Leaves(On(insts, Some(snaps[i].id)), depth))
      && Piece(tree, n, [Node(snaps[j], depth)] + Leaves(On(insts, Some(snaps[j].id)), depth))
  {
    var p, tree := snaps[i].parent, Tree(snaps, insts, rank, bound);
    assert snaps[i] in snaps;
    var start;
    start, depth := FamilyIsDrawn(snaps, insts, p, rank, bound, tree);
    m, n := TwoAreDrawn(snaps, insts, i, j, depth, rank, bound);
    var lines := Drawn(snaps, insts, p, 0, depth, rank, bound);
    PieceOfPiece(tree, start, lines, m, Own(insts, snaps[i], depth));
    PieceOfPiece(tree, start, lines, n, Own(insts, snaps[j], depth));
    m, n := start + m, start + n;
  }
}
