/** What `klad log` shows of a run: everything once, at its place. */
module RenderLaws {
  import opened Wrappers
  import opened Engine
  import opened Render

  // ---------------------------------------------------------------- counting lines

  datatype Subject = TheSnapshot(id: Id) | TheInstance(id: Id)

  predicate About(line: Line, x: Subject) {
    match line
    case Genesis(_) => false
    case Node(s, _) => x == TheSnapshot(s.id)
    case Leaf(i, _) => x == TheInstance(i.id)
  }

  function Count(lines: seq<Line>, x: Subject): nat {
    if lines == [] then 0 else (if About(lines[0], x) then 1 else 0) + Count(lines[1..], x)
  }

  lemma {:induction false} CountAppend(a: seq<Line>, b: seq<Line>, x: Subject)
    ensures Count(a + b, x) == Count(a, x) + Count(b, x)
  {
    if a == [] {
      assert a + b == b;
    } else {
      assert (a + b)[1..] == a[1..] + b;
      CountAppend(a[1..], b, x);
    }
  }

  ghost predicate DistinctInsts(insts: seq<InstRow>) {
    forall i, j :: 0 <= i < j < |insts| ==> insts[i].id != insts[j].id
  }

  /** The lines of one snapshot itself. */
  ghost function Own(insts: seq<InstRow>, s: SnapRow, depth: nat): seq<Line> {
    [Node(s, depth)] + Leaves(On(insts, Some(s.id)), depth)
  }

  /** `x` belongs on the lines of snapshot `home` and nowhere else. */
  ghost predicate HomeIs(insts: seq<InstRow>, x: Subject, home: Option<Id>) {
    forall s, depth :: Count(Own(insts, s, depth), x) == (if home == Some(s.id) then 1 else 0)
  }

  ghost predicate PointsAt(insts: seq<InstRow>, id: Id, p: Option<Id>) {
    exists i :: i in insts && i.id == id && i.snapshot == p
  }

  lemma {:induction false} LeavesCount(insts: seq<InstRow>, p: Option<Id>, depth: nat, x: Subject)
    requires DistinctInsts(insts)
    ensures Count(Leaves(On(insts, p), depth), x) == if x.TheInstance? && PointsAt(insts, x.id, p) then 1 else 0
  {
    if insts != [] {
      var first, rest := insts[0], insts[1..];
      LeavesCount(rest, p, depth, x);
      assert forall i :: i in insts <==> i == first || i in rest;
      assert forall i :: i in rest ==> i.id != first.id;
      if first.snapshot == p {
        assert Leaves(On(insts, p), depth) == [Leaf(first, depth)] + Leaves(On(rest, p), depth);
        CountAppend([Leaf(first, depth)], Leaves(On(rest, p), depth), x);
      } else {
        assert On(insts, p) == On(rest, p);
      }
    }
  }

  lemma SnapshotsAreAtHome(insts: seq<InstRow>, id: Id)
    requires DistinctInsts(insts)
    ensures HomeIs(insts, TheSnapshot(id), Some(id))
  {
    forall s, depth ensures Count(Own(insts, s, depth), TheSnapshot(id)) == (if id == s.id then 1 else 0) {
      LeavesCount(insts, Some(s.id), depth, TheSnapshot(id));
    }
  }

  /** The home of an instance is the snapshot its row points at. */
  ghost function Pointer(insts: seq<InstRow>, id: Id): Option<Id> {
    if exists i :: i in insts && i.id == id then (var i :| i in insts && i.id == id; i.snapshot) else None
  }

  lemma InstancesAreAtHome(insts: seq<InstRow>, id: Id)
    requires DistinctInsts(insts)
    ensures HomeIs(insts, TheInstance(id), Pointer(insts, id))
  {
    forall s, depth
      ensures Count(Own(insts, s, depth), TheInstance(id)) == (if Pointer(insts, id) == Some(s.id) then 1 else 0)
    {
      LeavesCount(insts, Some(s.id), depth, TheInstance(id));
    }
  }

  // ---------------------------------------------------------------- chains of parents

  ghost predicate Ranked(up: map<Id, Option<Id>>, rank: Id -> nat) {
    forall y :: y in up && up[y].Some? ==> rank(up[y].value) < rank(y)
  }

  /** The child of `p` through which `x` descends from `p`. */
  ghost function Top(up: map<Id, Option<Id>>, rank: Id -> nat, x: Id, p: Option<Id>): Option<Id>
    requires Ranked(up, rank)
    decreases rank(x)
  {
    if x !in up then None
    else if up[x] == p then Some(x)
    else if up[x].None? then None
    else Top(up, rank, up[x].value, p)
  }

  lemma {:induction false} TopIsAbove(up: map<Id, Option<Id>>, rank: Id -> nat, x: Id, t: Id)
    requires Ranked(up, rank) && Top(up, rank, x, Some(t)).Some?
    ensures rank(t) < rank(x)
    decreases rank(x)
  {
    if up[x] != Some(t) {
      TopIsAbove(up, rank, up[x].value, t);
    }
  }

  lemma {:induction false} TopIsChild(up: map<Id, Option<Id>>, rank: Id -> nat, x: Id, p: Option<Id>)
    requires Ranked(up, rank) && Top(up, rank, x, p).Some?
    ensures Top(up, rank, x, p).value in up && up[Top(up, rank, x, p).value] == p
    decreases rank(x)
  {
    if up[x] != p {
      TopIsChild(up, rank, up[x].value, p);
    }
  }

  /** `x` descends from `p` through `t` exactly when it is `t` or descends from `t`. */
  lemma {:induction false} TopSplits(up: map<Id, Option<Id>>, rank: Id -> nat, x: Id, p: Option<Id>, t: Id)
    requires Ranked(up, rank) && t in up && up[t] == p
    ensures Top(up, rank, x, p) == Some(t) <==> x == t || Top(up, rank, x, Some(t)).Some?
    ensures x == t ==> Top(up, rank, x, Some(t)).None?
    decreases rank(x)
  {
    if Top(up, rank, x, Some(t)).Some? {
      TopIsAbove(up, rank, x, t);
    }
    if x in up && up[x] == p && x != t {
      if p.Some? && Top(up, rank, p.value, Some(t)).Some? {
        TopIsAbove(up, rank, p.value, t);
      }
    } else if x in up && x != t && up[x].Some? {
      TopSplits(up, rank, up[x].value, p, t);
    }
  }

  // ---------------------------------------------------------------- everything once

  lemma SameIdSameRow(snaps: seq<SnapRow>, rank: Id -> nat, bound: nat, s: SnapRow, t: SnapRow)
    requires TreeRows(snaps, rank, bound) && s in snaps && t in snaps && s.id == t.id
    ensures s == t
  {
    var i :| 0 <= i < |snaps| && snaps[i] == s;
    var j :| 0 <= j < |snaps| && snaps[j] == t;
    assert i == j;
  }

  ghost predicate UpOf(up: map<Id, Option<Id>>, snaps: seq<SnapRow>) {
    && (forall s :: s in snaps ==> s.id in up && up[s.id] == s.parent)
    && (forall y :: y in up ==> SnapRowIn(snaps, y, up[y]))
  }

  ghost predicate SnapRowIn(snaps: seq<SnapRow>, id: Id, parent: Option<Id>) {
    exists s :: s in snaps && s.id == id && s.parent == parent
  }

  lemma UpExists(snaps: seq<SnapRow>, rank: Id -> nat, bound: nat) returns (up: map<Id, Option<Id>>)
    requires TreeRows(snaps, rank, bound)
    ensures UpOf(up, snaps) && Ranked(up, rank)
  {
    forall s, t | s in snaps && t in snaps && s.id == t.id ensures s == t {
      SameIdSameRow(snaps, rank, bound, s, t);
    }
    up := map s | s in snaps :: s.id := s.parent;
  }

  predicate ListedFrom(kids: seq<SnapRow>, k: nat, top: Option<Id>)
    decreases |kids| - k
  {
    k < |kids| && (Some(kids[k].id) == top || ListedFrom(kids, k + 1, top))
  }

  lemma {:induction false} ListedAt(kids: seq<SnapRow>, k: nat, j: nat)
    requires k <= j < |kids|
    ensures ListedFrom(kids, k, Some(kids[j].id))
    decreases j - k
  {
    if k < j {
      ListedAt(kids, k + 1, j);
    }
  }

  lemma {:induction false} ListedOnce(kids: seq<SnapRow>, k: nat, top: Option<Id>)
    requires DistinctRows(kids)
    ensures ListedFrom(kids, k, top) ==> forall i :: 0 <= i < k && i < |kids| ==> Some(kids[i].id) != top
    decreases |kids| - k
  {
    if k < |kids| && Some(kids[k].id) != top {
      ListedOnce(kids, k + 1, top);
    }
  }

  lemma {:induction false} ChildrenAreDistinct(snaps: seq<SnapRow>, p: Option<Id>)
    requires DistinctRows(snaps)
    ensures DistinctRows(Children(snaps, p))
  {
    if snaps != [] {
      var rest, kids := Children(snaps[1..], p), Children(snaps, p);
      assert DistinctRows(snaps[1..]);
      ChildrenAreDistinct(snaps[1..], p);
      ChildrenAre(snaps[1..], p);
      if snaps[0].parent == p {
        assert kids == [snaps[0]] + rest;
        forall i, j | 0 <= i < j < |kids| ensures kids[i].id != kids[j].id {
          assert kids[j] == rest[j - 1] && rest[j - 1] in rest;
          if i == 0 {
            var m :| 0 <= m < |snaps[1..]| && snaps[1..][m] == kids[j];
            assert snaps[m + 1] == kids[j];
          } else {
            assert kids[i] == rest[i - 1];
          }
        }
      } else {
        assert kids == rest;
      }
    }
  }

  lemma TopIsListed(snaps: seq<SnapRow>, rank: Id -> nat, bound: nat, up: map<Id, Option<Id>>, x: Id, p: Option<Id>)
    requires TreeRows(snaps, rank, bound) && UpOf(up, snaps) && Ranked(up, rank)
    ensures ListedFrom(Children(snaps, p), 0, Top(up, rank, x, p)) <==> Top(up, rank, x, p).Some?
  {
    var top := Top(up, rank, x, p);
    if top.Some? {
      TopIsChild(up, rank, x, p);
      assert SnapRowIn(snaps, top.value, p);
      var s :| s in snaps && s.id == top.value && s.parent == p;
      ChildrenAre(snaps, p);
      assert s in Children(snaps, p);
      var j :| 0 <= j < |Children(snaps, p)| && Children(snaps, p)[j] == s;
      ListedAt(Children(snaps, p), 0, j);
    } else {
      NoneIsNotListed(Children(snaps, p), 0);
    }
  }

  lemma {:induction false} NoneIsNotListed(kids: seq<SnapRow>, k: nat)
    ensures !ListedFrom(kids, k, None)
    decreases |kids| - k
  {
    if k < |kids| {
      NoneIsNotListed(kids, k + 1);
    }
  }

  ghost function TopOf(up: map<Id, Option<Id>>, rank: Id -> nat, home: Option<Id>, p: Option<Id>): Option<Id>
    requires Ranked(up, rank)
  {
    if home.None? then None else Top(up, rank, home.value, p)
  }

  function Ones(b: bool): nat {
    if b then 1 else 0
  }

  lemma DrawnIs(snaps: seq<SnapRow>, insts: seq<InstRow>, p: Option<Id>, k: nat, depth: nat,
                rank: Id -> nat, bound: nat)
    requires TreeRows(snaps, rank, bound) && k < |Children(snaps, p)|
    ensures
      var s := Children(snaps, p)[k];
      Drawn(snaps, insts, p, k, depth, rank, bound)
        == Own(insts, s, depth) + Drawn(snaps, insts, Some(s.id), 0, depth + 1, rank, bound)
           + Drawn(snaps, insts, p, k + 1, depth, rank, bound)
  {
  }

  lemma DrawnSplits(snaps: seq<SnapRow>, insts: seq<InstRow>, p: Option<Id>, k: nat, depth: nat,
                    rank: Id -> nat, bound: nat, x: Subject)
    requires TreeRows(snaps, rank, bound) && k < |Children(snaps, p)|
    ensures
      var s := Children(snaps, p)[k];
      Count(Drawn(snaps, insts, p, k, depth, rank, bound), x)
        == Count(Own(insts, s, depth), x)
           + Count(Drawn(snaps, insts, Some(s.id), 0, depth + 1, rank, bound), x)
           + Count(Drawn(snaps, insts, p, k + 1, depth, rank, bound), x)
  {
    var s := Children(snaps, p)[k];
    var below := Drawn(snaps, insts, Some(s.id), 0, depth + 1, rank, bound);
    CountAppend(Own(insts, s, depth), below, x);
    CountAppend(Own(insts, s, depth) + below, Drawn(snaps, insts, p, k + 1, depth, rank, bound), x);
  }

  /** From its `k`-th turn on, `walk` prints `x` once if `x` lies under one of those children. */
  lemma {:induction false} DrawnOnce(snaps: seq<SnapRow>, insts: seq<InstRow>, p: Option<Id>, k: nat, depth: nat,
                                     rank: Id -> nat, bound: nat, up: map<Id, Option<Id>>, x: Subject, home: Option<Id>)
    requires TreeRows(snaps, rank, bound) && UpOf(up, snaps) && Ranked(up, rank) && HomeIs(insts, x, home)
    requires k <= |Children(snaps, p)|
    ensures Count(Drawn(snaps, insts, p, k, depth, rank, bound), x)
         == Ones(ListedFrom(Children(snaps, p), k, TopOf(up, rank, home, p)))
    decreases bound - Floor(p, rank), |Children(snaps, p)| - k
  {
    if k < |Children(snaps, p)| {
      KidIsBelow(snaps, p, rank, bound, k);
      var s := Children(snaps, p)[k];
      DrawnSplits(snaps, insts, p, k, depth, rank, bound, x);
      DrawnOnce(snaps, insts, Some(s.id), 0, depth + 1, rank, bound, up, x, home);
      DrawnOnce(snaps, insts, p, k + 1, depth, rank, bound, up, x, home);
      ChildrenAreDistinct(snaps, p);
      ListedOnce(Children(snaps, p), k + 1, TopOf(up, rank, home, p));
      if home.None? {
        NoneIsNotListed(Children(snaps, Some(s.id)), 0);
      } else {
        TopSplits(up, rank, home.value, p, s.id);
        TopIsListed(snaps, rank, bound, up, home.value, Some(s.id));
      }
    }
  }

  ghost predicate ParentsPresent(snaps: seq<SnapRow>) {
    forall s :: s in snaps && s.parent.Some? ==> HasRow(snaps, s.parent.value)
  }

  ghost predicate HasRow(snaps: seq<SnapRow>, id: Id) {
    exists s :: s in snaps && s.id == id
  }

  lemma {:induction false} RootsAreReached(snaps: seq<SnapRow>, rank: Id -> nat, up: map<Id, Option<Id>>, x: Id)
    requires UpOf(up, snaps) && Ranked(up, rank) && ParentsPresent(snaps)
    ensures Top(up, rank, x, None).Some? <==> HasRow(snaps, x)
    decreases rank(x)
  {
    if x in up {
      assert SnapRowIn(snaps, x, up[x]);
      var s :| s in snaps && s.id == x && s.parent == up[x];
      if s.parent.Some? {
        RootsAreReached(snaps, rank, up, s.parent.value);
      }
    }
  }

  /** The tree shows `x` exactly once when its home is among the rows, and not at all otherwise. */
  lemma TreeShowsOnce(snaps: seq<SnapRow>, insts: seq<InstRow>,
                      rank: Id -> nat, bound: nat, x: Subject, home: Option<Id>)
    requires TreeRows(snaps, rank, bound) && ParentsPresent(snaps) && HomeIs(insts, x, home)
    ensures Count(Tree(snaps, insts, rank, bound), x) == Ones(home.Some? && HasRow(snaps, home.value))
  {
    var up := UpExists(snaps, rank, bound);
    DrawnOnce(snaps, insts, None, 0, 0, rank, bound, up, x, home);
    if home.None? {
      NoneIsNotListed(Children(snaps, None), 0);
    } else {
      TopIsListed(snaps, rank, bound, up, home.value, None);
      RootsAreReached(snaps, rank, up, home.value);
    }
  }

  // ---------------------------------------------------------------- everything at its place

  /** Reading an outline by its indentation: the ids open at each depth after these lines. */
  function Open(lines: seq<Line>, stack: seq<Id>): seq<Id>
    decreases |lines|
  {
    if lines == [] then stack else
      match lines[0]
      case Node(s, d) => Open(lines[1..], (if d <= |stack| then stack[..d] else stack) + [s.id])
      case _ => Open(lines[1..], stack)
  }

  /** The indentation tells the truth: a snapshot at depth 0 is a root, a deeper one hangs under
      the last snapshot printed one level up, an instance under the last snapshot printed. */
  predicate Faithful(lines: seq<Line>, stack: seq<Id>)
    decreases |lines|
  {
    if lines == [] then true else
      match lines[0]
      case Node(s, d) =>
        && d <= |stack| && s.parent == (if d == 0 then None else Some(stack[d - 1]))
        && Faithful(lines[1..], stack[..d] + [s.id])
      case Leaf(i, d) => |stack| == d + 1 && i.snapshot == Some(stack[d]) && Faithful(lines[1..], stack)
      case Genesis(_) => false
  }

  lemma {:induction false} FaithfulAppend(a: seq<Line>, b: seq<Line>, stack: seq<Id>)
    requires Faithful(a, stack) && Faithful(b, Open(a, stack))
    ensures Faithful(a + b, stack) && Open(a + b, stack) == Open(b, Open(a, stack))
    decreases |a|
  {
    if a == [] {
      assert a + b == b;
    } else {
      assert (a + b)[0] == a[0] && (a + b)[1..] == a[1..] + b;
      match a[0]
      case Node(s, d) => FaithfulAppend(a[1..], b, stack[..d] + [s.id]);
      case Leaf(_, _) => FaithfulAppend(a[1..], b, stack);
    }
  }

  lemma {:induction false} OnAre(insts: seq<InstRow>, p: Option<Id>)
    ensures forall i :: i in On(insts, p) <==> i in insts && i.snapshot == p
  {
    if insts != [] {
      OnAre(insts[1..], p);
    }
  }

  lemma {:induction false} LeavesAreFaithful(here: seq<InstRow>, depth: nat, stack: seq<Id>)
    requires |stack| == depth + 1 && forall i :: i in here ==> i.snapshot == Some(stack[depth])
    ensures Faithful(Leaves(here, depth), stack) && Open(Leaves(here, depth), stack) == stack
  {
    if here != [] {
      assert Leaves(here, depth)[1..] == Leaves(here[1..], depth);
      LeavesAreFaithful(here[1..], depth, stack);
    }
  }

  /** The stack shows where `walk(p, depth)` is. */
  predicate At(stack: seq<Id>, p: Option<Id>, depth: nat) {
    depth <= |stack| && p == (if depth == 0 then None else Some(stack[depth - 1]))
  }

  lemma OwnIsFaithful(insts: seq<InstRow>, s: SnapRow, depth: nat, stack: seq<Id>)
    requires At(stack, s.parent, depth)
    ensures Faithful(Own(insts, s, depth), stack)
    ensures Open(Own(insts, s, depth), stack) == stack[..depth] + [s.id]
  {
    var under := stack[..depth] + [s.id];
    var leaves := Leaves(On(insts, Some(s.id)), depth);
    OnAre(insts, Some(s.id));
    LeavesAreFaithful(On(insts, Some(s.id)), depth, under);
    assert Own(insts, s, depth)[1..] == leaves;
  }

  /** The outline of one child and what is under it. */
  lemma BlockIsFaithful(own: seq<Line>, below: seq<Line>, stack: seq<Id>, sid: Id, p: Option<Id>, depth: nat)
    requires At(stack, p, depth) && Faithful(own, stack) && Open(own, stack) == stack[..depth] + [sid]
    requires Faithful(below, stack[..depth] + [sid])
    requires
      var after := Open(below, stack[..depth] + [sid]);
      depth + 1 <= |after| && after[..depth + 1] == stack[..depth] + [sid]
    ensures
      var after := Open(own + below, stack);
      Faithful(own + below, stack) && At(after, p, depth) && after[..depth] == stack[..depth]
  {
    FaithfulAppend(own, below, stack);
    var after := Open(below, stack[..depth] + [sid]);
    assert after[..depth] == after[..depth + 1][..depth] == stack[..depth];
    assert depth > 0 ==> after[..depth][depth - 1] == stack[..depth][depth - 1];
  }

  lemma {:induction false} DrawnIsFaithful(snaps: seq<SnapRow>, insts: seq<InstRow>, p: Option<Id>, k: nat, depth: nat,
                                           rank: Id -> nat, bound: nat, stack: seq<Id>)
    requires TreeRows(snaps, rank, bound) && k <= |Children(snaps, p)| && At(stack, p, depth)
    ensures
      var lines := Drawn(snaps, insts, p, k, depth, rank, bound);
      && Faithful(lines, stack)
      && depth <= |Open(lines, stack)| && Open(lines, stack)[..depth] == stack[..depth]
    decreases bound - Floor(p, rank), |Children(snaps, p)| - k
  {
    if k < |Children(snaps, p)| {
      KidIsBelow(snaps, p, rank, bound, k);
      var s := Children(snaps, p)[k];
      OwnIsFaithful(insts, s, depth, stack);
      DrawnIsFaithful(snaps, insts, Some(s.id), 0, depth + 1, rank, bound, stack[..depth] + [s.id]);
      var own, below := Own(insts, s, depth), Drawn(snaps, insts, Some(s.id), 0, depth + 1, rank, bound);
      BlockIsFaithful(own, below, stack, s.id, p, depth);
      DrawnIsFaithful(snaps, insts, p, k + 1, depth, rank, bound, Open(own + below, stack));
      FaithfulAppend(own + below, Drawn(snaps, insts, p, k + 1, depth, rank, bound), stack);
      DrawnIs(snaps, insts, p, k, depth, rank, bound);
    }
  }

  lemma TreeIsFaithful(snaps: seq<SnapRow>, insts: seq<InstRow>, rank: Id -> nat, bound: nat)
    requires TreeRows(snaps, rank, bound)
    ensures Faithful(Tree(snaps, insts, rank, bound), [])
  {
    DrawnIsFaithful(snaps, insts, None, 0, 0, rank, bound, []);
  }
}
