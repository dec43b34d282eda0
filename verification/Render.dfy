/** `klad log`: the rows of a run drawn as an indented tree (spikes/engine/klad:37-61). */
module Render {
  import opened Wrappers
  import opened Engine

  datatype SnapRow = SnapRow(id: Id, parent: Option<Id>, tag: string, size: nat)

  datatype InstRow = InstRow(id: Id, snapshot: Option<Id>, status: Status, branch: string)

  datatype Line = Genesis(inst: InstRow) | Node(snap: SnapRow, depth: nat) | Leaf(inst: InstRow, depth: nat)

  // ---------------------------------------------------------------- what is drawn

  function Children(snaps: seq<SnapRow>, p: Option<Id>): seq<SnapRow> {
    if snaps == [] then [] else
      (if snaps[0].parent == p then [snaps[0]] else []) + Children(snaps[1..], p)
  }

  lemma {:induction false} ChildrenAre(snaps: seq<SnapRow>, p: Option<Id>)
    ensures forall s :: s in Children(snaps, p) <==> s in snaps && s.parent == p
  {
    if snaps != [] {
      ChildrenAre(snaps[1..], p);
    }
  }

  function On(insts: seq<InstRow>, p: Option<Id>): seq<InstRow> {
    if insts == [] then [] else
      (if insts[0].snapshot == p then [insts[0]] else []) + On(insts[1..], p)
  }

  function Leaves(here: seq<InstRow>, depth: nat): seq<Line> {
    seq(|here|, k requires 0 <= k < |here| => Leaf(here[k], depth))
  }

  function GenesisLines(insts: seq<InstRow>): seq<Line> {
    if insts == [] then [] else
      (if insts[0].branch == "genesis" then [Genesis(insts[0])] else []) + GenesisLines(insts[1..])
  }

  ghost predicate DistinctRows(rows: seq<SnapRow>) {
    forall i, j :: 0 <= i < j < |rows| ==> rows[i].id != rows[j].id
  }

  /** Ids are unique and `rank` grows from parent to child. */
  ghost predicate TreeRows(snaps: seq<SnapRow>, rank: Id -> nat, bound: nat) {
    && DistinctRows(snaps)
    && (forall s :: s in snaps ==> rank(s.id) < bound)
    && (forall s :: s in snaps && s.parent.Some? ==> rank(s.parent.value) < rank(s.id))
  }

  ghost function Floor(p: Option<Id>, rank: Id -> nat): int {
    if p.None? then -1 else rank(p.value)
  }

  lemma KidIsBelow(snaps: seq<SnapRow>, p: Option<Id>, rank: Id -> nat, bound: nat, k: nat)
    requires TreeRows(snaps, rank, bound) && k < |Children(snaps, p)|
    ensures
      var s := Children(snaps, p)[k];
      s in snaps && s.parent == p && Floor(p, rank) < Floor(Some(s.id), rank) < bound
  {
    ChildrenAre(snaps, p);
    assert Children(snaps, p)[k] in Children(snaps, p);
  }

  /** What `walk` prints from its `k`-th turn on; `rank` and `bound` only show that it ends. */
  function Drawn(snaps: seq<SnapRow>, insts: seq<InstRow>, p: Option<Id>, k: nat, depth: nat,
                 ghost rank: Id -> nat, ghost bound: nat): seq<Line>
    requires TreeRows(snaps, rank, bound) && k <= |Children(snaps, p)|
    decreases bound - Floor(p, rank), |Children(snaps, p)| - k
  {
    if k == |Children(snaps, p)| then [] else
      KidIsBelow(snaps, p, rank, bound, k);
      var s := Children(snaps, p)[k];
      [Node(s, depth)] + Leaves(On(insts, Some(s.id)), depth)
      + Drawn(snaps, insts, Some(s.id), 0, depth + 1, rank, bound)
      + Drawn(snaps, insts, p, k + 1, depth, rank, bound)
  }

  function Tree(snaps: seq<SnapRow>, insts: seq<InstRow>, ghost rank: Id -> nat, ghost bound: nat): seq<Line>
    requires TreeRows(snaps, rank, bound)
  {
    Drawn(snaps, insts, None, 0, 0, rank, bound)
  }

  // ---------------------------------------------------------------- the code

  /** `dict.get(key, [])`. */
  function Lookup<R>(dict: map<Option<Id>, seq<R>>, key: Option<Id>): seq<R> {
    if key in dict then dict[key] else []
  }

  /** `dict.setdefault(key, []).append(row)`. */
  function Append<R>(dict: map<Option<Id>, seq<R>>, key: Option<Id>, row: R): map<Option<Id>, seq<R>> {
    dict[key := Lookup(dict, key) + [row]]
  }

  lemma AppendAddsOne<R>(dict: map<Option<Id>, seq<R>>, key: Option<Id>, row: R, p: Option<Id>)
    ensures Lookup(Append(dict, key, row), p) == Lookup(dict, p) + (if key == p then [row] else [])
  {
  }

  ghost predicate KidsIndex(kids: map<Option<Id>, seq<SnapRow>>, snaps: seq<SnapRow>) {
    forall p {:trigger Lookup(kids, p)} :: Lookup(kids, p) == Children(snaps, p)
  }

  ghost predicate InstIndex(onSnap: map<Option<Id>, seq<InstRow>>, insts: seq<InstRow>) {
    forall p {:trigger Lookup(onSnap, p)} :: Lookup(onSnap, p) == On(insts, p)
  }

  lemma ChildrenAppend(snaps: seq<SnapRow>, s: SnapRow, p: Option<Id>)
    ensures Children(snaps + [s], p) == Children(snaps, p) + (if s.parent == p then [s] else [])
  {
    if snaps != [] {
      assert (snaps + [s])[1..] == snaps[1..] + [s];
    }
  }

  lemma OnAppend(insts: seq<InstRow>, i: InstRow, p: Option<Id>)
    ensures On(insts + [i], p) == On(insts, p) + (if i.snapshot == p then [i] else [])
  {
    if insts != [] {
      assert (insts + [i])[1..] == insts[1..] + [i];
    }
  }

  lemma GenesisAppend(insts: seq<InstRow>, i: InstRow)
    ensures GenesisLines(insts + [i]) == GenesisLines(insts) + (if i.branch == "genesis" then [Genesis(i)] else [])
  {
    if insts != [] {
      assert (insts + [i])[1..] == insts[1..] + [i];
    }
  }

  method IndexKids(snaps: seq<SnapRow>) returns (kids: map<Option<Id>, seq<SnapRow>>)
    ensures KidsIndex(kids, snaps)
  {
    kids := map[];
    for k := 0 to |snaps|
      invariant KidsIndex(kids, snaps[..k])
    {
      var s := snaps[k];
      assert snaps[..k + 1] == snaps[..k] + [s];
      ghost var before := kids;
      kids := Append(kids, s.parent, s);
      forall p ensures Lookup(kids, p) == Children(snaps[..k + 1], p) {
        AppendAddsOne(before, s.parent, s, p);
        ChildrenAppend(snaps[..k], s, p);
      }
    }
    assert snaps[..|snaps|] == snaps;
  }

  method IndexInstances(insts: seq<InstRow>) returns (onSnap: map<Option<Id>, seq<InstRow>>)
    ensures InstIndex(onSnap, insts)
  {
    onSnap := map[];
    for k := 0 to |insts|
      invariant InstIndex(onSnap, insts[..k])
    {
      var i := insts[k];
      assert insts[..k + 1] == insts[..k] + [i];
      ghost var before := onSnap;
      onSnap := Append(onSnap, i.snapshot, i);
      forall p ensures Lookup(onSnap, p) == On(insts[..k + 1], p) {
        AppendAddsOne(before, i.snapshot, i, p);
        OnAppend(insts[..k], i, p);
      }
    }
    assert insts[..|insts|] == insts;
  }

  method PrintLeaves(here: seq<InstRow>, depth: nat) returns (out: seq<Line>)
    ensures out == Leaves(here, depth)
  {
    out := [];
    for k := 0 to |here|
      invariant out == Leaves(here, depth)[..k]
    {
      out := out + [Leaf(here[k], depth)];
    }
  }

  /** What one turn of the loop prints. */
  ghost function Block(snaps: seq<SnapRow>, insts: seq<InstRow>, s: SnapRow, depth: nat,
                       rank: Id -> nat, bound: nat): seq<Line>
    requires TreeRows(snaps, rank, bound)
  {
    [Node(s, depth)] + Leaves(On(insts, Some(s.id)), depth)
    + Drawn(snaps, insts, Some(s.id), 0, depth + 1, rank, bound)
  }

  lemma Turn(out: seq<Line>, snaps: seq<SnapRow>, insts: seq<InstRow>, p: Option<Id>, k: nat, depth: nat,
             rank: Id -> nat, bound: nat)
    requires TreeRows(snaps, rank, bound) && k < |Children(snaps, p)|
    ensures out + Drawn(snaps, insts, p, k, depth, rank, bound)
         == (out + Block(snaps, insts, Children(snaps, p)[k], depth, rank, bound))
            + Drawn(snaps, insts, p, k + 1, depth, rank, bound)
  {
  }

  /** `walk(parent, depth)` over the two dictionaries. */
  method Walk(kids: map<Option<Id>, seq<SnapRow>>, onSnap: map<Option<Id>, seq<InstRow>>,
              parent: Option<Id>, depth: nat,
              ghost snaps: seq<SnapRow>, ghost insts: seq<InstRow>, ghost rank: Id -> nat, ghost bound: nat)
    returns (out: seq<Line>)
    requires KidsIndex(kids, snaps) && InstIndex(onSnap, insts) && TreeRows(snaps, rank, bound)
    ensures out == Drawn(snaps, insts, parent, 0, depth, rank, bound)
    decreases bound - Floor(parent, rank)
  {
    out := [];
    var todo := Lookup(kids, parent);
    assert todo == Children(snaps, parent);
    for k := 0 to |todo|
      invariant out + Drawn(snaps, insts, parent, k, depth, rank, bound)
             == Drawn(snaps, insts, parent, 0, depth, rank, bound)
    {
      KidIsBelow(snaps, parent, rank, bound, k);
      var leaves := PrintLeaves(Lookup(onSnap, Some(todo[k].id)), depth);
      var below := Walk(kids, onSnap, Some(todo[k].id), depth + 1, snaps, insts, rank, bound);
      Turn(out, snaps, insts, parent, k, depth, rank, bound);
      out := out + ([Node(todo[k], depth)] + leaves + below);
    }
  }

  method RenderTimeline(snaps: seq<SnapRow>, insts: seq<InstRow>, ghost rank: Id -> nat, ghost bound: nat)
    returns (out: seq<Line>)
    requires TreeRows(snaps, rank, bound)
    ensures out == GenesisLines(insts) + Tree(snaps, insts, rank, bound)
  {
    var kids := IndexKids(snaps);
    var onSnap := IndexInstances(insts);
    out := [];
    for k := 0 to |insts|
      invariant out == GenesisLines(insts[..k])
    {
      assert insts[..k + 1] == insts[..k] + [insts[k]];
      GenesisAppend(insts[..k], insts[k]);
      if insts[k].branch == "genesis" {
        out := out + [Genesis(insts[k])];
      }
    }
    assert insts[..|insts|] == insts;
    var tree := Walk(kids, onSnap, None, 0, snaps, insts, rank, bound);
    out := out + tree;
  }
}
