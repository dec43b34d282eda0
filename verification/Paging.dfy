/**
 The userfaultfd handler (spikes/uffd/src/main.rs:150-179): guests restored from one shared base
 get a page of it when they first touch it.  Addresses are unbounded numbers here; a guest's
 region lies far below the top of the address space.
 */
module Paging {
  import opened Wrappers
  import opened Chunking

  const PAGE := 4096

  /** `off & !(PAGE - 1)`. */
  function PageOf(off: nat): (p: nat) {
    off - off % PAGE
  }

  /** `pages` holds what is mapped, by offset in the region; `dead` says that the handler panicked. */
  datatype Guest = Guest(addr: nat, len: nat, pages: map<nat, Bytes>, faults: nat, dead: bool)

  predicate Fits(base: Bytes, len: nat, p: nat) {
    p + PAGE <= |base| && p + PAGE <= len
  }

  function Zeros(): Bytes {
    seq(PAGE, _ => 0)
  }

  /** One `Pagefault` event.  UFFDIO_COPY refuses a page that is mapped already or a target that
      is not page-aligned, and the handler panics; what UFFDIO_ZEROPAGE refuses is ignored. */
  function Serve(base: Bytes, g: Guest, addr: nat): Guest {
    var off := if addr < g.addr then 0 else addr - g.addr;
    var p := PageOf(off);
    if g.dead then g
    else if Fits(base, g.len, p) then
      if g.addr % PAGE != 0 || p in g.pages then g.(dead := true)
      else g.(pages := g.pages[p := base[p..p + PAGE]], faults := g.faults + 1)
    else if g.addr % PAGE == 0 && p < g.len && p !in g.pages then g.(pages := g.pages[p := Zeros()])
    else g
  }

  // ---------------------------------------------------------------- the event loop

  datatype Event = Pagefault(addr: nat) | OtherEvent | NoEvent | ReadError

  function Hear(base: Bytes, g: Guest, event: Event): Guest {
    if event.Pagefault? then Serve(base, g, event.addr) else g
  }

  /** The guest after the loop has read these events; an error ends it. */
  function ServeAll(base: Bytes, g: Guest, events: seq<Event>): Guest
    decreases |events|
  {
    if events == [] || events[0].ReadError? then g else
      ServeAll(base, Hear(base, g, events[0]), events[1..])
  }

  class Handler {
    const base: Bytes
    const addr: nat
    const len: nat
    var pages: map<nat, Bytes>
    var faults: nat
    var dead: bool

    function Now(): Guest
      reads this
    {
      Guest(addr, len, pages, faults, dead)
    }

    constructor (base: Bytes, addr: nat, len: nat)
      ensures this.base == base && Now() == Guest(addr, len, map[], 0, false)
    {
      this.base, this.addr, this.len := base, addr, len;
      pages, faults, dead := map[], 0, false;
    }

    /** `uffd.copy`. */
    method Copy(p: nat) returns (ok: bool)
      requires Fits(base, len, p)
      modifies `pages
      ensures ok == (addr % PAGE == 0 && p !in old(pages))
      ensures pages == if ok then old(pages)[p := base[p..p + PAGE]] else old(pages)
    {
      ok := addr % PAGE == 0 && p !in pages;
      if ok {
        pages := pages[p := base[p..p + PAGE]];
      }
    }

    method Zeropage(p: nat)
      modifies `pages
      ensures pages == if addr % PAGE == 0 && p < len && p !in old(pages) then old(pages)[p := Zeros()] else old(pages)
    {
      if addr % PAGE == 0 && p < len && p !in pages {
        pages := pages[p := Zeros()];
      }
    }

    method Loop(events: seq<Event>)
      requires !dead
      modifies this
      ensures Now() == ServeAll(base, old(Now()), events)
    {
      assert events[0..] == events;
      for k := 0 to |events|
        invariant !dead && ServeAll(base, Now(), events[k..]) == ServeAll(base, old(Now()), events)
      {
        assert events[k..][0] == events[k] && events[k..][1..] == events[k + 1..];
        match events[k]
        case ReadError => return;
        case Pagefault(at) =>
          var off := if at < addr then 0 else at - addr;
          var p := PageOf(off);
          if p + PAGE <= |base| && p + PAGE <= len {
            var ok := Copy(p);
            if !ok {
              dead := true;
              DeadServesNothing(base, Now(), events[k + 1..]);
              return;
            }
            faults := faults + 1;
          } else {
            Zeropage(p);
          }
        case _ =>
      }
    }
  }

  lemma {:induction false} DeadServesNothing(base: Bytes, g: Guest, events: seq<Event>)
    requires g.dead
    ensures ServeAll(base, g, events) == g
    decreases |events|
  {
    if events != [] && !events[0].ReadError? {
      DeadServesNothing(base, g, events[1..]);
    }
  }

  // ---------------------------------------------------------------- what a whole loop does

  /** The events up to the first error, at which the loop ends. */
  function Heard(events: seq<Event>): seq<Event> {
    if events == [] || events[0].ReadError? then [] else [events[0]] + Heard(events[1..])
  }

  /** The page of the region that a fault at `addr` asks for. */
  function Asked(g: Guest, addr: nat): nat {
    PageOf(if addr < g.addr then 0 else addr - g.addr)
  }

  predicate AsksFor(g: Guest, event: Event, p: nat) {
    event.Pagefault? && Asked(g, event.addr) == p
  }

  ghost predicate Asks(g: Guest, events: seq<Event>, p: nat) {
    exists k :: 0 <= k < |events| && AsksFor(g, events[k], p)
  }

  ghost predicate AsksTwice(g: Guest, events: seq<Event>, p: nat) {
    exists j, k :: 0 <= j < k < |events| && AsksFor(g, events[j], p) && AsksFor(g, events[k], p)
  }

  lemma AskingSplits(g: Guest, events: seq<Event>, p: nat)
    requires events != []
    ensures Asks(g, events, p) <==> AsksFor(g, events[0], p) || Asks(g, events[1..], p)
    ensures AsksTwice(g, events, p)
       <==> (AsksFor(g, events[0], p) && Asks(g, events[1..], p)) || AsksTwice(g, events[1..], p)
  {
    var rest := events[1..];
    assert forall k :: 0 < k < |events| ==> events[k] == rest[k - 1];
    assert forall k :: 0 <= k < |rest| ==> rest[k] == events[k + 1];
    if k :| 0 <= k < |rest| && AsksFor(g, rest[k], p) {
      assert AsksFor(g, events[k + 1], p);
    }
    if j, k :| 0 <= j < k < |rest| && AsksFor(g, rest[j], p) && AsksFor(g, rest[k], p) {
      assert AsksFor(g, events[j + 1], p) && AsksFor(g, events[k + 1], p);
    }
    if Asks(g, events, p) && !AsksFor(g, events[0], p) {
      var k :| 0 <= k < |events| && AsksFor(g, events[k], p);
      assert AsksFor(g, rest[k - 1], p);
    }
    if AsksTwice(g, events, p) {
      var j, k :| 0 <= j < k < |events| && AsksFor(g, events[j], p) && AsksFor(g, events[k], p);
      assert AsksFor(g, rest[k - 1], p);
      if j > 0 {
        assert AsksFor(g, rest[j - 1], p);
      }
    }
  }

  /** A page that would have to be copied a second time. */
  ghost predicate CopiesAgain(base: Bytes, g: Guest, events: seq<Event>, p: nat) {
    Fits(base, g.len, p) && ((p in g.pages && Asks(g, events, p)) || AsksTwice(g, events, p))
  }

  /** What a fault brings: the base's bytes if the page lies in it whole, else zeros. */
  function Brought(base: Bytes, len: nat, p: nat): Bytes {
    if p + 4096 <= |base| && p + 4096 <= len then base[p..p + 4096] else seq(4096, _ => 0)
  }

  lemma ServeSplits(base: Bytes, g: Guest, events: seq<Event>, p: nat)
    requires g.addr % PAGE == 0 && !g.dead && events != [] && !Hear(base, g, events[0]).dead
    ensures CopiesAgain(base, g, events, p) <==> CopiesAgain(base, Hear(base, g, events[0]), events[1..], p)
    ensures p in g.pages || (p < g.len && Asks(g, events, p))
       <==> p in Hear(base, g, events[0]).pages || (p < g.len && Asks(g, events[1..], p))
    ensures p in Hear(base, g, events[0]).pages ==>
              Hear(base, g, events[0]).pages[p] == if p in g.pages then g.pages[p] else Brought(base, g.len, p)
  {
    var g1 := Hear(base, g, events[0]);
    AskingSplits(g, events, p);
    SameQuestions(g, g1, events[1..], p);
    assert Zeros() == seq(4096, _ => 0);
  }

  lemma SameQuestions(g: Guest, g1: Guest, events: seq<Event>, p: nat)
    requires g1.addr == g.addr
    ensures Asks(g, events, p) <==> Asks(g1, events, p)
    ensures AsksTwice(g, events, p) <==> AsksTwice(g1, events, p)
  {
    assert forall k :: 0 <= k < |events| ==> AsksFor(g, events[k], p) == AsksFor(g1, events[k], p);
  }

  ghost predicate Panics(base: Bytes, g: Guest, events: seq<Event>) {
    exists p: nat :: CopiesAgain(base, g, events, p)
  }

  /** `g'` has the pages of `g` and those asked for, the new ones as the base has them. */
  ghost predicate Brings(base: Bytes, g: Guest, events: seq<Event>, g': Guest) {
    && (forall p: nat :: p in g'.pages <==> p in g.pages || (p < g.len && Asks(g, events, p)))
    && (forall p: nat :: p in g'.pages ==>
          g'.pages[p] == if p in g.pages then g.pages[p] else Brought(base, g.len, p))
  }

  lemma PanicsSplits(base: Bytes, g: Guest, events: seq<Event>)
    requires g.addr % PAGE == 0 && !g.dead && events != [] && !Hear(base, g, events[0]).dead
    ensures Panics(base, g, events) <==> Panics(base, Hear(base, g, events[0]), events[1..])
  {
    if Panics(base, g, events) {
      var p: nat :| CopiesAgain(base, g, events, p);
      ServeSplits(base, g, events, p);
    }
    if Panics(base, Hear(base, g, events[0]), events[1..]) {
      var p: nat :| CopiesAgain(base, Hear(base, g, events[0]), events[1..], p);
      ServeSplits(base, g, events, p);
    }
  }

  lemma BringsSplits(base: Bytes, g: Guest, events: seq<Event>, g': Guest)
    requires g.addr % PAGE == 0 && !g.dead && events != [] && !Hear(base, g, events[0]).dead
    requires Brings(base, Hear(base, g, events[0]), events[1..], g')
    ensures Brings(base, g, events, g')
  {
    forall p: nat
      ensures p in g'.pages <==> p in g.pages || (p < g.len && Asks(g, events, p))
      ensures p in g'.pages ==> g'.pages[p] == if p in g.pages then g.pages[p] else Brought(base, g.len, p)
    {
      ServeSplits(base, g, events, p);
      SameQuestions(g, Hear(base, g, events[0]), events[1..], p);
    }
  }

  /**
   An aligned guest after the loop.  The handler panicked exactly if a page that lies whole in the
   base was asked for again; if not, the pages mapped are those that were there and those asked
   for, the new ones holding the base's bytes or zeros.  Nothing after an error is heard.
   */
  lemma {:induction false} LoopBringsWhatIsAsked(base: Bytes, g: Guest, events: seq<Event>)
    requires g.addr % PAGE == 0 && !g.dead
    ensures
      var g', heard := ServeAll(base, g, events), Heard(events);
      (g'.dead <==> Panics(base, g, heard)) && (!g'.dead ==> Brings(base, g, heard, g'))
    decreases |events|
  {
    var heard := Heard(events);
    if events != [] && !events[0].ReadError? {
      var g1 := Hear(base, g, events[0]);
      assert heard[0] == events[0] && heard[1..] == Heard(events[1..]);
      if g1.dead {
        DeadServesNothing(base, g1, events[1..]);
        AskingSplits(g, heard, Asked(g, events[0].addr));
        assert CopiesAgain(base, g, heard, Asked(g, events[0].addr));
      } else {
        LoopBringsWhatIsAsked(base, g1, events[1..]);
        PanicsSplits(base, g, heard);
        if !ServeAll(base, g, events).dead {
          BringsSplits(base, g, heard, ServeAll(base, g, events));
        }
      }
    }
  }

  // ---------------------------------------------------------------- a full copy of one's own

  /** What loading the whole file would give the guest: the file, and zeros behind it. */
  function Eager(base: Bytes, len: nat): (own: Bytes)
    ensures |own| == len
  {
    seq(len, i requires 0 <= i < len => if i < |base| then base[i] else 0)
  }

  /** Whatever part of the base lies in a page that is not served from it is zero. */
  ghost predicate CleanTail(base: Bytes, len: nat) {
    forall i :: 0 <= i < len && i < |base| && !Fits(base, len, PageOf(i)) ==> base[i] == 0
  }

  lemma PageArithmetic(i: nat)
    ensures PageOf(i) <= i < PageOf(i) + PAGE && PageOf(PageOf(i)) == PageOf(i)
  {
  }

  lemma WholePagesFit(i: nat, n: nat)
    requires i < n && n % PAGE == 0
    ensures PageOf(i) + PAGE <= n
  {
  }

  lemma AlignedRegionsAreClean(base: Bytes, len: nat)
    requires |base| % PAGE == 0 && len % PAGE == 0
    ensures CleanTail(base, len)
  {
    forall i | 0 <= i < len && i < |base| ensures Fits(base, len, PageOf(i)) {
      WholePagesFit(i, |base|);
      WholePagesFit(i, len);
    }
  }

  // ---------------------------------------------------------------- guests at work

  /** What a guest does: touch a page (and fault), load or store a byte of a mapped page. */
  datatype Access = Fault(addr: nat) | Load(at: nat) | Store(at: nat, b: Byte)

  datatype Step = Step(child: nat, access: Access)

  predicate Mapped(g: Guest, at: nat) {
    at < g.len && PageOf(at) in g.pages && |g.pages[PageOf(at)]| == PAGE
  }

  predicate Enabled(gs: map<nat, Guest>, s: Step) {
    s.child in gs && (!s.access.Fault? ==> Mapped(gs[s.child], s.access.at))
  }

  function Peek(g: Guest, at: nat): Byte
    requires Mapped(g, at)
  {
    PageArithmetic(at);
    g.pages[PageOf(at)][at - PageOf(at)]
  }

  function Poke(g: Guest, at: nat, b: Byte): Guest
    requires Mapped(g, at)
  {
    PageArithmetic(at);
    var page: Bytes := g.pages[PageOf(at)][at - PageOf(at) := b];
    g.(pages := g.pages[PageOf(at) := page])
  }

  function Lazily(base: Bytes, gs: map<nat, Guest>, s: Step): (map<nat, Guest>, Option<Byte>)
    requires Enabled(gs, s)
  {
    var g := gs[s.child];
    match s.access
    case Fault(addr) => (gs[s.child := Serve(base, g, addr)], None)
    case Load(at) => (gs, Some(Peek(g, at)))
    case Store(at, b) => (gs[s.child := Poke(g, at, b)], None)
  }

  /** The same access by a guest that has its own full copy. */
  function Eagerly(owns: map<nat, Bytes>, s: Step): (map<nat, Bytes>, Option<Byte>)
    requires s.child in owns && (!s.access.Fault? ==> s.access.at < |owns[s.child]|)
  {
    match s.access
    case Fault(_) => (owns, None)
    case Load(at) => (owns, Some(owns[s.child][at]))
    case Store(at, b) =>
      var own: Bytes := owns[s.child][at := b];
      (owns[s.child := own], None)
  }

  ghost predicate ValidRun(base: Bytes, gs: map<nat, Guest>, run: seq<Step>)
    decreases |run|
  {
    run == [] || (Enabled(gs, run[0]) && ValidRun(base, Lazily(base, gs, run[0]).0, run[1..]))
  }

  /** What the guests see, load by load. */
  ghost function Seen(base: Bytes, gs: map<nat, Guest>, run: seq<Step>): seq<Option<Byte>>
    requires ValidRun(base, gs, run)
    decreases |run|
  {
    if run == [] then [] else
      var (gs', out) := Lazily(base, gs, run[0]);
      [out] + Seen(base, gs', run[1..])
  }

  ghost predicate OwnRun(owns: map<nat, Bytes>, run: seq<Step>)
    decreases |run|
  {
    run == [] ||
    (&& run[0].child in owns && (!run[0].access.Fault? ==> run[0].access.at < |owns[run[0].child]|)
     && OwnRun(Eagerly(owns, run[0]).0, run[1..]))
  }

  ghost function SeenOwn(owns: map<nat, Bytes>, run: seq<Step>): seq<Option<Byte>>
    requires OwnRun(owns, run)
    decreases |run|
  {
    if run == [] then [] else
      var (owns', out) := Eagerly(owns, run[0]);
      [out] + SeenOwn(owns', run[1..])
  }

  // ---------------------------------------------------------------- they see the same

  /** A mapped page shows the own copy; where nothing is mapped the own copy is untouched. */
  ghost predicate Mirrors(base: Bytes, g: Guest, own: Bytes) {
    && |own| == g.len
    && (forall p :: p in g.pages ==> |g.pages[p]| == PAGE)
    && (forall i :: 0 <= i < g.len && PageOf(i) !in g.pages ==> own[i] == Eager(base, g.len)[i])
    && (forall i :: 0 <= i < g.len && Mapped(g, i) ==> Peek(g, i) == own[i])
  }

  ghost predicate AllMirror(base: Bytes, gs: map<nat, Guest>, owns: map<nat, Bytes>) {
    && gs.Keys == owns.Keys
    && (forall c :: c in gs ==> Mirrors(base, gs[c], owns[c]) && CleanTail(base, gs[c].len))
  }

  lemma ServeMirrors(base: Bytes, g: Guest, addr: nat, own: Bytes)
    requires Mirrors(base, g, own) && CleanTail(base, g.len)
    ensures Mirrors(base, Serve(base, g, addr), own)
  {
    var g' := Serve(base, g, addr);
    var p := PageOf(if addr < g.addr then 0 else addr - g.addr);
    forall i | 0 <= i < g.len && Mapped(g', i) ensures Peek(g', i) == own[i] {
      PageArithmetic(i);
      if PageOf(i) in g.pages {
        assert g'.pages[PageOf(i)] == g.pages[PageOf(i)];
        assert Peek(g', i) == Peek(g, i);
      }
    }
  }

  lemma PokeMirrors(base: Bytes, g: Guest, at: nat, b: Byte, own: Bytes)
    requires Mirrors(base, g, own) && Mapped(g, at)
    ensures Mirrors(base, Poke(g, at, b), own[at := b])
  {
    var g' := Poke(g, at, b);
    forall i | 0 <= i < g.len && Mapped(g', i) ensures Peek(g', i) == own[at := b][i] {
      PageArithmetic(i);
      PageArithmetic(at);
      assert Mapped(g, i);
      assert i != at ==> Peek(g', i) == Peek(g, i);
    }
  }

  lemma StepMirrors(base: Bytes, gs: map<nat, Guest>, owns: map<nat, Bytes>, s: Step)
    requires AllMirror(base, gs, owns) && Enabled(gs, s)
    ensures Lazily(base, gs, s).1 == Eagerly(owns, s).1
    ensures AllMirror(base, Lazily(base, gs, s).0, Eagerly(owns, s).0)
  {
    var g, own := gs[s.child], owns[s.child];
    match s.access
    case Fault(addr) => ServeMirrors(base, g, addr, own);
    case Load(_) =>
    case Store(at, b) => PokeMirrors(base, g, at, b, own);
  }

  /**
   Any number of guests over one base, any interleaving of their faults, loads and stores: every
   load sees what the guest's own full copy would show.
   */
  lemma {:induction false} LazyIsEager(base: Bytes, gs: map<nat, Guest>, owns: map<nat, Bytes>, run: seq<Step>)
    requires AllMirror(base, gs, owns) && ValidRun(base, gs, run)
    ensures OwnRun(owns, run) && Seen(base, gs, run) == SeenOwn(owns, run)
    decreases |run|
  {
    if run != [] {
      StepMirrors(base, gs, owns, run[0]);
      LazyIsEager(base, Lazily(base, gs, run[0]).0, Eagerly(owns, run[0]).0, run[1..]);
    }
  }

  ghost predicate AllFresh(gs: map<nat, Guest>) {
    forall c :: c in gs ==> gs[c].pages == map[]
  }

  lemma FreshGuestsSeeTheirOwnCopies(base: Bytes, gs: map<nat, Guest>, run: seq<Step>)
    requires AllFresh(gs) && ValidRun(base, gs, run)
    requires |base| % PAGE == 0 && forall c :: c in gs ==> gs[c].len % PAGE == 0
    ensures
      var owns := map c | c in gs :: Eager(base, gs[c].len);
      OwnRun(owns, run) && Seen(base, gs, run) == SeenOwn(owns, run)
  {
    var owns := map c | c in gs :: Eager(base, gs[c].len);
    forall c | c in gs ensures Mirrors(base, gs[c], owns[c]) && CleanTail(base, gs[c].len) {
      AlignedRegionsAreClean(base, gs[c].len);
    }
    LazyIsEager(base, gs, owns, run);
  }

  /** A guest that touches `i` first finds there what its full copy would hold. */
  predicate TouchIsEager(base: Bytes, g: Guest, i: nat)
    requires i < g.len
  {
    var g' := Serve(base, g, g.addr + i);
    Mapped(g', i) && Peek(g', i) == Eager(base, g.len)[i]
  }

  lemma TouchShows(base: Bytes, g: Guest, i: nat)
    requires g.pages == map[] && !g.dead && g.addr % PAGE == 0 && i < g.len
    ensures TouchIsEager(base, g, i) <==> (i < |base| && !Fits(base, g.len, PageOf(i)) ==> base[i] == 0)
  {
    PageArithmetic(i);
  }

  /** Without alignment: a first touch shows the full copy everywhere exactly when what the base
      holds in pages it cannot serve whole is zero. */
  lemma FirstTouchIsEagerExactlyWhenTailIsClean(base: Bytes, g: Guest)
    requires g.pages == map[] && !g.dead && g.addr % PAGE == 0
    ensures (forall i :: 0 <= i < g.len ==> TouchIsEager(base, g, i)) <==> CleanTail(base, g.len)
  {
    forall i | 0 <= i < g.len
      ensures TouchIsEager(base, g, i) <==> (i < |base| && !Fits(base, g.len, PageOf(i)) ==> base[i] == 0)
    {
      TouchShows(base, g, i);
    }
  }

  /** Two faults on one page, as two virtual CPUs can cause: the second kills the handler exactly
      when the page is one it copies. */
  lemma SecondFaultPanicsExactlyOnCopiedPages(base: Bytes, g: Guest, a: nat, b: nat)
    requires !g.dead && g.addr % PAGE == 0 && g.addr <= a && g.addr <= b && PageOf(a - g.addr) == PageOf(b - g.addr)
    requires PageOf(a - g.addr) !in g.pages
    ensures Serve(base, Serve(base, g, a), b).dead <==> Fits(base, g.len, PageOf(a - g.addr))
  {
  }

  // ---------------------------------------------------------------- the counter

  function Copied(base: Bytes, g: Guest): set<nat> {
    set p | p in g.pages && Fits(base, g.len, p)
  }

  ghost predicate Counts(base: Bytes, g: Guest) {
    g.faults == |Copied(base, g)|
  }

  lemma ServeCounts(base: Bytes, g: Guest, addr: nat)
    requires Counts(base, g)
    ensures Counts(base, Serve(base, g, addr))
  {
    var p := PageOf(if addr < g.addr then 0 else addr - g.addr);
    var g' := Serve(base, g, addr);
    if g'.faults > g.faults {
      assert Copied(base, g') == Copied(base, g) + {p};
    } else {
      assert Copied(base, g') == Copied(base, g);
    }
  }

  /** The counter is the number of pages copied, each of them once. */
  lemma {:induction false} FaultsAreCopiedPages(base: Bytes, g: Guest, events: seq<Event>)
    requires Counts(base, g)
    ensures Counts(base, ServeAll(base, g, events))
    decreases |events|
  {
    if events != [] && !events[0].ReadError? {
      if events[0].Pagefault? {
        ServeCounts(base, g, events[0].addr);
      }
      FaultsAreCopiedPages(base, Hear(base, g, events[0]), events[1..]);
    }
  }
}
