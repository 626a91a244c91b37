/**
 Two-level user page tables (source/vm.c, include/mmu.h).  Pages are numbered from
 virtual address 0; a directory and each table behind it hold 256 words.  The kernel's
 fixed offset between physical and virtual addresses is left out: tables and frames go
 by their physical addresses.  `frames` is what alloc_page can still give, `pool` what
 kpt_alloc can; both are taken from and given back as sets.
 */
module PageTables {
  import opened Division
  import opened Blocks
  import opened Folding

  const WORDS256: nat := 256
  const PAGES: nat := 65536
  const PTE_SZ: nat := 4096
  const PDE_SZ: nat := 0x10_0000
  const UADDR_SZ: nat := 0x1000_0000
  const AP_KU: nat := 3

  type Page = p: seq<byte> | |p| == PTE_SZ witness seq(PTE_SZ, _ => 0)
  type Table = t: seq<nat> | |t| == WORDS256 witness seq(WORDS256, _ => 0)

  function Empty(): (t: Table)
    ensures forall k :: 0 <= k < WORDS256 ==> t[k] == 0
  {
    seq(WORDS256, _ => 0)
  }

  function ZeroPage(): Page { seq(PTE_SZ, _ => 0) }

  datatype Mach = Mach(tables: map<nat, Table>, bytes: map<nat, Page>, frames: set<nat>, pool: set<nat>)

  // ---------------------------------------------------------------- entries

  predicate Present(e: nat) { e % 4 != 0 }

  function PtAddr(e: nat): nat { e - e % 1024 }

  function Pde(pt: nat): nat { pt + 1 }

  /** Frame and access bits of a page. */
  datatype Pg = Pg(pa: nat, ap: nat)

  predicate PgOk(g: Pg) { g.pa % PTE_SZ == 0 && g.pa > 0 && g.ap < 4 }

  function Pte(g: Pg): nat { g.pa + 16 * g.ap + 14 }

  function PteAddr(e: nat): nat { e - e % PTE_SZ }

  function PteAp(e: nat): nat { e / 16 % 4 }

  lemma PteFaithful(g: Pg)
    requires PgOk(g)
    ensures Present(Pte(g)) && Pg(PteAddr(Pte(g)), PteAp(Pte(g))) == g
  {
    var q := g.pa / PTE_SZ;
    assert g.pa == 4096 * q;
    Quotient(4096, q, 16 * g.ap + 14);
    Quotient(16, 256 * q + g.ap, 14);
    Quotient(4, 64 * q, g.ap);
    Quotient(4, 1024 * q + 4 * g.ap + 3, 2);
    assert Pte(g) == 4096 * q + (16 * g.ap + 14) == 16 * (256 * q + g.ap) + 14 == 4 * (1024 * q + 4 * g.ap + 3) + 2;
    assert 256 * q + g.ap == 4 * (64 * q) + g.ap;
  }

  lemma PdeFaithful(pt: nat)
    requires pt % 1024 == 0
    ensures Present(Pde(pt)) && PtAddr(Pde(pt)) == pt
  {
    var q := pt / 1024;
    assert pt == 1024 * q;
    Quotient(1024, q, 1);
    Quotient(4, 256 * q, 1);
    assert Pde(pt) == 1024 * q + 1 == 4 * (256 * q) + 1;
  }

  // ---------------------------------------------------------------- the two levels

  predicate HasTable(m: Mach, dir: nat, k: nat)
    requires dir in m.tables && k < WORDS256
  {
    Present(m.tables[dir][k])
  }

  /** The directory entries behind which there is a table. */
  ghost function Dirs(m: Mach, dir: nat): set<nat> {
    if dir in m.tables then set k | 0 <= k < WORDS256 && HasTable(m, dir, k) else {}
  }

  function Pt(m: Mach, dir: nat, k: nat): nat
    requires dir in m.tables && k < WORDS256
  {
    PtAddr(m.tables[dir][k])
  }

  /** The directory's tables are there, are not the directory, and are not shared. */
  ghost predicate Shape(m: Mach, dir: nat) {
    && dir in m.tables
    && (forall k :: 0 <= k < WORDS256 && HasTable(m, dir, k) ==> Pt(m, dir, k) in m.tables && Pt(m, dir, k) != dir)
    && (forall k, l :: 0 <= k < l < WORDS256 && HasTable(m, dir, k) && HasTable(m, dir, l) ==> Pt(m, dir, k) != Pt(m,
        dir, l))
  }

  /** The word for page v, zero where there is no table. */
  function Entry(m: Mach, dir: nat, v: nat): nat
    requires dir in m.tables && v < PAGES && (HasTable(m, dir, v / 256) ==> Pt(m, dir, v / 256) in m.tables)
  {
    if HasTable(m, dir, v / 256) then m.tables[Pt(m, dir, v / 256)][v % 256] else 0
  }

  /** The directory and its tables. */
  ghost predicate Mine(m: Mach, dir: nat, t: nat)
    requires dir in m.tables
  {
    t == dir || exists k :: 0 <= k < WORDS256 && HasTable(m, dir, k) && Pt(m, dir, k) == t
  }

  ghost predicate MachOk(m: Mach) {
    && (forall p :: p in m.pool ==> p % 1024 == 0 && p !in m.tables)
    && (forall f :: f in m.frames ==> f % PTE_SZ == 0 && f > 0 && f in m.bytes)
    && (forall t :: t in m.tables ==> t % 1024 == 0)
  }

  /** A new, empty table for directory entry k changes no page. */
  lemma TableAdded(m: Mach, dir: nat, k: nat, p: nat, n: Mach)
    requires Shape(m, dir) && MachOk(m) && k < WORDS256 && !HasTable(m, dir, k) && p in m.pool
    requires n == m.(tables := m.tables[p := Empty()][dir := m.tables[dir][k := Pde(p)]], pool := m.pool - {p})
    ensures Shape(n, dir) && MachOk(n) && HasTable(n, dir, k) && Pt(n, dir, k) == p
    ensures forall v :: 0 <= v < PAGES ==> Entry(n, dir, v) == Entry(m, dir, v)
    ensures forall t :: Mine(n, dir, t) <==> Mine(m, dir, t) || t == p
  {
    PdeFaithful(p);
    assert forall l ::
             0 <= l < WORDS256 && l != k ==>
                 HasTable(n, dir, l) == HasTable(m, dir, l) && Pt(n, dir, l) == Pt(m, dir, l);
    AddedMine(m, dir, k, p, n);
  }

  lemma AddedMine(m: Mach, dir: nat, k: nat, p: nat, n: Mach)
    requires dir in m.tables && dir in n.tables && k < WORDS256 && !HasTable(m, dir, k) && HasTable(n, dir, k)
             && Pt(n, dir, k) == p
    requires forall l ::
               0 <= l < WORDS256 && l != k ==>
                   HasTable(n, dir, l) == HasTable(m, dir, l) && Pt(n, dir, l) == Pt(m, dir, l)
    ensures forall t :: Mine(n, dir, t) <==> Mine(m, dir, t) || t == p
  {
    forall t
      ensures Mine(n, dir, t) <==> Mine(m, dir, t) || t == p
    {
      if l :| 0 <= l < WORDS256 && HasTable(m, dir, l) && Pt(m, dir, l) == t {
        assert HasTable(n, dir, l) && Pt(n, dir, l) == t;
      }
    }
  }

  /** Writing one table word changes one page. */
  lemma EntrySet(m: Mach, dir: nat, v: nat, w: nat, n: Mach)
    requires Shape(m, dir) && v < PAGES && HasTable(m, dir, v / 256)
    requires var pt := Pt(m, dir, v / 256); n == m.(tables := m.tables[pt := m.tables[pt][v % 256 := w]])
    ensures Shape(n, dir) && Entry(n, dir, v) == w
    ensures forall u :: 0 <= u < PAGES && u != v ==> Entry(n, dir, u) == Entry(m, dir, u)
    ensures forall t :: Mine(n, dir, t) <==> Mine(m, dir, t)
  {
    assert n.tables[dir] == m.tables[dir];
    assert forall l ::
             0 <= l < WORDS256 ==> HasTable(n, dir, l) == HasTable(m, dir, l) && Pt(n, dir, l) == Pt(m, dir, l);
    forall u | 0 <= u < PAGES && u != v
      ensures Entry(n, dir, u) == Entry(m, dir, u)
    {
      assert u == 256 * (u / 256) + u % 256 && v == 256 * (v / 256) + v % 256;
    }
    forall t
      ensures Mine(n, dir, t) <==> Mine(m, dir, t)
    {
      SameMine(m, n, dir, t);
    }
  }

  lemma SameMine(m: Mach, n: Mach, dir: nat, t: nat)
    requires dir in m.tables && dir in n.tables && n.tables[dir] == m.tables[dir]
    ensures Mine(n, dir, t) <==> Mine(m, dir, t)
  {
    assert forall l ::
             0 <= l < WORDS256 ==> HasTable(n, dir, l) == HasTable(m, dir, l) && Pt(n, dir, l) == Pt(m, dir, l);
  }

  /** A directory does not notice changes to tables that are not its own. */
  lemma EntriesKept(m: Mach, n: Mach, dir: nat)
    requires Shape(m, dir) && forall t ::
               t in m.tables && Mine(m, dir, t) ==> t in n.tables && n.tables[t] == m.tables[t]
    ensures Shape(n, dir) && (forall v :: 0 <= v < PAGES ==> Entry(n, dir, v) == Entry(m, dir, v))
    ensures forall t :: Mine(n, dir, t) <==> Mine(m, dir, t)
  {
    assert Mine(m, dir, dir);
    assert forall l ::
             0 <= l < WORDS256 ==> HasTable(n, dir, l) == HasTable(m, dir, l) && Pt(n, dir, l) == Pt(m, dir, l);
    assert forall l :: 0 <= l < WORDS256 && HasTable(m, dir, l) ==> Mine(m, dir, Pt(m, dir, l));
    forall t
      ensures Mine(n, dir, t) <==> Mine(m, dir, t)
    {
      SameMine(m, n, dir, t);
    }
  }

  // ---------------------------------------------------------------- the flat page map

  /** Directory dir maps exactly the pages of f, each to a frame of its own that is in use. */
  ghost predicate Flat(m: Mach, dir: nat, f: map<nat, Pg>)
    requires Shape(m, dir)
  {
    && (forall v :: v in f ==> v < PAGES && PgOk(f[v]) && f[v].pa in m.bytes && f[v].pa !in m.frames)
    && (forall u, v :: u in f && v in f && u != v ==> f[u].pa != f[v].pa)
    && (forall v :: 0 <= v < PAGES ==> Entry(m, dir, v) == if v in f then Pte(f[v]) else 0)
  }

  ghost predicate Maps(m: Mach, dir: nat, f: map<nat, Pg>) {
    forall k {:trigger Look(k)} :: Look(k) ==> MachOk(m) && Shape(m, dir) && Flat(m, dir, f)
  }

  ghost function Frames(f: map<nat, Pg>): set<nat> {
    set v | v in f :: f[v].pa
  }

  /** Mapped from page 0 on without a gap: n pages. */
  ghost predicate Upto(f: map<nat, Pg>, n: nat) {
    forall v :: v in f <==> 0 <= v < n
  }

  lemma MapsMeans(m: Mach, dir: nat, f: map<nat, Pg>)
    requires Maps(m, dir, f)
    ensures MachOk(m) && Shape(m, dir) && Flat(m, dir, f)
  {
    assert Look(0);
  }

  lemma AddTable(m: Mach, dir: nat, f: map<nat, Pg>, k: nat, p: nat, n: Mach)
    requires Maps(m, dir, f) && dir in m.tables && k < WORDS256 && !HasTable(m, dir, k) && p in m.pool
    requires n == m.(tables := m.tables[p := Empty()][dir := m.tables[dir][k := Pde(p)]], pool := m.pool - {p})
    ensures Maps(n, dir, f) && HasTable(n, dir, k) && Pt(n, dir, k) == p
  {
    MapsMeans(m, dir, f);
    TableAdded(m, dir, k, p, n);
  }

  /** A page that was not mapped gets a frame nobody else has. */
  lemma MapPage(m: Mach, dir: nat, f: map<nat, Pg>, v: nat, g: Pg, n: Mach)
    requires Maps(m, dir, f) && dir in m.tables && v < PAGES && HasTable(m, dir, v / 256) && v !in f
    requires PgOk(g) && g.pa in m.bytes && g.pa !in m.frames && g.pa !in Frames(f)
    requires var pt := Pt(m, dir, v / 256);
               pt in m.tables && n == m.(tables := m.tables[pt := m.tables[pt][v % 256 := Pte(g)]])
    ensures Maps(n, dir, f[v := g])
  {
    MapsMeans(m, dir, f);
    EntrySet(m, dir, v, Pte(g), n);
  }

  /** A page is unmapped and its frame given back. */
  lemma UnmapPage(m: Mach, dir: nat, f: map<nat, Pg>, v: nat, n: Mach)
    requires Maps(m, dir, f) && dir in m.tables && v < PAGES && HasTable(m, dir, v / 256) && v in f
    requires var pt := Pt(m, dir, v / 256);
             pt in m.tables && n == m.(tables := m.tables[pt := m.tables[pt][v % 256 := 0]],
                 frames := m.frames + {f[v].pa})
    ensures Maps(n, dir, f - {v}) && Frames(f - {v}) == Frames(f) - {f[v].pa} && f[v].pa in Frames(f)
  {
    MapsMeans(m, dir, f);
    var o := n.(frames := m.frames);
    EntrySet(m, dir, v, 0, o);
    EntriesKept(o, n, dir);
    FramesLess(f, v);
  }

  lemma FramesLess(f: map<nat, Pg>, v: nat)
    requires v in f && forall u, w :: u in f && w in f && u != w ==> f[u].pa != f[w].pa
    ensures Frames(f - {v}) == Frames(f) - {f[v].pa} && f[v].pa in Frames(f)
  {
    var g := f - {v};
    forall a | a in Frames(g)
      ensures a in Frames(f) - {f[v].pa}
    {
      var u :| u in g && g[u].pa == a;
      assert u in f;
    }
    forall a | a in Frames(f) - {f[v].pa}
      ensures a in Frames(g)
    {
      var u :| u in f && f[u].pa == a;
      assert u in g;
    }
  }

  lemma FramesMore(f: map<nat, Pg>, v: nat, g: Pg)
    requires v !in f
    ensures Frames(f[v := g]) == Frames(f) + {g.pa}
  {
    var h := f[v := g];
    forall a | a in Frames(f) + {g.pa}
      ensures a in Frames(h)
    {
      if a != g.pa {
        var u :| u in f && f[u].pa == a;
        assert u in h && h[u] == f[u];
      } else {
        assert v in h;
      }
    }
  }

  /** What dir's code may touch: its own tables and tables from the pool. */
  ghost predicate Elsewhere(m: Mach, n: Mach, dir: nat) {
    forall k {:trigger Look(k)} :: Look(k) ==>
      && dir in m.tables && dir in n.tables
      && (forall t :: t in m.tables && !Mine(m, dir, t) ==> t in n.tables && n.tables[t] == m.tables[t])
      && (forall t :: Mine(n, dir, t) ==> Mine(m, dir, t) || t in m.pool)
      && (forall t :: Mine(m, dir, t) ==> Mine(n, dir, t))
      && n.pool <= m.pool && n.pool + n.tables.Keys == m.pool + m.tables.Keys
      && (forall t :: t in n.tables <==> t in m.tables || Mine(n, dir, t))
  }

  lemma ElsewhereSelf(m: Mach, dir: nat)
    requires Shape(m, dir)
    ensures Elsewhere(m, m, dir)
  {
  }

  lemma ElsewhereTrans(m: Mach, n: Mach, o: Mach, dir: nat)
    requires MachOk(m) && Elsewhere(m, n, dir) && Elsewhere(n, o, dir)
    ensures Elsewhere(m, o, dir)
  {
    assert Look(0);
  }

  lemma AddTableElsewhere(m: Mach, dir: nat, f: map<nat, Pg>, k: nat, p: nat, n: Mach)
    requires Maps(m, dir, f) && dir in m.tables && k < WORDS256 && !HasTable(m, dir, k) && p in m.pool
    requires n == m.(tables := m.tables[p := Empty()][dir := m.tables[dir][k := Pde(p)]], pool := m.pool - {p})
    ensures Elsewhere(m, n, dir)
  {
    MapsMeans(m, dir, f);
    TableAdded(m, dir, k, p, n);
  }

  lemma SetElsewhere(m: Mach, dir: nat, f: map<nat, Pg>, v: nat, w: nat, n: Mach)
    requires Maps(m, dir, f) && dir in m.tables && v < PAGES && HasTable(m, dir, v / 256)
    requires var pt := Pt(m, dir, v / 256);
             pt in m.tables && n.tables == m.tables[pt := m.tables[pt][v % 256 := w]] && n.pool == m.pool
    ensures Elsewhere(m, n, dir)
  {
    MapsMeans(m, dir, f);
    var o := m.(tables := n.tables);
    EntrySet(m, dir, v, w, o);
    EntriesKept(o, n, dir);
  }
}
