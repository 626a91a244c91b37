/**
 User address spaces (source/vm.c): growing, shrinking, copying and freeing, each
 as an update of the flat page map of module PageTables.
 */
module Vm {
  import opened Division
  import opened Wrappers
  import opened Blocks
  import opened Folding
  import opened PageTables

  /** Pages that sz bytes take. */
  function Pages(sz: nat): nat { (sz + PTE_SZ - 1) / PTE_SZ }

  function AlignUp(sz: nat, al: nat): nat
    requires al > 0
  {
    (sz + al - 1) / al * al
  }

  lemma IndexOf(va: nat)
    requires va < UADDR_SZ
    ensures va / PDE_SZ == va / PTE_SZ / 256 < WORDS256 && va / PTE_SZ < PAGES && va / PTE_SZ % 256 < WORDS256
  {
  }

  /** No byte of a frame in use changed. */
  ghost predicate BytesKept(m: Mach, n: Mach) {
    n.bytes.Keys == m.bytes.Keys && forall a :: a in m.bytes && a !in m.frames ==> n.bytes[a] == m.bytes[a]
  }

  /** What walkpgdir finds for page v. */
  lemma WalkFinds(m: Mach, dir: nat, f: map<nat, Pg>, v: nat)
    requires Maps(m, dir, f) && v < PAGES
    ensures dir in m.tables
    ensures HasTable(m, dir, v / 256) ==> Pt(m, dir, v / 256) in m.tables
    ensures HasTable(m, dir, v / 256) ==> m.tables[Pt(m, dir, v / 256)][v % 256] == if v in f then Pte(f[v]) else 0
    ensures !HasTable(m, dir, v / 256) ==> v !in f
    ensures v in f ==> PgOk(f[v]) && f[v].pa in m.bytes && f[v].pa !in m.frames && f[v].pa in Frames(f)
  {
    MapsMeans(m, dir, f);
    assert Entry(m, dir, v) == if v in f then Pte(f[v]) else 0;
  }

  lemma PoolMeans(m: Mach, dir: nat, f: map<nat, Pg>)
    requires Maps(m, dir, f)
    ensures forall a :: a in m.frames ==> a in m.bytes && a % PTE_SZ == 0 && a > 0 && a !in Frames(f)
    ensures forall p :: p in m.pool ==> p !in m.tables
  {
    MapsMeans(m, dir, f);
  }

  /** Taking a free frame and writing it changes no page map. */
  lemma FrameTaken(m: Mach, n: Mach, dir: nat, f: map<nat, Pg>)
    requires Maps(m, dir, f) && n.tables == m.tables && n.pool == m.pool && n.frames <= m.frames
             && n.bytes.Keys == m.bytes.Keys
    ensures Maps(n, dir, f) && Elsewhere(m, n, dir)
  {
    MapsMeans(m, dir, f);
    EntriesKept(m, n, dir);
  }

  /** The page map without pages lo to hi - 1. */
  ghost function Without(f: map<nat, Pg>, lo: nat, hi: nat): map<nat, Pg> {
    map v | v in f && !(lo <= v < hi) :: f[v]
  }

  /** The pages below n. */
  ghost function Cut(f: map<nat, Pg>, n: nat): map<nat, Pg> {
    map v | v in f && v < n :: f[v]
  }

  lemma WithoutStep(f: map<nat, Pg>, lo: nat, v: nat)
    requires lo <= v
    ensures Without(f, lo, v + 1) == Without(f, lo, v) - {v}
  {
  }

  /** Past the last page there is nothing to take out. */
  lemma WithoutRest(f: map<nat, Pg>, n: nat, lo: nat, v: nat, w: nat)
    requires Upto(f, n) && n <= v && n <= w
    ensures Without(f, lo, v) == Without(f, lo, w) == Cut(f, lo)
  {
  }

  /** v was reached and not yet taken out. */
  lemma StillThere(f: map<nat, Pg>, n: nat, lo: nat, v: nat)
    requires Upto(f, n) && lo <= v
    ensures v in Without(f, lo, v) <==> v < n
  {
  }

  lemma NextPage(a: nat)
    requires a % PTE_SZ == 0
    ensures (a + PTE_SZ) % PTE_SZ == 0 && (a + PTE_SZ) / PTE_SZ == a / PTE_SZ + 1
  {
    Quotient(4096, a / PTE_SZ + 1, 0);
  }

  lemma NextMegabyte(a: nat)
    requires a % PTE_SZ == 0
    ensures var b := AlignUp(a, PDE_SZ); b % PTE_SZ == 0 && b / PTE_SZ >= a / PTE_SZ && b >= a
  {
    var q := (a + PDE_SZ - 1) / PDE_SZ;
    Quotient(4096, 256 * q, 0);
    assert AlignUp(a, PDE_SZ) == 4096 * (256 * q) + 0;
  }

  lemma UpIs(sz: nat)
    ensures AlignUp(sz, PTE_SZ) == 4096 * Pages(sz) && AlignUp(sz, PTE_SZ) % PTE_SZ == 0
            && AlignUp(sz, PTE_SZ) / PTE_SZ == Pages(sz)
    ensures sz <= AlignUp(sz, PTE_SZ) < sz + PTE_SZ
  {
    Quotient(4096, Pages(sz), 0);
    assert AlignUp(sz, PTE_SZ) == 4096 * Pages(sz) + 0;
  }

  lemma PageOf(a: nat, v: nat)
    requires a == 4096 * v
    ensures a / PTE_SZ == v
  {
  }

  class Memory {
    var tables: map<nat, Table>
    var bytes: map<nat, Page>
    var frames: set<nat>
    var pool: set<nat>

    ghost function View(): Mach
      reads this
    {
      Mach(tables, bytes, frames, pool)
    }

    /** Tables and frames that nobody uses yet. */
    constructor (pool: set<nat>, bytes: map<nat, Page>)
      requires forall p :: p in pool ==> p % 1024 == 0
      requires forall a :: a in bytes ==> a % PTE_SZ == 0 && a > 0
      ensures this.pool == pool && this.bytes == bytes && frames == bytes.Keys && tables == map[] && MachOk(View())
    {
      this.pool, this.bytes, tables, frames := pool, bytes, map[], bytes.Keys;
    }

    /** kpt_alloc for a directory: an empty address space. */
    method NewSpace() returns (ok: bool, dir: nat)
      requires MachOk(View())
      modifies this`tables, this`pool
      ensures ok <==> old(pool) != {}
      ensures !ok ==> unchanged(this)
      ensures ok ==> dir !in old(tables) && Maps(View(), dir, map[]) && TablesAdded(old(View()), View(), dir)
      ensures ok ==> dir in old(pool) && pool == old(pool) - {dir}
    {
      ghost var m := View();
      var d := KptAlloc();
      if d.None? { return false, 0; }
      ok, dir := true, d.value;
      NoTables(View(), dir);
      StartMaps(m, View(), dir);
      StartTables(m, View(), dir);
    }

    /** alloc_page: some free frame, or null. */
    method AllocPage() returns (r: Option<nat>)
      modifies this`frames
      ensures r.None? <==> old(frames) == {}
      ensures r.None? ==> frames == old(frames)
      ensures r.Some? ==> r.value in old(frames) && frames == old(frames) - {r.value}
    {
      if frames == {} { return None; }
      var a :| a in frames;
      frames := frames - {a};
      r := Some(a);
    }

    /** kpt_alloc: a zeroed table; None is its panic. */
    method KptAlloc() returns (r: Option<nat>)
      modifies this`tables, this`pool
      ensures r.None? <==> old(pool) == {}
      ensures r.None? ==> unchanged(this)
      ensures r.Some? ==>
                  r.value in old(pool) && pool == old(pool) - {r.value} && tables == old(tables)[r.value := Empty()]
    {
      if pool == {} { return None; }
      var p :| p in pool;
      pool := pool - {p};
      tables := tables[p := Empty()];
      r := Some(p);
    }

    /** walkpgdir: the table that holds the entry of va; ok is false where kpt_alloc panics. */
    method WalkPgdir(dir: nat, va: nat, alloc: bool, ghost f: map<nat, Pg>) returns (ok: bool, pt: Option<nat>)
      requires Maps(View(), dir, f) && va < UADDR_SZ
      modifies this`tables, this`pool
      ensures !alloc ==> ok && unchanged(this)
      ensures ok <==> !alloc || va / PTE_SZ / 256 in Dirs(old(View()), dir) || old(pool) != {}
      ensures !ok ==> unchanged(this)
      ensures ok && alloc ==> Drawn(old(View()), View(), dir, {va / PTE_SZ / 256})
      ensures ok ==>
                  Maps(View(), dir, f) && Elsewhere(old(View()), View(), dir) && dir in tables && (alloc ==> pt.Some?)
      ensures ok ==> (pt.Some? <==> HasTable(View(), dir, va / PTE_SZ / 256))
      ensures ok && pt.Some? ==> pt.value == Pt(View(), dir, va / PTE_SZ / 256)
    {
      IndexOf(va);
      WalkFinds(View(), dir, f, va / PTE_SZ);
      var pde := tables[dir][va / PDE_SZ];
      if Present(pde) {
        FrameTaken(View(), View(), dir, f);
        DrawnHad(View(), dir, va / PTE_SZ / 256);
        return true, Some(PtAddr(pde));
      }
      if !alloc {
        FrameTaken(View(), View(), dir, f);
        return true, None;
      }
      ghost var m := View();
      PoolMeans(m, dir, f);
      var p := KptAlloc();
      if p.None? { return false, None; }
      tables := tables[dir := tables[dir][va / PDE_SZ := Pde(p.value)]];
      assert View() == m.(tables := m.tables[p.value := Empty()][dir := m.tables[dir][va / PDE_SZ := Pde(p.value)]],
                 pool := m.pool - {p.value});
      AddTable(m, dir, f, va / PDE_SZ, p.value, View());
      AddTableElsewhere(m, dir, f, va / PDE_SZ, p.value, View());
      DrawnTable(m, dir, va / PDE_SZ, p.value, View());
      ok, pt := true, p;
    }

    /** mappages for one page; ok is false where it panics because the page is mapped already, or kpt_alloc does. */
    method MapAt(dir: nat, va: nat, pa: nat, ap: nat, ghost v: nat, ghost f: map<nat, Pg>) returns (ok: bool)
      requires Maps(View(), dir, f) && va < UADDR_SZ && v == va / PTE_SZ
      requires PgOk(Pg(pa, ap)) && pa in bytes && pa !in frames && pa !in Frames(f)
      modifies this`tables, this`pool
      ensures ok <==> v !in f && (v / 256 in Dirs(old(View()), dir) || old(pool) != {})
      ensures ok ==> Drawn(old(View()), View(), dir, {v / 256})
      ensures ok ==> Maps(View(), dir, f[v := Pg(pa, ap)]) && Elsewhere(old(View()), View(), dir)
    {
      ghost var m := View();
      var pt: Option<nat>;
      ok, pt := WalkPgdir(dir, va, true, f);
      if !ok { return; }
      ghost var n := View();
      IndexOf(va);
      WalkFinds(n, dir, f, v);
      if v in f { PteFaithful(f[v]); }
      var k := va / PTE_SZ % 256;
      var pte := tables[pt.value][k];
      if Present(pte) { return false; }
      tables := tables[pt.value := tables[pt.value][k := pa + 16 * ap + 14]];
      MapPage(n, dir, f, v, Pg(pa, ap), View());
      SetElsewhere(n, dir, f, v, Pte(Pg(pa, ap)), View());
      MapsMeans(m, dir, f);
      ElsewhereTrans(m, n, View(), dir);
      EntryDrawn(m, n, View(), dir, f, v / 256);
    }

    /** The page of entry v of table pt goes: its frame is free, its entry zero. */
    method ClearAt(dir: nat, v: nat, pt: nat, ghost f: map<nat, Pg>) returns (ok: bool)
      requires Maps(View(), dir, f) && dir in tables && v < PAGES && HasTable(View(), dir, v / 256)
               && pt == Pt(View(), dir, v / 256)
      modifies this`tables, this`frames
      ensures ok && Maps(View(), dir, f - {v}) && Elsewhere(old(View()), View(), dir)
      ensures v !in f ==> unchanged(this)
      ensures Drawn(old(View()), View(), dir, {})
      ensures v in f ==>
                  frames == old(frames) + {f[v].pa} && Frames(f - {v}) == Frames(f) - {f[v].pa} && f[v].pa in Frames(f)
    {
      ghost var m := View();
      WalkFinds(m, dir, f, v);
      ok := true;
      var pte := tables[pt][v % 256];
      if v in f { PteFaithful(f[v]); }
      if Present(pte) {
        var pa := PteAddr(pte);
        ok := pa != 0;
        frames := frames + {pa};
        tables := tables[pt := tables[pt][v % 256 := 0]];
        UnmapPage(m, dir, f, v, View());
        SetElsewhere(m, dir, f, v, 0, View());
        DrawnNone(m, dir);
        EntryDrawn(m, m, View(), dir, f, v / 256);
      } else {
        DrawnNone(m, dir);
        FrameTaken(m, m, dir, f);
        assert f - {v} == f;
      }
    }

    /**
     deallocuvm on a space mapped from 0 without a gap: exactly the pages from newsz
     on go, and their frames are free; ok is false where it panics, which it never does.
     */
    method Deallocuvm(dir: nat, oldsz: nat, newsz: nat, ghost f0: map<nat, Pg>, ghost n0: nat)
      returns (ok: bool, r: nat, ghost f: map<nat, Pg>)
      requires Maps(View(), dir, f0) && Upto(f0, n0) && n0 <= Pages(oldsz) && oldsz <= UADDR_SZ
      modifies this`tables, this`frames, this`pool
      ensures ok && r == if newsz >= oldsz then oldsz else newsz
      ensures f == Cut(f0, Pages(newsz)) && Maps(View(), dir, f) && Elsewhere(old(View()), View(), dir)
              && pool == old(pool) && Drawn(old(View()), View(), dir, {})
      ensures frames + Frames(f) == old(frames) + Frames(f0) && frames !! Frames(f)
    {
      ok, r, f := true, newsz, f0;
      ghost var lo, m := Pages(newsz), View();
      ShrunkStart(m, dir, f0, lo);
      DrawnStart(m, dir, f0);
      if newsz >= oldsz {
        WithoutRest(f0, n0, lo, lo, lo);
        ShrunkMeans(m, m, dir, f0, lo, lo, f);
        return ok, oldsz, f0;
      }
      var a := AlignUp(newsz, PTE_SZ);
      UpIs(newsz);
      while a < oldsz
        invariant ok && a % PTE_SZ == 0 && lo <= a / PTE_SZ && Shrunk(m, View(), dir, f0, lo, a / PTE_SZ, f)
        invariant Drawn(m, View(), dir, {})
        decreases oldsz - a
      {
        var cleared: bool;
        ghost var n := View();
        cleared, a, f := DropPage(dir, a, f0, n0, lo, m, f);
        DrawnTwice(m, n, View(), dir, {}, {}, {});
        ok := ok && cleared;
      }
      WithoutRest(f0, n0, lo, a / PTE_SZ, a / PTE_SZ);
      ShrunkMeans(m, View(), dir, f0, lo, a / PTE_SZ, f);
    }

    /** One round of deallocuvm's loop, and the address for the next one. */
    method DropPage(dir: nat, a: nat, ghost f0: map<nat, Pg>, ghost n0: nat, ghost lo: nat, ghost m: Mach,
                    ghost f: map<nat, Pg>)
      returns (ok: bool, b: nat, ghost g: map<nat, Pg>)
      requires a % PTE_SZ == 0 && lo <= a / PTE_SZ && a < UADDR_SZ && Upto(f0, n0)
      requires Shrunk(m, View(), dir, f0, lo, a / PTE_SZ, f)
      modifies this`tables, this`frames, this`pool
      ensures ok && b > a && b % PTE_SZ == 0 && lo <= b / PTE_SZ && Shrunk(m, View(), dir, f0, lo, b / PTE_SZ, g)
      ensures Drawn(old(View()), View(), dir, {})
    {
      var v := a / PTE_SZ;
      ghost var n := View();
      ShrunkMeans(m, n, dir, f0, lo, v, f);
      IndexOf(a);
      StillThere(f0, n0, lo, v);
      WalkFinds(n, dir, f, v);
      var pt: Option<nat>;
      ok, pt := WalkPgdir(dir, a, false, f);
      if pt.None? {
        DrawnNone(n, dir);
        NextMegabyte(a);
        b := AlignUp(a, PDE_SZ) + PTE_SZ;
        NextPage(AlignUp(a, PDE_SZ));
        g := f;
        ShrunkSkip(m, n, dir, f0, n0, lo, v, f, b / PTE_SZ);
      } else {
        ok := ClearAt(dir, v, pt.value, f);
        b := a + PTE_SZ;
        NextPage(a);
        g := f - {v};
        ShrunkClear(m, n, View(), dir, f0, lo, v, f);
      }
    }

    /**
     allocuvm on a space mapped from 0 without a gap: it grows by zeroed pages of its own
     if there are frames enough, and otherwise every page and frame is as it was.  ok is
     false where kpt_alloc panics.
     */
    method Allocuvm(dir: nat, oldsz: nat, newsz: nat, ghost f0: map<nat, Pg>) returns (ok: bool, r: nat,
                    ghost f: map<nat, Pg>)
      requires Maps(View(), dir, f0) && Upto(f0, Pages(oldsz))
      modifies this
      ensures newsz >= UADDR_SZ ==> ok && r == 0 && f == f0 && unchanged(this)
      ensures newsz < UADDR_SZ && newsz < oldsz ==> ok && r == oldsz && f == f0 && unchanged(this)
      ensures ok ==> Maps(View(), dir, f) && Elsewhere(old(View()), View(), dir) && BytesKept(old(View()), View())
      ensures ok ==> frames + Frames(f) == old(frames) + Frames(f0)
      ensures ok && oldsz <= newsz < UADDR_SZ && |old(frames)| >= Pages(newsz) - Pages(oldsz) ==>
              && r == newsz && Upto(f, Pages(newsz)) && Cut(f, Pages(oldsz)) == f0 && frames == old(frames) - Frames(f)
              && NewPages(old(View()), View(), f0, f)
      ensures ok && oldsz <= newsz < UADDR_SZ && |old(frames)| < Pages(newsz) - Pages(oldsz) ==>
              r == 0 && f == f0 && frames == old(frames)
      ensures oldsz <= newsz < UADDR_SZ ==>
              && (ok <==> TablesEnough(old(View()), dir, Pages(oldsz), Pages(newsz)))
              && (ok ==> Drawn(old(View()), View(), dir, Reached(old(View()), Pages(oldsz), Pages(newsz))))
    {
      ok, r, f := true, 0, f0;
      if newsz >= UADDR_SZ || newsz < oldsz {
        ghost var m := View();
        GrownStart(m, dir, f0, Pages(oldsz));
        GrownMeans(m, m, dir, f0, Pages(oldsz), Pages(oldsz), f0);
        return ok, if newsz >= UADDR_SZ then 0 else oldsz, f0;
      }
      ok, r, f := AllocLoop(dir, oldsz, newsz, f0);
    }

    /** allocuvm's loop, and its way out when a frame is missing. */
    method AllocLoop(dir: nat, oldsz: nat, newsz: nat, ghost f0: map<nat, Pg>) returns (ok: bool, r: nat,
                     ghost f: map<nat, Pg>)
      requires Maps(View(), dir, f0) && Upto(f0, Pages(oldsz)) && oldsz <= newsz < UADDR_SZ
      modifies this
      ensures ok ==> Maps(View(), dir, f) && Elsewhere(old(View()), View(), dir) && BytesKept(old(View()), View())
      ensures ok ==> frames + Frames(f) == old(frames) + Frames(f0)
      ensures ok && |old(frames)| >= Pages(newsz) - Pages(oldsz) ==>
                  r == newsz && GrownBy(old(View()), View(), f0, f, oldsz, newsz)
      ensures ok && |old(frames)| < Pages(newsz) - Pages(oldsz) ==> r == 0 && f == f0 && frames == old(frames)
      ensures ok <==> TablesEnough(old(View()), dir, Pages(oldsz), Pages(newsz))
      ensures ok ==> Drawn(old(View()), View(), dir, Reached(old(View()), Pages(oldsz), Pages(newsz)))
    {
      ghost var m, v := View(), Pages(oldsz);
      GrownStart(m, dir, f0, v);
      var full: bool;
      r := 0;
      RoundsUp(oldsz, newsz);
      UpIs(oldsz);
      ok, full, v, f := GrowAll(dir, AlignUp(oldsz, PTE_SZ), newsz, v, Pages(newsz), f0, m);
      if !ok { return; }
      if full {
        f := Rollback(dir, newsz, oldsz, f0, v, m, f);
      } else {
        r := newsz;
        GrownMeans(m, View(), dir, f0, Pages(oldsz), v, f);
        GrownFrames(m, View(), dir, f0, Pages(oldsz), v, f);
        AllDrawn(m, View(), dir, Pages(oldsz), v, Pages(newsz));
      }
    }

    /** The loop, and the page where it stopped; full if a frame is missing there. */
    method GrowAll(dir: nat, start: nat, newsz: nat, ghost v0: nat, ghost last: nat, ghost f0: map<nat, Pg>,
                   ghost m: Mach)
      returns (ok: bool, full: bool, ghost v: nat, ghost f: map<nat, Pg>)
      requires start == 4096 * v0 && newsz < UADDR_SZ && v0 <= last && newsz <= 4096 * last < newsz + 4096
      requires Grown(m, View(), dir, f0, v0, v0, f0)
      modifies this
      ensures !ok ==> !TablesEnough(m, dir, v0, last)
      ensures ok ==> v0 <= v <= last && Grown(m, View(), dir, f0, v0, v, f)
      ensures ok ==> if full then frames == {} && v < last else v == last
    {
      var a := start;
      ok, full, v, f := true, false, v0, f0;
      while a < newsz
        invariant ok && !full && a == 4096 * v && v0 <= v <= last
        decreases last - v
        invariant Grown(m, View(), dir, f0, v0, v, f)
      {
        ok, full, f := GrowPage(dir, a, f0, v0, v, last, m, f);
        if !ok || full { return; }
        a, v := a + 4096, v + 1;
      }
    }

    /** One page; full if there was no frame. */
    method GrowPage(dir: nat, a: nat, ghost f0: map<nat, Pg>, ghost v0: nat, ghost v: nat, ghost last: nat,
                    ghost m: Mach, ghost f: map<nat, Pg>)
      returns (ok: bool, full: bool, ghost g: map<nat, Pg>)
      requires a == 4096 * v && a < UADDR_SZ && v0 <= v < last && Grown(m, View(), dir, f0, v0, v, f)
      modifies this
      ensures !ok ==> !TablesEnough(m, dir, v0, last)
      ensures ok && full ==> Grown(m, View(), dir, f0, v0, v, g) && frames == {}
      ensures ok && !full ==> Grown(m, View(), dir, f0, v0, v + 1, g)
    {
      ghost var n := View();
      GrownMeans(m, n, dir, f0, v0, v, f);
      PoolMeans(n, dir, f);
      g, full := f, false;
      var mem := AllocPage();
      if mem.None? { return true, true, f; }
      bytes := bytes[mem.value := ZeroPage()];
      ghost var o := View();
      FrameTaken(n, o, dir, f);
      SameDirs(n, o, dir);
      ok := MapAt(dir, a, mem.value, AP_KU, v, f);
      if !ok {
        GrownFrames(m, n, dir, f0, v0, v, f);
        ReachedTo(m, v0, v, last, |n.frames|);
        PoolShort(m, n, dir, v0, v, Reached(m, v0, last));
        return;
      }
      SameDrawn(n, o, View(), dir, {v / 256});
      g := f[v := Pg(mem.value, AP_KU)];
      MapsMeans(n, dir, f);
      ElsewhereTrans(n, o, View(), dir);
      GrownMore(m, n, View(), dir, f0, v0, v, f, mem.value);
    }

    /** allocuvm out of memory: deallocuvm takes the new pages back. */
    method Rollback(dir: nat, newsz: nat, oldsz: nat, ghost f0: map<nat, Pg>, ghost v: nat, ghost m: Mach,
                    ghost f: map<nat, Pg>)
      returns (ghost g: map<nat, Pg>)
      requires oldsz < newsz < UADDR_SZ && Pages(oldsz) <= v < Pages(newsz)
               && Grown(m, View(), dir, f0, Pages(oldsz), v, f) && frames == {}
      modifies this
      ensures g == f0 && Maps(View(), dir, f0) && Elsewhere(m, View(), dir) && BytesKept(m, View())
              && frames == m.frames && TablesEnough(m, dir, Pages(oldsz), Pages(newsz))
              && Drawn(m, View(), dir, Reached(m, Pages(oldsz), Pages(newsz)))
      ensures |m.frames| < Pages(newsz) - Pages(oldsz)
    {
      ghost var n := View();
      GrownMeans(m, n, dir, f0, Pages(oldsz), v, f);
      var ok: bool, r: nat;
      GrownFrames(m, n, dir, f0, Pages(oldsz), v, f);
      AllDrawn(m, n, dir, Pages(oldsz), v, Pages(newsz));
      ok, r, g := Deallocuvm(dir, newsz, oldsz, f, v);
      ElsewhereTrans(m, n, View(), dir);
      ghost var e := Reached(m, Pages(oldsz), Pages(newsz));
      DrawnTwice(m, n, View(), dir, e, {}, e);
    }

    /**
     growproc.  A process of sz bytes stays mapped exactly up to its size in every case
     but one: shrinking to zero frees all pages, and then deallocuvm's result 0 is taken
     for a failure and the old size kept.
     */
    method Growproc(dir: nat, sz: nat, n: int, ghost f: map<nat, Pg>) returns (ok: bool, r: int, sz': nat,
                    ghost g: map<nat, Pg>)
      requires Maps(View(), dir, f) && Upto(f, Pages(sz)) && sz < UADDR_SZ && -0x8000_0000 <= n < 0x8000_0000
      modifies this
      ensures ok ==> Maps(View(), dir, g) && Elsewhere(old(View()), View(), dir) && BytesKept(old(View()), View())
      ensures ok ==> (Upto(g, Pages(sz')) <==> !(n < 0 && sz > 0 && sz + n == 0))
      ensures n > 0 && ok ==>
              (r == 0 <==> sz + n < UADDR_SZ && |old(frames)| >= Pages(sz + n) - Pages(sz))
      ensures n > 0 && ok && r == 0 ==> sz' == sz + n && GrownBy(old(View()), View(), f, g, sz, sz')
      ensures n > 0 && ok && r != 0 ==> r == -1 && sz' == sz && g == f && frames == old(frames)
      ensures n == 0 ==> ok && r == 0 && sz' == sz && g == f && unchanged(this)
      ensures n < 0 ==> ok && frames + Frames(g) == old(frames) + Frames(f) && pool == old(pool)
      ensures n < 0 && sz + n > 0 ==> r == 0 && sz' == sz + n && g == Cut(f, Pages(sz'))
      ensures n < 0 && sz + n == 0 ==> r == -1 && sz' == sz && g == map[]
      ensures n < 0 && sz + n < 0 ==> (if sz == 0 then r == -1 else r == 0) && sz' == sz && g == f
      ensures n > 0 ==> (ok <==> sz + n >= UADDR_SZ || TablesEnough(old(View()), dir, Pages(sz), Pages(sz + n)))
    {
      ok, r, sz', g := true, 0, sz, f;
      var newsz := (sz + n) % 0x1_0000_0000;
      WrappedSum(sz, n);
      if n > 0 {
        ok, r, sz', g := GrowTo(dir, sz, newsz, f);
      } else if n < 0 {
        ok, r, sz', g := ShrinkTo(dir, sz, newsz, f);
      } else {
        FrameTaken(View(), View(), dir, f);
      }
    }

    /** growproc's call of allocuvm. */
    method GrowTo(dir: nat, sz: nat, newsz: nat, ghost f: map<nat, Pg>) returns (ok: bool, r: int, sz': nat,
                  ghost g: map<nat, Pg>)
      requires Maps(View(), dir, f) && Upto(f, Pages(sz)) && sz < newsz
      modifies this
      ensures ok ==> Maps(View(), dir, g) && Elsewhere(old(View()), View(), dir) && Upto(g, Pages(sz'))
      ensures ok ==> BytesKept(old(View()), View())
      ensures ok ==> (r == 0 <==> newsz < UADDR_SZ && |old(frames)| >= Pages(newsz) - Pages(sz))
      ensures ok && r == 0 ==> sz' == newsz && GrownBy(old(View()), View(), f, g, sz, newsz)
      ensures ok && r != 0 ==> r == -1 && sz' == sz && g == f && frames == old(frames)
      ensures ok <==> newsz >= UADDR_SZ || TablesEnough(old(View()), dir, Pages(sz), Pages(newsz))
    {
      var s: nat;
      r, sz' := 0, sz;
      RoundsUp(sz, newsz);
      ok, s, g := Allocuvm(dir, sz, newsz, f);
      if !ok { return; }
      if s == 0 { r := -1; } else { sz' := s; }
    }

    /** growproc's call of deallocuvm. */
    method ShrinkTo(dir: nat, sz: nat, newsz: nat, ghost f: map<nat, Pg>) returns (ok: bool, r: int, sz': nat,
                    ghost g: map<nat, Pg>)
      requires Maps(View(), dir, f) && Upto(f, Pages(sz)) && sz < UADDR_SZ
      modifies this
      ensures ok && Maps(View(), dir, g) && Elsewhere(old(View()), View(), dir)
      ensures Upto(g, Pages(sz')) <==> !(newsz == 0 < sz)
      ensures newsz == 0 ==> g == map[]
      ensures newsz >= sz ==> g == f
      ensures newsz < sz ==> g == Cut(f, Pages(newsz))
      ensures frames + Frames(g) == old(frames) + Frames(f) && pool == old(pool) && bytes == old(bytes)
      ensures if newsz == 0 || sz == 0 then r == -1 && sz' == sz else r == 0 && sz' == if newsz < sz then newsz else sz
    {
      var s: nat;
      r, sz' := 0, sz;
      ok, s, g := Deallocuvm(dir, sz, newsz, f, Pages(sz));
      CutRange(f, Pages(sz), Pages(newsz));
      RoundsUp(sz, newsz);
      OneRange(g, if newsz < sz then Pages(newsz) else Pages(sz), Pages(sz));
      if s == 0 { r := -1; } else { sz' := s; }
    }

    /** One page, given back to the last byte: the process keeps its size and has lost the page. */
    static method GrowprocToZero() returns (m: Memory, dir: nat, r: int, sz': nat, ghost f: map<nat, Pg>,
                                 ghost g: map<nat, Pg>)
      ensures Upto(f, Pages(4096)) && r == -1 && sz' == 4096 && Maps(m.View(), dir, g) && g == map[]
              && !Upto(g, Pages(sz'))
    {
      m := new Memory({1024, 2048}, map[4096 := ZeroPage()]);
      var ok;
      ok, dir := m.NewSpace();
      assert |m.pool| == 1 && |m.frames| == 1 && Pages(4096) == 1;
      OneMegabyte(m.View(), dir);
      var s: nat;
      ok, s, f := m.Allocuvm(dir, 0, 4096, map[]);
      ok, r, sz', g := m.Growproc(dir, 4096, -4096, f);
    }

    /** kpt_free. */
    method KptFree(p: nat)
      modifies this`tables, this`pool
      ensures tables == old(tables) - {p} && pool == old(pool) + {p}
    {
      tables := tables - {p};
      pool := pool + {p};
    }

    /** freevm's loop over the directory. */
    method FreeTables(dir: nat)
      requires Shape(View(), dir)
      modifies this`tables, this`pool
      ensures tables == old(tables) - Pts(old(View()), dir, WORDS256)
              && pool == old(pool) + Pts(old(View()), dir, WORDS256)
    {
      ghost var m := View();
      var i := 0;
      while i < WORDS256
        invariant 0 <= i <= WORDS256 && tables == m.tables - Pts(m, dir, i) && pool == m.pool + Pts(m, dir, i)
      {
        PtsStep(m, dir, i);
        var pde := tables[dir][i];
        if Present(pde) { KptFree(PtAddr(pde)); }
        i := i + 1;
      }
    }

    /** freevm: every frame, every table and the directory itself are free; nobody else's table changed. */
    method Freevm(dir: nat, ghost f: map<nat, Pg>, ghost n: nat) returns (ok: bool)
      requires Maps(View(), dir, f) && Upto(f, n) && n <= PAGES
      modifies this`tables, this`frames, this`pool
      ensures ok && Freed(old(View()), View(), dir, f)
    {
      ghost var m := View();
      var r: nat;
      ghost var g: map<nat, Pg>;
      ok, r, g := Deallocuvm(dir, UADDR_SZ, 0, f, n);
      assert g == map[] by { assert Cut(f, 0) == map[]; }
      FreeRest(dir, m, f);
    }

    /** The tables and the directory, once no page is mapped. */
    method FreeRest(dir: nat, ghost m: Mach, ghost f: map<nat, Pg>)
      requires Maps(m, dir, f) && Maps(View(), dir, map[]) && Elsewhere(m, View(), dir) && pool == m.pool
      requires frames == m.frames + Frames(f) && bytes == m.bytes
      modifies this`tables, this`frames, this`pool
      ensures Freed(m, View(), dir, f)
    {
      ghost var o := View();
      MapsMeans(o, dir, map[]);
      FreeTables(dir);
      KptFree(dir);
      AllFreed(m, o, View(), dir, f);
    }

    /**
     copyuvm on a space of sz bytes: a directory of its own that maps the same pages to
     fresh frames with the same bytes and access bits, or, if there are not frames enough,
     null with every frame and table given back.  ok is false where kpt_alloc panics.
     */
    method Copyuvm(dir: nat, sz: nat, ghost f: map<nat, Pg>) returns (ok: bool, r: Option<nat>, ghost g: map<nat, Pg>)
      requires Maps(View(), dir, f) && Upto(f, Pages(sz)) && sz <= UADDR_SZ
      modifies this
      ensures ok ==> Maps(View(), dir, f) && BytesKept(old(View()), View()) && (r.Some? <==> |old(frames)| >= Pages(sz))
      ensures ok && r.None? ==> tables == old(tables) && frames == old(frames) && pool == old(pool)
      ensures ok && r.Some? ==>
              && Maps(View(), r.value, g) && Upto(g, Pages(sz)) && SameContents(old(View()), View(), f, g)
              && Frames(g) <= old(frames) && frames == old(frames) - Frames(g)
              && r.value !in old(tables) && TablesAdded(old(View()), View(), r.value)
      ensures ok <==> 1 + |Reached(old(View()), 0, Pages(sz))| <= |old(pool)|
    {
      ghost var m := View();
      SourceFrames(m, dir, f);
      r, g := None, map[];
      var d := KptAlloc();
      if d.None? { return false, None, g; }
      CopyStart(m, View(), d.value, f);
      var full: bool;
      ghost var v: nat;
      ok, full, v, g := CopyLoop(dir, d.value, sz, Pages(sz), f, m);
      if !ok { return; }
      ghost var n := View();
      CopiedMeans(m, n, f, d.value, v, g);
      CopyEnough(m, n, f, d.value, v, g, Pages(sz));
      if full {
        ok := Freevm(d.value, g, v);
        CopyUndone(m, n, View(), dir, f, d.value, v, g);
      } else {
        OldSpace(m, n, d.value, dir, f, g);
        r := d;
      }
    }

    /** copyuvm's loop, and where it stopped. */
    method CopyLoop(dir: nat, d: nat, sz: nat, ghost last: nat, ghost f: map<nat, Pg>, ghost m: Mach)
      returns (ok: bool, full: bool, ghost v: nat, ghost g: map<nat, Pg>)
      requires Maps(m, dir, f) && Upto(f, last) && sz <= UADDR_SZ && sz <= 4096 * last < sz + 4096
      requires Copied(m, View(), f, d, 0, map[])
      modifies this
      ensures !ok ==> 1 + |Reached(m, 0, last)| > |m.pool|
      ensures ok ==> Copied(m, View(), f, d, v, g) && v <= PAGES
      ensures ok ==> if full then frames == {} && v < last else v == last
    {
      var i := 0;
      ok, full, v, g := true, false, 0, map[];
      while i < sz
        invariant ok && !full && i == 4096 * v && v <= last
        decreases last - v
        invariant Copied(m, View(), f, d, v, g)
      {
        ok, full, g := CopyPage(dir, d, i, v, f, m, g, last);
        if !ok || full { return; }
        i, v := i + 4096, v + 1;
      }
    }

    /** One round of copyuvm's loop; full if there was no frame. */
    method CopyPage(dir: nat, d: nat, i: nat, ghost v: nat, ghost f: map<nat, Pg>, ghost m: Mach,
                    ghost g: map<nat, Pg>, ghost n: nat)
      returns (ok: bool, full: bool, ghost h: map<nat, Pg>)
      requires Maps(m, dir, f) && Upto(f, n) && i == 4096 * v && v < n && i < UADDR_SZ && Copied(m, View(), f, d, v, g)
      modifies this
      ensures !ok ==> 1 + |Reached(m, 0, n)| > |m.pool|
      ensures ok && full ==> Copied(m, View(), f, d, v, h) && frames == {}
      ensures ok && !full ==> Copied(m, View(), f, d, v + 1, h)
    {
      h, full := g, false;
      ghost var o := View();
      CopiedMeans(m, o, f, d, v, g);
      PageOf(i, v);
      var pa, ap := SourceOf(dir, d, i, v, f, m, g);
      PoolMeans(o, d, g);
      var mem := AllocPage();
      if mem.None? { return true, true, g; }
      bytes := bytes[mem.value := bytes[pa]];
      ghost var p := View();
      FrameTaken(o, p, d, g);
      SameDirs(o, p, d);
      ok := MapAt(d, i, mem.value, ap, v, g);
      if !ok { CopyShort(m, o, f, d, v, g, n); return; }
      h := g[v := Pg(mem.value, ap)];
      CopiedPage(m, o, p, View(), f, d, v, g, mem.value, ap);
    }

    /** The page of the space being copied. */
    method SourceOf(dir: nat, d: nat, i: nat, ghost v: nat, ghost f: map<nat, Pg>, ghost m: Mach, ghost g: map<nat, Pg>)
      returns (pa: nat, ap: nat)
      requires Maps(m, dir, f) && Copied(m, View(), f, d, v, g) && v in f && i < UADDR_SZ && v == i / PTE_SZ
      modifies this`tables, this`pool
      ensures unchanged(this) && Pg(pa, ap) == f[v] && PgOk(Pg(pa, ap)) && pa in bytes && pa !in frames
    {
      CopiedMeans(m, View(), f, d, v, g);
      OldSpace(m, View(), d, dir, f, g);
      pa, ap := Source(dir, i, v, f);
    }

    /** Frame and access bits of a page that is mapped: copyuvm's two panics are not reached. */
    method Source(dir: nat, i: nat, ghost v: nat, ghost f: map<nat, Pg>) returns (pa: nat, ap: nat)
      requires Maps(View(), dir, f) && i < UADDR_SZ && v == i / PTE_SZ && v in f
      modifies this`tables, this`pool
      ensures unchanged(this) && Pg(pa, ap) == f[v] && PgOk(Pg(pa, ap)) && pa in bytes && pa !in frames
    {
      IndexOf(i);
      WalkFinds(View(), dir, f, v);
      PteFaithful(f[v]);
      var _, pt := WalkPgdir(dir, i, false, f);
      var pte := tables[pt.value][i / PTE_SZ % 256];
      pa, ap := PteAddr(pte), PteAp(pte);
    }
  }

  /** g maps the same pages as f, with the same access bits, to frames with the same bytes. */
  ghost predicate SameContents(m0: Mach, m: Mach, f: map<nat, Pg>, g: map<nat, Pg>) {
    forall v :: v in g ==> v in f && g[v].ap == f[v].ap && g[v].pa in m.bytes && f[v].pa in m0.bytes
                           && m.bytes[g[v].pa] == m0.bytes[f[v].pa]
  }

  /** From m0 to m only directory d and its tables came, out of the pool. */
  ghost predicate TablesAdded(m0: Mach, m: Mach, d: nat) {
    forall k {:trigger Look(k)} :: Look(k) ==>
      && d in m.tables
      && (forall t :: t in m0.tables ==> t in m.tables && m.tables[t] == m0.tables[t])
      && (forall t :: t in m.tables <==> t in m0.tables || Mine(m, d, t))
      && (forall t :: Mine(m, d, t) ==> t in m0.pool)
      && m.pool <= m0.pool && m.pool + m.tables.Keys == m0.pool + m0.tables.Keys
  }

  lemma AddedMore(m0: Mach, m: Mach, n: Mach, d: nat, g: map<nat, Pg>)
    requires MachOk(m0) && Maps(m, d, g) && TablesAdded(m0, m, d) && Elsewhere(m, n, d)
    ensures TablesAdded(m0, n, d)
  {
    assert Look(0);
  }

  /** copyuvm has copied v pages of f. */
  ghost predicate Copied(m0: Mach, m: Mach, f: map<nat, Pg>, d: nat, v: nat, g: map<nat, Pg>) {
    forall k {:trigger Glance(k)} :: Glance(k) ==>
      && MachOk(m0) && Maps(m, d, g) && TablesAdded(m0, m, d) && BytesKept(m0, m) && Upto(g, v)
      && SameContents(m0, m, f, g) && m.frames == m0.frames - Frames(g) && m.frames + Frames(g) == m0.frames
      && |m.frames| + v == |m0.frames| && d !in m0.tables
      && Dirs(m, d) == Megs(0, v) && |m.pool| + 1 + |Megs(0, v)| == |m0.pool|
      && (forall u :: u in f ==> f[u].pa in m0.bytes && f[u].pa !in m0.frames)
  }

  lemma CopiedMeans(m0: Mach, m: Mach, f: map<nat, Pg>, d: nat, v: nat, g: map<nat, Pg>)
    requires Copied(m0, m, f, d, v, g)
    ensures MachOk(m0) && Maps(m, d, g) && TablesAdded(m0, m, d) && BytesKept(m0, m) && Upto(g, v)
    ensures SameContents(m0, m, f, g) && m.frames == m0.frames - Frames(g) && m.frames + Frames(g) == m0.frames
    ensures |m.frames| + v == |m0.frames| && d !in m0.tables
    ensures forall u :: u in f ==> f[u].pa in m0.bytes && f[u].pa !in m0.frames
  {
    assert Glance(0);
  }

  lemma CopyStart(m0: Mach, m: Mach, d: nat, f: map<nat, Pg>)
    requires MachOk(m0) && d in m0.pool && m == m0.(tables := m0.tables[d := Empty()], pool := m0.pool - {d})
    requires forall u :: u in f ==> f[u].pa in m0.bytes && f[u].pa !in m0.frames
    ensures Copied(m0, m, f, d, 0, map[])
  {
    NoTables(m, d);
    StartMaps(m0, m, d);
    StartTables(m0, m, d);
    assert Frames(map[]) == {};
    assert Dirs(m, d) == {} && Megs(0, 0) == {};
  }

  lemma CopiedTables(m0: Mach, m: Mach, f: map<nat, Pg>, d: nat, v: nat, g: map<nat, Pg>)
    requires Copied(m0, m, f, d, v, g)
    ensures Dirs(m, d) == Megs(0, v) && |m.pool| + 1 + |Megs(0, v)| == |m0.pool| && |m.frames| + v == |m0.frames|
  {
    assert Glance(0);
  }

  lemma NoTables(m: Mach, d: nat)
    requires d in m.tables && m.tables[d] == Empty()
    ensures forall k :: 0 <= k < WORDS256 ==> !HasTable(m, d, k)
    ensures forall t :: Mine(m, d, t) <==> t == d
  {
  }

  lemma StartMaps(m0: Mach, m: Mach, d: nat)
    requires MachOk(m0) && d in m0.pool && m == m0.(tables := m0.tables[d := Empty()], pool := m0.pool - {d})
    requires forall k :: 0 <= k < WORDS256 ==> !HasTable(m, d, k)
    ensures Maps(m, d, map[])
  {
  }

  lemma StartTables(m0: Mach, m: Mach, d: nat)
    requires MachOk(m0) && d in m0.pool && m == m0.(tables := m0.tables[d := Empty()], pool := m0.pool - {d})
    requires forall t :: Mine(m, d, t) <==> t == d
    ensures TablesAdded(m0, m, d)
  {
  }

  lemma SourceFrames(m: Mach, dir: nat, f: map<nat, Pg>)
    requires Maps(m, dir, f)
    ensures MachOk(m) && forall u :: u in f ==> f[u].pa in m.bytes && f[u].pa !in m.frames
  {
    MapsMeans(m, dir, f);
  }

  /** What was there before is still there. */
  lemma OldSpace(m0: Mach, m: Mach, d: nat, dir: nat, f: map<nat, Pg>, g: map<nat, Pg>)
    requires Maps(m0, dir, f) && Maps(m, d, g) && TablesAdded(m0, m, d) && m.frames <= m0.frames
             && m.bytes.Keys == m0.bytes.Keys
    ensures Maps(m, dir, f)
  {
    assert Look(0);
    EntriesKept(m0, m, dir);
  }

  lemma CopiedMore(m0: Mach, m: Mach, n: Mach, f: map<nat, Pg>, d: nat, v: nat, g: map<nat, Pg>, a: nat,
                   ap: nat)
    requires Copied(m0, m, f, d, v, g) && v in f && ap == f[v].ap && a in m.frames && a in m.bytes && f[v].pa in m.bytes
    requires n.frames == m.frames - {a} && n.bytes == m.bytes[a := m.bytes[f[v].pa]]
    requires Maps(n, d, g[v := Pg(a, ap)]) && Elsewhere(m, n, d) && Drawn(m, n, d, {v / 256})
    ensures Copied(m0, n, f, d, v + 1, g[v := Pg(a, ap)])
  {
    var x := Pg(a, ap);
    CopiedMeans(m0, m, f, d, v, g);
    PoolMeans(m, d, g);
    AddedMore(m0, m, n, d, g);
    FramesMore(g, v, x);
    FrameCopied(m0.frames, m.frames, Frames(g), a);
    RangeMore(g, v, v, x);
    BytesCopied(m0, m, n, f, g, v, a);
    CopiedTables(m0, m, f, d, v, g);
    TablesCopied(m0, m, n, d, v);
  }

  lemma TablesCopied(m0: Mach, m: Mach, n: Mach, d: nat, v: nat)
    requires Dirs(m, d) == Megs(0, v) && |m.pool| + 1 + |Megs(0, v)| == |m0.pool| && Drawn(m, n, d, {v / 256})
    ensures Dirs(n, d) == Megs(0, v + 1) && |n.pool| + 1 + |Megs(0, v + 1)| == |m0.pool|
  {
    assert Spot(0);
    MegsMore(0, v);
  }

  /** copyuvm at page v: the pool is empty, and a frame is left for a page that needs a table. */
  lemma CopiedPage(m0: Mach, m: Mach, o: Mach, n: Mach, f: map<nat, Pg>, d: nat, v: nat, g: map<nat, Pg>, a: nat,
                   ap: nat)
    requires Copied(m0, m, f, d, v, g) && v in f && ap == f[v].ap && a in m.frames && a in m.bytes && f[v].pa in m.bytes
    requires o.tables == m.tables && o.pool == m.pool && o.bytes.Keys == m.bytes.Keys && Elsewhere(m, o, d)
    requires n.frames == m.frames - {a} && n.bytes == m.bytes[a := m.bytes[f[v].pa]]
    requires Maps(n, d, g[v := Pg(a, ap)]) && Elsewhere(o, n, d) && Drawn(o, n, d, {v / 256})
    ensures Copied(m0, n, f, d, v + 1, g[v := Pg(a, ap)])
  {
    CopiedMeans(m0, m, f, d, v, g);
    SameDrawn(m, o, n, d, {v / 256});
    MapsMeans(m, d, g);
    ElsewhereTrans(m, o, n, d);
    CopiedMore(m0, m, n, f, d, v, g, a, ap);
  }

  lemma CopyShort(m0: Mach, m: Mach, f: map<nat, Pg>, d: nat, v: nat, g: map<nat, Pg>, last: nat)
    requires Copied(m0, m, f, d, v, g) && v < last && m.frames != {} && m.pool == {} && v / 256 !in Dirs(m, d)
    ensures 1 + |Reached(m0, 0, last)| > |m0.pool|
  {
    CopiedTables(m0, m, f, d, v, g);
    ReachedTo(m0, 0, v, last, |m.frames|);
    MegsMore(0, v);
    SetSizes(Megs(0, v + 1), Reached(m0, 0, last));
  }

  lemma CopyEnough(m0: Mach, m: Mach, f: map<nat, Pg>, d: nat, v: nat, g: map<nat, Pg>, last: nat)
    requires Copied(m0, m, f, d, v, g) && v <= last && (v == last || m.frames == {})
    ensures 1 + |Reached(m0, 0, last)| <= |m0.pool|
  {
    CopiedTables(m0, m, f, d, v, g);
    ReachedTo(m0, 0, v, last, |m.frames|);
  }

  lemma BytesCopied(m0: Mach, m: Mach, n: Mach, f: map<nat, Pg>, g: map<nat, Pg>, v: nat, a: nat)
    requires BytesKept(m0, m) && SameContents(m0, m, f, g) && v in f && v !in g && a in m0.frames && a in m.bytes
             && a !in Frames(g)
    requires f[v].pa in m0.bytes && f[v].pa !in m0.frames && f[v].pa in m.bytes
             && n.bytes == m.bytes[a := m.bytes[f[v].pa]]
    ensures BytesKept(m0, n) && SameContents(m0, n, f, g[v := Pg(a, f[v].ap)])
  {
    FreshBytes(m0, m, n, a);
    SameMore(m0, m, n, f, g, v, a);
  }

  lemma FrameCopied(free0: set<nat>, free: set<nat>, own: set<nat>, a: nat)
    requires free == free0 - own && free + own == free0 && a in free
    ensures free - {a} == free0 - (own + {a}) && (free - {a}) + (own + {a}) == free0 && |free - {a}| == |free| - 1
  {
  }

  lemma SameMore(m0: Mach, m: Mach, n: Mach, f: map<nat, Pg>, g: map<nat, Pg>, v: nat, a: nat)
    requires SameContents(m0, m, f, g) && BytesKept(m0, m) && v in f && v !in g && a in m.bytes && f[v].pa in m0.bytes
             && f[v].pa !in m0.frames
    requires n.bytes == m.bytes[a := m.bytes[f[v].pa]] && a !in Frames(g)
    ensures SameContents(m0, n, f, g[v := Pg(a, f[v].ap)])
  {
    var h := g[v := Pg(a, f[v].ap)];
    forall u | u in h
      ensures u in f && h[u].ap == f[u].ap && h[u].pa in n.bytes && f[u].pa in m0.bytes
              && n.bytes[h[u].pa] == m0.bytes[f[u].pa]
    {
      if u != v { assert u in g && g[u].pa in Frames(g); }
    }
  }

  /** Freeing the half-made copy leaves everything as it was. */
  lemma CopyUndone(m0: Mach, m: Mach, n: Mach, dir: nat, f: map<nat, Pg>, d: nat, v: nat, g: map<nat, Pg>)
    requires Maps(m0, dir, f) && Copied(m0, m, f, d, v, g) && Freed(m, n, d, g)
    ensures n.tables == m0.tables && n.pool == m0.pool && n.frames == m0.frames && BytesKept(m0, n) && Maps(n, dir, f)
  {
    CopiedMeans(m0, m, f, d, v, g);
    TablesUndone(m0, m, n, d, g);
    SameTables(m0, n, dir, f);
  }

  lemma TablesUndone(m0: Mach, m: Mach, n: Mach, d: nat, g: map<nat, Pg>)
    requires MachOk(m0) && Maps(m, d, g) && TablesAdded(m0, m, d) && Freed(m, n, d, g)
    ensures n.tables == m0.tables && n.pool == m0.pool
  {
    MapsMeans(m, d, g);
    assert Look(0);
    assert forall t :: t in m0.tables ==> !Mine(m, d, t);
    assert n.tables == m0.tables;
    assert forall p :: p in n.pool <==> p in m0.pool;
  }

  lemma SameTables(m: Mach, n: Mach, dir: nat, f: map<nat, Pg>)
    requires Maps(m, dir, f) && n.tables == m.tables && n.pool == m.pool && n.frames == m.frames
             && n.bytes.Keys == m.bytes.Keys
    ensures Maps(n, dir, f)
  {
    MapsMeans(m, dir, f);
    EntriesKept(m, n, dir);
  }

  /** Tables behind the first i directory entries. */
  ghost function Pts(m: Mach, dir: nat, i: nat): set<nat>
    requires dir in m.tables && i <= WORDS256
  {
    set k: nat | k < i && HasTable(m, dir, k) :: Pt(m, dir, k)
  }

  lemma PtsStep(m: Mach, dir: nat, i: nat)
    requires Shape(m, dir) && i < WORDS256
    ensures Pts(m, dir, i + 1) == Pts(m, dir, i) + (if HasTable(m, dir, i) then {Pt(m, dir, i)} else {})
    ensures dir !in Pts(m, dir, i)
  {
    var more := Pts(m, dir, i) + (if HasTable(m, dir, i) then {Pt(m, dir, i)} else {});
    forall t | t in more
      ensures t in Pts(m, dir, i + 1)
    {
      if t in Pts(m, dir, i) {
        var k: nat :| k < i && HasTable(m, dir, k) && Pt(m, dir, k) == t;
      }
    }
  }

  /** From m to n everything of directory dir, whose pages were f, became free; the rest is as before. */
  ghost predicate Freed(m: Mach, n: Mach, dir: nat, f: map<nat, Pg>) {
    && dir in m.tables && n.bytes == m.bytes && n.frames == m.frames + Frames(f)
    && (forall t :: t in n.tables <==> t in m.tables && !Mine(m, dir, t))
    && (forall t :: t in n.tables ==> n.tables[t] == m.tables[t])
    && (forall p :: p in n.pool <==> p in m.pool || Mine(m, dir, p))
  }

  lemma AllFreed(m: Mach, o: Mach, n: Mach, dir: nat, f: map<nat, Pg>)
    requires Maps(m, dir, f) && Shape(o, dir) && MachOk(o) && Elsewhere(m, o, dir) && o.pool == m.pool
             && o.bytes == m.bytes
    requires o.frames == m.frames + Frames(f) && n.frames == o.frames && n.bytes == o.bytes
    requires n.tables == o.tables - Pts(o, dir, WORDS256) - {dir} && n.pool == o.pool + Pts(o, dir, WORDS256) + {dir}
    ensures Freed(m, n, dir, f)
  {
    MapsMeans(m, dir, f);
    assert Look(0);
    forall t
      ensures t == dir || t in Pts(o, dir, WORDS256) <==> Mine(m, dir, t)
      ensures Mine(m, dir, t) ==> t in o.tables
    {
      PtsMine(o, dir, t);
    }
  }

  lemma PtsMine(m: Mach, dir: nat, t: nat)
    requires dir in m.tables
    ensures t == dir || t in Pts(m, dir, WORDS256) <==> Mine(m, dir, t)
  {
    if k :| 0 <= k < WORDS256 && HasTable(m, dir, k) && Pt(m, dir, k) == t {
      assert t in Pts(m, dir, WORDS256);
    }
  }

  lemma CutRange(f: map<nat, Pg>, n: nat, k: nat)
    requires Upto(f, n)
    ensures Upto(Cut(f, k), if k < n then k else n)
  {
  }

  lemma OneRange(f: map<nat, Pg>, a: nat, b: nat)
    requires Upto(f, a)
    ensures Upto(f, b) <==> a == b
  {
    assert a in f <==> 0 <= a < a;
    assert b in f <==> 0 <= b < a;
  }

  lemma WrappedSum(sz: nat, n: int)
    requires sz < UADDR_SZ && -0x8000_0000 <= n < 0x8000_0000
    ensures (sz + n) % 0x1_0000_0000 == if sz + n >= 0 then sz + n else sz + n + 0x1_0000_0000
  {
  }

  lemma RoundsUp(sz: nat, newsz: nat)
    ensures newsz >= sz ==> Pages(newsz) >= Pages(sz)
    ensures newsz <= sz ==> Pages(newsz) <= Pages(sz)
    ensures sz > 0 ==> Pages(sz) > 0
  {
  }

  /** allocuvm has come from page v0 to page v. */
  ghost predicate Grown(m0: Mach, m: Mach, dir: nat, f0: map<nat, Pg>, v0: nat, v: nat, f: map<nat, Pg>) {
    forall k {:trigger Glance(k)} :: Glance(k) ==>
      && MachOk(m0) && Maps(m, dir, f) && Elsewhere(m0, m, dir) && BytesKept(m0, m) && Upto(f, v) && v0 <= v
      && Cut(f, v0) == f0
      && m.frames == m0.frames - Frames(f) && m.frames + Frames(f) == m0.frames + Frames(f0) && m0.frames !! Frames(f0)
      && |m.frames| + (v - v0) == |m0.frames| && NewPages(m0, m, f0, f) && Drawn(m0, m, dir, Megs(v0, v))
  }

  // ---------------------------------------------------------------- tables taken from the pool

  /** The megabyte of page v, which one table covers. */
  function Meg(v: nat): nat { v / 256 }

  /** The megabytes of pages a up to b. */
  ghost function Megs(a: nat, b: nat): set<nat> {
    set v | a <= v < b :: Meg(v)
  }

  function Least(x: nat, y: int): nat
    requires y >= 0
  {
    if x < y then x else y
  }

  /** The megabytes of pages v0 up to v, as far as there are frames for these. */
  ghost function Reached(m: Mach, v0: nat, v: nat): set<nat> {
    if v0 <= v then Megs(v0, v0 + Least(|m.frames|, v - v0)) else {}
  }

  /** The pool has the tables for these that the directory lacks. */
  ghost predicate TablesEnough(m: Mach, dir: nat, v0: nat, v: nat) {
    |Reached(m, v0, v) - Dirs(m, dir)| <= |m.pool|
  }

  /** From m0 to m the directory got tables for entries e as far as it had none, out of the pool. */
  ghost predicate Drawn(m0: Mach, m: Mach, dir: nat, e: set<nat>) {
    forall k {:trigger Spot(k)} :: Spot(k) ==>
      && dir in m0.tables && dir in m.tables && Dirs(m, dir) == Dirs(m0, dir) + e
      && |m.pool| + |Dirs(m, dir)| == |m0.pool| + |Dirs(m0, dir)|
  }

  lemma DrawnNone(m: Mach, dir: nat)
    requires dir in m.tables
    ensures Drawn(m, m, dir, {})
  {
    assert Dirs(m, dir) + {} == Dirs(m, dir);
  }

  lemma DrawnStart(m: Mach, dir: nat, f: map<nat, Pg>)
    requires Maps(m, dir, f)
    ensures Drawn(m, m, dir, {})
  {
    MapsMeans(m, dir, f);
    DrawnNone(m, dir);
  }

  lemma DrawnHad(m: Mach, dir: nat, k: nat)
    requires k in Dirs(m, dir)
    ensures Drawn(m, m, dir, {k})
  {
    assert Dirs(m, dir) + {k} == Dirs(m, dir);
  }

  lemma DrawnTable(m: Mach, dir: nat, k: nat, p: nat, n: Mach)
    requires dir in m.tables && k < WORDS256 && !HasTable(m, dir, k) && p in m.pool && p !in m.tables && p % 1024 == 0
    requires n == m.(tables := m.tables[p := Empty()][dir := m.tables[dir][k := Pde(p)]], pool := m.pool - {p})
    ensures Drawn(m, n, dir, {k})
  {
    PdeFaithful(p);
    assert n.tables[dir] == m.tables[dir][k := Pde(p)];
    assert Dirs(n, dir) == Dirs(m, dir) + {k};
  }

  lemma DrawnTwice(m0: Mach, m1: Mach, m2: Mach, dir: nat, d: set<nat>, e: set<nat>, all: set<nat>)
    requires Drawn(m0, m1, dir, d) && Drawn(m1, m2, dir, e) && all == d + e
    ensures Drawn(m0, m2, dir, all)
  {
    assert Spot(0);
    assert Dirs(m0, dir) + d + e == Dirs(m0, dir) + all;
  }

  /** Writing a word of a table changes no directory entry. */
  lemma EntryDrawn(m0: Mach, m: Mach, n: Mach, dir: nat, f: map<nat, Pg>, k: nat)
    requires Maps(m, dir, f) && dir in m.tables && k < WORDS256 && HasTable(m, dir, k)
    requires var pt := Pt(m, dir, k); n.pool == m.pool && pt in n.tables && n.tables == m.tables[pt := n.tables[pt]]
    ensures forall e :: Drawn(m0, m, dir, e) ==> Drawn(m0, n, dir, e)
  {
    MapsMeans(m, dir, f);
    assert n.tables[dir] == m.tables[dir];
    assert Dirs(n, dir) == Dirs(m, dir);
    forall e | Drawn(m0, m, dir, e)
      ensures Drawn(m0, n, dir, e)
    {
      assert Spot(0);
    }
  }

  lemma SameDirs(m: Mach, n: Mach, dir: nat)
    requires n.tables == m.tables
    ensures Dirs(n, dir) == Dirs(m, dir)
  {
  }

  lemma SameDrawn(m: Mach, o: Mach, n: Mach, dir: nat, e: set<nat>)
    requires o.tables == m.tables && o.pool == m.pool && Drawn(o, n, dir, e)
    ensures Drawn(m, n, dir, e)
  {
    assert Spot(0);
    assert Dirs(o, dir) == Dirs(m, dir);
  }

  lemma MegsMore(a: nat, v: nat)
    requires a <= v
    ensures Megs(a, v + 1) == Megs(a, v) + {v / 256}
  {
    assert Meg(v) in Megs(a, v + 1);
  }

  lemma MegsIn(a: nat, v: nat, b: nat)
    requires v <= b
    ensures Megs(a, v) <= Megs(a, b)
  {
  }

  lemma SetSizes(a: set<nat>, b: set<nat>)
    ensures |a + b| == |a| + |b - a|
    ensures a <= b ==> |a| <= |b|
  {
    assert a + b == a + (b - a);
    if a <= b { assert b == a + (b - a); }
  }

  /** The pool ran out at page v, for which there is a frame. */
  lemma PoolShort(m0: Mach, m: Mach, dir: nat, v0: nat, v: nat, all: set<nat>)
    requires v0 <= v && Drawn(m0, m, dir, Megs(v0, v)) && m.pool == {} && v / 256 !in Dirs(m, dir)
             && Megs(v0, v + 1) <= all
    ensures |all - Dirs(m0, dir)| > |m0.pool|
  {
    assert Spot(0);
    var d, e := Dirs(m0, dir), Megs(v0, v);
    SetSizes(d, e);
    MegsMore(v0, v);
    SetSizes((e - d) + {v / 256}, all - d);
  }

  lemma PoolEnough(m0: Mach, m: Mach, dir: nat, e: set<nat>)
    requires Drawn(m0, m, dir, e)
    ensures |e - Dirs(m0, dir)| <= |m0.pool|
  {
    assert Spot(0);
    SetSizes(Dirs(m0, dir), e);
  }

  lemma OneMegabyte(m: Mach, dir: nat)
    requires |m.pool| == 1
    ensures TablesEnough(m, dir, 0, 1)
  {
    assert Reached(m, 0, 1) <= {0};
    SetSizes(Reached(m, 0, 1) - Dirs(m, dir), {0});
  }

  /** The loop came to an end at page v, the last one or the first without a frame. */
  lemma AllDrawn(m0: Mach, m: Mach, dir: nat, v0: nat, v: nat, last: nat)
    requires v0 <= v <= last && |m.frames| + (v - v0) == |m0.frames| && (v == last || m.frames == {})
    requires Drawn(m0, m, dir, Megs(v0, v))
    ensures TablesEnough(m0, dir, v0, last) && Drawn(m0, m, dir, Reached(m0, v0, last))
  {
    ReachedTo(m0, v0, v, last, |m.frames|);
    PoolEnough(m0, m, dir, Megs(v0, v));
  }

  /** allocuvm or copyuvm at page v, with as many frames left as say so. */
  lemma ReachedTo(m: Mach, v0: nat, v: nat, last: nat, left: nat)
    requires v0 <= v <= last && left + (v - v0) == |m.frames|
    ensures v == last || left == 0 ==> Reached(m, v0, last) == Megs(v0, v)
    ensures v < last && left > 0 ==> Megs(v0, v + 1) <= Reached(m, v0, last)
  {
  }

  ghost predicate NewPages(m0: Mach, m: Mach, f0: map<nat, Pg>, f: map<nat, Pg>) {
    forall v ::
      v in f && v !in f0 ==>
          f[v].ap == AP_KU && f[v].pa in m0.frames && f[v].pa in m.bytes && m.bytes[f[v].pa] == ZeroPage()
  }

  /** A space of size sz has grown to size sz': the old pages, and new zeroed ones in frames that were free. */
  ghost predicate GrownBy(m0: Mach, m: Mach, f: map<nat, Pg>, g: map<nat, Pg>, sz: nat, sz': nat) {
    && Upto(g, Pages(sz')) && Cut(g, Pages(sz)) == f && NewPages(m0, m, f, g) && m.frames == m0.frames - Frames(g)
  }

  lemma GrownFrames(m0: Mach, m: Mach, dir: nat, f0: map<nat, Pg>, v0: nat, v: nat, f: map<nat, Pg>)
    requires Grown(m0, m, dir, f0, v0, v, f)
    ensures |m.frames| + (v - v0) == |m0.frames| && v0 <= v && Drawn(m0, m, dir, Megs(v0, v))
  {
    assert Glance(0);
  }

  lemma GrownMeans(m0: Mach, m: Mach, dir: nat, f0: map<nat, Pg>, v0: nat, v: nat, f: map<nat, Pg>)
    requires Grown(m0, m, dir, f0, v0, v, f)
    ensures MachOk(m0) && Maps(m, dir, f) && Elsewhere(m0, m, dir) && BytesKept(m0, m) && Upto(f, v) && v0 <= v
            && Cut(f, v0) == f0
    ensures m.frames == m0.frames - Frames(f) && m.frames + Frames(f) == m0.frames + Frames(f0)
            && m0.frames !! Frames(f0)
    ensures |m.frames| + (v - v0) == |m0.frames| && NewPages(m0, m, f0, f)
  {
    assert Glance(0);
  }

  lemma GrownStart(m: Mach, dir: nat, f: map<nat, Pg>, v: nat)
    requires Maps(m, dir, f) && Upto(f, v)
    ensures Grown(m, m, dir, f, v, v, f)
  {
    MapsMeans(m, dir, f);
    ElsewhereSelf(m, dir);
    FramesApart(m, dir, f);
    assert Cut(f, v) == f;
    DrawnNone(m, dir);
    assert Megs(v, v) == {};
  }

  lemma GrownMore(m0: Mach, m: Mach, n: Mach, dir: nat, f0: map<nat, Pg>, v0: nat, v: nat, f: map<nat, Pg>, a: nat)
    requires Grown(m0, m, dir, f0, v0, v, f) && a in m.frames && n.frames == m.frames - {a}
             && n.bytes == m.bytes[a := ZeroPage()] && a in m.bytes
    requires Maps(n, dir, f[v := Pg(a, AP_KU)]) && Elsewhere(m, n, dir) && Drawn(m, n, dir, {v / 256})
    ensures Grown(m0, n, dir, f0, v0, v + 1, f[v := Pg(a, AP_KU)])
  {
    var g := f[v := Pg(a, AP_KU)];
    GrownMeans(m0, m, dir, f0, v0, v, f);
    ElsewhereTrans(m0, m, n, dir);
    FramesMore(f, v, Pg(a, AP_KU));
    FrameMoved(m0.frames, m.frames, Frames(f0), Frames(f), a);
    RangeMore(f, v0, v, Pg(a, AP_KU));
    NewPageMore(m0, m, n, f0, f, v, a);
    FreshBytes(m0, m, n, a);
    GrownFrames(m0, m, dir, f0, v0, v, f);
    MegsMore(v0, v);
    DrawnTwice(m0, m, n, dir, Megs(v0, v), {v / 256}, Megs(v0, v + 1));
  }

  lemma RangeMore(f: map<nat, Pg>, v0: nat, v: nat, g: Pg)
    requires Upto(f, v) && v0 <= v
    ensures Upto(f[v := g], v + 1) && Cut(f[v := g], v0) == Cut(f, v0)
  {
  }

  lemma FreshBytes(m0: Mach, m: Mach, n: Mach, a: nat)
    requires BytesKept(m0, m) && a in m0.frames && a in m.bytes && n.bytes.Keys == m.bytes.Keys
    requires forall b :: b in m.bytes && b != a ==> n.bytes[b] == m.bytes[b]
    ensures BytesKept(m0, n)
  {
  }

  lemma NewPageMore(m0: Mach, m: Mach, n: Mach, f0: map<nat, Pg>, f: map<nat, Pg>, v: nat, a: nat)
    requires NewPages(m0, m, f0, f) && v !in f && a in m0.frames && a in m.bytes && n.bytes == m.bytes[a := ZeroPage()]
    ensures NewPages(m0, n, f0, f[v := Pg(a, AP_KU)])
  {
    var g := f[v := Pg(a, AP_KU)];
    forall u | u in g && u !in f0
      ensures g[u].ap == AP_KU && g[u].pa in m0.frames && g[u].pa in n.bytes && n.bytes[g[u].pa] == ZeroPage()
    {
      if u != v { assert f[u].pa in m.bytes && m.bytes[f[u].pa] == ZeroPage(); }
    }
  }

  /** A frame goes from the free ones to the mapped ones. */
  lemma FrameMoved(free0: set<nat>, free: set<nat>, own0: set<nat>, own: set<nat>, a: nat)
    requires free == free0 - own && free + own == free0 + own0 && a in free
    ensures free - {a} == free0 - (own + {a}) && (free - {a}) + (own + {a}) == free0 + own0
            && |free - {a}| == |free| - 1
  {
  }

  lemma FramesApart(m: Mach, dir: nat, f: map<nat, Pg>)
    requires Maps(m, dir, f)
    ensures m.frames !! Frames(f)
  {
    MapsMeans(m, dir, f);
  }

  /** deallocuvm has come from page lo to page v. */
  ghost predicate Shrunk(m0: Mach, m: Mach, dir: nat, f0: map<nat, Pg>, lo: nat, v: nat, f: map<nat, Pg>) {
    forall k {:trigger Glance(k)} :: Glance(k) ==>
      && f == Without(f0, lo, v) && MachOk(m0) && Maps(m, dir, f) && Elsewhere(m0, m, dir) && m.pool == m0.pool
      && m.frames + Frames(f) == m0.frames + Frames(f0) && m.frames !! Frames(f)
  }

  lemma ShrunkStart(m: Mach, dir: nat, f: map<nat, Pg>, lo: nat)
    requires Maps(m, dir, f)
    ensures Shrunk(m, m, dir, f, lo, lo, f)
  {
    MapsMeans(m, dir, f);
    ElsewhereSelf(m, dir);
    FramesApart(m, dir, f);
    assert Without(f, lo, lo) == f;
  }

  lemma ShrunkMeans(m0: Mach, m: Mach, dir: nat, f0: map<nat, Pg>, lo: nat, v: nat, f: map<nat, Pg>)
    requires Shrunk(m0, m, dir, f0, lo, v, f)
    ensures f == Without(f0, lo, v) && MachOk(m0) && Maps(m, dir, f) && Elsewhere(m0, m, dir) && m.pool == m0.pool
    ensures m.frames + Frames(f) == m0.frames + Frames(f0) && m.frames !! Frames(f)
  {
    assert Glance(0);
  }

  lemma ShrunkSkip(m0: Mach, m: Mach, dir: nat, f0: map<nat, Pg>, n0: nat, lo: nat, v: nat, f: map<nat, Pg>, w: nat)
    requires Shrunk(m0, m, dir, f0, lo, v, f) && Upto(f0, n0) && n0 <= v && n0 <= w
    ensures Shrunk(m0, m, dir, f0, lo, w, f)
  {
    ShrunkMeans(m0, m, dir, f0, lo, v, f);
    WithoutRest(f0, n0, lo, v, w);
  }

  lemma ShrunkClear(m0: Mach, m: Mach, n: Mach, dir: nat, f0: map<nat, Pg>, lo: nat, v: nat, f: map<nat, Pg>)
    requires Shrunk(m0, m, dir, f0, lo, v, f) && lo <= v
    requires Maps(n, dir, f - {v}) && Elsewhere(m, n, dir) && n.pool == m.pool && (v !in f ==> n == m)
    requires v in f ==>
                 n.frames == m.frames + {f[v].pa} && Frames(f - {v}) == Frames(f) - {f[v].pa} && f[v].pa in Frames(f)
    ensures Shrunk(m0, n, dir, f0, lo, v + 1, f - {v})
  {
    ShrunkMeans(m0, m, dir, f0, lo, v, f);
    ElsewhereTrans(m0, m, n, dir);
    WithoutStep(f0, lo, v);
    if v !in f { assert f - {v} == f; }
  }
}
