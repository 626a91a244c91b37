/**
 All address spaces of the machine together (source/vm.c): their tables and frames
 are apart, and every operation on one of them leaves the others what they are.
 */
module Spaces {
  import opened Wrappers
  import opened Folding
  import opened PageTables
  import opened Vm

  type Map = map<nat, Pg>

  /** Directories d and e share neither a table nor a frame. */
  ghost predicate Apart(m: Mach, d: nat, f: Map, e: nat, g: Map) {
    && d in m.tables && e in m.tables && (forall t :: !(Mine(m, d, t) && Mine(m, e, t))) && Frames(f) !! Frames(g)
  }

  /** `all` gives each directory in use its page map. */
  ghost predicate AllApart(m: Mach, all: map<nat, Map>) {
    && (forall d :: d in all ==> Maps(m, d, all[d]))
    && (forall d, e :: d in all && e in all && d != e ==> Apart(m, d, all[d], e, all[e]))
  }

  /** A space whose tables are not touched and whose frames are not freed is what it was. */
  lemma SpaceKept(m: Mach, n: Mach, e: nat, g: Map)
    requires Maps(m, e, g) && MachOk(n) && n.bytes.Keys == m.bytes.Keys && n.frames !! Frames(g)
    requires forall t :: e in m.tables && Mine(m, e, t) && t in m.tables ==> t in n.tables && n.tables[t] == m.tables[t]
    ensures Maps(n, e, g) && e in m.tables && e in n.tables && forall t :: Mine(n, e, t) <==> Mine(m, e, t)
  {
    MapsMeans(m, e, g);
    EntriesKept(m, n, e);
    forall v | v in g
      ensures g[v].pa !in n.frames
    {
      assert g[v].pa in Frames(g);
    }
  }

  lemma MineThere(m: Mach, d: nat, f: Map, t: nat)
    requires Maps(m, d, f) && d in m.tables && Mine(m, d, t)
    ensures t in m.tables && t !in m.pool
  {
    MapsMeans(m, d, f);
  }

  /** An operation on directory d that touches only its own tables and frames, and free ones, keeps all spaces apart. */
  lemma OneChanged(m: Mach, n: Mach, all: map<nat, Map>, d: nat, f: Map)
    requires AllApart(m, all) && d in all && Maps(n, d, f) && Elsewhere(m, n, d) && n.bytes.Keys == m.bytes.Keys
    requires Frames(f) <= Frames(all[d]) + m.frames && n.frames <= m.frames + Frames(all[d])
    ensures AllApart(n, all[d := f])
  {
    forall e | e in all && e != d
      ensures Maps(n, e, all[e]) && Apart(n, d, f, e, all[e]) && Apart(n, e, all[e], d, f)
    {
      assert Apart(m, d, all[d], e, all[e]);
      OtherKept(m, n, all, d, f, e);
    }
    forall x, y | x in all && y in all && x != y && x != d && y != d
      ensures Apart(n, x, all[x], y, all[y])
    {
      assert Apart(m, x, all[x], y, all[y]) && Apart(m, d, all[d], x, all[x]) && Apart(m, d, all[d], y, all[y]);
      OtherKept(m, n, all, d, f, x);
      OtherKept(m, n, all, d, f, y);
    }
  }

  lemma OtherKept(m: Mach, n: Mach, all: map<nat, Map>, d: nat, f: Map, e: nat)
    requires d in all && e in all && e != d && Maps(m, d, all[d]) && Maps(m, e, all[e])
             && Apart(m, d, all[d], e, all[e])
    requires Maps(n, d, f) && Elsewhere(m, n, d) && n.bytes.Keys == m.bytes.Keys
    requires Frames(f) <= Frames(all[d]) + m.frames && n.frames <= m.frames + Frames(all[d])
    ensures Maps(n, e, all[e]) && Apart(n, d, f, e, all[e]) && forall t :: Mine(n, e, t) <==> Mine(m, e, t)
  {
    MapsMeans(n, d, f);
    FramesApart(m, e, all[e]);
    assert Look(0);
    SpaceKept(m, n, e, all[e]);
    forall t
      ensures !(Mine(n, d, t) && Mine(n, e, t))
    {
      if Mine(m, e, t) { MineThere(m, e, all[e], t); }
    }
  }

  /** A new directory whose tables and frames were free. */
  lemma OneAdded(m: Mach, n: Mach, all: map<nat, Map>, d: nat, f: Map)
    requires AllApart(m, all) && MachOk(m) && d !in all && Maps(n, d, f) && TablesAdded(m, n, d)
             && n.bytes.Keys == m.bytes.Keys
    requires Frames(f) <= m.frames && n.frames <= m.frames
    ensures AllApart(n, all[d := f])
  {
    forall e | e in all
      ensures Maps(n, e, all[e]) && Apart(n, d, f, e, all[e]) && Apart(n, e, all[e], d, f)
    {
      OldKept(m, n, all, d, f, e);
    }
    forall x, y | x in all && y in all && x != y
      ensures Apart(n, x, all[x], y, all[y])
    {
      assert Apart(m, x, all[x], y, all[y]);
      OldKept(m, n, all, d, f, x);
      OldKept(m, n, all, d, f, y);
    }
  }

  lemma OldKept(m: Mach, n: Mach, all: map<nat, Map>, d: nat, f: Map, e: nat)
    requires e in all && Maps(m, e, all[e]) && MachOk(m) && Maps(n, d, f) && TablesAdded(m, n, d)
             && n.bytes.Keys == m.bytes.Keys
    requires Frames(f) <= m.frames && n.frames <= m.frames
    ensures Maps(n, e, all[e]) && Apart(n, d, f, e, all[e]) && e in m.tables && forall t ::
              Mine(n, e, t) <==> Mine(m, e, t)
  {
    MapsMeans(n, d, f);
    FramesApart(m, e, all[e]);
    assert Look(0);
    SpaceKept(m, n, e, all[e]);
    forall t
      ensures !(Mine(n, d, t) && Mine(n, e, t))
    {
      if Mine(m, e, t) { MineThere(m, e, all[e], t); }
    }
  }

  /** A directory that was given back with all it had. */
  lemma OneGone(m: Mach, n: Mach, all: map<nat, Map>, d: nat)
    requires AllApart(m, all) && d in all && Freed(m, n, d, all[d])
    ensures MachOk(n) && AllApart(n, all - {d})
  {
    FreedOk(m, n, d, all[d]);
    forall e | e in all && e != d
      ensures Maps(n, e, all[e]) && e in m.tables && e in n.tables && forall t :: Mine(n, e, t) <==> Mine(m, e, t)
    {
      assert Apart(m, d, all[d], e, all[e]);
      FramesApart(m, e, all[e]);
      MapsMeans(m, e, all[e]);
      SpaceKept(m, n, e, all[e]);
    }
    forall x, y | x in all && y in all && x != y && x != d && y != d
      ensures Apart(n, x, all[x], y, all[y])
    {
      assert Apart(m, x, all[x], y, all[y]);
    }
  }

  lemma FreedOk(m: Mach, n: Mach, d: nat, f: Map)
    requires Maps(m, d, f) && Freed(m, n, d, f)
    ensures MachOk(n)
  {
    MapsMeans(m, d, f);
    forall p | p in n.pool
      ensures p % 1024 == 0 && p !in n.tables
    {
      if Mine(m, d, p) { MineThere(m, d, f, p); }
    }
    forall a | a in n.frames
      ensures a % PTE_SZ == 0 && a > 0 && a in n.bytes
    {
      if a in Frames(f) {
        var v :| v in f && f[v].pa == a;
        assert PgOk(f[v]);
      }
    }
  }

  // ---------------------------------------------------------------- every operation keeps them apart

  /** kpt_alloc of a directory, as for the first process and for exec. */
  method Make(m: Memory, ghost all: map<nat, Map>) returns (ok: bool, dir: nat, ghost all': map<nat, Map>)
    requires MachOk(m.View()) && AllApart(m.View(), all)
    modifies m
    ensures ok <==> old(m.pool) != {}
    ensures ok ==> MachOk(m.View()) && AllApart(m.View(), all') && dir !in all && all' == all[dir := map[]]
  {
    ghost var v := m.View();
    all' := all;
    ok, dir := m.NewSpace();
    if ok {
      NotYet(v, all, dir);
      all' := all[dir := map[]];
      OneAdded(v, m.View(), all, dir, map[]);
      MapsMeans(m.View(), dir, map[]);
    }
  }

  lemma NotYet(m: Mach, all: map<nat, Map>, d: nat)
    requires AllApart(m, all) && d !in m.tables
    ensures d !in all
  {
    if d in all { MapsMeans(m, d, all[d]); }
  }

  /** allocuvm on one of the spaces. */
  method Grow(m: Memory, dir: nat, oldsz: nat, newsz: nat, ghost all: map<nat, Map>) returns (ok: bool, r: nat,
              ghost all': map<nat, Map>)
    requires AllApart(m.View(), all) && dir in all && Upto(all[dir], Pages(oldsz))
    modifies m
    ensures ok ==>
                AllApart(m.View(), all') && all'.Keys == all.Keys && forall e ::
                  e in all && e != dir ==> all'[e] == all[e]
    ensures ok ==> dir in all' && Upto(all'[dir], Pages(if r == 0 then oldsz else r))
    ensures ok == GrowOutcome(old(m.View()), dir, oldsz, newsz).0
    ensures ok ==> r == GrowOutcome(old(m.View()), dir, oldsz, newsz).1
  {
    ghost var v := m.View();
    all' := all;
    ghost var f: Map;
    ok, r, f := GrowMap(m, dir, oldsz, newsz, all[dir]);
    if ok {
      all' := all[dir := f];
      OneChanged(v, m.View(), all, dir, f);
    }
  }

  /** Whether allocuvm comes through, and what it returns if it does. */
  ghost function GrowOutcome(m: Mach, dir: nat, oldsz: nat, newsz: nat): (bool, nat) {
    if newsz >= UADDR_SZ then (true, 0)
    else if newsz < oldsz then (true, oldsz)
    else (TablesEnough(m, dir, Pages(oldsz), Pages(newsz)),
        if |m.frames| >= Pages(newsz) - Pages(oldsz) then newsz else 0)
  }

  method GrowMap(m: Memory, dir: nat, oldsz: nat, newsz: nat, ghost f0: Map) returns (ok: bool, r: nat, ghost f: Map)
    requires Maps(m.View(), dir, f0) && Upto(f0, Pages(oldsz))
    modifies m
    ensures ok ==>
                Maps(m.View(), dir, f) && Elsewhere(old(m.View()), m.View(), dir) && m.bytes.Keys == old(m.bytes.Keys)
    ensures ok ==> Frames(f) <= Frames(f0) + old(m.frames) && m.frames <= old(m.frames) + Frames(f0)
    ensures ok ==> Upto(f, Pages(if r == 0 then oldsz else r))
    ensures ok == GrowOutcome(old(m.View()), dir, oldsz, newsz).0
    ensures ok ==> r == GrowOutcome(old(m.View()), dir, oldsz, newsz).1
  {
    ok, r, f := m.Allocuvm(dir, oldsz, newsz, f0);
  }

  /** deallocuvm on one of the spaces. */
  method Shrink(m: Memory, dir: nat, oldsz: nat, newsz: nat, ghost all: map<nat, Map>) returns (ok: bool, r: nat,
                ghost all': map<nat, Map>)
    requires AllApart(m.View(), all) && dir in all && Upto(all[dir], Pages(oldsz)) && oldsz <= UADDR_SZ
    modifies m
    ensures ok && AllApart(m.View(), all') && all'.Keys == all.Keys && forall e ::
              e in all && e != dir ==> all'[e] == all[e]
    ensures dir in all' && all'[dir] == Cut(all[dir], Pages(newsz))
  {
    ghost var v := m.View();
    ghost var f: Map;
    ok, r, f := m.Deallocuvm(dir, oldsz, newsz, all[dir], Pages(oldsz));
    all' := all[dir := f];
    OneChanged(v, m.View(), all, dir, f);
  }

  /** copyuvm of one of the spaces. */
  method Copy(m: Memory, dir: nat, sz: nat, ghost all: map<nat, Map>) returns (ok: bool, r: Option<nat>,
              ghost all': map<nat, Map>)
    requires AllApart(m.View(), all) && dir in all && Upto(all[dir], Pages(sz)) && sz <= UADDR_SZ
    modifies m
    ensures ok ==> AllApart(m.View(), all')
    ensures ok && r.None? ==> all' == all
    ensures ok && r.Some? ==>
                r.value !in all && r.value in all' && all' == all[r.value := all'[r.value]]
                && Upto(all'[r.value], Pages(sz)) && SameContents(old(m.View()), m.View(), all[dir], all'[r.value])
    ensures ok <==> 1 + |Reached(old(m.View()), 0, Pages(sz))| <= |old(m.pool)|
    ensures ok ==> (r.Some? <==> |old(m.frames)| >= Pages(sz))
  {
    ghost var v := m.View();
    all' := all;
    ghost var g: Map;
    MapsMeans(v, dir, all[dir]);
    ok, r, g := m.Copyuvm(dir, sz, all[dir]);
    if ok && r.Some? {
      NotYet(v, all, r.value);
      all' := all[r.value := g];
      OneAdded(v, m.View(), all, r.value, g);
    } else if ok {
      AllSame(v, m.View(), all);
    }
  }

  lemma AllSame(m: Mach, n: Mach, all: map<nat, Map>)
    requires AllApart(m, all) && n.tables == m.tables && n.frames == m.frames && n.pool == m.pool
             && n.bytes.Keys == m.bytes.Keys
    ensures AllApart(n, all)
  {
    forall d | d in all
      ensures Maps(n, d, all[d]) && d in m.tables && forall t :: Mine(n, d, t) <==> Mine(m, d, t)
    {
      SameTables(m, n, d, all[d]);
      MapsMeans(m, d, all[d]);
      EntriesKept(m, n, d);
    }
    forall x, y | x in all && y in all && x != y
      ensures Apart(n, x, all[x], y, all[y])
    {
      assert Apart(m, x, all[x], y, all[y]);
    }
  }

  /** freevm of one of the spaces. */
  method Free(m: Memory, dir: nat, n: nat, ghost all: map<nat, Map>) returns (ok: bool, ghost all': map<nat, Map>)
    requires AllApart(m.View(), all) && dir in all && Upto(all[dir], n) && n <= PAGES
    modifies m
    ensures ok && MachOk(m.View()) && AllApart(m.View(), all') && all' == all - {dir}
  {
    ghost var v := m.View();
    ok := m.Freevm(dir, all[dir], n);
    all' := all - {dir};
    OneGone(v, m.View(), all, dir);
  }
}
