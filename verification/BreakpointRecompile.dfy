/**
 A recompile against the breakpoints of its page. The places they have are those of the deleted
 block, and they are brought up to date one after the other: whether that goes well is decided by
 the state before the first of them.
 */
module BreakpointRecompile {
  import opened Types
  import opened Breakpoint
  import opened BreakpointProof

  // ----- whose turn it is -----

  function StaleOwners(s: State, page: nat): set<Owner> { set o | o in s.data && AddrOf(s, o) / PAGE == page }

  function Rank(o: Owner): nat { match o case Regular(a) => a % PAGE case Stepper(i) => PAGE + i }

  /** The owners whose turn is still to come after `n` turns, and those that had it. */
  function Remaining(stale: set<Owner>, n: nat): set<Owner> { set o | o in stale && Rank(o) >= n }

  function Done(stale: set<Owner>, n: nat): set<Owner> { set o | o in stale && Rank(o) < n }

  lemma RankIsPlace(s: State, page: nat, o: Owner)
    requires ShapeOk(s) && o in StaleOwners(s, page)
    ensures o == OwnerAt(page, Rank(o)) && Rank(o) < PAGE + 2 && Concerned(s, page, o)
  {
  }

  lemma NextTurn(s: State, page: nat, n: nat)
    requires ShapeOk(s) && n < PAGE + 2
    ensures var stale, o := StaleOwners(s, page), OwnerAt(page, n);
            && Rank(o) == n && Remaining(stale, n) - {o} == Remaining(stale, n + 1)
            && (o in Remaining(stale, n) <==> Concerned(s, page, o))
            && Done(stale, n + 1) == (if Concerned(s, page, o) then Done(stale, n) + {o} else Done(stale, n))
            && (!Concerned(s, page, o) ==> Remaining(stale, n + 1) == Remaining(stale, n))
  {
    hide ShapeOk;
    var stale, o := StaleOwners(s, page), OwnerAt(page, n);
    forall x | x in stale ensures x == OwnerAt(page, Rank(x)) && Concerned(s, page, x) {
      RankIsPlace(s, page, x);
    }
  }

  lemma AllRemain(stale: set<Owner>)
    ensures Remaining(stale, 0) == stale && Done(stale, 0) == {}
  {
  }

  lemma AllDone(s: State, page: nat)
    requires ShapeOk(s)
    ensures Remaining(StaleOwners(s, page), PAGE + 2) == {}
  {
    hide ShapeOk;
    forall o | o in StaleOwners(s, page) ensures Rank(o) < PAGE + 2 {
      RankIsPlace(s, page, o);
    }
  }

  lemma ConcernedSame(s: State, q: State, page: nat, o: Owner)
    requires SameCode(s, q)
    ensures Concerned(q, page, o) <==> Concerned(s, page, o)
    ensures o in s.data <==> o in q.data
    ensures AddrOf(s, o) == AddrOf(q, o)
  {
  }

  lemma UpdatedToNext(decode: Decoder, s: State, page: nat, n: nat)
    requires MemoryOk(s) && DecoderOk(decode) && n < PAGE + 2
    ensures var q, o := UpdatedTo(decode, s, page, n), OwnerAt(page, n);
            UpdatedTo(decode, s, page, n + 1) == if Concerned(s, page, o) then Update(decode, q, o) else q
  {
    hide MemoryOk, DecoderOk, Update, SameCode, OwnerAt, Concerned;
    ConcernedSame(s, UpdatedTo(decode, s, page, n), page, OwnerAt(page, n));
  }

  lemma {:induction false} UpdatedToNone(decode: Decoder, s: State, page: nat)
    requires MemoryOk(s) && DecoderOk(decode)
    ensures UpdatedTo(decode, s, page, 0) == s
  {
  }

  lemma {:induction false} UpdatedToSame(decode: Decoder, s: State, page: nat, n: nat)
    requires MemoryOk(s) && DecoderOk(decode) && n <= PAGE + 2
    ensures var u := UpdatedTo(decode, s, page, n); SameCode(s, u) && u.data.Keys == s.data.Keys && MemoryOk(u)
  {
  }

  // ----- the new block -----

  /** With the new block in, the page's owners are stale and nothing else is wrong, wherever the
      block was put. */
  lemma ReplacedGood(s: State, page: nat, code: Code, bytes: seq<Byte>)
    requires Good(s) && Fits(s, page, code, bytes)
    ensures var r := Replaced(s, page, code, bytes); GoodBut(r, StaleOwners(r, page))
  {
    hide Overlaid, CodeOk, InfoOk, StaleOwners;
    var r := Replaced(s, page, code, bytes);
    var stale := StaleOwners(r, page);
    ReplacedMemory(s, page, code, bytes);
    forall x | Has(r, x) ensures InfoOk(r, stale, x) {
      assert Has(s, x) && InfoOk(s, {}, x);
      ReplacedInfo(s, page, code, bytes, x);
    }
    forall p | p in r.dt ensures EntryOk(r, p) {
      assert EntryOk(s, p);
    }
    forall p | p in r.host ensures ByteOk(r, stale, p) {
      ReplacedByte(s, page, code, bytes, p);
    }
  }

  lemma ReplacedInfo(s: State, page: nat, code: Code, bytes: seq<Byte>, x: Id)
    requires MemoryOk(s) && Has(s, x) && InfoOk(s, {}, x) && Fits(s, page, code, bytes)
    ensures var r := Replaced(s, page, code, bytes); InfoOk(r, StaleOwners(r, page), x)
  {
    hide Overlaid, CodeOk;
    var p, r := Get(s, x).pos, Replaced(s, page, code, bytes);
    assert AddrOf(r, x.owner) == AddrOf(s, x.owner);
    if AddrOf(s, x.owner) / PAGE == page {
      assert x.owner in StaleOwners(r, page);
    } else if p != 0 {
      var g := AddrOf(s, x.owner) / PAGE;
      assert InBlock(s, g, p) && Apart(code, s.blocks[g]);
      assert page in s.blocks ==> Apart(s.blocks[page], s.blocks[g]);
    }
  }

  lemma ReplacedByte(s: State, page: nat, code: Code, bytes: seq<Byte>, p: nat)
    requires Good(s) && MemoryOk(s) && Fits(s, page, code, bytes) && p in Replaced(s, page, code, bytes).host
    ensures var r := Replaced(s, page, code, bytes); ByteOk(r, StaleOwners(r, page), p)
  {
    hide Overlaid, CodeOk, ShapeOk;
    var r := Replaced(s, page, code, bytes);
    if p in s.dt {
      assert EntryOk(s, p) && InfoOk(s, {}, s.dt[p]);
      var o := s.dt[p].owner;
      assert AddrOf(r, o) == AddrOf(s, o) && InBlock(s, AddrOf(s, o) / PAGE, p);
      if AddrOf(s, o) / PAGE == page {
        assert o in StaleOwners(r, page);
      } else {
        assert Apart(code, s.blocks[AddrOf(s, o) / PAGE]);
      }
    }
    if !InCode(code, p) { assert ByteOk(s, {}, p); }
  }

  // ----- what the turns will do -----

  function WithBreaks(m: map<nat, Byte>, at: set<nat>): (r: map<nat, Byte>)
    ensures r.Keys == m.Keys
  {
    map p | p in m :: if p in at then DEBUG_BREAK else m[p]
  }

  /** Where the used lines of an owner will be, if the bytes `at` are patched when it is decoded. */
  function UsedSpots(decode: Decoder, t: State, o: Owner, at: set<nat>): set<nat>
    requires MemoryOk(t) && o in t.data
  {
    CodeSameBut(t, t.(host := WithBreaks(t.pristine, at)));
    var spots := SpotsAt(decode, t.(host := WithBreaks(t.pristine, at)), AddrOf(t, o));
    set k | 0 <= k < |spots| && t.data[o][k].used :: spots[k]
  }

  /** The bytes that the first `n` turns patch. */
  function Planned(decode: Decoder, t: State, page: nat, n: nat): set<nat>
    requires MemoryOk(t)
    decreases n
  {
    if n == 0 then {}
    else
      var at, o := Planned(decode, t, page, n - 1), OwnerAt(page, n - 1);
      if Concerned(t, page, o) then at + UsedSpots(decode, t, o, at) else at
  }

  /** The bytes that owners still to come had patched in the deleted block. */
  function Pending(t: State, page: nat, n: nat): set<nat> {
    set p | p in t.dt && t.dt[p].owner in Remaining(StaleOwners(t, page), n)
  }

  /** The turn puts no patch on another of the new patches. */
  predicate MissesNew(decode: Decoder, t: State, page: nat, n: nat)
    requires MemoryOk(t)
  {
    var o, at := OwnerAt(page, n), Planned(decode, t, page, n);
    Concerned(t, page, o) ==> UsedSpots(decode, t, o, at) !! at
  }

  /** The turn puts no patch on a byte that a later turn forgets. */
  predicate MissesOld(decode: Decoder, t: State, page: nat, n: nat)
    requires MemoryOk(t)
  {
    var o, at := OwnerAt(page, n), Planned(decode, t, page, n);
    Concerned(t, page, o) ==> UsedSpots(decode, t, o, at) !! Pending(t, page, n + 1)
  }

  predicate TurnFree(decode: Decoder, t: State, page: nat, n: nat)
    requires MemoryOk(t)
  {
    MissesNew(decode, t, page, n) && MissesOld(decode, t, page, n)
  }

  ghost predicate NoClashes(decode: Decoder, t: State, page: nat)
    requires MemoryOk(t)
  {
    forall n :: 0 <= n < PAGE + 2 ==> TurnFree(decode, t, page, n)
  }

  // ----- the plan and the turns -----

  /** The lines of owners that have not had their turn. */
  ghost predicate LinesKept(t: State, u: State, done: set<Owner>) {
    forall x :: Has(t, x) ==>
      && Has(u, x) && Get(u, x).used == Get(t, x).used && (x.owner !in done ==> Get(u, x) == Get(t, x))
  }

  predicate PatchedBy(u: State, done: set<Owner>, p: nat) { p in u.dt && u.dt[p].owner in done }

  ghost predicate PlanKept(u: State, done: set<Owner>, plan: set<nat>) {
    forall p :: PatchedBy(u, done, p) <==> p in plan
  }

  ghost predicate Follows(decode: Decoder, t: State, page: nat, n: nat)
    requires MemoryOk(t) && DecoderOk(decode) && n <= PAGE + 2
  {
    var u, stale := UpdatedTo(decode, t, page, n), StaleOwners(t, page);
    && GoodBut(u, Remaining(stale, n)) && LinesKept(t, u, Done(stale, n))
    && PlanKept(u, Done(stale, n), Planned(decode, t, page, n))
  }

  /** A patched byte of the page's block belongs to an owner of the page. */
  lemma OwnerInBlock(u: State, rest: set<Owner>, page: nat, p: nat)
    requires GoodBut(u, rest) && InBlock(u, page, p) && p in u.dt
    ensures u.dt[p].owner in rest || u.dt[p].owner in StaleOwners(u, page)
  {
    assert EntryOk(u, p) && InfoOk(u, rest, u.dt[p]);
    var g := AddrOf(u, u.dt[p].owner) / PAGE;
    assert g != page && g in u.blocks ==> Apart(u.blocks[g], u.blocks[page]);
  }

  lemma StaleSame(t: State, u: State, page: nat)
    requires SameCode(t, u)
    ensures StaleOwners(u, page) == StaleOwners(t, page)
  {
  }

  /** The block as an owner finds it when its turn comes. */
  lemma TurnByte(t: State, u: State, page: nat, n: nat, plan: set<nat>, p: nat)
    requires GoodBut(u, Remaining(StaleOwners(t, page), n)) && PlanKept(u, Done(StaleOwners(t, page), n), plan)
    requires SameCode(t, u) && InBlock(t, page, p) && p in u.host
    ensures p in t.pristine && u.host[p] == WithBreaks(t.pristine, plan)[p]
  {
    hide StaleOwners, ShapeOk, MemoryOk;
    var stale := StaleOwners(t, page);
    StaleSame(t, u, page);
    assert ByteOk(u, Remaining(stale, n), p);
    if p in u.dt { OwnerInBlock(u, Remaining(stale, n), page, p); }
    assert PatchedBy(u, Done(stale, n), p) <==> p in plan;
  }

  lemma TurnSpots(decode: Decoder, t: State, u: State, page: nat, n: nat, plan: set<nat>, a: nat)
    requires MemoryOk(t) && MemoryOk(u) && a / PAGE == page
    requires GoodBut(u, Remaining(StaleOwners(t, page), n)) && PlanKept(u, Done(StaleOwners(t, page), n), plan)
    requires SameCode(t, u)
    ensures MemoryOk(t.(host := WithBreaks(t.pristine, plan)))
    ensures SpotsAt(decode, u, a) == SpotsAt(decode, t.(host := WithBreaks(t.pristine, plan)), a)
  {
    hide GoodBut, PlanKept, Remaining, Done, StaleOwners;
    var v := t.(host := WithBreaks(t.pristine, plan));
    CodeSameBut(t, v);
    if page in t.blocks {
      var c := t.blocks[page];
      CodeInHost(u, a);
      CodeInHost(v, a);
      hide MemoryOk;
      forall p | From(c, t.width, a) <= p < To(c, t.width, a) ensures u.host[p] == v.host[p] {
        TurnByte(t, u, page, n, plan, p);
      }
      var from, to := From(c, t.width, a), To(c, t.width, a);
      assert Bytes(u.host, from, to) == Bytes(v.host, from, to);
    }
  }

  /** Entries of owners that have not had their turn are those of the start. */
  lemma PendingSame(t: State, u: State, stale: set<Owner>, n: nat, p: nat)
    requires GoodBut(t, stale) && GoodBut(u, Remaining(stale, n)) && LinesKept(t, u, Done(stale, n)) && SameCode(t, u)
    ensures PatchedBy(u, Remaining(stale, n + 1), p) <==> PatchedBy(t, Remaining(stale, n + 1), p)
  {
    hide ShapeOk, MemoryOk;
    if PatchedBy(u, Remaining(stale, n + 1), p) {
      assert EntryOk(u, p) && Has(t, u.dt[p]) && InfoOk(t, stale, u.dt[p]);
    }
    if PatchedBy(t, Remaining(stale, n + 1), p) {
      assert EntryOk(t, p) && Has(u, t.dt[p]) && InfoOk(u, Remaining(stale, n), t.dt[p]);
    }
  }

  lemma FreeExactly(t: State, u: State, page: nat, n: nat, plan: set<nat>, p: nat)
    requires GoodBut(t, StaleOwners(t, page)) && ShapeOk(t) && n < PAGE + 2 && Concerned(t, page, OwnerAt(page, n))
    requires GoodBut(u, Remaining(StaleOwners(t, page), n)) && PlanKept(u, Done(StaleOwners(t, page), n), plan)
    requires LinesKept(t, u, Done(StaleOwners(t, page), n)) && SameCode(t, u) && InBlock(t, page, p)
    ensures FreeFor(u, OwnerAt(page, n), p) <==> p !in plan && p !in Pending(t, page, n + 1)
  {
    hide GoodBut, StaleOwners, ShapeOk, OwnerAt, LinesKept;
    var stale, o := StaleOwners(t, page), OwnerAt(page, n);
    StaleSame(t, u, page);
    NextTurn(t, page, n);
    PendingSame(t, u, stale, n, p);
    if p in u.dt { OwnerInBlock(u, Remaining(stale, n), page, p); }
    assert PatchedBy(u, Done(stale, n), p) <==> p in plan;
  }

  /** What an owner's turn needs to know of the turns before. */
  lemma {:induction false} TurnLooks(decode: Decoder, t: State, page: nat, n: nat)
    requires MemoryOk(t) && DecoderOk(decode)
    requires n < PAGE + 2 && Follows(decode, t, page, n) && Concerned(t, page, OwnerAt(page, n))
    ensures var u, o, plan := UpdatedTo(decode, t, page, n), OwnerAt(page, n), Planned(decode, t, page, n);
            var v := t.(host := WithBreaks(t.pristine, plan));
            && MemoryOk(u) && MemoryOk(v) && SameCode(t, u) && o in u.data && AddrOf(u, o) == AddrOf(t, o)
            && SpotsAt(decode, u, AddrOf(u, o)) == SpotsAt(decode, v, AddrOf(t, o))
            && (forall k :: 0 <= k < LINES ==> u.data[o][k].used == t.data[o][k].used)
  {
    var u, o, plan := UpdatedTo(decode, t, page, n), OwnerAt(page, n), Planned(decode, t, page, n);
    UpdatedToSame(decode, t, page, n);
    ConcernedSame(t, u, page, o);
    TurnSpots(decode, t, u, page, n, plan, AddrOf(t, o));
    hide GoodBut, UpdatedTo, Planned, MemoryOk, DecoderOk, SpotsAt, OwnerAt, StaleOwners, PlanKept, Remaining, Done;
    forall k | 0 <= k < LINES ensures u.data[o][k].used == t.data[o][k].used {
      assert Has(t, Id(o, k)) && Get(t, Id(o, k)).used == Get(u, Id(o, k)).used;
    }
  }

  /** The spots an owner's used lines get in its turn are the foretold ones. */
  lemma {:induction false} TurnUsed(decode: Decoder, t: State, page: nat, n: nat, p: nat)
    requires MemoryOk(t) && DecoderOk(decode)
    requires n < PAGE + 2 && Follows(decode, t, page, n) && Concerned(t, page, OwnerAt(page, n))
    ensures var u, o := UpdatedTo(decode, t, page, n), OwnerAt(page, n);
            && MemoryOk(u) && o in u.data
            && (!Misses(decode, u, o, p) <==> p in UsedSpots(decode, t, o, Planned(decode, t, page, n)))
            && (!Misses(decode, u, o, p) ==> InBlock(t, page, p))
  {
    hide Follows, UpdatedTo, Planned, MemoryOk, DecoderOk, SpotsAt, OwnerAt;
    TurnLooks(decode, t, page, n);
    var u, o := UpdatedTo(decode, t, page, n), OwnerAt(page, n);
    SpotsAtOk(decode, u, AddrOf(u, o));
  }

  /** An owner finds its spots free when its turn comes exactly as foretold. */
  lemma {:induction false} TurnExactly(decode: Decoder, t: State, page: nat, n: nat)
    requires MemoryOk(t) && ShapeOk(t) && DecoderOk(decode) && GoodBut(t, StaleOwners(t, page))
    requires n < PAGE + 2 && Follows(decode, t, page, n) && Concerned(t, page, OwnerAt(page, n))
    ensures var u, o := UpdatedTo(decode, t, page, n), OwnerAt(page, n);
            && MemoryOk(u) && o in u.data
            && (UsedFree(decode, u, o) <==> TurnFree(decode, t, page, n))
  {
    var u, o, plan := UpdatedTo(decode, t, page, n), OwnerAt(page, n), Planned(decode, t, page, n);
    var used := UsedSpots(decode, t, o, plan);
    TurnLooks(decode, t, page, n);
    hide GoodBut, UpdatedTo, Planned, MemoryOk, ShapeOk, DecoderOk, SpotsAt, OwnerAt, StaleOwners, FreeFor, Pending;
    hide PlanKept, Remaining, Done, UsedSpots, SameCode, LinesKept, Misses, UsedFree;
    forall p | p in used ensures FreeFor(u, o, p) <==> p !in plan && p !in Pending(t, page, n + 1) {
      TurnUsed(decode, t, page, n, p);
      FreeExactly(t, u, page, n, plan, p);
    }
    forall p ensures !Misses(decode, u, o, p) <==> p in used {
      TurnUsed(decode, t, page, n, p);
    }
    AllFree(decode, u, o, used);
  }

  lemma AllFree(decode: Decoder, u: State, o: Owner, used: set<nat>)
    requires MemoryOk(u) && o in u.data && forall p :: !Misses(decode, u, o, p) <==> p in used
    ensures UsedFree(decode, u, o) <==> forall p :: p in used ==> FreeFor(u, o, p)
  {
    hide MemoryOk, SpotsAt, FreeFor;
    var spots := SpotsAt(decode, u, AddrOf(u, o));
    if UsedFree(decode, u, o) {
      forall p | p in used ensures FreeFor(u, o, p) {
        assert !Misses(decode, u, o, p);
      }
    } else {
      var k :| 0 <= k < |spots| && u.data[o][k].used && !FreeFor(u, o, spots[k]);
      assert !Misses(decode, u, o, spots[k]);
    }
  }

  lemma TurnLines(decode: Decoder, t: State, u: State, done: set<Owner>, o: Owner)
    requires MemoryOk(u) && DecoderOk(decode) && o in u.data && LinesKept(t, u, done)
    ensures LinesKept(t, Update(decode, u, o), done + {o})
  {
    hide MemoryOk, DecoderOk, Update, SameCode;
    var r := Update(decode, u, o);
    forall x | Has(t, x)
      ensures Has(r, x) && Get(r, x).used == Get(t, x).used && (x.owner !in done + {o} ==> Get(r, x) == Get(t, x))
    {
      assert Has(u, x);
      if x.owner == o { UpdateLine(decode, u, o, x.sub); } else { UpdateOther(decode, u, o, x); }
    }
  }

  /** After an owner's turn, what it and its predecessors have patched is what they had and the
      spots of its used lines. */
  lemma TurnPlan(decode: Decoder, u: State, rest: set<Owner>, done: set<Owner>, o: Owner, p: nat)
    requires MemoryOk(u) && DecoderOk(decode) && o in u.data && o !in done && GoodBut(u, rest)
    requires GoodBut(Update(decode, u, o), rest - {o})
    ensures PatchedBy(Update(decode, u, o), done + {o}, p) <==> PatchedBy(u, done, p) || !Misses(decode, u, o, p)
  {
    hide MemoryOk, ShapeOk, DecoderOk, Update, SameCode, SpotsAt;
    var r, spots := Update(decode, u, o), SpotsAt(decode, u, AddrOf(u, o));
    if PatchedBy(r, done + {o}, p) {
      assert EntryOk(r, p);
      if r.dt[p].owner == o { UpdateLine(decode, u, o, r.dt[p].sub); } else { UpdateEntry(decode, u, o, p); }
    }
    if !Misses(decode, u, o, p) {
      var k :| 0 <= k < |spots| && u.data[o][k].used && spots[k] == p;
      UpdateLine(decode, u, o, k);
    } else if PatchedBy(u, done, p) {
      assert EntryOk(u, p);
      UpdateOther(decode, u, o, u.dt[p]);
      assert InfoOk(r, rest - {o}, u.dt[p]);
    }
  }

  lemma PlanStep(decode: Decoder, t: State, page: nat, n: nat)
    requires MemoryOk(t) && n < PAGE + 2
    ensures var at, o := Planned(decode, t, page, n), OwnerAt(page, n);
            Planned(decode, t, page, n + 1) == if Concerned(t, page, o) then at + UsedSpots(decode, t, o, at) else at
  {
  }

  lemma FollowsStart(decode: Decoder, t: State, page: nat)
    requires MemoryOk(t) && DecoderOk(decode) && GoodBut(t, StaleOwners(t, page))
    ensures Follows(decode, t, page, 0)
  {
    hide GoodBut, StaleOwners, UpdatedTo, MemoryOk, DecoderOk;
    AllRemain(StaleOwners(t, page));
    UpdatedToNone(decode, t, page);
  }

  lemma {:induction false} TurnPlanned(decode: Decoder, t: State, page: nat, n: nat, p: nat)
    requires MemoryOk(t) && DecoderOk(decode) && n < PAGE + 2
    requires Follows(decode, t, page, n) && Concerned(t, page, OwnerAt(page, n))
    requires var u, o, stale := UpdatedTo(decode, t, page, n), OwnerAt(page, n), StaleOwners(t, page);
             MemoryOk(u) && o in u.data && GoodBut(Update(decode, u, o), Remaining(stale, n) - {o})
    ensures var u, o, stale := UpdatedTo(decode, t, page, n), OwnerAt(page, n), StaleOwners(t, page);
            PatchedBy(Update(decode, u, o), Done(stale, n) + {o}, p) <==> p in Planned(decode, t, page, n + 1)
  {
    var u, o, stale := UpdatedTo(decode, t, page, n), OwnerAt(page, n), StaleOwners(t, page);
    var plan, done := Planned(decode, t, page, n), Done(stale, n);
    TurnUsed(decode, t, page, n, p);
    PlanStep(decode, t, page, n);
    DoneBefore(stale, o, n);
    hide GoodBut, UpdatedTo, Planned, MemoryOk, DecoderOk, OwnerAt, StaleOwners, UsedSpots;
    hide Remaining, Done, LinesKept, Misses, Update, SameCode, PatchedBy, Concerned;
    TurnPlan(decode, u, Remaining(stale, n), done, o, p);
    assert PatchedBy(u, done, p) <==> p in plan;
  }

  lemma FollowsNext(decode: Decoder, t: State, page: nat, n: nat)
    requires MemoryOk(t) && ShapeOk(t) && DecoderOk(decode) && GoodBut(t, StaleOwners(t, page))
    requires n < PAGE + 2 && Follows(decode, t, page, n) && TurnFree(decode, t, page, n)
    ensures Follows(decode, t, page, n + 1)
  {
    var u, o, stale := UpdatedTo(decode, t, page, n), OwnerAt(page, n), StaleOwners(t, page);
    NextTurn(t, page, n);
    PlanStep(decode, t, page, n);
    UpdatedToNext(decode, t, page, n);
    hide GoodBut, UpdatedTo, Planned, MemoryOk, ShapeOk, DecoderOk, OwnerAt, StaleOwners, UsedSpots;
    hide Remaining, Done, LinesKept, PlanKept, UsedFree, Update, SameCode, TurnFree, PatchedBy;
    if Concerned(t, page, o) {
      TurnExactly(decode, t, page, n);
      UpdateGood(decode, u, Remaining(stale, n), o);
      TurnLines(decode, t, u, Done(stale, n), o);
      var r, done := Update(decode, u, o), Done(stale, n) + {o};
      forall p ensures PatchedBy(r, done, p) <==> p in Planned(decode, t, page, n + 1) {
        TurnPlanned(decode, t, page, n, p);
      }
      PlanIs(r, done, Planned(decode, t, page, n + 1));
    }
  }

  lemma PlanIs(u: State, done: set<Owner>, plan: set<nat>)
    requires forall p :: PatchedBy(u, done, p) <==> p in plan
    ensures PlanKept(u, done, plan)
  {
  }

  lemma DoneBefore(stale: set<Owner>, o: Owner, n: nat)
    requires Rank(o) == n
    ensures o !in Done(stale, n)
  {
  }

  lemma {:induction false} FollowsTo(decode: Decoder, t: State, page: nat, n: nat)
    requires MemoryOk(t) && ShapeOk(t) && DecoderOk(decode) && GoodBut(t, StaleOwners(t, page)) && n <= PAGE + 2
    requires forall k :: 0 <= k < n ==> TurnFree(decode, t, page, k)
    ensures Follows(decode, t, page, n)
    decreases n
  {
    hide GoodBut, StaleOwners, MemoryOk, ShapeOk, DecoderOk, Follows, TurnFree;
    if n == 0 {
      FollowsStart(decode, t, page);
    } else {
      FollowsTo(decode, t, page, n - 1);
      FollowsNext(decode, t, page, n - 1);
    }
  }

  // ----- a turn that goes wrong -----

  /** An owner still to come had the byte patched in the deleted block. */
  predicate Threatens(u: State, rest: set<Owner>, x: Id, p: nat) {
    x.owner in rest && Has(u, x) && Get(u, x).patched && Get(u, x).pos == p
  }

  /** A line that has had its turn and is broken, or will be when the owner of `x` has its turn. */
  ghost predicate Doomed(u: State, rest: set<Owner>, w: Id, x: Id) {
    && Has(u, w) && Get(u, w).patched && w.owner !in rest
    && (Broken(u, w) || Threatens(u, rest, x, Get(u, w).pos))
  }

  lemma DoomedUpdate(decode: Decoder, u: State, rest: set<Owner>, o: Owner, w: Id, x: Id)
    requires MemoryOk(u) && DecoderOk(decode) && o in u.data && o in rest && Doomed(u, rest, w, x)
    ensures Doomed(Update(decode, u, o), rest - {o}, w, x)
  {
    hide MemoryOk, DecoderOk, Update, SameCode, Broken;
    var r, p := Update(decode, u, o), Get(u, w).pos;
    UpdateOther(decode, u, o, w);
    if Broken(u, w) {
      BrokenThroughUpdate(decode, u, o, w);
    } else if x.owner != o {
      UpdateOther(decode, u, o, x);
    } else {
      assert HasPatched(u, o, p);
      if p in r.dt && r.dt[p] == w { UpdateEntry(decode, u, o, p); }
      BrokenEntry(r, w);
    }
  }

  lemma BrokenEntry(s: State, w: Id)
    requires Has(s, w) && Get(s, w).patched && !(Get(s, w).pos in s.dt && s.dt[Get(s, w).pos] == w)
    ensures Broken(s, w)
  {
  }

  lemma {:induction false} DoomedStays(decode: Decoder, t: State, page: nat, m: nat, n: nat, w: Id, x: Id)
    requires MemoryOk(t) && ShapeOk(t) && DecoderOk(decode) && m <= n <= PAGE + 2
    requires Doomed(UpdatedTo(decode, t, page, m), Remaining(StaleOwners(t, page), m), w, x)
    ensures Doomed(UpdatedTo(decode, t, page, n), Remaining(StaleOwners(t, page), n), w, x)
    decreases n
  {
    hide StaleOwners, MemoryOk, ShapeOk, DecoderOk, Doomed, UpdatedTo, Update, SameCode, Remaining, Done, OwnerAt;
    if m < n {
      var u, o := UpdatedTo(decode, t, page, n - 1), OwnerAt(page, n - 1);
      DoomedStays(decode, t, page, m, n - 1, w, x);
      UpdatedToNext(decode, t, page, n - 1);
      UpdatedToSame(decode, t, page, n - 1);
      ConcernedSame(t, u, page, o);
      NextTurn(t, page, n - 1);
      if Concerned(t, page, o) { DoomedUpdate(decode, u, Remaining(StaleOwners(t, page), n - 1), o, w, x); }
    }
  }

  /** A line that is not to come any more keeps its place. */
  lemma {:induction false} LineStays(decode: Decoder, t: State, page: nat, m: nat, n: nat, w: Id)
    requires MemoryOk(t) && ShapeOk(t) && DecoderOk(decode) && m <= n <= PAGE + 2
    requires Has(UpdatedTo(decode, t, page, m), w) && w.owner !in Remaining(StaleOwners(t, page), m)
    ensures var v := UpdatedTo(decode, t, page, n);
            && Has(v, w) && Get(v, w) == Get(UpdatedTo(decode, t, page, m), w)
            && w.owner !in Remaining(StaleOwners(t, page), n)
    decreases n
  {
    hide StaleOwners, MemoryOk, ShapeOk, DecoderOk, UpdatedTo, Update, SameCode, Remaining, Done, OwnerAt, Get;
    if m < n {
      var u, o := UpdatedTo(decode, t, page, n - 1), OwnerAt(page, n - 1);
      LineStays(decode, t, page, m, n - 1, w);
      UpdatedToNext(decode, t, page, n - 1);
      UpdatedToSame(decode, t, page, n - 1);
      ConcernedSame(t, u, page, o);
      NextTurn(t, page, n - 1);
      if Concerned(t, page, o) { UpdateOther(decode, u, o, w); }
    }
  }

  /** Two lines on one byte after a turn that was not free; `w` is broken, and had its turn unless
      its byte was one of the deleted block. */
  ghost predicate Collide(r: State, rest: set<Owner>, w: Id, y: Id) {
    && Has(r, w) && Has(r, y) && w != y && Get(r, w).patched && Get(r, y).patched && Get(r, y).used
    && Get(r, w).pos == Get(r, y).pos != 0 && y.owner !in rest && Broken(r, w)
    && (w.owner !in rest ==> Get(r, w).used)
  }

  lemma TurnBreaks(decode: Decoder, t: State, page: nat, n: nat) returns (w: Id, y: Id)
    requires MemoryOk(t) && ShapeOk(t) && DecoderOk(decode) && GoodBut(t, StaleOwners(t, page))
    requires n < PAGE + 2 && Follows(decode, t, page, n) && !TurnFree(decode, t, page, n)
    ensures Collide(UpdatedTo(decode, t, page, n + 1), Remaining(StaleOwners(t, page), n + 1), w, y)
    ensures MissesOld(decode, t, page, n) ==> w.owner !in Remaining(StaleOwners(t, page), n + 1)
  {
    var u, o, stale := UpdatedTo(decode, t, page, n), OwnerAt(page, n), StaleOwners(t, page);
    NextTurn(t, page, n);
    UpdatedToNext(decode, t, page, n);
    TurnExactly(decode, t, page, n);
    ConcernedSame(t, u, page, o);
    hide GoodBut, UpdatedTo, Planned, MemoryOk, ShapeOk, DecoderOk, OwnerAt, StaleOwners, UsedSpots, SpotsAt;
    hide Remaining, Done, LinesKept, PlanKept, Update, SameCode, Pending, Broken, MissesOld, MissesNew, Collide;
    var spots := SpotsAt(decode, u, AddrOf(u, o));
    var k :| 0 <= k < |spots| && u.data[o][k].used && !FreeFor(u, o, spots[k]);
    y := Id(o, k);
    w := LineCollides(decode, u, Remaining(stale, n), o, k);
    assert !Misses(decode, u, o, spots[k]);
    if MissesOld(decode, t, page, n) { TurnMissesOld(decode, t, page, n, spots[k]); }
  }

  lemma LineCollides(decode: Decoder, u: State, rest: set<Owner>, o: Owner, k: nat) returns (w: Id)
    requires GoodBut(u, rest) && MemoryOk(u) && DecoderOk(decode) && o in u.data && o in rest
    requires var spots := SpotsAt(decode, u, AddrOf(u, o));
             k < |spots| && u.data[o][k].used && !FreeFor(u, o, spots[k])
    ensures Collide(Update(decode, u, o), rest - {o}, w, Id(o, k))
    ensures var p := SpotsAt(decode, u, AddrOf(u, o))[k]; p in u.dt && u.dt[p] == w
  {
    hide GoodBut, MemoryOk, DecoderOk, SpotsAt, Update, SameCode, Broken;
    w := UpdateBreaks(decode, u, rest, o, k);
    UpdateLine(decode, u, o, k);
    PlacesNotZero(decode, u, o, k);
    PatchedIsUsed(u, rest, w);
  }

  lemma {:induction false} TurnMissesOld(decode: Decoder, t: State, page: nat, n: nat, p: nat)
    requires MemoryOk(t) && DecoderOk(decode) && GoodBut(t, StaleOwners(t, page)) && n < PAGE + 2
    requires Follows(decode, t, page, n) && Concerned(t, page, OwnerAt(page, n)) && MissesOld(decode, t, page, n)
    requires var u, o := UpdatedTo(decode, t, page, n), OwnerAt(page, n);
             MemoryOk(u) && o in u.data && !Misses(decode, u, o, p)
    ensures var u, stale := UpdatedTo(decode, t, page, n), StaleOwners(t, page);
            !PatchedBy(u, Remaining(stale, n + 1), p)
  {
    TurnUsed(decode, t, page, n, p);
    UpdatedToSame(decode, t, page, n);
    hide GoodBut, UpdatedTo, Planned, MemoryOk, DecoderOk, OwnerAt, StaleOwners, UsedSpots, Misses, Concerned;
    hide Remaining, Done, LinesKept, PlanKept, SameCode, Pending, PatchedBy;
    PendingSame(t, UpdatedTo(decode, t, page, n), StaleOwners(t, page), n, p);
    InPending(t, page, n + 1, p);
  }

  lemma InPending(t: State, page: nat, n: nat, p: nat)
    ensures p in Pending(t, page, n) <==> PatchedBy(t, Remaining(StaleOwners(t, page), n), p)
  {
  }

  lemma PatchedIsUsed(u: State, rest: set<Owner>, w: Id)
    requires GoodBut(u, rest) && Has(u, w) && Get(u, w).patched
    ensures w.owner !in rest ==> Get(u, w).used
  {
    assert InfoOk(u, rest, w);
  }

  lemma {:induction false} FirstClash(decode: Decoder, t: State, page: nat, n: nat) returns (m: nat)
    requires MemoryOk(t) && n <= PAGE + 2 && exists k :: 0 <= k < n && !TurnFree(decode, t, page, k)
    ensures m < n && !TurnFree(decode, t, page, m) && forall k :: 0 <= k < m ==> TurnFree(decode, t, page, k)
    decreases n
  {
    hide TurnFree, MemoryOk;
    if exists k :: 0 <= k < n - 1 && !TurnFree(decode, t, page, k) {
      m := FirstClash(decode, t, page, n - 1);
    } else {
      m := n - 1;
    }
  }

  ghost predicate AllMissOld(decode: Decoder, t: State, page: nat)
    requires MemoryOk(t)
  {
    forall n :: 0 <= n < PAGE + 2 ==> MissesOld(decode, t, page, n)
  }

  /** A turn that is not free: the end is broken, and two used lines are on one byte unless a
      patch was put where another owner's old one was. */
  lemma {:induction false} ClashBreaks(decode: Decoder, t: State, page: nat)
    requires MemoryOk(t) && ShapeOk(t) && DecoderOk(decode) && GoodBut(t, StaleOwners(t, page))
    requires !NoClashes(decode, t, page)
    ensures var v := UpdatedTo(decode, t, page, PAGE + 2);
            !Claims(v) && (AllMissOld(decode, t, page) ==> !NoShare(v))
  {
    hide GoodBut, UpdatedTo, MemoryOk, ShapeOk, DecoderOk, StaleOwners, TurnFree, MissesOld, Broken, Claims;
    hide Remaining, Get;
    var m := FirstClash(decode, t, page, PAGE + 2);
    FollowsTo(decode, t, page, m);
    var w, y := TurnBreaks(decode, t, page, m);
    var stale, u, v := StaleOwners(t, page), UpdatedTo(decode, t, page, m + 1), UpdatedTo(decode, t, page, PAGE + 2);
    CollideDooms(u, Remaining(stale, m + 1), w, y);
    var d := if w.owner in Remaining(stale, m + 1) then y else w;
    DoomedStays(decode, t, page, m + 1, PAGE + 2, d, w);
    AllDone(t, page);
    BrokenMeans(v, d);
    if AllMissOld(decode, t, page) {
      LineStays(decode, t, page, m + 1, PAGE + 2, w);
      LineStays(decode, t, page, m + 1, PAGE + 2, y);
      assert Has(v, w) && Has(v, y);
    }
  }

  lemma CollideDooms(r: State, rest: set<Owner>, w: Id, y: Id)
    requires Collide(r, rest, w, y)
    ensures Doomed(r, rest, if w.owner in rest then y else w, w)
  {
    hide Broken;
  }

  lemma {:induction false} NoClashesGood(decode: Decoder, t: State, page: nat)
    requires MemoryOk(t) && ShapeOk(t) && DecoderOk(decode) && GoodBut(t, StaleOwners(t, page))
    requires NoClashes(decode, t, page)
    ensures Good(UpdatedTo(decode, t, page, PAGE + 2))
  {
    hide GoodBut, UpdatedTo, MemoryOk, ShapeOk, DecoderOk, StaleOwners, TurnFree;
    FollowsTo(decode, t, page, PAGE + 2);
    AllDone(t, page);
    NoneStale(UpdatedTo(decode, t, page, PAGE + 2));
  }

  lemma ReplacedShape(s: State, page: nat, code: Code, bytes: seq<Byte>)
    requires MemoryOk(s) && ShapeOk(s) && Fits(s, page, code, bytes)
    ensures var t := Replaced(s, page, code, bytes); MemoryOk(t) && ShapeOk(t) && |t.steps| == 2
  {
    ReplacedMemory(s, page, code, bytes);
  }

  /** A recompile keeps the claims exactly when no turn puts a patch on another new patch or on
      an old patch of an owner still to come. */
  lemma RecompiledExactly(decode: Decoder, s: State, page: nat, code: Code, bytes: seq<Byte>)
    requires Good(s) && MemoryOk(s) && ShapeOk(s) && DecoderOk(decode) && Fits(s, page, code, bytes)
    ensures var t, r := Replaced(s, page, code, bytes), Recompiled(decode, s, page, code, bytes);
            && MemoryOk(t)
            && (Good(r) <==> NoClashes(decode, t, page)) && (Claims(r) <==> NoClashes(decode, t, page))
            && (NoClashes(decode, t, page) <==> NoShare(r) && AllMissOld(decode, t, page))
  {
    var t, r := Replaced(s, page, code, bytes), Recompiled(decode, s, page, code, bytes);
    ReplacedShape(s, page, code, bytes);
    ReplacedGood(s, page, code, bytes);
    assert r == UpdatedTo(decode, t, page, PAGE + 2);
    hide Good, GoodBut, UpdatedTo, MemoryOk, ShapeOk, DecoderOk, StaleOwners, MissesOld, MissesNew, Claims, NoShare;
    hide Replaced, Recompiled, Fits;
    if NoClashes(decode, t, page) {
      NoClashesGood(decode, t, page);
      GoodClaims(r);
      ClaimsNoShare(r);
      forall n | 0 <= n < PAGE + 2 ensures MissesOld(decode, t, page, n) {
        assert TurnFree(decode, t, page, n);
      }
    } else {
      ClashBreaks(decode, t, page);
      if Good(r) { GoodClaims(r); }
    }
  }

  /** Whether a line was used stays, whoever has had a turn. */
  lemma {:induction false} UsedStays(decode: Decoder, t: State, page: nat, n: nat, x: Id)
    requires MemoryOk(t) && DecoderOk(decode) && n <= PAGE + 2
    ensures var u := UpdatedTo(decode, t, page, n);
            (Has(u, x) <==> Has(t, x)) && (Has(t, x) ==> Get(u, x).used == Get(t, x).used)
    decreases n
  {
    hide MemoryOk, DecoderOk, UpdatedTo, Update, OwnerAt, SameCode;
    UpdatedToSame(decode, t, page, n);
    if n == 0 {
      UpdatedToNone(decode, t, page);
    } else {
      var u, o := UpdatedTo(decode, t, page, n - 1), OwnerAt(page, n - 1);
      UsedStays(decode, t, page, n - 1, x);
      UpdatedToNext(decode, t, page, n - 1);
      UpdatedToSame(decode, t, page, n - 1);
      ConcernedSame(t, u, page, o);
      if Concerned(t, page, o) && Has(t, x) {
        if x.owner == o { UsedThroughUpdate(decode, u, o, x.sub); } else { UpdateOther(decode, u, o, x); }
      }
    }
  }

  lemma UsedThroughUpdate(decode: Decoder, s: State, o: Owner, k: nat)
    requires MemoryOk(s) && DecoderOk(decode) && o in s.data && k < LINES
    ensures Update(decode, s, o).data[o][k].used == s.data[o][k].used
  {
    hide MemoryOk, DecoderOk, Update;
    UpdateLine(decode, s, o, k);
  }
}
