/**
 What patching keeps, and for each operation exactly when it keeps it.
 */
module BreakpointProof {
  import opened Types
  import opened Breakpoint

  // ----- the invariant -----

  /** A line against memory and table. Those of `stale` owners still have the places they had in
      a block that was deleted. The kept byte matters only while the line is patched: a line
      placed on another's patch has kept the patch byte. */
  ghost predicate InfoOk(s: State, stale: set<Owner>, id: Id)
    requires Has(s, id)
  {
    var i := Get(s, id);
    && (i.patched ==> i.pos != 0 && i.pos in s.dt && s.dt[i.pos] == id)
    && (id.owner !in stale ==>
          && (i.patched <==> i.used && i.pos != 0)
          && (i.pos != 0 ==> i.pos in s.pristine && InBlock(s, AddrOf(s, id.owner) / PAGE, i.pos))
          && (i.patched ==> i.original == s.pristine[i.pos]))
  }

  predicate EntryOk(s: State, p: nat)
    requires p in s.dt
  {
    Has(s, s.dt[p]) && Get(s, s.dt[p]).patched && Get(s, s.dt[p]).pos == p
  }

  /** Entries of stale owners say nothing about the byte: it may belong to new code. */
  predicate ByteOk(s: State, stale: set<Owner>, p: nat)
    requires p in s.host
  {
    p in s.pristine
    && s.host[p] == if p in s.dt && s.dt[p].owner !in stale then DEBUG_BREAK else s.pristine[p]
  }

  ghost predicate GoodBut(s: State, stale: set<Owner>) {
    && ShapeOk(s) && MemoryOk(s)
    && (forall id :: Has(s, id) ==> InfoOk(s, stale, id))
    && (forall p :: p in s.dt ==> EntryOk(s, p))
    && (forall p :: p in s.host ==> ByteOk(s, stale, p))
  }

  ghost predicate Good(s: State) { GoodBut(s, {}) }

  /** The code with every patched byte put back. */
  function Undone(s: State): map<nat, Byte> {
    map p | p in s.host :: if p in s.dt && Has(s, s.dt[p]) then Get(s, s.dt[p]).original else s.host[p]
  }

  /** What the tables are for: a breakpoint is patched exactly when it is used and placed, the
      table holds exactly the patched ones at their bytes, those bytes break, and putting the
      kept bytes back gives the code as compiled. */
  ghost predicate Claims(s: State) {
    && (forall id :: Has(s, id) ==> (Get(s, id).patched <==> Get(s, id).used && Get(s, id).pos != 0))
    && (forall p, id :: p in s.dt && s.dt[p] == id <==> Has(s, id) && Get(s, id).patched && Get(s, id).pos == p)
    && (forall p :: p in s.host && p in s.dt ==> s.host[p] == DEBUG_BREAK)
    && Undone(s) == s.pristine
  }

  lemma GoodClaims(s: State)
    requires Good(s)
    ensures Claims(s)
  {
    hide ShapeOk, MemoryOk;
    UndoneGood(s);
    forall id | Has(s, id)
      ensures Get(s, id).patched <==> Get(s, id).used && Get(s, id).pos != 0
      ensures Get(s, id).patched ==> Get(s, id).pos in s.dt && s.dt[Get(s, id).pos] == id
    {
      assert InfoOk(s, {}, id);
    }
    forall p | p in s.dt ensures EntryOk(s, p) {
    }
    forall p | p in s.host && p in s.dt ensures s.host[p] == DEBUG_BREAK {
      assert ByteOk(s, {}, p);
    }
  }

  lemma UndoneGood(s: State)
    requires Good(s)
    ensures Undone(s) == s.pristine
  {
    KeysAgree(s);
    hide ShapeOk, MemoryOk;
    forall p | p in s.host ensures p in s.pristine && Undone(s)[p] == s.pristine[p] {
      assert ByteOk(s, {}, p);
      if p in s.dt { assert EntryOk(s, p) && InfoOk(s, {}, s.dt[p]); }
    }
    assert Undone(s).Keys == s.host.Keys;
  }

  /** No two used lines are on one byte. */
  ghost predicate NoShare(s: State) {
    forall x, y :: Has(s, x) && Has(s, y) && x != y && Get(s, x).used && Get(s, y).used && Get(s, x).pos != 0
                   ==> Get(s, x).pos != Get(s, y).pos
  }

  lemma ClaimsNoShare(s: State)
    requires Claims(s)
    ensures NoShare(s)
  {
    forall x, y | Has(s, x) && Has(s, y) && x != y && Get(s, x).used && Get(s, y).used && Get(s, x).pos != 0
      ensures Get(s, x).pos != Get(s, y).pos
    {
      assert Get(s, x).patched && s.dt[Get(s, x).pos] == x;
      assert Get(s, y).pos != 0 ==> Get(s, y).patched && s.dt[Get(s, y).pos] == y;
    }
  }

  /** A patched line the table does not lead to, or whose kept byte is not the compiler's. */
  ghost predicate Broken(s: State, w: Id) {
    && Has(s, w) && Get(s, w).patched
    && var i := Get(s, w);
       || i.pos !in s.dt || s.dt[i.pos] != w
       || (i.pos in s.host && i.pos in s.pristine && i.original != s.pristine[i.pos])
  }

  lemma BrokenMeans(s: State, w: Id)
    requires Broken(s, w)
    ensures !Claims(s)
  {
    var p := Get(s, w).pos;
    if p in s.dt && s.dt[p] == w {
      assert Undone(s)[p] == Get(s, w).original != s.pristine[p];
    }
  }

  lemma SameShape(s: State, r: State)
    requires ShapeOk(s) && MemoryOk(s) && SameCode(s, r)
    ensures ShapeOk(r) && MemoryOk(r)
  {
  }

  lemma GoodMemory(s: State, stale: set<Owner>)
    requires GoodBut(s, stale)
    ensures MemoryOk(s) && ShapeOk(s)
  {
  }

  lemma GoodParts(s: State)
    requires Good(s)
    ensures GoodBut(s, {}) && MemoryOk(s) && ShapeOk(s) && |s.steps| == 2
    ensures Stepper(0) in s.data && Stepper(1) in s.data
  {
  }

  lemma NoneStale(s: State)
    requires GoodBut(s, {})
    ensures Good(s)
  {
  }

  // ----- one breakpoint -----

  /** A line can be enabled: its byte is not patched, and is the one the line has kept. */
  predicate CanEnable(s: State, id: Id)
    requires Has(s, id)
  {
    var i := Get(s, id);
    !i.used && i.pos != 0 ==> i.pos !in s.dt && i.pos in s.host && s.host[i.pos] == i.original
  }

  predicate ByteFree(s: State, id: Id)
    requires Has(s, id)
  {
    !Get(s, id).used && Get(s, id).pos != 0 ==> Get(s, id).pos !in s.dt
  }

  /** The byte a line has kept is the compiler's. */
  predicate KeptRight(s: State, id: Id)
    requires Has(s, id)
  {
    var i := Get(s, id);
    i.pos != 0 ==> i.pos in s.pristine && i.original == s.pristine[i.pos]
  }

  lemma EnableParts(s: State, id: Id)
    requires Good(s) && Has(s, id)
    ensures CanEnable(s, id) <==> ByteFree(s, id) && KeptRight(s, id)
  {
    hide ShapeOk;
    var i := Get(s, id);
    KeysAgree(s);
    assert InfoOk(s, {}, id);
    if i.pos in s.host { assert ByteOk(s, {}, i.pos); }
  }

  lemma ToggleUnplaced(s: State, id: Id)
    requires Good(s) && Has(s, id) && Get(s, id).pos == 0
    ensures Good(Toggle(s, id))
  {
    hide ShapeOk, MemoryOk;
    var r := Toggle(s, id);
    assert InfoOk(s, {}, id);
    forall x | Has(r, x) ensures InfoOk(r, {}, x) {
      assert InfoOk(s, {}, x);
    }
    forall p | p in r.dt ensures EntryOk(r, p) {
      assert EntryOk(s, p);
    }
    forall p | p in r.host ensures ByteOk(r, {}, p) {
      assert ByteOk(s, {}, p);
    }
    SameShape(s, r);
  }

  lemma ToggleOff(s: State, id: Id)
    requires Good(s) && Has(s, id) && Get(s, id).pos != 0 && Get(s, id).used
    ensures Good(Toggle(s, id))
  {
    hide ShapeOk, MemoryOk;
    var r := Toggle(s, id);
    assert InfoOk(s, {}, id);
    forall x | Has(r, x) ensures InfoOk(r, {}, x) {
      assert InfoOk(s, {}, x);
    }
    forall p | p in r.dt ensures EntryOk(r, p) {
      assert EntryOk(s, p);
    }
    forall p | p in r.host ensures ByteOk(r, {}, p) {
      assert ByteOk(s, {}, p);
    }
    SameShape(s, r);
  }

  lemma ToggleOn(s: State, id: Id)
    requires Good(s) && Has(s, id) && Get(s, id).pos != 0 && !Get(s, id).used && CanEnable(s, id)
    ensures Good(Toggle(s, id))
  {
    hide ShapeOk, MemoryOk;
    var r := Toggle(s, id);
    assert InfoOk(s, {}, id) && ByteOk(s, {}, Get(s, id).pos);
    forall x | Has(r, x) ensures InfoOk(r, {}, x) {
      assert InfoOk(s, {}, x);
    }
    forall p | p in r.dt ensures EntryOk(r, p) {
      if p in s.dt { assert EntryOk(s, p); }
    }
    forall p | p in r.host ensures ByteOk(r, {}, p) {
      assert ByteOk(s, {}, p);
    }
    SameShape(s, r);
  }

  lemma ToggleGood(s: State, id: Id)
    requires Good(s) && Has(s, id) && CanEnable(s, id)
    ensures Good(Toggle(s, id))
  {
    hide Good, Toggle, CanEnable;
    if Get(s, id).pos == 0 {
      ToggleUnplaced(s, id);
    } else if Get(s, id).used {
      ToggleOff(s, id);
    } else {
      ToggleOn(s, id);
    }
  }

  /** Enabling a line that cannot be leaves one that is broken: the line that was patched there,
      or, if none was, the one enabled. */
  lemma ToggleBreaks(s: State, id: Id) returns (w: Id)
    requires Good(s) && Has(s, id) && !CanEnable(s, id)
    ensures var r := Toggle(s, id); Broken(r, w) && Get(r, w).used && (w == id || (Get(s, w).used && Get(s, w).patched))
  {
    hide ShapeOk, MemoryOk;
    var i := Get(s, id);
    GoodMemory(s, {});
    assert InfoOk(s, {}, id);
    KeysAgree(s);
    if i.pos in s.dt {
      w := s.dt[i.pos];
      assert EntryOk(s, i.pos) && InfoOk(s, {}, w);
    } else {
      w := id;
      assert ByteOk(s, {}, i.pos);
    }
  }

  lemma KeysAgree(s: State)
    requires MemoryOk(s)
    ensures s.host.Keys == s.pristine.Keys && 0 !in s.host
  {
  }

  /** Toggling one breakpoint keeps the claims exactly when it does not enable a line whose byte
      is patched already or is not the one the line has kept. */
  lemma ToggleExactly(s: State, id: Id)
    requires Good(s) && Has(s, id)
    ensures Good(Toggle(s, id)) <==> CanEnable(s, id)
    ensures Claims(Toggle(s, id)) <==> CanEnable(s, id)
  {
    hide Good, Claims, Toggle, CanEnable, Broken;
    if CanEnable(s, id) {
      ToggleGood(s, id);
      GoodClaims(Toggle(s, id));
    } else {
      var w := ToggleBreaks(s, id);
      BrokenMeans(Toggle(s, id), w);
      if Good(Toggle(s, id)) { GoodClaims(Toggle(s, id)); }
    }
  }

  lemma ToggleFrame(s: State, id: Id, x: Id)
    requires Has(s, id) && Has(s, x)
    ensures var r := Toggle(s, id);
            && Has(r, x) && (x != id ==> Get(r, x) == Get(s, x)) && Get(r, id).used == !Get(s, id).used
            && Get(r, id).pos == Get(s, id).pos
  {
  }

  /** A broken line stays broken while other lines are enabled. */
  lemma BrokenThroughToggle(s: State, w: Id, id: Id)
    requires Broken(s, w) && Has(s, id) && id != w && !Get(s, id).used
    ensures Broken(Toggle(s, id), w) && Get(Toggle(s, id), w) == Get(s, w)
  {
  }

  // ----- forgetting an owner's places -----

  lemma RemoveGood(s: State, stale: set<Owner>, id: Id)
    requires GoodBut(s, stale) && Has(s, id) && (id.owner in stale || !Get(s, id).patched)
    ensures GoodBut(Remove(s, id), stale)
  {
    hide ShapeOk, MemoryOk;
    var r := Remove(s, id);
    assert InfoOk(s, stale, id);
    forall x | Has(r, x) ensures InfoOk(r, stale, x) {
      assert InfoOk(s, stale, x);
    }
    forall p | p in r.dt ensures EntryOk(r, p) {
      assert EntryOk(s, p);
    }
    forall p | p in r.host ensures ByteOk(r, stale, p) {
      assert ByteOk(s, stale, p);
    }
    SameShape(s, r);
  }

  lemma RemoveToNext(s: State, o: Owner, n: nat)
    requires o in s.data && 0 < n <= LINES
    ensures RemoveTo(s, o, n) == Remove(RemoveTo(s, o, n - 1), Id(o, n - 1))
  {
    hide Remove, SameCode;
  }

  lemma {:induction false} RemoveToNone(s: State, o: Owner)
    requires o in s.data
    ensures RemoveTo(s, o, 0) == s
  {
  }

  lemma RemoveOne(s: State, id: Id, x: Id)
    requires Has(s, id) && Has(s, x)
    ensures var r := Remove(s, id);
            Has(r, x) && Get(r, x) == if x == id then Get(s, x).(pos := 0, patched := false) else Get(s, x)
  {
  }

  lemma {:induction false} RemoveToGet(s: State, o: Owner, n: nat, x: Id)
    requires o in s.data && n <= LINES && Has(s, x)
    ensures var r := RemoveTo(s, o, n);
            Has(r, x)
            && Get(r, x) == if x.owner == o && x.sub < n then Get(s, x).(pos := 0, patched := false) else Get(s, x)
    decreases n
  {
    hide SameCode, RemoveTo, Remove, Get;
    if n == 0 {
      RemoveToNone(s, o);
    } else {
      RemoveToGet(s, o, n - 1, x);
      RemoveToNext(s, o, n);
      RemoveOne(RemoveTo(s, o, n - 1), Id(o, n - 1), x);
    }
  }

  lemma RemoveTable(s: State, id: Id, p: nat)
    requires Has(s, id)
    ensures var r, i := Remove(s, id), Get(s, id);
            && r.host == s.host && (p in r.dt <==> p in s.dt && !(i.patched && i.pos == p))
            && (p in r.dt ==> r.dt[p] == s.dt[p])
  {
  }

  /** The bytes stay, and of the table only the entries of the owner's patched lines go. */
  lemma {:induction false} RemoveToTable(s: State, o: Owner, n: nat, p: nat)
    requires o in s.data && n <= LINES
    ensures var r := RemoveTo(s, o, n);
            && r.host == s.host && (p in r.dt ==> p in s.dt && r.dt[p] == s.dt[p])
            && (p in r.dt <==> p in s.dt && forall k :: 0 <= k < n && s.data[o][k].patched ==> s.data[o][k].pos != p)
    decreases n
  {
    hide SameCode, Remove, RemoveTo;
    if n == 0 {
      RemoveToNone(s, o);
    } else {
      RemoveToTable(s, o, n - 1, p);
      RemoveToGet(s, o, n - 1, Id(o, n - 1));
      RemoveToNext(s, o, n);
      RemoveTable(RemoveTo(s, o, n - 1), Id(o, n - 1), p);
    }
  }

  predicate Unpatched(s: State, o: Owner)
    requires o in s.data
  {
    forall k :: 0 <= k < LINES ==> !s.data[o][k].patched
  }

  lemma {:induction false} RemoveToGood(s: State, stale: set<Owner>, o: Owner, n: nat)
    requires GoodBut(s, stale) && o in s.data && n <= LINES && (o in stale || Unpatched(s, o))
    ensures GoodBut(RemoveTo(s, o, n), stale)
    decreases n
  {
    hide GoodBut, Remove, RemoveTo, SameCode, InfoOk, EntryOk, ByteOk, ShapeOk, MemoryOk;
    if n == 0 {
      RemoveToNone(s, o);
    } else {
      RemoveToGood(s, stale, o, n - 1);
      RemoveToGet(s, o, n - 1, Id(o, n - 1));
      RemoveToNext(s, o, n);
      RemoveGood(RemoveTo(s, o, n - 1), stale, Id(o, n - 1));
    }
  }

  lemma ForgetGet(s: State, o: Owner, x: Id)
    requires o in s.data && Has(s, x)
    ensures var r := Forget(s, o);
            && Has(r, x) && Get(r, x).used == Get(s, x).used
            && (x.owner == o ==> Get(r, x).pos == 0 && !Get(r, x).patched)
            && (x.owner != o ==> Get(r, x) == Get(s, x))
  {
    hide RemoveTo;
    RemoveToGet(s, o, |s.data[o]|, x);
  }

  /** Whether a line of the owner has the byte patched. */
  predicate HasPatched(s: State, o: Owner, p: nat)
    requires o in s.data
  {
    exists k :: 0 <= k < LINES && s.data[o][k].patched && s.data[o][k].pos == p
  }

  lemma ForgetTable(s: State, o: Owner, p: nat)
    requires o in s.data
    ensures var r := Forget(s, o);
            && r.host == s.host && (p in r.dt ==> p in s.dt && r.dt[p] == s.dt[p])
            && (p in r.dt <==> p in s.dt && !HasPatched(s, o, p))
  {
    hide RemoveTo;
    RemoveToTable(s, o, |s.data[o]|, p);
  }

  predicate Unplaced(s: State, o: Owner)
    requires o in s.data
  {
    forall k :: 0 <= k < LINES ==> s.data[o][k].pos == 0 && !s.data[o][k].patched
  }

  lemma RemovedIsUnplaced(s: State, o: Owner)
    requires o in s.data
    ensures Unplaced(Forget(s, o), o)
  {
    hide Forget, SameCode;
    var r := Forget(s, o);
    forall k | 0 <= k < LINES ensures r.data[o][k].pos == 0 && !r.data[o][k].patched {
      ForgetGet(s, o, Id(o, k));
    }
  }

  /** An owner without places is not stale any more. */
  lemma NoLongerStale(s: State, stale: set<Owner>, o: Owner)
    requires GoodBut(s, stale) && o in s.data && Unplaced(s, o)
    ensures GoodBut(s, stale - {o})
  {
    hide ShapeOk, MemoryOk;
    forall x | Has(s, x) ensures InfoOk(s, stale - {o}, x) {
      assert InfoOk(s, stale, x);
    }
    forall p | p in s.host ensures ByteOk(s, stale - {o}, p) {
      assert ByteOk(s, stale, p);
      if p in s.dt { assert EntryOk(s, p); }
    }
  }

  // ----- placing an owner's lines -----

  lemma PlaceGood(s: State, stale: set<Owner>, id: Id, pos: nat)
    requires GoodBut(s, stale) && Has(s, id) && id.owner !in stale
    requires Get(s, id).pos == 0 && !Get(s, id).patched
    requires pos in s.host && InBlock(s, AddrOf(s, id.owner) / PAGE, pos)
    requires Get(s, id).used ==> pos !in s.dt
    ensures GoodBut(Place(s, id, pos), stale)
  {
    hide ShapeOk;
    KeysAgree(s);
    if Get(s, id).used { PlaceUsed(s, stale, id, pos); } else { PlaceUnused(s, stale, id, pos); }
  }

  lemma PlaceUnused(s: State, stale: set<Owner>, id: Id, pos: nat)
    requires GoodBut(s, stale) && Has(s, id) && id.owner !in stale && !Get(s, id).used && pos != 0
    requires Get(s, id).pos == 0 && !Get(s, id).patched
    requires pos in s.host && InBlock(s, AddrOf(s, id.owner) / PAGE, pos)
    ensures GoodBut(Place(s, id, pos), stale)
  {
    hide ShapeOk, MemoryOk, InBlock;
    var r := Place(s, id, pos);
    assert ByteOk(s, stale, pos);
    forall x | Has(r, x) ensures InfoOk(r, stale, x) {
      assert InfoOk(s, stale, x);
      BlockSame(s, r, AddrOf(s, x.owner) / PAGE, Get(r, x).pos);
    }
    forall p | p in r.dt ensures EntryOk(r, p) {
      assert EntryOk(s, p);
    }
    forall p | p in r.host ensures ByteOk(r, stale, p) {
      assert ByteOk(s, stale, p);
    }
    SameShape(s, r);
  }

  lemma PlaceUsed(s: State, stale: set<Owner>, id: Id, pos: nat)
    requires GoodBut(s, stale) && Has(s, id) && id.owner !in stale && Get(s, id).used && pos != 0
    requires Get(s, id).pos == 0 && !Get(s, id).patched && pos !in s.dt
    requires pos in s.host && InBlock(s, AddrOf(s, id.owner) / PAGE, pos)
    ensures GoodBut(Place(s, id, pos), stale)
  {
    hide ShapeOk, MemoryOk, InBlock;
    var r := Place(s, id, pos);
    assert ByteOk(s, stale, pos);
    forall x | Has(r, x) ensures InfoOk(r, stale, x) {
      assert InfoOk(s, stale, x);
      BlockSame(s, r, AddrOf(s, x.owner) / PAGE, Get(r, x).pos);
    }
    forall p | p in r.dt ensures EntryOk(r, p) {
      if p in s.dt { assert EntryOk(s, p); }
    }
    forall p | p in r.host ensures ByteOk(r, stale, p) {
      assert ByteOk(s, stale, p);
    }
    SameShape(s, r);
  }

  lemma PlaceToNext(s: State, o: Owner, spots: seq<nat>, n: nat)
    requires o in s.data && 0 < n <= |spots| && n <= LINES
    requires forall k :: 0 <= k < n ==> spots[k] in s.host
    ensures var q := PlaceTo(s, o, spots, n - 1);
            && Has(q, Id(o, n - 1)) && spots[n - 1] in q.host
            && PlaceTo(s, o, spots, n) == Place(q, Id(o, n - 1), spots[n - 1])
  {
    hide Place, SameCode;
  }

  lemma {:induction false} PlaceToNone(s: State, o: Owner, spots: seq<nat>)
    requires o in s.data
    ensures PlaceTo(s, o, spots, 0) == s
  {
  }

  /** Lines not placed yet, and other owners' lines, are as they were. */
  lemma {:induction false} PlaceToGet(s: State, o: Owner, spots: seq<nat>, n: nat, x: Id)
    requires o in s.data && n <= |spots| && n <= LINES && Has(s, x) && (x.owner != o || x.sub >= n)
    requires forall k :: 0 <= k < n ==> spots[k] in s.host
    ensures var r := PlaceTo(s, o, spots, n); Has(r, x) && Get(r, x) == Get(s, x)
    decreases n
  {
    hide SameCode, PlaceTo, Place, Get;
    if n == 0 {
      PlaceToNone(s, o, spots);
    } else {
      PlaceToGet(s, o, spots, n - 1, x);
      PlaceToNext(s, o, spots, n);
      PlaceOther(PlaceTo(s, o, spots, n - 1), Id(o, n - 1), spots[n - 1], x);
    }
  }

  /** The byte and its entry are as they were. */
  predicate SameAt(s: State, r: State, p: nat) {
    && (p in r.dt <==> p in s.dt) && (p in s.dt ==> r.dt[p] == s.dt[p])
    && (p in s.host ==> p in r.host && r.host[p] == s.host[p])
  }

  lemma PlaceMiss(s: State, id: Id, pos: nat, p: nat)
    requires Has(s, id) && pos in s.host && (Get(s, id).used ==> pos != p)
    ensures SameAt(s, Place(s, id, pos), p)
  {
  }

  lemma SameAtTwice(s: State, q: State, r: State, p: nat)
    requires SameAt(s, q, p) && SameAt(q, r, p)
    ensures SameAt(s, r, p)
  {
  }

  lemma PlaceLine(s: State, id: Id, pos: nat)
    requires Has(s, id) && pos in s.host && !Get(s, id).patched
    ensures var r, u := Place(s, id, pos), Get(s, id).used;
            && Get(r, id) == Info(u, u, pos, s.host[pos]) && (u ==> pos in r.dt && r.dt[pos] == id)
  {
  }

  lemma PlaceOther(s: State, id: Id, pos: nat, x: Id)
    requires Has(s, id) && Has(s, x) && x != id && pos in s.host
    ensures Has(Place(s, id, pos), x) && Get(Place(s, id, pos), x) == Get(s, x)
  {
  }

  /** Bytes on which no used line was placed, and their entries, are as they were. */
  lemma {:induction false} PlaceToMiss(s: State, o: Owner, spots: seq<nat>, n: nat, p: nat)
    requires o in s.data && n <= |spots| && n <= LINES
    requires forall k :: 0 <= k < n ==> spots[k] in s.host
    requires forall k :: 0 <= k < n && s.data[o][k].used ==> spots[k] != p
    ensures SameAt(s, PlaceTo(s, o, spots, n), p)
    decreases n
  {
    hide SameCode, Place, PlaceTo, SameAt;
    if n > 0 {
      var q := PlaceTo(s, o, spots, n - 1);
      PlaceToNext(s, o, spots, n);
      PlaceToMiss(s, o, spots, n - 1, p);
      PlaceToGet(s, o, spots, n - 1, Id(o, n - 1));
      PlaceMiss(q, Id(o, n - 1), spots[n - 1], p);
      SameAtTwice(s, q, PlaceTo(s, o, spots, n), p);
    } else {
      PlaceToNone(s, o, spots);
      SameAtSelf(s, p);
    }
  }

  lemma SameAtSelf(s: State, p: nat)
    ensures SameAt(s, s, p)
  {
  }

  /** A placed line: where it is, that it keeps the byte that was there, and that it is patched
      and in the table if it is used. */
  lemma {:induction false} PlaceToLine(s: State, o: Owner, spots: seq<nat>, n: nat, k: nat)
    requires o in s.data && k < n <= |spots| && n <= LINES && !s.data[o][k].patched
    requires forall j :: 0 <= j < n ==> spots[j] in s.host
    requires forall i, j :: 0 <= i < j < |spots| ==> spots[i] < spots[j]
    ensures var r, u := PlaceTo(s, o, spots, n), s.data[o][k].used;
            && Has(r, Id(o, k)) && Get(r, Id(o, k)) == Info(u, u, spots[k], s.host[spots[k]])
            && (u ==> spots[k] in r.dt && r.dt[spots[k]] == Id(o, k))
    decreases n
  {
    hide SameCode, Place, PlaceTo;
    var q, id := PlaceTo(s, o, spots, n - 1), Id(o, n - 1);
    PlaceToNext(s, o, spots, n);
    if k < n - 1 {
      PlaceToLine(s, o, spots, n - 1, k);
      PlaceOther(q, id, spots[n - 1], Id(o, k));
      PlaceMiss(q, id, spots[n - 1], spots[k]);
    } else {
      PlaceToGet(s, o, spots, k, Id(o, k));
      PlaceToMiss(s, o, spots, k, spots[k]);
      PlaceLine(q, id, spots[k]);
    }
  }

  lemma BlockSame(s: State, r: State, page: nat, p: nat)
    requires r.blocks == s.blocks
    ensures InBlock(r, page, p) == InBlock(s, page, p)
  {
  }

  lemma {:induction false} PlaceToSame(s: State, o: Owner, spots: seq<nat>, n: nat)
    requires o in s.data && n <= |spots| && n <= LINES
    requires forall k :: 0 <= k < n ==> spots[k] in s.host
    ensures var r := PlaceTo(s, o, spots, n); AddrOf(r, o) == AddrOf(s, o) && r.blocks == s.blocks
  {
  }

  lemma {:induction false} PlaceToGood(s: State, stale: set<Owner>, o: Owner, spots: seq<nat>, n: nat)
    requires GoodBut(s, stale) && o in s.data && o !in stale && Unplaced(s, o)
    requires n <= |spots| && n <= LINES
    requires forall k :: 0 <= k < |spots| ==> spots[k] in s.host && InBlock(s, AddrOf(s, o) / PAGE, spots[k])
    requires forall i, j :: 0 <= i < j < |spots| ==> spots[i] < spots[j]
    requires forall k :: 0 <= k < n && s.data[o][k].used ==> spots[k] !in s.dt
    ensures GoodBut(PlaceTo(s, o, spots, n), stale)
    decreases n
  {
    hide GoodBut, Place, PlaceTo, InfoOk, EntryOk, ByteOk, ShapeOk, MemoryOk, InBlock;
    if n == 0 {
      PlaceToNone(s, o, spots);
    } else {
      PlaceToGood(s, stale, o, spots, n - 1);
      PlaceToNext(s, o, spots, n);
      PlaceToSame(s, o, spots, n - 1);
      PlaceToGet(s, o, spots, n - 1, Id(o, n - 1));
      PlaceToMiss(s, o, spots, n - 1, spots[n - 1]);
      BlockSame(s, PlaceTo(s, o, spots, n - 1), AddrOf(s, o) / PAGE, spots[n - 1]);
      PlaceGood(PlaceTo(s, o, spots, n - 1), stale, Id(o, n - 1), spots[n - 1]);
    }
  }

  // ----- bringing an owner up to date -----

  /** No used line of the owner is decoded onto a byte that another owner has patched. */
  ghost predicate UsedFree(decode: Decoder, s: State, o: Owner)
    requires MemoryOk(s) && o in s.data
  {
    var spots := SpotsAt(decode, s, AddrOf(s, o));
    forall k :: 0 <= k < |spots| && s.data[o][k].used ==> FreeFor(s, o, spots[k])
  }

  predicate FreeFor(s: State, o: Owner, p: nat) { p in s.dt ==> s.dt[p].owner == o }

  lemma SameSpots(decode: Decoder, s: State, r: State, a: nat)
    requires MemoryOk(s) && MemoryOk(r) && r.host == s.host && r.blocks == s.blocks && r.width == s.width
    ensures SpotsAt(decode, r, a) == SpotsAt(decode, s, a)
  {
  }

  /** The state between the two halves of an update. */
  lemma Forgotten(decode: Decoder, s: State, o: Owner)
    requires MemoryOk(s) && o in s.data
    ensures var t := Forget(s, o);
            && MemoryOk(t) && t.host == s.host && AddrOf(t, o) == AddrOf(s, o)
            && t.pristine == s.pristine && t.blocks == s.blocks && t.width == s.width && Unplaced(t, o)
    ensures SpotsAt(decode, Forget(s, o), AddrOf(s, o)) == SpotsAt(decode, s, AddrOf(s, o))
  {
    hide Forget;
    var t := Forget(s, o);
    CodeSame(s, t);
    ForgetTable(s, o, 0);
    RemovedIsUnplaced(s, o);
    SameSpots(decode, s, t, AddrOf(s, o));
  }

  lemma UpdateOther(decode: Decoder, s: State, o: Owner, x: Id)
    requires MemoryOk(s) && DecoderOk(decode) && o in s.data && Has(s, x) && x.owner != o
    ensures var r := Update(decode, s, o); Has(r, x) && Get(r, x) == Get(s, x)
  {
    hide Forget, PlaceTo, MemoryOk, DecoderOk, SameCode, SpotsAt;
    Forgotten(decode, s, o);
    var t, spots := Forget(s, o), SpotsAt(decode, s, AddrOf(s, o));
    SpotsAtOk(decode, s, AddrOf(s, o));
    ForgetGet(s, o, x);
    PlaceToGet(t, o, spots, |spots|, x);
  }

  /** A line of the owner after the update. */
  lemma UpdateLine(decode: Decoder, s: State, o: Owner, k: nat)
    requires MemoryOk(s) && DecoderOk(decode) && o in s.data && k < LINES
    ensures var r, spots, u := Update(decode, s, o), SpotsAt(decode, s, AddrOf(s, o)), s.data[o][k].used;
            && r.data[o][k].used == u
            && (if k < |spots|
                then spots[k] in s.host && r.data[o][k] == Info(u, u, spots[k], s.host[spots[k]])
                     && (u ==> spots[k] in r.dt && r.dt[spots[k]] == Id(o, k))
                else r.data[o][k].pos == 0 && !r.data[o][k].patched)
  {
    hide Forget, PlaceTo, MemoryOk, DecoderOk, SameCode, SpotsAt;
    Forgotten(decode, s, o);
    var t, spots := Forget(s, o), SpotsAt(decode, s, AddrOf(s, o));
    SpotsAtOk(decode, s, AddrOf(s, o));
    ForgetGet(s, o, Id(o, k));
    if k < |spots| { PlaceToLine(t, o, spots, |spots|, k); } else { PlaceToGet(t, o, spots, |spots|, Id(o, k)); }
  }

  /** A line placed by an update keeps the compiler's byte exactly when the byte was not patched
      then, or is the patch byte anyway. */
  lemma CapturesExactly(decode: Decoder, s: State, stale: set<Owner>, o: Owner, k: nat)
    requires GoodBut(s, stale) && MemoryOk(s) && o in s.data && DecoderOk(decode)
    requires k < |SpotsAt(decode, s, AddrOf(s, o))| && k < LINES
    ensures var p, i := SpotsAt(decode, s, AddrOf(s, o))[k], Update(decode, s, o).data[o][k];
            var unpatched := p in s.dt ==> s.dt[p].owner in stale;
            && i.pos == p && p in s.pristine
            && (i.original == s.pristine[p] <==> unpatched || s.pristine[p] == DEBUG_BREAK)
  {
    hide Update, ShapeOk, DecoderOk, SameCode, SpotsAt;
    UpdateLine(decode, s, o, k);
    assert ByteOk(s, stale, SpotsAt(decode, s, AddrOf(s, o))[k]);
  }

  /** No used line of the owner is decoded onto the byte. */
  predicate Misses(decode: Decoder, s: State, o: Owner, p: nat)
    requires MemoryOk(s) && o in s.data
  {
    var spots := SpotsAt(decode, s, AddrOf(s, o));
    forall k :: 0 <= k < |spots| && s.data[o][k].used ==> spots[k] != p
  }

  /** A byte the owner misses: its entry goes only if the owner had it patched. */
  lemma UpdateMiss(decode: Decoder, s: State, o: Owner, p: nat)
    requires MemoryOk(s) && DecoderOk(decode) && o in s.data && Misses(decode, s, o, p)
    ensures var r := Update(decode, s, o);
            && (p in s.host ==> p in r.host && r.host[p] == s.host[p])
            && (p in r.dt <==> p in s.dt && !HasPatched(s, o, p)) && (p in r.dt ==> r.dt[p] == s.dt[p])
  {
    hide Forget, PlaceTo, MemoryOk, DecoderOk, SameCode, SpotsAt, HasPatched;
    Forgotten(decode, s, o);
    var t, spots := Forget(s, o), SpotsAt(decode, s, AddrOf(s, o));
    SpotsAtOk(decode, s, AddrOf(s, o));
    ForgetTable(s, o, p);
    forall k | 0 <= k < |spots| && t.data[o][k].used ensures spots[k] != p {
      ForgetGet(s, o, Id(o, k));
    }
    PlaceToMiss(t, o, spots, |spots|, p);
  }

  /** An entry that leads to another owner afterwards did so before, and no line of the owner had
      its byte patched. */
  lemma UpdateEntry(decode: Decoder, s: State, o: Owner, p: nat)
    requires MemoryOk(s) && DecoderOk(decode) && o in s.data
    requires var r := Update(decode, s, o); p in r.dt && r.dt[p].owner != o
    ensures p in s.dt && Update(decode, s, o).dt[p] == s.dt[p] && !HasPatched(s, o, p) && Misses(decode, s, o, p)
  {
    hide Update, MemoryOk, DecoderOk, SameCode, SpotsAt, HasPatched;
    var spots := SpotsAt(decode, s, AddrOf(s, o));
    forall k | 0 <= k < |spots| && s.data[o][k].used ensures spots[k] != p {
      SpotsAtOk(decode, s, AddrOf(s, o));
      UpdateLine(decode, s, o, k);
    }
    UpdateMiss(decode, s, o, p);
  }

  /** A broken line stays broken while other owners are brought up to date. */
  lemma BrokenThroughUpdate(decode: Decoder, s: State, o: Owner, w: Id)
    requires MemoryOk(s) && DecoderOk(decode) && o in s.data && w.owner != o && Broken(s, w)
    ensures Broken(Update(decode, s, o), w) && Get(Update(decode, s, o), w) == Get(s, w)
  {
    hide MemoryOk, DecoderOk, Update;
    var r, p := Update(decode, s, o), Get(s, w).pos;
    UpdateOther(decode, s, o, w);
    if p in r.dt && r.dt[p] == w { UpdateEntry(decode, s, o, p); }
  }

  lemma UpdateGood(decode: Decoder, s: State, stale: set<Owner>, o: Owner)
    requires GoodBut(s, stale) && MemoryOk(s) && o in s.data && DecoderOk(decode)
    requires (o in stale || Unpatched(s, o)) && UsedFree(decode, s, o)
    ensures GoodBut(Update(decode, s, o), stale - {o})
  {
    hide GoodBut, Forget, PlaceTo, MemoryOk, DecoderOk, SameCode, FreeFor, Unpatched, SpotsAt, Unplaced;
    Forgotten(decode, s, o);
    var t, spots := Forget(s, o), SpotsAt(decode, s, AddrOf(s, o));
    SpotsAtOk(decode, s, AddrOf(s, o));
    ForgetGood(s, stale, o);
    NoLongerStale(t, stale, o);
    forall k | 0 <= k < |spots| && t.data[o][k].used ensures spots[k] !in t.dt {
      ForgetGet(s, o, Id(o, k));
      OwnEntriesGo(s, stale, o, spots[k]);
    }
    SpotsAtOk(decode, t, AddrOf(s, o));
    PlaceToGood(t, stale - {o}, o, spots, |spots|);
  }

  lemma ForgetGood(s: State, stale: set<Owner>, o: Owner)
    requires GoodBut(s, stale) && o in s.data && (o in stale || Unpatched(s, o))
    ensures GoodBut(Forget(s, o), stale)
  {
    hide GoodBut, RemoveTo, Unpatched;
    RemoveToGood(s, stale, o, |s.data[o]|);
  }

  lemma OwnEntriesGo(s: State, stale: set<Owner>, o: Owner, p: nat)
    requires GoodBut(s, stale) && o in s.data
    ensures p in Forget(s, o).dt <==> !FreeFor(s, o, p)
  {
    hide Forget, ShapeOk, MemoryOk;
    ForgetTable(s, o, p);
    if p in s.dt {
      assert EntryOk(s, p);
      forall k | 0 <= k < LINES && s.data[o][k].patched && s.data[o][k].pos == p ensures s.dt[p] == Id(o, k) {
        assert Has(s, Id(o, k)) && InfoOk(s, stale, Id(o, k));
      }
      if s.dt[p].owner == o { assert s.data[o][s.dt[p].sub].patched; }
    }
  }

  /** A used line decoded onto another's patch leaves that one broken. */
  lemma UpdateBreaks(decode: Decoder, s: State, stale: set<Owner>, o: Owner, k: nat) returns (w: Id)
    requires GoodBut(s, stale) && MemoryOk(s) && o in s.data && DecoderOk(decode)
    requires var spots := SpotsAt(decode, s, AddrOf(s, o));
             k < |spots| && s.data[o][k].used && !FreeFor(s, o, spots[k])
    ensures var r, p := Update(decode, s, o), SpotsAt(decode, s, AddrOf(s, o))[k];
            && p in s.dt && w == s.dt[p] && w.owner != o && Has(s, w) && Get(s, w).patched && Get(s, w).pos == p
            && Broken(r, w) && Get(r, w) == Get(s, w) && p in r.dt && r.dt[p] == Id(o, k)
            && Get(r, Id(o, k)).patched && Get(r, Id(o, k)).pos == p
  {
    var p := SpotsAt(decode, s, AddrOf(s, o))[k];
    w := s.dt[p];
    assert EntryOk(s, p);
    hide Update, MemoryOk, ShapeOk, DecoderOk, SameCode;
    UpdateLine(decode, s, o, k);
    UpdateOther(decode, s, o, w);
  }

  /** Bringing an owner up to date keeps the invariant exactly when no used line is decoded onto
      another's patch. Lines that are not used may be. */
  lemma UpdateExactly(decode: Decoder, s: State, stale: set<Owner>, o: Owner)
    requires GoodBut(s, stale) && MemoryOk(s) && o in s.data && DecoderOk(decode)
    requires o in stale || Unpatched(s, o)
    ensures GoodBut(Update(decode, s, o), stale - {o}) <==> UsedFree(decode, s, o)
  {
    hide Update, MemoryOk, ShapeOk, DecoderOk, SameCode, FreeFor, Unpatched;
    var r, spots := Update(decode, s, o), SpotsAt(decode, s, AddrOf(s, o));
    if UsedFree(decode, s, o) {
      UpdateGood(decode, s, stale, o);
    } else {
      var k :| 0 <= k < |spots| && s.data[o][k].used && !FreeFor(s, o, spots[k]);
      var w := UpdateBreaks(decode, s, stale, o, k);
      assert Has(r, w) && !InfoOk(r, stale - {o}, w);
    }
  }

  // ----- toggling from outside -----

  lemma AddedGood(s: State, a: nat)
    requires Good(s) && Regular(a) !in s.data
    ensures Good(Added(s, a)) && Unpatched(Added(s, a), Regular(a)) && MemoryOk(Added(s, a))
  {
    var r := Added(s, a);
    forall x | Has(r, x) ensures InfoOk(r, {}, x) {
      if x.owner != Regular(a) { assert Has(s, x) && InfoOk(s, {}, x); }
    }
    forall p | p in r.dt ensures EntryOk(r, p) {
      assert EntryOk(s, p);
    }
    forall p | p in r.host ensures ByteOk(r, {}, p) {
      assert ByteOk(s, {}, p);
    }
  }

  lemma ErasedGood(s: State, a: nat)
    requires Good(s) && Regular(a) in s.data && !AnyUsed(s, Regular(a))
    ensures Good(Erased(s, a))
  {
    var r := Erased(s, a);
    forall x | Has(r, x) ensures InfoOk(r, {}, x) {
      assert Has(s, x) && InfoOk(s, {}, x);
    }
    forall p | p in r.dt ensures EntryOk(r, p) {
      assert EntryOk(s, p) && InfoOk(s, {}, s.dt[p]);
    }
    forall p | p in r.host ensures ByteOk(r, {}, p) {
      assert ByteOk(s, {}, p);
    }
  }

  /** A line can be enabled on code that is about to be decoded for it: its byte is not
      patched. */
  predicate SpotFree(decode: Decoder, s: State, a: nat, sub: nat)
    requires MemoryOk(s)
  {
    var spots := SpotsAt(decode, s, a);
    sub < |spots| ==> spots[sub] !in s.dt
  }

  predicate Unused(s: State, o: Owner)
    requires o in s.data
  {
    forall k :: 0 <= k < LINES ==> !s.data[o][k].used
  }

  /** An owner of which nothing is used can always be decoded again; its lines can be enabled
      exactly where no byte is patched. */
  lemma UpdateUnused(decode: Decoder, s: State, stale: set<Owner>, o: Owner, sub: nat)
    requires GoodBut(s, stale) && MemoryOk(s) && o in s.data && DecoderOk(decode) && sub < LINES
    requires Unused(s, o) && Unpatched(s, o)
    ensures var r := Update(decode, s, o);
            && GoodBut(r, stale - {o}) && Unused(r, o)
            && (CanEnable(r, Id(o, sub)) <==> SpotFree(decode, s, AddrOf(s, o), sub))
            && (ByteFree(r, Id(o, sub)) <==> SpotFree(decode, s, AddrOf(s, o), sub))
  {
    hide GoodBut, Update, MemoryOk, DecoderOk, SameCode, FreeFor, SpotsAt;
    var r, spots := Update(decode, s, o), SpotsAt(decode, s, AddrOf(s, o));
    UpdateGood(decode, s, stale, o);
    forall k | 0 <= k < LINES ensures !r.data[o][k].used {
      UpdateLine(decode, s, o, k);
    }
    UpdateLine(decode, s, o, sub);
    if sub < |spots| {
      PlacesNotZero(decode, s, o, sub);
      UpdateMiss(decode, s, o, spots[sub]);
    }
  }

  lemma PlacesNotZero(decode: Decoder, s: State, o: Owner, k: nat)
    requires MemoryOk(s) && DecoderOk(decode) && k < |SpotsAt(decode, s, AddrOf(s, o))|
    ensures var p := SpotsAt(decode, s, AddrOf(s, o))[k]; p != 0 && p in s.host
  {
    SpotsAtOk(decode, s, AddrOf(s, o));
  }

  ghost predicate ToggleAllowed(decode: Decoder, s: State, a: nat, sub: nat)
    requires MemoryOk(s)
  {
    sub < LINES ==>
      if Regular(a) in s.data then CanEnable(s, Id(Regular(a), sub)) else SpotFree(decode, s, a, sub)
  }

  lemma ToggleNew(decode: Decoder, s: State, a: nat, sub: nat)
    requires Good(s) && MemoryOk(s) && DecoderOk(decode) && Regular(a) !in s.data && sub < LINES
    ensures MemoryOk(Added(s, a))
    ensures var r := Update(decode, Added(s, a), Regular(a));
            && Good(r) && Unused(r, Regular(a)) && (CanEnable(r, Id(Regular(a), sub)) <==> SpotFree(decode, s, a, sub))
            && (ByteFree(r, Id(Regular(a), sub)) <==> SpotFree(decode, s, a, sub))
  {
    hide Good, GoodBut, Update, SameCode, DecoderOk, MemoryOk, ShapeOk, CanEnable, ByteFree;
    var t := Added(s, a);
    AddedGood(s, a);
    GoodParts(t);
    UpdateUnused(decode, t, {}, Regular(a), sub);
    assert {} - {Regular(a)} == {};
    NoneStale(Update(decode, t, Regular(a)));
    SameSpots(decode, s, t, a);
  }

  /** A toggle from outside keeps the claims exactly when the line it enables can be. */
  lemma ToggleAtExactly(decode: Decoder, s: State, a: nat, sub: nat)
    requires Good(s) && MemoryOk(s) && DecoderOk(decode)
    ensures Good(ToggleAt(decode, s, a, sub)) <==> ToggleAllowed(decode, s, a, sub)
    ensures Claims(ToggleAt(decode, s, a, sub)) <==> ToggleAllowed(decode, s, a, sub)
  {
    hide Good, Claims, Toggle, Update, SameCode, CanEnable, SpotFree, MemoryOk, DecoderOk, Erased;
    var id := Id(Regular(a), sub);
    if sub >= LINES {
      GoodClaims(s);
    } else if Regular(a) in s.data {
      ToggleExactly(s, id);
      var t := Toggle(s, id);
      ToggleFrame(s, id, id);
      if !AnyUsed(t, Regular(a)) {
        UsedCanToggle(s, id);
        ErasedGood(t, a);
        GoodClaims(Erased(t, a));
      }
    } else {
      ToggleNew(decode, s, a, sub);
      ToggleExactly(Update(decode, Added(s, a), Regular(a)), id);
    }
  }

  lemma UsedCanToggle(s: State, id: Id)
    requires Has(s, id)
    ensures Get(s, id).used ==> CanEnable(s, id)
  {
  }

  // ----- single steps -----

  lemma {:induction false} StepsOffToGood(s: State, n: nat)
    requires Good(s) && Stepper(0) in s.data && Stepper(1) in s.data && n <= LINES
    ensures Good(StepsOffTo(s, n))
    decreases n
  {
    hide Good, Toggle, SameCode, CanEnable;
    if n > 0 {
      var q := StepsOffTo(s, n - 1);
      StepsOffToGood(s, n - 1);
      UsedOff(q, Id(Stepper(0), n - 1));
      UsedOff(ToggleIfUsed(q, Id(Stepper(0), n - 1)), Id(Stepper(1), n - 1));
    }
  }

  lemma UsedOff(s: State, id: Id)
    requires Good(s) && Has(s, id)
    ensures Good(ToggleIfUsed(s, id))
  {
    hide Good, Toggle, CanEnable;
    if Get(s, id).used {
      UsedCanToggle(s, id);
      ToggleGood(s, id);
    }
  }

  lemma UsedOffGet(s: State, id: Id, x: Id)
    requires Has(s, id) && Has(s, x)
    ensures var r := ToggleIfUsed(s, id);
            Has(r, x) && (id == x ==> !Get(r, x).used) && (id != x ==> Get(r, x) == Get(s, x))
  {
  }

  lemma {:induction false} StepsOffToGet(s: State, n: nat, x: Id)
    requires Stepper(0) in s.data && Stepper(1) in s.data && n <= LINES && Has(s, x)
    ensures var r := StepsOffTo(s, n);
            && Has(r, x)
            && (x.owner in {Stepper(0), Stepper(1)} && x.sub < n ==> !Get(r, x).used)
            && (x.owner !in {Stepper(0), Stepper(1)} || x.sub >= n ==> Get(r, x) == Get(s, x))
    decreases n
  {
    hide ToggleIfUsed, SameCode;
    if n > 0 {
      var q := StepsOffTo(s, n - 1);
      StepsOffToGet(s, n - 1, x);
      UsedOffGet(q, Id(Stepper(0), n - 1), x);
      UsedOffGet(ToggleIfUsed(q, Id(Stepper(0), n - 1)), Id(Stepper(1), n - 1), x);
    }
  }

  lemma StepsOffGood(s: State)
    requires Good(s) && MemoryOk(s) && ShapeOk(s)
    ensures var t := StepsOff(s);
            && Good(t) && MemoryOk(t) && ShapeOk(t) && t.steps == s.steps && t.data.Keys == s.data.Keys
            && Stepper(0) in t.data && Stepper(1) in t.data && Unused(t, Stepper(0)) && Unused(t, Stepper(1))
  {
    hide Good, StepsOffTo;
    var n, t := |s.data[Stepper(0)]|, StepsOff(s);
    StepsOffToGood(s, n);
    SameShape(s, t);
    forall k | 0 <= k < LINES ensures !t.data[Stepper(0)][k].used && !t.data[Stepper(1)][k].used {
      StepsOffToGet(s, n, Id(Stepper(0), k));
      StepsOffToGet(s, n, Id(Stepper(1), k));
    }
  }

  lemma UnusedUnpatched(s: State, o: Owner)
    requires Good(s) && o in s.data && Unused(s, o)
    ensures Unpatched(s, o)
  {
    hide ShapeOk, MemoryOk;
    forall k | 0 <= k < LINES ensures !s.data[o][k].patched {
      assert Has(s, Id(o, k)) && InfoOk(s, {}, Id(o, k));
    }
  }

  lemma RedirectedLine(s: State, i: nat, a: nat, x: Id)
    requires Has(s, x) && InfoOk(s, {}, x) && |s.steps| == 2 && i < 2
    ensures InfoOk(s.(steps := s.steps[i := a]), {Stepper(i)}, x)
  {
  }

  /** Pointing an owner with nothing patched elsewhere makes its places stale. */
  lemma Redirected(s: State, i: nat, a: nat)
    requires Good(s) && i < 2 && |s.steps| == 2 && Stepper(i) in s.data && Unpatched(s, Stepper(i))
    ensures var r := s.(steps := s.steps[i := a]); GoodBut(r, {Stepper(i)}) && MemoryOk(r)
  {
    var r := s.(steps := s.steps[i := a]);
    CodeSameBut(s, r);
    hide MemoryOk, InfoOk;
    forall x | Has(r, x) ensures InfoOk(r, {Stepper(i)}, x) {
      RedirectedLine(s, i, a, x);
    }
    forall p | p in r.dt ensures EntryOk(r, p) {
      assert EntryOk(s, p);
    }
    forall p | p in r.host ensures ByteOk(r, {Stepper(i)}, p) {
      assert ByteOk(s, {}, p);
      if p in s.dt { assert EntryOk(s, p); }
    }
  }

  /** A single-step line can be enabled: on its own lines if the address stays, else on code
      about to be decoded. */
  ghost predicate CanStep(decode: Decoder, s: State, i: nat, a: nat, sub: nat)
    requires MemoryOk(s) && ShapeOk(s) && i < 2 && sub < LINES
  {
    StepperThere(s, i);
    if s.steps[i] == a then CanEnable(s, Id(Stepper(i), sub)) else SpotFree(decode, s, a, sub)
  }

  lemma StepperThere(s: State, i: nat)
    requires ShapeOk(s) && i < 2
    ensures |s.steps| == 2 && Stepper(i) in s.data
  {
  }

  /** Pointing a single-step owner anywhere is always possible; the condition is on the line
      that is then enabled. */
  lemma AimGood(decode: Decoder, s: State, i: nat, a: nat, sub: nat)
    requires Good(s) && MemoryOk(s) && ShapeOk(s) && DecoderOk(decode) && i < 2 && sub < LINES
    requires |s.steps| == 2 && Stepper(i) in s.data && Unused(s, Stepper(i))
    ensures var r := Aim(decode, s, i, a);
            && Good(r) && Unused(r, Stepper(i))
            && (CanEnable(r, Id(Stepper(i), sub)) <==> CanStep(decode, s, i, a, sub))
            && (s.steps[i] != a ==> (ByteFree(r, Id(Stepper(i), sub)) <==> CanStep(decode, s, i, a, sub)))
  {
    hide Good, GoodBut, Update, SameCode, DecoderOk, MemoryOk, ShapeOk, CanEnable, SpotFree, ByteFree;
    if s.steps[i] != a {
      var t := s.(steps := s.steps[i := a]);
      UnusedUnpatched(s, Stepper(i));
      Redirected(s, i, a);
      UpdateUnused(decode, t, {Stepper(i)}, Stepper(i), sub);
      assert {Stepper(i)} - {Stepper(i)} == {};
      NoneStale(Update(decode, t, Stepper(i)));
      SpotFreeSame(decode, s, t, a, sub);
    }
  }

  lemma SpotFreeSame(decode: Decoder, s: State, t: State, a: nat, sub: nat)
    requires MemoryOk(s) && MemoryOk(t)
    requires t.host == s.host && t.blocks == s.blocks && t.width == s.width && t.dt == s.dt
    ensures SpotFree(decode, t, a, sub) <==> SpotFree(decode, s, a, sub)
  {
    SameSpots(decode, s, t, a);
  }
}
