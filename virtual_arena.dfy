/** The flash-resident tensor store: a fixed directory of tensors whose bytes
    live in a read-only flash image and are paged on demand into a small RAM
    cache, evicting the least recently used unpinned tensor and never writing
    anything back.

    The directory is specified on values (Directory and the functions over it);
    the class Arena holds the store's globals and its methods are proved to
    compute exactly those functions. */
module VirtualArena {
  import opened Machine

  const VIRTUAL_ARENA_SIZE: nat := 64 * 1024
  const RAM_CACHE_SIZE: nat := 8 * 1024
  const MAX_VIRTUAL_TENSORS: nat := 32
  const INVALID_TENSOR_ID: u32 := 0xFFFF_FFFF

  /** Flash bytes a load can read: a tensor's copy length is its rounded size,
      so a last request that ends on the 64 KiB budget but is not a multiple
      of 8 reads up to 7 bytes past it. */
  const FLASH_WINDOW: nat := VIRTUAL_ARENA_SIZE + 7

  /** One entry of the tensor table. ramAddr is the cache offset of the
      tensor's bytes (None for NULL). The debug name is not modelled. */
  datatype Tensor = Tensor(
    id: nat,
    size: nat,
    flashOffset: nat,
    ramAddr: Option<nat>,
    inRam: bool,
    isConst: bool,
    pinned: bool,
    lastAccess: u32)

  /** A table entry as the zero-filled table holds it. */
  const BLANK: Tensor := Tensor(0, 0, 0, None, false, false, false, 0)

  /** The store's global state except the cache bytes: the whole 32-entry
      table, num_tensors, ram_used, access_counter and AllocTensor's
      function-static flash_offset. */
  datatype Directory = Directory(
    table: seq<Tensor>,
    numTensors: nat,
    ramUsed: int,
    accessCounter: u32,
    flashOffset: nat)

  /** The state before anything runs: every static is zero. */
  function Blank(): (d: Directory)
    ensures Inv(d) && d.numTensors == 0 && d.ramUsed == 0 && d.flashOffset == 0
  {
    var d := Directory(seq(MAX_VIRTUAL_TENSORS, _ => BLANK), 0, 0, 0, 0);
    ResidentBytesBlank(d.table);
    d
  }

  // ---------------------------------------------------------------- sizes

  /** The request rounded up to the 8-byte boundary, `(size + 7) & ~7`. */
  function Align8(size: nat): (r: nat)
    ensures r % 8 == 0 && size <= r < size + 8
  {
    (size + 7) / 8 * 8
  }

  function Resident(t: Tensor): nat {
    if t.inRam then t.size else 0
  }

  /** Total size of the resident tensors of a table. */
  function ResidentBytes(ts: seq<Tensor>): nat {
    if ts == [] then 0 else ResidentBytes(ts[..|ts| - 1]) + Resident(ts[|ts| - 1])
  }

  /** Number of resident tensors of a table. */
  function ResidentCount(ts: seq<Tensor>): nat {
    if ts == [] then 0 else ResidentCount(ts[..|ts| - 1]) + (if ts[|ts| - 1].inRam then 1 else 0)
  }

  /** Total (rounded) size of the tensors of a table. */
  function TotalSize(ts: seq<Tensor>): nat {
    if ts == [] then 0 else TotalSize(ts[..|ts| - 1]) + ts[|ts| - 1].size
  }

  lemma {:induction false} ResidentBytesUpdate(ts: seq<Tensor>, i: nat, t: Tensor)
    requires i < |ts|
    ensures ResidentBytes(ts[i := t]) == ResidentBytes(ts) - Resident(ts[i]) + Resident(t)
    ensures Resident(ts[i]) <= ResidentBytes(ts)
  {
    var last := |ts| - 1;
    if i == last {
      assert ts[i := t][..last] == ts[..last];
    } else {
      ResidentBytesUpdate(ts[..last], i, t);
      assert ts[i := t][..last] == ts[..last][i := t];
    }
  }

  lemma {:induction false} ResidentCountUpdate(ts: seq<Tensor>, i: nat, t: Tensor)
    requires i < |ts| && ts[i].inRam && !t.inRam
    ensures ResidentCount(ts[i := t]) == ResidentCount(ts) - 1
  {
    var last := |ts| - 1;
    if i == last {
      assert ts[i := t][..last] == ts[..last];
    } else {
      ResidentCountUpdate(ts[..last], i, t);
      assert ts[i := t][..last] == ts[..last][i := t];
    }
  }

  lemma {:induction false} ResidentBytesBlank(ts: seq<Tensor>)
    requires forall i :: 0 <= i < |ts| ==> !ts[i].inRam
    ensures ResidentBytes(ts) == 0
  {
    if ts != [] {
      ResidentBytesBlank(ts[..|ts| - 1]);
    }
  }

  /** Only the first n entries can be resident or sized, so the sums over the
      whole table are the sums over its live prefix. */
  lemma {:induction false} SumsOverPrefix(ts: seq<Tensor>, n: nat)
    requires n <= |ts|
    requires forall i :: n <= i < |ts| ==> ts[i] == BLANK
    ensures ResidentBytes(ts) == ResidentBytes(ts[..n])
    ensures ResidentCount(ts) == ResidentCount(ts[..n])
  {
    if |ts| > n {
      var last := |ts| - 1;
      assert ts[..last][..n] == ts[..n];
      SumsOverPrefix(ts[..last], n);
    } else {
      assert ts[..n] == ts;
    }
  }

  /** Resident bytes never exceed the total size of all tensors, nor the
      resident count the number of tensors. */
  lemma {:induction false} ResidentWithinTotal(ts: seq<Tensor>)
    ensures ResidentBytes(ts) <= TotalSize(ts)
    ensures ResidentCount(ts) <= |ts|
  {
    if ts != [] {
      ResidentWithinTotal(ts[..|ts| - 1]);
    }
  }

  // ------------------------------------------------------------ invariant

  /** What every live entry satisfies: its id is its index, its size is
      8-aligned, NULL address exactly when not resident, a resident copy lies
      inside the cache, and its flash bytes lie inside the flash window. */
  ghost predicate WellFormed(t: Tensor, i: nat) {
    t.id == i && t.size % 8 == 0 &&
    (t.inRam <==> t.ramAddr.Some?) &&
    (t.ramAddr.Some? ==> t.ramAddr.value + t.size <= RAM_CACHE_SIZE) &&
    t.flashOffset + t.size <= FLASH_WINDOW
  }

  /** The store invariant: ram_used is the total size of the resident tensors
      and at most the cache size; entries past num_tensors are blank. */
  ghost predicate Inv(d: Directory) {
    |d.table| == MAX_VIRTUAL_TENSORS &&
    d.numTensors <= MAX_VIRTUAL_TENSORS &&
    (forall i :: 0 <= i < d.numTensors ==> WellFormed(d.table[i], i)) &&
    (forall i :: d.numTensors <= i < MAX_VIRTUAL_TENSORS ==> d.table[i] == BLANK) &&
    d.ramUsed == ResidentBytes(d.table) &&
    d.ramUsed <= RAM_CACHE_SIZE &&
    d.flashOffset <= VIRTUAL_ARENA_SIZE
  }

  // ------------------------------------------------------------ directory

  /** VirtualArena_Init's effect on the directory: the table and the counters
      are cleared; AllocTensor's function-static flash_offset is not. */
  function Reinit(d: Directory): (r: Directory)
    requires Inv(d)
    ensures Inv(r) && r.numTensors == 0 && r.ramUsed == 0 && r.accessCounter == 0
    ensures r.flashOffset == d.flashOffset
    ensures forall i :: 0 <= i < |r.table| ==> !r.table[i].inRam
  {
    var r := Directory(seq(MAX_VIRTUAL_TENSORS, _ => BLANK), 0, 0, 0, d.flashOffset);
    ResidentBytesBlank(r.table);
    r
  }

  /** VirtualArena_AllocTensor: append a record whose flash bytes start at the
      current offset. The budget test is done without wrap-around (see
      AllocAsWritten for the uint32_t test of the source). */
  function Alloc(d: Directory, size: u32, isConst: bool): (r: (Directory, u32))
    requires Inv(d)
    ensures Inv(r.0)
    ensures r.1 == INVALID_TENSOR_ID <==>
              d.numTensors >= MAX_VIRTUAL_TENSORS || d.flashOffset + size > VIRTUAL_ARENA_SIZE
    ensures r.1 == INVALID_TENSOR_ID ==> r.0 == d
    ensures r.1 != INVALID_TENSOR_ID ==>
              && r.1 == d.numTensors
              && r.0.numTensors == d.numTensors + 1
              && r.0.flashOffset == d.flashOffset + size
              && r.0.ramUsed == d.ramUsed
              && r.0.accessCounter == d.accessCounter
              && (forall j :: 0 <= j < |d.table| && j != r.1 ==> r.0.table[j] == d.table[j])
    ensures r.1 != INVALID_TENSOR_ID ==>
              var t := r.0.table[r.1];
              && t.id == r.1
              && t.size % 8 == 0 && size <= t.size < size + 8
              && t.flashOffset == d.flashOffset
              && !t.inRam && t.ramAddr.None? && !t.pinned
              && t.lastAccess == 0 && t.isConst == isConst
  {
    if d.numTensors >= MAX_VIRTUAL_TENSORS || d.flashOffset + size > VIRTUAL_ARENA_SIZE then
      (d, INVALID_TENSOR_ID)
    else
      var id := d.numTensors;
      var t := Tensor(id, Align8(size), d.flashOffset, None, false, isConst, false, 0);
      ResidentBytesUpdate(d.table, id, t);
      (d.(table := d.table[id := t], numTensors := id + 1, flashOffset := d.flashOffset + size), id)
  }

  /** VirtualArena_AllocTensor exactly as the source computes it: the budget
      test `flash_offset + size` and the rounding `(size + 7) & ~7` are both
      evaluated in uint32_t and wrap. The model uses Alloc instead. */
  function AllocAsWritten(d: Directory, size: u32, isConst: bool): (r: (Directory, u32))
    requires |d.table| == MAX_VIRTUAL_TENSORS
    ensures r.1 == INVALID_TENSOR_ID ==> r.0 == d
    ensures r.1 != INVALID_TENSOR_ID ==> r.1 == d.numTensors && r.0.numTensors == d.numTensors + 1
  {
    if d.numTensors >= MAX_VIRTUAL_TENSORS || Wrap32(d.flashOffset + size) > VIRTUAL_ARENA_SIZE then
      (d, INVALID_TENSOR_ID)
    else
      var id := d.numTensors;
      var t := Tensor(id, Wrap32(size + 7) / 8 * 8, d.flashOffset, None, false, isConst, false, 0);
      (d.(table := d.table[id := t], numTensors := id + 1, flashOffset := Wrap32(d.flashOffset + size)), id)
  }

  /** Whenever no request could reach the wrap, the source's arithmetic and
      the model's agree. */
  lemma AllocAsWrittenAgrees(d: Directory, size: u32, isConst: bool)
    requires Inv(d) && size <= VIRTUAL_ARENA_SIZE
    ensures AllocAsWritten(d, size, isConst) == Alloc(d, size, isConst)
  {
  }

  /** After one 16-byte tensor, a request of 0xFFFFFFF9 bytes passes the
      source's test (16 + 0xFFFFFFF9 wraps to 9) and is recorded with size 0,
      and flash_offset falls back to 9; the model refuses the request. */
  lemma AllocAsWrittenAcceptsHugeRequest()
    ensures var d := Alloc(Blank(), 16, false).0;
            var w := AllocAsWritten(d, 0xFFFF_FFF9, false);
            && w.1 == 1
            && w.0.table[1].size == 0
            && w.0.flashOffset == 9
            && Alloc(d, 0xFFFF_FFF9, false).1 == INVALID_TENSOR_ID
  {
    var d := Alloc(Blank(), 16, false).0;
    assert d.numTensors == 1 && d.flashOffset == 16;
  }

  /** A tensor evict_tensor accepts. */
  predicate Droppable(t: Tensor) {
    t.inRam && !t.pinned
  }

  /** A tensor find_lru_tensor can choose: its scan starts from the bound
      0xFFFFFFFF with a strict `<`, so a tensor stamped 0xFFFFFFFF never is. */
  predicate Candidate(t: Tensor) {
    Droppable(t) && t.lastAccess < UINT32_MAX
  }

  function Dropped(t: Tensor): Tensor {
    t.(ramAddr := None, inRam := false)
  }

  /** evict_tensor: refuse an out-of-range, non-resident or pinned id;
      otherwise drop the RAM copy (nothing is written back). */
  function Evict(d: Directory, id: nat): (r: (Directory, bool))
    requires Inv(d)
    ensures Inv(r.0)
    ensures r.1 <==> id < d.numTensors && Droppable(d.table[id])
    ensures !r.1 ==> r.0 == d
    ensures r.1 ==>
              && r.0.ramUsed == d.ramUsed - d.table[id].size
              && r.0.table[id] == Dropped(d.table[id])
              && ResidentCount(r.0.table) == ResidentCount(d.table) - 1
              && (forall j :: 0 <= j < |d.table| && j != id ==> r.0.table[j] == d.table[j])
              && r.0.numTensors == d.numTensors
              && r.0.accessCounter == d.accessCounter
              && r.0.flashOffset == d.flashOffset
  {
    if id >= d.numTensors then (d, false)
    else
      var t := d.table[id];
      if !t.inRam || t.pinned then (d, false)
      else
        ResidentBytesUpdate(d.table, id, Dropped(t));
        ResidentCountUpdate(d.table, id, Dropped(t));
        (d.(table := d.table[id := Dropped(t)], ramUsed := d.ramUsed - t.size), true)
  }

  /** find_lru_tensor over the first n entries: the scan keeps the first
      candidate whose stamp is strictly below the best so far. */
  function LruOf(ts: seq<Tensor>, n: nat): (r: Option<nat>)
    requires n <= |ts|
    ensures r.Some? ==> r.value < n && Candidate(ts[r.value])
  {
    if n == 0 then None
    else
      var prev := LruOf(ts, n - 1);
      var bound := if prev.Some? then ts[prev.value].lastAccess else UINT32_MAX;
      var t := ts[n - 1];
      if t.inRam && !t.pinned && t.lastAccess < bound then Some(n - 1) else prev
  }

  /** The scan finds a candidate exactly when there is one, and then the
      least recently used candidate, the lowest index among equal stamps. */
  lemma {:induction false} LruOfIsLeastRecent(ts: seq<Tensor>, n: nat)
    requires n <= |ts|
    ensures LruOf(ts, n).None? <==> forall j :: 0 <= j < n ==> !Candidate(ts[j])
    ensures LruOf(ts, n).Some? ==>
              var v := LruOf(ts, n).value;
              && (forall j :: 0 <= j < n && Candidate(ts[j]) ==> ts[v].lastAccess <= ts[j].lastAccess)
              && (forall j :: 0 <= j < v && Candidate(ts[j]) ==> ts[v].lastAccess < ts[j].lastAccess)
  {
    if n > 0 {
      LruOfIsLeastRecent(ts, n - 1);
    }
  }

  /** d2 is d1 with some unpinned resident tensors dropped from RAM, and
      nothing else changed. */
  ghost predicate OnlyEvicted(d1: Directory, d2: Directory) {
    && |d2.table| == |d1.table|
    && d2.numTensors == d1.numTensors
    && d2.accessCounter == d1.accessCounter
    && d2.flashOffset == d1.flashOffset
    && forall j :: 0 <= j < |d1.table| ==>
         d2.table[j] == d1.table[j] || (Droppable(d1.table[j]) && d2.table[j] == Dropped(d1.table[j]))
  }

  /** The eviction loop of load_tensor: while the tensor of the given size
      does not fit, evict the least recently used candidate; give up when
      there is none, keeping the evictions already made. */
  function EvictUntilFits(d: Directory, need: nat): (r: (Directory, bool))
    requires Inv(d)
    ensures Inv(r.0)
    ensures OnlyEvicted(d, r.0)
    ensures r.1 <==> r.0.ramUsed + need <= RAM_CACHE_SIZE
    ensures !r.1 ==> forall j :: 0 <= j < r.0.numTensors ==> !Candidate(r.0.table[j])
    decreases ResidentCount(d.table)
  {
    if d.ramUsed + need <= RAM_CACHE_SIZE then (d, true)
    else
      LruOfIsLeastRecent(d.table, d.numTensors);
      match LruOf(d.table, d.numTensors)
      case None => (d, false)
      case Some(victim) =>
        var e := Evict(d, victim).0;
        var r := EvictUntilFits(e, need);
        OnlyEvictedTrans(d, e, r.0);
        r
  }

  lemma OnlyEvictedTrans(d1: Directory, d2: Directory, d3: Directory)
    requires OnlyEvicted(d1, d2) && OnlyEvicted(d2, d3)
    ensures OnlyEvicted(d1, d3)
  {
    forall j | 0 <= j < |d1.table|
      ensures d3.table[j] == d1.table[j] || (Droppable(d1.table[j]) && d3.table[j] == Dropped(d1.table[j]))
    {
      if d2.table[j] != d1.table[j] {
        assert !Droppable(d2.table[j]);
      }
    }
  }

  /** The last step of load_tensor: the tensor's copy is put at cache offset
      ram_used, which then grows by its size. */
  function Place(d: Directory, id: nat): (r: Directory)
    requires Inv(d) && id < d.numTensors && !d.table[id].inRam
    requires d.ramUsed + d.table[id].size <= RAM_CACHE_SIZE
    ensures Inv(r)
    ensures r.table[id] == d.table[id].(ramAddr := Some(d.ramUsed), inRam := true)
    ensures r.ramUsed == d.ramUsed + d.table[id].size
    ensures forall j :: 0 <= j < |d.table| && j != id ==> r.table[j] == d.table[j]
    ensures r.numTensors == d.numTensors && r.accessCounter == d.accessCounter && r.flashOffset == d.flashOffset
  {
    var placed := d.table[id].(ramAddr := Some(d.ramUsed), inRam := true);
    ResidentBytesUpdate(d.table, id, placed);
    d.(table := d.table[id := placed], ramUsed := d.ramUsed + d.table[id].size)
  }

  /** load_tensor: a resident tensor is left where it is; otherwise evict until
      it fits and bump-place it at cache offset ram_used. */
  function Load(d: Directory, id: nat): (r: (Directory, bool))
    requires Inv(d)
    ensures Inv(r.0)
    ensures r.1 ==> id < d.numTensors && r.0.table[id].inRam
    ensures id >= d.numTensors || d.table[id].inRam ==> r == (d, id < d.numTensors)
    ensures id < d.numTensors && !d.table[id].inRam ==>
              && r.0.numTensors == d.numTensors
              && r.0.accessCounter == d.accessCounter
              && r.0.flashOffset == d.flashOffset
              && (forall j :: 0 <= j < |d.table| && j != id ==>
                    r.0.table[j] == d.table[j] || (Droppable(d.table[j]) && r.0.table[j] == Dropped(d.table[j])))
    ensures id < d.numTensors && !d.table[id].inRam && !r.1 ==>
              && r.0.table[id] == d.table[id]
              && r.0.ramUsed + d.table[id].size > RAM_CACHE_SIZE
              && forall j :: 0 <= j < r.0.numTensors ==> !Candidate(r.0.table[j])
    ensures id < d.numTensors && !d.table[id].inRam && r.1 ==>
              && r.0.table[id].ramAddr.Some?
              && r.0.table[id].ramAddr.value + d.table[id].size == r.0.ramUsed
              && r.0.table[id] == d.table[id].(ramAddr := r.0.table[id].ramAddr, inRam := true)
  {
    if id >= d.numTensors then (d, false)
    else if d.table[id].inRam then (d, true)
    else
      var e := EvictUntilFits(d, d.table[id].size);
      assert e.0.table[id] == d.table[id];
      if !e.1 then e else (Place(e.0, id), true)
  }

  /** The directory after VirtualArena_GetTensor stamps tensor id. */
  function Touch(d: Directory, id: nat): (r: Directory)
    requires Inv(d) && id < d.numTensors
    ensures Inv(r)
    ensures r.table == d.table[id := d.table[id].(lastAccess := d.accessCounter)]
    ensures r.ramUsed == d.ramUsed && r.numTensors == d.numTensors && r.flashOffset == d.flashOffset
    ensures r.accessCounter == Inc32(d.accessCounter)
  {
    ResidentBytesUpdate(d.table, id, d.table[id].(lastAccess := d.accessCounter));
    d.(table := d.table[id := d.table[id].(lastAccess := d.accessCounter)],
       accessCounter := Inc32(d.accessCounter))
  }

  /** VirtualArena_GetTensor: the cache offset of the tensor's view, or None
      for NULL. The stamp is taken before the load, so it stays even when
      loading fails. */
  function Get(d: Directory, id: nat): (r: (Directory, Option<nat>))
    requires Inv(d)
    ensures Inv(r.0)
    ensures id >= d.numTensors ==> r == (d, None)
    ensures id < d.numTensors ==>
              && r.0.table[id].lastAccess == d.accessCounter
              && r.0.accessCounter == Inc32(d.accessCounter)
              && r.0.numTensors == d.numTensors
              && (r.1.Some? <==> r.0.table[id].inRam)
              && (r.1.Some? ==> r.1 == r.0.table[id].ramAddr)
    ensures id < d.numTensors && d.table[id].inRam ==>
              && r.1 == d.table[id].ramAddr
              && r.0.ramUsed == d.ramUsed
              && r.0.table == d.table[id := d.table[id].(lastAccess := d.accessCounter)]
  {
    if id >= d.numTensors then (d, None)
    else
      var s := Touch(d, id);
      if s.table[id].inRam then (s, s.table[id].ramAddr)
      else
        var l := Load(s, id);
        assert l.0.table[id].lastAccess == d.accessCounter;
        (l.0, if l.1 then l.0.table[id].ramAddr else None)
  }

  /** VirtualArena_PinTensor and VirtualArena_UnpinTensor: set the flag of a
      valid id, and nothing else. */
  function SetPinned(d: Directory, id: nat, pinned: bool): (r: Directory)
    requires Inv(d)
    ensures Inv(r)
    ensures id >= d.numTensors ==> r == d
    ensures id < d.numTensors ==>
              && r.table[id] == d.table[id].(pinned := pinned)
              && r.ramUsed == d.ramUsed && r.numTensors == d.numTensors
              && r.accessCounter == d.accessCounter && r.flashOffset == d.flashOffset
              && (forall j :: 0 <= j < |d.table| && j != id ==> r.table[j] == d.table[j])
  {
    if id < d.numTensors then
      ResidentBytesUpdate(d.table, id, d.table[id].(pinned := pinned));
      d.(table := d.table[id := d.table[id].(pinned := pinned)])
    else d
  }

  /** Pinning is what protects a tensor: a resident pinned tensor keeps its
      place in the cache across any GetTensor of another tensor. */
  lemma {:induction false} PinnedSurvivesGet(d: Directory, id: nat, p: nat)
    requires Inv(d) && p < d.numTensors && p != id
    requires d.table[p].inRam && d.table[p].pinned
    ensures Get(d, id).0.table[p] == d.table[p]
  {
    if id < d.numTensors {
      var s := Touch(d, id);
      assert s.table[p] == d.table[p];
      if !s.table[id].inRam {
        assert !Droppable(s.table[p]);
      }
    }
  }

  /** Pin and Unpin are idempotent, and Unpin undoes Pin on an unpinned tensor. */
  lemma {:induction false} SetPinnedIdempotent(d: Directory, id: nat, pinned: bool)
    requires Inv(d)
    ensures SetPinned(SetPinned(d, id, pinned), id, pinned) == SetPinned(d, id, pinned)
    ensures id < d.numTensors && !d.table[id].pinned ==> SetPinned(SetPinned(d, id, true), id, false) == d
  {
    if id < d.numTensors {
      var once := SetPinned(d, id, pinned);
      assert once.table[id := once.table[id].(pinned := pinned)] == once.table;
      if !d.table[id].pinned {
        var p := SetPinned(d, id, true);
        assert p.table[id := p.table[id].(pinned := false)] == d.table;
      }
    }
  }

  /** Two successive GetTensor calls on valid ids stamp strictly increasing
      access times unless the counter wraps. */
  lemma StampsIncrease(d: Directory, a: nat, b: nat)
    requires Inv(d) && a < d.numTensors && b < d.numTensors
    requires d.accessCounter < UINT32_MAX
    ensures var d1 := Get(d, a).0;
            var d2 := Get(d1, b).0;
            d2.table[b].lastAccess == d1.table[a].lastAccess + 1
  {
  }

  /** A store with no tensors, nothing cached, the counter at 0 and the
      flash offset at 0, as at program start. */
  ghost predicate Fresh(d: Directory) {
    Inv(d) && d.numTensors == 0 && d.ramUsed == 0 && d.accessCounter == 0 && d.flashOffset == 0
  }

  /** The backbone's three intermediates on a fresh store: conv1 (4608
      bytes) is id 0, pool1 (2304) id 1 and conv2 (1152) id 2. */
  function BackboneIntermediates(d0: Directory): (d: Directory)
    requires Fresh(d0)
    ensures Inv(d) && d.numTensors == 3 && d.ramUsed == 0 && d.accessCounter == 0
    ensures d.flashOffset == 8064
    ensures d.table[0].size == 4608 && d.table[1].size == 2304 && d.table[2].size == 1152
    ensures forall j :: 0 <= j < 3 ==> !d.table[j].inRam && !d.table[j].pinned
  {
    var a0 := Alloc(d0, 4608, false).0;
    var a1 := Alloc(a0, 2304, false).0;
    Alloc(a1, 1152, false).0
  }

  /** The directory after the backbone interpreter's tensors are allocated on
      a fresh store and its input and output pinned: the intermediates, then
      the input (2880 bytes) as id 3 and the output (2304) as id 4. */
  function BackboneAllocated(d0: Directory): (d: Directory)
    requires Fresh(d0)
    ensures Inv(d) && d.numTensors == 5 && d.ramUsed == 0 && d.accessCounter == 0
    ensures d.table[0].size == 4608 && d.table[1].size == 2304 && d.table[2].size == 1152
    ensures d.table[3].size == 2880 && d.table[4].size == 2304
    ensures forall j :: 0 <= j < 5 ==> !d.table[j].inRam
    ensures d.table[3].pinned && d.table[4].pinned
    ensures !d.table[0].pinned && !d.table[1].pinned && !d.table[2].pinned
  {
    var a2 := BackboneIntermediates(d0);
    var a3 := Alloc(a2, 2880, false).0;
    var a4 := Alloc(a3, 2304, false).0;
    SetPinned(SetPinned(a4, 3, true), 4, true)
  }

  /** A GetTensor that misses stamps first and then loads. */
  lemma GetMiss(d: Directory, id: nat)
    requires Inv(d) && id < d.numTensors && !d.table[id].inRam
    ensures var l := Load(Touch(d, id), id);
            Get(d, id) == (l.0, if l.1 then l.0.table[id].ramAddr else None)
  {
  }

  /** A load that fits without eviction is a placement at ram_used. */
  lemma LoadFits(s: Directory, id: nat)
    requires Inv(s) && id < s.numTensors && !s.table[id].inRam
    requires s.ramUsed + s.table[id].size <= RAM_CACHE_SIZE
    ensures Load(s, id) == (Place(s, id), true)
  {
    assert EvictUntilFits(s, s.table[id].size) == (s, true);
  }

  /** Loading a tensor that fits without eviction puts it at offset ram_used. */
  lemma GetPlacesAtEnd(d: Directory, id: nat)
    requires Inv(d) && id < d.numTensors && !d.table[id].inRam
    requires d.ramUsed + d.table[id].size <= RAM_CACHE_SIZE
    ensures var r := Get(d, id);
            && r.1 == Some(d.ramUsed)
            && r.0.ramUsed == d.ramUsed + d.table[id].size
            && r.0.table[id] == d.table[id].(ramAddr := Some(d.ramUsed), inRam := true, lastAccess := d.accessCounter)
            && r.0.accessCounter == Inc32(d.accessCounter)
            && r.0.numTensors == d.numTensors
            && forall j :: 0 <= j < |d.table| && j != id ==> r.0.table[j] == d.table[j]
  {
    var s := Touch(d, id);
    GetMiss(d, id);
    LoadFits(s, id);
  }

  /** A load that needs exactly one eviction, of the LRU victim v. */
  lemma LoadEvictsOne(s: Directory, id: nat, v: nat)
    requires Inv(s) && id < s.numTensors && !s.table[id].inRam
    requires s.ramUsed + s.table[id].size > RAM_CACHE_SIZE
    requires LruOf(s.table, s.numTensors) == Some(v)
    requires s.ramUsed - s.table[v].size + s.table[id].size <= RAM_CACHE_SIZE
    ensures var r := Load(s, id);
            var at := s.ramUsed - s.table[v].size;
            && at >= 0 && r.1
            && r.0.ramUsed == at + s.table[id].size
            && r.0.table[id] == s.table[id].(ramAddr := Some(at), inRam := true)
            && r.0.table[v] == Dropped(s.table[v])
            && r.0.accessCounter == s.accessCounter
            && r.0.numTensors == s.numTensors
            && forall j :: 0 <= j < |s.table| && j != id && j != v ==> r.0.table[j] == s.table[j]
  {
    var e := EvictOnceThenFits(s, s.table[id].size, v);
    assert e.table[id] == s.table[id];
    assert Load(s, id) == (Place(e, id), true);
  }

  /** Loading a tensor that needs exactly one eviction, of victim v, puts it
      at the offset ram_used has after v's bytes are released. */
  lemma GetEvictsOne(d: Directory, id: nat, v: nat)
    requires Inv(d) && id < d.numTensors && !d.table[id].inRam
    requires d.ramUsed + d.table[id].size > RAM_CACHE_SIZE
    requires LruOf(d.table, d.numTensors) == Some(v) && v != id
    requires d.ramUsed - d.table[v].size + d.table[id].size <= RAM_CACHE_SIZE
    ensures var r := Get(d, id);
            var at := d.ramUsed - d.table[v].size;
            && at >= 0
            && r.1 == Some(at)
            && r.0.ramUsed == at + d.table[id].size
            && r.0.table[id] == d.table[id].(ramAddr := Some(at), inRam := true, lastAccess := d.accessCounter)
            && r.0.table[v] == Dropped(d.table[v])
            && r.0.accessCounter == Inc32(d.accessCounter)
            && r.0.numTensors == d.numTensors
            && forall j :: 0 <= j < |d.table| && j != id && j != v ==> r.0.table[j] == d.table[j]
  {
    var s := Touch(d, id);
    LruIgnoresNonCandidate(d.table, d.numTensors, id, s.table[id]);
    GetMiss(d, id);
    LoadEvictsOne(s, id, v);
  }

  /** One eviction of the LRU victim v, after which the request fits. */
  lemma EvictOnceThenFits(d: Directory, need: nat, v: nat) returns (e: Directory)
    requires Inv(d) && d.ramUsed + need > RAM_CACHE_SIZE
    requires LruOf(d.table, d.numTensors) == Some(v)
    requires d.ramUsed - d.table[v].size + need <= RAM_CACHE_SIZE
    ensures e == Evict(d, v).0 && EvictUntilFits(d, need) == (e, true)
  {
    e := Evict(d, v).0;
    assert EvictUntilFits(e, need) == (e, true);
  }

  /** Changing an entry that is a candidate neither before nor after leaves
      the LRU choice as it was. */
  lemma {:induction false} LruIgnoresNonCandidate(ts: seq<Tensor>, n: nat, i: nat, t: Tensor)
    requires n <= |ts| && i < |ts|
    requires !Candidate(ts[i]) && !Candidate(t)
    ensures LruOf(ts[i := t], n) == LruOf(ts, n)
  {
    if n > 0 {
      LruIgnoresNonCandidate(ts, n - 1, i, t);
    }
  }

  /** get_input and invoke's first fetch: the pinned input lands at 0, and
      the second fetch is a hit. */
  lemma TraceLoadsInput(d0: Directory) returns (g2: Directory)
    requires Fresh(d0)
    ensures g2 == Get(Get(BackboneAllocated(d0), 3).0, 3).0
    ensures Inv(g2) && g2.numTensors == 5 && g2.ramUsed == 2880 && g2.accessCounter == 2
    ensures g2.table[3].inRam && g2.table[3].pinned
    ensures !g2.table[0].inRam && !g2.table[0].pinned && g2.table[0].size == 4608
    ensures !g2.table[1].inRam && !g2.table[1].pinned && g2.table[1].size == 2304
    ensures !g2.table[2].inRam && !g2.table[2].pinned && g2.table[2].size == 1152
    ensures !g2.table[4].inRam && g2.table[4].pinned && g2.table[4].size == 2304
  {
    var a := BackboneAllocated(d0);
    GetPlacesAtEnd(a, 3);
    var g1 := Get(a, 3).0;
    g2 := Get(g1, 3).0;
  }

  /** conv1 is fetched and placed after the input, at 2880. */
  lemma TraceLoadsConv1(g2: Directory) returns (g3: Directory)
    requires Inv(g2) && g2.numTensors == 5 && g2.ramUsed == 2880 && g2.accessCounter == 2
    requires g2.table[3].inRam && g2.table[3].pinned
    requires !g2.table[0].inRam && !g2.table[0].pinned && g2.table[0].size == 4608
    requires !g2.table[1].inRam && !g2.table[1].pinned && g2.table[1].size == 2304
    requires !g2.table[2].inRam && !g2.table[2].pinned && g2.table[2].size == 1152
    requires !g2.table[4].inRam && g2.table[4].pinned && g2.table[4].size == 2304
    ensures g3 == Get(g2, 0).0
    ensures Inv(g3) && g3.numTensors == 5 && g3.ramUsed == 7488 && g3.accessCounter == 3
    ensures g3.table[0].inRam && !g3.table[0].pinned && g3.table[0].lastAccess == 2 && g3.table[0].size == 4608
    ensures g3.table[3].inRam && g3.table[3].pinned
    ensures !g3.table[1].inRam && !g3.table[1].pinned && g3.table[1].size == 2304
    ensures !g3.table[2].inRam && !g3.table[2].pinned && g3.table[2].size == 1152
    ensures !g3.table[4].inRam && g3.table[4].pinned && g3.table[4].size == 2304
  {
    GetPlacesAtEnd(g2, 0);
    g3 := Get(g2, 0).0;
  }

  /** pool1 is fetched: conv1, the only candidate, is evicted and pool1 takes
      2880; then conv1 is unpinned and conv2 is placed at 5184. */
  lemma TraceEvictsConv1(g3: Directory) returns (g5: Directory)
    requires Inv(g3) && g3.numTensors == 5 && g3.ramUsed == 7488 && g3.accessCounter == 3
    requires g3.table[0].inRam && !g3.table[0].pinned && g3.table[0].lastAccess == 2 && g3.table[0].size == 4608
    requires g3.table[3].inRam && g3.table[3].pinned
    requires !g3.table[1].inRam && !g3.table[1].pinned && g3.table[1].size == 2304
    requires !g3.table[2].inRam && !g3.table[2].pinned && g3.table[2].size == 1152
    requires !g3.table[4].inRam && g3.table[4].pinned && g3.table[4].size == 2304
    ensures g5 == Get(SetPinned(Get(g3, 1).0, 0, false), 2).0
    ensures Inv(g5) && g5.numTensors == 5 && g5.ramUsed == 6336 && g5.accessCounter == 5
    ensures !g5.table[0].inRam
    ensures g5.table[1].inRam && !g5.table[1].pinned && g5.table[1].lastAccess == 3 && g5.table[1].size == 2304
    ensures g5.table[2].inRam && !g5.table[2].pinned && g5.table[2].lastAccess == 4
    ensures g5.table[2].ramAddr == Some(5184) && g5.table[2].size == 1152
    ensures g5.table[3].inRam && g5.table[3].pinned
    ensures !g5.table[4].inRam && g5.table[4].pinned && g5.table[4].size == 2304
  {
    LruOfIsLeastRecent(g3.table, 5);
    assert LruOf(g3.table, 5) == Some(0);
    GetEvictsOne(g3, 1, 0);
    var g4 := Get(g3, 1).0;
    var u1 := SetPinned(g4, 0, false);
    GetPlacesAtEnd(u1, 2);
    g5 := Get(u1, 2).0;
  }

  /** The output is fetched: pool1 (stamp 3) is older than conv2 (stamp 4),
      so pool1 is evicted and the output is placed at 6336 - 2304 = 4032. */
  lemma TraceEvictsPool1(g5: Directory) returns (g6: Directory)
    requires Inv(g5) && g5.numTensors == 5 && g5.ramUsed == 6336 && g5.accessCounter == 5
    requires !g5.table[0].inRam
    requires g5.table[1].inRam && !g5.table[1].pinned && g5.table[1].lastAccess == 3 && g5.table[1].size == 2304
    requires g5.table[2].inRam && !g5.table[2].pinned && g5.table[2].lastAccess == 4
    requires g5.table[2].ramAddr == Some(5184) && g5.table[2].size == 1152
    requires g5.table[3].inRam && g5.table[3].pinned
    requires !g5.table[4].inRam && g5.table[4].pinned && g5.table[4].size == 2304
    ensures g6 == Get(SetPinned(g5, 1, false), 4).0
    ensures g6.table[2] == g5.table[2]
    ensures g6.table[4].inRam && g6.table[4].ramAddr == Some(4032) && g6.table[4].size == 2304
  {
    var u2 := SetPinned(g5, 1, false);
    LruOfIsLeastRecent(u2.table, 5);
    assert LruOf(u2.table, 5) == Some(1);
    GetEvictsOne(u2, 4, 1);
    g6 := Get(u2, 4).0;
  }

  /** The directory after get_input and one invoke of the freshly allocated
      backbone (see BackboneOutputOverlapsConv2). */
  function BackboneInvokeTrace(d0: Directory): (d: Directory)
    requires Fresh(d0)
    ensures Inv(d)
  {
    var a := BackboneAllocated(d0);
    var g3 := Get(Get(Get(a, 3).0, 3).0, 0).0;
    var g5 := Get(SetPinned(Get(g3, 1).0, 0, false), 2).0;
    Get(SetPinned(g5, 1, false), 4).0
  }

  /** Bump placement does not keep resident regions apart. On the backbone's
      access pattern (get_input; then invoke: input, conv1, pool1, conv2,
      output, unpinning each intermediate after the next one is fetched),
      conv1 is evicted for pool1, pool1 for the output, and the output lands
      at [4032, 6336) on top of conv2's live region [5184, 6336). The store
      starts fresh: at program start (Blank) or after Init on a store whose
      flash offset is still 0. */
  lemma BackboneOutputOverlapsConv2(d0: Directory)
    requires Fresh(d0)
    ensures var d := BackboneInvokeTrace(d0);
            && d.table[2].inRam && d.table[2].ramAddr == Some(5184) && d.table[2].size == 1152
            && d.table[4].inRam && d.table[4].ramAddr == Some(4032) && d.table[4].size == 2304
            && d.table[4].ramAddr.value < d.table[2].ramAddr.value + d.table[2].size
            && d.table[2].ramAddr.value < d.table[4].ramAddr.value + d.table[4].size
  {
    var g2 := TraceLoadsInput(d0);
    var g3 := TraceLoadsConv1(g2);
    var g5 := TraceEvictsConv1(g3);
    var g6 := TraceEvictsPool1(g5);
  }

  // ------------------------------------------------ a placement that is apart

  /** Distinct resident tensors occupy cache regions that do not overlap. */
  ghost predicate ResidentsApart(ts: seq<Tensor>) {
    forall i, j :: 0 <= i < |ts| && 0 <= j < |ts| && i != j && ts[i].inRam && ts[j].inRam ==>
      && ts[i].ramAddr.Some? && ts[j].ramAddr.Some?
      && (ts[i].ramAddr.value + ts[i].size <= ts[j].ramAddr.value ||
          ts[j].ramAddr.value + ts[j].size <= ts[i].ramAddr.value)
  }

  /** The table with the resident tensors slid down in index order, so that
      they tile the cache from offset 0: each resident tensor starts where
      the resident tensors before it end. */
  function Repack(ts: seq<Tensor>): (r: seq<Tensor>)
    ensures |r| == |ts|
    ensures forall i :: 0 <= i < |ts| ==>
              r[i] == ts[i].(ramAddr := if ts[i].inRam then Some(ResidentBytes(ts[..i])) else ts[i].ramAddr)
  {
    seq(|ts|, i requires 0 <= i < |ts| =>
          ts[i].(ramAddr := if ts[i].inRam then Some(ResidentBytes(ts[..i])) else ts[i].ramAddr))
  }

  /** The resident bytes of a prefix grow with the prefix, by at least the
      entry that ends the shorter one. */
  lemma {:induction false} ResidentBytesPrefixGrows(ts: seq<Tensor>, a: nat, b: nat)
    requires a < b <= |ts|
    ensures ResidentBytes(ts[..a]) + Resident(ts[a]) <= ResidentBytes(ts[..b])
    decreases b
  {
    assert ts[..b][..b - 1] == ts[..b - 1];
    if b - 1 > a {
      ResidentBytesPrefixGrows(ts, a, b - 1);
    }
  }

  /** Moving tensors does not change the resident total. */
  lemma {:induction false} ResidentBytesOfSameResidency(ts: seq<Tensor>, us: seq<Tensor>)
    requires |ts| == |us|
    requires forall i :: 0 <= i < |ts| ==> Resident(ts[i]) == Resident(us[i])
    ensures ResidentBytes(ts) == ResidentBytes(us)
  {
    if ts != [] {
      ResidentBytesOfSameResidency(ts[..|ts| - 1], us[..|us| - 1]);
    }
  }

  /** Repacking keeps every residency and the resident total, puts every
      resident tensor inside the first ResidentBytes bytes, and keeps
      distinct resident tensors apart. */
  lemma RepackApart(ts: seq<Tensor>)
    ensures ResidentBytes(Repack(ts)) == ResidentBytes(ts)
    ensures forall i :: 0 <= i < |ts| && ts[i].inRam ==>
              Repack(ts)[i].ramAddr.value + ts[i].size <= ResidentBytes(ts)
    ensures ResidentsApart(Repack(ts))
  {
    var r := Repack(ts);
    ResidentBytesOfSameResidency(ts, r);
    assert ts[..|ts|] == ts;
    forall i | 0 <= i < |ts| && ts[i].inRam
      ensures r[i].ramAddr.value + ts[i].size <= ResidentBytes(ts)
    {
      ResidentBytesPrefixGrows(ts, i, |ts|);
    }
    forall i, j | 0 <= i < |ts| && 0 <= j < |ts| && i != j && r[i].inRam && r[j].inRam
      ensures r[i].ramAddr.value + r[i].size <= r[j].ramAddr.value ||
              r[j].ramAddr.value + r[j].size <= r[i].ramAddr.value
    {
      if i < j {
        ResidentBytesPrefixGrows(ts, i, j);
      } else {
        ResidentBytesPrefixGrows(ts, j, i);
      }
    }
  }

  /** load_tensor followed by compacting the cache: the same evictions, the
      same outcome and the same records as Load, except that the resident
      tensors are moved so that no two of them overlap. */
  function LoadCompacted(d: Directory, id: nat): (r: (Directory, bool))
    requires Inv(d)
    ensures Inv(r.0) && ResidentsApart(r.0.table)
    ensures var l := Load(d, id);
            && r.1 == l.1
            && r.0.numTensors == l.0.numTensors && r.0.ramUsed == l.0.ramUsed
            && r.0.accessCounter == l.0.accessCounter && r.0.flashOffset == l.0.flashOffset
            && |r.0.table| == |l.0.table|
            && forall j :: 0 <= j < |l.0.table| ==> r.0.table[j] == l.0.table[j].(ramAddr := r.0.table[j].ramAddr)
  {
    var l := Load(d, id);
    RepackApart(l.0.table);
    (l.0.(table := Repack(l.0.table)), l.1)
  }

  /** The fields VirtualArena_GetStats writes. cache_hits and cache_misses
      are left unwritten by the source and are not modelled. */
  datatype Stats = Stats(
    totalTensors: nat,
    tensorsInRam: nat,
    ramUsed: nat,
    ramTotal: nat,
    flashUsed: nat,
    flashTotal: nat,
    swapCount: nat)

  /** The byte image of the cache after src is copied to offset at. */
  function Placed(cache: seq<u8>, at: nat, src: seq<u8>): (r: seq<u8>)
    requires at + |src| <= |cache|
    ensures |r| == |cache|
  {
    cache[..at] + src + cache[at + |src|..]
  }

  /** The copy lands exactly where asked and leaves every other byte alone. */
  lemma PlacedOnlyThere(cache: seq<u8>, at: nat, src: seq<u8>)
    requires at + |src| <= |cache|
    ensures Placed(cache, at, src)[at..at + |src|] == src
    ensures forall k :: 0 <= k < |cache| && !(at <= k < at + |src|) ==> Placed(cache, at, src)[k] == cache[k]
  {
    var r := Placed(cache, at, src);
    assert r[at..at + |src|] == src;
  }

  // ------------------------------------------------------------- the globals

  class Arena {
    var table: seq<Tensor>
    var numTensors: nat
    var ramUsed: nat
    var accessCounter: u32
    /** AllocTensor's function-static offset into the flash arena. */
    var flashOffset: nat
    /** The heap-allocated RAM cache; NULL until Init allocates it. */
    var cache: array?<u8>
    /** The flash image the tensors are read from. */
    const flash: seq<u8>

    ghost function Dir(): Directory
      reads this
    {
      Directory(table, numTensors, ramUsed, accessCounter, flashOffset)
    }

    ghost predicate Valid()
      reads this, cache
    {
      Inv(Dir()) && |flash| == FLASH_WINDOW &&
      (cache != null ==> cache.Length == RAM_CACHE_SIZE)
    }

    /** The statics at program start. */
    constructor (flashImage: seq<u8>)
      requires |flashImage| == FLASH_WINDOW
      ensures Valid() && Dir() == Blank() && cache == null && flash == flashImage
    {
      table := seq(MAX_VIRTUAL_TENSORS, _ => BLANK);
      numTensors, ramUsed, accessCounter, flashOffset := 0, 0, 0, 0;
      cache := null;
      flash := flashImage;
      new;
      assert Dir() == Blank();
    }

    /** VirtualArena_Init. mallocOk is the outcome of malloc when the cache
        is still NULL; linkerSize is __tensor_arena_end__ minus
        __tensor_arena_start__ (0 stands for "symbols not set"). */
    method Init(mallocOk: bool, linkerSize: u32) returns (ok: bool)
      requires Valid()
      modifies this, cache
      ensures Valid() && Dir() == Reinit(old(Dir()))
      ensures old(cache) != null ==> cache == old(cache)
      ensures old(cache) == null ==> (cache == null <==> !mallocOk) && (cache != null ==> fresh(cache))
      ensures cache != null ==> forall k :: 0 <= k < cache.Length ==> cache[k] == 0
      ensures ok <==> cache != null && (linkerSize == 0 || linkerSize >= VIRTUAL_ARENA_SIZE)
    {
      table := seq(MAX_VIRTUAL_TENSORS, _ => BLANK);
      numTensors, ramUsed, accessCounter := 0, 0, 0;
      assert Dir() == Reinit(old(Dir()));
      if cache == null {
        if !mallocOk {
          return false;
        }
        cache := new u8[RAM_CACHE_SIZE];
      }
      forall k | 0 <= k < cache.Length {
        cache[k] := 0;
      }
      var flashSize := linkerSize;
      if flashSize == 0 {
        flashSize := VIRTUAL_ARENA_SIZE;
      }
      if flashSize < VIRTUAL_ARENA_SIZE {
        return false;
      }
      return true;
    }

    /** VirtualArena_AllocTensor (the debug name is not modelled). */
    method AllocTensor(size: u32, isConst: bool) returns (id: u32)
      requires Valid()
      modifies this
      ensures Valid() && cache == old(cache)
      ensures (Dir(), id) == Alloc(old(Dir()), size, isConst)
    {
      if numTensors >= MAX_VIRTUAL_TENSORS {
        return INVALID_TENSOR_ID;
      }
      if flashOffset + size > VIRTUAL_ARENA_SIZE {
        return INVALID_TENSOR_ID;
      }
      ghost var spec := Alloc(Dir(), size, isConst);
      id := numTensors;
      var t := Tensor(id, Align8(size), flashOffset, None, false, isConst, false, 0);
      table := table[id := t];
      flashOffset := flashOffset + size;
      numTensors := numTensors + 1;
      assert Dir() == spec.0;
    }

    /** find_lru_tensor. */
    method FindLruTensor() returns (lru: u32)
      requires Valid()
      ensures LruOf(table, numTensors).None? ==> lru == INVALID_TENSOR_ID
      ensures LruOf(table, numTensors).Some? ==> lru == LruOf(table, numTensors).value
    {
      lru := INVALID_TENSOR_ID;
      var minAccess: u32 := UINT32_MAX;
      var i := 0;
      while i < numTensors
        invariant 0 <= i <= numTensors
        invariant LruOf(table, i).None? ==> lru == INVALID_TENSOR_ID && minAccess == UINT32_MAX
        invariant LruOf(table, i).Some? ==>
                    lru == LruOf(table, i).value && minAccess == table[lru].lastAccess
      {
        var t := table[i];
        if t.inRam && !t.pinned && t.lastAccess < minAccess {
          minAccess := t.lastAccess;
          lru := i;
        }
        i := i + 1;
      }
    }

    /** evict_tensor: drops the RAM copy; the cache bytes are not touched. */
    method EvictTensor(id: u32) returns (ok: bool)
      requires Valid()
      modifies this
      ensures Valid() && cache == old(cache)
      ensures (Dir(), ok) == Evict(old(Dir()), id)
    {
      if id >= numTensors {
        return false;
      }
      var t := table[id];
      if !t.inRam || t.pinned {
        return false;
      }
      ResidentBytesUpdate(table, id, Dropped(t));
      ResidentCountUpdate(table, id, Dropped(t));
      ramUsed := ramUsed - t.size;
      table := table[id := t.(ramAddr := None, inRam := false)];
      return true;
    }

    /** The eviction loop of load_tensor. */
    method MakeRoom(need: nat) returns (fits: bool)
      requires Valid()
      modifies this
      ensures Valid() && cache == old(cache)
      ensures (Dir(), fits) == EvictUntilFits(old(Dir()), need)
    {
      while ramUsed + need > RAM_CACHE_SIZE
        invariant Valid() && cache == old(cache)
        invariant EvictUntilFits(Dir(), need) == EvictUntilFits(old(Dir()), need)
        decreases ResidentCount(table)
      {
        var lru := FindLruTensor();
        if lru == INVALID_TENSOR_ID {
          return false;
        }
        var evicted := EvictTensor(lru);
      }
      return true;
    }

    /** The memcpy of load_tensor: size bytes of flash from offset src to
        cache offset at. */
    method CopyIn(at: nat, src: nat, size: nat)
      requires Valid() && cache != null
      requires at + size <= RAM_CACHE_SIZE && src + size <= FLASH_WINDOW
      modifies cache
      ensures cache[..] == Placed(old(cache[..]), at, flash[src..src + size])
    {
      forall k | 0 <= k < size {
        cache[at + k] := flash[src + k];
      }
      assert cache[..] == Placed(old(cache[..]), at, flash[src..src + size]);
    }

    /** The placement step of load_tensor: the view is set to cache offset
        ram_used, the bytes are copied from flash, and ram_used grows. */
    method PlaceTensor(id: nat)
      requires Valid() && cache != null
      requires id < numTensors && !table[id].inRam && ramUsed + table[id].size <= RAM_CACHE_SIZE
      modifies this, cache
      ensures Valid() && cache == old(cache)
      ensures Dir() == Place(old(Dir()), id)
      ensures var t := table[id];
              cache[..] == Placed(old(cache[..]), t.ramAddr.value, flash[t.flashOffset..t.flashOffset + t.size])
    {
      var t := table[id];
      CopyIn(ramUsed, t.flashOffset, t.size);
      table := table[id := t.(ramAddr := Some(ramUsed), inRam := true)];
      ramUsed := ramUsed + t.size;
      assert Dir() == Place(old(Dir()), id);
    }

    /** load_tensor. */
    method LoadTensor(id: u32) returns (ok: bool)
      requires Valid() && cache != null
      modifies this, cache
      ensures Valid() && cache == old(cache)
      ensures (Dir(), ok) == Load(old(Dir()), id)
      ensures ok && id < old(numTensors) && !old(table[id].inRam) ==>
                var t := table[id];
                cache[..] == Placed(old(cache[..]), t.ramAddr.value, flash[t.flashOffset..t.flashOffset + t.size])
      ensures !(ok && id < old(numTensors) && !old(table[id].inRam)) ==> cache[..] == old(cache[..])
    {
      if id >= numTensors {
        return false;
      }
      if table[id].inRam {
        return true;
      }
      ok := MakeRoom(table[id].size);
      if !ok {
        return false;
      }
      ghost var e := Dir();
      assert e.table[id] == old(table[id]);
      assert Load(old(Dir()), id) == (Place(e, id), true);
      assert cache[..] == old(cache[..]);
      PlaceTensor(id);
    }

    /** VirtualArena_GetTensor: the cache offset of the view, None for NULL. */
    method GetTensor(id: u32) returns (view: Option<nat>)
      requires Valid() && cache != null
      modifies this, cache
      ensures Valid() && cache == old(cache)
      ensures (Dir(), view) == Get(old(Dir()), id)
    {
      if id >= numTensors {
        return None;
      }
      table := table[id := table[id].(lastAccess := accessCounter)];
      accessCounter := Inc32(accessCounter);
      assert Dir() == Touch(old(Dir()), id);
      if !table[id].inRam {
        var ok := LoadTensor(id);
        if !ok {
          return None;
        }
      }
      return table[id].ramAddr;
    }

    /** VirtualArena_PinTensor. */
    method PinTensor(id: u32)
      requires Valid()
      modifies this
      ensures Valid() && cache == old(cache)
      ensures Dir() == SetPinned(old(Dir()), id, true)
    {
      if id < numTensors {
        ResidentBytesUpdate(table, id, table[id].(pinned := true));
        table := table[id := table[id].(pinned := true)];
      }
    }

    /** VirtualArena_UnpinTensor. */
    method UnpinTensor(id: u32)
      requires Valid()
      modifies this
      ensures Valid() && cache == old(cache)
      ensures Dir() == SetPinned(old(Dir()), id, false)
    {
      if id < numTensors {
        ResidentBytesUpdate(table, id, table[id].(pinned := false));
        table := table[id := table[id].(pinned := false)];
      }
    }

    /** VirtualArena_GetStats; statsPresent false stands for a NULL stats
        pointer, for which nothing is written. */
    method GetStats(statsPresent: bool) returns (r: Option<Stats>)
      requires Valid()
      ensures r.None? <==> !statsPresent
      ensures r.Some? ==>
                var s := r.value;
                && s.totalTensors == numTensors && s.ramUsed == ramUsed
                && s.ramTotal == RAM_CACHE_SIZE && s.flashTotal == VIRTUAL_ARENA_SIZE && s.swapCount == 0
                && s.tensorsInRam == ResidentCount(table[..numTensors])
                && s.flashUsed == TotalSize(table[..numTensors])
                && s.tensorsInRam <= s.totalTensors && s.ramUsed <= s.flashUsed
    {
      if !statsPresent {
        return None;
      }
      var s := Stats(numTensors, 0, ramUsed, RAM_CACHE_SIZE, 0, VIRTUAL_ARENA_SIZE, 0);
      var i := 0;
      while i < numTensors
        invariant 0 <= i <= numTensors
        invariant s.totalTensors == numTensors && s.ramUsed == ramUsed
        invariant s.ramTotal == RAM_CACHE_SIZE && s.flashTotal == VIRTUAL_ARENA_SIZE && s.swapCount == 0
        invariant s.tensorsInRam == ResidentCount(table[..i])
        invariant s.flashUsed == TotalSize(table[..i])
      {
        assert table[..i + 1][..i] == table[..i];
        if table[i].inRam {
          s := s.(tensorsInRam := s.tensorsInRam + 1);
        }
        s := s.(flashUsed := s.flashUsed + table[i].size);
        i := i + 1;
      }
      SumsOverPrefix(table, numTensors);
      ResidentWithinTotal(table[..numTensors]);
      return Some(s);
    }
  }
}
