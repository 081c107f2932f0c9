/** The earlier flash-swap store: sixteen 4 KiB slots in a 64 KiB flash
    region, and a single 1 KiB RAM buffer that holds one slot's tensor at a
    time and is written back when it is dirty and another slot is asked for.

    Flash is the byte store of the 64 KiB region, indexed from its first
    address. Erasing a 2048-byte page sets its bytes to 0xFF; programming
    stores the given bytes. Whether the flash controller accepts a program
    request is a parameter. */
module FlashSwap {
  import opened Machine

  const FLASH_SWAP_START: nat := 0x18000
  const FLASH_SWAP_SIZE: nat := 64 * 1024
  const FLASH_PAGE_SIZE: nat := 2048
  const TENSOR_SLOT_SIZE: nat := 4 * 1024
  const MAX_TENSOR_SLOTS: nat := 16
  /** The size of the swap buffer. */
  const RAM_BUFFER_SIZE: nat := 1024
  /** The value of an erased flash byte. */
  const ERASED: u8 := 0xFF

  /** One entry of the slot table. */
  datatype Slot = Slot(flashAddr: u32, size: u32, inUse: bool)

  /** Where slot i lives in flash. */
  function SlotAddress(i: nat): (a: nat)
    ensures a == FLASH_SWAP_START + i * TENSOR_SLOT_SIZE
  {
    FLASH_SWAP_START + i * 4096
  }

  /** The sixteen slots lie inside the swap region and do not overlap. */
  lemma SlotsDisjoint(i: nat, j: nat)
    requires i < MAX_TENSOR_SLOTS && j < MAX_TENSOR_SLOTS && i != j
    ensures FLASH_SWAP_START <= SlotAddress(i) && SlotAddress(i) + TENSOR_SLOT_SIZE <= FLASH_SWAP_START + FLASH_SWAP_SIZE
    ensures SlotAddress(i) + TENSOR_SLOT_SIZE <= SlotAddress(j) || SlotAddress(j) + TENSOR_SLOT_SIZE <= SlotAddress(i)
  {
    if i < j {
      assert SlotAddress(j) - SlotAddress(i) == (j - i) * 4096;
    } else {
      assert SlotAddress(i) - SlotAddress(j) == (i - j) * 4096;
    }
  }

  /** The table NN_FlashSwap_Init sets up. */
  function InitialSlots(): (r: seq<Slot>)
    ensures |r| == MAX_TENSOR_SLOTS
    ensures forall i :: 0 <= i < |r| ==> r[i] == Slot(SlotAddress(i), TENSOR_SLOT_SIZE, false)
  {
    seq(16, i requires 0 <= i < 16 => Slot(SlotAddress(i), 4096, false))
  }

  /** The in-use flags of the table. */
  function InUse(slots: seq<Slot>): (r: seq<bool>)
    ensures |r| == |slots| && forall i :: 0 <= i < |slots| ==> r[i] == slots[i].inUse
  {
    seq(|slots|, i requires 0 <= i < |slots| => slots[i].inUse)
  }

  /** Every slot in use sits at its own address with the slot size; a
      slot is only ever put in use after the table was set up. */
  ghost predicate WellPlaced(slots: seq<Slot>)
  {
    |slots| == MAX_TENSOR_SLOTS &&
    forall i :: 0 <= i < MAX_TENSOR_SLOTS && slots[i].inUse ==>
      slots[i].flashAddr == SlotAddress(i) && slots[i].size == TENSOR_SLOT_SIZE
  }

  // ------------------------------------------------------------ flash primitives

  /** How many pages an erase of size bytes covers: size / 2048 rounded up. */
  function PagesFor(size: nat): (n: nat)
    ensures n * FLASH_PAGE_SIZE >= size
    ensures n > 0 ==> (n - 1) * FLASH_PAGE_SIZE < size
  {
    (size + 2047) / 2048
  }

  /** A slot-sized request needs at most the two pages of its slot. */
  lemma PagesWithinSlot(size: nat)
    requires size <= TENSOR_SLOT_SIZE
    ensures PagesFor(size) <= 2
  {
  }

  /** The region after erasing the page that starts at offset at: every
      byte of it inside the region becomes ERASED. */
  function ErasePage(flash: seq<u8>, at: nat): (r: seq<u8>)
    ensures |r| == |flash|
    ensures forall j :: 0 <= j < |flash| ==> r[j] == if at <= j < at + FLASH_PAGE_SIZE then ERASED else flash[j]
  {
    seq(|flash|, j requires 0 <= j < |flash| => if at <= j < at + 2048 then ERASED else flash[j])
  }

  /** The region after the erase loop of NN_FlashSwap_StoreTensor: pages 0
      to n - 1 from offset at, one after the other. */
  function ErasePages(flash: seq<u8>, at: nat, n: nat): (r: seq<u8>)
    ensures |r| == |flash|
  {
    if n == 0 then flash else ErasePage(ErasePages(flash, at, n - 1), at + (n - 1) * 2048)
  }

  /** The erase loop erases exactly the bytes from at to at + n pages. */
  lemma {:induction false} ErasePagesRange(flash: seq<u8>, at: nat, n: nat)
    ensures forall j :: 0 <= j < |flash| ==>
              ErasePages(flash, at, n)[j] == if at <= j < at + n * FLASH_PAGE_SIZE then ERASED else flash[j]
  {
    if n > 0 {
      ErasePagesRange(flash, at, n - 1);
    }
  }

  /** The region after programming data at offset at. */
  function Program(flash: seq<u8>, at: nat, data: seq<u8>): (r: seq<u8>)
    requires at + |data| <= |flash|
    ensures |r| == |flash|
    ensures r[at .. at + |data|] == data
    ensures forall j :: 0 <= j < |flash| && !(at <= j < at + |data|) ==> r[j] == flash[j]
  {
    flash[..at] + data + flash[at + |data|..]
  }

  // ------------------------------------------------------------ store and load

  /** The argument checks NN_FlashSwap_StoreTensor and NN_FlashSwap_LoadTensor
      share: a slot id in range, a slot in use and a size that fits a slot. */
  predicate Accepts(slots: seq<Slot>, slotId: int, size: nat)
  {
    0 <= slotId < |slots| && slots[slotId].inUse && size <= TENSOR_SLOT_SIZE
  }

  /** Offset of an accepted slot inside the region. */
  function Offset(slotId: nat): (o: nat)
    ensures slotId < MAX_TENSOR_SLOTS ==> o + TENSOR_SLOT_SIZE <= FLASH_SWAP_SIZE
    ensures FLASH_SWAP_START + o == SlotAddress(slotId)
  {
    slotId * 4096
  }

  /** NN_FlashSwap_StoreTensor on values: refuse a bad request; otherwise
      erase the pages the size needs from the slot address and program the
      first size bytes of data there. The result is what the flash
      controller reports. */
  function Store(flash: seq<u8>, slots: seq<Slot>, slotId: int, data: seq<u8>, size: nat, programOk: bool)
    : (r: (bool, seq<u8>))
    requires |flash| == FLASH_SWAP_SIZE && WellPlaced(slots)
    requires Accepts(slots, slotId, size) ==> size <= |data|
    ensures |r.1| == FLASH_SWAP_SIZE
    ensures !Accepts(slots, slotId, size) ==> r == (false, flash)
    ensures r.0 ==> Accepts(slots, slotId, size) && programOk
  {
    if !Accepts(slots, slotId, size) then (false, flash)
    else
      var erased := ErasePages(flash, Offset(slotId), PagesFor(size));
      if programOk then (true, Program(erased, Offset(slotId), data[..size])) else (false, erased)
  }

  /** What NN_FlashSwap_LoadTensor copies out of an accepted slot. */
  function Load(flash: seq<u8>, slotId: nat, size: nat): (r: seq<u8>)
    requires |flash| == FLASH_SWAP_SIZE && slotId < MAX_TENSOR_SLOTS && size <= TENSOR_SLOT_SIZE
    ensures |r| == size
  {
    flash[Offset(slotId) .. Offset(slotId) + size]
  }

  /** Loading what was stored gives it back. */
  lemma StoreLoadRoundTrip(flash: seq<u8>, slots: seq<Slot>, slotId: int, data: seq<u8>, size: nat)
    requires |flash| == FLASH_SWAP_SIZE && WellPlaced(slots)
    requires Accepts(slots, slotId, size) && size <= |data|
    ensures Store(flash, slots, slotId, data, size, true).0
    ensures Load(Store(flash, slots, slotId, data, size, true).1, slotId, size) == data[..size]
  {
  }

  /** A store touches only its own slot: every byte of every other slot is
      kept, whatever the flash controller reports. */
  lemma {:induction false} StoreKeepsOtherSlots(flash: seq<u8>, slots: seq<Slot>, slotId: int, data: seq<u8>, size: nat,
                                                programOk: bool, other: nat)
    requires |flash| == FLASH_SWAP_SIZE && WellPlaced(slots)
    requires Accepts(slots, slotId, size) ==> size <= |data|
    requires other < MAX_TENSOR_SLOTS && other != slotId
    ensures Load(Store(flash, slots, slotId, data, size, programOk).1, other, TENSOR_SLOT_SIZE)
         == Load(flash, other, TENSOR_SLOT_SIZE)
  {
    if Accepts(slots, slotId, size) {
      var at := Offset(slotId);
      var erased := ErasePages(flash, at, PagesFor(size));
      ErasePagesRange(flash, at, PagesFor(size));
      PagesWithinSlot(size);
      SlotsDisjoint(slotId, other);
      var after := Store(flash, slots, slotId, data, size, programOk).1;
      forall j | Offset(other) <= j < Offset(other) + TENSOR_SLOT_SIZE
        ensures after[j] == flash[j]
      {
        assert !(at <= j < at + PagesFor(size) * FLASH_PAGE_SIZE);
      }
    }
  }

  /** The slot table, the flash region and the swap buffer, the statics of
      src/nn/nn_flash_swap.c. */
  class Swap {
    var slots: seq<Slot>
    var initialized: bool
    var flash: seq<u8>
    /** g_ram_buffer; ramBufferSet says whether g_swap_arena points at it. */
    const ram: array<u8>
    var ramBufferSet: bool
    var ramSize: u32
    var currentSlot: int
    var dirty: bool

    ghost predicate Valid()
      reads this
    {
      && WellPlaced(slots)
      && (forall i :: 0 <= i < MAX_TENSOR_SLOTS ==>
            (slots[i].inUse ==> initialized) &&
            (initialized ==> slots[i].flashAddr == SlotAddress(i) && slots[i].size == TENSOR_SLOT_SIZE))
      && |flash| == FLASH_SWAP_SIZE
      && ram.Length == RAM_BUFFER_SIZE
      && ramSize <= RAM_BUFFER_SIZE
    }

    /** The zeroed statics, with the flash region as found. */
    constructor (contents: seq<u8>)
      requires |contents| == FLASH_SWAP_SIZE
      ensures Valid() && !initialized && flash == contents
      ensures slots == seq(16, _ => Slot(0, 0, false))
      ensures !ramBufferSet && ramSize == 0 && currentSlot == 0 && !dirty
      ensures fresh(ram)
    {
      slots := seq(16, _ => Slot(0, 0, false));
      initialized := false;
      flash := contents;
      ram := new u8[1024];
      ramBufferSet := false;
      ramSize := 0;
      currentSlot := 0;
      dirty := false;
    }

    /** NN_FlashSwap_Init: set the table up once; later calls change nothing.
        Always succeeds. */
    method Init() returns (ok: bool)
      requires Valid()
      modifies this
      ensures Valid() && ok && initialized
      ensures old(initialized) ==> slots == old(slots)
      ensures !old(initialized) ==> slots == InitialSlots()
      ensures flash == old(flash) && ramBufferSet == old(ramBufferSet) && ramSize == old(ramSize)
      ensures currentSlot == old(currentSlot) && dirty == old(dirty)
    {
      if initialized {
        return true;
      }
      var i := 0;
      while i < MAX_TENSOR_SLOTS
        invariant 0 <= i <= MAX_TENSOR_SLOTS && |slots| == MAX_TENSOR_SLOTS
        invariant slots[..i] == InitialSlots()[..i]
        invariant forall k :: i <= k < MAX_TENSOR_SLOTS ==> slots[k] == old(slots)[k]
        invariant flash == old(flash) && ramBufferSet == old(ramBufferSet) && ramSize == old(ramSize)
        invariant currentSlot == old(currentSlot) && dirty == old(dirty) && !initialized
      {
        slots := slots[i := Slot(SlotAddress(i), TENSOR_SLOT_SIZE, false)];
        i := i + 1;
      }
      initialized := true;
      return true;
    }

    /** NN_FlashSwap_AllocateSlot: the lowest free slot, now in use, or -1
        before Init, for a size over a slot, or when every slot is in use.
        The size is not recorded. */
    method AllocateSlot(size: u32) returns (id: int)
      requires Valid()
      modifies this
      ensures Valid()
      ensures !old(initialized) || size > TENSOR_SLOT_SIZE ==> id == -1 && slots == old(slots)
      ensures old(initialized) && size <= TENSOR_SLOT_SIZE ==>
                var free := FirstFree(InUse(old(slots)));
                && (free.None? ==> id == -1 && slots == old(slots))
                && (free.Some? ==> id == free.value && slots == old(slots)[id := old(slots)[id].(inUse := true)])
      ensures initialized == old(initialized) && flash == old(flash)
      ensures ramBufferSet == old(ramBufferSet) && ramSize == old(ramSize)
      ensures currentSlot == old(currentSlot) && dirty == old(dirty)
    {
      if !initialized || size > TENSOR_SLOT_SIZE as u32 {
        return -1;
      }
      var i := 0;
      while i < MAX_TENSOR_SLOTS
        invariant 0 <= i <= MAX_TENSOR_SLOTS
        invariant forall k :: 0 <= k < i ==> slots[k].inUse
        invariant slots == old(slots)
      {
        if !slots[i].inUse {
          ghost var used := InUse(slots);
          assert !used[i] && forall k :: 0 <= k < i ==> used[k];
          assert FirstFree(used) == Some(i);
          slots := slots[i := slots[i].(inUse := true)];
          return i;
        }
        i := i + 1;
      }
      return -1;
    }

    /** NN_FlashSwap_StoreTensor: the checks, the erase loop over the pages
        the size needs, then one program request. */
    method StoreTensor(slotId: int, data: seq<u8>, size: u32, programOk: bool) returns (ok: bool)
      requires Valid()
      requires Accepts(slots, slotId, size) ==> size <= |data|
      modifies this
      ensures slots == old(slots) && initialized == old(initialized) && Valid()
      ensures (ok, flash) == Store(old(flash), slots, slotId, data, size, programOk)
      ensures ramBufferSet == old(ramBufferSet) && ramSize == old(ramSize)
      ensures currentSlot == old(currentSlot) && dirty == old(dirty)
    {
      if slotId < 0 || slotId >= MAX_TENSOR_SLOTS || !slots[slotId].inUse {
        return false;
      }
      if size > TENSOR_SLOT_SIZE as u32 {
        return false;
      }
      var at := slots[slotId].flashAddr - FLASH_SWAP_START;
      var pages := (size + FLASH_PAGE_SIZE - 1) / FLASH_PAGE_SIZE;
      var i := 0;
      while i < pages
        invariant 0 <= i <= pages
        invariant flash == ErasePages(old(flash), at, i)
        invariant slots == old(slots) && initialized == old(initialized)
        invariant ramBufferSet == old(ramBufferSet) && ramSize == old(ramSize)
        invariant currentSlot == old(currentSlot) && dirty == old(dirty)
      {
        flash := ErasePage(flash, at + i * 2048);
        i := i + 1;
      }
      if programOk {
        flash := Program(flash, at, data[..size]);
      }
      return programOk;
    }

    /** NN_FlashSwap_LoadTensor: the same checks, then copy size bytes of
        the slot into dest. */
    method LoadTensor(slotId: int, dest: array<u8>, size: u32) returns (ok: bool)
      requires Valid()
      requires Accepts(slots, slotId, size) ==> size <= dest.Length
      modifies dest
      ensures ok == Accepts(slots, slotId, size)
      ensures ok ==> dest[..size] == Load(flash, slotId, size) && dest[size..] == old(dest[size..])
      ensures !ok ==> dest[..] == old(dest[..])
    {
      if slotId < 0 || slotId >= MAX_TENSOR_SLOTS || !slots[slotId].inUse {
        return false;
      }
      if size > TENSOR_SLOT_SIZE as u32 {
        return false;
      }
      var at := slots[slotId].flashAddr - FLASH_SWAP_START;
      forall j | 0 <= j < size {
        dest[j] := flash[at + j];
      }
      return true;
    }

    /** NN_FlashSwap_FreeSlot: only an id in range is freed. */
    method FreeSlot(slotId: int)
      requires Valid()
      modifies this
      ensures Valid()
      ensures 0 <= slotId < MAX_TENSOR_SLOTS ==> slots == old(slots)[slotId := old(slots)[slotId].(inUse := false)]
      ensures !(0 <= slotId < MAX_TENSOR_SLOTS) ==> slots == old(slots)
      ensures initialized == old(initialized) && flash == old(flash)
      ensures ramBufferSet == old(ramBufferSet) && ramSize == old(ramSize)
      ensures currentSlot == old(currentSlot) && dirty == old(dirty)
    {
      if slotId >= 0 && slotId < MAX_TENSOR_SLOTS {
        slots := slots[slotId := slots[slotId].(inUse := false)];
      }
    }

    /** NN_SwapArena_Init: set the table up, point the swap arena at the
        1 KiB buffer, with no slot loaded and nothing to write back. */
    method SwapArenaInit() returns (ok: bool)
      requires Valid()
      modifies this
      ensures Valid() && ok && initialized
      ensures old(initialized) ==> slots == old(slots)
      ensures !old(initialized) ==> slots == InitialSlots()
      ensures flash == old(flash)
      ensures ramBufferSet && ramSize == RAM_BUFFER_SIZE && currentSlot == -1 && !dirty
    {
      ok := Init();
      if !ok {
        return false;
      }
      ramBufferSet := true;
      ramSize := RAM_BUFFER_SIZE as u32;
      currentSlot := -1;
      dirty := false;
      return true;
    }

    /** NN_SwapArena_GetBuffer: refuse a size over the buffer; for another
        tensor id, write a dirty buffer back to the current slot (when there
        is one) and clear the flag whatever the store reports, then load the
        new slot (when the id is not negative) whatever the load reports,
        and make it current. The result says whether the returned pointer
        is non-NULL. */
    method GetBuffer(tensorId: int, size: u32, programOk: bool) returns (buffer: bool)
      requires Valid()
      modifies this, ram
      ensures Valid()
      ensures buffer <==> size <= old(ramSize) && ramBufferSet
      ensures slots == old(slots) && initialized == old(initialized)
      ensures ramBufferSet == old(ramBufferSet) && ramSize == old(ramSize)
      ensures size > old(ramSize) || old(currentSlot) == tensorId ==>
                flash == old(flash) && ram[..] == old(ram[..]) && currentSlot == old(currentSlot) && dirty == old(dirty)
      ensures size <= old(ramSize) && old(currentSlot) != tensorId ==>
                var writeBack := old(dirty) && old(currentSlot) >= 0;
                && flash == (if writeBack then Store(old(flash), slots, old(currentSlot), old(ram[..]), ramSize, programOk).1
                             else old(flash))
                && dirty == (old(dirty) && !writeBack)
                && currentSlot == tensorId
                && (Accepts(slots, tensorId, size) ==>
                      ram[..size] == Load(flash, tensorId, size) && ram[size..] == old(ram[size..]))
                && (!Accepts(slots, tensorId, size) ==> ram[..] == old(ram[..]))
    {
      if size > ramSize {
        return false;
      }
      if currentSlot != tensorId {
        if dirty && currentSlot >= 0 {
          var _ := StoreTensor(currentSlot, ram[..], ramSize, programOk);
          dirty := false;
        }
        if tensorId >= 0 {
          var _ := LoadTensor(tensorId, ram, size);
        }
        currentSlot := tensorId;
      }
      return ramBufferSet;
    }

    /** NN_SwapArena_MarkDirty. */
    method MarkDirty()
      requires Valid()
      modifies this
      ensures Valid() && dirty
      ensures slots == old(slots) && initialized == old(initialized) && flash == old(flash)
      ensures ramBufferSet == old(ramBufferSet) && ramSize == old(ramSize) && currentSlot == old(currentSlot)
    {
      dirty := true;
    }
  }
}
