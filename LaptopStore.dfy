/** The in-memory laptop store (service/store.go): the laptop record, the
    search filter, memory normalisation to bits, and the store itself. */
module LaptopStore {
  import opened Base

  /** pb.Memory_Unit; UnknownUnit is the enum's zero value. */
  datatype MemoryUnit = UnknownUnit | Bit | Byte | Kilobyte | Megabyte | Gigabyte | Terabyte

  /** pb.Memory. An absent memory message reads as its zero value, Memory(0, UnknownUnit). */
  datatype Memory = Memory(value: uint32, unit: MemoryUnit)

  /** The two CPU fields the store looks at. An absent CPU reads as Cpu(0, 0.0). */
  datatype Cpu = Cpu(numberCores: uint32, minGhz: real)

  /** Every field of pb.Laptop the core never inspects (brand, name, GPUs,
      storages, screen, keyboard, weight, release year, update time), kept
      whole in their serialised form. */
  datatype Details = Details(encoded: seq<byte>)

  /** pb.Laptop, as an immutable value: copying it is taking the value. */
  datatype Laptop = Laptop(id: string, priceUsd: real, cpu: Cpu, ram: Memory, details: Details)

  /** pb.Filter. An absent filter reads as all zero thresholds. */
  datatype Filter = Filter(maxPriceUsd: real, minCpuCores: uint32, minCpuGhz: real, minMemory: Memory)

  /** The one error the store reports: the id is already a key. */
  datatype SaveError = ErrAlreadyExists

  function Pow2(k: nat): (p: nat)
    ensures p > 0
  {
    if k == 0 then 1 else 2 * Pow2(k - 1)
  }

  /** Go's `v << k` on a uint64: the bits shifted past bit 63 are dropped. */
  function Shl(v: uint64, k: nat): uint64
  {
    (v * Pow2(k)) % TWO_TO_THE_64
  }

  /** The exponent of two that turns a unit into bits; none for an unknown unit. */
  function UnitShift(unit: MemoryUnit): Option<nat>
  {
    match unit
    case Bit => Some(0)
    case Byte => Some(3)
    case Kilobyte => Some(13)
    case Megabyte => Some(23)
    case Gigabyte => Some(33)
    case Terabyte => Some(43)
    case UnknownUnit => None
  }

  /** toBit: the memory size in bits, computed in uint64 (so large values wrap);
      an unknown unit has no bits. */
  function ToBit(memory: Memory): uint64
  {
    var value: uint64 := memory.value;
    match UnitShift(memory.unit)
    case Some(shift) => Shl(value, shift)
    case None => 0
  }

  /** isQualified: the four threshold checks, in the source's order. */
  predicate IsQualified(filter: Filter, laptop: Laptop)
  {
    if laptop.priceUsd > filter.maxPriceUsd then false
    else if laptop.cpu.numberCores < filter.minCpuCores then false
    else if laptop.cpu.minGhz < filter.minCpuGhz then false
    else if ToBit(laptop.ram) < ToBit(filter.minMemory) then false
    else true
  }

  /** A value already below 2^64 is its own residue. */
  lemma ModOfSmall(x: int)
    requires 0 <= x < TWO_TO_THE_64
    ensures x % TWO_TO_THE_64 == x
  {
  }

  lemma MulAssociates(a: int, b: int, c: int)
    ensures a * (b * c) == (a * b) * c
  {
  }

  lemma Pow2Add(a: nat, b: nat)
    ensures Pow2(a + b) == Pow2(a) * Pow2(b)
    decreases a
  {
    if a > 0 {
      Pow2Add(a - 1, b);
      assert Pow2(a + b) == 2 * Pow2((a - 1) + b);
      assert 2 * (Pow2(a - 1) * Pow2(b)) == (2 * Pow2(a - 1)) * Pow2(b);
    }
  }

  /** The six scale factors of toBit: 1, 8, 8192, 2^23, 2^33 and 2^43. */
  lemma Pow2OfShifts()
    ensures Pow2(0) == 1 && Pow2(3) == 8 && Pow2(13) == 8192 && Pow2(23) == 0x80_0000
    ensures Pow2(33) == 0x2_0000_0000 && Pow2(43) == 0x800_0000_0000
  {
    assert Pow2(1) == 2;
    assert Pow2(2) == 4;
    assert Pow2(3) == 8;
    assert Pow2(5) == 32 by { Pow2Add(3, 2); }
    assert Pow2(10) == 1024 by { Pow2Add(5, 5); }
    assert Pow2(13) == 8192 by { Pow2Add(10, 3); }
    assert Pow2(20) == 1024 * 1024 by { Pow2Add(10, 10); }
    assert Pow2(23) == 0x80_0000 by { Pow2Add(20, 3); }
    assert Pow2(33) == 0x2_0000_0000 by { Pow2Add(23, 10); }
    assert Pow2(43) == 0x800_0000_0000 by { Pow2Add(33, 10); }
  }

  /** A shift that loses no bits is multiplication by 2^k. */
  lemma ShlExact(v: uint64, k: nat)
    requires v * Pow2(k) < TWO_TO_THE_64
    ensures Shl(v, k) == v * Pow2(k)
  {
    ModOfSmall(v * Pow2(k));
  }

  /** Shifting by j is shifting c * v by k, when 2^j is c * 2^k. */
  lemma ShlOfScaled(v: uint64, c: nat, k: nat, j: nat)
    requires v * c < TWO_TO_THE_64
    requires Pow2(j) == c * Pow2(k)
    ensures Shl(v, j) == Shl(v * c, k)
  {
    MulAssociates(v, c, Pow2(k));
  }

  /** No memory of zero value has any bits, whatever its unit. */
  lemma ToBitOfZero(unit: MemoryUnit)
    ensures ToBit(Memory(0, unit)) == 0
  {
  }

  /** Where value * 2^k stays below 2^64, toBit is exact. */
  lemma ToBitExact(memory: Memory)
    requires UnitShift(memory.unit).Some?
    requires memory.value * Pow2(UnitShift(memory.unit).value) < TWO_TO_THE_64
    ensures ToBit(memory) == memory.value * Pow2(UnitShift(memory.unit).value)
  {
    var shift := UnitShift(memory.unit).value;
    ShlExact(memory.value, shift);
  }

  /** Each unit from kilobyte to terabyte is 1024 of the unit below it, and a
      byte is 8 bits, even where the uint64 product wraps. */
  lemma ToBitUnitsScale(v: uint32)
    ensures v * 8 < TWO_TO_THE_32 ==> ToBit(Memory(v, Byte)) == ToBit(Memory(v * 8, Bit))
    ensures v * 1024 < TWO_TO_THE_32 ==>
      && ToBit(Memory(v, Kilobyte)) == ToBit(Memory(v * 1024, Byte))
      && ToBit(Memory(v, Megabyte)) == ToBit(Memory(v * 1024, Kilobyte))
      && ToBit(Memory(v, Gigabyte)) == ToBit(Memory(v * 1024, Megabyte))
      && ToBit(Memory(v, Terabyte)) == ToBit(Memory(v * 1024, Gigabyte))
  {
    Pow2OfShifts();
    ShlOfScaled(v, 8, 0, 3);
    if v * 1024 < TWO_TO_THE_32 {
      ShlOfScaled(v, 1024, 3, 13);
      ShlOfScaled(v, 1024, 13, 23);
      ShlOfScaled(v, 1024, 23, 33);
      ShlOfScaled(v, 1024, 33, 43);
    }
  }

  /** 2^21 terabytes is 2^64 bits, which wraps to 0 in uint64. */
  lemma ToBitWrapsForHugeTerabytes()
    ensures ToBit(Memory(0x20_0000, Terabyte)) == 0
  {
    Pow2OfShifts();
  }

  /** isQualified holds exactly when all four thresholds are met; equality passes each. */
  lemma IsQualifiedIff(filter: Filter, laptop: Laptop)
    ensures IsQualified(filter, laptop) <==>
      && laptop.priceUsd <= filter.maxPriceUsd
      && laptop.cpu.numberCores >= filter.minCpuCores
      && laptop.cpu.minGhz >= filter.minCpuGhz
      && ToBit(laptop.ram) >= ToBit(filter.minMemory)
  {
  }

  /** The search test's filter against the six laptops it stores: only the last two qualify. */
  lemma SearchTestCases(id: string, cpu: Cpu, ram: Memory, details: Details, price: real)
    ensures var filter := Filter(2000.0, 4, 2.2, Memory(8, Gigabyte));
      && !IsQualified(filter, Laptop(id, 2500.0, cpu, ram, details))
      && !IsQualified(filter, Laptop(id, price, Cpu(2, cpu.minGhz), ram, details))
      && !IsQualified(filter, Laptop(id, price, Cpu(cpu.numberCores, 2.0), ram, details))
      && !IsQualified(filter, Laptop(id, price, cpu, Memory(4096, Megabyte), details))
      && IsQualified(filter, Laptop(id, 1999.0, Cpu(4, 2.5), Memory(16, Gigabyte), details))
      && IsQualified(filter, Laptop(id, 1999.0, Cpu(6, 2.8), Memory(64, Gigabyte), details))
  {
    Pow2OfShifts();
    ToBitExact(Memory(8, Gigabyte));
    ToBitExact(Memory(16, Gigabyte));
    ToBitExact(Memory(64, Gigabyte));
    ToBitExact(Memory(4096, Megabyte));
    assert ToBit(Memory(4096, Megabyte)) < ToBit(Memory(8, Gigabyte));
  }

  /** The ids of a sequence of laptops. */
  function Ids(laptops: seq<Laptop>): set<string>
  {
    set i | 0 <= i < |laptops| :: laptops[i].id
  }

  lemma IdsAppend(laptops: seq<Laptop>, laptop: Laptop)
    ensures Ids(laptops + [laptop]) == Ids(laptops) + {laptop.id}
  {
    assert forall i :: 0 <= i < |laptops| ==> (laptops + [laptop])[i] == laptops[i];
    assert (laptops + [laptop])[|laptops|] == laptop;
  }

  /** InMemoryLaptopStore. Each store operation is atomic (the source holds the
      store's RWMutex for its duration), so the lock is not modelled. */
  class InMemoryLaptopStore {
    var data: map<string, Laptop>

    /** Every laptop is stored under its own id. */
    ghost predicate Valid()
      reads this
    {
      forall id :: id in data ==> data[id].id == id
    }

    constructor ()
      ensures Valid() && data == map[]
    {
      data := map[];
    }

    /** Save: rejects an id already present, otherwise stores the laptop under its id. */
    method Save(laptop: Laptop) returns (err: Option<SaveError>)
      requires Valid()
      modifies this
      ensures Valid()
      ensures laptop.id in old(data) ==> err == Some(ErrAlreadyExists) && data == old(data)
      ensures laptop.id !in old(data) ==> err == None && data == old(data)[laptop.id := laptop]
    {
      if laptop.id in data {
        return Some(ErrAlreadyExists);
      }
      data := data[laptop.id := laptop];
      err := None;
    }

    /** Find: the stored laptop with that id, or none (Go's (nil, false)). */
    method Find(laptopId: string) returns (laptop: Option<Laptop>)
      ensures laptopId in data ==> laptop == Some(data[laptopId])
      ensures laptopId !in data ==> laptop == None
    {
      if laptopId in data {
        laptop := Some(data[laptopId]);
      } else {
        laptop := None;
      }
    }

    /** The ids of the stored laptops that pass the filter. */
    function Matching(filter: Filter): set<string>
      reads this
    {
      set id | id in data && IsQualified(filter, data[id])
    }

    /** Search: calls `found` once for each qualifying laptop, in an unspecified
        order, and stops at the first error it returns. `found(n, l)` is the
        callback's outcome on its n-th call (counted from 0), given laptop l. */
    method Search<E>(filter: Filter, found: (nat, Laptop) -> Option<E>) returns (visited: seq<Laptop>, err: Option<E>)
      requires Valid()
      ensures forall i :: 0 <= i < |visited| ==>
        visited[i].id in data && data[visited[i].id] == visited[i] && IsQualified(filter, visited[i])
      ensures forall i, j :: 0 <= i < j < |visited| ==> visited[i].id != visited[j].id
      ensures forall i :: 0 <= i < |visited| - 1 ==> found(i, visited[i]).None?
      ensures err.None? ==> Ids(visited) == Matching(filter) && (forall i :: 0 <= i < |visited| ==> found(i, visited[i]).None?)
      ensures err.Some? ==> |visited| > 0 && err == found(|visited| - 1, visited[|visited| - 1])
    {
      var remaining := data.Keys;
      visited := [];
      while remaining != {}
        invariant remaining <= data.Keys
        invariant forall i :: 0 <= i < |visited| ==>
          visited[i].id in data && data[visited[i].id] == visited[i] && IsQualified(filter, visited[i]) && visited[i].id !in remaining
        invariant forall i, j :: 0 <= i < j < |visited| ==> visited[i].id != visited[j].id
        invariant forall i :: 0 <= i < |visited| ==> found(i, visited[i]).None?
        invariant Ids(visited) == Matching(filter) - remaining
        decreases remaining
      {
        var id :| id in remaining;
        remaining := remaining - {id};
        var laptop := data[id];
        if IsQualified(filter, laptop) {
          var e := found(|visited|, laptop);
          IdsAppend(visited, laptop);
          visited := visited + [laptop];
          if e.Some? {
            return visited, e;
          }
        }
      }
      err := None;
    }
  }

  /** Finding a laptop right after saving it under a fresh id gives it back. */
  method SaveThenFind(store: InMemoryLaptopStore, laptop: Laptop) returns (found: Option<Laptop>)
    requires store.Valid() && laptop.id !in store.data
    modifies store
    ensures found == Some(laptop)
  {
    var err := store.Save(laptop);
    found := store.Find(laptop.id);
  }
}
