/**
  The cache settings of the Magnolia JSR-107 module: the values of a
  `DefaultCacheSettings` annotation, the immutable `CacheSettings` record,
  its builder with the hand-written coupled and duration setters, and the
  static operations that seed a builder from an annotation (`invoke`,
  `builder()`) and normalise the result (`setToNullIfDefault`, `of`).
 */
module CacheSettings {

  import opened JavaInt

  /** Java's nullable reference: None is `null`. */
  datatype Option<T> = None | Some(value: T)

  /** The memory store's eviction policy; passed through as data. */
  datatype EvictionPolicy = LRU | FIFO | LFU

  /**
    The twelve attribute names. The annotation's methods and the settings'
    fields carry the same names, so one enumeration names both.
   */
  datatype Name =
    | CopyOnRead | CopyOnWrite | Eternal | MaxElementsInMemory | MaxElementsOnDisk
    | MemoryStoreEvictionPolicy | OverflowToDisk | TimeToIdleSeconds | TimeToLiveSeconds
    | DiskExpiryThreadIntervalSeconds | DiskSpoolBufferSizeMB | BlockingTimeout

  /** A value as reflection sees it: `null`, a boxed primitive or a policy. */
  datatype Value = Null | BoolValue(b: bool) | IntValue(i: Int32) | PolicyValue(p: EvictionPolicy)

  /** The values of one `DefaultCacheSettings` annotation; an annotation attribute is never null. */
  datatype DefaultCacheSettings = DefaultCacheSettings(
    copyOnRead: bool,
    copyOnWrite: bool,
    eternal: bool,
    maxElementsInMemory: Int32,
    maxElementsOnDisk: Int32,
    memoryStoreEvictionPolicy: EvictionPolicy,
    overflowToDisk: bool,
    timeToIdleSeconds: Int32,
    timeToLiveSeconds: Int32,
    diskExpiryThreadIntervalSeconds: Int32,
    diskSpoolBufferSizeMB: Int32,
    blockingTimeout: Int32)

  /** What `m.invoke(defaults)` returns for the annotation method named `n`. */
  function Attribute(d: DefaultCacheSettings, n: Name): (v: Value)
    ensures v != Null
  {
    match n
    case CopyOnRead => BoolValue(d.copyOnRead)
    case CopyOnWrite => BoolValue(d.copyOnWrite)
    case Eternal => BoolValue(d.eternal)
    case MaxElementsInMemory => IntValue(d.maxElementsInMemory)
    case MaxElementsOnDisk => IntValue(d.maxElementsOnDisk)
    case MemoryStoreEvictionPolicy => PolicyValue(d.memoryStoreEvictionPolicy)
    case OverflowToDisk => BoolValue(d.overflowToDisk)
    case TimeToIdleSeconds => IntValue(d.timeToIdleSeconds)
    case TimeToLiveSeconds => IntValue(d.timeToLiveSeconds)
    case DiskExpiryThreadIntervalSeconds => IntValue(d.diskExpiryThreadIntervalSeconds)
    case DiskSpoolBufferSizeMB => IntValue(d.diskSpoolBufferSizeMB)
    case BlockingTimeout => IntValue(d.blockingTimeout)
  }

  // The annotation's declared defaults. Only the default of maxElementsInMemory
  // is known (500); the others are left as unknown constants, so that every
  // property below holds whatever they are.
  const DeclaredCopyOnRead: bool
  const DeclaredCopyOnWrite: bool
  const DeclaredEternal: bool
  const DeclaredMaxElementsOnDisk: Int32
  const DeclaredMemoryStoreEvictionPolicy: EvictionPolicy
  const DeclaredOverflowToDisk: bool
  const DeclaredTimeToIdleSeconds: Int32
  const DeclaredTimeToLiveSeconds: Int32
  const DeclaredDiskExpiryThreadIntervalSeconds: Int32
  const DeclaredDiskSpoolBufferSizeMB: Int32
  const DeclaredBlockingTimeout: Int32

  /** What `m.getDefaultValue()` returns, attribute by attribute. */
  const Declared: DefaultCacheSettings := DefaultCacheSettings(
    DeclaredCopyOnRead, DeclaredCopyOnWrite, DeclaredEternal, 500, DeclaredMaxElementsOnDisk,
    DeclaredMemoryStoreEvictionPolicy, DeclaredOverflowToDisk, DeclaredTimeToIdleSeconds,
    DeclaredTimeToLiveSeconds, DeclaredDiskExpiryThreadIntervalSeconds,
    DeclaredDiskSpoolBufferSizeMB, DeclaredBlockingTimeout)

  /** The immutable settings record; its fields are its getters. */
  datatype Settings = Settings(
    copyOnRead: bool,
    copyOnWrite: bool,
    eternal: bool,
    maxElementsInMemory: Int32,
    maxElementsOnDisk: Int32,
    memoryStoreEvictionPolicy: Option<EvictionPolicy>,
    overflowToDisk: bool,
    timeToIdleSeconds: Option<Int32>,
    timeToLiveSeconds: Option<Int32>,
    diskExpiryThreadIntervalSeconds: Option<Int32>,
    diskSpoolBufferSizeMB: Option<Int32>,
    blockingTimeout: Int32)

  function Boxed(x: Option<Int32>): Value {
    match x
    case None => Null
    case Some(i) => IntValue(i)
  }

  /** The getter of the field named `n`, boxed. */
  function Field(s: Settings, n: Name): (v: Value)
    ensures v == Null ==> n == MemoryStoreEvictionPolicy || IsNullable(n)
  {
    match n
    case CopyOnRead => BoolValue(s.copyOnRead)
    case CopyOnWrite => BoolValue(s.copyOnWrite)
    case Eternal => BoolValue(s.eternal)
    case MaxElementsInMemory => IntValue(s.maxElementsInMemory)
    case MaxElementsOnDisk => IntValue(s.maxElementsOnDisk)
    case MemoryStoreEvictionPolicy =>
      (match s.memoryStoreEvictionPolicy case None => Null case Some(p) => PolicyValue(p))
    case OverflowToDisk => BoolValue(s.overflowToDisk)
    case TimeToIdleSeconds => Boxed(s.timeToIdleSeconds)
    case TimeToLiveSeconds => Boxed(s.timeToLiveSeconds)
    case DiskExpiryThreadIntervalSeconds => Boxed(s.diskExpiryThreadIntervalSeconds)
    case DiskSpoolBufferSizeMB => Boxed(s.diskSpoolBufferSizeMB)
    case BlockingTimeout => IntValue(s.blockingTimeout)
  }

  /** Two settings records with the same value in every named field are equal. */
  lemma FieldsDetermineSettings(s: Settings, t: Settings)
    requires forall n :: Field(s, n) == Field(t, n)
    ensures s == t
  {
    assert Field(s, CopyOnRead) == Field(t, CopyOnRead);
    assert Field(s, CopyOnWrite) == Field(t, CopyOnWrite);
    assert Field(s, Eternal) == Field(t, Eternal);
    assert Field(s, MaxElementsInMemory) == Field(t, MaxElementsInMemory);
    assert Field(s, MaxElementsOnDisk) == Field(t, MaxElementsOnDisk);
    assert Field(s, MemoryStoreEvictionPolicy) == Field(t, MemoryStoreEvictionPolicy);
    assert Field(s, OverflowToDisk) == Field(t, OverflowToDisk);
    assert Field(s, TimeToIdleSeconds) == Field(t, TimeToIdleSeconds);
    assert Field(s, TimeToLiveSeconds) == Field(t, TimeToLiveSeconds);
    assert Field(s, DiskExpiryThreadIntervalSeconds) == Field(t, DiskExpiryThreadIntervalSeconds);
    assert Field(s, DiskSpoolBufferSizeMB) == Field(t, DiskSpoolBufferSizeMB);
    assert Field(s, BlockingTimeout) == Field(t, BlockingTimeout);
  }

  /** The settings that mirror an annotation field for field. */
  function FromDefaults(d: DefaultCacheSettings): (s: Settings)
    ensures forall n :: Field(s, n) == Attribute(d, n)
  {
    Settings(d.copyOnRead, d.copyOnWrite, d.eternal, d.maxElementsInMemory, d.maxElementsOnDisk,
             Some(d.memoryStoreEvictionPolicy), d.overflowToDisk, Some(d.timeToIdleSeconds),
             Some(d.timeToLiveSeconds), Some(d.diskExpiryThreadIntervalSeconds),
             Some(d.diskSpoolBufferSizeMB), d.blockingTimeout)
  }

  /** The fields of a new builder: Java's defaults, false, 0 and null. */
  const Unset: Settings :=
    Settings(false, false, false, 0, 0, None, false, None, None, None, None, 0)

  // ---------------------------------------------------------------------------
  // Builder calls and their meaning

  /** One call of a builder setter with its argument; a duration is its millisecond count. */
  datatype Call =
    | SetCopyOnRead(flag: bool)
    | SetCopyOnWrite(flag: bool)
    | SetEternal(flag: bool)
    | SetMaxElementsInMemory(count: Int32)
    | SetMaxElementsOnDisk(count: Int32)
    | SetMemoryStoreEvictionPolicy(policy: Option<EvictionPolicy>)
    | SetOverflowToDisk(flag: bool)
    | SetTimeToIdleSeconds(seconds: Option<Int32>)
    | SetTimeToLiveSeconds(seconds: Option<Int32>)
    | SetDiskExpiryThreadIntervalSeconds(seconds: Option<Int32>)
    | SetDiskSpoolBufferSizeMB(size: Option<Int32>)
    | SetBlockingTimeout(count: Int32)
    | SetTimeToIdle(duration: Option<Int64>)
    | SetTimeToLive(duration: Option<Int64>)
    | SetDiskExpiryThreadInterval(duration: Option<Int64>)

  /** The seconds a duration setter stores: null for a null duration. */
  function Seconds(duration: Option<Int64>): Option<Int32> {
    match duration
    case None => None
    case Some(millis) => Some(MillisToSeconds(millis))
  }

  /** The builder's fields after one setter call. */
  function Apply(s: Settings, c: Call): Settings {
    match c
    case SetCopyOnRead(v) => s.(copyOnRead := v)
    case SetCopyOnWrite(v) => s.(copyOnWrite := v)
    case SetEternal(v) =>
      if v then s.(timeToIdleSeconds := None, timeToLiveSeconds := None, eternal := true)
      else s.(eternal := false)
    case SetMaxElementsInMemory(v) => s.(maxElementsInMemory := v)
    case SetMaxElementsOnDisk(v) => s.(maxElementsOnDisk := v)
    case SetMemoryStoreEvictionPolicy(v) => s.(memoryStoreEvictionPolicy := v)
    case SetOverflowToDisk(v) =>
      if v then s.(overflowToDisk := true)
      else s.(diskExpiryThreadIntervalSeconds := None, diskSpoolBufferSizeMB := None, overflowToDisk := false)
    case SetTimeToIdleSeconds(v) => s.(timeToIdleSeconds := v)
    case SetTimeToLiveSeconds(v) => s.(timeToLiveSeconds := v)
    case SetDiskExpiryThreadIntervalSeconds(v) => s.(diskExpiryThreadIntervalSeconds := v)
    case SetDiskSpoolBufferSizeMB(v) => s.(diskSpoolBufferSizeMB := v)
    case SetBlockingTimeout(v) => s.(blockingTimeout := v)
    case SetTimeToIdle(duration) => s.(timeToIdleSeconds := Seconds(duration))
    case SetTimeToLive(duration) => s.(timeToLiveSeconds := Seconds(duration))
    case SetDiskExpiryThreadInterval(duration) => s.(diskExpiryThreadIntervalSeconds := Seconds(duration))
  }

  /** The field a setter is named for (a duration setter's is its seconds field). */
  function Target(c: Call): Name {
    match c
    case SetCopyOnRead(_) => CopyOnRead
    case SetCopyOnWrite(_) => CopyOnWrite
    case SetEternal(_) => Eternal
    case SetMaxElementsInMemory(_) => MaxElementsInMemory
    case SetMaxElementsOnDisk(_) => MaxElementsOnDisk
    case SetMemoryStoreEvictionPolicy(_) => MemoryStoreEvictionPolicy
    case SetOverflowToDisk(_) => OverflowToDisk
    case SetTimeToIdleSeconds(_) => TimeToIdleSeconds
    case SetTimeToLiveSeconds(_) => TimeToLiveSeconds
    case SetDiskExpiryThreadIntervalSeconds(_) => DiskExpiryThreadIntervalSeconds
    case SetDiskSpoolBufferSizeMB(_) => DiskSpoolBufferSizeMB
    case SetBlockingTimeout(_) => BlockingTimeout
    case SetTimeToIdle(_) => TimeToIdleSeconds
    case SetTimeToLive(_) => TimeToLiveSeconds
    case SetDiskExpiryThreadInterval(_) => DiskExpiryThreadIntervalSeconds
  }

  /** The value a setter stores in its target field. */
  function Argument(c: Call): Value {
    match c
    case SetCopyOnRead(v) => BoolValue(v)
    case SetCopyOnWrite(v) => BoolValue(v)
    case SetEternal(v) => BoolValue(v)
    case SetMaxElementsInMemory(v) => IntValue(v)
    case SetMaxElementsOnDisk(v) => IntValue(v)
    case SetMemoryStoreEvictionPolicy(v) => (match v case None => Null case Some(p) => PolicyValue(p))
    case SetOverflowToDisk(v) => BoolValue(v)
    case SetTimeToIdleSeconds(v) => Boxed(v)
    case SetTimeToLiveSeconds(v) => Boxed(v)
    case SetDiskExpiryThreadIntervalSeconds(v) => Boxed(v)
    case SetDiskSpoolBufferSizeMB(v) => Boxed(v)
    case SetBlockingTimeout(v) => IntValue(v)
    case SetTimeToIdle(duration) => Boxed(Seconds(duration))
    case SetTimeToLive(duration) => Boxed(Seconds(duration))
    case SetDiskExpiryThreadInterval(duration) => Boxed(Seconds(duration))
  }

  /**
    The fields a call may change: its target, and for `eternal(true)` the two
    timeouts, for `overflowToDisk(false)` the two disk fields.
   */
  function Writes(c: Call): set<Name> {
    match c
    case SetEternal(true) => {Eternal, TimeToIdleSeconds, TimeToLiveSeconds}
    case SetOverflowToDisk(false) =>
      {OverflowToDisk, DiskExpiryThreadIntervalSeconds, DiskSpoolBufferSizeMB}
    case _ => {Target(c)}
  }

  /** The builder's fields after the setter calls `calls`, first to last. */
  function Applied(s: Settings, calls: seq<Call>): Settings
    decreases |calls|
  {
    if calls == [] then s else Apply(Applied(s, calls[..|calls| - 1]), calls[|calls| - 1])
  }

  /** Every setter stores its argument in the field it is named for. */
  lemma ApplySetsTarget(s: Settings, c: Call)
    ensures Field(Apply(s, c), Target(c)) == Argument(c)
  {
  }

  /** A setter changes no field outside its write set: a plain setter changes only its own field. */
  lemma ApplyChangesOnlyWrites(s: Settings, c: Call, n: Name)
    requires n !in Writes(c)
    ensures Field(Apply(s, c), n) == Field(s, n)
  {
    match n
    case CopyOnRead => {}
    case CopyOnWrite => {}
    case Eternal => {}
    case MaxElementsInMemory => {}
    case MaxElementsOnDisk => {}
    case MemoryStoreEvictionPolicy => {}
    case OverflowToDisk => {}
    case TimeToIdleSeconds => {}
    case TimeToLiveSeconds => {}
    case DiskExpiryThreadIntervalSeconds => {}
    case DiskSpoolBufferSizeMB => {}
    case BlockingTimeout => {}
  }

  /** `eternal(true)` leaves both timeouts null whatever they held; `eternal(false)` leaves them alone. */
  lemma EternalClearsTimeouts(s: Settings, v: bool)
    ensures Apply(s, SetEternal(v)).eternal == v
    ensures v ==> Apply(s, SetEternal(v)).timeToIdleSeconds == None
    ensures v ==> Apply(s, SetEternal(v)).timeToLiveSeconds == None
    ensures !v ==> Apply(s, SetEternal(v)) == s.(eternal := false)
  {
  }

  /** `overflowToDisk(false)` leaves both disk fields null; `overflowToDisk(true)` leaves them alone. */
  lemma OverflowToDiskClearsDiskFields(s: Settings, v: bool)
    ensures Apply(s, SetOverflowToDisk(v)).overflowToDisk == v
    ensures !v ==> Apply(s, SetOverflowToDisk(v)).diskExpiryThreadIntervalSeconds == None
    ensures !v ==> Apply(s, SetOverflowToDisk(v)).diskSpoolBufferSizeMB == None
    ensures v ==> Apply(s, SetOverflowToDisk(v)) == s.(overflowToDisk := true)
  {
  }

  /**
    A duration setter maps a null duration to a null field and a duration of
    `millis` ms to `(int) millis / 1000` seconds; 60 s becomes 60.
   */
  lemma DurationSettersStoreSeconds(s: Settings, duration: Option<Int64>)
    ensures Apply(s, SetTimeToIdle(duration)).timeToIdleSeconds == Seconds(duration)
    ensures Apply(s, SetTimeToLive(duration)).timeToLiveSeconds == Seconds(duration)
    ensures Apply(s, SetDiskExpiryThreadInterval(duration)).diskExpiryThreadIntervalSeconds == Seconds(duration)
    ensures Apply(s, SetTimeToIdle(duration)) == s.(timeToIdleSeconds := Seconds(duration))
    ensures Apply(s, SetTimeToLive(duration)) == s.(timeToLiveSeconds := Seconds(duration))
    ensures Apply(s, SetDiskExpiryThreadInterval(duration))
              == s.(diskExpiryThreadIntervalSeconds := Seconds(duration))
    ensures duration == None ==> Seconds(duration) == None
    ensures duration.Some? && 0 <= duration.value < 0x8000_0000 ==>
              Seconds(duration) == Some(duration.value / 1000)
    ensures Seconds(Some(60_000)) == Some(60)
  {
  }

  // ---------------------------------------------------------------------------
  // The builder

  /** The mutable builder; its fields start at Java's defaults. */
  class Builder {
    var copyOnRead: bool
    var copyOnWrite: bool
    var eternal: bool
    var maxElementsInMemory: Int32
    var maxElementsOnDisk: Int32
    var memoryStoreEvictionPolicy: Option<EvictionPolicy>
    var overflowToDisk: bool
    var timeToIdleSeconds: Option<Int32>
    var timeToLiveSeconds: Option<Int32>
    var diskExpiryThreadIntervalSeconds: Option<Int32>
    var diskSpoolBufferSizeMB: Option<Int32>
    var blockingTimeout: Int32

    /** The builder's fields, as the record `build()` would make of them. */
    function State(): Settings
      reads this
    {
      Settings(copyOnRead, copyOnWrite, eternal, maxElementsInMemory, maxElementsOnDisk,
               memoryStoreEvictionPolicy, overflowToDisk, timeToIdleSeconds, timeToLiveSeconds,
               diskExpiryThreadIntervalSeconds, diskSpoolBufferSizeMB, blockingTimeout)
    }

    constructor ()
      ensures State() == Unset
    {
      copyOnRead, copyOnWrite, eternal := false, false, false;
      maxElementsInMemory, maxElementsOnDisk := 0, 0;
      memoryStoreEvictionPolicy := None;
      overflowToDisk := false;
      timeToIdleSeconds, timeToLiveSeconds := None, None;
      diskExpiryThreadIntervalSeconds, diskSpoolBufferSizeMB := None, None;
      blockingTimeout := 0;
    }

    /** `build()`: a snapshot of the fields; the builder is unchanged. */
    method Build() returns (s: Settings)
      ensures s == State()
    {
      s := Settings(copyOnRead, copyOnWrite, eternal, maxElementsInMemory, maxElementsOnDisk,
                    memoryStoreEvictionPolicy, overflowToDisk, timeToIdleSeconds, timeToLiveSeconds,
                    diskExpiryThreadIntervalSeconds, diskSpoolBufferSizeMB, blockingTimeout);
    }

    method CopyOnRead(v: bool)
      modifies this
      ensures State() == Apply(old(State()), SetCopyOnRead(v))
    {
      copyOnRead := v;
    }

    method CopyOnWrite(v: bool)
      modifies this
      ensures State() == Apply(old(State()), SetCopyOnWrite(v))
    {
      copyOnWrite := v;
    }

    method MaxElementsInMemory(v: Int32)
      modifies this
      ensures State() == Apply(old(State()), SetMaxElementsInMemory(v))
    {
      maxElementsInMemory := v;
    }

    method MaxElementsOnDisk(v: Int32)
      modifies this
      ensures State() == Apply(old(State()), SetMaxElementsOnDisk(v))
    {
      maxElementsOnDisk := v;
    }

    method MemoryStoreEvictionPolicy(v: Option<EvictionPolicy>)
      modifies this
      ensures State() == Apply(old(State()), SetMemoryStoreEvictionPolicy(v))
    {
      memoryStoreEvictionPolicy := v;
    }

    method TimeToIdleSeconds(v: Option<Int32>)
      modifies this
      ensures State() == Apply(old(State()), SetTimeToIdleSeconds(v))
    {
      timeToIdleSeconds := v;
    }

    method TimeToLiveSeconds(v: Option<Int32>)
      modifies this
      ensures State() == Apply(old(State()), SetTimeToLiveSeconds(v))
    {
      timeToLiveSeconds := v;
    }

    method DiskExpiryThreadIntervalSeconds(v: Option<Int32>)
      modifies this
      ensures State() == Apply(old(State()), SetDiskExpiryThreadIntervalSeconds(v))
    {
      diskExpiryThreadIntervalSeconds := v;
    }

    method DiskSpoolBufferSizeMB(v: Option<Int32>)
      modifies this
      ensures State() == Apply(old(State()), SetDiskSpoolBufferSizeMB(v))
    {
      diskSpoolBufferSizeMB := v;
    }

    method BlockingTimeout(v: Int32)
      modifies this
      ensures State() == Apply(old(State()), SetBlockingTimeout(v))
    {
      blockingTimeout := v;
    }

    /** `timeToIdle(duration)`: stores `(int) millis / 1000`, or null; nothing else changes. */
    method TimeToIdle(duration: Option<Int64>)
      modifies this
      ensures State() == Apply(old(State()), SetTimeToIdle(duration))
      ensures timeToIdleSeconds == Seconds(duration)
    {
      TimeToIdleSeconds(if duration == None then None else Some(MillisToSeconds(duration.value)));
    }

    /** `timeToLive(duration)`: stores `(int) millis / 1000`, or null; nothing else changes. */
    method TimeToLive(duration: Option<Int64>)
      modifies this
      ensures State() == Apply(old(State()), SetTimeToLive(duration))
      ensures timeToLiveSeconds == Seconds(duration)
    {
      TimeToLiveSeconds(if duration == None then None else Some(MillisToSeconds(duration.value)));
    }

    /** `diskExpiryThreadInterval(duration)`: stores `(int) millis / 1000`, or null; nothing else changes. */
    method DiskExpiryThreadInterval(duration: Option<Int64>)
      modifies this
      ensures State() == Apply(old(State()), SetDiskExpiryThreadInterval(duration))
      ensures diskExpiryThreadIntervalSeconds == Seconds(duration)
    {
      DiskExpiryThreadIntervalSeconds(if duration == None then None else Some(MillisToSeconds(duration.value)));
    }

    /** `eternal(v)`: when v holds, first nulls both timeouts; then stores v. */
    method Eternal(v: bool)
      modifies this
      ensures State() == Apply(old(State()), SetEternal(v))
      ensures eternal == v
      ensures v ==> timeToIdleSeconds == None && timeToLiveSeconds == None
      ensures !v ==> timeToIdleSeconds == old(timeToIdleSeconds) && timeToLiveSeconds == old(timeToLiveSeconds)
    {
      if v {
        TimeToIdleSeconds(None);
        TimeToLiveSeconds(None);
      }
      eternal := v;
    }

    /** `overflowToDisk(v)`: when v is false, first nulls both disk fields; then stores v. */
    method OverflowToDisk(v: bool)
      modifies this
      ensures State() == Apply(old(State()), SetOverflowToDisk(v))
      ensures overflowToDisk == v
      ensures !v ==> diskExpiryThreadIntervalSeconds == None && diskSpoolBufferSizeMB == None
      ensures v ==> diskExpiryThreadIntervalSeconds == old(diskExpiryThreadIntervalSeconds)
                    && diskSpoolBufferSizeMB == old(diskSpoolBufferSizeMB)
    {
      if !v {
        DiskExpiryThreadInterval(None);
        DiskSpoolBufferSizeMB(None);
      }
      overflowToDisk := v;
    }

    /** Runs the setter that `c` names with `c`'s argument (what a reflective `tm.invoke` does). */
    method Perform(c: Call)
      modifies this
      ensures State() == Apply(old(State()), c)
    {
      match c
      case SetCopyOnRead(v) => CopyOnRead(v);
      case SetCopyOnWrite(v) => CopyOnWrite(v);
      case SetEternal(v) => Eternal(v);
      case SetMaxElementsInMemory(v) => MaxElementsInMemory(v);
      case SetMaxElementsOnDisk(v) => MaxElementsOnDisk(v);
      case SetMemoryStoreEvictionPolicy(v) => MemoryStoreEvictionPolicy(v);
      case SetOverflowToDisk(v) => OverflowToDisk(v);
      case SetTimeToIdleSeconds(v) => TimeToIdleSeconds(v);
      case SetTimeToLiveSeconds(v) => TimeToLiveSeconds(v);
      case SetDiskExpiryThreadIntervalSeconds(v) => DiskExpiryThreadIntervalSeconds(v);
      case SetDiskSpoolBufferSizeMB(v) => DiskSpoolBufferSizeMB(v);
      case SetBlockingTimeout(v) => BlockingTimeout(v);
      case SetTimeToIdle(duration) => TimeToIdle(duration);
      case SetTimeToLive(duration) => TimeToLive(duration);
      case SetDiskExpiryThreadInterval(duration) => DiskExpiryThreadInterval(duration);
    }
  }

  // ---------------------------------------------------------------------------
  // Seeding a builder from an annotation

  /** The setter call that `invoke` makes for the annotation method `n`, with `n`'s value in `d`. */
  function CallFor(n: Name, d: DefaultCacheSettings): (c: Call)
    ensures Target(c) == n && Argument(c) == Attribute(d, n)
  {
    match n
    case CopyOnRead => SetCopyOnRead(d.copyOnRead)
    case CopyOnWrite => SetCopyOnWrite(d.copyOnWrite)
    case Eternal => SetEternal(d.eternal)
    case MaxElementsInMemory => SetMaxElementsInMemory(d.maxElementsInMemory)
    case MaxElementsOnDisk => SetMaxElementsOnDisk(d.maxElementsOnDisk)
    case MemoryStoreEvictionPolicy => SetMemoryStoreEvictionPolicy(Some(d.memoryStoreEvictionPolicy))
    case OverflowToDisk => SetOverflowToDisk(d.overflowToDisk)
    case TimeToIdleSeconds => SetTimeToIdleSeconds(Some(d.timeToIdleSeconds))
    case TimeToLiveSeconds => SetTimeToLiveSeconds(Some(d.timeToLiveSeconds))
    case DiskExpiryThreadIntervalSeconds => SetDiskExpiryThreadIntervalSeconds(Some(d.diskExpiryThreadIntervalSeconds))
    case DiskSpoolBufferSizeMB => SetDiskSpoolBufferSizeMB(Some(d.diskSpoolBufferSizeMB))
    case BlockingTimeout => SetBlockingTimeout(d.blockingTimeout)
  }

  /** The builder's fields after `invoke` has called the setters for `order`, first to last. */
  function Seeded(s: Settings, order: seq<Name>, d: DefaultCacheSettings): Settings
    decreases |order|
  {
    if order == [] then s
    else Apply(Seeded(s, order[..|order| - 1], d), CallFor(order[|order| - 1], d))
  }

  /** An order in which `getDeclaredMethods()` may list the annotation's twelve methods. */
  predicate IsMethodOrder(order: seq<Name>) {
    |order| == 12 && forall n :: n in order
  }

  /** The four nullable fields, each cleared by the setter of a flag. */
  predicate IsNullable(n: Name) {
    n == TimeToIdleSeconds || n == TimeToLiveSeconds
    || n == DiskExpiryThreadIntervalSeconds || n == DiskSpoolBufferSizeMB
  }

  /** The flag whose setter may clear the nullable field `n`. */
  function Switch(n: Name): Name {
    if n == TimeToIdleSeconds || n == TimeToLiveSeconds then Eternal else OverflowToDisk
  }

  /** Whether `d`'s value of `Switch(n)` is the one that clears `n`: eternal true, overflowToDisk false. */
  predicate SwitchedOff(d: DefaultCacheSettings, n: Name) {
    if Switch(n) == Eternal then d.eternal else !d.overflowToDisk
  }

  /** Which of `a` and `b` occurs last in `order`, if either occurs. */
  function LastOf(order: seq<Name>, a: Name, b: Name): (r: Option<Name>)
    ensures r == None <==> a !in order && b !in order
    ensures r == Some(a) || r == Some(b) || r == None
    decreases |order|
  {
    if order == [] then None
    else if order[|order| - 1] == a || order[|order| - 1] == b then Some(order[|order| - 1])
    else LastOf(order[..|order| - 1], a, b)
  }

  /** Entries other than `a` and `b` at the end of `order` do not change which of them is last. */
  lemma {:induction false} LastOfSkipsOthers(order: seq<Name>, a: Name, b: Name, k: nat)
    requires k <= |order|
    requires forall i :: k <= i < |order| ==> order[i] != a && order[i] != b
    ensures LastOf(order, a, b) == LastOf(order[..k], a, b)
    decreases |order|
  {
    if k < |order| {
      var prefix := order[..|order| - 1];
      assert prefix[..k] == order[..k];
      LastOfSkipsOthers(prefix, a, b, k);
    } else {
      assert order[..k] == order;
    }
  }

  /**
    The name `LastOf` returns is at some position of `order` after which
    neither `a` nor `b` occurs again.
   */
  lemma {:induction false} LastOfIsLast(order: seq<Name>, a: Name, b: Name)
    requires LastOf(order, a, b).Some?
    ensures exists i :: 0 <= i < |order| && order[i] == LastOf(order, a, b).value &&
              forall j :: i < j < |order| ==> order[j] != a && order[j] != b
    decreases |order|
  {
    var last := |order| - 1;
    if order[last] == a || order[last] == b {
      assert order[last] == LastOf(order, a, b).value;
    } else {
      var prefix := order[..last];
      LastOfIsLast(prefix, a, b);
      var i :| 0 <= i < |prefix| && prefix[i] == LastOf(prefix, a, b).value &&
               forall j :: i < j < |prefix| ==> prefix[j] != a && prefix[j] != b;
      assert order[i] == prefix[i];
      forall j | i < j < |order|
        ensures order[j] != a && order[j] != b
      {
        if j < last {
          assert order[j] == prefix[j];
        }
      }
    }
  }

  /** Whether the setter for `later` runs after the setter for `earlier`. */
  predicate SetAfter(order: seq<Name>, later: Name, earlier: Name) {
    LastOf(order, earlier, later) == Some(later)
  }

  /** One seeding step on a field that no flag clears. */
  lemma StepPlainField(s: Settings, m: Name, d: DefaultCacheSettings, n: Name)
    requires !IsNullable(n)
    ensures Field(Apply(s, CallFor(m, d)), n) == if m == n then Attribute(d, n) else Field(s, n)
  {
    match m
    case CopyOnRead => {}
    case CopyOnWrite => {}
    case Eternal => {}
    case MaxElementsInMemory => {}
    case MaxElementsOnDisk => {}
    case MemoryStoreEvictionPolicy => {}
    case OverflowToDisk => {}
    case TimeToIdleSeconds => {}
    case TimeToLiveSeconds => {}
    case DiskExpiryThreadIntervalSeconds => {}
    case DiskSpoolBufferSizeMB => {}
    case BlockingTimeout => {}
  }

  /** One seeding step on a nullable field. */
  lemma StepNullableField(s: Settings, m: Name, d: DefaultCacheSettings, n: Name)
    requires IsNullable(n)
    ensures Field(Apply(s, CallFor(m, d)), n) ==
              if m == n then Attribute(d, n)
              else if m == Switch(n) && SwitchedOff(d, n) then Null
              else Field(s, n)
  {
    match m
    case CopyOnRead => {}
    case CopyOnWrite => {}
    case Eternal => {}
    case MaxElementsInMemory => {}
    case MaxElementsOnDisk => {}
    case MemoryStoreEvictionPolicy => {}
    case OverflowToDisk => {}
    case TimeToIdleSeconds => {}
    case TimeToLiveSeconds => {}
    case DiskExpiryThreadIntervalSeconds => {}
    case DiskSpoolBufferSizeMB => {}
    case BlockingTimeout => {}
  }

  /** After seeding, a field no flag clears holds the annotation's value if its setter ran. */
  lemma {:induction false} SeededPlainField(s: Settings, order: seq<Name>, d: DefaultCacheSettings, n: Name)
    requires !IsNullable(n)
    ensures Field(Seeded(s, order, d), n) == if n in order then Attribute(d, n) else Field(s, n)
    decreases |order|
  {
    if order != [] {
      var prefix, m := order[..|order| - 1], order[|order| - 1];
      assert order == prefix + [m];
      SeededPlainField(s, prefix, d, n);
      StepPlainField(Seeded(s, prefix, d), m, d, n);
    }
  }

  /**
    After seeding, a nullable field is null if its flag is switched off by `d`
    and the flag's setter ran after the field's own; otherwise it holds the
    annotation's value if its setter ran, and its old value if not.
   */
  lemma {:induction false} SeededNullableField(s: Settings, order: seq<Name>, d: DefaultCacheSettings, n: Name)
    requires IsNullable(n)
    ensures Field(Seeded(s, order, d), n) ==
              if SwitchedOff(d, n) && SetAfter(order, Switch(n), n) then Null
              else if n in order then Attribute(d, n)
              else Field(s, n)
    decreases |order|
  {
    if order != [] {
      var prefix, m := order[..|order| - 1], order[|order| - 1];
      assert order == prefix + [m];
      SeededNullableField(s, prefix, d, n);
      StepNullableField(Seeded(s, prefix, d), m, d, n);
    }
  }

  /**
    Seeding in any order that lists every method once: each field that no flag
    clears mirrors the annotation, and a nullable field mirrors it unless its
    flag is switched off and that flag's setter ran after the field's.
   */
  lemma SeededInMethodOrder(s: Settings, order: seq<Name>, d: DefaultCacheSettings, n: Name)
    requires IsMethodOrder(order)
    ensures Field(Seeded(s, order, d), n) ==
              if IsNullable(n) && SwitchedOff(d, n) && SetAfter(order, Switch(n), n) then Null
              else Attribute(d, n)
  {
    assert n in order;
    if IsNullable(n) {
      SeededNullableField(s, order, d, n);
    } else {
      SeededPlainField(s, order, d, n);
    }
  }

  /**
    `invoke(builder, defaults)`: for every annotation method, in `order`, calls
    the same-named builder setter with the method's value in `defaults`, or
    with its declared default when `defaults` is null.
   */
  method Invoke(builder: Builder, order: seq<Name>, defaults: Option<DefaultCacheSettings>)
    modifies builder
    ensures builder.State() == Seeded(old(builder.State()), order, if defaults == None then Declared else defaults.value)
  {
    var values := if defaults == None then Declared else defaults.value;
    for i := 0 to |order|
      invariant builder.State() == Seeded(old(builder.State()), order[..i], values)
    {
      builder.Perform(CallFor(order[i], values));
      assert order[..i + 1][..i] == order[..i];
    }
    assert order[..|order|] == order;
  }

  /** `builder()`: a new builder seeded with the annotation's declared defaults. */
  method NewBuilder(order: seq<Name>) returns (builder: Builder)
    requires IsMethodOrder(order)
    ensures fresh(builder)
    ensures builder.State() == Seeded(Unset, order, Declared)
    ensures builder.maxElementsInMemory == 500
  {
    builder := new Builder();
    Invoke(builder, order, None);
    SeededInMethodOrder(Unset, order, Declared, MaxElementsInMemory);
  }

  /** A builder fresh from `builder()` mirrors every declared default, up to the flags' clearing. */
  lemma BuilderSeedsDeclaredDefaults(order: seq<Name>, n: Name)
    requires IsMethodOrder(order)
    ensures !IsNullable(n) ==> Field(Seeded(Unset, order, Declared), n) == Attribute(Declared, n)
    ensures Seeded(Unset, order, Declared).maxElementsInMemory == 500
  {
    SeededInMethodOrder(Unset, order, Declared, n);
    SeededInMethodOrder(Unset, order, Declared, MaxElementsInMemory);
  }

  // ---------------------------------------------------------------------------
  // Normalisation

  /** Whether `d`'s value of the attribute `n` equals its declared default (`Objects.equals`). */
  predicate IsDeclaredDefault(d: DefaultCacheSettings, n: Name) {
    Attribute(d, n) == Attribute(Declared, n)
  }

  /** The builder's fields after `setToNullIfDefault(d, n, nuller)`. */
  function ClearIfDefault(s: Settings, d: DefaultCacheSettings, n: Name, nuller: Call): Settings {
    if IsDeclaredDefault(d, n) then Apply(s, nuller) else s
  }

  /** A nuller that `of` passes: it stores null in its target and writes nothing else. */
  predicate IsNuller(c: Call) {
    c == SetTimeToIdleSeconds(None) || c == SetTimeToLiveSeconds(None)
    || c == SetDiskExpiryThreadInterval(None) || c == SetDiskSpoolBufferSizeMB(None)
  }

  /** Clearing the nuller's target when `d` leaves it at its declared default touches no other field. */
  lemma ClearIfDefaultField(s: Settings, d: DefaultCacheSettings, nuller: Call, n: Name)
    requires IsNuller(nuller)
    ensures Field(ClearIfDefault(s, d, Target(nuller), nuller), n) ==
              if n == Target(nuller) && IsDeclaredDefault(d, n) then Null else Field(s, n)
  {
    if n != Target(nuller) {
      ApplyChangesOnlyWrites(s, nuller, n);
    }
  }

  /**
    `setToNullIfDefault(defaults, n, nuller)`: runs the nuller and returns
    true exactly when `defaults`' value of `n` equals `n`'s declared default;
    otherwise changes nothing and returns false.
   */
  method SetToNullIfDefault(defaults: DefaultCacheSettings, n: Name, nuller: Call, builder: Builder)
    returns (changed: bool)
    modifies builder
    ensures changed == IsDeclaredDefault(defaults, n)
    ensures builder.State() == ClearIfDefault(old(builder.State()), defaults, n, nuller)
  {
    if Attribute(defaults, n) == Attribute(Declared, n) {
      builder.Perform(nuller);
      return true;
    }
    return false;
  }

  /** Whether `s`'s value of `Switch(n)` is the one that clears `n`. */
  predicate SwitchedOffIn(s: Settings, n: Name) {
    if Switch(n) == Eternal then s.eternal else !s.overflowToDisk
  }

  /** The eternal half of `of`'s clearing pass: each timeout that `d` leaves at its declared default is nulled. */
  function ClearTimeouts(s: Settings, d: DefaultCacheSettings): Settings {
    ClearIfDefault(ClearIfDefault(s, d, TimeToIdleSeconds, SetTimeToIdleSeconds(None)),
                   d, TimeToLiveSeconds, SetTimeToLiveSeconds(None))
  }

  /** The no-overflow half of `of`'s clearing pass: each disk field that `d` leaves at its declared default is nulled. */
  function ClearDiskFields(s: Settings, d: DefaultCacheSettings): Settings {
    ClearIfDefault(ClearIfDefault(s, d, DiskExpiryThreadIntervalSeconds, SetDiskExpiryThreadInterval(None)),
                   d, DiskSpoolBufferSizeMB, SetDiskSpoolBufferSizeMB(None))
  }

  /** The clearing pass of `of` on its first build `built`; the flags are read from `built`. */
  function Normalised(built: Settings, d: DefaultCacheSettings): Settings {
    var timed := if built.eternal then ClearTimeouts(built, d) else built;
    if !built.overflowToDisk then ClearDiskFields(timed, d) else timed
  }

  lemma ClearTimeoutsField(s: Settings, d: DefaultCacheSettings, n: Name)
    ensures Field(ClearTimeouts(s, d), n) ==
              if (n == TimeToIdleSeconds || n == TimeToLiveSeconds) && IsDeclaredDefault(d, n) then Null
              else Field(s, n)
  {
    ClearIfDefaultField(s, d, SetTimeToIdleSeconds(None), n);
    ClearIfDefaultField(ClearIfDefault(s, d, TimeToIdleSeconds, SetTimeToIdleSeconds(None)),
                        d, SetTimeToLiveSeconds(None), n);
  }

  lemma ClearDiskFieldsField(s: Settings, d: DefaultCacheSettings, n: Name)
    ensures Field(ClearDiskFields(s, d), n) ==
              if (n == DiskExpiryThreadIntervalSeconds || n == DiskSpoolBufferSizeMB) && IsDeclaredDefault(d, n) then Null
              else Field(s, n)
  {
    ClearIfDefaultField(s, d, SetDiskExpiryThreadInterval(None), n);
    ClearIfDefaultField(ClearIfDefault(s, d, DiskExpiryThreadIntervalSeconds, SetDiskExpiryThreadInterval(None)),
                        d, SetDiskSpoolBufferSizeMB(None), n);
  }

  /** The clearing pass nulls exactly the switched-off nullable fields that `d` leaves at their declared default. */
  lemma NormalisedField(built: Settings, d: DefaultCacheSettings, n: Name)
    ensures Field(Normalised(built, d), n) ==
              if IsNullable(n) && SwitchedOffIn(built, n) && IsDeclaredDefault(d, n) then Null
              else Field(built, n)
  {
    var timed := if built.eternal then ClearTimeouts(built, d) else built;
    ClearTimeoutsField(built, d, n);
    ClearDiskFieldsField(timed, d, n);
  }

  /** The settings `of(d)` returns when `getDeclaredMethods()` lists the methods in `order`. */
  function Derived(order: seq<Name>, d: DefaultCacheSettings): Settings {
    Normalised(Seeded(Unset, order, d), d)
  }

  /**
    `of(defaults)`: seeds a new builder from `defaults`, builds, nulls the
    timeouts that still hold their declared default when eternal and the
    disk fields that still hold theirs when not overflowing to disk, and
    rebuilds only if something was nulled.
   */
  method Of(order: seq<Name>, defaults: DefaultCacheSettings) returns (settings: Settings)
    ensures settings == Derived(order, defaults)
  {
    var builder := new Builder();
    Invoke(builder, order, Some(defaults));
    settings := builder.Build();
    var change := false;
    if settings.eternal {
      change := SetToNullIfDefault(defaults, TimeToIdleSeconds, SetTimeToIdleSeconds(None), builder);
      var c := SetToNullIfDefault(defaults, TimeToLiveSeconds, SetTimeToLiveSeconds(None), builder);
      change := change || c;
    }
    if !settings.overflowToDisk {
      var c := SetToNullIfDefault(defaults, DiskExpiryThreadIntervalSeconds, SetDiskExpiryThreadInterval(None), builder);
      change := change || c;
      c := SetToNullIfDefault(defaults, DiskSpoolBufferSizeMB, SetDiskSpoolBufferSizeMB(None), builder);
      change := change || c;
    }
    if change {
      settings := builder.Build();
    }
  }

  /**
    What `of(d)` returns, field by field, for any method order: every field
    mirrors `d`, except that a nullable field is null when its flag is
    switched off by `d` and either its value in `d` is its declared default
    or the flag's setter ran after the field's.
   */
  lemma DerivedField(order: seq<Name>, d: DefaultCacheSettings, n: Name)
    requires IsMethodOrder(order)
    ensures Field(Derived(order, d), n) ==
              if IsNullable(n) && SwitchedOff(d, n) && (IsDeclaredDefault(d, n) || SetAfter(order, Switch(n), n))
              then Null
              else Attribute(d, n)
  {
    var built := Seeded(Unset, order, d);
    SeededInMethodOrder(Unset, order, d, Eternal);
    SeededInMethodOrder(Unset, order, d, OverflowToDisk);
    SeededInMethodOrder(Unset, order, d, n);
    NormalisedField(built, d, n);
    assert SwitchedOffIn(built, n) == SwitchedOff(d, n);
  }

  /**
    For every method order: under eternal, a timeout whose value in `d` is
    its declared default comes out null; without overflow to disk, so does
    such a disk field; and the flags themselves are `d`'s.
   */
  lemma DerivedNullsDefaultedFields(order: seq<Name>, d: DefaultCacheSettings)
    requires IsMethodOrder(order)
    ensures Derived(order, d).eternal == d.eternal
    ensures Derived(order, d).overflowToDisk == d.overflowToDisk
    ensures d.eternal && d.timeToIdleSeconds == Declared.timeToIdleSeconds ==>
              Derived(order, d).timeToIdleSeconds == None
    ensures d.eternal && d.timeToLiveSeconds == Declared.timeToLiveSeconds ==>
              Derived(order, d).timeToLiveSeconds == None
    ensures !d.overflowToDisk && d.diskExpiryThreadIntervalSeconds == Declared.diskExpiryThreadIntervalSeconds ==>
              Derived(order, d).diskExpiryThreadIntervalSeconds == None
    ensures !d.overflowToDisk && d.diskSpoolBufferSizeMB == Declared.diskSpoolBufferSizeMB ==>
              Derived(order, d).diskSpoolBufferSizeMB == None
  {
    DerivedField(order, d, Eternal);
    DerivedField(order, d, OverflowToDisk);
    DerivedField(order, d, TimeToIdleSeconds);
    DerivedField(order, d, TimeToLiveSeconds);
    DerivedField(order, d, DiskExpiryThreadIntervalSeconds);
    DerivedField(order, d, DiskSpoolBufferSizeMB);
  }

  /** When `d` is not eternal and overflows to disk, `of(d)` mirrors `d` in every field, for every method order. */
  lemma DerivedMirrorsDefaults(order: seq<Name>, d: DefaultCacheSettings)
    requires IsMethodOrder(order)
    requires !d.eternal && d.overflowToDisk
    ensures Derived(order, d) == FromDefaults(d)
  {
    forall n ensures Field(Derived(order, d), n) == Field(FromDefaults(d), n) {
      DerivedField(order, d, n);
    }
    FieldsDetermineSettings(Derived(order, d), FromDefaults(d));
  }

  /** The settings fields in the order the record declares them. */
  const DeclarationOrder: seq<Name> := [
    CopyOnRead, CopyOnWrite, Eternal, MaxElementsInMemory, MaxElementsOnDisk,
    MemoryStoreEvictionPolicy, OverflowToDisk, TimeToIdleSeconds, TimeToLiveSeconds,
    DiskExpiryThreadIntervalSeconds, DiskSpoolBufferSizeMB, BlockingTimeout]

  /** Where `n` stands in `DeclarationOrder`. */
  function Position(n: Name): (i: nat)
    ensures i < |DeclarationOrder| && DeclarationOrder[i] == n
  {
    match n
    case CopyOnRead => 0
    case CopyOnWrite => 1
    case Eternal => 2
    case MaxElementsInMemory => 3
    case MaxElementsOnDisk => 4
    case MemoryStoreEvictionPolicy => 5
    case OverflowToDisk => 6
    case TimeToIdleSeconds => 7
    case TimeToLiveSeconds => 8
    case DiskExpiryThreadIntervalSeconds => 9
    case DiskSpoolBufferSizeMB => 10
    case BlockingTimeout => 11
  }

  /** The same fields with the two timeouts moved to the front, before `eternal`. */
  const TimeoutsFirstOrder: seq<Name> :=
    [TimeToIdleSeconds, TimeToLiveSeconds] + DeclarationOrder[..7] + DeclarationOrder[9..]

  /** Both orders list every annotation method once. */
  lemma ExampleOrdersAreMethodOrders()
    ensures IsMethodOrder(DeclarationOrder) && IsMethodOrder(TimeoutsFirstOrder)
  {
    forall n ensures n in DeclarationOrder && n in TimeoutsFirstOrder {
      var i := Position(n);
      if i < 7 {
        assert TimeoutsFirstOrder[i + 2] == n;
      } else if i < 9 {
        assert TimeoutsFirstOrder[i - 7] == n;
      } else {
        assert TimeoutsFirstOrder[i] == n;
      }
    }
  }

  /** If the last of `eternal` and `timeToIdleSeconds` in `order` is `timeToIdleSeconds`, at `k`, it runs last. */
  lemma IdleSetAfterEternalIn(order: seq<Name>, k: nat)
    requires k < |order| && order[k] == TimeToIdleSeconds
    requires forall i :: k < i < |order| ==> order[i] != Eternal && order[i] != TimeToIdleSeconds
    ensures !SetAfter(order, Eternal, TimeToIdleSeconds)
  {
    LastOfSkipsOthers(order, TimeToIdleSeconds, Eternal, k + 1);
  }

  /** If the last of `eternal` and `timeToIdleSeconds` in `order` is `eternal`, at `k`, it runs last. */
  lemma EternalSetAfterIdleIn(order: seq<Name>, k: nat)
    requires k < |order| && order[k] == Eternal
    requires forall i :: k < i < |order| ==> order[i] != Eternal && order[i] != TimeToIdleSeconds
    ensures SetAfter(order, Eternal, TimeToIdleSeconds)
  {
    LastOfSkipsOthers(order, TimeToIdleSeconds, Eternal, k + 1);
  }

  /** In `DeclarationOrder` `timeToIdleSeconds` follows `eternal`; in `TimeoutsFirstOrder` it precedes it. */
  lemma ExampleOrdersPlaceEternal()
    ensures !SetAfter(DeclarationOrder, Eternal, TimeToIdleSeconds)
    ensures SetAfter(TimeoutsFirstOrder, Eternal, TimeToIdleSeconds)
  {
    IdleSetAfterEternalIn(DeclarationOrder, 7);
    EternalSetAfterIdleIn(TimeoutsFirstOrder, 4);
  }

  /**
    The method order decides whether an eternal annotation keeps a
    non-default time to idle: it survives when its setter runs after
    `eternal(true)`, and is nulled when it runs before.
   */
  lemma DerivedDependsOnMethodOrder(d: DefaultCacheSettings)
    requires d.eternal && d.timeToIdleSeconds != Declared.timeToIdleSeconds
    ensures IsMethodOrder(DeclarationOrder) && IsMethodOrder(TimeoutsFirstOrder)
    ensures Derived(DeclarationOrder, d).timeToIdleSeconds == Some(d.timeToIdleSeconds)
    ensures Derived(TimeoutsFirstOrder, d).timeToIdleSeconds == None
  {
    ExampleOrdersAreMethodOrders();
    ExampleOrdersPlaceEternal();
    DerivedField(DeclarationOrder, d, TimeToIdleSeconds);
    DerivedField(TimeoutsFirstOrder, d, TimeToIdleSeconds);
  }

  /**
    The builder scenarios of the module's tests: `builder().build()` has 500
    elements in memory; `timeToIdle(60 s)` gives 60; `copyOnWrite(true)` and
    `eternal(true)` are reported by `build()`, and `eternal(true)` leaves both
    timeouts null, even right after `timeToIdle(99 s)`.
   */
  method BuilderScenarios(order: seq<Name>)
    returns (plain: Settings, idle: Settings, copying: Settings, eternal: Settings, idleThenEternal: Settings)
    requires IsMethodOrder(order)
    ensures plain.maxElementsInMemory == 500
    ensures idle.timeToIdleSeconds == Some(60)
    ensures copying.copyOnWrite
    ensures eternal.eternal && eternal.timeToIdleSeconds == None && eternal.timeToLiveSeconds == None
    ensures idleThenEternal.eternal && idleThenEternal.timeToIdleSeconds == None
  {
    plain := BuildFresh(order, []);
    idle := BuildFresh(order, [SetTimeToIdle(Some(60_000))]);
    copying := BuildFresh(order, [SetCopyOnWrite(true)]);
    eternal := BuildFresh(order, [SetEternal(true)]);
    idleThenEternal := BuildFresh(order, [SetTimeToIdle(Some(99_000)), SetEternal(true)]);
    BuilderSeedsDeclaredDefaults(order, MaxElementsInMemory);
  }

  /** `builder()`, then the setter calls `calls` in turn, then `build()`. */
  method BuildFresh(order: seq<Name>, calls: seq<Call>) returns (s: Settings)
    requires IsMethodOrder(order)
    ensures s == Applied(Seeded(Unset, order, Declared), calls)
  {
    var builder := NewBuilder(order);
    for i := 0 to |calls|
      invariant builder.State() == Applied(Seeded(Unset, order, Declared), calls[..i])
    {
      builder.Perform(calls[i]);
      assert calls[..i + 1][..i] == calls[..i];
    }
    assert calls[..|calls|] == calls;
    s := builder.Build();
  }
}
