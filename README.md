# Cache settings of the Magnolia JSR-107 module, in Dafny

This project models `CacheSettings`, the settings record that the Magnolia
JSR-107 module hands to Ehcache when it configures a named cache, together
with its builder and the two static entry points that fill a builder from a
`DefaultCacheSettings` annotation:

- `builder()` seeds a new builder with the annotation's declared defaults;
- `of(defaults)` seeds a new builder with the values of one annotation,
  builds, and then nulls the timeouts (when eternal) and the disk fields
  (when not overflowing to disk) that still hold their declared default.

Two modules:

- `JavaInt` (`java_int.dfy`): Java's `int` and `long`, the narrowing cast
  `(int)`, `/` on `int` (rounding toward zero) and the duration setters'
  conversion `(int) millis / 1000`.
- `CacheSettings` (`cache_settings.dfy`): the annotation values
  (`DefaultCacheSettings`), the declared defaults (`Declared`), the record
  (`Settings`), the builder (`class Builder`, whose setters are specified by
  the function `Apply` over a `Call` datatype), the seeding loop `Invoke`,
  `SetToNullIfDefault`, `NewBuilder` (`builder()`) and `Of` (`of`), with the
  lemmas about them.

How the model stands in for the Java:

- One enumeration, `Name`, names both the annotation's methods and the
  record's fields: the two share their field set by construction.
- Reflection is replaced by explicit maps: `Attribute(d, n)` is
  `m.invoke(defaults)`, `Field(s, n)` is the getter, `CallFor(n, d)` is the
  same-named setter call that `invoke` makes, and `Builder.Perform` runs it.
  `Value` is what reflection sees: `null`, a boxed `boolean`/`int`, or a policy.
- The order of `getDeclaredMethods()` is unspecified, so it is a parameter
  `order`; `IsMethodOrder(order)` says that it lists each of the twelve
  methods once. `Invoke` and `Of` take any order, and the lemmas state what
  holds for every method order, naming the order wherever the result
  depends on it.
- Only `maxElementsInMemory`'s declared default (500) is known from the
  module's tests. The other declared defaults are constants with no value
  given, so every lemma holds whatever they are.
- A new builder's fields hold Java's defaults (`false`, `0`, `null`): the
  constant `Unset`. The policy field of the builder and of the record is
  nullable, as a Java reference field is.
- A duration is its millisecond count (`Option<Int64>`, `None` for `null`).

Behaviour of the code that the model keeps and that may be unexpected:

- `eternal(true)` nulls both timeouts at once, so
  `builder().timeToIdle(99 s).eternal(true).build()` has a null time to idle
  (`BuilderScenarios`). It does not keep 99.
- `invoke` goes through the hand-written `eternal` and `overflowToDisk`
  setters. Whether an explicit, non-default timeout survives `of` on an
  eternal annotation therefore depends on the method order: it survives
  when its setter runs after `eternal(true)` and is nulled when it runs
  before (`DerivedField`, `DerivedDependsOnMethodOrder`). The same holds
  for the disk fields with `overflowToDisk(false)`.
- The duration setters cast the millisecond count to `int` before they
  divide. Durations of 2^31 ms (about 24.8 days) or more wrap around, and
  negative durations round toward zero (`MillisToSecondsWrapsBeyond2To31`,
  `MillisToSecondsRoundsTowardZero`). This is not floor division of the
  full millisecond count.
- `builder()` runs only `invoke`, with no clearing pass. So
  `builder().build()` is the seeded builder's raw state.

## Model

| member | source | states |
|---|---|---|
| `JavaInt.ToInt` | src/main/java/nl/vpro/magnolia/jsr107/CacheSettings.java:71 | the `(int)` cast of a `long` is congruent to it modulo 2^32 and is the identity on values that fit an `int` |
| `JavaInt.Quot` | src/main/java/nl/vpro/magnolia/jsr107/CacheSettings.java:71 | `int` division by a positive divisor rounds toward zero: the quotient has the dividend's sign and leaves a remainder of absolute value below the divisor |
| `JavaInt.MillisToSeconds` | src/main/java/nl/vpro/magnolia/jsr107/CacheSettings.java:70-80 | `(int) millis / 1000` is the truncated quotient of the cast value; for 0 <= millis < 2^31 it is millis / 1000; it always lies within ±2,147,483 |
| `JavaInt.MillisToSecondsOfWholeSeconds` | src/test/java/nl/vpro/magnolia/jsr107/CacheSettingsTest.java:24-28 | a whole number of seconds below 2^31 ms converts back to itself (60 s gives 60) |
| `JavaInt.MillisToSecondsRoundsTowardZero` | src/main/java/nl/vpro/magnolia/jsr107/CacheSettings.java:71 | -1500 ms gives -1 s: a negative count rounds toward zero, not down |
| `JavaInt.MillisToSecondsWrapsBeyond2To31` | src/main/java/nl/vpro/magnolia/jsr107/CacheSettings.java:71 | 25 days (2,160,000,000 ms) gives -2,134,967 s, not 2,160,000, because the cast wraps before the division |
| `CacheSettings.Attribute` | src/main/java/nl/vpro/magnolia/jsr107/CacheSettings.java:123-128 | reading an annotation attribute never yields null |
| `CacheSettings.FromDefaults` | src/main/java/nl/vpro/magnolia/jsr107/CacheSettings.java:101-106 | the record that mirrors an annotation has, under every name, the annotation's value |
| `CacheSettings.Field` | src/main/java/nl/vpro/magnolia/jsr107/CacheSettings.java:136-184 | the getter of each named field, boxed; only the eviction policy and the four nullable timeout and disk fields can read null |
| `CacheSettings.FieldsDetermineSettings` | src/main/java/nl/vpro/magnolia/jsr107/CacheSettings.java:136-184 | two records whose twelve getters agree are equal |
| `CacheSettings.Apply` | src/main/java/nl/vpro/magnolia/jsr107/CacheSettings.java:66-99 | the effect of one setter call on the builder's fields; its properties are the four lemmas that follow |
| `CacheSettings.ApplySetsTarget` | src/main/java/nl/vpro/magnolia/jsr107/CacheSettings.java:66-99 | every setter stores its argument (a duration setter its converted seconds) in the field it is named for |
| `CacheSettings.ApplyChangesOnlyWrites` | src/test/java/nl/vpro/magnolia/jsr107/CacheSettingsTest.java:30-34 | a setter changes no field outside its write set: a plain setter changes only its own field; `eternal(true)` also the two timeouts; `overflowToDisk(false)` also the two disk fields |
| `CacheSettings.EternalClearsTimeouts` | src/main/java/nl/vpro/magnolia/jsr107/CacheSettings.java:82-89 | `eternal(v)` stores v; if v, both timeouts are null whatever they held; if not v, only the flag changes |
| `CacheSettings.OverflowToDiskClearsDiskFields` | src/main/java/nl/vpro/magnolia/jsr107/CacheSettings.java:91-98 | `overflowToDisk(v)` stores v; if not v, both disk fields are null; if v, only the flag changes |
| `CacheSettings.DurationSettersStoreSeconds` | src/main/java/nl/vpro/magnolia/jsr107/CacheSettings.java:70-80 | each duration setter stores null for a null duration and `(int) millis / 1000` otherwise, in its own field only; in range this is millis / 1000, so 60 s gives 60 |
| `CacheSettings.Builder.constructor` | src/main/java/nl/vpro/magnolia/jsr107/CacheSettings.java:67-69 | a new builder's fields hold Java's defaults (false, 0, null) |
| `CacheSettings.Builder.Build` | src/main/java/nl/vpro/magnolia/jsr107/CacheSettings.java:23 | `build()` returns the record of the builder's current fields and changes nothing |
| `CacheSettings.Builder.CopyOnRead` | src/main/java/nl/vpro/magnolia/jsr107/CacheSettings.java:136 | the generated setter: the new builder state is the old one with only `copyOnRead` replaced |
| `CacheSettings.Builder.CopyOnWrite` | src/main/java/nl/vpro/magnolia/jsr107/CacheSettings.java:137 | the generated setter: only `copyOnWrite` is replaced |
| `CacheSettings.Builder.MaxElementsInMemory` | src/main/java/nl/vpro/magnolia/jsr107/CacheSettings.java:145 | the generated setter: only `maxElementsInMemory` is replaced |
| `CacheSettings.Builder.MaxElementsOnDisk` | src/main/java/nl/vpro/magnolia/jsr107/CacheSettings.java:150 | the generated setter: only `maxElementsOnDisk` is replaced |
| `CacheSettings.Builder.MemoryStoreEvictionPolicy` | src/main/java/nl/vpro/magnolia/jsr107/CacheSettings.java:157 | the generated setter: only the eviction policy is replaced |
| `CacheSettings.Builder.TimeToIdleSeconds` | src/main/java/nl/vpro/magnolia/jsr107/CacheSettings.java:166 | the generated setter: only `timeToIdleSeconds` is replaced (null allowed) |
| `CacheSettings.Builder.TimeToLiveSeconds` | src/main/java/nl/vpro/magnolia/jsr107/CacheSettings.java:170 | the generated setter: only `timeToLiveSeconds` is replaced (null allowed) |
| `CacheSettings.Builder.DiskExpiryThreadIntervalSeconds` | src/main/java/nl/vpro/magnolia/jsr107/CacheSettings.java:174 | the generated setter: only `diskExpiryThreadIntervalSeconds` is replaced (null allowed) |
| `CacheSettings.Builder.DiskSpoolBufferSizeMB` | src/main/java/nl/vpro/magnolia/jsr107/CacheSettings.java:178 | the generated setter: only `diskSpoolBufferSizeMB` is replaced (null allowed) |
| `CacheSettings.Builder.BlockingTimeout` | src/main/java/nl/vpro/magnolia/jsr107/CacheSettings.java:184 | the generated setter: only `blockingTimeout` is replaced |
| `CacheSettings.Builder.TimeToIdle` | src/main/java/nl/vpro/magnolia/jsr107/CacheSettings.java:70-72 | stores `(int) millis / 1000`, or null for a null duration, in `timeToIdleSeconds`; nothing else changes |
| `CacheSettings.Builder.TimeToLive` | src/main/java/nl/vpro/magnolia/jsr107/CacheSettings.java:74-76 | the same for `timeToLiveSeconds` |
| `CacheSettings.Builder.DiskExpiryThreadInterval` | src/main/java/nl/vpro/magnolia/jsr107/CacheSettings.java:78-81 | the same for `diskExpiryThreadIntervalSeconds` |
| `CacheSettings.Builder.Eternal` | src/main/java/nl/vpro/magnolia/jsr107/CacheSettings.java:82-89 | `eternal` becomes v; if v, both timeouts become null; if not v, both keep their old values; no other field changes |
| `CacheSettings.Builder.OverflowToDisk` | src/main/java/nl/vpro/magnolia/jsr107/CacheSettings.java:91-98 | `overflowToDisk` becomes v; if not v, both disk fields become null; if v, both keep their old values; no other field changes |
| `CacheSettings.Builder.Perform` | src/main/java/nl/vpro/magnolia/jsr107/CacheSettings.java:129 | running a setter by name changes the builder exactly as that setter's specification says |
| `CacheSettings.CallFor` | src/main/java/nl/vpro/magnolia/jsr107/CacheSettings.java:108-129 | `invoke` calls, for each annotation method, the setter named for the same field, with that method's value |
| `CacheSettings.LastOf` | src/main/java/nl/vpro/magnolia/jsr107/CacheSettings.java:108 | tells which of two methods comes last in the method order: none exactly when neither is listed, and otherwise one of the two |
| `CacheSettings.LastOfIsLast` | src/main/java/nl/vpro/magnolia/jsr107/CacheSettings.java:108 | the method `LastOf` names occurs in the order, and neither of the two occurs after it |
| `CacheSettings.Seeded` | src/main/java/nl/vpro/magnolia/jsr107/CacheSettings.java:107-133 | the builder's fields after `invoke` has called the setters for a list of methods, one after another; its properties are the lemmas that follow |
| `CacheSettings.SeededPlainField` | src/main/java/nl/vpro/magnolia/jsr107/CacheSettings.java:107-133 | after `invoke` over any list of methods, a field that no flag clears holds the annotation's value if its method was listed, and its previous value if not |
| `CacheSettings.SeededNullableField` | src/main/java/nl/vpro/magnolia/jsr107/CacheSettings.java:107-133 | after `invoke` over any list of methods, a timeout or disk field is null if the annotation's flag clears it and the flag's setter ran after the field's own; otherwise it holds the annotation's value if listed, or its previous value |
| `CacheSettings.SeededInMethodOrder` | src/main/java/nl/vpro/magnolia/jsr107/CacheSettings.java:107-133 | after `invoke` in any method order, every field mirrors the annotation, except a timeout/disk field that the flag clears and whose setter ran before the flag's |
| `CacheSettings.Invoke` | src/main/java/nl/vpro/magnolia/jsr107/CacheSettings.java:107-134 | the loop leaves the builder in the state of the setter calls for `order`, applied one after another, with the annotation's values or, for a null annotation, the declared defaults |
| `CacheSettings.NewBuilder` | src/main/java/nl/vpro/magnolia/jsr107/CacheSettings.java:60-64 | `builder()` returns a new builder seeded with the declared defaults, with 500 elements in memory |
| `CacheSettings.BuilderSeedsDeclaredDefaults` | src/test/java/nl/vpro/magnolia/jsr107/CacheSettingsTest.java:19-22 | in any method order, a builder from `builder()` holds every declared default in each field that no flag clears, and 500 elements in memory |
| `CacheSettings.ClearIfDefault` | src/main/java/nl/vpro/magnolia/jsr107/CacheSettings.java:46-58 | the effect of `setToNullIfDefault` on the builder: the nuller's effect when the attribute holds its declared default, and no change otherwise |
| `CacheSettings.SetToNullIfDefault` | src/main/java/nl/vpro/magnolia/jsr107/CacheSettings.java:46-58 | returns true exactly when the annotation's value of the named attribute equals its declared default; then the nuller has run; otherwise the builder is unchanged |
| `CacheSettings.Normalised` | src/main/java/nl/vpro/magnolia/jsr107/CacheSettings.java:31-43 | the clearing pass of `of` on the built record; `NormalisedField` states its effect field by field |
| `CacheSettings.NormalisedField` | src/main/java/nl/vpro/magnolia/jsr107/CacheSettings.java:31-43 | the clearing pass nulls exactly those timeouts (under eternal) and disk fields (without overflow to disk) whose annotation value is the declared default, and leaves every other field as built |
| `CacheSettings.Of` | src/main/java/nl/vpro/magnolia/jsr107/CacheSettings.java:27-44 | `of` returns the clearing pass applied to the seeded build; the rebuild-only-on-change shortcut gives the same record |
| `CacheSettings.Derived` | src/main/java/nl/vpro/magnolia/jsr107/CacheSettings.java:27-44 | the record `of` returns for a method order: the clearing pass applied to the seeded build; `DerivedField` states it field by field |
| `CacheSettings.DerivedField` | src/main/java/nl/vpro/magnolia/jsr107/CacheSettings.java:27-44 | for every method order, each field of `of(d)` is d's value, except that a timeout (if d is eternal) or a disk field (if d does not overflow) is null exactly when d leaves it at its declared default or the flag's setter ran after its own |
| `CacheSettings.DerivedNullsDefaultedFields` | src/main/java/nl/vpro/magnolia/jsr107/CacheSettings.java:31-43 | for every method order: `of(d)` has d's flags; if d is eternal, each timeout equal to its declared default is null; if d does not overflow to disk, each disk field equal to its declared default is null |
| `CacheSettings.DerivedMirrorsDefaults` | src/main/java/nl/vpro/magnolia/jsr107/CacheSettings.java:27-30 | if d is not eternal and overflows to disk, `of(d)` equals the record that mirrors d, for every method order |
| `CacheSettings.DerivedDependsOnMethodOrder` | src/main/java/nl/vpro/magnolia/jsr107/CacheSettings.java:32-34 | for an eternal annotation with a non-default time to idle, two valid method orders give different results: the value survives when its setter follows `eternal`, and is null when its setter precedes it |
| `CacheSettings.BuilderScenarios` | src/test/java/nl/vpro/magnolia/jsr107/CacheSettingsTest.java:16-52 | `builder().build()` has 500 elements in memory; `timeToIdle(60 s)` gives 60; `copyOnWrite(true)` and `eternal(true)` show in `build()`; `eternal(true)` nulls both timeouts, even right after `timeToIdle(99 s)` |

## Left out

- `CacheConfigurer.java` (the dependency-injection module that binds the JSR-107 interceptors, and its lifecycle hook that only logs) is not part of this model: it is wiring with no logic of its own.
- Reflection and its failures. The lookups in `getMethod`, `getDefaultValue` and `invoke`, the primitive-to-wrapper fallback and the wrapping into `RuntimeException` are replaced by the explicit maps `Attribute`, `CallFor` and `Builder.Perform`. The schema-mismatch failure therefore cannot occur in the model.
- The source of `DefaultCacheSettings` is not part of this model. Its attribute types are taken from the settings fields: `boolean`, `int` and the policy. Its declared defaults are unknown constants, except `maxElementsInMemory = 500`.
- `of(null)`: `Of` takes an annotation value and cannot receive null. In Java, `of(null)` seeds with the declared defaults. It then fails with a `NullPointerException` in `setToNullIfDefault` whenever the clearing pass runs.
- Fluent chaining: the setters return nothing instead of the builder itself. A chain is written as successive calls on one builder.
- `java.time.Duration` is reduced to its millisecond count as a `long`. `Duration.toMillis()` throwing on durations beyond the `long` range is not modelled.
- Lombok and SLF4J: the generated builder fields, setters, getters and `build()` are written out. Lombok's `toString` and the logger are left out.
- Eviction-policy semantics and Ehcache itself: the policy is passed through as data.
- Idempotence of `of`: Dafny methods are deterministic, and `Of` is tied to the function `Derived`. Two derivations from the same annotation in the same method order are therefore equal. No separate member states this.
