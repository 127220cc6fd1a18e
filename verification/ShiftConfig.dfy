/** Normalising the shift settings of a factory or machine, and the calendar they describe. */
module ShiftConfig {
  import opened Common
  import opened Text
  import opened Calendar

  // ---- times ----

  predicate IsDigit(c: char) {
    '0' <= c <= '9'
  }

  function Digit(c: char): nat
    requires IsDigit(c)
  {
    c as int - '0' as int
  }

  /** A number of one or two digits below `limit`, as `strptime` reads an hour or a minute. */
  function ParseField(s: string, limit: nat): (r: Option<nat>)
    ensures r.Some? ==> r.value < limit
  {
    if |s| == 1 && IsDigit(s[0]) && Digit(s[0]) < limit then Some(Digit(s[0]))
    else if |s| == 2 && IsDigit(s[0]) && IsDigit(s[1]) && 10 * Digit(s[0]) + Digit(s[1]) < limit
    then Some(10 * Digit(s[0]) + Digit(s[1]))
    else None
  }

  function ColonAt(s: string): (i: nat)
    ensures i <= |s| && (i < |s| ==> s[i] == ':')
  {
    if s == [] || s[0] == ':' then 0 else 1 + ColonAt(s[1..])
  }

  /** `%H:%M`: minutes after midnight. */
  function ParseTime(s: string): (r: Option<nat>)
    ensures r.Some? ==> r.value < MINUTES_PER_DAY
  {
    var i := ColonAt(s);
    if i == |s| then None
    else
      var h, m := ParseField(s[..i], 24), ParseField(s[i + 1..], 60);
      if h.None? || m.None? then None else Some(60 * h.value + m.value)
  }

  lemma TimesHaveNoOuterSpace(s: string)
    requires ParseTime(s).Some?
    ensures s != [] && Strip(s) == s
  {
    var i := ColonAt(s);
    assert s[0] == s[..i][0];
    assert s[|s| - 1] == s[i + 1..][|s| - i - 2];
  }

  // ---- the settings as stored ----

  /** A stored value: `Other` is any remaining JSON value with its truth value and its text. */
  datatype Raw = Null | Bool(b: bool) | Str(s: string) | Other(truthy: bool, text: string) {
    predicate Truthy() {
      match this
      case Null => false
      case Bool(b) => b
      case Str(s) => s != ""
      case Other(truthy, _) => truthy
    }

    function AsText(): string {
      match this
      case Null => "None"
      case Bool(b) => if b then "True" else "False"
      case Str(s) => s
      case Other(_, text) => text
    }
  }

  datatype RawEntry = NullEntry | NotADict | Dict(fields: map<string, Raw>) {
    function Get(name: string): Raw {
      if Dict? && name in fields then fields[name] else Null
    }

    predicate Has(name: string) {
      Dict? && name in fields
    }
  }

  datatype RawConfig = NoConfig | Config(entries: map<string, RawEntry>) {
    function Get(name: string): RawEntry {
      if Config? && name in entries then entries[name] else NullEntry
    }
  }

  datatype ShiftKey = Morning | Afternoon | Night

  const KEYS := [Morning, Afternoon, Night]

  function KeyName(k: ShiftKey): string {
    match k
    case Morning => "morning"
    case Afternoon => "afternoon"
    case Night => "night"
  }

  datatype Entry = Entry(start: string, end: string, enabled: bool) {
    predicate Valid() {
      ParseTime(start).Some? && ParseTime(end).Some?
    }
  }

  function DefaultEntry(k: ShiftKey): Entry {
    match k
    case Morning => Entry("06:00", "14:00", true)
    case Afternoon => Entry("14:00", "22:00", true)
    case Night => Entry("22:00", "06:00", true)
  }

  type Settings = map<ShiftKey, Entry>

  ghost predicate ValidSettings(c: Settings) {
    c.Keys == {Morning, Afternoon, Night} && forall k :: k in c ==> c[k].Valid()
  }

  // ---- normalisation ----

  function ParseBool(value: Raw, default: bool): bool {
    if value.Bool? then value.b
    else if value.Null? then default
    else
      var text := Lower(Strip(value.AsText()));
      if text in {"1", "true", "yes", "on"} then true
      else if text in {"0", "false", "no", "off"} then false
      else default
  }

  /** The stored time if it is one, else the fallback. */
  function CoerceShiftTime(value: Raw, fallback: string): (r: string)
    ensures ParseTime(fallback).Some? ==> ParseTime(r).Some?
    ensures value.Str? && ParseTime(value.s).Some? ==> r == value.s
  {
    assert value.Str? && ParseTime(value.s).Some? ==> value.s != "" && Strip(value.s) == value.s by {
      if value.Str? && ParseTime(value.s).Some? {
        TimesHaveNoOuterSpace(value.s);
      }
    }
    var stripped := Strip(if value.Truthy() then value.AsText() else fallback);
    var candidate := if stripped == "" then fallback else stripped;
    if ParseTime(candidate).Some? then candidate else fallback
  }

  function NormalizeShiftMode(value: string): string {
    var raw := Lower(Strip(value));
    if raw in {"1", "one", "one_shift", "single", "single_shift"} then "1"
    else if raw in {"2", "two", "two_shifts", "2_shift"} then "2"
    else "3"
  }

  predicate EnabledInMode(k: ShiftKey, mode: string) {
    var m := NormalizeShiftMode(mode);
    k == Morning || (k == Afternoon && m != "1") || (k == Night && m == "3")
  }

  /** The stored entry of a shift; the afternoon shift may still carry its old name. */
  function StoredEntry(raw: RawConfig, k: ShiftKey): RawEntry {
    var e := raw.Get(KeyName(k));
    if e.NullEntry? && k == Afternoon then raw.Get("evening") else e
  }

  /**
   * A shift from what is stored for it; `whenAbsent` decides if no enabled flag is stored, an unreadable flag counts as
   * on.
   */
  function EntryFrom(stored: RawEntry, fallback: Entry, whenAbsent: bool): (e: Entry)
    ensures fallback.Valid() ==> e.Valid()
  {
    Entry(CoerceShiftTime(stored.Get("start"), fallback.start),
          CoerceShiftTime(stored.Get("end"), fallback.end),
          ParseBool(stored.Get("enabled"), if stored.Has("enabled") then true else whenAbsent))
  }

  function Fallback(base: Option<Settings>, k: ShiftKey): Entry {
    if base.Some? && k in base.value then base.value[k] else DefaultEntry(k)
  }

  function EnabledWhenAbsent(defaultEnabled: bool, mode: Option<string>, k: ShiftKey): bool {
    if mode.Some? then EnabledInMode(k, mode.value) else defaultEnabled
  }

  function NormalEntry(raw: RawConfig, base: Option<Settings>, defaultEnabled: bool, mode: Option<string>,
                       k: ShiftKey): Entry {
    EntryFrom(StoredEntry(raw, k), Fallback(base, k), EnabledWhenAbsent(defaultEnabled, mode, k))
  }

  function Normalized(raw: RawConfig, base: Option<Settings>, defaultEnabled: bool, mode: Option<string>): Settings {
    map k | k in {Morning, Afternoon, Night} :: NormalEntry(raw, base, defaultEnabled, mode, k)
  }

  lemma SameEntries(c: Settings, d: Settings)
    requires c.Keys == d.Keys && forall k :: k in c ==> c[k] == d[k]
    ensures c == d
  {
  }

  lemma NormalizedEntries(raw: RawConfig, base: Option<Settings>, defaultEnabled: bool, mode: Option<string>)
    ensures Normalized(raw, base, defaultEnabled, mode).Keys == {Morning, Afternoon, Night}
    ensures forall k :: k in Normalized(raw, base, defaultEnabled, mode) ==>
      Normalized(raw, base, defaultEnabled, mode)[k] == NormalEntry(raw, base, defaultEnabled, mode, k)
  {
  }

  method NormalizeShiftConfiguration(raw: RawConfig, base: Option<Settings>, defaultEnabled: bool, mode: Option<string>)
      returns (c: Settings)
    ensures c == Normalized(raw, base, defaultEnabled, mode)
  {
    c := map[];
    for i := 0 to 3
      invariant c.Keys == if i == 0 then {} else if i == 1 then {Morning} else if i == 2 then {Morning, Afternoon}
        else {Morning, Afternoon, Night}
      invariant AreNormal(raw, base, defaultEnabled, mode, c)
    {
      var k := KEYS[i];
      OneMoreNormal(raw, base, defaultEnabled, mode, c, k);
      c := c[k := NormalEntry(raw, base, defaultEnabled, mode, k)];
    }
    ThreeEntriesAreNormalized(raw, base, defaultEnabled, mode, c);
  }

  /** Every entry there is, is the normal one. */
  ghost predicate AreNormal(raw: RawConfig, base: Option<Settings>, defaultEnabled: bool, mode: Option<string>,
                            c: Settings) {
    forall k :: k in c ==> c[k] == NormalEntry(raw, base, defaultEnabled, mode, k)
  }

  lemma OneMoreNormal(raw: RawConfig, base: Option<Settings>, defaultEnabled: bool, mode: Option<string>, c: Settings,
                      k: ShiftKey)
    ensures AreNormal(raw, base, defaultEnabled, mode, c) ==>
      AreNormal(raw, base, defaultEnabled, mode, c[k := NormalEntry(raw, base, defaultEnabled, mode, k)])
  {
  }

  lemma ThreeEntriesAreNormalized(raw: RawConfig, base: Option<Settings>, defaultEnabled: bool, mode: Option<string>,
                                  c: Settings)
    requires c.Keys == {Morning, Afternoon, Night}
    ensures AreNormal(raw, base, defaultEnabled, mode, c) ==> c == Normalized(raw, base, defaultEnabled, mode)
  {
    if AreNormal(raw, base, defaultEnabled, mode, c) {
      NormalizedEntries(raw, base, defaultEnabled, mode);
      SameEntries(c, Normalized(raw, base, defaultEnabled, mode));
    }
  }

  /** Two digits, a colon, two digits. */
  lemma TwoDigitTime(s: string)
    requires |s| == 5 && s[2] == ':' && IsDigit(s[0]) && IsDigit(s[1]) && IsDigit(s[3]) && IsDigit(s[4])
    requires 10 * Digit(s[0]) + Digit(s[1]) < 24 && 10 * Digit(s[3]) + Digit(s[4]) < 60
    ensures ParseTime(s) == Some(60 * (10 * Digit(s[0]) + Digit(s[1])) + 10 * Digit(s[3]) + Digit(s[4]))
  {
    var rest := s[1..];
    assert s[1..][1..] == s[2..] && ColonAt(s[2..]) == 0;
    assert ColonAt(s[1..]) == 1 && ColonAt(s) == 2;
  }

  lemma DefaultsAreValid(k: ShiftKey)
    ensures DefaultEntry(k).Valid()
  {
    var e := DefaultEntry(k);
    TwoDigitTime(e.start);
    TwoDigitTime(e.end);
  }

  lemma NormalEntryIsValid(raw: RawConfig, base: Option<Settings>, defaultEnabled: bool, mode: Option<string>,
                           k: ShiftKey)
    requires base.Some? ==> ValidSettings(base.value)
    ensures NormalEntry(raw, base, defaultEnabled, mode, k).Valid()
  {
    DefaultsAreValid(k);
  }

  /** Whatever was stored, both times of every shift can be read, provided those of the base settings can. */
  lemma NormalizedIsValid(raw: RawConfig, base: Option<Settings>, defaultEnabled: bool, mode: Option<string>)
    requires base.Some? ==> ValidSettings(base.value)
    ensures ValidSettings(Normalized(raw, base, defaultEnabled, mode))
  {
    var c := Normalized(raw, base, defaultEnabled, mode);
    NormalizedEntries(raw, base, defaultEnabled, mode);
    forall k | k in c
      ensures c[k].Valid()
    {
      NormalEntryIsValid(raw, base, defaultEnabled, mode, k);
    }
  }

  /** Normalised settings, stored again. */
  function StoredAgain(c: Settings): RawConfig
    requires c.Keys == {Morning, Afternoon, Night}
  {
    Config(map["morning" := StoredShift(c[Morning]), "afternoon" := StoredShift(c[Afternoon]),
               "night" := StoredShift(c[Night])])
  }

  function StoredShift(e: Entry): RawEntry {
    Dict(map["start" := Str(e.start), "end" := Str(e.end), "enabled" := Bool(e.enabled)])
  }

  lemma StoredEntryAgain(c: Settings, k: ShiftKey)
    requires c.Keys == {Morning, Afternoon, Night}
    ensures StoredEntry(StoredAgain(c), k) == StoredShift(c[k])
  {
  }

  lemma EntryFromTwice(e: Entry, fallback: Entry, whenAbsent: bool)
    requires e.Valid()
    ensures EntryFrom(StoredShift(e), fallback, whenAbsent) == e
  {
    StoredFields(e);
  }

  lemma StoredFields(e: Entry)
    ensures var s := StoredShift(e);
      s.Get("start") == Str(e.start) && s.Get("end") == Str(e.end) && s.Has("enabled")
        && s.Get("enabled") == Bool(e.enabled)
  {
  }

  lemma NormalEntryTwice(c: Settings, base: Option<Settings>, defaultEnabled: bool, mode: Option<string>, k: ShiftKey)
    requires ValidSettings(c)
    ensures NormalEntry(StoredAgain(c), base, defaultEnabled, mode, k) == c[k]
  {
    StoredEntryAgain(c, k);
    EntryFromTwice(c[k], Fallback(base, k), EnabledWhenAbsent(defaultEnabled, mode, k));
  }

  /** Normalising twice is normalising once, also when the second time uses other defaults or another mode. */
  lemma NormalizingTwice(c: Settings, base: Option<Settings>, defaultEnabled: bool, mode: Option<string>)
    requires ValidSettings(c)
    ensures Normalized(StoredAgain(c), base, defaultEnabled, mode) == c
  {
    var raw := StoredAgain(c);
    var d := Normalized(raw, base, defaultEnabled, mode);
    NormalizedEntries(raw, base, defaultEnabled, mode);
    forall k | k in d
      ensures d[k] == c[k]
    {
      NormalEntryTwice(c, base, defaultEnabled, mode, k);
    }
    SameEntries(d, c);
  }

  // ---- factory and machine ----

  datatype FactorySettings = FactorySettings(mode: string, config: RawConfig)
  datatype MachineSettings = MachineSettings(useFactoryShifts: Raw, config: RawConfig)

  function FactoryShifts(f: Option<FactorySettings>): Settings {
    if f.Some? then Normalized(f.value.config, None, true, Some(f.value.mode))
    else Normalized(NoConfig, None, true, Some("3"))
  }

  function MachineShifts(m: Option<MachineSettings>, f: Option<FactorySettings>): Settings {
    if m.None? || ParseBool(m.value.useFactoryShifts, true) then FactoryShifts(f)
    else Normalized(m.value.config, Some(FactoryShifts(f)), false, None)
  }

  lemma FactoryShiftsAreValid(f: Option<FactorySettings>, c: Settings)
    requires c == FactoryShifts(f)
    ensures ValidSettings(c)
  {
    var config, mode := if f.Some? then f.value.config else NoConfig, if f.Some? then Some(f.value.mode) else Some("3");
    NormalizedIsValid(config, None, true, mode);
  }

  lemma MachineShiftsAreValid(m: Option<MachineSettings>, f: Option<FactorySettings>)
    ensures ValidSettings(FactoryShifts(f)) && ValidSettings(MachineShifts(m, f))
  {
    FactoryShiftsAreValid(f, FactoryShifts(f));
    if m.Some? {
      OwnShiftsAreValid(m.value, f, FactoryShifts(f), MachineShifts(m, f));
    }
  }

  lemma OwnShiftsAreValid(m: MachineSettings, f: Option<FactorySettings>, base: Settings, c: Settings)
    requires ValidSettings(base) && base == FactoryShifts(f) && c == MachineShifts(Some(m), f)
    ensures ValidSettings(c)
  {
    if !ParseBool(m.useFactoryShifts, true) {
      NormalizedIsValid(m.config, Some(base), false, None);
    }
  }

  function ShiftOf(e: Entry): (s: Shift)
    requires e.Valid()
    ensures s.Valid()
  {
    Shift(ParseTime(e.start).value, ParseTime(e.end).value, e.enabled)
  }

  /** The calendar the scheduler reads off normalised settings. */
  function CalendarFrom(c: Settings): (r: MachineCalendar)
    requires ValidSettings(c)
    ensures r.Valid()
  {
    MachineCalendar(ShiftOf(c[Morning]), ShiftOf(c[Afternoon]), ShiftOf(c[Night]))
  }
}
