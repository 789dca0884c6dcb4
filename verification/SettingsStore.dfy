/**
 The settings store: reading and writing the file, and the operations on it. Every sequence of
 operations on the file does what the same operations do on settings held in memory.
 */
module SettingsStore {
  import opened Bytes
  import opened Wrappers
  import opened Text
  import opened SortedList
  import opened Settings
  import opened SettingsRoundTrip

  // ---------------------------------------------------------------------------------------------
  // Writing
  // ---------------------------------------------------------------------------------------------

  method HexLower(bytes: seq<byte>) returns (out: string)
    ensures out == Hex(bytes)
  {
    out := "";
    for i := 0 to |bytes|
      invariant out == Hex(bytes[..i])
    {
      assert bytes[..i + 1][..i] == bytes[..i];
      out := out + [HexDigit(bytes[i] / 16), HexDigit(bytes[i] % 16)];
    }
    assert bytes[..|bytes|] == bytes;
  }

  method DecodeHexText(text: string) returns (r: Option<seq<byte>>)
    ensures r == DecodeHex(text)
  {
    var hex := Trim(text);
    if |hex| % 2 != 0 || |hex| > MAX_HEX {
      return None;
    }
    var bytes := [];
    for n := 0 to |hex| / 2
      invariant FromHex(hex[..2 * n]) == Some(bytes)
    {
      var pair := hex[..2 * (n + 1)];
      assert pair[..|pair| - 2] == hex[..2 * n];
      var high, low := HexNibble(hex[2 * n]), HexNibble(hex[2 * n + 1]);
      if high.None? || low.None? {
        FromHexFails(hex, 2 * (n + 1));
        return None;
      }
      bytes := bytes + [16 * high.value + low.value];
    }
    assert hex[..|hex|] == hex;
    return Some(bytes);
  }

  /** A bad prefix makes the whole text bad. */
  lemma {:induction false} FromHexFails(s: string, n: nat)
    requires |s| % 2 == 0 && n % 2 == 0 && n <= |s| && FromHex(s[..n]).None?
    ensures FromHex(s).None?
  {
    if n < |s| {
      assert s[..|s| - 2][..n] == s[..n];
      FromHexFails(s[..|s| - 2], n);
    } else {
      assert s[..n] == s;
    }
  }

  /** The line of one field, if it has a text. */
  function FieldLine(s: HostSettings, section: Section, f: Field): string {
    if Want(s, section, f).Some? then EntryText(Entry(KeyText(section, f), Want(s, section, f).value)) else ""
  }

  lemma FieldRendered(output: string, s: HostSettings, section: Section, fields: seq<Field>, i: nat)
    requires i < |fields|
    ensures output + Render(SectionEntries(s, section, fields[..i + 1]))
            == (output + Render(SectionEntries(s, section, fields[..i]))) + FieldLine(s, section, fields[i])
  {
    var before, f := SectionEntries(s, section, fields[..i]), fields[i];
    assert fields[..i + 1][..i] == fields[..i];
    if Want(s, section, f).Some? {
      RenderNext(before, Entry(KeyText(section, f), Want(s, section, f).value));
    } else {
      assert before + [] == before;
      assert Render(before) + "" == Render(before);
    }
    Append(output, Render(before), FieldLine(s, section, f));
  }

  method WriteField(output: string, s: HostSettings, section: Section, f: Field) returns (out: string)
    ensures out == output + FieldLine(s, section, f)
  {
    out := output;
    if Want(s, section, f).Some? {
      out := out + EntryText(Entry(KeyText(section, f), Want(s, section, f).value));
    }
  }

  /** Writes the lines of a section, in the order of its fields. */
  method WriteSection(output: string, s: HostSettings, section: Section) returns (out: string)
    ensures out == output + Render(SectionEntries(s, section, FieldsOf(section)))
  {
    out := output;
    var fields := FieldsOf(section);
    for i := 0 to |fields|
      invariant out == output + Render(SectionEntries(s, section, fields[..i]))
    {
      FieldRendered(output, s, section, fields, i);
      out := WriteField(out, s, section, fields[i]);
    }
    assert fields[..|fields|] == fields;
  }

  lemma RenderNext(entries: seq<Entry>, e: Entry)
    ensures Render(entries + [e]) == Render(entries) + EntryText(e)
  {
    assert (entries + [e])[..|entries|] == entries;
  }

  lemma {:induction false} RenderAppend(first: seq<Entry>, second: seq<Entry>)
    ensures Render(first + second) == Render(first) + Render(second)
  {
    if second == [] {
      assert first + second == first;
    } else {
      var prefix, last := second[..|second| - 1], second[|second| - 1];
      RenderAppend(first, prefix);
      assert (first + second)[..|first + second| - 1] == first + prefix;
      Append(Render(first), Render(prefix), EntryText(last));
    }
  }

  lemma SectionRendered(header: string, s: HostSettings, sections: seq<Section>, i: nat)
    requires i < |sections|
    ensures header + Render(EntriesOf(s, sections[..i + 1]))
            == (header + Render(EntriesOf(s, sections[..i]))) + Render(SectionEntries(s, sections[i], FieldsOf(sections[i])))
  {
    var before, section := EntriesOf(s, sections[..i]), SectionEntries(s, sections[i], FieldsOf(sections[i]));
    assert sections[..i + 1][..i] == sections[..i];
    RenderAppend(before, section);
    Append(header, Render(before), Render(section));
  }

  /** The override if there is one, then the presets, then the devices. */
  method SerializeSettings(s: HostSettings) returns (out: string)
    ensures out == Serialize(s)
  {
    var header := HEADER + "\n";
    out := header;
    var sections := Sections(s);
    for i := 0 to |sections|
      invariant out == header + Render(EntriesOf(s, sections[..i]))
    {
      SectionRendered(header, s, sections, i);
      out := WriteSection(out, s, sections[i]);
    }
    assert sections[..|sections|] == sections;
    Append(HEADER, "\n", Render(Entries(s)));
  }

  // ---------------------------------------------------------------------------------------------
  // Reading
  // ---------------------------------------------------------------------------------------------

  method ReadLines(raw: string) returns (r: Outcome<Values>)
    ensures r == ParseLines(Lines(raw))
  {
    var lines, values := Lines(raw), map[];
    for i := 0 to |lines|
      invariant ParseLines(lines[..i]) == Done(values)
    {
      assert lines[..i + 1][..i] == lines[..i];
      var next := ParseLine(values, lines[i]);
      if !next.Done? {
        LinesFail(lines, i + 1);
        return Refused;
      }
      values := next.value;
    }
    assert lines[..|lines|] == lines;
    return Done(values);
  }

  lemma {:induction false} LinesFail(lines: seq<string>, n: nat)
    requires n <= |lines| && ParseLines(lines[..n]).Refused?
    ensures ParseLines(lines) == Refused
  {
    if n < |lines| {
      assert lines[..|lines| - 1][..n] == lines[..n];
      LinesFail(lines[..|lines| - 1], n);
    } else {
      assert lines[..n] == lines;
    }
  }

  /** Sorts the values under a prefix into groups, taking keys in the order the hash map lists them. */
  method GroupFields(values: Values, order: seq<string>, prefix: string) returns (r: Outcome<Grouped>)
    ensures r == GroupsOf(values, order, prefix)
  {
    var groups := map[];
    for i := 0 to |order|
      invariant GroupsOf(values, order[..i], prefix) == Done(groups)
    {
      assert order[..i + 1][..i] == order[..i];
      var next := GroupOne(groups, values, order[i], prefix);
      if !next.Done? {
        GroupsFail(values, order, prefix, i + 1);
        return Refused;
      }
      groups := next.value;
    }
    assert order[..|order|] == order;
    return Done(groups);
  }

  lemma {:induction false} GroupsFail(values: Values, order: seq<string>, prefix: string, n: nat)
    requires n <= |order| && GroupsOf(values, order[..n], prefix).Refused?
    ensures GroupsOf(values, order, prefix) == Refused
  {
    if n < |order| {
      assert order[..|order| - 1][..n] == order[..n];
      GroupsFail(values, order[..|order| - 1], prefix, n);
    } else {
      assert order[..n] == order;
    }
  }

  /** Upserts parsed items one after the other until one fails. */
  method CollectItems<T>(parsed: seq<Outcome<T>>, id: T -> string, key: T -> string) returns (r: Outcome<seq<T>>)
    ensures r == Collected(parsed, id, key)
  {
    var items := [];
    for i := 0 to |parsed|
      invariant Collected(parsed[..i], id, key) == Done(items)
    {
      assert parsed[..i + 1][..i] == parsed[..i];
      if !parsed[i].Done? {
        CollectFails(parsed, id, key, i + 1);
        return parsed[i].PropagateFailure();
      }
      items := UpsertInto(items, parsed[i].value, id, key);
    }
    assert parsed[..|parsed|] == parsed;
    return Done(items);
  }

  lemma {:induction false} CollectFails<T>(parsed: seq<Outcome<T>>, id: T -> string, key: T -> string, n: nat)
    requires n <= |parsed| && !Collected(parsed[..n], id, key).Done?
    ensures Collected(parsed, id, key) == Collected(parsed[..n], id, key)
  {
    if n < |parsed| {
      assert parsed[..|parsed| - 1][..n] == parsed[..n];
      CollectFails(parsed[..|parsed| - 1], id, key, n);
    } else {
      assert parsed[..n] == parsed;
    }
  }

  method ParseSettings(raw: string, order: seq<string>, lower: Lower) returns (r: Outcome<HostSettings>)
    ensures r == Parse(raw, order, lower)
  {
    var values :- ReadLines(raw);
    var encoderOverride :- ParseOverride(values);
    var presetGroups :- GroupFields(values, order, PRESET_PREFIX);
    var presets :- CollectItems(ParsedPresets(presetGroups, Ascending(presetGroups.Keys)), NameKey, ByName(lower));
    var deviceGroups :- GroupFields(values, order, DEVICE_PREFIX);
    var devices :- CollectItems(ParsedDevices(deviceGroups, Ascending(deviceGroups.Keys)), IdKey, ByLabel(lower));
    return Done(HostSettings(encoderOverride, presets, devices));
  }

  // ---------------------------------------------------------------------------------------------
  // Operations
  // ---------------------------------------------------------------------------------------------

  datatype StoreOp =
    | SaveOverride(config: EncoderConfig)
    | ClearOverride
    | SavePreset(name: string, config: EncoderConfig)
    | DeletePreset(name: string)
    | UpsertDevice(device: TrustedDevice)
    | ForgetDevice(id: string)
    | ClearDevices

  /** What an operation does to settings in memory. */
  function Applied(s: HostSettings, op: StoreOp, lower: Lower): Outcome<HostSettings> {
    match op
    case SaveOverride(config) => Done(s.(encoderOverride := Some(config)))
    case ClearOverride => Done(s.(encoderOverride := None))
    case SavePreset(name, config) =>
      var normal :- Need(NormalizeName(name, MAX_PRESET_NAME));
      Done(s.(presets := Upsert(s.presets, EncoderPreset(normal, config), NameKey, ByName(lower))))
    case DeletePreset(name) =>
      var normal :- Need(NormalizeName(name, MAX_PRESET_NAME));
      Done(s.(presets := Without(s.presets, NameKey, AsciiLower(normal))))
    case UpsertDevice(device) => Done(s.(devices := Upsert(s.devices, device, IdKey, ByLabel(lower))))
    case ForgetDevice(id) =>
      var normal :- Need(NormalizeName(id, MAX_DEVICE_ID));
      Done(s.(devices := Without(s.devices, IdKey, AsciiLower(normal))))
    case ClearDevices => Done(s.(devices := []))
  }

  type File = Option<string>

  function Loaded(file: File, order: seq<string>, lower: Lower): Outcome<HostSettings> {
    match file
    case None => Done(DEFAULT_SETTINGS)
    case Some(raw) => Parse(raw, order, lower)
  }

  /** What a call returns: the failure to load, or to change, or the changed settings. */
  function Performed(file: File, op: StoreOp, order: seq<string>, lower: Lower): Outcome<HostSettings> {
    var s :- Loaded(file, order, lower);
    Applied(s, op, lower)
  }

  /** What an operation does to the file: load, change, save; a failure leaves the file alone. */
  function FileAfter(file: File, op: StoreOp, order: seq<string>, lower: Lower): File {
    var performed := Performed(file, op, order, lower);
    if performed.Done? then Some(Serialize(performed.value)) else file
  }

  function Looked(file: File, name: string, order: seq<string>, lower: Lower): Outcome<Option<EncoderConfig>> {
    var s :- Loaded(file, order, lower);
    PresetNamed(s, name)
  }

  /** The configuration of the preset of that name, up to case. */
  function PresetNamed(s: HostSettings, name: string): Outcome<Option<EncoderConfig>> {
    var normal :- Need(NormalizeName(name, MAX_PRESET_NAME));
    Done(ConfigFor(s.presets, AsciiLower(normal)))
  }

  function ConfigFor(presets: seq<EncoderPreset>, wanted: string): Option<EncoderConfig> {
    var i := IndexOf(presets, NameKey, wanted);
    if i < |presets| then Some(presets[i].config) else None
  }

  method FindPreset(presets: seq<EncoderPreset>, wanted: string) returns (r: Outcome<Option<EncoderConfig>>)
    ensures r == Done(ConfigFor(presets, wanted))
  {
    for i := 0 to |presets|
      invariant forall k :: 0 <= k < i ==> NameKey(presets[k]) != wanted
    {
      if NameKey(presets[i]) == wanted {
        return Done(Some(presets[i].config));
      }
    }
    return Done(None);
  }

  class HostSettingsStore {
    var file: File
    const lower: Lower

    constructor (lower: Lower)
      ensures file == None && this.lower == lower
    {
      this.file := None;
      this.lower := lower;
    }

    method Load(order: seq<string>) returns (r: Outcome<HostSettings>)
      ensures r == Loaded(file, order, lower)
    {
      if file.None? {
        return Done(DEFAULT_SETTINGS);
      }
      r := ParseSettings(file.value, order, lower);
    }

    method Save(s: HostSettings)
      modifies this`file
      ensures file == Some(Serialize(s))
    {
      var text := SerializeSettings(s);
      file := Some(text);
    }

    method SaveEncoderOverride(config: EncoderConfig, order: seq<string>) returns (r: Outcome<HostSettings>)
      modifies this`file
      ensures file == FileAfter(old(file), SaveOverride(config), order, lower)
      ensures r == Performed(old(file), SaveOverride(config), order, lower)
    {
      var s :- Load(order);
      s := s.(encoderOverride := Some(config));
      Save(s);
      return Done(s);
    }

    method ClearEncoderOverride(order: seq<string>) returns (r: Outcome<HostSettings>)
      modifies this`file
      ensures file == FileAfter(old(file), ClearOverride, order, lower)
      ensures r == Performed(old(file), ClearOverride, order, lower)
    {
      var s :- Load(order);
      s := s.(encoderOverride := None);
      Save(s);
      return Done(s);
    }

    method SaveEncoderPreset(name: string, config: EncoderConfig, order: seq<string>) returns (r: Outcome<HostSettings>)
      modifies this`file
      ensures file == FileAfter(old(file), SavePreset(name, config), order, lower)
      ensures r == Performed(old(file), SavePreset(name, config), order, lower)
    {
      var s :- Load(order);
      var normal :- Need(NormalizeName(name, MAX_PRESET_NAME));
      var presets := UpsertInto(s.presets, EncoderPreset(normal, config), NameKey, ByName(lower));
      s := s.(presets := presets);
      Save(s);
      return Done(s);
    }

    method DeleteEncoderPreset(name: string, order: seq<string>) returns (r: Outcome<HostSettings>, removed: bool)
      modifies this`file
      ensures file == FileAfter(old(file), DeletePreset(name), order, lower)
      ensures r == Performed(old(file), DeletePreset(name), order, lower)
      ensures r.Done? ==> Loaded(old(file), order, lower).Done? && removed == (|r.value.presets| != |Loaded(old(file), order, lower).value.presets|)
    {
      r := Load(order);
      if !r.Done? {
        return r, false;
      }
      var s, normal := r.value, NormalizeName(name, MAX_PRESET_NAME);
      if normal.None? {
        return Refused, false;
      }
      var presets := Retain(s.presets, NameKey, AsciiLower(normal.value));
      removed := |presets| != |s.presets|;
      s := s.(presets := presets);
      Save(s);
      return Done(s), removed;
    }

    method LoadEncoderPreset(name: string, order: seq<string>) returns (r: Outcome<Option<EncoderConfig>>)
      ensures r == Looked(file, name, order, lower)
    {
      var s :- Load(order);
      var normal :- Need(NormalizeName(name, MAX_PRESET_NAME));
      r := FindPreset(s.presets, AsciiLower(normal));
    }

    method UpsertTrustedDevice(device: TrustedDevice, order: seq<string>) returns (r: Outcome<HostSettings>)
      modifies this`file
      ensures file == FileAfter(old(file), UpsertDevice(device), order, lower)
      ensures r == Performed(old(file), UpsertDevice(device), order, lower)
    {
      var s :- Load(order);
      var devices := UpsertInto(s.devices, device, IdKey, ByLabel(lower));
      assert Applied(s, UpsertDevice(device), lower) == Done(s.(devices := devices));
      s := s.(devices := devices);
      Save(s);
      return Done(s);
    }

    method ForgetTrustedDevice(id: string, order: seq<string>) returns (r: Outcome<HostSettings>, removed: bool)
      modifies this`file
      ensures file == FileAfter(old(file), ForgetDevice(id), order, lower)
      ensures r == Performed(old(file), ForgetDevice(id), order, lower)
      ensures r.Done? ==> Loaded(old(file), order, lower).Done? && removed == (|r.value.devices| != |Loaded(old(file), order, lower).value.devices|)
    {
      r := Load(order);
      if !r.Done? {
        return r, false;
      }
      var s, normal := r.value, NormalizeName(id, MAX_DEVICE_ID);
      if normal.None? {
        return Refused, false;
      }
      var devices := Retain(s.devices, IdKey, AsciiLower(normal.value));
      removed := |devices| != |s.devices|;
      s := s.(devices := devices);
      Save(s);
      return Done(s), removed;
    }

    method ClearTrustedDevices(order: seq<string>) returns (r: Outcome<HostSettings>)
      modifies this`file
      ensures file == FileAfter(old(file), ClearDevices, order, lower)
      ensures r == Performed(old(file), ClearDevices, order, lower)
    {
      var s :- Load(order);
      s := s.(devices := []);
      Save(s);
      return Done(s);
    }
  }

  // ---------------------------------------------------------------------------------------------
  // Runs
  // ---------------------------------------------------------------------------------------------

  /** A device to be stored is normalized, as approval makes it, and its key can be read back. */
  predicate OpOk(op: StoreOp) {
    op.UpsertDevice? ==> DeviceOk(op.device) && KeyFits(op.device)
  }

  lemma PresetSaved(s: HostSettings, name: string, config: EncoderConfig, lower: Lower)
    requires WellFormed(s, lower) && Applied(s, SavePreset(name, config), lower).Done?
    ensures WellFormed(Applied(s, SavePreset(name, config), lower).value, lower)
  {
    var p := EncoderPreset(NormalizeName(name, MAX_PRESET_NAME).value, config);
    var r := Upsert(s.presets, p, NameKey, ByName(lower));
    NameStable(name, MAX_PRESET_NAME);
    UpsertMeaning(s.presets, p, NameKey, ByName(lower));
    forall i | 0 <= i < |r|
      ensures PresetOk(r[i])
    {
      assert r[i] in r;
    }
  }

  lemma ConfigOf(presets: seq<EncoderPreset>, p: EncoderPreset)
    requires Distinct(presets, NameKey) && p in presets
    ensures ConfigFor(presets, NameKey(p)) == Some(p.config)
  {
    var i := IndexOf(presets, NameKey, NameKey(p));
    var j :| 0 <= j < |presets| && presets[j] == p;
    assert i <= j;
  }

  lemma NoConfigOf(presets: seq<EncoderPreset>, wanted: string)
    requires forall p :: p in presets ==> NameKey(p) != wanted
    ensures ConfigFor(presets, wanted) == None
  {
  }

  /** A saved preset is found under its name in any case, and every other name finds what it found. */
  lemma SavedPresetFound(s: HostSettings, name: string, config: EncoderConfig, other: string, lower: Lower)
    requires WellFormed(s, lower) && NormalizeName(name, MAX_PRESET_NAME).Some? && NormalizeName(other, MAX_PRESET_NAME).Some?
    ensures var s' := Applied(s, SavePreset(name, config), lower).value;
            PresetNamed(s', other) == if SameIgnoringCase(NormalizeName(other, MAX_PRESET_NAME).value, NormalizeName(name, MAX_PRESET_NAME).value)
                                      then Done(Some(config)) else PresetNamed(s, other)
  {
    var p := EncoderPreset(NormalizeName(name, MAX_PRESET_NAME).value, config);
    var wanted, r := AsciiLower(NormalizeName(other, MAX_PRESET_NAME).value), Upsert(s.presets, p, NameKey, ByName(lower));
    UpsertMeaning(s.presets, p, NameKey, ByName(lower));
    if wanted == NameKey(p) {
      ConfigOf(r, p);
    } else {
      SameConfig(s.presets, r, wanted, NameKey(p));
    }
  }

  /** Lists that differ only in presets of another name find the same. */
  lemma SameConfig(presets: seq<EncoderPreset>, presets': seq<EncoderPreset>, wanted: string, changed: string)
    requires Distinct(presets, NameKey) && Distinct(presets', NameKey) && wanted != changed
    requires forall p :: p in presets && NameKey(p) != changed ==> p in presets'
    requires forall p :: p in presets' && NameKey(p) != changed ==> p in presets
    ensures ConfigFor(presets', wanted) == ConfigFor(presets, wanted)
  {
    var i := IndexOf(presets, NameKey, wanted);
    if i < |presets| {
      ConfigOf(presets', presets[i]);
    } else {
      NoConfigOf(presets', wanted);
    }
  }

  /** A deleted preset is found no more, and every other name finds what it found. */
  lemma DeletedPresetGone(s: HostSettings, name: string, other: string, lower: Lower)
    requires WellFormed(s, lower) && NormalizeName(name, MAX_PRESET_NAME).Some? && NormalizeName(other, MAX_PRESET_NAME).Some?
    ensures var s' := Applied(s, DeletePreset(name), lower).value;
            PresetNamed(s', other) == if SameIgnoringCase(NormalizeName(other, MAX_PRESET_NAME).value, NormalizeName(name, MAX_PRESET_NAME).value)
                                      then Done(None) else PresetNamed(s, other)
  {
    var unwanted, wanted := AsciiLower(NormalizeName(name, MAX_PRESET_NAME).value), AsciiLower(NormalizeName(other, MAX_PRESET_NAME).value);
    var r := Without(s.presets, NameKey, unwanted);
    WithoutMeaning(s.presets, NameKey, ByName(lower), unwanted);
    if wanted == unwanted {
      NoConfigOf(r, wanted);
    } else {
      SameConfig(s.presets, r, wanted, unwanted);
    }
  }

  lemma DeviceSaved(s: HostSettings, d: TrustedDevice, lower: Lower)
    requires WellFormed(s, lower) && KeysFit(s) && DeviceOk(d) && KeyFits(d)
    ensures var s' := s.(devices := Upsert(s.devices, d, IdKey, ByLabel(lower)));
            WellFormed(s', lower) && KeysFit(s')
  {
    var r := Upsert(s.devices, d, IdKey, ByLabel(lower));
    UpsertMeaning(s.devices, d, IdKey, ByLabel(lower));
    forall i | 0 <= i < |r|
      ensures DeviceOk(r[i]) && KeyFits(r[i])
    {
      assert r[i] in r;
    }
  }

  lemma PresetDeleted(s: HostSettings, unwanted: string, lower: Lower)
    requires WellFormed(s, lower)
    ensures WellFormed(s.(presets := Without(s.presets, NameKey, unwanted)), lower)
  {
    var r := Without(s.presets, NameKey, unwanted);
    WithoutMeaning(s.presets, NameKey, ByName(lower), unwanted);
    forall i | 0 <= i < |r|
      ensures PresetOk(r[i])
    {
      assert r[i] in r;
    }
  }

  lemma DeviceForgotten(s: HostSettings, unwanted: string, lower: Lower)
    requires WellFormed(s, lower) && KeysFit(s)
    ensures var s' := s.(devices := Without(s.devices, IdKey, unwanted));
            WellFormed(s', lower) && KeysFit(s')
  {
    var r := Without(s.devices, IdKey, unwanted);
    WithoutMeaning(s.devices, IdKey, ByLabel(lower), unwanted);
    forall i | 0 <= i < |r|
      ensures DeviceOk(r[i]) && KeyFits(r[i])
    {
      assert r[i] in r;
    }
  }

  /** Every operation keeps settings normalized, with unique names and ids and sorted lists. */
  lemma OperationsKeepNormal(s: HostSettings, op: StoreOp, lower: Lower)
    requires WellFormed(s, lower) && KeysFit(s) && OpOk(op) && Applied(s, op, lower).Done?
    ensures WellFormed(Applied(s, op, lower).value, lower) && KeysFit(Applied(s, op, lower).value)
  {
    match op {
      case SavePreset(name, config) => PresetSaved(s, name, config, lower);
      case DeletePreset(name) => PresetDeleted(s, AsciiLower(NormalizeName(name, MAX_PRESET_NAME).value), lower);
      case UpsertDevice(device) => DeviceSaved(s, device, lower);
      case ForgetDevice(id) => DeviceForgotten(s, AsciiLower(NormalizeName(id, MAX_DEVICE_ID).value), lower);
      case _ =>
    }
  }

  /** The file holds the settings: whatever the hash order, that is what loading gives. */
  ghost predicate Stores(file: File, s: HostSettings, lower: Lower) {
    && WellFormed(s, lower) && KeysFit(s) && AllInRanges(s)
    && forall order :: (file.Some? ==> ListsFile(order, file.value)) ==> Loaded(file, order, lower) == Done(s)
  }

  lemma ClampedNormal(s: HostSettings, lower: Lower)
    requires WellFormed(s, lower) && KeysFit(s)
    ensures WellFormed(AllClamped(s), lower) && KeysFit(AllClamped(s)) && AllInRanges(AllClamped(s))
  {
    ClampedKeys(s.presets, lower);
    forall i | 0 <= i < |s.presets|
      ensures PresetOk(AllClamped(s).presets[i])
    {
      assert PresetOk(s.presets[i]);
    }
  }

  /** One operation in memory; a refused one changes nothing, and reading back clamps. */
  function MemoryAfter(s: HostSettings, op: StoreOp, lower: Lower): HostSettings {
    var applied := Applied(s, op, lower);
    if applied.Done? then AllClamped(applied.value) else s
  }

  lemma OperationStores(file: File, s: HostSettings, op: StoreOp, order: seq<string>, lower: Lower)
    requires Stores(file, s, lower) && OpOk(op) && Fits(MemoryAfter(s, op, lower))
    requires file.Some? ==> ListsFile(order, file.value)
    ensures Stores(FileAfter(file, op, order, lower), MemoryAfter(s, op, lower), lower)
  {
    var applied := Applied(s, op, lower);
    if applied.Done? {
      var s' := applied.value;
      OperationsKeepNormal(s, op, lower);
      ClampedNormal(s', lower);
      forall order' | ListsFile(order', Serialize(s'))
        ensures Parse(Serialize(s'), order', lower) == Done(AllClamped(s'))
      {
        ReadsBackWritten(s', order', lower);
      }
    }
  }

  /** A call: an operation, and the order in which the hash map of that call lists its keys. */
  datatype StoreCall = StoreCall(op: StoreOp, order: seq<string>)

  function FileRun(calls: seq<StoreCall>, lower: Lower): File {
    if calls == [] then None
    else
      var last := calls[|calls| - 1];
      FileAfter(FileRun(calls[..|calls| - 1], lower), last.op, last.order, lower)
  }

  function MemoryRun(calls: seq<StoreCall>, lower: Lower): HostSettings {
    if calls == [] then DEFAULT_SETTINGS
    else MemoryAfter(MemoryRun(calls[..|calls| - 1], lower), calls[|calls| - 1].op, lower)
  }

  /** A call the run can make: a device fit to be stored, a hash order of the file there is, and lists
      that stay within the index width. */
  ghost predicate CallOk(calls: seq<StoreCall>, n: nat, lower: Lower)
    requires n < |calls|
  {
    var file := FileRun(calls[..n], lower);
    && OpOk(calls[n].op)
    && (file.Some? ==> ListsFile(calls[n].order, file.value))
    && Fits(MemoryAfter(MemoryRun(calls[..n], lower), calls[n].op, lower))
  }

  /** Over every run of operations from no file at all, the file holds exactly what the same operations
      leave in memory: normalized, sorted, in range, and the same after any number of saves and loads. */
  lemma {:induction false} StoreRefinesMemory(calls: seq<StoreCall>, lower: Lower)
    requires forall n :: 0 <= n < |calls| ==> CallOk(calls, n, lower)
    ensures Stores(FileRun(calls, lower), MemoryRun(calls, lower), lower)
  {
    if calls != [] {
      var n := |calls| - 1;
      forall k | 0 <= k < n
        ensures CallOk(calls[..n], k, lower)
      {
        assert CallOk(calls, k, lower);
        assert calls[..n][..k] == calls[..k];
      }
      StoreRefinesMemory(calls[..n], lower);
      assert CallOk(calls, n, lower);
      OperationStores(FileRun(calls[..n], lower), MemoryRun(calls[..n], lower), calls[n].op, calls[n].order, lower);
    }
  }
}
