/** What is written is read back. */
module SettingsRoundTrip {
  import opened Bytes
  import opened Wrappers
  import opened Text
  import opened SortedList
  import opened Settings
  import opened Media
  import opened Finite

  // ---------------------------------------------------------------------------------------------
  // Lines
  // ---------------------------------------------------------------------------------------------

  predicate PlainKey(key: string) {
    key != "" && Trimmed(key) && key[0] != '#' && '=' !in key && '\n' !in key
  }

  predicate PlainValue(value: string) {
    Trimmed(value) && '\n' !in value
  }

  predicate PlainEntry(e: Entry) {
    PlainKey(e.key) && PlainValue(e.value)
  }

  function LineOf(e: Entry): string {
    e.key + ("=" + e.value)
  }

  lemma EntryLine(values: Values, e: Entry)
    requires PlainEntry(e)
    ensures ParseLine(values, LineOf(e)) == Done(values[e.key := e.value])
  {
    var line := LineOf(e);
    assert line[0] == e.key[0];
    assert line[|line| - 1] == if e.value == "" then '=' else e.value[|e.value| - 1];
    TrimTrims(line);
    SplitAtFirst(e.key, '=', e.value);
    TrimTrims(e.key);
    TrimTrims(e.value);
  }

  function LinesOf(entries: seq<Entry>): seq<string> {
    if entries == [] then [] else LinesOf(entries[..|entries| - 1]) + [LineOf(entries[|entries| - 1])]
  }

  ghost predicate AllPlain(entries: seq<Entry>) {
    forall i :: 0 <= i < |entries| ==> PlainEntry(entries[i])
  }

  lemma {:induction false} RenderedLines(entries: seq<Entry>, rest: string)
    requires AllPlain(entries)
    ensures Lines(Render(entries) + rest) == LinesOf(entries) + Lines(rest)
  {
    if entries == [] {
      assert Render(entries) + rest == rest;
    } else {
      var prefix, e := entries[..|entries| - 1], entries[|entries| - 1];
      Append(Render(prefix), EntryText(e), rest);
      RenderedLines(prefix, EntryText(e) + rest);
      assert EntryText(e) + rest == LineOf(e) + ("\n" + rest);
      FirstLine(LineOf(e), rest);
      Append(LinesOf(prefix), [LineOf(e)], Lines(rest));
    }
  }

  function FromEntries(entries: seq<Entry>): Values {
    if entries == [] then map[] else FromEntries(entries[..|entries| - 1])[entries[|entries| - 1].key := entries[|entries| - 1].value]
  }

  lemma {:induction false} LinesParse(entries: seq<Entry>)
    requires AllPlain(entries)
    ensures ParseLines([HEADER] + LinesOf(entries)) == Done(FromEntries(entries))
  {
    var lines := [HEADER] + LinesOf(entries);
    if entries == [] {
      HeaderSkipped();
      assert lines == [HEADER];
      assert lines[..0] == [];
    } else {
      var prefix, e := entries[..|entries| - 1], entries[|entries| - 1];
      LinesParse(prefix);
      assert lines[..|lines| - 1] == [HEADER] + LinesOf(prefix);
      EntryLine(FromEntries(prefix), e);
    }
  }

  lemma HeaderPlain()
    ensures Trimmed(HEADER) && '\n' !in HEADER
  {
  }

  lemma HeaderSkipped()
    ensures '\n' !in HEADER && forall values :: ParseLine(values, HEADER) == Done(values)
  {
    HeaderPlain();
    TrimTrims(HEADER);
  }

  /** Reading the lines back gives the entries, later ones winning. */
  lemma RenderedValues(entries: seq<Entry>)
    requires AllPlain(entries)
    ensures ParseLines(Lines(HEADER + ("\n" + Render(entries)))) == Done(FromEntries(entries))
  {
    HeaderSkipped();
    FirstLine(HEADER, Render(entries));
    RenderedLines(entries, "");
    assert Render(entries) + "" == Render(entries);
    assert LinesOf(entries) + Lines("") == LinesOf(entries);
    LinesParse(entries);
  }

  lemma SerializedValues(s: HostSettings)
    requires AllPlain(Entries(s))
    ensures ParseLines(Lines(Serialize(s))) == Done(FromEntries(Entries(s)))
  {
    RenderedValues(Entries(s));
  }

  // ---------------------------------------------------------------------------------------------
  // Keys
  // ---------------------------------------------------------------------------------------------

  lemma FieldNamesDiffer(f: Field, g: Field)
    requires FieldName(f) == FieldName(g)
    ensures f == g
  {
    var a, b := FieldName(f), FieldName(g);
    assert |a| == |b| && a[0] == b[0] && a[|a| - 1] == b[|b| - 1];
  }

  function IndexedKey(prefix: string, i: nat, name: string): string {
    prefix + (Decimal(i) + ("." + name))
  }

  lemma KeyIsIndexed(i: nat, f: Field)
    ensures KeyText(PresetSection(i), f) == IndexedKey(PRESET_PREFIX, i, FieldName(f))
    ensures KeyText(DeviceSection(i), f) == IndexedKey(DEVICE_PREFIX, i, FieldName(f))
  {
    Append(PRESET_PREFIX, Decimal(i) + ".", FieldName(f));
    Append(DEVICE_PREFIX, Decimal(i) + ".", FieldName(f));
    Append(Decimal(i), ".", FieldName(f));
  }

  lemma IndexedMatches(prefix: string, i: nat, name: string)
    requires i <= U32_MAX
    ensures MatchKey(IndexedKey(prefix, i, name), prefix) == InGroup(i, name)
  {
    var rest := Decimal(i) + ("." + name);
    assert (prefix + rest)[|prefix|..] == rest;
    SplitAtFirst(Decimal(i), '.', name);
    DecimalRoundTrip(i, U32_MAX);
  }

  lemma SectionsApart(key: string)
    ensures !(OVERRIDE_PREFIX <= key && PRESET_PREFIX <= key)
    ensures !(OVERRIDE_PREFIX <= key && DEVICE_PREFIX <= key)
    ensures !(PRESET_PREFIX <= key && DEVICE_PREFIX <= key)
  {
    assert OVERRIDE_PREFIX[7] == '.' && PRESET_PREFIX[7] == '_';
    assert OVERRIDE_PREFIX[0] == 'e' && PRESET_PREFIX[0] == 'e' && DEVICE_PREFIX[0] == 't';
  }

  function PrefixOf(section: Section): string {
    match section
    case OverrideSection => OVERRIDE_PREFIX
    case PresetSection(_) => PRESET_PREFIX
    case DeviceSection(_) => DEVICE_PREFIX
  }

  lemma KeyHasPrefix(section: Section, f: Field)
    ensures PrefixOf(section) <= KeyText(section, f)
  {
    if !section.OverrideSection? {
      KeyIsIndexed(section.index, f);
    }
  }

  predicate InRange(section: Section) {
    section.OverrideSection? || section.index <= U32_MAX
  }

  /** Different fields have different keys. */
  lemma KeysDiffer(section: Section, f: Field, section': Section, g: Field)
    requires InRange(section) && InRange(section')
    requires KeyText(section, f) == KeyText(section', g)
    ensures section == section' && f == g
  {
    KeyHasPrefix(section, f);
    KeyHasPrefix(section', g);
    SectionsApart(KeyText(section, f));
    match section {
      case OverrideSection =>
        assert KeyText(section, f)[|OVERRIDE_PREFIX|..] == FieldName(f);
        assert KeyText(section', g)[|OVERRIDE_PREFIX|..] == FieldName(g);
      case PresetSection(i) =>
        KeyIsIndexed(i, f);
        KeyIsIndexed(section'.index, g);
        IndexedMatches(PRESET_PREFIX, i, FieldName(f));
        IndexedMatches(PRESET_PREFIX, section'.index, FieldName(g));
      case DeviceSection(i) =>
        KeyIsIndexed(i, f);
        KeyIsIndexed(section'.index, g);
        IndexedMatches(DEVICE_PREFIX, i, FieldName(f));
        IndexedMatches(DEVICE_PREFIX, section'.index, FieldName(g));
    }
    FieldNamesDiffer(f, g);
  }

  predicate KeyChar(c: char) {
    'a' <= c <= 'z' || '0' <= c <= '9' || c == '_' || c == '.'
  }

  predicate KeyLike(s: string) {
    forall i :: 0 <= i < |s| ==> KeyChar(s[i])
  }

  predicate OfDevice(f: Field) {
    f in {DeviceId, Label, LastPeer, Fingerprint, PublicKeyHex, ApprovedMs, AllowPen, AllowTouch, AllowKeyboard, AllowMouse, AllowGamepad}
  }

  lemma ConfigNameLike(f: Field)
    requires !OfDevice(f)
    ensures KeyLike(FieldName(f)) && FieldName(f) != ""
  {
  }

  predicate OfPermission(f: Field) {
    f in {AllowPen, AllowTouch, AllowKeyboard, AllowMouse, AllowGamepad}
  }

  lemma PermissionNameLike(f: Field)
    requires OfPermission(f)
    ensures KeyLike(FieldName(f)) && FieldName(f) != ""
  {
  }

  lemma DeviceNameLike(f: Field)
    requires OfDevice(f) && !OfPermission(f)
    ensures KeyLike(FieldName(f)) && FieldName(f) != ""
  {
  }

  lemma FieldNameLike(f: Field)
    ensures KeyLike(FieldName(f)) && FieldName(f) != ""
  {
    if OfPermission(f) {
      PermissionNameLike(f);
    } else if OfDevice(f) {
      DeviceNameLike(f);
    } else {
      ConfigNameLike(f);
    }
  }

  lemma PrefixLike()
    ensures KeyLike(OVERRIDE_PREFIX) && KeyLike(PRESET_PREFIX) && KeyLike(DEVICE_PREFIX)
  {
  }

  lemma KeyPlain(section: Section, f: Field)
    ensures PlainKey(KeyText(section, f))
  {
    FieldNameLike(f);
    PrefixLike();
    assert KeyLike(SectionText(section));
    assert KeyLike(KeyText(section, f));
  }

  // ---------------------------------------------------------------------------------------------
  // Values
  // ---------------------------------------------------------------------------------------------

  lemma NamePlain(name: string, max: nat)
    requires NormalizeName(name, max) == Some(name)
    ensures PlainValue(name)
  {
    TrimTrims(name);
  }

  lemma PrefixKeeps(s: string, n: nat)
    ensures Truncated(s, n).Some? ==> forall c :: c in Truncated(s, n).value ==> c in s
  {
    PrefixExact(s, n);
  }

  lemma LabelPlain(text: string, name: string)
    requires NormalizeLabel(text) == Done(name)
    ensures PlainValue(name) && name != "" && '\r' !in name && '\t' !in name
  {
    var cut := Truncated(Spaced(text), MAX_LABEL).value;
    PrefixKeeps(Spaced(text), MAX_LABEL);
    TrimTrims(cut);
    forall c | c in Trim(cut)
      ensures c in Spaced(text)
    {
      TrimKeeps(cut, c);
    }
  }

  lemma HexLowerPlain(s: string)
    requires forall i :: 0 <= i < |s| ==> IsHexLower(s[i])
    ensures PlainValue(s)
  {
  }

  lemma DigitsPlain(n: nat)
    ensures PlainValue(Decimal(n))
  {
  }

  lemma WordsPlain(b: bool, codec: VideoCodec, color: ColorSpace)
    ensures PlainValue(BoolText(b)) && PlainValue(CodecText(codec)) && PlainValue(ColorSpaceText(color))
  {
  }

  lemma ConfigPlain(c: EncoderConfig, f: Field)
    requires ConfigText(c, f).Some?
    ensures PlainValue(ConfigText(c, f).value)
  {
    WordsPlain(c.lowLatency, c.codec, c.colorSpace);
    match f {
      case DisplayId => DigitsPlain(c.displayId);
      case Width => DigitsPlain(c.width);
      case Height => DigitsPlain(c.height);
      case MaxFps => DigitsPlain(c.maxFps);
      case TargetBitrate => DigitsPlain(c.targetBitrateKbps);
      case KeyframeInterval => DigitsPlain(c.keyframeIntervalMs);
      case _ =>
    }
  }

  lemma DeviceNamesPlain(d: TrustedDevice)
    requires DeviceOk(d)
    ensures PlainValue(d.id) && PlainValue(d.name) && PlainValue(d.lastPeer)
    ensures d.fingerprint.Some? ==> PlainValue(d.fingerprint.value)
  {
    NamePlain(d.id, MAX_DEVICE_ID);
    LabelPlain(d.name, d.name);
    LabelPlain(d.lastPeer, d.lastPeer);
    if d.fingerprint.Some? {
      HexLowerPlain(d.fingerprint.value);
    }
  }

  lemma DevicePlain(d: TrustedDevice, f: Field)
    requires PlainValue(d.id) && PlainValue(d.name) && PlainValue(d.lastPeer)
    requires d.fingerprint.Some? ==> PlainValue(d.fingerprint.value)
    requires DeviceText(d, f).Some?
    ensures PlainValue(DeviceText(d, f).value)
  {
    match f {
      case PublicKeyHex =>
        HexPlain(d.publicKeyDer.value);
        HexLowerPlain(Hex(d.publicKeyDer.value));
      case ApprovedMs => DigitsPlain(d.approvedUnixMs);
      case _ =>
    }
  }

  lemma WantPlain(s: HostSettings, lower: Lower, section: Section, f: Field)
    requires WellFormed(s, lower) && Want(s, section, f).Some?
    ensures PlainValue(Want(s, section, f).value)
  {
    match section {
      case OverrideSection => ConfigPlain(s.encoderOverride.value, f);
      case PresetSection(i) =>
        assert PresetOk(s.presets[i]);
        if f == PresetName {
          NamePlain(s.presets[i].name, MAX_PRESET_NAME);
        } else {
          ConfigPlain(s.presets[i].config, f);
        }
      case DeviceSection(i) =>
        DeviceNamesPlain(s.devices[i]);
        DevicePlain(s.devices[i], f);
    }
  }

  // ---------------------------------------------------------------------------------------------
  // Entries
  // ---------------------------------------------------------------------------------------------

  /** The entry says what the settings want of some key. */
  ghost predicate Wanted(s: HostSettings, e: Entry) {
    exists section, f :: InRange(section) && Want(s, section, f) == Some(e.value) && e.key == KeyText(section, f)
  }

  lemma {:induction false} SectionWanted(s: HostSettings, section: Section, fields: seq<Field>, e: Entry)
    requires InRange(section) && e in SectionEntries(s, section, fields)
    ensures Wanted(s, e)
  {
    if e !in SectionEntries(s, section, fields[..|fields| - 1]) {
      assert Want(s, section, fields[|fields| - 1]) == Some(e.value);
    } else {
      SectionWanted(s, section, fields[..|fields| - 1], e);
    }
  }

  lemma {:induction false} SectionsWanted(s: HostSettings, sections: seq<Section>, e: Entry)
    requires e in EntriesOf(s, sections) && forall section :: section in sections ==> InRange(section)
    ensures Wanted(s, e)
  {
    var prior, last := sections[..|sections| - 1], sections[|sections| - 1];
    if e in EntriesOf(s, prior) {
      SectionsWanted(s, prior, e);
    } else {
      SectionWanted(s, last, FieldsOf(last), e);
    }
  }

  lemma EntriesWanted(s: HostSettings, e: Entry)
    requires Fits(s) && e in Entries(s)
    ensures Wanted(s, e)
  {
    SectionsWanted(s, Sections(s), e);
  }

  lemma {:induction false} SectionComplete(s: HostSettings, section: Section, fields: seq<Field>, f: Field)
    requires f in fields && Want(s, section, f).Some?
    ensures Entry(KeyText(section, f), Want(s, section, f).value) in SectionEntries(s, section, fields)
  {
    if f != fields[|fields| - 1] {
      assert fields == fields[..|fields| - 1] + [fields[|fields| - 1]];
      SectionComplete(s, section, fields[..|fields| - 1], f);
    }
  }

  lemma {:induction false} SectionsComplete(s: HostSettings, sections: seq<Section>, section: Section, e: Entry)
    requires section in sections && e in SectionEntries(s, section, FieldsOf(section))
    ensures e in EntriesOf(s, sections)
  {
    if section != sections[|sections| - 1] {
      assert sections == sections[..|sections| - 1] + [sections[|sections| - 1]];
      SectionsComplete(s, sections[..|sections| - 1], section, e);
    }
  }

  lemma OverrideFieldListed(c: EncoderConfig, f: Field)
    ensures ConfigText(c, f).Some? <==> f in CONFIG_FIELDS
  {
    assert CONFIG_FIELDS[0] == DisplayId && CONFIG_FIELDS[1] == CodecName && CONFIG_FIELDS[2] == ColorSpaceName && CONFIG_FIELDS[3] == Width
           && CONFIG_FIELDS[4] == Height && CONFIG_FIELDS[5] == MaxFps && CONFIG_FIELDS[6] == TargetBitrate
           && CONFIG_FIELDS[7] == KeyframeInterval && CONFIG_FIELDS[8] == LowLatency;
  }

  lemma DeviceFieldListed(d: TrustedDevice, f: Field)
    requires DeviceText(d, f).Some?
    ensures f in DEVICE_FIELDS
  {
    assert DEVICE_FIELDS[0] == DeviceId && DEVICE_FIELDS[1] == Label && DEVICE_FIELDS[2] == LastPeer && DEVICE_FIELDS[3] == Fingerprint
           && DEVICE_FIELDS[4] == PublicKeyHex && DEVICE_FIELDS[5] == ApprovedMs && DEVICE_FIELDS[6] == AllowPen && DEVICE_FIELDS[7] == AllowTouch
           && DEVICE_FIELDS[8] == AllowKeyboard && DEVICE_FIELDS[9] == AllowMouse && DEVICE_FIELDS[10] == AllowGamepad;
  }

  lemma WantListed(s: HostSettings, section: Section, f: Field)
    requires Want(s, section, f).Some?
    ensures f in FieldsOf(section) && section in Sections(s)
  {
    match section {
      case OverrideSection => OverrideFieldListed(s.encoderOverride.value, f);
      case PresetSection(i) =>
        OverrideFieldListed(s.presets[i].config, f);
        assert PresetSections(|s.presets|)[i] == section;
      case DeviceSection(i) =>
        DeviceFieldListed(s.devices[i], f);
        assert DeviceSections(|s.devices|)[i] == section;
    }
  }

  /** Everything the settings want is written. */
  lemma EntriesComplete(s: HostSettings, section: Section, f: Field)
    requires Want(s, section, f).Some?
    ensures Entry(KeyText(section, f), Want(s, section, f).value) in Entries(s)
  {
    WantListed(s, section, f);
    SectionComplete(s, section, FieldsOf(section), f);
    SectionsComplete(s, Sections(s), section, Entry(KeyText(section, f), Want(s, section, f).value));
  }

  // ---------------------------------------------------------------------------------------------
  // The map of values
  // ---------------------------------------------------------------------------------------------

  /** A key is in the map exactly if some entry has it, with the value of such an entry. */
  lemma {:induction false} FromEntriesHas(entries: seq<Entry>, key: string)
    ensures key in FromEntries(entries) ==> Entry(key, FromEntries(entries)[key]) in entries
    ensures forall e :: e in entries && e.key == key ==> key in FromEntries(entries)
  {
    if entries != [] {
      FromEntriesHas(entries[..|entries| - 1], key);
      assert entries == entries[..|entries| - 1] + [entries[|entries| - 1]];
    }
  }

  /** The values say of every key what the settings want, and nothing else. */
  ghost predicate Says(values: Values, s: HostSettings) {
    && (forall section, f :: InRange(section) ==> Said(values, s, section, f))
    && (forall key :: key in values ==> exists section, f :: InRange(section) && key == KeyText(section, f))
  }

  predicate Said(values: Values, s: HostSettings, section: Section, f: Field) {
    var key := KeyText(section, f);
    Want(s, section, f) == if key in values then Some(values[key]) else None
  }

  lemma EntrySaid(s: HostSettings, section: Section, f: Field)
    requires Fits(s) && InRange(section)
    ensures Said(FromEntries(Entries(s)), s, section, f)
  {
    var values, key := FromEntries(Entries(s)), KeyText(section, f);
    FromEntriesHas(Entries(s), key);
    if key in values {
      var e := Entry(key, values[key]);
      EntriesWanted(s, e);
      var section', g :| InRange(section') && Want(s, section', g) == Some(e.value) && e.key == KeyText(section', g);
      KeysDiffer(section, f, section', g);
    } else if Want(s, section, f).Some? {
      EntriesComplete(s, section, f);
    }
  }

  lemma ValuesSay(s: HostSettings)
    requires Fits(s)
    ensures Says(FromEntries(Entries(s)), s)
  {
    var values := FromEntries(Entries(s));
    forall section, f | InRange(section)
      ensures Said(values, s, section, f)
    {
      EntrySaid(s, section, f);
    }
    forall key | key in values
      ensures exists section, f :: InRange(section) && key == KeyText(section, f)
    {
      FromEntriesHas(Entries(s), key);
      EntriesWanted(s, Entry(key, values[key]));
    }
  }

  // ---------------------------------------------------------------------------------------------
  // Groups
  // ---------------------------------------------------------------------------------------------

  /** Keys under the prefix are well formed, with their index written in the one canonical way. */
  ghost predicate Canonical(values: Values, prefix: string) {
    forall key :: key in values ==> CanonicalKey(key, prefix)
  }

  predicate CanonicalKey(key: string, prefix: string) {
    match MatchKey(key, prefix)
    case Elsewhere => true
    case BadKey => false
    case InGroup(i, name) => i <= U32_MAX && key == IndexedKey(prefix, i, name)
  }

  lemma KeysCanonical(section: Section, f: Field)
    requires InRange(section)
    ensures CanonicalKey(KeyText(section, f), PRESET_PREFIX) && CanonicalKey(KeyText(section, f), DEVICE_PREFIX)
  {
    KeyHasPrefix(section, f);
    SectionsApart(KeyText(section, f));
    if !section.OverrideSection? {
      KeyIsIndexed(section.index, f);
      IndexedMatches(PrefixOf(section), section.index, FieldName(f));
    }
  }

  lemma SaidCanonical(values: Values, s: HostSettings)
    requires Says(values, s)
    ensures Canonical(values, PRESET_PREFIX) && Canonical(values, DEVICE_PREFIX)
  {
    forall key | key in values
      ensures CanonicalKey(key, PRESET_PREFIX) && CanonicalKey(key, DEVICE_PREFIX)
    {
      var section, f :| InRange(section) && key == KeyText(section, f);
      KeysCanonical(section, f);
    }
  }

  /** Whatever the order, a group holds exactly the values whose keys have its index. */
  lemma {:induction false} GroupsHold(values: Values, order: seq<string>, prefix: string, i: nat, name: string)
    requires Canonical(values, prefix) && i <= U32_MAX
    ensures GroupsOf(values, order, prefix).Done?
    ensures var g, key := GroupsOf(values, order, prefix).value, IndexedKey(prefix, i, name);
            && (name in FieldsAt(g, i) <==> key in values && key in order)
            && (name in FieldsAt(g, i) ==> FieldsAt(g, i)[name] == values[key])
  {
    if order != [] {
      var prior, key := order[..|order| - 1], order[|order| - 1];
      GroupsHold(values, prior, prefix, i, name);
      IndexedMatches(prefix, i, name);
      assert order == prior + [key];
      GroupStep(GroupsOf(values, prior, prefix).value, values, key, prefix, i, name);
    }
  }

  lemma GroupStep(g: Grouped, values: Values, key: string, prefix: string, i: nat, name: string)
    requires Canonical(values, prefix) && i <= U32_MAX && MatchKey(IndexedKey(prefix, i, name), prefix) == InGroup(i, name)
    ensures GroupOne(g, values, key, prefix).Done?
    ensures var g' := GroupOne(g, values, key, prefix).value;
            if key in values && key == IndexedKey(prefix, i, name)
            then name in FieldsAt(g', i) && FieldsAt(g', i)[name] == values[key]
            else (name in FieldsAt(g', i) <==> name in FieldsAt(g, i))
                 && (name in FieldsAt(g', i) ==> FieldsAt(g', i)[name] == FieldsAt(g, i)[name])
  {
    assert key in values ==> CanonicalKey(key, prefix);
  }

  /** There is a group for an index only if there is a value for it. */
  lemma {:induction false} GroupsInhabited(values: Values, order: seq<string>, prefix: string, i: nat)
    requires Canonical(values, prefix) && GroupsOf(values, order, prefix).Done?
    requires i in GroupsOf(values, order, prefix).value
    ensures i <= U32_MAX && exists name :: IndexedKey(prefix, i, name) in values
  {
    var prior, key := order[..|order| - 1], order[|order| - 1];
    if i !in GroupsOf(values, prior, prefix).value {
      assert CanonicalKey(key, prefix);
    } else {
      GroupsInhabited(values, prior, prefix, i);
    }
  }

  ghost predicate ListsKeys(order: seq<string>, values: Values) {
    forall key :: key in values ==> key in order
  }

  /** The indices of the preset groups are those of the list, and each group has the preset's fields. */
  lemma PresetGroups(values: Values, s: HostSettings, order: seq<string>)
    requires Says(values, s) && Fits(s) && ListsKeys(order, values)
    ensures GroupsOf(values, order, PRESET_PREFIX).Done?
    ensures var g := GroupsOf(values, order, PRESET_PREFIX).value;
            && g.Keys == Indices(|s.presets|)
            && forall i, f :: 0 <= i < |s.presets| ==> Get(FieldsAt(g, i), "", f) == PresetText(s.presets[i], f)
  {
    SaidCanonical(values, s);
    GroupsHold(values, order, PRESET_PREFIX, 0, "");
    var g := GroupsOf(values, order, PRESET_PREFIX).value;
    forall i, f | 0 <= i < |s.presets|
      ensures Get(FieldsAt(g, i), "", f) == PresetText(s.presets[i], f)
    {
      PresetFieldRead(values, s, order, i, f);
    }
    forall i: nat
      ensures i in g <==> i < |s.presets|
    {
      if i < |s.presets| {
        assert Get(FieldsAt(g, i), "", PresetName) == PresetText(s.presets[i], PresetName);
      } else if i in g {
        GroupsInhabited(values, order, PRESET_PREFIX, i);
        var name :| IndexedKey(PRESET_PREFIX, i, name) in values;
        PresetKeyInList(values, s, i, name);
      }
    }
  }

  lemma PresetFieldRead(values: Values, s: HostSettings, order: seq<string>, i: nat, f: Field)
    requires Says(values, s) && Fits(s) && ListsKeys(order, values) && i < |s.presets|
    ensures GroupsOf(values, order, PRESET_PREFIX).Done?
    ensures Get(FieldsAt(GroupsOf(values, order, PRESET_PREFIX).value, i), "", f) == PresetText(s.presets[i], f)
  {
    SaidCanonical(values, s);
    GroupsHold(values, order, PRESET_PREFIX, i, FieldName(f));
    KeyIsIndexed(i, f);
    assert Said(values, s, PresetSection(i), f);
    assert "" + FieldName(f) == FieldName(f);
  }

  lemma PresetKeyInList(values: Values, s: HostSettings, i: nat, name: string)
    requires Says(values, s) && Fits(s) && i <= U32_MAX && IndexedKey(PRESET_PREFIX, i, name) in values
    ensures i < |s.presets|
  {
    var key := IndexedKey(PRESET_PREFIX, i, name);
    var section, f :| InRange(section) && key == KeyText(section, f);
    assert Said(values, s, section, f);
    KeyHasPrefix(section, f);
    SectionsApart(key);
    IndexedMatches(PRESET_PREFIX, i, name);
    KeyIsIndexed(section.index, f);
    IndexedMatches(PRESET_PREFIX, section.index, FieldName(f));
  }

  /** Likewise for the device groups. */
  lemma DeviceGroups(values: Values, s: HostSettings, order: seq<string>)
    requires Says(values, s) && Fits(s) && ListsKeys(order, values)
    ensures GroupsOf(values, order, DEVICE_PREFIX).Done?
    ensures var g := GroupsOf(values, order, DEVICE_PREFIX).value;
            && g.Keys == Indices(|s.devices|)
            && forall i, f :: 0 <= i < |s.devices| ==> Get(FieldsAt(g, i), "", f) == DeviceText(s.devices[i], f)
  {
    SaidCanonical(values, s);
    GroupsHold(values, order, DEVICE_PREFIX, 0, "");
    var g := GroupsOf(values, order, DEVICE_PREFIX).value;
    forall i, f | 0 <= i < |s.devices|
      ensures Get(FieldsAt(g, i), "", f) == DeviceText(s.devices[i], f)
    {
      DeviceFieldRead(values, s, order, i, f);
    }
    forall i: nat
      ensures i in g <==> i < |s.devices|
    {
      if i < |s.devices| {
        assert Get(FieldsAt(g, i), "", DeviceId) == DeviceText(s.devices[i], DeviceId);
      } else if i in g {
        GroupsInhabited(values, order, DEVICE_PREFIX, i);
        var name :| IndexedKey(DEVICE_PREFIX, i, name) in values;
        DeviceKeyInList(values, s, i, name);
      }
    }
  }

  lemma DeviceFieldRead(values: Values, s: HostSettings, order: seq<string>, i: nat, f: Field)
    requires Says(values, s) && Fits(s) && ListsKeys(order, values) && i < |s.devices|
    ensures GroupsOf(values, order, DEVICE_PREFIX).Done?
    ensures Get(FieldsAt(GroupsOf(values, order, DEVICE_PREFIX).value, i), "", f) == DeviceText(s.devices[i], f)
  {
    SaidCanonical(values, s);
    GroupsHold(values, order, DEVICE_PREFIX, i, FieldName(f));
    KeyIsIndexed(i, f);
    assert Said(values, s, DeviceSection(i), f);
    assert "" + FieldName(f) == FieldName(f);
  }

  lemma DeviceKeyInList(values: Values, s: HostSettings, i: nat, name: string)
    requires Says(values, s) && Fits(s) && i <= U32_MAX && IndexedKey(DEVICE_PREFIX, i, name) in values
    ensures i < |s.devices|
  {
    var key := IndexedKey(DEVICE_PREFIX, i, name);
    var section, f :| InRange(section) && key == KeyText(section, f);
    assert Said(values, s, section, f);
    KeyHasPrefix(section, f);
    SectionsApart(key);
    IndexedMatches(DEVICE_PREFIX, i, name);
    KeyIsIndexed(section.index, f);
    IndexedMatches(DEVICE_PREFIX, section.index, FieldName(f));
  }

  // ---------------------------------------------------------------------------------------------
  // Fields
  // ---------------------------------------------------------------------------------------------

  lemma WordsRoundTrip(b: bool, codec: VideoCodec, color: ColorSpace)
    ensures ParseBool(BoolText(b)) == Some(b) && ParseCodec(CodecText(codec)) == Some(codec) && ParseColorSpace(ColorSpaceText(color)) == Some(color)
  {
  }

  lemma UnsignedRead(values: Values, prefix: string, f: Field, n: nat, max: nat)
    requires Get(values, prefix, f) == Some(Decimal(n)) && n <= max
    ensures GetUnsigned(values, prefix, f, max) == Done(n)
  {
    DecimalRoundTrip(n, max);
  }

  lemma PictureRead(values: Values, prefix: string, c: EncoderConfig)
    requires Get(values, prefix, DisplayId) == Some(Decimal(c.displayId))
    requires Get(values, prefix, CodecName) == Some(CodecText(c.codec)) && Get(values, prefix, ColorSpaceName) == Some(ColorSpaceText(c.colorSpace))
    requires Get(values, prefix, Width) == Some(Decimal(c.width)) && Get(values, prefix, Height) == Some(Decimal(c.height))
    ensures ParsePicture(values, prefix) == Done(PictureOf(c))
  {
    WordsRoundTrip(c.lowLatency, c.codec, c.colorSpace);
    UnsignedRead(values, prefix, DisplayId, c.displayId, U32_MAX);
    UnsignedRead(values, prefix, Width, c.width, U32_MAX);
    UnsignedRead(values, prefix, Height, c.height, U32_MAX);
  }

  function PictureOf(c: EncoderConfig): EncoderConfig {
    NO_CONFIG.(displayId := c.displayId, codec := c.codec, colorSpace := c.colorSpace, width := c.width, height := c.height)
  }

  lemma RatesRead(values: Values, prefix: string, c: EncoderConfig)
    requires Get(values, prefix, MaxFps) == Some(Decimal(c.maxFps))
    requires Get(values, prefix, TargetBitrate) == Some(Decimal(c.targetBitrateKbps))
    requires Get(values, prefix, KeyframeInterval) == Some(Decimal(c.keyframeIntervalMs))
    requires Get(values, prefix, LowLatency) == Some(BoolText(c.lowLatency))
    ensures ParseRates(values, prefix, PictureOf(c)) == Done(Clamped(c))
  {
    WordsRoundTrip(c.lowLatency, c.codec, c.colorSpace);
    UnsignedRead(values, prefix, MaxFps, c.maxFps, U16_MAX);
    UnsignedRead(values, prefix, TargetBitrate, c.targetBitrateKbps, U32_MAX);
    UnsignedRead(values, prefix, KeyframeInterval, c.keyframeIntervalMs, U32_MAX);
  }

  ghost predicate ConfigReadsAs(values: Values, prefix: string, c: EncoderConfig) {
    forall f :: f != PresetName ==> Get(values, prefix, f) == ConfigText(c, f)
  }

  lemma ConfigFieldRead(values: Values, prefix: string, c: EncoderConfig, f: Field, text: string)
    requires ConfigReadsAs(values, prefix, c) && ConfigText(c, f) == Some(text)
    ensures Get(values, prefix, f) == Some(text)
  {
  }

  lemma ConfigPictureRead(values: Values, prefix: string, c: EncoderConfig)
    requires ConfigReadsAs(values, prefix, c)
    ensures ParsePicture(values, prefix) == Done(PictureOf(c))
  {
    ConfigFieldRead(values, prefix, c, DisplayId, Decimal(c.displayId));
    ConfigFieldRead(values, prefix, c, CodecName, CodecText(c.codec));
    ConfigFieldRead(values, prefix, c, ColorSpaceName, ColorSpaceText(c.colorSpace));
    ConfigFieldRead(values, prefix, c, Width, Decimal(c.width));
    ConfigFieldRead(values, prefix, c, Height, Decimal(c.height));
    PictureRead(values, prefix, c);
  }

  lemma ConfigRatesRead(values: Values, prefix: string, c: EncoderConfig)
    requires ConfigReadsAs(values, prefix, c)
    ensures ParseRates(values, prefix, PictureOf(c)) == Done(Clamped(c))
  {
    ConfigFieldRead(values, prefix, c, MaxFps, Decimal(c.maxFps));
    ConfigFieldRead(values, prefix, c, TargetBitrate, Decimal(c.targetBitrateKbps));
    ConfigFieldRead(values, prefix, c, KeyframeInterval, Decimal(c.keyframeIntervalMs));
    ConfigFieldRead(values, prefix, c, LowLatency, BoolText(c.lowLatency));
    RatesRead(values, prefix, c);
  }

  lemma ConfigRead(values: Values, prefix: string, c: EncoderConfig)
    requires ConfigReadsAs(values, prefix, c)
    ensures ParseConfig(values, prefix) == Done(Clamped(c))
  {
    ConfigPictureRead(values, prefix, c);
    ConfigRatesRead(values, prefix, c);
  }

  lemma PresetRead(fields: Values, p: EncoderPreset)
    requires PresetOk(p) && forall f :: Get(fields, "", f) == PresetText(p, f)
    ensures ParsePreset(fields) == Done(p.(config := Clamped(p.config)))
  {
    assert ConfigReadsAs(fields, "", p.config);
    ConfigRead(fields, "", p.config);
  }

  lemma PermissionRead(fields: Values, d: TrustedDevice, f: Field, allowed: bool)
    requires ReadsAs(fields, d) && DeviceText(d, f) == Some(BoolText(allowed))
    ensures GetPermission(fields, f) == Done(allowed)
  {
    WordsRoundTrip(allowed, H264, Srgb);
  }

  lemma PermissionsRead(fields: Values, d: TrustedDevice)
    requires ReadsAs(fields, d)
    ensures ParsePermissions(fields) == Done(d.permissions)
  {
    PermissionRead(fields, d, AllowPen, d.permissions.allowPen);
    PermissionRead(fields, d, AllowTouch, d.permissions.allowTouch);
    PermissionRead(fields, d, AllowKeyboard, d.permissions.allowKeyboard);
    PermissionRead(fields, d, AllowMouse, d.permissions.allowMouse);
    PermissionRead(fields, d, AllowGamepad, d.permissions.allowGamepad);
  }

  lemma DerRead(fields: Values, d: TrustedDevice)
    requires Get(fields, "", PublicKeyHex) == DeviceText(d, PublicKeyHex)
    ensures ParseDer(fields) == if KeyFits(d) then Done(d.publicKeyDer) else Refused
  {
    if d.publicKeyDer.Some? {
      HexRoundTrip(d.publicKeyDer.value);
    }
  }

  lemma IdentityRead(fields: Values, d: TrustedDevice)
    requires DeviceOk(d)
    requires Get(fields, "", DeviceId) == Some(d.id) && Get(fields, "", Label) == Some(d.name) && Get(fields, "", LastPeer) == Some(d.lastPeer)
    ensures ParseIdentity(fields) == Done(TrustedDevice(d.id, d.name, d.lastPeer, None, None, 0, ALL_PERMITTED))
  {
  }

  lemma DeviceAssembled(fields: Values, d: TrustedDevice)
    requires ParseIdentity(fields) == Done(TrustedDevice(d.id, d.name, d.lastPeer, None, None, 0, ALL_PERMITTED))
    requires OptionalFingerprint(Get(fields, "", Fingerprint)) == Done(d.fingerprint)
    requires ParseDer(fields) == if KeyFits(d) then Done(d.publicKeyDer) else Refused
    requires GetUnsigned(fields, "", ApprovedMs, U64_MAX) == Done(d.approvedUnixMs)
    requires ParsePermissions(fields) == Done(d.permissions)
    ensures ParseDevice(fields) == if KeyFits(d) then Done(d) else Refused
  {
  }

  lemma FingerprintRead(d: TrustedDevice)
    requires DeviceOk(d)
    ensures OptionalFingerprint(d.fingerprint) == Done(d.fingerprint)
  {
  }

  ghost predicate ReadsAs(fields: Values, d: TrustedDevice) {
    forall f :: Get(fields, "", f) == DeviceText(d, f)
  }

  lemma FieldRead(fields: Values, d: TrustedDevice, f: Field)
    requires ReadsAs(fields, d)
    ensures Get(fields, "", f) == DeviceText(d, f)
  {
  }

  lemma DeviceNamesRead(fields: Values, d: TrustedDevice)
    requires DeviceOk(d) && ReadsAs(fields, d)
    ensures ParseIdentity(fields) == Done(TrustedDevice(d.id, d.name, d.lastPeer, None, None, 0, ALL_PERMITTED))
  {
    FieldRead(fields, d, DeviceId);
    FieldRead(fields, d, Label);
    FieldRead(fields, d, LastPeer);
    IdentityRead(fields, d);
  }

  lemma DeviceFingerprintRead(fields: Values, d: TrustedDevice)
    requires DeviceOk(d) && ReadsAs(fields, d)
    ensures OptionalFingerprint(Get(fields, "", Fingerprint)) == Done(d.fingerprint)
  {
    FieldRead(fields, d, Fingerprint);
    FingerprintRead(d);
  }

  lemma DeviceDerRead(fields: Values, d: TrustedDevice)
    requires ReadsAs(fields, d)
    ensures ParseDer(fields) == if KeyFits(d) then Done(d.publicKeyDer) else Refused
  {
    FieldRead(fields, d, PublicKeyHex);
    DerRead(fields, d);
  }

  lemma DeviceApprovedRead(fields: Values, d: TrustedDevice)
    requires ReadsAs(fields, d)
    ensures GetUnsigned(fields, "", ApprovedMs, U64_MAX) == Done(d.approvedUnixMs)
  {
    FieldRead(fields, d, ApprovedMs);
    UnsignedRead(fields, "", ApprovedMs, d.approvedUnixMs, U64_MAX);
  }

  lemma DeviceRead(fields: Values, d: TrustedDevice)
    requires DeviceOk(d) && ReadsAs(fields, d)
    ensures ParseDevice(fields) == if KeyFits(d) then Done(d) else Refused
  {
    DeviceNamesRead(fields, d);
    DeviceFingerprintRead(fields, d);
    DeviceDerRead(fields, d);
    DeviceApprovedRead(fields, d);
    PermissionsRead(fields, d);
    DeviceAssembled(fields, d);
  }

  // ---------------------------------------------------------------------------------------------
  // Lists
  // ---------------------------------------------------------------------------------------------

  function Upto(n: nat): (r: seq<nat>)
    ensures |r| == n && forall i :: 0 <= i < n ==> r[i] == i
  {
    if n == 0 then [] else Upto(n - 1) + [n - 1]
  }

  lemma {:induction false} AscendingUpto(n: nat)
    ensures Ascending(Indices(n)) == Upto(n)
  {
    if n > 0 {
      assert n - 1 in Indices(n);
      GreatestExists(Indices(n));
      var m :| m in Indices(n) && forall k :: k in Indices(n) ==> k <= m;
      assert m == n - 1;
      assert Indices(n) - {m} == Indices(n - 1);
      AscendingUpto(n - 1);
    }
  }

  lemma ClampedKeys(presets: seq<EncoderPreset>, lower: Lower)
    requires Distinct(presets, NameKey) && SortedBy(presets, ByName(lower))
    ensures Distinct(ClampedPresets(presets), NameKey) && SortedBy(ClampedPresets(presets), ByName(lower))
  {
  }

  lemma PrefixKept<T>(items: seq<T>, n: nat, id: T -> string, key: T -> string)
    requires n <= |items| && Distinct(items, id) && SortedBy(items, key)
    ensures Distinct(items[..n], id) && SortedBy(items[..n], key)
  {
  }

  /** The first `n` items, one at a time. */
  lemma CollectedNext<T>(parsed: seq<Outcome<T>>, id: T -> string, key: T -> string, n: nat)
    requires 0 < n <= |parsed|
    ensures var prior, last := Collected(parsed[..n - 1], id, key), parsed[n - 1];
            Collected(parsed[..n], id, key)
            == if !prior.Done? then prior else if last.Done? then Done(Upsert(prior.value, last.value, id, key)) else last.PropagateFailure()
  {
    assert parsed[..n][..n - 1] == parsed[..n - 1];
  }

  /** Collecting items that are sorted and distinct gives just those items. */
  lemma {:induction false} CollectedAll<T>(parsed: seq<Outcome<T>>, items: seq<T>, id: T -> string, key: T -> string, n: nat)
    requires |parsed| == |items| && forall i :: 0 <= i < |items| ==> parsed[i] == Done(items[i])
    requires Distinct(items, id) && SortedBy(items, key) && n <= |items|
    ensures Collected(parsed[..n], id, key) == Done(items[..n])
  {
    if n > 0 {
      CollectedAll(parsed, items, id, key, n - 1);
      CollectedNext(parsed, id, key, n);
      PrefixKept(items, n, id, key);
      assert items[..n] == items[..n - 1] + [items[n - 1]];
      UpsertAppends(items[..n - 1], items[n - 1], id, key);
    }
  }

  // ---------------------------------------------------------------------------------------------
  // The round trip
  // ---------------------------------------------------------------------------------------------

  lemma OverrideRead(values: Values, s: HostSettings)
    requires Says(values, s)
    ensures ParseOverride(values) == Done(AllClamped(s).encoderOverride)
  {
    if s.encoderOverride.Some? {
      assert Said(values, s, OverrideSection, DisplayId);
      KeyHasPrefix(OverrideSection, DisplayId);
      forall f | f != PresetName
        ensures Get(values, OVERRIDE_PREFIX, f) == ConfigText(s.encoderOverride.value, f)
      {
        assert Said(values, s, OverrideSection, f);
      }
      assert ConfigReadsAs(values, OVERRIDE_PREFIX, s.encoderOverride.value);
      ConfigRead(values, OVERRIDE_PREFIX, s.encoderOverride.value);
    } else {
      forall key | key in values
        ensures !(OVERRIDE_PREFIX <= key)
      {
        var section, f :| InRange(section) && key == KeyText(section, f);
        assert Said(values, s, section, f);
        KeyHasPrefix(section, f);
        SectionsApart(key);
      }
    }
  }

  lemma PresetsRead(values: Values, s: HostSettings, order: seq<string>, lower: Lower)
    requires Says(values, s) && WellFormed(s, lower) && Fits(s) && ListsKeys(order, values)
    ensures ParsePresets(values, order, lower) == Done(ClampedPresets(s.presets))
  {
    PresetGroups(values, s, order);
    AscendingUpto(|s.presets|);
    var g, all := GroupsOf(values, order, PRESET_PREFIX).value, ClampedPresets(s.presets);
    forall i | 0 <= i < |all|
      ensures ParsePreset(FieldsAt(g, i)) == Done(all[i])
    {
      assert PresetOk(s.presets[i]);
      PresetRead(FieldsAt(g, i), s.presets[i]);
    }
    ClampedKeys(s.presets, lower);
    var parsed := ParsedPresets(g, Upto(|all|));
    CollectedAll(parsed, all, NameKey, ByName(lower), |all|);
    assert parsed[..|all|] == parsed && all[..|all|] == all;
  }

  /** One refused item among good ones refuses the whole list. */
  lemma {:induction false} CollectedRefused<T>(parsed: seq<Outcome<T>>, id: T -> string, key: T -> string, i: nat, n: nat)
    requires i < n <= |parsed| && parsed[i].Refused? && forall k :: 0 <= k < |parsed| ==> !parsed[k].Panicked?
    ensures Collected(parsed[..n], id, key) == Refused
  {
    CollectedNext(parsed, id, key, n);
    if i < n - 1 {
      CollectedRefused(parsed, id, key, i, n - 1);
    } else {
      NeverPanics(parsed, id, key, n - 1);
    }
  }

  lemma {:induction false} NeverPanics<T>(parsed: seq<Outcome<T>>, id: T -> string, key: T -> string, n: nat)
    requires n <= |parsed| && forall k :: 0 <= k < |parsed| ==> !parsed[k].Panicked?
    ensures !Collected(parsed[..n], id, key).Panicked?
  {
    if n > 0 {
      CollectedNext(parsed, id, key, n);
      NeverPanics(parsed, id, key, n - 1);
    }
  }

  lemma DevicesParsed(values: Values, s: HostSettings, order: seq<string>, lower: Lower)
    requires Says(values, s) && WellFormed(s, lower) && Fits(s) && ListsKeys(order, values)
    ensures var g := GroupsOf(values, order, DEVICE_PREFIX);
            && g.Done? && Ascending(g.value.Keys) == Upto(|s.devices|)
            && forall i :: 0 <= i < |s.devices| ==>
                 ParsedDevices(g.value, Upto(|s.devices|))[i] == if KeyFits(s.devices[i]) then Done(s.devices[i]) else Refused
  {
    DeviceGroups(values, s, order);
    AscendingUpto(|s.devices|);
    var g := GroupsOf(values, order, DEVICE_PREFIX).value;
    forall i | 0 <= i < |s.devices|
      ensures ParsedDevices(g, Upto(|s.devices|))[i] == if KeyFits(s.devices[i]) then Done(s.devices[i]) else Refused
    {
      assert ReadsAs(FieldsAt(g, i), s.devices[i]);
      DeviceRead(FieldsAt(g, i), s.devices[i]);
    }
  }

  lemma DevicesRead(values: Values, s: HostSettings, order: seq<string>, lower: Lower)
    requires Says(values, s) && WellFormed(s, lower) && Fits(s) && ListsKeys(order, values)
    ensures ParseDevices(values, order, lower) == if KeysFit(s) then Done(s.devices) else Refused
  {
    DevicesParsed(values, s, order, lower);
    DevicesCollected(ParsedDevices(GroupsOf(values, order, DEVICE_PREFIX).value, Upto(|s.devices|)), s.devices, lower);
  }

  lemma {:induction false} DevicesCollected(parsed: seq<Outcome<TrustedDevice>>, devices: seq<TrustedDevice>, lower: Lower)
    requires |parsed| == |devices| && Distinct(devices, IdKey) && SortedBy(devices, ByLabel(lower))
    requires forall i :: 0 <= i < |devices| ==> parsed[i] == if KeyFits(devices[i]) then Done(devices[i]) else Refused
    ensures Collected(parsed, IdKey, ByLabel(lower))
            == if forall i :: 0 <= i < |devices| ==> KeyFits(devices[i]) then Done(devices) else Refused
  {
    assert parsed[..|devices|] == parsed && devices[..|devices|] == devices;
    if i :| 0 <= i < |devices| && !KeyFits(devices[i]) {
      CollectedRefused(parsed, IdKey, ByLabel(lower), i, |devices|);
    } else {
      CollectedAll(parsed, devices, IdKey, ByLabel(lower), |devices|);
    }
  }

  lemma ValuesRead(values: Values, s: HostSettings, order: seq<string>, lower: Lower)
    requires Says(values, s) && WellFormed(s, lower) && Fits(s) && ListsKeys(order, values)
    ensures ParseValues(values, order, lower) == if KeysFit(s) then Done(AllClamped(s)) else Refused
  {
    OverrideRead(values, s);
    PresetsRead(values, s, order, lower);
    DevicesRead(values, s, order, lower);
  }

  lemma EntriesPlain(s: HostSettings, lower: Lower)
    requires WellFormed(s, lower) && Fits(s)
    ensures AllPlain(Entries(s))
  {
    forall e | e in Entries(s)
      ensures PlainEntry(e)
    {
      EntriesWanted(s, e);
      var section, f :| InRange(section) && Want(s, section, f) == Some(e.value) && e.key == KeyText(section, f);
      KeyPlain(section, f);
      WantPlain(s, lower, section, f);
    }
  }

  /** The order lists every key of the map that reading a text fills. */
  ghost predicate ListsFile(order: seq<string>, raw: string) {
    ParseLines(Lines(raw)).Done? ==> ListsKeys(order, ParseLines(Lines(raw)).value)
  }

  /** Normalized settings are read back as they were written, up to the encoder ranges that reading
      enforces, whatever the order of the hash map in between; unless a device key is longer than 4,096
      bytes, and then reading refuses the whole file. */
  lemma ReadsBackWritten(s: HostSettings, order: seq<string>, lower: Lower)
    requires WellFormed(s, lower) && Fits(s) && ListsFile(order, Serialize(s))
    ensures Parse(Serialize(s), order, lower) == if KeysFit(s) then Done(AllClamped(s)) else Refused
  {
    EntriesPlain(s, lower);
    SerializedValues(s);
    ValuesSay(s);
    ValuesRead(FromEntries(Entries(s)), s, order, lower);
  }

  predicate InRanges(c: EncoderConfig) {
    30 <= c.maxFps <= 120 && 4_000 <= c.targetBitrateKbps <= 120_000 && 250 <= c.keyframeIntervalMs <= 10_000
  }

  predicate AllInRanges(s: HostSettings) {
    && (s.encoderOverride.Some? ==> InRanges(s.encoderOverride.value))
    && forall i :: 0 <= i < |s.presets| ==> InRanges(s.presets[i].config)
  }

  lemma ClampedIfInRanges(s: HostSettings)
    ensures AllClamped(s) == s <==> AllInRanges(s)
  {
    var t := AllClamped(s);
    forall i | 0 <= i < |s.presets|
      ensures t.presets[i] == s.presets[i] <==> InRanges(s.presets[i].config)
    {
    }
    assert t == s <==> t.encoderOverride == s.encoderOverride && t.presets == s.presets;
  }

  /** So normalized settings come back unchanged exactly when every encoder field is in its range and
      every device key fits. */
  lemma RoundTripExact(s: HostSettings, order: seq<string>, lower: Lower)
    requires WellFormed(s, lower) && Fits(s) && ListsFile(order, Serialize(s))
    ensures Parse(Serialize(s), order, lower) == Done(s) <==> AllInRanges(s) && KeysFit(s)
  {
    ReadsBackWritten(s, order, lower);
    ClampedIfInRanges(s);
  }

  lemma ShortNameStable(name: string, max: nat)
    requires name != "" && |name| <= max && forall i :: 0 <= i < |name| ==> IsNameChar(name[i])
    ensures NormalizeName(name, max) == Some(name)
  {
    AsciiSize(name);
    TrimTrims(name);
  }

  /** At such an input: a device whose key takes 4,097 bytes is written, and the file is refused. */
  lemma LongKeyRefused(key: seq<byte>, order: seq<string>, lower: Lower)
    requires |key| == 4097
    requires var d := TrustedDevice("a", "b", "c", None, Some(key), 0, ALL_PERMITTED);
             ListsFile(order, Serialize(HostSettings(None, [], [d])))
    ensures var d := TrustedDevice("a", "b", "c", None, Some(key), 0, ALL_PERMITTED);
            Parse(Serialize(HostSettings(None, [], [d])), order, lower) == Refused
  {
    var d := TrustedDevice("a", "b", "c", None, Some(key), 0, ALL_PERMITTED);
    ShortNameStable(d.id, MAX_DEVICE_ID);
    ShortLabelStable(d.name);
    ShortLabelStable(d.lastPeer);
    var s := HostSettings(None, [], [d]);
    assert !KeyFits(s.devices[0]);
    ReadsBackWritten(s, order, lower);
  }

  // ---------------------------------------------------------------------------------------------
  // Whatever is read is normalized
  // ---------------------------------------------------------------------------------------------

  lemma NameStable(text: string, max: nat)
    ensures NormalizeName(text, max).Some? ==> NormalizeName(NormalizeName(text, max).value, max) == NormalizeName(text, max)
  {
    TrimTrims(text);
    TrimTrims(Trim(text));
  }

  lemma {:induction false} TrimmedSize(s: string)
    ensures Utf8Size(Trim(s)) <= Utf8Size(s)
  {
    TrimStartSize(s);
    TrimEndEnds(TrimStart(s));
    assert Trim(s) == TrimStart(s)[..|Trim(s)|];
    Utf8SizePrefix(TrimStart(s), |Trim(s)|);
  }

  lemma {:induction false} TrimStartSize(s: string)
    ensures Utf8Size(TrimStart(s)) <= Utf8Size(s)
  {
    if s != "" && IsWhitespace(s[0]) {
      TrimStartSize(s[1..]);
    }
  }

  predicate Printable(s: string) {
    forall i :: 0 <= i < |s| ==> 0x20 <= s[i] as int < 0x80
  }

  lemma ShortLabelStable(s: string)
    requires Printable(s) && s != "" && Trimmed(s) && |s| <= MAX_LABEL
    ensures NormalizeLabel(s) == Done(s)
  {
    assert Spaced(s) == s;
    AsciiSize(s);
    TrimTrims(s);
  }

  lemma UnknownDevicePrintable()
    ensures Printable(UNKNOWN_DEVICE) && Trimmed(UNKNOWN_DEVICE)
  {
  }

  lemma UnknownDeviceStable()
    ensures NormalizeLabel(UNKNOWN_DEVICE) == Done(UNKNOWN_DEVICE)
  {
    UnknownDevicePrintable();
    ShortLabelStable(UNKNOWN_DEVICE);
  }

  lemma {:induction false} AsciiSize(s: string)
    requires forall i :: 0 <= i < |s| ==> s[i] as int < 0x80
    ensures Utf8Size(s) == |s|
  {
    if s != "" {
      AsciiSize(s[1..]);
    }
  }

  lemma TruncatedSize(s: string, n: nat)
    ensures Truncated(s, n).Some? ==> Utf8Size(Truncated(s, n).value) <= n
  {
    PrefixExact(s, n);
  }

  /** A normalized label is its own normal form. */
  lemma LabelStable(text: string, name: string)
    requires NormalizeLabel(text) == Done(name)
    ensures NormalizeLabel(name) == Done(name)
  {
    var cut := Truncated(Spaced(text), MAX_LABEL).value;
    if Trim(cut) == "" {
      UnknownDeviceStable();
    } else {
      LabelPlain(text, name);
      assert Spaced(name) == name;
      TruncatedSize(Spaced(text), MAX_LABEL);
      TrimmedSize(cut);
      TrimTrims(name);
    }
  }

  /** Normalizing a label panics exactly when it is longer than 80 bytes and no character ends at
      byte 80. */
  lemma LabelPanics(text: string)
    ensures NormalizeLabel(text) == Panicked
            <==> Utf8Size(text) > MAX_LABEL && forall k :: 0 <= k <= |text| ==> Utf8Size(text[..k]) != MAX_LABEL
  {
    SpacedSize(text);
    PrefixExact(Spaced(text), MAX_LABEL);
    forall k | 0 <= k <= |text|
      ensures Utf8Size(Spaced(text)[..k]) == Utf8Size(text[..k])
    {
      assert Spaced(text)[..k] == Spaced(text[..k]);
      SpacedSize(text[..k]);
    }
  }

  /** At such an input: 79 letters and one character of two bytes. */
  lemma LongLabelPanics()
    ensures NormalizeLabel(seq(79, _ => 'a') + "\U{00E9}") == Panicked
  {
    var letters := seq(79, _ => 'a');
    var text := letters + "\U{00E9}";
    SizeAppend(letters, "\U{00E9}");
    AsciiSize(letters);
    assert "\U{00E9}"[1..] == "";
    assert Utf8Size("\U{00E9}") == 2;
    forall k | 0 <= k <= |text|
      ensures Utf8Size(text[..k]) != MAX_LABEL
    {
      if k <= 79 {
        assert text[..k] == letters[..k];
        AsciiSize(letters[..k]);
      } else {
        assert text[..k] == text;
      }
    }
    LabelPanics(text);
  }

  lemma {:induction false} SizeAppend(a: string, b: string)
    ensures Utf8Size(a + b) == Utf8Size(a) + Utf8Size(b)
  {
    if a == "" {
      assert a + b == b;
    } else {
      assert (a + b)[1..] == a[1..] + b;
      SizeAppend(a[1..], b);
    }
  }

  lemma {:induction false} SpacedSize(s: string)
    ensures Utf8Size(Spaced(s)) == Utf8Size(s)
  {
    if s != "" {
      assert Spaced(s)[1..] == Spaced(s[1..]);
      SpacedSize(s[1..]);
    }
  }

  lemma LowerStable(s: string)
    requires forall i :: 0 <= i < |AsciiLower(s)| ==> IsHexLower(AsciiLower(s)[i])
    ensures Trim(AsciiLower(s)) == AsciiLower(s) && AsciiLower(AsciiLower(s)) == AsciiLower(s)
  {
    HexTrimmed(AsciiLower(s));
  }

  lemma FingerprintStable(text: string)
    ensures NormalizeFingerprint(text).Some? ==> NormalizeFingerprint(NormalizeFingerprint(text).value) == NormalizeFingerprint(text)
  {
    if NormalizeFingerprint(text).Some? {
      LowerStable(Trim(text));
    }
  }

  lemma {:induction false} FromHexSize(s: string)
    requires |s| % 2 == 0 && FromHex(s).Some?
    ensures 2 * |FromHex(s).value| == |s|
  {
    if s != "" {
      FromHexSize(s[..|s| - 2]);
    }
  }

  lemma DerBounded(fields: Values)
    ensures ParseDer(fields).Done? && ParseDer(fields).value.Some? ==> |ParseDer(fields).value.value| <= 4096
  {
    if ParseDer(fields).Done? && ParseDer(fields).value.Some? {
      FromHexSize(Trim(Get(fields, "", PublicKeyHex).value));
    }
  }

  lemma IdentityNormal(fields: Values)
    requires ParseIdentity(fields).Done?
    ensures var d := ParseIdentity(fields).value;
            && NormalizeName(d.id, MAX_DEVICE_ID) == Some(d.id)
            && NormalizeLabel(d.name) == Done(d.name) && NormalizeLabel(d.lastPeer) == Done(d.lastPeer)
  {
    var d := ParseIdentity(fields).value;
    NameStable(Get(fields, "", DeviceId).value, MAX_DEVICE_ID);
    LabelStable(Get(fields, "", Label).value, d.name);
    LabelStable(Get(fields, "", LastPeer).value, d.lastPeer);
  }

  lemma OptionalFingerprintNormal(text: Option<string>)
    ensures OptionalFingerprint(text).Done? && OptionalFingerprint(text).value.Some? ==>
              NormalizeFingerprint(OptionalFingerprint(text).value.value) == OptionalFingerprint(text).value
  {
    if text.Some? {
      FingerprintStable(text.value);
    }
  }

  lemma DeviceParts(fields: Values)
    requires ParseDevice(fields).Done?
    ensures var d := ParseDevice(fields).value;
            && ParseIdentity(fields).Done?
            && d.id == ParseIdentity(fields).value.id && d.name == ParseIdentity(fields).value.name && d.lastPeer == ParseIdentity(fields).value.lastPeer
            && OptionalFingerprint(Get(fields, "", Fingerprint)) == Done(d.fingerprint)
            && ParseDer(fields) == Done(d.publicKeyDer)
  {
  }

  lemma ParsedDeviceOk(fields: Values)
    requires ParseDevice(fields).Done?
    ensures DeviceOk(ParseDevice(fields).value) && KeyFits(ParseDevice(fields).value)
  {
    DeviceParts(fields);
    IdentityNormal(fields);
    DerBounded(fields);
    OptionalFingerprintNormal(Get(fields, "", Fingerprint));
  }

  lemma ParsedPresetOk(fields: Values)
    requires ParsePreset(fields).Done?
    ensures PresetOk(ParsePreset(fields).value) && InRanges(ParsePreset(fields).value.config)
  {
    NameStable(Get(fields, "", PresetName).value, MAX_PRESET_NAME);
    ParsedConfigInRanges(fields, "");
  }

  lemma ParsedConfigInRanges(values: Values, prefix: string)
    ensures ParseConfig(values, prefix).Done? ==> InRanges(ParseConfig(values, prefix).value)
  {
  }

  /** Collected lists are sorted and distinct, and no longer than what was parsed. */
  lemma {:induction false} CollectedNormal<T>(parsed: seq<Outcome<T>>, id: T -> string, key: T -> string)
    requires Collected(parsed, id, key).Done?
    ensures var items := Collected(parsed, id, key).value;
            Distinct(items, id) && SortedBy(items, key) && |items| <= |parsed|
  {
    if parsed != [] {
      var rest := parsed[..|parsed| - 1];
      CollectedNormal(rest, id, key);
      var items, item := Collected(rest, id, key).value, parsed[|parsed| - 1].value;
      UpsertMeaning(items, item, id, key);
      UpsertSize(items, item, id, key);
    }
  }

  /** And hold only parsed items. */
  lemma {:induction false} CollectedFrom<T>(parsed: seq<Outcome<T>>, id: T -> string, key: T -> string, y: T)
    requires Collected(parsed, id, key).Done? && y in Collected(parsed, id, key).value
    ensures Done(y) in parsed
  {
    var rest := parsed[..|parsed| - 1];
    var items, item := Collected(rest, id, key).value, parsed[|parsed| - 1].value;
    CollectedNormal(rest, id, key);
    UpsertMeaning(items, item, id, key);
    assert parsed == rest + [parsed[|parsed| - 1]];
    if y != item {
      CollectedFrom(rest, id, key, y);
    }
  }

  lemma {:induction false} SortSize<T>(items: seq<T>, key: T -> string)
    ensures |SortByKey(items, key)| == |items|
  {
    if items != [] {
      SortSize(items[..|items| - 1], key);
    }
  }

  lemma UpsertSize<T>(items: seq<T>, item: T, id: T -> string, key: T -> string)
    ensures |items| <= |Upsert(items, item, id, key)| <= |items| + 1
  {
    SortSize(Placed(items, item, id), key);
  }

  lemma {:induction false} AscendingSize(s: set<nat>)
    ensures |Ascending(s)| == |s|
  {
    if s != {} {
      GreatestExists(s);
      var m :| m in s && forall k :: k in s ==> k <= m;
      AscendingSize(s - {m});
    }
  }

  lemma {:induction false} GroupIndicesFit(values: Values, order: seq<string>, prefix: string)
    requires GroupsOf(values, order, prefix).Done?
    ensures forall i :: i in GroupsOf(values, order, prefix).value ==> i <= U32_MAX
  {
    if order != [] {
      GroupIndicesFit(values, order[..|order| - 1], prefix);
      MatchFits(order[|order| - 1], prefix);
    }
  }

  lemma MatchFits(key: string, prefix: string)
    ensures MatchKey(key, prefix).InGroup? ==> MatchKey(key, prefix).index <= U32_MAX
  {
  }

  lemma GroupCount(values: Values, order: seq<string>, prefix: string)
    requires GroupsOf(values, order, prefix).Done?
    ensures |Ascending(GroupsOf(values, order, prefix).value.Keys)| <= U32_MAX + 1
  {
    var g := GroupsOf(values, order, prefix).value;
    GroupIndicesFit(values, order, prefix);
    SubsetCardinality(g.Keys, Indices(U32_MAX + 1));
    AscendingSize(g.Keys);
  }

  lemma PresetsNormal(values: Values, order: seq<string>, lower: Lower)
    requires ParsePresets(values, order, lower).Done?
    ensures var presets := ParsePresets(values, order, lower).value;
            && Distinct(presets, NameKey) && SortedBy(presets, ByName(lower)) && |presets| <= U32_MAX + 1
            && forall i :: 0 <= i < |presets| ==> PresetOk(presets[i]) && InRanges(presets[i].config)
  {
    var g := GroupsOf(values, order, PRESET_PREFIX).value;
    var parsed := ParsedPresets(g, Ascending(g.Keys));
    GroupCount(values, order, PRESET_PREFIX);
    CollectedNormal(parsed, NameKey, ByName(lower));
    var presets := ParsePresets(values, order, lower).value;
    forall i | 0 <= i < |presets|
      ensures PresetOk(presets[i]) && InRanges(presets[i].config)
    {
      CollectedFrom(parsed, NameKey, ByName(lower), presets[i]);
      var k :| 0 <= k < |parsed| && parsed[k] == Done(presets[i]);
      ParsedPresetOk(FieldsAt(g, Ascending(g.Keys)[k]));
    }
  }

  lemma DevicesNormal(values: Values, order: seq<string>, lower: Lower)
    requires ParseDevices(values, order, lower).Done?
    ensures var devices := ParseDevices(values, order, lower).value;
            && Distinct(devices, IdKey) && SortedBy(devices, ByLabel(lower)) && |devices| <= U32_MAX + 1
            && forall i :: 0 <= i < |devices| ==> DeviceOk(devices[i]) && KeyFits(devices[i])
  {
    var g := GroupsOf(values, order, DEVICE_PREFIX).value;
    var parsed := ParsedDevices(g, Ascending(g.Keys));
    GroupCount(values, order, DEVICE_PREFIX);
    CollectedNormal(parsed, IdKey, ByLabel(lower));
    var devices := ParseDevices(values, order, lower).value;
    forall i | 0 <= i < |devices|
      ensures DeviceOk(devices[i]) && KeyFits(devices[i])
    {
      CollectedFrom(parsed, IdKey, ByLabel(lower), devices[i]);
      var k :| 0 <= k < |parsed| && parsed[k] == Done(devices[i]);
      ParsedDeviceOk(FieldsAt(g, Ascending(g.Keys)[k]));
    }
  }

  /** Whatever text is read, however the hash map was ordered, the settings are normalized, in range
      and small enough to be written and read again. */
  lemma ParsedNormal(raw: string, order: seq<string>, lower: Lower)
    requires Parse(raw, order, lower).Done?
    ensures var s := Parse(raw, order, lower).value;
            WellFormed(s, lower) && Fits(s) && AllInRanges(s) && KeysFit(s)
  {
    var values := ParseLines(Lines(raw)).value;
    ParsedConfigInRanges(values, OVERRIDE_PREFIX);
    PresetsNormal(values, order, lower);
    DevicesNormal(values, order, lower);
  }

  /** So reading is stable: writing what was read and reading it again gives the same settings. */
  lemma ReadStable(raw: string, order: seq<string>, order': seq<string>, lower: Lower)
    requires Parse(raw, order, lower).Done?
    requires ListsFile(order', Serialize(Parse(raw, order, lower).value))
    ensures Parse(Serialize(Parse(raw, order, lower).value), order', lower) == Parse(raw, order, lower)
  {
    ParsedNormal(raw, order, lower);
    RoundTripExact(Parse(raw, order, lower).value, order', lower);
  }

  /** The device recorded on approval is normalized, but nothing bounds its key. */
  lemma ApprovedNowNormal(id: string, name: string, lastPeer: string, fingerprint: Option<string>, der: Option<seq<byte>>, now: u64)
    requires ApprovedNow(id, name, lastPeer, fingerprint, der, now).Done?
    ensures var d := ApprovedNow(id, name, lastPeer, fingerprint, der, now).value;
            DeviceOk(d) && d.publicKeyDer == der
  {
    var d := ApprovedNow(id, name, lastPeer, fingerprint, der, now).value;
    NameStable(id, MAX_DEVICE_ID);
    LabelStable(name, d.name);
    LabelStable(lastPeer, d.lastPeer);
    OptionalFingerprintNormal(fingerprint);
  }
}
