/**
 What the order of the hash map decides when settings are read: nothing, unless two keys name the same
 field of the same item, as `trusted_device.0.label` and `trusted_device.00.label` do, with different
 values. Then the one listed last wins.
 */
module SettingsOrder {
  import opened Bytes
  import opened Wrappers
  import opened Text
  import opened Settings
  import opened SettingsRoundTrip
  import opened Finite

  /** An order in which a hash map may list its keys: each once. */
  ghost predicate Lists(order: seq<string>, values: Values) {
    && (forall key :: key in order <==> key in values)
    && (forall i, j :: 0 <= i < j < |order| ==> order[i] != order[j])
  }

  predicate BadIn(values: Values, prefix: string) {
    exists key :: key in values && MatchKey(key, prefix).BadKey?
  }

  /** Two keys under the prefix name the same field of the same item. */
  predicate SameField(key: string, key': string, prefix: string) {
    MatchKey(key, prefix).InGroup? && MatchKey(key', prefix) == MatchKey(key, prefix)
  }

  /** No other key gives the field of this one another value. */
  ghost predicate Alone(values: Values, prefix: string, key: string)
    requires key in values
  {
    forall key' :: key' in values && SameField(key, key', prefix) ==> values[key'] == values[key]
  }

  /** No two keys give one field different values. */
  ghost predicate Settled(values: Values, prefix: string) {
    forall key :: key in values ==> Alone(values, prefix, key)
  }

  // ---------------------------------------------------------------------------------------------
  // What the groups hold
  // ---------------------------------------------------------------------------------------------

  /** Grouping fails exactly when it comes to a bad key. */
  lemma {:induction false} GroupsDone(values: Values, order: seq<string>, prefix: string)
    ensures GroupsOf(values, order, prefix) == Refused || GroupsOf(values, order, prefix).Done?
    ensures GroupsOf(values, order, prefix).Done? <==> forall key :: key in order && key in values ==> !MatchKey(key, prefix).BadKey?
  {
    if order != [] {
      var prior, last := order[..|order| - 1], order[|order| - 1];
      GroupsDone(values, prior, prefix);
      assert order == prior + [last];
    }
  }

  /** The field a key names holds a value of a key that names it: its own, when it is alone. */
  lemma {:induction false} FieldHeld(values: Values, order: seq<string>, prefix: string, key: string)
    requires GroupsOf(values, order, prefix).Done? && key in order && key in values && MatchKey(key, prefix).InGroup?
    ensures var g, m := GroupsOf(values, order, prefix).value, MatchKey(key, prefix);
            && m.index in g && m.field in g[m.index]
            && (Alone(values, prefix, key) ==> g[m.index][m.field] == values[key])
  {
    var prior, last := order[..|order| - 1], order[|order| - 1];
    assert order == prior + [last];
    if key in prior {
      FieldHeld(values, prior, prefix, key);
      assert last in values && SameField(key, last, prefix) && Alone(values, prefix, key) ==> values[last] == values[key];
    }
  }

  /** The key listed last wins. */
  lemma LastWins(values: Values, prior: seq<string>, key: string, prefix: string)
    requires GroupsOf(values, prior + [key], prefix).Done? && key in values && MatchKey(key, prefix).InGroup?
    ensures var g, m := GroupsOf(values, prior + [key], prefix).value, MatchKey(key, prefix);
            m.index in g && m.field in g[m.index] && g[m.index][m.field] == values[key]
  {
    assert (prior + [key])[..|prior|] == prior;
  }

  /** Every field held comes from a key that names it, and no group is empty. */
  lemma {:induction false} FieldFrom(values: Values, order: seq<string>, prefix: string, i: nat)
    requires GroupsOf(values, order, prefix).Done? && i in GroupsOf(values, order, prefix).value
    ensures GroupsOf(values, order, prefix).value[i] != map[]
    ensures forall name :: name in GroupsOf(values, order, prefix).value[i] ==>
              exists key :: key in order && key in values && MatchKey(key, prefix) == InGroup(i, name)
  {
    var prior, last := order[..|order| - 1], order[|order| - 1];
    var g, g' := GroupsOf(values, prior, prefix).value, GroupsOf(values, order, prefix).value;
    assert order == prior + [last];
    if i in g {
      FieldFrom(values, prior, prefix, i);
    }
    forall name | name in g'[i]
      ensures exists key :: key in order && key in values && MatchKey(key, prefix) == InGroup(i, name)
    {
      if i in g && name in g[i] {
        var key :| key in prior && key in values && MatchKey(key, prefix) == InGroup(i, name);
        assert key in order;
      } else {
        assert last in order;
      }
    }
  }

  // ---------------------------------------------------------------------------------------------
  // When the order makes no difference
  // ---------------------------------------------------------------------------------------------

  lemma GroupWithin(values: Values, order: seq<string>, order': seq<string>, prefix: string, i: nat)
    requires Lists(order, values) && Lists(order', values) && Settled(values, prefix)
    requires GroupsOf(values, order, prefix).Done? && GroupsOf(values, order', prefix).Done?
    requires i in GroupsOf(values, order, prefix).value
    ensures var g, g' := GroupsOf(values, order, prefix).value, GroupsOf(values, order', prefix).value;
            i in g' && forall name :: name in g[i] ==> name in g'[i] && g'[i][name] == g[i][name]
  {
    var g, g' := GroupsOf(values, order, prefix).value, GroupsOf(values, order', prefix).value;
    FieldFrom(values, order, prefix, i);
    forall name | name in g[i]
      ensures i in g' && name in g'[i] && g'[i][name] == g[i][name]
    {
      var key :| key in order && key in values && MatchKey(key, prefix) == InGroup(i, name);
      FieldHeld(values, order, prefix, key);
      FieldHeld(values, order', prefix, key);
    }
    var name :| name in g[i];
  }

  lemma GroupsAlike(values: Values, order: seq<string>, order': seq<string>, prefix: string)
    requires Lists(order, values) && Lists(order', values) && (BadIn(values, prefix) || Settled(values, prefix))
    ensures GroupsOf(values, order, prefix) == GroupsOf(values, order', prefix)
  {
    GroupsDone(values, order, prefix);
    GroupsDone(values, order', prefix);
    if !BadIn(values, prefix) {
      var g, g' := GroupsOf(values, order, prefix).value, GroupsOf(values, order', prefix).value;
      forall i: nat
        ensures i in g <==> i in g'
        ensures i in g ==> g[i] == g'[i]
      {
        if i in g {
          GroupWithin(values, order, order', prefix, i);
        }
        if i in g' {
          GroupWithin(values, order', order, prefix, i);
        }
      }
      assert g == g';
    }
  }

  lemma {:induction false} Listing(keys: set<string>) returns (order: seq<string>)
    ensures forall key :: key in order <==> key in keys
    ensures forall i, j :: 0 <= i < j < |order| ==> order[i] != order[j]
  {
    if keys == {} {
      order := [];
    } else {
      var key :| key in keys;
      var rest := Listing(keys - {key});
      order := rest + [key];
    }
  }

  /** An order that lists this key last. */
  lemma ListingLast(values: Values, key: string) returns (prior: seq<string>)
    requires key in values
    ensures Lists(prior + [key], values)
  {
    prior := Listing(values.Keys - {key});
  }

  /** Two keys that give one field different values: the one listed last wins. */
  lemma ClashTells(values: Values, prefix: string, key: string, key': string) returns (order: seq<string>, order': seq<string>)
    requires !BadIn(values, prefix) && key in values && key' in values
    requires SameField(key, key', prefix) && values[key'] != values[key]
    ensures Lists(order, values) && Lists(order', values)
    ensures GroupsOf(values, order, prefix) != GroupsOf(values, order', prefix)
  {
    var prior := ListingLast(values, key);
    var prior' := ListingLast(values, key');
    order, order' := prior + [key], prior' + [key'];
    GroupsDone(values, order, prefix);
    GroupsDone(values, order', prefix);
    LastWins(values, prior, key, prefix);
    LastWins(values, prior', key', prefix);
  }

  /** Whatever the order, the values under a prefix are grouped alike, exactly when grouping refuses a bad
      key, or no two keys give one field of one item different values. */
  lemma GroupsSettled(values: Values, prefix: string)
    ensures (forall order, order' :: Lists(order, values) && Lists(order', values) ==>
               GroupsOf(values, order, prefix) == GroupsOf(values, order', prefix))
            <==> BadIn(values, prefix) || Settled(values, prefix)
  {
    if BadIn(values, prefix) || Settled(values, prefix) {
      forall order, order' | Lists(order, values) && Lists(order', values)
        ensures GroupsOf(values, order, prefix) == GroupsOf(values, order', prefix)
      {
        GroupsAlike(values, order, order', prefix);
      }
    } else {
      var key :| key in values && !Alone(values, prefix, key);
      var key' :| key' in values && SameField(key, key', prefix) && values[key'] != values[key];
      var order, order' := ClashTells(values, prefix, key, key');
    }
  }

  /** No two keys give one field different values, or some key makes the whole file refused. */
  ghost predicate OrderFree(values: Values) {
    || BadIn(values, PRESET_PREFIX) || BadIn(values, DEVICE_PREFIX)
    || (Settled(values, PRESET_PREFIX) && Settled(values, DEVICE_PREFIX))
  }

  lemma PresetNeverPanics(fields: Values)
    ensures !ParsePreset(fields).Panicked?
  {
  }

  lemma PresetsNeverPanic(values: Values, order: seq<string>, lower: Lower)
    ensures !ParsePresets(values, order, lower).Panicked?
  {
    GroupsDone(values, order, PRESET_PREFIX);
    if GroupsOf(values, order, PRESET_PREFIX).Done? {
      var g := GroupsOf(values, order, PRESET_PREFIX).value;
      var parsed := ParsedPresets(g, Ascending(g.Keys));
      forall k | 0 <= k < |parsed|
        ensures !parsed[k].Panicked?
      {
        PresetNeverPanics(FieldsAt(g, Ascending(g.Keys)[k]));
      }
      NeverPanics(parsed, NameKey, ByName(lower), |parsed|);
      assert parsed[..|parsed|] == parsed;
    }
  }

  /** Then the settings that are read, or the refusal, or the panic, are the same for every order. */
  lemma OrderIrrelevant(raw: string, order: seq<string>, order': seq<string>, lower: Lower)
    requires ParseLines(Lines(raw)).Done? ==>
               var values := ParseLines(Lines(raw)).value; Lists(order, values) && Lists(order', values) && OrderFree(values)
    ensures Parse(raw, order, lower) == Parse(raw, order', lower)
  {
    if ParseLines(Lines(raw)).Done? {
      var values := ParseLines(Lines(raw)).value;
      if Settled(values, PRESET_PREFIX) && Settled(values, DEVICE_PREFIX) {
        GroupsAlike(values, order, order', PRESET_PREFIX);
        GroupsAlike(values, order, order', DEVICE_PREFIX);
      } else {
        BadRefused(values, order, lower);
        BadRefused(values, order', lower);
      }
    }
  }

  lemma BadRefused(values: Values, order: seq<string>, lower: Lower)
    requires Lists(order, values) && (BadIn(values, PRESET_PREFIX) || BadIn(values, DEVICE_PREFIX))
    ensures ParseValues(values, order, lower) == if ParseOverride(values).Panicked? then Panicked else Refused
  {
    GroupsDone(values, order, PRESET_PREFIX);
    GroupsDone(values, order, DEVICE_PREFIX);
    PresetsNeverPanic(values, order, lower);
  }

  // ---------------------------------------------------------------------------------------------
  // When the order makes a difference
  // ---------------------------------------------------------------------------------------------

  function Device(name: string): TrustedDevice {
    TrustedDevice("a", name, "c", None, None, 0, ALL_PERMITTED)
  }

  function OneDevice(name: string): HostSettings {
    HostSettings(None, [], [Device(name)])
  }

  function Again(name: string): Entry {
    Entry("trusted_device.00.label", name)
  }

  /** The settings of one device, and a line that names its label once more. */
  function TwiceNamed(): string {
    Serialize(OneDevice("b")) + EntryText(Again("x"))
  }

  lemma AgainMatches(name: string)
    ensures MatchKey(Again(name).key, DEVICE_PREFIX) == InGroup(0, "label")
    ensures !(PRESET_PREFIX <= Again(name).key) && !(OVERRIDE_PREFIX <= Again(name).key)
  {
    var key := Again(name).key;
    assert key == DEVICE_PREFIX + ("00" + ("." + "label"));
    assert key[|DEVICE_PREFIX|..] == "00" + ("." + "label");
    SplitAtFirst("00", '.', "label");
    assert DigitsValue("") == Some(0);
    assert "00"[..1] == "0" && "0"[..0] == "";
    assert DigitsValue("0") == Some(0);
    assert key[0] == 't' && PRESET_PREFIX[0] == 'e' && OVERRIDE_PREFIX[0] == 'e';
  }

  lemma AgainPlain()
    ensures PlainEntry(Again("x"))
  {
  }

  lemma DeviceFine(name: string)
    requires name == "b" || name == "x"
    ensures DeviceOk(Device(name)) && KeyFits(Device(name))
  {
    ShortNameStable("a", MAX_DEVICE_ID);
    ShortLabelStable(name);
    ShortLabelStable("c");
  }

  /** The values read: those of the settings, and one more. */
  lemma TwiceNamedValues(lower: Lower)
    ensures AllPlain(Entries(OneDevice("b")))
    ensures ParseLines(Lines(TwiceNamed())) == Done(FromEntries(Entries(OneDevice("b")) + [Again("x")]))
  {
    DeviceFine("b");
    EntriesPlain(OneDevice("b"), lower);
    AgainPlain();
    RenderedValues(Entries(OneDevice("b")) + [Again("x")]);
    SerializedMore(OneDevice("b"), Again("x"));
  }

  lemma SerializedMore(s: HostSettings, e: Entry)
    ensures Serialize(s) + EntryText(e) == HEADER + ("\n" + Render(Entries(s) + [e]))
  {
    var entries := Entries(s);
    assert (entries + [e])[..|entries|] == entries;
    Append(HEADER, "\n" + Render(entries), EntryText(e));
    Append("\n", Render(entries), EntryText(e));
  }

  function ReadTwice(): Values {
    FromEntries(Entries(OneDevice("b")) + [Again("x")])
  }

  lemma AgainNotCanonical(name: string)
    ensures !CanonicalKey(Again(name).key, DEVICE_PREFIX)
  {
    AgainMatches(name);
    assert |Decimal(0)| == 1;
    assert |IndexedKey(DEVICE_PREFIX, 0, "label")| == |Again(name).key| - 1;
  }

  lemma ReadTwiceIs()
    ensures var first := FromEntries(Entries(OneDevice("b")));
            Says(first, OneDevice("b")) && Again("x").key !in first && ReadTwice() == first[Again("x").key := "x"]
  {
    var entries, first := Entries(OneDevice("b")), FromEntries(Entries(OneDevice("b")));
    assert (entries + [Again("x")])[..|entries|] == entries;
    ValuesSay(OneDevice("b"));
    SaidCanonical(first, OneDevice("b"));
    AgainNotCanonical("x");
  }

  lemma DeviceKeyMatches(f: Field)
    ensures MatchKey(KeyText(DeviceSection(0), f), DEVICE_PREFIX) == InGroup(0, FieldName(f))
    ensures !(PRESET_PREFIX <= KeyText(DeviceSection(0), f)) && !(OVERRIDE_PREFIX <= KeyText(DeviceSection(0), f))
  {
    KeyHasPrefix(DeviceSection(0), f);
    SectionsApart(KeyText(DeviceSection(0), f));
    KeyIsIndexed(0, f);
    IndexedMatches(DEVICE_PREFIX, 0, FieldName(f));
  }

  /** Values that say of one device, and of nothing else. */
  lemma SaidOfDevice(values: Values, s: HostSettings, key: string) returns (f: Field)
    requires Says(values, s) && s.encoderOverride.None? && s.presets == [] && |s.devices| == 1 && key in values
    ensures key == KeyText(DeviceSection(0), f) && DeviceText(s.devices[0], f).Some?
  {
    var section: Section;
    section, f :| InRange(section) && key == KeyText(section, f);
    SaidWanted(values, s, section, f);
    OnlyDevice(s, section, f);
  }

  lemma SaidWanted(values: Values, s: HostSettings, section: Section, f: Field)
    requires Says(values, s) && InRange(section) && KeyText(section, f) in values
    ensures Want(s, section, f).Some?
  {
    assert Said(values, s, section, f);
  }

  lemma OnlyDevice(s: HostSettings, section: Section, f: Field)
    requires s.encoderOverride.None? && s.presets == [] && |s.devices| == 1 && Want(s, section, f).Some?
    ensures section == DeviceSection(0) && DeviceText(s.devices[0], f).Some?
  {
  }

  /** The key names that field of the one device: as it is written, or, the label, once more. */
  predicate Names(key: string, f: Field) {
    && MatchKey(key, DEVICE_PREFIX) == InGroup(0, FieldName(f))
    && !(PRESET_PREFIX <= key) && !(OVERRIDE_PREFIX <= key)
    && (f == Label || (key == KeyText(DeviceSection(0), f) && DeviceText(Device("b"), f).Some?))
  }

  lemma AgainNames()
    ensures Names(Again("x").key, Label)
  {
    AgainMatches("x");
  }

  lemma WrittenNames(f: Field)
    requires DeviceText(Device("b"), f).Some?
    ensures Names(KeyText(DeviceSection(0), f), f)
  {
    DeviceKeyMatches(f);
  }

  /** Every key read is of the one device. */
  lemma KeyOfDevice(key: string) returns (f: Field)
    requires key in ReadTwice()
    ensures Names(key, f)
  {
    if key == Again("x").key {
      AgainNames();
      f := Label;
    } else {
      f := KeyWritten(key);
      WrittenNames(f);
    }
  }

  lemma KeyWritten(key: string) returns (f: Field)
    requires key in ReadTwice() && key != Again("x").key
    ensures key == KeyText(DeviceSection(0), f) && DeviceText(Device("b"), f).Some?
  {
    ReadTwiceIs();
    f := SaidOfDevice(FromEntries(Entries(OneDevice("b"))), OneDevice("b"), key);
  }

  lemma SaidField(values: Values, s: HostSettings, f: Field)
    requires Says(values, s) && |s.devices| == 1 && DeviceText(s.devices[0], f).Some?
    ensures KeyText(DeviceSection(0), f) in values && DeviceText(s.devices[0], f) == Some(values[KeyText(DeviceSection(0), f)])
  {
    assert Said(values, s, DeviceSection(0), f);
  }

  lemma FieldReadTwice(f: Field)
    requires DeviceText(Device("b"), f).Some?
    ensures var key := KeyText(DeviceSection(0), f);
            key in ReadTwice() && DeviceText(Device("b"), f) == Some(ReadTwice()[key])
  {
    ReadTwiceIs();
    SaidField(FromEntries(Entries(OneDevice("b"))), OneDevice("b"), f);
  }

  /** Two keys read name the same field only when both name the label. */
  lemma OnlyLabelTwice(f: Field, key: string)
    requires DeviceText(Device("b"), f).Some? && f != Label && key in ReadTwice()
    requires SameField(KeyText(DeviceSection(0), f), key, DEVICE_PREFIX)
    ensures key == KeyText(DeviceSection(0), f)
  {
    DeviceKeyMatches(f);
    var g := KeyOfDevice(key);
    FieldNamesDiffer(f, g);
  }

  lemma FieldAlone(f: Field)
    requires DeviceText(Device("b"), f).Some? && f != Label
    ensures KeyText(DeviceSection(0), f) in ReadTwice() && Alone(ReadTwice(), DEVICE_PREFIX, KeyText(DeviceSection(0), f))
  {
    FieldReadTwice(f);
    forall key | key in ReadTwice() && SameField(KeyText(DeviceSection(0), f), key, DEVICE_PREFIX)
      ensures key == KeyText(DeviceSection(0), f)
    {
      OnlyLabelTwice(f, key);
    }
  }

  lemma FieldAbsent(order: seq<string>, f: Field)
    requires GroupsOf(ReadTwice(), order, DEVICE_PREFIX).Done? && 0 in GroupsOf(ReadTwice(), order, DEVICE_PREFIX).value
    requires DeviceText(Device("b"), f).None?
    ensures FieldName(f) !in GroupsOf(ReadTwice(), order, DEVICE_PREFIX).value[0]
  {
    if FieldName(f) in GroupsOf(ReadTwice(), order, DEVICE_PREFIX).value[0] {
      FieldFrom(ReadTwice(), order, DEVICE_PREFIX, 0);
      var key :| key in order && key in ReadTwice() && MatchKey(key, DEVICE_PREFIX) == InGroup(0, FieldName(f));
      var g := KeyOfDevice(key);
      FieldNamesDiffer(f, g);
    }
  }

  /** The group read from the one device, with that label. */
  lemma GroupField(order: seq<string>, name: string, f: Field)
    requires Lists(order, ReadTwice()) && GroupsOf(ReadTwice(), order, DEVICE_PREFIX).Done?
    requires var g := GroupsOf(ReadTwice(), order, DEVICE_PREFIX).value; 0 in g && "label" in g[0] && g[0]["label"] == name
    ensures Get(GroupsOf(ReadTwice(), order, DEVICE_PREFIX).value[0], "", f) == DeviceText(Device(name), f)
  {
    assert "" + FieldName(f) == FieldName(f);
    if DeviceText(Device("b"), f).None? {
      FieldAbsent(order, f);
    } else if f != Label {
      FieldAlone(f);
      FieldReadTwice(f);
      DeviceKeyMatches(f);
      FieldHeld(ReadTwice(), order, DEVICE_PREFIX, KeyText(DeviceSection(0), f));
    }
  }

  lemma GroupIndices(order: seq<string>)
    requires Lists(order, ReadTwice())
    ensures GroupsOf(ReadTwice(), order, PRESET_PREFIX) == Done(map[])
    ensures GroupsOf(ReadTwice(), order, DEVICE_PREFIX).Done?
    ensures forall i :: i in GroupsOf(ReadTwice(), order, DEVICE_PREFIX).value ==> i == 0
  {
    var values := ReadTwice();
    forall key | key in values
      ensures MatchKey(key, PRESET_PREFIX).Elsewhere? && MatchKey(key, DEVICE_PREFIX).InGroup? && MatchKey(key, DEVICE_PREFIX).index == 0
    {
      var f := KeyOfDevice(key);
    }
    GroupsDone(values, order, PRESET_PREFIX);
    GroupsDone(values, order, DEVICE_PREFIX);
    forall i | i in GroupsOf(values, order, PRESET_PREFIX).value
      ensures false
    {
      FieldFrom(values, order, PRESET_PREFIX, i);
      var name :| name in GroupsOf(values, order, PRESET_PREFIX).value[i];
    }
    forall i | i in GroupsOf(values, order, DEVICE_PREFIX).value
      ensures i == 0
    {
      FieldFrom(values, order, DEVICE_PREFIX, i);
      var name :| name in GroupsOf(values, order, DEVICE_PREFIX).value[i];
    }
  }

  lemma DevicesTwice(order: seq<string>, name: string, lower: Lower)
    requires Lists(order, ReadTwice()) && (name == "b" || name == "x")
    requires var g := GroupsOf(ReadTwice(), order, DEVICE_PREFIX);
             g.Done? && 0 in g.value && "label" in g.value[0] && g.value[0]["label"] == name
    ensures ParseDevices(ReadTwice(), order, lower) == Done([Device(name)])
  {
    var g := GroupsOf(ReadTwice(), order, DEVICE_PREFIX).value;
    GroupIndices(order);
    forall f
      ensures Get(g[0], "", f) == DeviceText(Device(name), f)
    {
      GroupField(order, name, f);
    }
    DeviceFine(name);
    DeviceRead(g[0], Device(name));
    OneCollected(g, name, lower);
  }

  lemma TwiceRead(order: seq<string>, name: string, lower: Lower)
    requires Lists(order, ReadTwice()) && ParseDevices(ReadTwice(), order, lower) == Done([Device(name)])
    ensures ParseValues(ReadTwice(), order, lower) == Done(OneDevice(name))
  {
    GroupIndices(order);
    NoOverride();
    NoneCollected(lower);
  }

  lemma NoOverride()
    ensures ParseOverride(ReadTwice()) == Done(None)
  {
    forall key | key in ReadTwice()
      ensures !(OVERRIDE_PREFIX <= key)
    {
      var f := KeyOfDevice(key);
    }
  }

  lemma OneCollected(g: Grouped, name: string, lower: Lower)
    requires g.Keys == {0} && ParseDevice(g[0]) == Done(Device(name)) && KeyFits(Device(name))
    ensures Collected(ParsedDevices(g, Ascending(g.Keys)), IdKey, ByLabel(lower)) == Done([Device(name)])
  {
    assert g.Keys == Indices(1);
    AscendingUpto(1);
    DevicesCollected(ParsedDevices(g, Upto(1)), [Device(name)], lower);
  }

  lemma NoneCollected(lower: Lower)
    ensures Collected(ParsedPresets(map[], Ascending({})), NameKey, ByName(lower)) == Done([])
  {
  }

  /** The order decides: this text reads as either of two settings. */
  lemma OrderDecides(lower: Lower) returns (order: seq<string>, order': seq<string>)
    ensures ParseLines(Lines(TwiceNamed())) == Done(ReadTwice()) && Lists(order, ReadTwice()) && Lists(order', ReadTwice())
    ensures Parse(TwiceNamed(), order, lower) == Done(OneDevice("b"))
    ensures Parse(TwiceNamed(), order', lower) == Done(OneDevice("x"))
  {
    TwiceNamedValues(lower);
    order := EndsWith(Label0(), "b");
    order' := EndsWith(Again("x").key, "x");
    DevicesTwice(order, "b", lower);
    DevicesTwice(order', "x", lower);
    TwiceRead(order, "b", lower);
    TwiceRead(order', "x", lower);
  }

  function Label0(): string {
    KeyText(DeviceSection(0), Label)
  }

  /** The two keys of the label, and what they give it. */
  lemma LabelReads(key: string, name: string)
    requires (key == Label0() && name == "b") || (key == Again("x").key && name == "x")
    ensures key in ReadTwice() && ReadTwice()[key] == name && MatchKey(key, DEVICE_PREFIX) == InGroup(0, "label")
  {
    if name == "b" {
      FieldReadTwice(Label);
      DeviceKeyMatches(Label);
    } else {
      ReadTwiceIs();
      AgainMatches("x");
    }
  }

  lemma EndsWith(key: string, name: string) returns (order: seq<string>)
    requires (key == Label0() && name == "b") || (key == Again("x").key && name == "x")
    ensures Lists(order, ReadTwice())
    ensures var g := GroupsOf(ReadTwice(), order, DEVICE_PREFIX);
            g.Done? && 0 in g.value && "label" in g.value[0] && g.value[0]["label"] == name
  {
    LabelReads(key, name);
    var prior := ListingLast(ReadTwice(), key);
    order := prior + [key];
    GroupIndices(order);
    LastWins(ReadTwice(), prior, key, DEVICE_PREFIX);
  }
}
