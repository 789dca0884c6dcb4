/**
 What the store holds after any run of calls, item by item: what the last call that named the item left.
 */
module StoreLaws {
  import opened Wrappers
  import opened Text
  import opened SortedList
  import opened Settings
  import opened SettingsRoundTrip
  import opened SettingsStore

  /** The one device of that identity, or none. */
  predicate HasDevice(devices: seq<TrustedDevice>, id: string, d: Option<TrustedDevice>) {
    match d
    case None => forall x :: x in devices ==> AsciiLower(x.id) != id
    case Some(device) => AsciiLower(device.id) == id && device in devices && forall x :: x in devices && AsciiLower(x.id) == id ==> x == device
  }

  predicate HasPreset(s: HostSettings, name: string, p: Option<EncoderPreset>) {
    match p
    case None => forall x :: x in s.presets ==> AsciiLower(x.name) != name
    case Some(preset) => AsciiLower(preset.name) == name && preset in s.presets && forall x :: x in s.presets && AsciiLower(x.name) == name ==> x == preset
  }

  /** What reading makes of a configuration: each rate within its range. */
  function Ranged(c: EncoderConfig): EncoderConfig {
    c.(maxFps := if c.maxFps < 30 then 30 else if c.maxFps > 120 then 120 else c.maxFps,
       targetBitrateKbps := if c.targetBitrateKbps < 4_000 then 4_000 else if c.targetBitrateKbps > 120_000 then 120_000 else c.targetBitrateKbps,
       keyframeIntervalMs := if c.keyframeIntervalMs < 250 then 250 else if c.keyframeIntervalMs > 10_000 then 10_000 else c.keyframeIntervalMs)
  }

  // ---------------------------------------------------------------------------------------------
  // What the calls so far say of an item
  // ---------------------------------------------------------------------------------------------

  /** The identity a call names, if it is fit to be one. */
  function Named(text: string, max: nat): Option<string> {
    var normal := NormalizeName(text, max);
    if normal.Some? then Some(AsciiLower(normal.value)) else None
  }

  function LastDevice(calls: seq<StoreCall>, id: string): Option<TrustedDevice> {
    if calls == [] then None
    else
      var before := LastDevice(calls[..|calls| - 1], id);
      match calls[|calls| - 1].op
      case UpsertDevice(d) => if AsciiLower(d.id) == id then Some(d) else before
      case ForgetDevice(text) => if Named(text, 128) == Some(id) then None else before
      case ClearDevices => None
      case _ => before
  }

  function LastPreset(calls: seq<StoreCall>, name: string): Option<EncoderPreset> {
    if calls == [] then None
    else
      var before := LastPreset(calls[..|calls| - 1], name);
      match calls[|calls| - 1].op
      case SavePreset(text, config) => if Named(text, 64) == Some(name) then Some(EncoderPreset(NormalizeName(text, 64).value, Ranged(config))) else before
      case DeletePreset(text) => if Named(text, 64) == Some(name) then None else before
      case _ => before
  }

  function LastOverride(calls: seq<StoreCall>): Option<EncoderConfig> {
    if calls == [] then None
    else
      match calls[|calls| - 1].op
      case SaveOverride(config) => Some(Ranged(config))
      case ClearOverride => None
      case _ => LastOverride(calls[..|calls| - 1])
  }

  // ---------------------------------------------------------------------------------------------
  // One call
  // ---------------------------------------------------------------------------------------------

  lemma ClampedInRange(c: EncoderConfig)
    ensures Clamped(c) == Ranged(c)
    ensures InRanges(c) ==> Ranged(c) == c
  {
  }

  lemma UpsertedDevice(devices: seq<TrustedDevice>, d: TrustedDevice, id: string, was: Option<TrustedDevice>, lower: Lower)
    requires Distinct(devices, IdKey) && HasDevice(devices, id, was)
    ensures HasDevice(Upsert(devices, d, IdKey, ByLabel(lower)), id, if AsciiLower(d.id) == id then Some(d) else was)
  {
    UpsertMeaning(devices, d, IdKey, ByLabel(lower));
  }

  lemma ForgottenDevice(devices: seq<TrustedDevice>, gone: string, id: string, was: Option<TrustedDevice>, lower: Lower)
    requires Distinct(devices, IdKey) && SortedBy(devices, ByLabel(lower)) && HasDevice(devices, id, was)
    ensures HasDevice(Without(devices, IdKey, gone), id, if gone == id then None else was)
  {
    WithoutMeaning(devices, IdKey, ByLabel(lower), gone);
  }

  lemma UpsertedPreset(s: HostSettings, p: EncoderPreset, name: string, was: Option<EncoderPreset>, lower: Lower)
    requires WellFormed(s, lower) && HasPreset(s, name, was)
    ensures HasPreset(s.(presets := Upsert(s.presets, p, NameKey, ByName(lower))), name, if AsciiLower(p.name) == name then Some(p) else was)
  {
    UpsertMeaning(s.presets, p, NameKey, ByName(lower));
  }

  lemma DeletedPreset(s: HostSettings, gone: string, name: string, was: Option<EncoderPreset>, lower: Lower)
    requires WellFormed(s, lower) && HasPreset(s, name, was)
    ensures HasPreset(s.(presets := Without(s.presets, NameKey, gone)), name, if gone == name then None else was)
  {
    WithoutMeaning(s.presets, NameKey, ByName(lower), gone);
  }

  /** Reading back brings the configuration of every preset into its ranges. */
  lemma RangedPreset(s: HostSettings, name: string, p: Option<EncoderPreset>)
    requires HasPreset(s, name, p)
    ensures HasPreset(AllClamped(s), name, if p.Some? then Some(p.value.(config := Ranged(p.value.config))) else None)
  {
    var r := AllClamped(s);
    if p.Some? {
      var i :| 0 <= i < |s.presets| && s.presets[i] == p.value;
      ClampedInRange(p.value.config);
      assert r.presets[i] == p.value.(config := Ranged(p.value.config));
    }
    forall x | x in r.presets && AsciiLower(x.name) == name
      ensures p.Some? && x == p.value.(config := Ranged(p.value.config))
    {
      var k :| 0 <= k < |r.presets| && r.presets[k] == x;
      assert s.presets[k] in s.presets;
      ClampedInRange(s.presets[k].config);
    }
  }

  lemma RangedAlready(s: HostSettings, name: string, p: Option<EncoderPreset>)
    requires AllInRanges(s) && HasPreset(s, name, p) && p.Some?
    ensures Ranged(p.value.config) == p.value.config
  {
    var i :| 0 <= i < |s.presets| && s.presets[i] == p.value;
    ClampedInRange(s.presets[i].config);
  }

  lemma DevicesAfter(s: HostSettings, op: StoreOp, lower: Lower)
    ensures MemoryAfter(s, op, lower).devices
            == match op
               case UpsertDevice(d) => Upsert(s.devices, d, IdKey, ByLabel(lower))
               case ForgetDevice(text) => if Named(text, 128).Some? then Without(s.devices, IdKey, Named(text, 128).value) else s.devices
               case ClearDevices => []
               case _ => s.devices
  {
  }

  lemma DeviceCall(calls: seq<StoreCall>, s: HostSettings, call: StoreCall, id: string, lower: Lower)
    requires WellFormed(s, lower) && HasDevice(s.devices, id, LastDevice(calls, id))
    ensures HasDevice(MemoryAfter(s, call.op, lower).devices, id, LastDevice(calls + [call], id))
  {
    assert (calls + [call])[..|calls|] == calls;
    DevicesAfter(s, call.op, lower);
    match call.op {
      case UpsertDevice(d) => UpsertedDevice(s.devices, d, id, LastDevice(calls, id), lower);
      case ForgetDevice(text) =>
        if Named(text, 128).Some? {
          ForgottenDevice(s.devices, Named(text, 128).value, id, LastDevice(calls, id), lower);
        }
      case _ =>
    }
  }

  lemma SaveCall(s: HostSettings, text: string, config: EncoderConfig, name: string, was: Option<EncoderPreset>, lower: Lower)
    requires WellFormed(s, lower) && HasPreset(s, name, was) && Named(text, 64).Some?
    requires was.Some? ==> Ranged(was.value.config) == was.value.config
    ensures HasPreset(MemoryAfter(s, SavePreset(text, config), lower), name,
                      if Named(text, 64) == Some(name) then Some(EncoderPreset(NormalizeName(text, 64).value, Ranged(config))) else was)
  {
    var p := EncoderPreset(NormalizeName(text, 64).value, config);
    UpsertedPreset(s, p, name, was, lower);
    RangedPreset(Applied(s, SavePreset(text, config), lower).value, name, if AsciiLower(p.name) == name then Some(p) else was);
  }

  lemma DeleteCall(s: HostSettings, text: string, name: string, was: Option<EncoderPreset>, lower: Lower)
    requires WellFormed(s, lower) && HasPreset(s, name, was) && Named(text, 64).Some?
    requires was.Some? ==> Ranged(was.value.config) == was.value.config
    ensures HasPreset(MemoryAfter(s, DeletePreset(text), lower), name, if Named(text, 64) == Some(name) then None else was)
  {
    var gone := Named(text, 64).value;
    DeletedPreset(s, gone, name, was, lower);
    RangedPreset(Applied(s, DeletePreset(text), lower).value, name, if gone == name then None else was);
  }

  lemma OtherCall(s: HostSettings, op: StoreOp, name: string, was: Option<EncoderPreset>, lower: Lower)
    requires HasPreset(s, name, was) && (was.Some? ==> Ranged(was.value.config) == was.value.config)
    requires (op.SavePreset? || op.DeletePreset?) ==> Named(op.name, 64).None?
    ensures HasPreset(MemoryAfter(s, op, lower), name, was)
  {
    if Applied(s, op, lower).Done? {
      RangedPreset(Applied(s, op, lower).value, name, was);
    }
  }

  lemma PresetCall(calls: seq<StoreCall>, s: HostSettings, call: StoreCall, name: string, lower: Lower)
    requires WellFormed(s, lower) && AllInRanges(s) && HasPreset(s, name, LastPreset(calls, name))
    ensures HasPreset(MemoryAfter(s, call.op, lower), name, LastPreset(calls + [call], name))
  {
    var was := LastPreset(calls, name);
    assert (calls + [call])[..|calls|] == calls;
    if was.Some? {
      RangedAlready(s, name, was);
    }
    if call.op.SavePreset? && Named(call.op.name, 64).Some? {
      SaveCall(s, call.op.name, call.op.config, name, was, lower);
    } else if call.op.DeletePreset? && Named(call.op.name, 64).Some? {
      DeleteCall(s, call.op.name, name, was, lower);
    } else {
      OtherCall(s, call.op, name, was, lower);
    }
  }

  lemma OverrideCall(calls: seq<StoreCall>, s: HostSettings, call: StoreCall, lower: Lower)
    requires AllInRanges(s) && s.encoderOverride == LastOverride(calls)
    ensures MemoryAfter(s, call.op, lower).encoderOverride == LastOverride(calls + [call])
  {
    assert (calls + [call])[..|calls|] == calls;
    if s.encoderOverride.Some? {
      ClampedInRange(s.encoderOverride.value);
    }
    if call.op.SaveOverride? {
      ClampedInRange(call.op.config);
    }
  }

  // ---------------------------------------------------------------------------------------------
  // Runs
  // ---------------------------------------------------------------------------------------------

  /** The settings hold of each item what the calls left. */
  predicate Leaves(calls: seq<StoreCall>, s: HostSettings, id: string, name: string) {
    && HasDevice(s.devices, id, LastDevice(calls, id)) && HasPreset(s, name, LastPreset(calls, name))
    && s.encoderOverride == LastOverride(calls)
  }

  lemma CallLeaves(calls: seq<StoreCall>, s: HostSettings, call: StoreCall, id: string, name: string, lower: Lower)
    requires WellFormed(s, lower) && AllInRanges(s) && Leaves(calls, s, id, name)
    ensures Leaves(calls + [call], MemoryAfter(s, call.op, lower), id, name)
  {
    DeviceCall(calls, s, call, id, lower);
    PresetCall(calls, s, call, name, lower);
    OverrideCall(calls, s, call, lower);
  }

  ghost predicate AllOk(calls: seq<StoreCall>, lower: Lower) {
    forall n :: 0 <= n < |calls| ==> CallOk(calls, n, lower)
  }

  lemma CallsBefore(calls: seq<StoreCall>, m: nat, lower: Lower)
    requires m <= |calls| && AllOk(calls, lower)
    ensures AllOk(calls[..m], lower)
  {
    var rest := calls[..m];
    forall k | 0 <= k < |rest|
      ensures CallOk(rest, k, lower)
    {
      assert CallOk(calls, k, lower);
      assert rest[..k] == calls[..k];
    }
  }

  lemma RunNext(rest: seq<StoreCall>, last: StoreCall, lower: Lower)
    ensures MemoryRun(rest + [last], lower) == MemoryAfter(MemoryRun(rest, lower), last.op, lower)
  {
    assert (rest + [last])[..|rest|] == rest;
  }

  lemma MemoryNormal(calls: seq<StoreCall>, lower: Lower)
    requires AllOk(calls, lower)
    ensures WellFormed(MemoryRun(calls, lower), lower) && AllInRanges(MemoryRun(calls, lower))
  {
    StoreRefinesMemory(calls, lower);
  }

  lemma LeavesNext(rest: seq<StoreCall>, last: StoreCall, id: string, name: string, lower: Lower)
    requires AllOk(rest, lower) && Leaves(rest, MemoryRun(rest, lower), id, name)
    ensures Leaves(rest + [last], MemoryRun(rest + [last], lower), id, name)
  {
    MemoryNormal(rest, lower);
    CallLeaves(rest, MemoryRun(rest, lower), last, id, name, lower);
    RunNext(rest, last, lower);
  }

  lemma {:induction false} MemoryLeaves(calls: seq<StoreCall>, id: string, name: string, lower: Lower)
    requires AllOk(calls, lower)
    ensures Leaves(calls, MemoryRun(calls, lower), id, name)
  {
    if calls != [] {
      var rest, last := calls[..|calls| - 1], calls[|calls| - 1];
      CallsBefore(calls, |calls| - 1, lower);
      MemoryLeaves(rest, id, name, lower);
      LeavesNext(rest, last, id, name, lower);
      assert calls == rest + [last];
    }
  }

  /** Over every run from no file at all: the file reads, whatever the hash order, as settings that hold of
      each device, each preset and the override exactly what the last call that named it left. */
  lemma RunLeaves(calls: seq<StoreCall>, id: string, name: string, lower: Lower)
    requires AllOk(calls, lower)
    ensures Stores(FileRun(calls, lower), MemoryRun(calls, lower), lower)
    ensures Leaves(calls, MemoryRun(calls, lower), id, name)
  {
    StoreRefinesMemory(calls, lower);
    MemoryLeaves(calls, id, name, lower);
  }
}
