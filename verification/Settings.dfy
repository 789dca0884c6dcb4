/**
 The host settings file: what is stored, how it is written, and how it is read back. Parse errors carry
 no message here. The order in which a hash map lists its keys, and Unicode lower-casing, are
 parameters.
 */
module Settings {
  import opened Bytes
  import opened Wrappers
  import opened Text
  import opened SortedList
  import opened Media

  /** A call returns a value, refuses with a parse error, or panics. */
  datatype Outcome<+T> = Done(value: T) | Refused | Panicked
  {
    predicate IsFailure() {
      !Done?
    }

    function PropagateFailure<U>(): Outcome<U>
      requires IsFailure()
    {
      if Refused? then Refused else Panicked
    }

    function Extract(): T
      requires Done?
    {
      value
    }
  }

  function Need<T>(o: Option<T>): Outcome<T> {
    match o
    case None => Refused
    case Some(v) => Done(v)
  }

  const U32_MAX: nat := 0xFFFF_FFFF

  datatype EncoderConfig = EncoderConfig(
    displayId: u32,
    codec: VideoCodec,
    colorSpace: ColorSpace,
    width: u32,
    height: u32,
    maxFps: u16,
    targetBitrateKbps: u32,
    keyframeIntervalMs: u32,
    lowLatency: bool)

  datatype EncoderPreset = EncoderPreset(name: string, config: EncoderConfig)

  datatype DevicePermissions = DevicePermissions(allowPen: bool, allowTouch: bool, allowKeyboard: bool, allowMouse: bool, allowGamepad: bool)

  const ALL_PERMITTED: DevicePermissions := DevicePermissions(true, true, true, true, true)

  datatype TrustedDevice = TrustedDevice(
    id: string,
    name: string,
    lastPeer: string,
    fingerprint: Option<string>,
    publicKeyDer: Option<seq<byte>>,
    approvedUnixMs: u64,
    permissions: DevicePermissions)

  datatype HostSettings = HostSettings(
    encoderOverride: Option<EncoderConfig>,
    presets: seq<EncoderPreset>,
    devices: seq<TrustedDevice>)

  const DEFAULT_SETTINGS: HostSettings := HostSettings(None, [], [])

  // ---------------------------------------------------------------------------------------------
  // Keys
  // ---------------------------------------------------------------------------------------------

  datatype Field =
    | PresetName | DisplayId | CodecName | ColorSpaceName | Width | Height | MaxFps | TargetBitrate | KeyframeInterval | LowLatency
    | DeviceId | Label | LastPeer | Fingerprint | PublicKeyHex | ApprovedMs | AllowPen | AllowTouch | AllowKeyboard | AllowMouse | AllowGamepad

  function FieldName(f: Field): string {
    match f
    case PresetName => "name"
    case DisplayId => "display_id"
    case CodecName => "codec"
    case ColorSpaceName => "color_space"
    case Width => "width"
    case Height => "height"
    case MaxFps => "max_fps"
    case TargetBitrate => "target_bitrate_kbps"
    case KeyframeInterval => "keyframe_interval_ms"
    case LowLatency => "low_latency"
    case DeviceId => "id"
    case Label => "label"
    case LastPeer => "last_peer"
    case Fingerprint => "public_key_fingerprint"
    case PublicKeyHex => "public_key_der_hex"
    case ApprovedMs => "approved_unix_ms"
    case AllowPen => "allow_pen"
    case AllowTouch => "allow_touch"
    case AllowKeyboard => "allow_keyboard"
    case AllowMouse => "allow_mouse"
    case AllowGamepad => "allow_gamepad"
  }

  datatype Section = OverrideSection | PresetSection(index: nat) | DeviceSection(index: nat)

  const OVERRIDE_PREFIX: string := "encoder."
  const PRESET_PREFIX: string := "encoder_preset."
  const DEVICE_PREFIX: string := "trusted_device."

  function SectionText(section: Section): string {
    match section
    case OverrideSection => OVERRIDE_PREFIX
    case PresetSection(i) => PRESET_PREFIX + (Decimal(i) + ".")
    case DeviceSection(i) => DEVICE_PREFIX + (Decimal(i) + ".")
  }

  function KeyText(section: Section, f: Field): string {
    SectionText(section) + FieldName(f)
  }

  const CONFIG_FIELDS: seq<Field> := [DisplayId, CodecName, ColorSpaceName, Width, Height, MaxFps, TargetBitrate, KeyframeInterval, LowLatency]

  const DEVICE_FIELDS: seq<Field> := [DeviceId, Label, LastPeer, Fingerprint, PublicKeyHex, ApprovedMs, AllowPen, AllowTouch, AllowKeyboard, AllowMouse, AllowGamepad]

  // ---------------------------------------------------------------------------------------------
  // Values
  // ---------------------------------------------------------------------------------------------

  function BoolText(b: bool): string {
    if b then "true" else "false"
  }

  function ParseBool(s: string): Option<bool> {
    if s == "true" then Some(true) else if s == "false" then Some(false) else None
  }

  function CodecText(c: VideoCodec): string {
    match c
    case H264 => "H264"
    case H265 => "H265"
    case Av1 => "Av1"
  }

  function ParseCodec(s: string): Option<VideoCodec> {
    if s == "H264" then Some(H264)
    else if s == "H265" then Some(H265)
    else if s == "Av1" || s == "AV1" then Some(Av1)
    else None
  }

  function ColorSpaceText(c: ColorSpace): string {
    match c
    case Srgb => "Srgb"
    case DisplayP3 => "DisplayP3"
    case Rec709 => "Rec709"
    case Rec2020Pq => "Rec2020Pq"
  }

  function ParseColorSpace(s: string): Option<ColorSpace> {
    if s == "Srgb" || s == "sRGB" then Some(Srgb)
    else if s == "DisplayP3" then Some(DisplayP3)
    else if s == "Rec709" then Some(Rec709)
    else if s == "Rec2020Pq" then Some(Rec2020Pq)
    else None
  }

  /** The text a field has, if it is written. */
  function ConfigText(c: EncoderConfig, f: Field): Option<string> {
    match f
    case DisplayId => Some(Decimal(c.displayId))
    case CodecName => Some(CodecText(c.codec))
    case ColorSpaceName => Some(ColorSpaceText(c.colorSpace))
    case Width => Some(Decimal(c.width))
    case Height => Some(Decimal(c.height))
    case MaxFps => Some(Decimal(c.maxFps))
    case TargetBitrate => Some(Decimal(c.targetBitrateKbps))
    case KeyframeInterval => Some(Decimal(c.keyframeIntervalMs))
    case LowLatency => Some(BoolText(c.lowLatency))
    case _ => None
  }

  function PresetText(p: EncoderPreset, f: Field): Option<string> {
    if f == PresetName then Some(p.name) else ConfigText(p.config, f)
  }

  function DeviceText(d: TrustedDevice, f: Field): Option<string> {
    match f
    case DeviceId => Some(d.id)
    case Label => Some(d.name)
    case LastPeer => Some(d.lastPeer)
    case Fingerprint => d.fingerprint
    case PublicKeyHex => if d.publicKeyDer.Some? then Some(Hex(d.publicKeyDer.value)) else None
    case ApprovedMs => Some(Decimal(d.approvedUnixMs))
    case AllowPen => Some(BoolText(d.permissions.allowPen))
    case AllowTouch => Some(BoolText(d.permissions.allowTouch))
    case AllowKeyboard => Some(BoolText(d.permissions.allowKeyboard))
    case AllowMouse => Some(BoolText(d.permissions.allowMouse))
    case AllowGamepad => Some(BoolText(d.permissions.allowGamepad))
    case _ => None
  }

  /** The text the settings give a key. */
  function Want(s: HostSettings, section: Section, f: Field): Option<string> {
    match section
    case OverrideSection => if s.encoderOverride.Some? then ConfigText(s.encoderOverride.value, f) else None
    case PresetSection(i) => if i < |s.presets| then PresetText(s.presets[i], f) else None
    case DeviceSection(i) => if i < |s.devices| then DeviceText(s.devices[i], f) else None
  }

  // ---------------------------------------------------------------------------------------------
  // Writing
  // ---------------------------------------------------------------------------------------------

  const HEADER: string := "# GlyphRay host settings v1"

  datatype Entry = Entry(key: string, value: string)

  function EntryText(e: Entry): string {
    e.key + ("=" + (e.value + "\n"))
  }

  function Render(entries: seq<Entry>): string {
    if entries == [] then "" else Render(entries[..|entries| - 1]) + EntryText(entries[|entries| - 1])
  }

  /** The entries of a section, for the fields that have a text. */
  function SectionEntries(s: HostSettings, section: Section, fields: seq<Field>): seq<Entry> {
    if fields == [] then []
    else
      var last := fields[|fields| - 1];
      SectionEntries(s, section, fields[..|fields| - 1]) +
      if Want(s, section, last).Some? then [Entry(KeyText(section, last), Want(s, section, last).value)] else []
  }

  function FieldsOf(section: Section): seq<Field> {
    match section
    case OverrideSection => CONFIG_FIELDS
    case PresetSection(_) => [PresetName] + CONFIG_FIELDS
    case DeviceSection(_) => DEVICE_FIELDS
  }

  function PresetSections(n: nat): (r: seq<Section>)
    ensures |r| == n && forall i :: 0 <= i < n ==> r[i] == PresetSection(i)
  {
    seq(n, i requires 0 <= i => PresetSection(i))
  }

  function DeviceSections(n: nat): (r: seq<Section>)
    ensures |r| == n && forall i :: 0 <= i < n ==> r[i] == DeviceSection(i)
  {
    seq(n, i requires 0 <= i => DeviceSection(i))
  }

  function Sections(s: HostSettings): seq<Section> {
    [OverrideSection] + (PresetSections(|s.presets|) + DeviceSections(|s.devices|))
  }

  function EntriesOf(s: HostSettings, sections: seq<Section>): seq<Entry> {
    if sections == [] then []
    else
      var last := sections[|sections| - 1];
      EntriesOf(s, sections[..|sections| - 1]) + SectionEntries(s, last, FieldsOf(last))
  }

  function Entries(s: HostSettings): seq<Entry> {
    EntriesOf(s, Sections(s))
  }

  function Serialize(s: HostSettings): string {
    HEADER + ("\n" + Render(Entries(s)))
  }

  // ---------------------------------------------------------------------------------------------
  // Normal forms
  // ---------------------------------------------------------------------------------------------

  predicate IsNameChar(c: char) {
    'a' <= c <= 'z' || 'A' <= c <= 'Z' || '0' <= c <= '9' || c == '-' || c == '_' || c == '.'
  }

  /** Preset names and device ids. */
  function NormalizeName(text: string, max: nat): Option<string> {
    var name := Trim(text);
    if name == "" || Utf8Size(name) > max || exists i :: 0 <= i < |name| && !IsNameChar(name[i]) then None else Some(name)
  }

  const MAX_PRESET_NAME: nat := 64
  const MAX_DEVICE_ID: nat := 128
  const MAX_LABEL: nat := 80

  function Spaced(s: string): (r: string)
    ensures |r| == |s|
  {
    seq(|s|, i requires 0 <= i < |s| => if s[i] == '\r' || s[i] == '\n' || s[i] == '\t' then ' ' else s[i])
  }

  const UNKNOWN_DEVICE: string := "Unknown device"

  /** Panics when byte 80 is inside a character. */
  function NormalizeLabel(text: string): Outcome<string> {
    match Truncated(Spaced(text), MAX_LABEL)
    case None => Panicked
    case Some(s) => Done(if Trim(s) == "" then UNKNOWN_DEVICE else Trim(s))
  }

  function NormalizeFingerprint(text: string): Option<string> {
    var s := AsciiLower(Trim(text));
    if |s| != 64 || exists i :: 0 <= i < |s| && !IsHexLower(s[i]) then None else Some(s)
  }

  /** The device recorded when a peer is approved. */
  function ApprovedNow(id: string, name: string, lastPeer: string, fingerprint: Option<string>, der: Option<seq<byte>>, now: u64): Outcome<TrustedDevice> {
    var id :- Need(NormalizeName(id, MAX_DEVICE_ID));
    var name :- NormalizeLabel(name);
    var lastPeer :- NormalizeLabel(lastPeer);
    var fingerprint :- OptionalFingerprint(fingerprint);
    Done(TrustedDevice(id, name, lastPeer, fingerprint, der, now, ALL_PERMITTED))
  }

  function OptionalFingerprint(text: Option<string>): Outcome<Option<string>> {
    match text
    case None => Done(None)
    case Some(t) => match NormalizeFingerprint(t) case None => Refused case Some(f) => Done(Some(f))
  }

  function Clamp(v: nat, low: nat, high: nat): nat
    requires low <= high
  {
    if v < low then low else if v > high then high else v
  }

  function Clamped(c: EncoderConfig): EncoderConfig {
    c.(maxFps := Clamp(c.maxFps, 30, 120),
       targetBitrateKbps := Clamp(c.targetBitrateKbps, 4_000, 120_000),
       keyframeIntervalMs := Clamp(c.keyframeIntervalMs, 250, 10_000))
  }

  // ---------------------------------------------------------------------------------------------
  // Reading: lines
  // ---------------------------------------------------------------------------------------------

  type Values = map<string, string>

  /** One line; `lines` also strips a carriage return, which trimming does anyway. */
  function ParseLine(values: Values, text: string): Outcome<Values> {
    var line := Trim(text);
    if line == "" || line[0] == '#' then Done(values)
    else
      match SplitOnce(line, '=')
      case None => Refused
      case Some((key, value)) => Done(values[Trim(key) := Trim(value)])
  }

  function ParseLines(lines: seq<string>): Outcome<Values> {
    if lines == [] then Done(map[])
    else
      var values :- ParseLines(lines[..|lines| - 1]);
      ParseLine(values, lines[|lines| - 1])
  }

  // ---------------------------------------------------------------------------------------------
  // Reading: groups
  // ---------------------------------------------------------------------------------------------

  datatype KeyMatch = Elsewhere | BadKey | InGroup(index: nat, field: string)

  function MatchKey(key: string, prefix: string): KeyMatch {
    if !(prefix <= key) then Elsewhere
    else
      match SplitOnce(key[|prefix|..], '.')
      case None => BadKey
      case Some((index, field)) =>
        match ParseUnsigned(index, U32_MAX)
        case None => BadKey
        case Some(i) => InGroup(i, field)
  }

  type Grouped = map<nat, Values>

  function FieldsAt(g: Grouped, i: nat): Values {
    if i in g then g[i] else map[]
  }

  function GroupOne(g: Grouped, values: Values, key: string, prefix: string): Outcome<Grouped> {
    if key !in values then Done(g)
    else
      match MatchKey(key, prefix)
      case Elsewhere => Done(g)
      case BadKey => Refused
      case InGroup(i, field) => Done(g[i := FieldsAt(g, i)[field := values[key]]])
  }

  /** The values under a prefix, by index, taken in the order the hash map lists its keys. */
  function GroupsOf(values: Values, order: seq<string>, prefix: string): Outcome<Grouped> {
    if order == [] then Done(map[])
    else
      var g :- GroupsOf(values, order[..|order| - 1], prefix);
      GroupOne(g, values, order[|order| - 1], prefix)
  }

  lemma {:induction false} GreatestExists(s: set<nat>)
    requires s != {}
    ensures exists m :: m in s && forall k :: k in s ==> k <= m
  {
    var x :| x in s;
    if s - {x} == {} {
      assert s == {x};
    } else {
      GreatestExists(s - {x});
      var m :| m in s - {x} && forall k :: k in s - {x} ==> k <= m;
      var top := if x > m then x else m;
      forall k | k in s
        ensures k <= top
      {
        assert k == x || k in s - {x};
      }
      assert top in s;
    }
  }

  /** The indices in the order a tree map lists them. */
  function Ascending(s: set<nat>): seq<nat> {
    if s == {} then []
    else
      GreatestExists(s);
      var m :| m in s && forall k :: k in s ==> k <= m;
      Ascending(s - {m}) + [m]
  }

  // ---------------------------------------------------------------------------------------------
  // Reading: fields
  // ---------------------------------------------------------------------------------------------

  function Get(values: Values, prefix: string, f: Field): Option<string> {
    var key := prefix + FieldName(f);
    if key in values then Some(values[key]) else None
  }

  function GetUnsigned(values: Values, prefix: string, f: Field, max: nat): (r: Outcome<nat>)
    ensures r.Done? ==> r.value <= max
  {
    match Get(values, prefix, f)
    case None => Refused
    case Some(text) => Need(ParseUnsigned(text, max))
  }

  function GetBool(values: Values, prefix: string, f: Field): Outcome<bool> {
    match Get(values, prefix, f)
    case None => Refused
    case Some(text) => Need(ParseBool(text))
  }

  function GetPermission(values: Values, f: Field): Outcome<bool> {
    match Get(values, "", f)
    case None => Done(true)
    case Some(text) => Need(ParseBool(text))
  }

  const NO_CONFIG: EncoderConfig := EncoderConfig(0, H264, Srgb, 0, 0, 0, 0, 0, false)

  function ParsePicture(values: Values, prefix: string): Outcome<EncoderConfig> {
    var displayId :- GetUnsigned(values, prefix, DisplayId, U32_MAX);
    var codecText :- Need(Get(values, prefix, CodecName));
    var codec :- Need(ParseCodec(codecText));
    var colorText :- Need(Get(values, prefix, ColorSpaceName));
    var color :- Need(ParseColorSpace(colorText));
    var width :- GetUnsigned(values, prefix, Width, U32_MAX);
    var height :- GetUnsigned(values, prefix, Height, U32_MAX);
    Done(NO_CONFIG.(displayId := displayId, codec := codec, colorSpace := color, width := width, height := height))
  }

  function ParseRates(values: Values, prefix: string, picture: EncoderConfig): Outcome<EncoderConfig> {
    var maxFps :- GetUnsigned(values, prefix, MaxFps, U16_MAX);
    var bitrate :- GetUnsigned(values, prefix, TargetBitrate, U32_MAX);
    var interval :- GetUnsigned(values, prefix, KeyframeInterval, U32_MAX);
    var lowLatency :- GetBool(values, prefix, LowLatency);
    Done(Clamped(picture.(maxFps := maxFps, targetBitrateKbps := bitrate, keyframeIntervalMs := interval, lowLatency := lowLatency)))
  }

  function ParseConfig(values: Values, prefix: string): Outcome<EncoderConfig> {
    var picture :- ParsePicture(values, prefix);
    ParseRates(values, prefix, picture)
  }

  function ParsePreset(fields: Values): Outcome<EncoderPreset> {
    var text :- Need(Get(fields, "", PresetName));
    var name :- Need(NormalizeName(text, MAX_PRESET_NAME));
    var config :- ParseConfig(fields, "");
    Done(EncoderPreset(name, config))
  }

  function ParseDer(fields: Values): Outcome<Option<seq<byte>>> {
    match Get(fields, "", PublicKeyHex)
    case None => Done(None)
    case Some(text) => match DecodeHex(text) case None => Refused case Some(der) => Done(Some(der))
  }

  function ParsePermissions(fields: Values): Outcome<DevicePermissions> {
    var pen :- GetPermission(fields, AllowPen);
    var touch :- GetPermission(fields, AllowTouch);
    var keyboard :- GetPermission(fields, AllowKeyboard);
    var mouse :- GetPermission(fields, AllowMouse);
    var gamepad :- GetPermission(fields, AllowGamepad);
    Done(DevicePermissions(pen, touch, keyboard, mouse, gamepad))
  }

  function ParseIdentity(fields: Values): Outcome<TrustedDevice> {
    var idText :- Need(Get(fields, "", DeviceId));
    var id :- Need(NormalizeName(idText, MAX_DEVICE_ID));
    var labelText :- Need(Get(fields, "", Label));
    var name :- NormalizeLabel(labelText);
    var peerText :- Need(Get(fields, "", LastPeer));
    var lastPeer :- NormalizeLabel(peerText);
    Done(TrustedDevice(id, name, lastPeer, None, None, 0, ALL_PERMITTED))
  }

  function ParseDevice(fields: Values): Outcome<TrustedDevice> {
    var d :- ParseIdentity(fields);
    var fingerprint :- OptionalFingerprint(Get(fields, "", Fingerprint));
    var der :- ParseDer(fields);
    var approved :- GetUnsigned(fields, "", ApprovedMs, U64_MAX);
    var permissions :- ParsePermissions(fields);
    Done(d.(fingerprint := fingerprint, publicKeyDer := der, approvedUnixMs := approved, permissions := permissions))
  }

  // ---------------------------------------------------------------------------------------------
  // Reading: the settings
  // ---------------------------------------------------------------------------------------------

  type Lower = string -> string

  function ByName(lower: Lower): EncoderPreset -> string {
    (p: EncoderPreset) => lower(p.name)
  }

  function ByLabel(lower: Lower): TrustedDevice -> string {
    (d: TrustedDevice) => lower(d.name)
  }

  function NameKey(p: EncoderPreset): string {
    AsciiLower(p.name)
  }

  function IdKey(d: TrustedDevice): string {
    AsciiLower(d.id)
  }

  /** The items in order, each upserted; the first failure ends it. */
  function Collected<T>(parsed: seq<Outcome<T>>, id: T -> string, key: T -> string): Outcome<seq<T>> {
    if parsed == [] then Done([])
    else
      var items :- Collected(parsed[..|parsed| - 1], id, key);
      var item :- parsed[|parsed| - 1];
      Done(Upsert(items, item, id, key))
  }

  function ParsedPresets(g: Grouped, indices: seq<nat>): (r: seq<Outcome<EncoderPreset>>)
    ensures |r| == |indices| && forall k :: 0 <= k < |r| ==> r[k] == ParsePreset(FieldsAt(g, indices[k]))
  {
    seq(|indices|, k requires 0 <= k < |indices| => ParsePreset(FieldsAt(g, indices[k])))
  }

  function ParsedDevices(g: Grouped, indices: seq<nat>): (r: seq<Outcome<TrustedDevice>>)
    ensures |r| == |indices| && forall k :: 0 <= k < |r| ==> r[k] == ParseDevice(FieldsAt(g, indices[k]))
  {
    seq(|indices|, k requires 0 <= k < |indices| => ParseDevice(FieldsAt(g, indices[k])))
  }

  function ParseOverride(values: Values): Outcome<Option<EncoderConfig>> {
    if exists key :: key in values && OVERRIDE_PREFIX <= key then
      var config :- ParseConfig(values, OVERRIDE_PREFIX);
      Done(Some(config))
    else Done(None)
  }

  function ParsePresets(values: Values, order: seq<string>, lower: Lower): Outcome<seq<EncoderPreset>> {
    var groups :- GroupsOf(values, order, PRESET_PREFIX);
    Collected(ParsedPresets(groups, Ascending(groups.Keys)), NameKey, ByName(lower))
  }

  function ParseDevices(values: Values, order: seq<string>, lower: Lower): Outcome<seq<TrustedDevice>> {
    var groups :- GroupsOf(values, order, DEVICE_PREFIX);
    Collected(ParsedDevices(groups, Ascending(groups.Keys)), IdKey, ByLabel(lower))
  }

  function ParseValues(values: Values, order: seq<string>, lower: Lower): Outcome<HostSettings> {
    var encoderOverride :- ParseOverride(values);
    var presets :- ParsePresets(values, order, lower);
    var devices :- ParseDevices(values, order, lower);
    Done(HostSettings(encoderOverride, presets, devices))
  }

  function Parse(raw: string, order: seq<string>, lower: Lower): Outcome<HostSettings> {
    var values :- ParseLines(Lines(raw));
    ParseValues(values, order, lower)
  }

  // ---------------------------------------------------------------------------------------------
  // Normalized settings
  // ---------------------------------------------------------------------------------------------

  predicate PresetOk(p: EncoderPreset) {
    NormalizeName(p.name, MAX_PRESET_NAME) == Some(p.name)
  }

  predicate DeviceOk(d: TrustedDevice) {
    && NormalizeName(d.id, MAX_DEVICE_ID) == Some(d.id)
    && NormalizeLabel(d.name) == Done(d.name)
    && NormalizeLabel(d.lastPeer) == Done(d.lastPeer)
    && (d.fingerprint.Some? ==> NormalizeFingerprint(d.fingerprint.value) == d.fingerprint)
  }

  const MAX_KEY: nat := 4096

  /** The device's key, if any, is short enough to be read back. Nothing checks this on writing. */
  predicate KeyFits(d: TrustedDevice) {
    d.publicKeyDer.Some? ==> |d.publicKeyDer.value| <= MAX_KEY
  }

  predicate KeysFit(s: HostSettings) {
    forall i :: 0 <= i < |s.devices| ==> KeyFits(s.devices[i])
  }

  /** Every field is normal, names and ids are unique up to case, and both lists are sorted. */
  ghost predicate WellFormed(s: HostSettings, lower: Lower) {
    && (forall i :: 0 <= i < |s.presets| ==> PresetOk(s.presets[i]))
    && (forall i :: 0 <= i < |s.devices| ==> DeviceOk(s.devices[i]))
    && Distinct(s.presets, NameKey) && SortedBy(s.presets, ByName(lower))
    && Distinct(s.devices, IdKey) && SortedBy(s.devices, ByLabel(lower))
  }

  /** Every list index fits the 32 bits it is read back with. */
  predicate Fits(s: HostSettings) {
    |s.presets| <= U32_MAX + 1 && |s.devices| <= U32_MAX + 1
  }

  function ClampedPresets(presets: seq<EncoderPreset>): (r: seq<EncoderPreset>)
    ensures |r| == |presets|
  {
    seq(|presets|, i requires 0 <= i < |presets| => presets[i].(config := Clamped(presets[i].config)))
  }

  /** The settings with every encoder field brought into its range, as reading does. */
  function AllClamped(s: HostSettings): HostSettings {
    HostSettings(if s.encoderOverride.Some? then Some(Clamped(s.encoderOverride.value)) else None, ClampedPresets(s.presets), s.devices)
  }
}
