/**
 When the fields of an item are read, and as what: stated on the texts under their names in the file.
 */
module ReadingLaws {
  import opened Bytes
  import opened Wrappers
  import opened Text
  import opened Media
  import opened Settings
  import opened SettingsRoundTrip
  import opened StoreLaws

  predicate Reads(fields: Values, name: string, max: nat, v: nat) {
    name in fields && ParseUnsigned(fields[name], max) == Some(v)
  }

  /** A switch that is missing is on; one that is there must say so in lower case. */
  predicate Switched(fields: Values, name: string, on: bool) {
    if name in fields then fields[name] == (if on then "true" else "false") else on
  }

  lemma SwitchRead(fields: Values, f: Field, on: bool)
    ensures GetPermission(fields, f) == Done(on) <==> Switched(fields, FieldName(f), on)
  {
    assert "" + FieldName(f) == FieldName(f);
  }

  predicate SwitchesAre(fields: Values, p: DevicePermissions) {
    && Switched(fields, FieldName(AllowPen), p.allowPen) && Switched(fields, FieldName(AllowTouch), p.allowTouch)
    && Switched(fields, FieldName(AllowKeyboard), p.allowKeyboard) && Switched(fields, FieldName(AllowMouse), p.allowMouse)
    && Switched(fields, FieldName(AllowGamepad), p.allowGamepad)
  }

  /** The switches of a device, each on unless the file says "false", and nothing but "true" or "false". */
  lemma SwitchesRead(fields: Values, p: DevicePermissions)
    ensures ParsePermissions(fields) == Done(p) <==> SwitchesAre(fields, p)
  {
    SwitchRead(fields, AllowPen, p.allowPen);
    SwitchRead(fields, AllowTouch, p.allowTouch);
    SwitchRead(fields, AllowKeyboard, p.allowKeyboard);
    SwitchRead(fields, AllowMouse, p.allowMouse);
    SwitchRead(fields, AllowGamepad, p.allowGamepad);
  }

  /** The names of the fields in the file. */
  lemma FieldNames()
    ensures FieldName(PresetName) == "name" && FieldName(DisplayId) == "display_id" && FieldName(CodecName) == "codec"
    ensures FieldName(ColorSpaceName) == "color_space" && FieldName(Width) == "width" && FieldName(Height) == "height"
    ensures FieldName(MaxFps) == "max_fps" && FieldName(TargetBitrate) == "target_bitrate_kbps"
    ensures FieldName(KeyframeInterval) == "keyframe_interval_ms" && FieldName(LowLatency) == "low_latency"
    ensures FieldName(DeviceId) == "id" && FieldName(Label) == "label" && FieldName(LastPeer) == "last_peer"
    ensures FieldName(Fingerprint) == "public_key_fingerprint" && FieldName(PublicKeyHex) == "public_key_der_hex"
    ensures FieldName(ApprovedMs) == "approved_unix_ms" && FieldName(AllowPen) == "allow_pen" && FieldName(AllowTouch) == "allow_touch"
    ensures FieldName(AllowKeyboard) == "allow_keyboard" && FieldName(AllowMouse) == "allow_mouse" && FieldName(AllowGamepad) == "allow_gamepad"
  {
  }

  lemma NumberRead(fields: Values, prefix: string, f: Field, max: nat, v: nat)
    ensures GetUnsigned(fields, prefix, f, max) == Done(v) <==> Reads(fields, prefix + FieldName(f), max, v)
  {
  }

  /** The codec names read, with one alias. */
  predicate CodecNamed(text: string, c: VideoCodec) {
    match c
    case H264 => text == "H264"
    case H265 => text == "H265"
    case Av1 => text == "Av1" || text == "AV1"
  }

  predicate ColorNamed(text: string, c: ColorSpace) {
    match c
    case Srgb => text == "Srgb" || text == "sRGB"
    case DisplayP3 => text == "DisplayP3"
    case Rec709 => text == "Rec709"
    case Rec2020Pq => text == "Rec2020Pq"
  }

  lemma NamesRead(text: string, codec: VideoCodec, color: ColorSpace)
    ensures ParseCodec(text) == Some(codec) <==> CodecNamed(text, codec)
    ensures ParseColorSpace(text) == Some(color) <==> ColorNamed(text, color)
  {
  }

  predicate Has(fields: Values, prefix: string, f: Field) {
    prefix + FieldName(f) in fields
  }

  function TextOf(fields: Values, prefix: string, f: Field): string
    requires Has(fields, prefix, f)
  {
    fields[prefix + FieldName(f)]
  }

  /** A configuration reads exactly when every field is there and reads; its rates are then brought into
      their ranges. */
  predicate PictureReads(fields: Values, prefix: string, c: EncoderConfig) {
    && Reads(fields, prefix + FieldName(DisplayId), 0xFFFF_FFFF, c.displayId)
    && Has(fields, prefix, CodecName) && CodecNamed(TextOf(fields, prefix, CodecName), c.codec)
    && Has(fields, prefix, ColorSpaceName) && ColorNamed(TextOf(fields, prefix, ColorSpaceName), c.colorSpace)
    && Reads(fields, prefix + FieldName(Width), 0xFFFF_FFFF, c.width) && Reads(fields, prefix + FieldName(Height), 0xFFFF_FFFF, c.height)
  }

  predicate RatesThere(fields: Values, prefix: string, c: EncoderConfig) {
    && Reads(fields, prefix + FieldName(MaxFps), 0xFFFF, c.maxFps)
    && Reads(fields, prefix + FieldName(TargetBitrate), 0xFFFF_FFFF, c.targetBitrateKbps)
    && Reads(fields, prefix + FieldName(KeyframeInterval), 0xFFFF_FFFF, c.keyframeIntervalMs)
    && Has(fields, prefix, LowLatency) && TextOf(fields, prefix, LowLatency) == (if c.lowLatency then "true" else "false")
  }

  lemma PictureParses(fields: Values, prefix: string, c: EncoderConfig)
    requires PictureReads(fields, prefix, c)
    ensures ParsePicture(fields, prefix) == Done(NO_CONFIG.(displayId := c.displayId, codec := c.codec, colorSpace := c.colorSpace,
                                                            width := c.width, height := c.height))
  {
    NamesRead(TextOf(fields, prefix, CodecName), c.codec, c.colorSpace);
    NamesRead(TextOf(fields, prefix, ColorSpaceName), c.codec, c.colorSpace);
  }

  lemma PictureParsed(fields: Values, prefix: string, c: EncoderConfig)
    requires ParsePicture(fields, prefix).Done?
    requires var p := ParsePicture(fields, prefix).value;
             && c.displayId == p.displayId && c.codec == p.codec && c.colorSpace == p.colorSpace && c.width == p.width && c.height == p.height
    ensures PictureReads(fields, prefix, c)
  {
    NamesRead(TextOf(fields, prefix, CodecName), c.codec, c.colorSpace);
    NamesRead(TextOf(fields, prefix, ColorSpaceName), c.codec, c.colorSpace);
  }

  lemma RatesParse(fields: Values, prefix: string, picture: EncoderConfig, c: EncoderConfig)
    requires RatesThere(fields, prefix, c)
    ensures ParseRates(fields, prefix, picture)
            == Done(Ranged(picture.(maxFps := c.maxFps, targetBitrateKbps := c.targetBitrateKbps,
                                    keyframeIntervalMs := c.keyframeIntervalMs, lowLatency := c.lowLatency)))
  {
  }

  lemma RatesParsed(fields: Values, prefix: string, picture: EncoderConfig) returns (c: EncoderConfig)
    requires ParseRates(fields, prefix, picture).Done?
    ensures RatesThere(fields, prefix, c) && c.displayId == picture.displayId && c.codec == picture.codec
            && c.colorSpace == picture.colorSpace && c.width == picture.width && c.height == picture.height
  {
    c := picture.(maxFps := GetUnsigned(fields, prefix, MaxFps, U16_MAX).value,
                  targetBitrateKbps := GetUnsigned(fields, prefix, TargetBitrate, U32_MAX).value,
                  keyframeIntervalMs := GetUnsigned(fields, prefix, KeyframeInterval, U32_MAX).value,
                  lowLatency := GetBool(fields, prefix, LowLatency).value);
  }

  lemma ConfigParses(fields: Values, prefix: string, c: EncoderConfig)
    requires PictureReads(fields, prefix, c) && RatesThere(fields, prefix, c)
    ensures ParseConfig(fields, prefix) == Done(Ranged(c))
  {
    PictureParses(fields, prefix, c);
    var picture := NO_CONFIG.(displayId := c.displayId, codec := c.codec, colorSpace := c.colorSpace, width := c.width, height := c.height);
    RatesParse(fields, prefix, picture, c);
  }

  /** Whatever configuration is read, its fields were there and read so. */
  lemma ConfigParsed(fields: Values, prefix: string) returns (c: EncoderConfig)
    requires ParseConfig(fields, prefix).Done?
    ensures PictureReads(fields, prefix, c) && RatesThere(fields, prefix, c) && ParseConfig(fields, prefix) == Done(Ranged(c))
  {
    c := RatesParsed(fields, prefix, ParsePicture(fields, prefix).value);
    PictureParsed(fields, prefix, c);
    ConfigParses(fields, prefix, c);
  }

  // ---------------------------------------------------------------------------------------------
  // Devices
  // ---------------------------------------------------------------------------------------------

  predicate IdentityIs(fields: Values, d: TrustedDevice) {
    && Has(fields, "", DeviceId) && NormalizeName(TextOf(fields, "", DeviceId), 128) == Some(d.id)
    && Has(fields, "", Label) && NormalizeLabel(TextOf(fields, "", Label)) == Done(d.name)
    && Has(fields, "", LastPeer) && NormalizeLabel(TextOf(fields, "", LastPeer)) == Done(d.lastPeer)
  }

  /** A fingerprint and a key are read if they are there, and must then be well formed. */
  predicate KeysAre(fields: Values, d: TrustedDevice) {
    && (if Has(fields, "", Fingerprint)
        then d.fingerprint.Some? && NormalizeFingerprint(TextOf(fields, "", Fingerprint)) == d.fingerprint else d.fingerprint.None?)
    && (if Has(fields, "", PublicKeyHex)
        then d.publicKeyDer.Some? && DecodeHex(TextOf(fields, "", PublicKeyHex)) == d.publicKeyDer else d.publicKeyDer.None?)
  }

  /** A device is read exactly when its id, label, last peer and approval time are there, the id is a
      name of at most 128 bytes, a fingerprint, a key or a switch that is there is well formed, and the
      labels do not panic; and it is read as those say. */
  predicate DeviceReads(fields: Values, d: TrustedDevice) {
    && IdentityIs(fields, d) && KeysAre(fields, d)
    && Reads(fields, FieldName(ApprovedMs), U64_MAX, d.approvedUnixMs)
    && SwitchesAre(fields, d.permissions)
  }

  lemma IdentityReads(fields: Values, d: TrustedDevice)
    ensures ParseIdentity(fields) == Done(TrustedDevice(d.id, d.name, d.lastPeer, None, None, 0, ALL_PERMITTED)) <==> IdentityIs(fields, d)
  {
  }

  lemma KeysRead(fields: Values, d: TrustedDevice)
    ensures OptionalFingerprint(Get(fields, "", Fingerprint)) == Done(d.fingerprint) && ParseDer(fields) == Done(d.publicKeyDer)
            <==> KeysAre(fields, d)
  {
  }

  lemma DeviceParses(fields: Values, d: TrustedDevice)
    ensures ParseDevice(fields) == Done(d) <==>
            && ParseIdentity(fields) == Done(TrustedDevice(d.id, d.name, d.lastPeer, None, None, 0, ALL_PERMITTED))
            && OptionalFingerprint(Get(fields, "", Fingerprint)) == Done(d.fingerprint) && ParseDer(fields) == Done(d.publicKeyDer)
            && GetUnsigned(fields, "", ApprovedMs, U64_MAX) == Done(d.approvedUnixMs)
            && ParsePermissions(fields) == Done(d.permissions)
  {
  }

  lemma DeviceReadExactly(fields: Values, d: TrustedDevice)
    ensures ParseDevice(fields) == Done(d) <==> DeviceReads(fields, d)
  {
    DeviceParses(fields, d);
    IdentityReads(fields, d);
    KeysRead(fields, d);
    assert "" + FieldName(ApprovedMs) == FieldName(ApprovedMs);
    NumberRead(fields, "", ApprovedMs, U64_MAX, d.approvedUnixMs);
    SwitchesRead(fields, d.permissions);
  }

  // ---------------------------------------------------------------------------------------------
  // Lines, names and approvals
  // ---------------------------------------------------------------------------------------------

  /** A line is skipped when it is blank or starts with a hash, and otherwise must hold an equals sign: it
      gives the text before the first one, trimmed, the text behind it, trimmed. */
  lemma LineRead(values: Values, text: string, before: string, after: string)
    requires '=' !in before
    ensures Trim(text) == "" || Trim(text)[0] == '#' ==> ParseLine(values, text) == Done(values)
    ensures Trim(text) != "" && Trim(text)[0] != '#' && '=' !in Trim(text) ==> ParseLine(values, text) == Refused
    ensures Trim(text) == before + ("=" + after) && Trim(text)[0] != '#' ==> ParseLine(values, text) == Done(values[Trim(before) := Trim(after)])
  {
    if '=' !in Trim(text) {
      NotSplit(Trim(text), '=');
    }
    SplitAtFirst(before, '=', after);
  }

  lemma {:induction false} NotSplit(s: string, c: char)
    requires c !in s
    ensures SplitOnce(s, c) == None
  {
    if s != "" {
      NotSplit(s[1..], c);
    }
  }

  /** A name is its text trimmed: at least one and at most the given number of letters, digits, hyphens,
      underscores and full stops. */
  lemma NameRead(text: string, max: nat, name: string)
    ensures NormalizeName(text, max) == Some(name) <==>
            && name == Trim(text) && 1 <= |name| <= max
            && forall i :: 0 <= i < |name| ==>
                 ('a' <= name[i] <= 'z' || 'A' <= name[i] <= 'Z' || '0' <= name[i] <= '9' || name[i] == '-' || name[i] == '_' || name[i] == '.')
  {
    var trimmed := Trim(text);
    if forall i :: 0 <= i < |trimmed| ==> IsNameChar(trimmed[i]) {
      AsciiSize(trimmed);
    }
  }

  /** A fingerprint is sixty-four hexadecimal digits, trimmed and in lower case. */
  lemma FingerprintExactly(text: string, f: string)
    ensures NormalizeFingerprint(text) == Some(f) <==>
            && f == AsciiLower(Trim(text)) && |f| == 64
            && forall i :: 0 <= i < |f| ==> ('0' <= f[i] <= '9' || 'a' <= f[i] <= 'f')
  {
  }

  /** The device recorded on approval: what was given, normalized, at that time, with everything allowed. */
  lemma ApprovalRecorded(id: string, name: string, lastPeer: string, fingerprint: Option<string>, der: Option<seq<byte>>, now: u64)
    ensures var r := ApprovedNow(id, name, lastPeer, fingerprint, der, now);
            r.Done? ==>
              && NormalizeName(id, 128) == Some(r.value.id) && NormalizeLabel(name) == Done(r.value.name)
              && NormalizeLabel(lastPeer) == Done(r.value.lastPeer)
              && (if fingerprint.Some? then r.value.fingerprint.Some? && NormalizeFingerprint(fingerprint.value) == r.value.fingerprint
                  else r.value.fingerprint.None?)
              && r.value.publicKeyDer == der && r.value.approvedUnixMs == now
              && r.value.permissions == DevicePermissions(true, true, true, true, true)
  {
  }

  /** There is an override as soon as one key says so; then all of its fields must read. */
  lemma OverrideNeeded(values: Values, key: string)
    requires key in values && "encoder." <= key
    ensures ParseOverride(values)
            == match ParseConfig(values, "encoder.") case Done(c) => Done(Some(c)) case Refused => Refused case Panicked => Panicked
  {
  }
}
