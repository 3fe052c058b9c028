/**
 * The configuration defaults at the top of the `DTMF` factory in dtmf.js.
 * An option the caller leaves `undefined` is `None`; `opt` itself may be
 * absent, which the factory treats as an empty options object.
 */
module Config {
  import opened Wrappers

  /** The options object the factory accepts; every field is optional. */
  datatype Options = Options(
    devUseDefault: Option<bool>,
    devNameMask: Option<string>,
    toneDuration: Option<real>,
    toneDuration2: Option<real>,
    toneGain: Option<real>,
    toneGain2: Option<real>,
    silencePartDuration: Option<real>,
    fadeInDuration: Option<real>,
    fadeOutDuration: Option<real>,
    id: Option<int>)

  /** The constants the factory derives from the options. */
  datatype Settings = Settings(
    useDefaultDevice: bool,
    deviceNameMask: string,
    toneDuration: real,
    toneDuration2: Option<real>,
    toneGain: real,
    toneGain2: Option<real>,
    silencePartDuration: real,
    fadeInDuration: real,
    fadeOutDuration: real,
    instanceId: int)

  const NoOptions := Options(None, None, None, None, None, None, None, None, None, None)

  const DefaultMask: string := "cable"

  /** `x === undefined ? d : x` */
  function OrDefault<T>(x: Option<T>, d: T): (r: T)
    ensures x.None? ==> r == d
    ensures x.Some? ==> r == x.value
  {
    if x.None? then d else x.value
  }

  /**
   * The settings for `opt` (`opt = opt || {}` first). The mask and the
   * instance id use `||`, so the empty mask and the id 0 fall back to the
   * default as well. The secondary tone duration and gain take their default
   * when the PRIMARY option is undefined, and otherwise copy their own
   * option, which may itself be undefined.
   */
  function Configure(opt: Option<Options>): (s: Settings)
    ensures s.deviceNameMask != [] && s.instanceId != 0
    ensures opt.Some? && opt.value.devNameMask.Some? && opt.value.devNameMask.value != [] ==>
              s.deviceNameMask == opt.value.devNameMask.value
    ensures opt.Some? && opt.value.id.Some? && opt.value.id.value != 0 ==> s.instanceId == opt.value.id.value
    ensures opt.Some? && opt.value.toneDuration.Some? ==> s.toneDuration2 == opt.value.toneDuration2
    ensures opt.Some? && opt.value.toneGain.Some? ==> s.toneGain2 == opt.value.toneGain2
  {
    var o := if opt.None? then NoOptions else opt.value;
    Settings(
      OrDefault(o.devUseDefault, false),
      if o.devNameMask.None? || o.devNameMask.value == [] then DefaultMask else o.devNameMask.value,
      OrDefault(o.toneDuration, 0.2),
      if o.toneDuration.None? then Some(0.1) else o.toneDuration2,
      OrDefault(o.toneGain, 1.0),
      if o.toneGain.None? then Some(0.9) else o.toneGain2,
      OrDefault(o.silencePartDuration, 0.1),
      OrDefault(o.fadeInDuration, 0.005),
      OrDefault(o.fadeOutDuration, 0.005),
      if o.id.None? || o.id.value == 0 then 1 else o.id.value)
  }

  /** With no options at all, every constant takes its documented default. */
  lemma Defaults()
    ensures Configure(None) == Settings(false, "cable", 0.2, Some(0.1), 1.0, Some(0.9), 0.1, 0.005, 0.005, 1)
  {
  }

  /** A falsy mask or id falls back to "cable" and 1, like an absent one. */
  lemma FalsyMaskAndId(o: Options)
    requires o.devNameMask == Some([]) && o.id == Some(0)
    ensures Configure(Some(o)).deviceNameMask == DefaultMask
    ensures Configure(Some(o)).instanceId == 1
  {
  }

  /**
   * The secondary duration and gain are chosen by the primary option: given
   * alone, they are ignored; with the primary given and the secondary not,
   * they stay undefined.
   */
  lemma SecondaryFollowsPrimary(o: Options)
    ensures o.toneDuration.None? ==> Configure(Some(o)).toneDuration2 == Some(0.1)
    ensures o.toneDuration.Some? && o.toneDuration2.None? ==> Configure(Some(o)).toneDuration2.None?
    ensures o.toneGain.None? ==> Configure(Some(o)).toneGain2 == Some(0.9)
    ensures o.toneGain.Some? && o.toneGain2.None? ==> Configure(Some(o)).toneGain2.None?
  {
  }
}
