/** The rate-limit translation of manage_torrent_task: a KB/s setting becomes
    `NonZeroU32::new((s * 1024) as u32)`, once per direction. */
module RateLimits {
  import opened SyncTypes

  const U32_MODULUS: nat := 0x1_0000_0000

  /** Bytes in a kilobyte, as the translation counts them. */
  const KIB: nat := 1024

  /** The width of the configuration's speed fields is not part of this model;
      they are taken to be 64-bit unsigned integers. */
  const SETTING_MODULUS: nat := 0x1_0000_0000_0000_0000

  /** The number of KB/s whose byte value is exactly 2^32. */
  const KIB_PER_U32_WRAP: nat := 0x40_0000

  type U32 = x: nat | x < U32_MODULUS

  /** The values NonZeroU32 can hold. */
  type NonZeroU32 = x: nat | 0 < x < U32_MODULUS witness 1

  /** The per-direction limits handed to the engine, in bytes per second;
      None means unlimited. */
  datatype LimitsConfig = LimitsConfig(downloadBps: Option<NonZeroU32>, uploadBps: Option<NonZeroU32>)

  /** `s * 1024` does not overflow the setting's own type. */
  predicate SettingFits(setting: Option<nat>) {
    setting.Some? ==> setting.value * KIB < SETTING_MODULUS
  }

  /** Rust's `as u32`: keeps the low 32 bits, so the result is the one value
      below 2^32 that is congruent to x modulo 2^32. */
  function TruncateToU32(x: nat): (v: U32)
    ensures (x - v) % U32_MODULUS == 0
    ensures x < U32_MODULUS ==> v == x
  {
    x % U32_MODULUS
  }

  /** `NonZeroU32::new`: absent exactly for zero. */
  function NonZero(v: U32): Option<NonZeroU32> {
    if v == 0 then None else Some(v)
  }

  /** The closure `|s| NonZeroU32::new((s * 1024) as u32)` under `and_then`. */
  function TranslateLimit(setting: Option<nat>): (r: Option<NonZeroU32>)
    requires SettingFits(setting)
  {
    match setting
    case None => None
    case Some(s) => NonZero(TruncateToU32(s * KIB))
  }

  /** Both directions, each from its own setting. */
  function BuildLimits(maxDownloadSpeed: Option<nat>, maxUploadSpeed: Option<nat>): LimitsConfig
    requires SettingFits(maxDownloadSpeed) && SettingFits(maxUploadSpeed)
  {
    LimitsConfig(TranslateLimit(maxDownloadSpeed), TranslateLimit(maxUploadSpeed))
  }

  /** Truncating the byte value keeps 1024 times the setting's residue modulo 2^22. */
  lemma {:induction false} TruncatedBytes(s: nat)
    ensures TruncateToU32(s * KIB) == (s % KIB_PER_U32_WRAP) * KIB
  {
    var q, r := s / KIB_PER_U32_WRAP, s % KIB_PER_U32_WRAP;
    assert s == q * KIB_PER_U32_WRAP + r;
    assert s * KIB == q * U32_MODULUS + r * KIB;
    WholeWrapsVanish(q, r * KIB);
  }

  /** Whole multiples of 2^32 vanish under truncation. */
  lemma {:induction false} WholeWrapsVanish(q: nat, r: nat)
    requires r < U32_MODULUS
    ensures (q * U32_MODULUS + r) % U32_MODULUS == r
  {
    if q > 0 {
      WholeWrapsVanish(q - 1, r);
      assert q * U32_MODULUS + r == ((q - 1) * U32_MODULUS + r) + U32_MODULUS;
    }
  }

  /** What the translation yields for every setting: no setting gives no limit;
      a setting gives no limit exactly when its byte value is a multiple of 2^32,
      and otherwise the limit 1024 * (s mod 2^22) B/s, which is never zero. */
  lemma TranslateLimitValue(setting: Option<nat>)
    requires SettingFits(setting)
    ensures setting.None? ==> TranslateLimit(setting).None?
    ensures setting.Some? ==>
      (TranslateLimit(setting).None? <==> setting.value % KIB_PER_U32_WRAP == 0)
    ensures setting.Some? && TranslateLimit(setting).Some? ==>
      TranslateLimit(setting).value == (setting.value % KIB_PER_U32_WRAP) * KIB
  {
    if setting.Some? {
      TruncatedBytes(setting.value);
    }
  }

  /** A positive setting whose byte value fits in 32 bits is passed on exactly. */
  lemma InRangeSettingIsExact(s: nat)
    requires 0 < s && s * KIB < U32_MODULUS
    ensures TranslateLimit(Some(s)) == Some(s * KIB)
  {
  }

  /** A zero setting imposes no limit. */
  lemma ZeroSettingIsUnlimited()
    ensures TranslateLimit(Some(0)) == None
  {
  }

  /** An overflowing setting is not treated as unlimited: 4194305 KB/s is one
      KB/s past 2^32 bytes and wraps around to a limit of 1024 B/s. */
  lemma OverflowWrapsToSmallLimit()
    ensures 4194305 * KIB >= U32_MODULUS
    ensures TranslateLimit(Some(4194305)) == Some(1024)
  {
  }

  /** An overflowing setting that is a multiple of 2^22 KB/s is unlimited. */
  lemma WrapToZeroIsUnlimited(k: nat)
    requires 0 < k && k * KIB_PER_U32_WRAP * KIB < SETTING_MODULUS
    ensures k * KIB_PER_U32_WRAP * KIB >= U32_MODULUS
    ensures TranslateLimit(Some(k * KIB_PER_U32_WRAP)) == None
  {
    TruncatedBytes(k * KIB_PER_U32_WRAP);
  }

  /** Each direction's limit depends on its own setting only. */
  lemma LimitsAreIndependent(d: Option<nat>, u: Option<nat>, d': Option<nat>, u': Option<nat>)
    requires SettingFits(d) && SettingFits(u) && SettingFits(d') && SettingFits(u')
    ensures d == d' ==> BuildLimits(d, u).downloadBps == BuildLimits(d', u').downloadBps
    ensures u == u' ==> BuildLimits(d, u).uploadBps == BuildLimits(d', u').uploadBps
  {
  }
}
