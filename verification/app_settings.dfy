/** The application settings record and the AI provider enumeration. */
module AppSettingsModel {
  import opened Basics
  import AlarmModel

  /** The image-generation provider; configuration only, never invoked. */
  datatype AIProviderType = MiniMax | OpenAI | Stability | UserCustom

  /** The enum's string raw value. */
  function ProviderRaw(p: AIProviderType): (r: string)
    ensures ProviderFromRaw(r) == Some(p)
  {
    match p
    case MiniMax => "minimax"
    case OpenAI => "openai"
    case Stability => "stability"
    case UserCustom => "userCustom"
  }

  /** The failable initialiser from a raw value, used when decoding. */
  function ProviderFromRaw(s: string): (r: Option<AIProviderType>)
    ensures r.Some? <==> s in {"minimax", "openai", "stability", "userCustom"}
  {
    if s == "minimax" then Some(MiniMax)
    else if s == "openai" then Some(OpenAI)
    else if s == "stability" then Some(Stability)
    else if s == "userCustom" then Some(UserCustom)
    else None
  }

  /** The `Identifiable` id: the raw value itself. */
  function ProviderId(p: AIProviderType): (r: string)
    ensures ProviderFromRaw(r) == Some(p)
  {
    ProviderRaw(p)
  }

  /** The label shown in the provider picker. */
  function ProviderDisplayName(p: AIProviderType): (r: string)
    ensures |r| > 0 && r != ProviderRaw(p)
    ensures ProviderFromRaw(r) == None
  {
    match p
    case MiniMax => "MiniMax (預設)"
    case OpenAI => "OpenAI DALL-E"
    case Stability => "Stability AI"
    case UserCustom => "自訂 API"
  }

  /** Decoding inverts the raw value in both directions. */
  lemma ProviderRawRoundTrip(p: AIProviderType, s: string)
    ensures ProviderFromRaw(ProviderRaw(p)) == Some(p)
    ensures ProviderFromRaw(s) == Some(p) ==> ProviderRaw(p) == s
  {
  }

  /** Raw values (and so ids) and display names tell the providers apart. */
  lemma ProviderInjective(p1: AIProviderType, p2: AIProviderType)
    ensures ProviderId(p1) == ProviderRaw(p1)
    ensures ProviderRaw(p1) == ProviderRaw(p2) ==> p1 == p2
    ensures ProviderDisplayName(p1) == ProviderDisplayName(p2) ==> p1 == p2
  {
  }

  /** The user's preferences. Tap counts and move speed are edited on the
      settings screen; new alarms do not read them. The snooze duration is in
      minutes, and `freeQuotaRemaining` counts the free image generations
      left. */
  datatype AppSettings = AppSettings(
    defaultSnoozeTaps: int,
    defaultDismissTaps: int,
    defaultMoveSpeed: Double,
    snoozeDuration: int,
    soundVolume: Double,
    vibrationEnabled: bool,
    aiProvider: AIProviderType,
    userAPIKey: Option<string>,
    freeQuotaRemaining: int)

  /** The free quota a fresh install starts with and a reset restores. */
  const FreeQuota: int := 5

  /** Whether the JSON encoder accepts the record: both of its `Double`
      fields must be finite. */
  predicate Encodable(s: AppSettings): (r: bool)
    ensures r <==> s.defaultMoveSpeed != NonFinite && s.soundVolume != NonFinite
  {
    s.defaultMoveSpeed.Finite? && s.soundVolume.Finite?
  }

  /** The initialiser with every argument defaulted. */
  function DefaultSettings(): (s: AppSettings)
    ensures s.defaultSnoozeTaps == 1 && s.defaultDismissTaps == 3
    ensures s.defaultMoveSpeed == Finite(0.5)
    ensures s.snoozeDuration == 5 && s.freeQuotaRemaining == FreeQuota
    ensures s.soundVolume == Finite(0.8) && s.vibrationEnabled
    ensures s.aiProvider == MiniMax && s.userAPIKey == None
    ensures Encodable(s)
  {
    AppSettings(1, 3, Finite(0.5), 5, Finite(0.8), true, MiniMax, None, FreeQuota)
  }

  /** The alarm initialiser's defaults coincide with the settings' defaults
      for tap counts and move speed. */
  lemma AlarmDefaultsMatchSettings(id: AlarmModel.Uuid, now: AlarmModel.Instant)
    ensures AlarmModel.NewAlarm(id, now).snoozeCount == DefaultSettings().defaultSnoozeTaps
    ensures AlarmModel.NewAlarm(id, now).dismissCount == DefaultSettings().defaultDismissTaps
    ensures AlarmModel.NewAlarm(id, now).moveSpeed == DefaultSettings().defaultMoveSpeed
  {
  }
}
