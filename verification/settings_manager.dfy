/** The settings manager: one `AppSettings` value in memory, saved to its
    store key after every assignment, with typed quick-access properties and
    the AI quota counter. */
module SettingsManagement {
  import opened Basics
  import opened Persistence
  import opened AppSettingsModel

  /** The in-memory settings and what the store key currently holds. */
  datatype SettingsManager = SettingsManager(settings: AppSettings, stored: Slot<AppSettings>)

  /** The store holds exactly the in-memory settings. */
  predicate Synced(m: SettingsManager)
  {
    Load(m.stored) == Some(m.settings)
  }

  /** Start-up: decoded settings when the key holds decodable data, the
      defaults otherwise. Property observers do not run during
      initialisation, so nothing is written. */
  function Init(stored: Slot<AppSettings>): (m: SettingsManager)
    ensures m.stored == stored
    ensures Load(stored).Some? ==> Synced(m)
    ensures Load(stored).None? ==> m.settings == DefaultSettings()
  {
    match Load(stored)
    case Some(s) => SettingsManager(s, stored)
    case None => SettingsManager(DefaultSettings(), stored)
  }

  /** Assigning `settings`: the observer then saves, and a failed encode
      leaves the store as it was. */
  function Assign(m: SettingsManager, s: AppSettings): (r: SettingsManager)
    ensures r.settings == s
    ensures Encodable(s) ==> Synced(r)
    ensures !Encodable(s) ==> r.stored == m.stored
  {
    SettingsManager(s, Save(m.stored, s, Encodable(s)))
  }

  /** A start-up after an assignment of encodable settings yields them
      back; otherwise the settings of the previous save, or the defaults. */
  lemma SettingsSurviveRestart(m: SettingsManager, s: AppSettings)
    ensures Encodable(s) ==> Init(Assign(m, s).stored).settings == s
    ensures !Encodable(s) ==> Init(Assign(m, s).stored) == Init(m.stored)
  {
  }

  // ---------------------------------------------------------------------
  // Quick access

  /** The quick-access properties, named after the settings fields they
      forward to. */
  datatype Field =
    | DefaultSnoozeTaps | DefaultDismissTaps | DefaultMoveSpeed | SnoozeDuration
    | AiProvider | UserAPIKey | FreeQuotaRemaining

  /** A value of one of the property types. */
  datatype FieldValue =
    | IntValue(i: int)
    | DoubleValue(d: Double)
    | ProviderValue(p: AIProviderType)
    | KeyValue(k: Option<string>)

  /** Whether `v` has the type of property `f`. */
  predicate FitsField(f: Field, v: FieldValue)
  {
    match f
    case DefaultSnoozeTaps | DefaultDismissTaps | SnoozeDuration | FreeQuotaRemaining => v.IntValue?
    case DefaultMoveSpeed => v.DoubleValue?
    case AiProvider => v.ProviderValue?
    case UserAPIKey => v.KeyValue?
  }

  /** A property getter: it reads the corresponding settings field. */
  function Get(s: AppSettings, f: Field): (v: FieldValue)
    ensures FitsField(f, v)
    ensures f == DefaultSnoozeTaps ==> v == IntValue(s.defaultSnoozeTaps)
    ensures f == DefaultDismissTaps ==> v == IntValue(s.defaultDismissTaps)
    ensures f == DefaultMoveSpeed ==> v == DoubleValue(s.defaultMoveSpeed)
    ensures f == SnoozeDuration ==> v == IntValue(s.snoozeDuration)
    ensures f == AiProvider ==> v == ProviderValue(s.aiProvider)
    ensures f == UserAPIKey ==> v == KeyValue(s.userAPIKey)
    ensures f == FreeQuotaRemaining ==> v == IntValue(s.freeQuotaRemaining)
  {
    match f
    case DefaultSnoozeTaps => IntValue(s.defaultSnoozeTaps)
    case DefaultDismissTaps => IntValue(s.defaultDismissTaps)
    case DefaultMoveSpeed => DoubleValue(s.defaultMoveSpeed)
    case SnoozeDuration => IntValue(s.snoozeDuration)
    case AiProvider => ProviderValue(s.aiProvider)
    case UserAPIKey => KeyValue(s.userAPIKey)
    case FreeQuotaRemaining => IntValue(s.freeQuotaRemaining)
  }

  /** A property setter: it assigns one field of `settings`, which saves.
      The getter then returns the new value, every other property keeps its
      value, and so do the fields without a quick-access property. */
  function Set(m: SettingsManager, f: Field, v: FieldValue): (r: SettingsManager)
    requires FitsField(f, v)
    ensures Get(r.settings, f) == v
    ensures forall g: Field | g != f :: Get(r.settings, g) == Get(m.settings, g)
    ensures r.settings.soundVolume == m.settings.soundVolume
    ensures r.settings.vibrationEnabled == m.settings.vibrationEnabled
    ensures Encodable(r.settings) ==> Synced(r)
    ensures !Encodable(r.settings) ==> r.stored == m.stored
  {
    var s := m.settings;
    Assign(m, match f
      case DefaultSnoozeTaps => s.(defaultSnoozeTaps := v.i)
      case DefaultDismissTaps => s.(defaultDismissTaps := v.i)
      case DefaultMoveSpeed => s.(defaultMoveSpeed := v.d)
      case SnoozeDuration => s.(snoozeDuration := v.i)
      case AiProvider => s.(aiProvider := v.p)
      case UserAPIKey => s.(userAPIKey := v.k)
      case FreeQuotaRemaining => s.(freeQuotaRemaining := v.i))
  }

  // ---------------------------------------------------------------------
  // AI quota

  /** Whether a generation was granted, and the manager afterwards. */
  datatype QuotaUse = QuotaUse(granted: bool, manager: SettingsManager)

  /** Spends one free generation if any is left. A refusal assigns nothing,
      so it does not save either. */
  function UseAIQuota(m: SettingsManager): (r: QuotaUse)
    ensures r.granted <==> m.settings.freeQuotaRemaining > 0
    ensures r.granted ==> r.manager.settings.freeQuotaRemaining == m.settings.freeQuotaRemaining - 1
    ensures r.granted ==> r.manager.settings == m.settings.(freeQuotaRemaining := r.manager.settings.freeQuotaRemaining)
    ensures r.granted && Encodable(m.settings) ==> Synced(r.manager)
    ensures r.granted && !Encodable(m.settings) ==> r.manager.stored == m.stored
    ensures !r.granted ==> r.manager == m
    ensures r.manager.settings.freeQuotaRemaining <= m.settings.freeQuotaRemaining
    ensures m.settings.freeQuotaRemaining >= 0 ==> r.manager.settings.freeQuotaRemaining >= 0
  {
    if m.settings.freeQuotaRemaining > 0 then
      QuotaUse(true, Assign(m, m.settings.(freeQuotaRemaining := m.settings.freeQuotaRemaining - 1)))
    else
      QuotaUse(false, m)
  }

  /** Restores the free quota, from any state, touching no other field. */
  function ResetQuota(m: SettingsManager): (r: SettingsManager)
    ensures r.settings.freeQuotaRemaining == FreeQuota
    ensures forall g: Field | g != FreeQuotaRemaining :: Get(r.settings, g) == Get(m.settings, g)
    ensures r.settings == m.settings.(freeQuotaRemaining := FreeQuota)
    ensures Encodable(m.settings) ==> Synced(r)
    ensures !Encodable(m.settings) ==> r.stored == m.stored
  {
    Assign(m, m.settings.(freeQuotaRemaining := FreeQuota))
  }

  /** The outcome of calling `UseAIQuota` several times in a row. */
  datatype QuotaRun = QuotaRun(grants: seq<bool>, manager: SettingsManager)

  /** Calls `UseAIQuota` `n` times, collecting the answers. */
  function UseAIQuotaTimes(m: SettingsManager, n: nat): QuotaRun
    decreases n
  {
    if n == 0 then QuotaRun([], m)
    else
      var first := UseAIQuota(m);
      var rest := UseAIQuotaTimes(first.manager, n - 1);
      QuotaRun([first.granted] + rest.grants, rest.manager)
  }

  /** From a quota q >= 0, n calls are granted exactly for the first q of
      them; the quota ends at q - n, bottoming out at zero, and no other
      field changes. */
  lemma {:induction false} UseAIQuotaTimesCounts(m: SettingsManager, n: nat)
    requires m.settings.freeQuotaRemaining >= 0
    ensures |UseAIQuotaTimes(m, n).grants| == n
    ensures forall i | 0 <= i < n :: UseAIQuotaTimes(m, n).grants[i] <==> i < m.settings.freeQuotaRemaining
    ensures var q := m.settings.freeQuotaRemaining;
      UseAIQuotaTimes(m, n).manager.settings == m.settings.(freeQuotaRemaining := if q >= n then q - n else 0)
    decreases n
  {
    if n > 0 {
      var first := UseAIQuota(m);
      UseAIQuotaTimesCounts(first.manager, n - 1);
      var rest := UseAIQuotaTimes(first.manager, n - 1);
      var run := UseAIQuotaTimes(m, n);
      forall i | 1 <= i < n
        ensures run.grants[i] <==> i < m.settings.freeQuotaRemaining
      {
        assert run.grants[i] == rest.grants[i - 1];
      }
    }
  }

  /** Five calls on a full quota are granted, a sixth is refused and the
      quota rests at zero; a reset then restores it. */
  lemma DefaultQuotaScenario(m: SettingsManager)
    requires m.settings.freeQuotaRemaining == FreeQuota
    ensures UseAIQuotaTimes(m, 6).grants == [true, true, true, true, true, false]
    ensures UseAIQuotaTimes(m, 6).manager.settings.freeQuotaRemaining == 0
    ensures ResetQuota(UseAIQuotaTimes(m, 6).manager).settings == m.settings
  {
  }
}
