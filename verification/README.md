# WakeyWakey alarm core in Dafny

This project models the non-view core of WakeyWakey, an iOS alarm clock.
Once the platform calls are replaced by abstract state, every piece is a
sequential state transition or a pure helper:

- **The alarm lifecycle manager** (`AlarmManager`). It owns the ordered alarm
  collection, the copy of that collection in the key/value store, the
  notification centre's pending requests keyed by alarm id, and the
  transient trigger state (`isAlarmTriggering`, `currentTriggeringAlarm`).
  The CRUD operations are `addAlarm`, `updateAlarm`, `deleteAlarm` and
  `toggleAlarm`. The trigger operations are `triggerAlarm`, `dismissAlarm`
  and `snoozeAlarm`. Module `AlarmManagement` is in `alarm_manager.dfy`.
  Module `AlarmManagerProofs` is in `alarm_manager_proofs.dfy` and holds the
  invariant, command-sequence and scenario lemmas.
- **The alarm value model** (`Alarm`, `Weekday`, `AlarmImageType`). This
  covers the defaulting initialiser, the `repeatString` summary and the enum
  mappings. Module `AlarmModel` is in `alarm.dfy`.
- **The settings record and its manager** (`AppSettings`, `AIProviderType`,
  `SettingsManager`). This covers the defaults, save-on-assignment, the
  quick-access properties and the AI quota counter. Modules
  `AppSettingsModel` and `SettingsManagement` are in `app_settings.dfy` and
  `settings_manager.dfy`.

Shared modules:

- `Basics` (`basics.dfy`) defines `Option`, bytes, and a `Double` carrier.
  The carrier only records whether a value is finite.
- `Persistence` (`persistence.dfy`) models a store key as nothing, decodable
  data or undecodable data.

The central result is `AlarmManagerProofs.RunPreservesConsistency`. Take any
sequence of calls in which every `addAlarm` adds an enabled alarm under a
fresh id. Starting from a state where ids are unique and the pending ids equal
the enabled alarms' ids, each pending request then stays at its alarm's hour
and minute, after every call.

The model follows the code, including these behaviours a reader might not expect:

- Snoozing moves the alarm to a fixed 300 seconds after "now". It does not read
  the settings' snooze duration. It stores the *cached* ringing alarm, and
  because the request repeats daily, the alarm keeps the new time for good
  (`SnoozeScenario`).
- `triggerAlarm` replaces an alarm that is already ringing. It neither queues
  nor ignores the second one.
- `addAlarm` schedules even a disabled alarm.
- A request repeats daily and ignores `repeatDays`.
- There is no delivery callback, no de-duplication and no reconciliation pass.
- New alarms take hard-coded tap counts and move speed. They do not read the
  settings. The two sets of defaults happen to coincide
  (`AlarmDefaultsMatchSettings`).

Modelling choices:

- A `Date` is whole seconds since the reference date.
- Hour and minute are taken by fixed-zone arithmetic, a stand-in for the
  calendar (`time % 86400`, then `/ 3600` and `% 3600 / 60`).
- The notification centre's asynchronous `add` is treated as immediate and
  always successful.
- Encoding fails exactly when a `Double` field is NaN or infinite. This is the
  Foundation JSON encoder's default behaviour, and a failed encode leaves the
  store unchanged.
- Swift's `label` field is named `alarmLabel`, because `label` is reserved in
  Dafny.

## Model

| member | source | states |
|---|---|---|
| Persistence.Load | Sources/Managers/AlarmManager.swift:74-79 | a missing key or undecodable data reads as nothing; otherwise the stored value |
| Persistence.Save | Sources/Managers/AlarmManager.swift:68-72 | a successful encode writes the value so that it loads back; a failed encode leaves the key as it was |
| AlarmModel.WeekdayRaw | Sources/Models/Alarm.swift:58-65 | every day's raw value lies in 1..7 |
| AlarmModel.WeekdayFromRaw | Sources/Models/Alarm.swift:58-65 | the raw-value initialiser succeeds exactly on 1..7 and returns the day with that raw value |
| AlarmModel.AllWeekdays | Sources/Models/Alarm.swift:58-65 | the seven cases in order, case i having raw value i + 1 |
| AlarmModel.WeekdayId | Sources/Models/Alarm.swift:67 | a day's id decodes back to that day |
| AlarmModel.WeekdayRawInjective | Sources/Models/Alarm.swift:58-67 | raw values are pairwise distinct, decode back to their day, and the id is the raw value |
| AlarmModel.WeekdayShortName | Sources/Models/Alarm.swift:81-91 | each short name is one non-space character that reads back as its day |
| AlarmModel.WeekdayName | Sources/Models/Alarm.swift:69-79 | each long name is the week prefix followed by that day's short name |
| AlarmModel.WeekdayNamesInjective | Sources/Models/Alarm.swift:69-91 | distinct days have distinct names and distinct short names |
| AlarmModel.ImageTypeRaw | Sources/Models/Alarm.swift:95-99 | every image type's raw value decodes back to that type |
| AlarmModel.ImageTypeFromRaw | Sources/Models/Alarm.swift:95-99 | the raw-value initialiser succeeds exactly on "defaultBunny", "defaultLobster", "customPhoto" and "aiGenerated" |
| AlarmModel.ImageTypeId | Sources/Models/Alarm.swift:101 | an image type's id decodes back to that type |
| AlarmModel.ImageTypeDisplayName | Sources/Models/Alarm.swift:103-110 | each picker label is an icon, a space and words, and is never mistaken for a raw value |
| AlarmModel.ImageTypeRawRoundTrip | Sources/Models/Alarm.swift:95-99 | the raw-value initialiser inverts the raw value in both directions |
| AlarmModel.ImageTypeInjective | Sources/Models/Alarm.swift:95-110 | raw values and display names are pairwise distinct, and the id is the raw value |
| AlarmModel.NewAlarm | Sources/Models/Alarm.swift:16-38 | a defaulted alarm is enabled, has no image data and a once-only summary, and has label "起床啦！", the bunny image, 1 snooze tap, 3 dismiss taps and move speed 0.5 |
| AlarmModel.ShortNames | Sources/Models/Alarm.swift:52 | the day list is mapped element by element to short names |
| AlarmModel.RepeatString | Sources/Models/Alarm.swift:46-54 | no days gives "只響一次", seven entries give "每天", and every other length gives a text that is neither |
| AlarmModel.RepeatStringLayout | Sources/Models/Alarm.swift:51-52 | for n days, n not 0 or 7, the summary has length 2n - 1, day i's short name at position 2i, a space at every odd position, and exactly n - 1 spaces |
| AlarmModel.RepeatStringRoundTrip | Sources/Models/Alarm.swift:46-54 | for lengths other than 0 and 7, the summary reads back as the day list, and a text that reads back as such a list is its summary |
| AlarmModel.RepeatStringCountsOnly | Sources/Models/Alarm.swift:47-50 | for every day list, the summary is "每天" iff the list has seven entries (even seven copies of one day) and "只響一次" iff it is empty |
| AppSettingsModel.ProviderRaw | Sources/Models/AppSettings.swift:39-43 | every provider's raw value decodes back to that provider |
| AppSettingsModel.ProviderFromRaw | Sources/Models/AppSettings.swift:39-43 | the raw-value initialiser succeeds exactly on "minimax", "openai", "stability" and "userCustom" |
| AppSettingsModel.ProviderId | Sources/Models/AppSettings.swift:45 | a provider's id decodes back to that provider |
| AppSettingsModel.ProviderDisplayName | Sources/Models/AppSettings.swift:47-54 | each picker label is non-empty, differs from the raw value and is never mistaken for one |
| AppSettingsModel.Encodable | Sources/Managers/SettingsManager.swift:25-29 | the JSON encoder accepts the settings exactly when neither `Double` field (default move speed, sound volume) is NaN or infinite |
| AppSettingsModel.ProviderRawRoundTrip | Sources/Models/AppSettings.swift:39-45 | the provider raw-value initialiser inverts the raw values "minimax", "openai", "stability", "userCustom" |
| AppSettingsModel.ProviderInjective | Sources/Models/AppSettings.swift:39-54 | provider raw values and display names are pairwise distinct, and the id is the raw value |
| AppSettingsModel.DefaultSettings | Sources/Models/AppSettings.swift:15-35 | defaults: snooze taps 1, dismiss taps 3, move speed 0.5, snooze 5 minutes, volume 0.8, vibration on, MiniMax, no key, quota 5; they encode |
| AppSettingsModel.AlarmDefaultsMatchSettings | Sources/Models/AppSettings.swift:16-18 | the alarm initialiser's tap counts and move speed equal the settings defaults |
| SettingsManagement.Init | Sources/Managers/SettingsManager.swift:15-22 | decodable stored settings are adopted; with nothing stored or undecodable data the result is exactly the defaults; nothing is written |
| SettingsManagement.Assign | Sources/Managers/SettingsManager.swift:6-10 | every assignment is followed by a save: encodable settings end up stored, otherwise the store keeps its old snapshot |
| SettingsManagement.SettingsSurviveRestart | Sources/Managers/SettingsManager.swift:15-29 | a restart after an encodable assignment loads exactly the assigned settings; after a failed encode it behaves as before the assignment |
| SettingsManagement.Get | Sources/Managers/SettingsManager.swift:32-65 | each quick-access getter returns its own settings field (snooze taps, dismiss taps, move speed, snooze duration, provider, API key, quota), with that property's type |
| SettingsManagement.Set | Sources/Managers/SettingsManager.swift:32-65 | a quick-access setter makes its getter return the new value, leaves every other property and non-property field unchanged, and saves |
| SettingsManagement.UseAIQuota | Sources/Managers/SettingsManager.swift:68-74 | granted iff quota > 0, in which case the quota drops by exactly 1 and nothing else changes; the new settings are stored when they encode and the store is untouched when they do not; a refusal changes nothing; the quota never rises and stays non-negative |
| SettingsManagement.ResetQuota | Sources/Managers/SettingsManager.swift:76-78 | the quota becomes 5 from any state and no other field changes; the result is stored when it encodes, and the store is untouched when it does not |
| SettingsManagement.UseAIQuotaTimesCounts | Sources/Managers/SettingsManager.swift:68-74 | from quota q >= 0, n calls grant exactly the first q and leave the quota at max(q - n, 0) |
| SettingsManagement.DefaultQuotaScenario | Sources/Managers/SettingsManager.swift:68-78 | from 5, five calls are granted, a sixth is refused leaving 0, and a reset restores the settings |
| AlarmManagement.TriggerFor | Sources/Managers/AlarmManager.swift:89-92 | a request keeps only the hour (< 24) and minute (< 60) whose minute window contains the time of day, and always repeats |
| AlarmManagement.Schedule | Sources/Managers/AlarmManager.swift:93-99 | a request is added under the alarm's id, replacing any earlier one, with every other request unchanged |
| AlarmManagement.Cancel | Sources/Managers/AlarmManager.swift:41 | removing the request for an id leaves every other request unchanged and tolerates an absent id |
| AlarmManagement.AlarmsEncodable | Sources/Managers/AlarmManager.swift:68-72 | the JSON encoder accepts the collection exactly when no alarm's move speed is NaN or infinite |
| AlarmManagement.SaveAlarms | Sources/Managers/AlarmManager.swift:68-72 | an encodable collection ends up stored; otherwise the store keeps its old snapshot; nothing else changes |
| AlarmManagement.Init | Sources/Managers/AlarmManager.swift:14-17 | start-up loads a decodable stored collection, else starts empty, and nothing is ringing |
| AlarmManagement.FirstIndex | Sources/Managers/AlarmManager.swift:36 | the first position holding the id, or none when no alarm has it |
| AlarmManagement.RemoveAll | Sources/Managers/AlarmManager.swift:49 | exactly the alarms with other ids remain, and a collection without the id is unchanged |
| AlarmManagement.AddAlarm | Sources/Managers/AlarmManager.swift:29-33 | appends at the end, keeps earlier entries, saves, and leaves a request for the id even when the alarm is disabled |
| AlarmManagement.UpdateAlarm | Sources/Managers/AlarmManager.swift:35-46 | an unknown id changes nothing at all; otherwise only the first match is replaced, it is saved, and the id is pending iff the new alarm is enabled |
| AlarmManagement.DeleteAlarm | Sources/Managers/AlarmManager.swift:48-52 | removes every alarm with the id, saves, and drops only that id's request, whether or not it was scheduled |
| AlarmManagement.ToggleAlarm | Sources/Managers/AlarmManager.swift:54-65 | an unknown id changes nothing at all; otherwise only the first match's isEnabled flips, it is saved, and the id is pending iff the alarm is now enabled |
| AlarmManagement.TriggerAlarm | Sources/Managers/AlarmManager.swift:103-106 | the given alarm becomes current and ringing, whatever was ringing before |
| AlarmManagement.DismissAlarm | Sources/Managers/AlarmManager.swift:108-111 | ringing stops and the current alarm is cleared; nothing else changes |
| AlarmManagement.SnoozeAlarm | Sources/Managers/AlarmManager.swift:113-122 | with nothing current nothing changes; otherwise the cached alarm is stored at now + 300 s under its first match (if any), saved (the store is untouched when encoding fails) and rescheduled iff enabled, and ringing stops even when its id is gone |
| AlarmManagerProofs.RemoveAllConcat | Sources/Managers/AlarmManager.swift:49 | removal distributes over concatenation, so the kept alarms stay in order |
| AlarmManagerProofs.AddPreservesConsistency | Sources/Managers/AlarmManager.swift:29-33 | adding an enabled alarm under a fresh id keeps ids unique and pending requests equal to the enabled alarms |
| AlarmManagerProofs.AddDisabledBreaksReconciliation | Sources/Managers/AlarmManager.swift:29-33 | adding a disabled alarm leaves a request pending for an alarm that is off |
| AlarmManagerProofs.AddDuplicateBreaksUniqueness | Sources/Managers/AlarmManager.swift:29-30 | adding an id already present makes ids clash |
| AlarmManagerProofs.UpdatePreservesConsistency | Sources/Managers/AlarmManager.swift:35-46 | any update keeps the invariant |
| AlarmManagerProofs.ToggleIsUpdateOfFlipped | Sources/Managers/AlarmManager.swift:35-65 | toggling equals updating with the stored alarm's flag flipped |
| AlarmManagerProofs.TogglePreservesConsistency | Sources/Managers/AlarmManager.swift:54-65 | any toggle keeps the invariant |
| AlarmManagerProofs.DeletePreservesConsistency | Sources/Managers/AlarmManager.swift:48-52 | any delete keeps the invariant |
| AlarmManagerProofs.SnoozePreservesConsistency | Sources/Managers/AlarmManager.swift:113-122 | any snooze keeps the invariant |
| AlarmManagerProofs.PendingAt | Sources/Managers/AlarmManager.swift:29-65 | under the invariant, a stored alarm's id is pending iff the alarm is enabled, and then at its hour and minute |
| AlarmManagerProofs.ToggleKeepsFirstIndex | Sources/Managers/AlarmManager.swift:55-56 | a toggle does not change where the id is found first |
| AlarmManagerProofs.TogglePending | Sources/Managers/AlarmManager.swift:54-65 | one toggle cancels an enabled alarm's request or schedules a disabled one's at its time |
| AlarmManagerProofs.ToggleTwiceRestores | Sources/Managers/AlarmManager.swift:54-65 | toggling twice restores the collection and, under the invariant, the pending requests |
| AlarmManagerProofs.RunPreservesConsistency | Sources/Managers/AlarmManager.swift:29-122 | every call sequence whose adds are enabled and fresh keeps pending ids equal to the enabled ids |
| AlarmManagerProofs.IdleResolutionsAreNoOps | Sources/Managers/AlarmManager.swift:108-116 | with nothing ringing, dismiss and snooze change nothing |
| AlarmManagerProofs.TriggerOverwritesAndResolves | Sources/Managers/AlarmManager.swift:103-122 | a second trigger replaces the first; dismiss and snooze both return to idle |
| AlarmManagerProofs.TriggerDependsOnTimeOfDayOnly | Sources/Managers/AlarmManager.swift:89-92 | the request depends on the time of day alone, not on the date, repeatDays or any other field |
| AlarmManagerProofs.AlarmsSurviveRestart | Sources/Managers/AlarmManager.swift:68-79 | a persisted collection is loaded back whole at the next start-up |
| AlarmManagerProofs.CrudThenRestart | Sources/Managers/AlarmManager.swift:29-79 | after any CRUD call or snooze that leaves an encodable collection, a restart reloads the in-memory collection |
| AlarmManagerProofs.CancelIdempotent | Sources/Managers/AlarmManager.swift:41 | cancelling twice is cancelling once |
| AlarmManagerProofs.ToggleScenario | Sources/Managers/AlarmManager.swift:29-65 | add a 07:00 alarm, then disable and re-enable it: the request goes and comes back at 07:00, and the store holds the alarm |
| AlarmManagerProofs.SnoozeScenario | Sources/Managers/AlarmManager.swift:103-122 | an alarm snoozed at 07:00 is kept in memory and in the store at 07:05, requested for 07:05 repeating, and ringing stops |
| AlarmManagerProofs.DeleteAll | Sources/Views/SettingsView.swift:151-156 | deleting each alarm of a snapshot empties the collection, cancels exactly those ids' requests, and stores the empty collection unless there was nothing to delete |

## Left out

- Notification permission request, notification content (title, body, sound, badge) and the asynchronous completion handlers with their error printing: these are platform I/O. A scheduling error is not modelled; the request is assumed to be added.
- `timeString` and the `DateFormatter`: presentation only.
- The Foundation JSON encoder and decoder and the byte layout in UserDefaults: a store key is an abstract snapshot, and a decode failure is a distinct stored state.
- Time zones, daylight saving and sub-second parts of a `Date`: hour and minute use fixed-zone arithmetic on whole seconds.
- `Double` arithmetic: move speed, sound volume and default move speed are carried opaquely, and only their finiteness is used, for encodability.
- The SwiftUI views and components and the app entry point. The "delete all" loop of the settings screen is modelled as a client of `deleteAlarm`. The settings screen's "reset all settings" action is not modelled.
- Delivery callbacks, de-duplication of deliveries, a reconciliation pass and weekday-filtered firing: the code has none.
- AI provider use and API key handling: configuration values only, never invoked.
- AlarmManagement.TriggerFor: the hour and minute are computed in one fixed zone with no daylight saving, not with the user's calendar.
