/** The alarm lifecycle manager: the ordered alarm collection, its persisted
    copy, the pending notification requests of the notification centre
    (keyed by alarm id) and the transient trigger state. Every operation is a
    pure transition from one manager state to the next. */
module AlarmManagement {
  import opened Basics
  import opened Persistence
  import opened AlarmModel

  // ---------------------------------------------------------------------
  // Notification requests

  /** A calendar trigger: the hour and minute to match and whether it
      repeats. */
  datatype Trigger = Trigger(hour: nat, minute: nat, repeats: bool)

  /** The pending notification requests, keyed by the alarm id they were
      scheduled under. Adding a request under a pending id replaces it. */
  type Pending = map<Uuid, Trigger>

  const SecondsPerDay: int := 86400
  /** How far a snooze moves the alarm: five minutes, fixed. */
  const SnoozeSeconds: int := 60 * 5

  /** The trigger scheduled for an alarm: the hour and minute of its time,
      repeating daily. Hour and minute are taken in one fixed time zone with
      no daylight saving. Nothing but `time` is consulted: in particular not
      `repeatDays`. */
  function TriggerFor(a: Alarm): (t: Trigger)
    ensures t.repeats
    ensures t.hour < 24 && t.minute < 60
    ensures t.hour * 3600 + t.minute * 60 <= a.time % SecondsPerDay < t.hour * 3600 + t.minute * 60 + 60
  {
    var secondOfDay := a.time % SecondsPerDay;
    Trigger(secondOfDay / 3600, secondOfDay % 3600 / 60, true)
  }

  /** Adds the request for an alarm, replacing any request under its id. */
  function Schedule(p: Pending, a: Alarm): (r: Pending)
    ensures r.Keys == p.Keys + {a.id}
    ensures r[a.id] == TriggerFor(a)
    ensures r - {a.id} == p - {a.id}
  {
    p[a.id := TriggerFor(a)]
  }

  /** Removes the request under an id; nothing happens when there is none. */
  function Cancel(p: Pending, id: Uuid): (r: Pending)
    ensures r.Keys == p.Keys - {id}
    ensures forall k | k in r :: r[k] == p[k]
  {
    p - {id}
  }

  // ---------------------------------------------------------------------
  // Manager state

  /** `alarms` in display order; `pending` as the notification centre holds
      it; `stored` as the store key holds it; `triggering` and `current`
      describe the alarm now ringing, if any. */
  datatype AlarmManager = AlarmManager(
    alarms: seq<Alarm>,
    pending: Pending,
    stored: Slot<seq<Alarm>>,
    triggering: bool,
    current: Option<Alarm>)

  /** Whether the JSON encoder accepts the collection: every `moveSpeed`
      must be finite. */
  predicate AlarmsEncodable(alarms: seq<Alarm>): (r: bool)
    ensures r <==> forall a | a in alarms :: a.moveSpeed != NonFinite
  {
    forall i | 0 <= i < |alarms| :: alarms[i].moveSpeed.Finite?
  }

  /** The store holds exactly the in-memory collection. */
  predicate Persisted(m: AlarmManager)
  {
    Load(m.stored) == Some(m.alarms)
  }

  /** Encodes the whole collection and writes it; an encoding failure is
      swallowed and leaves the previous contents. */
  function SaveAlarms(m: AlarmManager): (r: AlarmManager)
    ensures r.alarms == m.alarms && r.pending == m.pending
    ensures r.triggering == m.triggering && r.current == m.current
    ensures AlarmsEncodable(m.alarms) ==> Persisted(r)
    ensures !AlarmsEncodable(m.alarms) ==> r.stored == m.stored
  {
    m.(stored := Save(m.stored, m.alarms, AlarmsEncodable(m.alarms)))
  }

  /** Start-up: the decoded collection when the key holds decodable data,
      else empty; nothing rings. The requests the notification centre
      still holds from earlier runs are a parameter. */
  function Init(stored: Slot<seq<Alarm>>, pending: Pending): (m: AlarmManager)
    ensures m.stored == stored && m.pending == pending
    ensures !m.triggering && m.current == None
    ensures Load(stored).Some? ==> Persisted(m)
    ensures Load(stored).None? ==> m.alarms == []
  {
    var alarms := match Load(stored) case Some(decoded) => decoded case None => [];
    AlarmManager(alarms, pending, stored, false, None)
  }

  /** Position of the first alarm with the given id, if any. */
  function FirstIndex(alarms: seq<Alarm>, id: Uuid): (r: Option<nat>)
    ensures r.Some? ==> r.value < |alarms| && alarms[r.value].id == id
    ensures r.Some? ==> forall j | 0 <= j < r.value :: alarms[j].id != id
    ensures r.None? ==> forall j | 0 <= j < |alarms| :: alarms[j].id != id
  {
    if |alarms| == 0 then None
    else if alarms[0].id == id then Some(0)
    else match FirstIndex(alarms[1..], id)
      case None => None
      case Some(i) => Some(i + 1)
  }

  /** The collection without any alarm carrying the given id, others in
      their original order. */
  function RemoveAll(alarms: seq<Alarm>, id: Uuid): (r: seq<Alarm>)
    ensures forall x :: x in r <==> x in alarms && x.id != id
    ensures |r| <= |alarms|
    ensures (forall j | 0 <= j < |alarms| :: alarms[j].id != id) ==> r == alarms
  {
    if |alarms| == 0 then []
    else (if alarms[0].id == id then [] else [alarms[0]]) + RemoveAll(alarms[1..], id)
  }

  // ---------------------------------------------------------------------
  // CRUD

  /** Appends, saves and schedules. Scheduling is unconditional: a disabled
      alarm gets a request too. */
  function AddAlarm(m: AlarmManager, a: Alarm): (r: AlarmManager)
    ensures |r.alarms| == |m.alarms| + 1 && r.alarms[|m.alarms|] == a
    ensures r.alarms[..|m.alarms|] == m.alarms
    ensures AlarmsEncodable(r.alarms) ==> Persisted(r)
    ensures !AlarmsEncodable(r.alarms) ==> r.stored == m.stored
    ensures a.id in r.pending && r.pending[a.id] == TriggerFor(a)
    ensures r.pending - {a.id} == m.pending - {a.id}
    ensures r.triggering == m.triggering && r.current == m.current
  {
    var saved := SaveAlarms(m.(alarms := m.alarms + [a]));
    saved.(pending := Schedule(saved.pending, a))
  }

  /** Replaces the first alarm with the same id, saves, cancels that id's
      request and schedules the new version when it is enabled. An id not
      in the collection changes nothing at all. */
  function UpdateAlarm(m: AlarmManager, a: Alarm): (r: AlarmManager)
    ensures FirstIndex(m.alarms, a.id).None? ==> r == m
    ensures FirstIndex(m.alarms, a.id).Some? ==>
      var i := FirstIndex(m.alarms, a.id).value;
      && |r.alarms| == |m.alarms|
      && r.alarms[i] == a
      && (forall j | 0 <= j < |m.alarms| && j != i :: r.alarms[j] == m.alarms[j])
      && (a.id in r.pending <==> a.isEnabled)
      && (a.isEnabled ==> r.pending[a.id] == TriggerFor(a))
      && r.pending - {a.id} == m.pending - {a.id}
      && (AlarmsEncodable(r.alarms) ==> Persisted(r))
      && (!AlarmsEncodable(r.alarms) ==> r.stored == m.stored)
    ensures r.triggering == m.triggering && r.current == m.current
  {
    match FirstIndex(m.alarms, a.id)
    case None => m
    case Some(i) =>
      var saved := SaveAlarms(m.(alarms := m.alarms[i := a]));
      var cancelled := Cancel(saved.pending, a.id);
      saved.(pending := if a.isEnabled then Schedule(cancelled, a) else cancelled)
  }

  /** Removes every alarm with the alarm's id, saves, and cancels the id's
      request; an unknown or never-scheduled id is not an error. */
  function DeleteAlarm(m: AlarmManager, a: Alarm): (r: AlarmManager)
    ensures r.alarms == RemoveAll(m.alarms, a.id)
    ensures forall j | 0 <= j < |r.alarms| :: r.alarms[j].id != a.id
    ensures AlarmsEncodable(r.alarms) ==> Persisted(r)
    ensures !AlarmsEncodable(r.alarms) ==> r.stored == m.stored
    ensures r.pending.Keys == m.pending.Keys - {a.id}
    ensures r.pending - {a.id} == m.pending - {a.id}
    ensures r.triggering == m.triggering && r.current == m.current
  {
    var saved := SaveAlarms(m.(alarms := RemoveAll(m.alarms, a.id)));
    saved.(pending := Cancel(saved.pending, a.id))
  }

  /** Flips `isEnabled` of the first alarm with the id, saves, then
      schedules the stored alarm when it is now enabled and cancels the id
      otherwise. An id not in the collection changes nothing at all. */
  function ToggleAlarm(m: AlarmManager, a: Alarm): (r: AlarmManager)
    ensures FirstIndex(m.alarms, a.id).None? ==> r == m
    ensures FirstIndex(m.alarms, a.id).Some? ==>
      var i := FirstIndex(m.alarms, a.id).value;
      var before := m.alarms[i];
      && |r.alarms| == |m.alarms|
      && r.alarms[i].isEnabled == !before.isEnabled
      && r.alarms[i] == before.(isEnabled := r.alarms[i].isEnabled)
      && (forall j | 0 <= j < |m.alarms| && j != i :: r.alarms[j] == m.alarms[j])
      && (a.id in r.pending <==> r.alarms[i].isEnabled)
      && (r.alarms[i].isEnabled ==> r.pending[a.id] == TriggerFor(before))
      && r.pending - {a.id} == m.pending - {a.id}
      && (AlarmsEncodable(r.alarms) ==> Persisted(r))
      && (!AlarmsEncodable(r.alarms) ==> r.stored == m.stored)
    ensures r.triggering == m.triggering && r.current == m.current
  {
    match FirstIndex(m.alarms, a.id)
    case None => m
    case Some(i) =>
      var flipped := m.alarms[i].(isEnabled := !m.alarms[i].isEnabled);
      var saved := SaveAlarms(m.(alarms := m.alarms[i := flipped]));
      saved.(pending := if flipped.isEnabled then Schedule(saved.pending, flipped)
                        else Cancel(saved.pending, a.id))
  }

  // ---------------------------------------------------------------------
  // Trigger state machine

  /** Starts ringing an alarm, replacing whatever alarm was ringing; the
      collection, requests and store are untouched. */
  function TriggerAlarm(m: AlarmManager, a: Alarm): (r: AlarmManager)
    ensures r.triggering && r.current == Some(a)
    ensures r.alarms == m.alarms && r.pending == m.pending && r.stored == m.stored
  {
    m.(current := Some(a), triggering := true)
  }

  /** Stops ringing; nothing is rescheduled. */
  function DismissAlarm(m: AlarmManager): (r: AlarmManager)
    ensures !r.triggering && r.current == None
    ensures r.alarms == m.alarms && r.pending == m.pending && r.stored == m.stored
  {
    m.(triggering := false, current := None)
  }

  /** With no ringing alarm, nothing happens. Otherwise the cached ringing
      alarm, with its time moved to five minutes after `now`, goes through
      `UpdateAlarm` (a no-op when its id is gone), and ringing stops. */
  function SnoozeAlarm(m: AlarmManager, now: Instant): (r: AlarmManager)
    ensures m.current.None? ==> r == m
    ensures m.current.Some? ==> !r.triggering && r.current == None
    ensures m.current.Some? && FirstIndex(m.alarms, m.current.value.id).None? ==>
      r.alarms == m.alarms && r.pending == m.pending && r.stored == m.stored
    ensures m.current.Some? && FirstIndex(m.alarms, m.current.value.id).Some? ==>
      var c := m.current.value;
      var i := FirstIndex(m.alarms, c.id).value;
      && |r.alarms| == |m.alarms|
      && r.alarms[i] == c.(time := now + SnoozeSeconds)
      && (forall j | 0 <= j < |m.alarms| && j != i :: r.alarms[j] == m.alarms[j])
      && (c.id in r.pending <==> c.isEnabled)
      && (c.isEnabled ==> r.pending[c.id] == TriggerFor(r.alarms[i]))
      && r.pending - {c.id} == m.pending - {c.id}
      && (AlarmsEncodable(r.alarms) ==> Persisted(r))
      && (!AlarmsEncodable(r.alarms) ==> r.stored == m.stored)
  {
    match m.current
    case None => m
    case Some(c) =>
      var snoozed := c.(time := now + SnoozeSeconds);
      UpdateAlarm(m, snoozed).(triggering := false, current := None)
  }
}
