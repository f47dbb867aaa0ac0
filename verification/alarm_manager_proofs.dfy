/** Properties of the alarm lifecycle manager that relate several calls:
    the reconciliation invariant (pending requests are exactly the enabled
    alarms, each at its alarm's hour and minute), toggling twice, whole
    command sequences, and the settings screen's "delete all" loop. */
module AlarmManagerProofs {
  import opened Basics
  import opened Persistence
  import opened AlarmModel
  import opened AlarmManagement

  /** The ids present in a collection. */
  function IdsOf(alarms: seq<Alarm>): set<Uuid>
  {
    set x | x in alarms :: x.id
  }

  /** The ids of the enabled alarms of a collection. */
  function EnabledIds(alarms: seq<Alarm>): set<Uuid>
  {
    set x | x in alarms && x.isEnabled :: x.id
  }

  /** No two alarms of the collection share an id. */
  predicate UniqueIds(alarms: seq<Alarm>)
  {
    forall i, j | 0 <= i < j < |alarms| :: alarms[i].id != alarms[j].id
  }

  /** The notification centre agrees with the collection: a request is
      pending exactly for each enabled alarm, at that alarm's hour and
      minute. */
  predicate Reconciled(m: AlarmManager)
  {
    && m.pending.Keys == EnabledIds(m.alarms)
    && forall x | x in m.alarms && x.isEnabled :: x.id in m.pending && m.pending[x.id] == TriggerFor(x)
  }

  /** The invariant the CRUD operations keep. */
  predicate Consistent(m: AlarmManager)
  {
    UniqueIds(m.alarms) && Reconciled(m)
  }

  // ---------------------------------------------------------------------
  // Helpers on collections

  /** Replacing one alarm by another with the same id changes the enabled
      ids only at that id, when ids are unique. */
  lemma EnabledIdsAfterReplace(s: seq<Alarm>, i: nat, a: Alarm)
    requires UniqueIds(s) && i < |s| && s[i].id == a.id
    ensures UniqueIds(s[i := a])
    ensures EnabledIds(s[i := a]) == (EnabledIds(s) - {a.id}) + (if a.isEnabled then {a.id} else {})
    ensures forall x | x in s[i := a] && x != a :: x in s && x.id != a.id
  {
    var t := s[i := a];
    forall x | x in t && x != a
      ensures x in s && x.id != a.id
    {
      var j :| 0 <= j < |t| && t[j] == x;
      assert j != i && s[j] == x;
    }
    forall k | k in EnabledIds(s) - {a.id}
      ensures k in EnabledIds(t)
    {
      var x :| x in s && x.isEnabled && x.id == k;
      var j :| 0 <= j < |s| && s[j] == x;
      assert j != i && t[j] == x;
    }
    forall k | k in EnabledIds(t)
      ensures k in (EnabledIds(s) - {a.id}) + (if a.isEnabled then {a.id} else {})
    {
      var x :| x in t && x.isEnabled && x.id == k;
    }
    if a.isEnabled {
      assert t[i] == a;
    }
  }

  lemma {:induction false} UniqueIdsCons(s: seq<Alarm>)
    requires |s| >= 1
    ensures UniqueIds(s) <==> UniqueIds(s[1..]) && s[0].id !in IdsOf(s[1..])
  {
  }

  lemma {:induction false} RemoveAllKeepsUnique(s: seq<Alarm>, id: Uuid)
    requires UniqueIds(s)
    ensures UniqueIds(RemoveAll(s, id))
  {
    if |s| > 0 {
      UniqueIdsCons(s);
      RemoveAllKeepsUnique(s[1..], id);
      var rest := RemoveAll(s[1..], id);
      if s[0].id != id {
        var r := [s[0]] + rest;
        assert r[1..] == rest;
        assert IdsOf(rest) <= IdsOf(s[1..]);
        UniqueIdsCons(r);
      }
    }
  }

  /** Deleting keeps order: removal distributes over concatenation. */
  lemma {:induction false} RemoveAllConcat(s: seq<Alarm>, t: seq<Alarm>, id: Uuid)
    ensures RemoveAll(s + t, id) == RemoveAll(s, id) + RemoveAll(t, id)
    decreases |s|
  {
    if |s| == 0 {
      assert s + t == t;
    } else {
      var st := s + t;
      assert st[0] == s[0];
      assert st[1..] == s[1..] + t;
      RemoveAllConcat(s[1..], t, id);
    }
  }

  // ---------------------------------------------------------------------
  // The invariant under each operation

  /** Adding keeps the invariant when the alarm is enabled and its id is
      fresh. */
  lemma AddPreservesConsistency(m: AlarmManager, a: Alarm)
    requires Consistent(m)
    requires a.isEnabled && a.id !in IdsOf(m.alarms)
    ensures Consistent(AddAlarm(m, a))
  {
  }

  /** Adding a disabled alarm under a fresh id breaks the invariant: its
      request is pending although the alarm is off. */
  lemma AddDisabledBreaksReconciliation(m: AlarmManager, a: Alarm)
    requires Reconciled(m)
    requires !a.isEnabled && a.id !in IdsOf(m.alarms)
    ensures !Reconciled(AddAlarm(m, a))
  {
  }

  /** Adding an id already present makes ids clash. */
  lemma AddDuplicateBreaksUniqueness(m: AlarmManager, a: Alarm)
    requires a.id in IdsOf(m.alarms)
    ensures !UniqueIds(AddAlarm(m, a).alarms)
  {
  }

  /** Updating keeps the invariant, whatever the new alarm. */
  lemma UpdatePreservesConsistency(m: AlarmManager, a: Alarm)
    requires Consistent(m)
    ensures Consistent(UpdateAlarm(m, a))
  {
    match FirstIndex(m.alarms, a.id)
    case None =>
    case Some(i) =>
      var r := UpdateAlarm(m, a);
      assert r.alarms == m.alarms[i := a];
      EnabledIdsAfterReplace(m.alarms, i, a);
      forall x | x in r.alarms && x.isEnabled
        ensures x.id in r.pending && r.pending[x.id] == TriggerFor(x)
      {
        if x != a {
          assert x.id in m.pending - {a.id};
        }
      }
  }

  /** Toggling is an update with the stored alarm's flag flipped. */
  lemma ToggleIsUpdateOfFlipped(m: AlarmManager, a: Alarm)
    requires FirstIndex(m.alarms, a.id).Some?
    ensures var stored := m.alarms[FirstIndex(m.alarms, a.id).value];
      ToggleAlarm(m, a) == UpdateAlarm(m, stored.(isEnabled := !stored.isEnabled))
  {
  }

  /** Toggling keeps the invariant. */
  lemma TogglePreservesConsistency(m: AlarmManager, a: Alarm)
    requires Consistent(m)
    ensures Consistent(ToggleAlarm(m, a))
  {
    if FirstIndex(m.alarms, a.id).Some? {
      ToggleIsUpdateOfFlipped(m, a);
      var stored := m.alarms[FirstIndex(m.alarms, a.id).value];
      UpdatePreservesConsistency(m, stored.(isEnabled := !stored.isEnabled));
    }
  }

  /** Deleting keeps the invariant, whether or not the id was stored or
      scheduled. */
  lemma DeletePreservesConsistency(m: AlarmManager, a: Alarm)
    requires Consistent(m)
    ensures Consistent(DeleteAlarm(m, a))
  {
    var r := DeleteAlarm(m, a);
    RemoveAllKeepsUnique(m.alarms, a.id);
    assert EnabledIds(r.alarms) == EnabledIds(m.alarms) - {a.id};
    forall x | x in r.alarms && x.isEnabled
      ensures x.id in r.pending && r.pending[x.id] == TriggerFor(x)
    {
      assert x.id in m.pending - {a.id};
    }
  }

  /** Snoozing keeps the invariant, whatever is ringing and whenever. */
  lemma SnoozePreservesConsistency(m: AlarmManager, now: Instant)
    requires Consistent(m)
    ensures Consistent(SnoozeAlarm(m, now))
  {
    if m.current.Some? {
      UpdatePreservesConsistency(m, m.current.value.(time := now + SnoozeSeconds));
    }
  }

  /** After a toggle the same alarm is found first again. */
  lemma ToggleKeepsFirstIndex(m: AlarmManager, a: Alarm)
    ensures FirstIndex(ToggleAlarm(m, a).alarms, a.id) == FirstIndex(m.alarms, a.id)
  {
  }

  /** Toggling the same alarm twice restores the collection and, under the
      invariant, the pending requests. */
  lemma ToggleTwiceRestores(m: AlarmManager, a: Alarm)
    ensures ToggleAlarm(ToggleAlarm(m, a), a).alarms == m.alarms
    ensures Consistent(m) ==> ToggleAlarm(ToggleAlarm(m, a), a).pending == m.pending
  {
    var once := ToggleAlarm(m, a);
    var twice := ToggleAlarm(once, a);
    ToggleKeepsFirstIndex(m, a);
    match FirstIndex(m.alarms, a.id)
    case None =>
    case Some(i) =>
      var orig := m.alarms[i];
      assert twice.alarms[i] == orig;
      assert twice.alarms == m.alarms;
      if Consistent(m) {
        PendingAt(m, i);
        ToggleTwicePending(m, a, i);
      }
  }

  /** The requests after one toggle of a stored alarm. */
  lemma TogglePending(m: AlarmManager, a: Alarm, i: nat)
    requires FirstIndex(m.alarms, a.id) == Some(i)
    ensures ToggleAlarm(m, a).alarms[i] == m.alarms[i].(isEnabled := !m.alarms[i].isEnabled)
    ensures ToggleAlarm(m, a).pending ==
      if m.alarms[i].isEnabled then m.pending - {a.id}
      else m.pending[a.id := TriggerFor(m.alarms[i])]
  {
  }

  /** Under the invariant, an alarm's id is pending iff the alarm is
      enabled, and then at the alarm's time of day. */
  lemma PendingAt(m: AlarmManager, i: nat)
    requires Consistent(m) && i < |m.alarms|
    ensures m.alarms[i].id in m.pending <==> m.alarms[i].isEnabled
    ensures m.alarms[i].isEnabled ==> m.pending[m.alarms[i].id] == TriggerFor(m.alarms[i])
  {
    var a := m.alarms[i];
    assert a in m.alarms;
    if a.id in m.pending {
      var x :| x in m.alarms && x.isEnabled && x.id == a.id;
      var j :| 0 <= j < |m.alarms| && m.alarms[j] == x;
      assert i == j;
    }
  }

  lemma ToggleTwicePending(m: AlarmManager, a: Alarm, i: nat)
    requires FirstIndex(m.alarms, a.id) == Some(i)
    requires FirstIndex(ToggleAlarm(m, a).alarms, a.id) == Some(i)
    requires a.id in m.pending <==> m.alarms[i].isEnabled
    requires m.alarms[i].isEnabled ==> m.pending[a.id] == TriggerFor(m.alarms[i])
    ensures ToggleAlarm(ToggleAlarm(m, a), a).pending == m.pending
  {
    var once := ToggleAlarm(m, a);
    TogglePending(m, a, i);
    TogglePending(once, a, i);
    assert TriggerFor(once.alarms[i]) == TriggerFor(m.alarms[i]);
  }

  // ---------------------------------------------------------------------
  // Command sequences

  /** A call a client can make on the manager. */
  datatype Command =
    | Add(alarm: Alarm)
    | Update(alarm: Alarm)
    | Delete(alarm: Alarm)
    | Toggle(alarm: Alarm)
    | Fire(alarm: Alarm)
    | Dismiss
    | Snooze(now: Instant)

  function Step(m: AlarmManager, c: Command): AlarmManager
  {
    match c
    case Add(a) => AddAlarm(m, a)
    case Update(a) => UpdateAlarm(m, a)
    case Delete(a) => DeleteAlarm(m, a)
    case Toggle(a) => ToggleAlarm(m, a)
    case Fire(a) => TriggerAlarm(m, a)
    case Dismiss => DismissAlarm(m)
    case Snooze(now) => SnoozeAlarm(m, now)
  }

  /** Executes the commands in order. */
  function Run(m: AlarmManager, cs: seq<Command>): AlarmManager
    decreases |cs|
  {
    if |cs| == 0 then m else Run(Step(m, cs[0]), cs[1..])
  }

  /** Every `Add` of the sequence adds an enabled alarm whose id is fresh at
      that point. */
  predicate AddsAreSafe(m: AlarmManager, cs: seq<Command>)
    decreases |cs|
  {
    |cs| == 0 ||
    ((cs[0].Add? ==> cs[0].alarm.isEnabled && cs[0].alarm.id !in IdsOf(m.alarms))
     && AddsAreSafe(Step(m, cs[0]), cs[1..]))
  }

  lemma StepPreservesConsistency(m: AlarmManager, c: Command)
    requires Consistent(m)
    requires c.Add? ==> c.alarm.isEnabled && c.alarm.id !in IdsOf(m.alarms)
    ensures Consistent(Step(m, c))
  {
    match c
    case Add(a) => AddPreservesConsistency(m, a);
    case Update(a) => UpdatePreservesConsistency(m, a);
    case Delete(a) => DeletePreservesConsistency(m, a);
    case Toggle(a) => TogglePreservesConsistency(m, a);
    case Fire(a) =>
    case Dismiss =>
    case Snooze(now) => SnoozePreservesConsistency(m, now);
  }

  /** After every sequence of calls whose adds are safe, the pending
      requests are still exactly the enabled alarms' ids. */
  lemma {:induction false} RunPreservesConsistency(m: AlarmManager, cs: seq<Command>)
    requires Consistent(m) && AddsAreSafe(m, cs)
    ensures Consistent(Run(m, cs))
    ensures Run(m, cs).pending.Keys == EnabledIds(Run(m, cs).alarms)
    decreases |cs|
  {
    if |cs| > 0 {
      StepPreservesConsistency(m, cs[0]);
      RunPreservesConsistency(Step(m, cs[0]), cs[1..]);
    }
  }

  // ---------------------------------------------------------------------
  // Trigger state machine

  /** When nothing rings, dismissing and snoozing change nothing. */
  lemma IdleResolutionsAreNoOps(m: AlarmManager, now: Instant)
    requires !m.triggering && m.current == None
    ensures DismissAlarm(m) == m && SnoozeAlarm(m, now) == m
  {
  }

  /** A second trigger replaces the first; resolving it returns to idle. */
  lemma TriggerOverwritesAndResolves(m: AlarmManager, a: Alarm, b: Alarm, now: Instant)
    ensures TriggerAlarm(TriggerAlarm(m, a), b) == TriggerAlarm(m, b)
    ensures DismissAlarm(TriggerAlarm(m, a)) == DismissAlarm(m)
    ensures var r := SnoozeAlarm(TriggerAlarm(m, a), now); !r.triggering && r.current == None
  {
  }

  // ---------------------------------------------------------------------
  // Schedule details

  /** The request depends on the alarm's time alone, and only on its time
      of day: neither the repeat days nor any other field, nor the date. */
  lemma TriggerDependsOnTimeOfDayOnly(a: Alarm, b: Alarm, days: int)
    requires a.time % SecondsPerDay == b.time % SecondsPerDay
    ensures TriggerFor(a) == TriggerFor(b)
    ensures TriggerFor(a.(time := a.time + days * SecondsPerDay)) == TriggerFor(a)
  {
    assert (a.time + days * SecondsPerDay) % SecondsPerDay == a.time % SecondsPerDay;
  }

  /** What a save wrote is what the next start-up loads: a persisted
      collection comes back whole, custom image data included. */
  lemma AlarmsSurviveRestart(m: AlarmManager, pending: Pending)
    requires Persisted(m)
    ensures Init(m.stored, pending).alarms == m.alarms
  {
  }

  /** After any CRUD call or a snooze that leaves an encodable collection, a
      restart reloads the collection that call left in memory. */
  lemma CrudThenRestart(m: AlarmManager, c: Command, pending: Pending)
    requires c.Add? || c.Update? || c.Delete? || c.Toggle? || c.Snooze?
    requires Persisted(m)
    requires AlarmsEncodable(Step(m, c).alarms)
    ensures Init(Step(m, c).stored, pending).alarms == Step(m, c).alarms
  {
  }

  /** Cancelling twice is cancelling once. */
  lemma CancelIdempotent(p: Pending, id: Uuid)
    ensures Cancel(Cancel(p, id), id) == Cancel(p, id)
  {
  }

  // ---------------------------------------------------------------------
  // Scenarios

  /** A fresh install adds a 07:00 one-shot alarm, disables it and enables
      it again: the request comes back with the same trigger. */
  lemma ToggleScenario(id: Uuid)
    ensures var a := NewAlarm(id, 7 * 3600);
      var m0 := Init(None, map[]);
      var m1 := AddAlarm(m0, a);
      var m2 := ToggleAlarm(m1, a);
      var m3 := ToggleAlarm(m2, a);
      && m1.pending == map[id := Trigger(7, 0, true)]
      && m2.pending == map[]
      && m3.pending == m1.pending
      && Load(m3.stored) == Some([a])
  {
    var a := NewAlarm(id, 7 * 3600);
    var m1 := AddAlarm(Init(None, map[]), a);
    assert m1.alarms == [a];
    assert FirstIndex(m1.alarms, id) == Some(0);
    TogglePending(m1, a, 0);
    var m2 := ToggleAlarm(m1, a);
    assert m2.pending == map[];
    TogglePending(m2, a, 0);
    var m3 := ToggleAlarm(m2, a);
    assert m3.alarms == [a];
    assert m3.pending == m1.pending;
    assert AlarmsEncodable([a]);
  }

  /** An alarm ringing at 07:00 and snoozed then is stored for 07:05,
      requested for 07:05, and ringing stops. */
  lemma SnoozeScenario(id: Uuid)
    ensures var a := NewAlarm(id, 7 * 3600);
      var m := SnoozeAlarm(TriggerAlarm(AddAlarm(Init(None, map[]), a), a), 7 * 3600);
      && m.alarms == [a.(time := 7 * 3600 + 300)]
      && m.pending == map[id := Trigger(7, 5, true)]
      && !m.triggering && m.current == None
      && Load(m.stored) == Some([a.(time := 7 * 3600 + 300)])
  {
  }

  // ---------------------------------------------------------------------
  // The settings screen's "delete all"

  /** A collection holding only alarms of `all` whose ids are not among
      `all`'s ids is empty. */
  lemma NothingLeft(r: seq<Alarm>, all: seq<Alarm>)
    requires forall x :: x in r <==> x in all && x.id !in IdsOf(all)
    ensures r == []
  {
    FirstIdListed(r, all);
  }

  /** The first alarm of a non-empty collection is in it, and its id is
      among the ids of any collection holding it. */
  lemma FirstIdListed(r: seq<Alarm>, all: seq<Alarm>)
    ensures |r| > 0 ==> r[0] in r
    ensures |r| > 0 && r[0] in all ==> r[0].id in IdsOf(all)
  {
  }

  /** One iteration of the "delete all" loop keeps its invariant. */
  lemma DeleteAllStep(m: AlarmManager, r: AlarmManager, snapshot: seq<Alarm>, k: nat)
    requires k < |snapshot|
    requires forall x :: x in r.alarms <==> x in m.alarms && x.id !in IdsOf(snapshot[..k])
    requires r.pending == m.pending - IdsOf(snapshot[..k])
    ensures var next := DeleteAlarm(r, snapshot[k]);
      && (forall x :: x in next.alarms <==> x in m.alarms && x.id !in IdsOf(snapshot[..k + 1]))
      && next.pending == m.pending - IdsOf(snapshot[..k + 1])
  {
    assert snapshot[..k + 1] == snapshot[..k] + [snapshot[k]];
    assert IdsOf(snapshot[..k + 1]) == IdsOf(snapshot[..k]) + {snapshot[k].id};
  }

  /** Deletes each alarm of a snapshot of the collection taken before the
      loop starts. The collection ends empty, exactly the requests of the
      deleted ids are cancelled, and the store is written (holding the
      empty collection) unless there was nothing to delete. */
  method DeleteAll(m: AlarmManager) returns (r: AlarmManager)
    ensures r.alarms == []
    ensures r.pending == m.pending - IdsOf(m.alarms)
    ensures |m.alarms| > 0 ==> Load(r.stored) == Some([])
    ensures |m.alarms| == 0 ==> r == m
    ensures r.triggering == m.triggering && r.current == m.current
  {
    var snapshot := m.alarms;
    r := m;
    var k := 0;
    while k < |snapshot|
      invariant 0 <= k <= |snapshot|
      invariant forall x :: x in r.alarms <==> x in m.alarms && x.id !in IdsOf(snapshot[..k])
      invariant r.pending == m.pending - IdsOf(snapshot[..k])
      invariant k > 0 && AlarmsEncodable(r.alarms) ==> Persisted(r)
      invariant k == 0 ==> r == m
      invariant r.triggering == m.triggering && r.current == m.current
    {
      DeleteAllStep(m, r, snapshot, k);
      r := DeleteAlarm(r, snapshot[k]);
      k := k + 1;
    }
    assert snapshot[..k] == snapshot;
    NothingLeft(r.alarms, m.alarms);
  }
}
