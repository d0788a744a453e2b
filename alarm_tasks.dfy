/** The backend's in-memory alarm registry (`AlarmTasks`): a list of alarm
    records that `set_alarm` appends to, `cancel_alarm` and the background
    alarm task deactivate, and `list_alarms` filters. Clock readings are
    integer seconds passed in by the caller. */
module Alarms {
  import opened Common

  /** One entry of `active_alarms`. `active` is None for an entry read from
      the alarm file without that key; such an entry counts as active. */
  datatype Alarm = Alarm(
    id: int,
    message: string,
    alarmTime: int,
    minutes: int,
    active: Option<bool>,
    created: int,
    cancelled: Option<int>,
    triggered: Option<int>)

  /** `alarm.get("active", True)`. */
  predicate IsActive(a: Alarm) {
    a.active != Some(false)
  }

  datatype SetReply = SetReply(success: bool, message: string, alarmId: Option<int>, alarmTime: Option<int>)
  datatype SetResult = SetResult(alarms: seq<Alarm>, reply: SetReply)

  const NotPositive := "Alarm time must be positive"

  function SetMessage(minutes: int, message: string): string {
    "Alarm set for " + IntToString(minutes) + " minutes: " + message
  }

  /** `set_alarm(minutes, message)` at clock `now`: a non-positive delay is
      refused with the list untouched; otherwise one active alarm whose id is
      the old length plus one is appended and its id returned. */
  function AddAlarm(alarms: seq<Alarm>, minutes: int, message: string, now: int): (r: SetResult)
    ensures minutes <= 0 ==> r.alarms == alarms && r.reply == SetReply(false, NotPositive, None, None)
    ensures minutes > 0 ==>
      && |r.alarms| == |alarms| + 1
      && r.alarms[..|alarms|] == alarms
      && r.alarms[|alarms|].id == |alarms| + 1
      && r.alarms[|alarms|].active == Some(true)
      && r.alarms[|alarms|].message == message
      && r.alarms[|alarms|].alarmTime == now + 60 * minutes
      && r.reply.success
      && r.reply.alarmId == Some(|alarms| + 1)
      && Contains(r.reply.message, message)
  {
    if minutes <= 0 then
      SetResult(alarms, SetReply(false, NotPositive, None, None))
    else
      var id := |alarms| + 1;
      var alarm := Alarm(id, message, now + 60 * minutes, minutes, Some(true), now, None, None);
      assert Contains(SetMessage(minutes, message), message) by {
        ContainsMiddle("Alarm set for " + IntToString(minutes) + " minutes: ", message, "");
        assert SetMessage(minutes, message) == "Alarm set for " + IntToString(minutes) + " minutes: " + message + "";
      }
      SetResult(alarms + [alarm], SetReply(true, SetMessage(minutes, message), Some(id), Some(alarm.alarmTime)))
  }

  // ------------------------------------------------------------ cancel_alarm

  predicate Cancellable(a: Alarm, id: int) {
    a.id == id && IsActive(a)
  }

  /** Index of the first entry from position `from` on that can be cancelled
      under `id`. */
  function FirstCancellable(alarms: seq<Alarm>, id: int, from: nat): (r: Option<nat>)
    requires from <= |alarms|
    ensures r.Some? ==> from <= r.value < |alarms| && Cancellable(alarms[r.value], id)
    ensures r.Some? ==> forall j :: from <= j < r.value ==> !Cancellable(alarms[j], id)
    ensures r.None? ==> forall j :: from <= j < |alarms| ==> !Cancellable(alarms[j], id)
    decreases |alarms| - from
  {
    if from == |alarms| then None
    else if Cancellable(alarms[from], id) then Some(from)
    else FirstCancellable(alarms, id, from + 1)
  }

  datatype Reply = Reply(success: bool, message: string)
  datatype CancelResult = CancelResult(alarms: seq<Alarm>, reply: Reply)

  function NotFound(id: int): string {
    "Active alarm with ID " + IntToString(id) + " not found"
  }

  /** `cancel_alarm(id)` at clock `now`: deactivates the first active entry
      with that id and stamps it cancelled; with none, fails and changes
      nothing. */
  function CancelById(alarms: seq<Alarm>, id: int, now: int): (r: CancelResult)
    ensures |r.alarms| == |alarms|
    ensures r.reply.success <==> exists j :: 0 <= j < |alarms| && Cancellable(alarms[j], id)
    ensures !r.reply.success ==> r.alarms == alarms && r.reply.message == NotFound(id)
  {
    match FirstCancellable(alarms, id, 0)
    case None => CancelResult(alarms, Reply(false, NotFound(id)))
    case Some(j) =>
      CancelResult(alarms[j := alarms[j].(active := Some(false), cancelled := Some(now))],
                   Reply(true, "Alarm " + IntToString(id) + " cancelled successfully"))
  }

  /** A successful cancel changes exactly the first cancellable entry: it is
      now inactive and stamped; every other entry is as it was. */
  lemma CancelChangesOnlyFirstMatch(alarms: seq<Alarm>, id: int, now: int)
    requires CancelById(alarms, id, now).reply.success
    ensures FirstCancellable(alarms, id, 0).Some?
    ensures var j := FirstCancellable(alarms, id, 0).value;
            var after := CancelById(alarms, id, now).alarms;
            && after[j].active == Some(false) && after[j].cancelled == Some(now)
            && after[j].id == id && after[j].message == alarms[j].message
            && (forall k :: 0 <= k < |alarms| && k != j ==> after[k] == alarms[k])
            && (forall k :: 0 <= k < j ==> !Cancellable(alarms[k], id))
  {
  }

  /** Ids are unique, as they are when every entry came from AddAlarm. */
  predicate UniqueIds(alarms: seq<Alarm>) {
    forall i, j :: 0 <= i < j < |alarms| ==> alarms[i].id != alarms[j].id
  }

  /** The i-th entry has id i + 1. */
  predicate IdsSequential(alarms: seq<Alarm>) {
    forall k :: 0 <= k < |alarms| ==> alarms[k].id == k + 1
  }

  lemma SequentialIdsAreUnique(alarms: seq<Alarm>)
    requires IdsSequential(alarms)
    ensures UniqueIds(alarms)
  {
  }

  /** With unique ids, cancelling the same id twice fails the second time. */
  lemma SecondCancelFails(alarms: seq<Alarm>, id: int, now: int, later: int)
    requires UniqueIds(alarms)
    ensures !CancelById(CancelById(alarms, id, now).alarms, id, later).reply.success
  {
    var first := CancelById(alarms, id, now);
    if first.reply.success {
      var j := FirstCancellable(alarms, id, 0).value;
      forall k | 0 <= k < |first.alarms| ensures !Cancellable(first.alarms[k], id) {
        if k != j {
          assert first.alarms[k] == alarms[k];
          assert alarms[k].id != alarms[j].id by {
            if k < j { assert alarms[k].id != alarms[j].id; } else { assert alarms[j].id != alarms[k].id; }
          }
        }
      }
    }
  }

  // ------------------------------------------------------------- list_alarms

  datatype Listed = Listed(id: int, message: string, remaining: int, alarmTime: int)

  predicate Pending(a: Alarm, now: int) {
    IsActive(a) && a.alarmTime - now > 0
  }

  /** The entries `list_alarms` reports at clock `now`, in list order. */
  function Upcoming(alarms: seq<Alarm>, now: int): (r: seq<Listed>)
    ensures |r| <= |alarms|
  {
    if alarms == [] then []
    else
      var a := alarms[|alarms| - 1];
      Upcoming(alarms[..|alarms| - 1], now)
        + (if Pending(a, now) then [Listed(a.id, a.message, a.alarmTime - now, a.alarmTime)] else [])
  }

  function AsListed(a: Alarm, now: int): Listed {
    Listed(a.id, a.message, a.alarmTime - now, a.alarmTime)
  }

  /** Every reported entry is a pending alarm of the list, with its
      remaining time. */
  lemma {:induction false} UpcomingSound(alarms: seq<Alarm>, now: int)
    ensures forall e :: e in Upcoming(alarms, now) ==>
      e.remaining > 0 && exists k :: 0 <= k < |alarms| && Pending(alarms[k], now) && e == AsListed(alarms[k], now)
  {
    if alarms != [] {
      var init := alarms[..|alarms| - 1];
      var a := alarms[|alarms| - 1];
      UpcomingSound(init, now);
      forall e | e in Upcoming(alarms, now)
        ensures e.remaining > 0 && exists k :: 0 <= k < |alarms| && Pending(alarms[k], now) && e == AsListed(alarms[k], now)
      {
        if e in Upcoming(init, now) {
          var k :| 0 <= k < |init| && Pending(init[k], now) && e == AsListed(init[k], now);
          assert init[k] == alarms[k];
        } else {
          assert Pending(a, now) && e == AsListed(a, now);
        }
      }
    }
  }

  /** Every pending alarm of the list is reported. */
  lemma {:induction false} UpcomingComplete(alarms: seq<Alarm>, now: int)
    ensures forall k :: 0 <= k < |alarms| && Pending(alarms[k], now) ==> AsListed(alarms[k], now) in Upcoming(alarms, now)
  {
    if alarms != [] {
      var init := alarms[..|alarms| - 1];
      UpcomingComplete(init, now);
      forall k | 0 <= k < |alarms| && Pending(alarms[k], now)
        ensures AsListed(alarms[k], now) in Upcoming(alarms, now)
      {
        if k < |init| { assert init[k] == alarms[k]; }
      }
    }
  }

  datatype ListReply = ListReply(success: bool, message: string, alarms: seq<Listed>)

  function ListMessage(n: nat): string {
    "Found " + IntToString(n) + " active alarms"
  }

  // ----------------------------------------------------------- alarm firing

  datatype Triggered = Triggered(message: string, alarmId: int)
  datatype FireResult = FireResult(alarms: seq<Alarm>, fired: Option<Triggered>)

  function FirstWithId(alarms: seq<Alarm>, id: int, from: nat): (r: Option<nat>)
    requires from <= |alarms|
    ensures r.Some? ==> from <= r.value < |alarms| && alarms[r.value].id == id
    ensures r.Some? ==> forall j :: from <= j < r.value ==> alarms[j].id != id
    ensures r.None? ==> forall j :: from <= j < |alarms| ==> alarms[j].id != id
    decreases |alarms| - from
  {
    if from == |alarms| then None
    else if alarms[from].id == id then Some(from)
    else FirstWithId(alarms, id, from + 1)
  }

  /** The background task of the alarm at index k wakes at clock `now`: if
      that alarm is still marked active, the first entry with its id is
      deactivated and stamped triggered, and the trigger is reported. An
      alarm whose "active" key is false (or missing, which raises and is
      logged) does nothing. */
  function FireAlarm(alarms: seq<Alarm>, k: nat, now: int): (r: FireResult)
    requires k < |alarms|
    ensures |r.alarms| == |alarms|
    ensures alarms[k].active != Some(true) ==> r == FireResult(alarms, None)
    ensures alarms[k].active == Some(true) ==>
      && r.fired == Some(Triggered(alarms[k].message, alarms[k].id))
      && FirstWithId(alarms, alarms[k].id, 0).Some?
      && var j := FirstWithId(alarms, alarms[k].id, 0).value;
         j <= k && r.alarms == alarms[j := alarms[j].(active := Some(false), triggered := Some(now))]
  {
    if alarms[k].active == Some(true) then
      var j := FirstWithId(alarms, alarms[k].id, 0);
      if j.None? then assert false; FireResult(alarms, None)
      else FireResult(alarms[j.value := alarms[j.value].(active := Some(false), triggered := Some(now))],
                      Some(Triggered(alarms[k].message, alarms[k].id)))
    else FireResult(alarms, None)
  }

  /** With unique ids the alarm that fires is the one marked triggered. */
  lemma FireMarksItself(alarms: seq<Alarm>, k: nat, now: int)
    requires k < |alarms| && UniqueIds(alarms) && alarms[k].active == Some(true)
    ensures FireAlarm(alarms, k, now).alarms[k].active == Some(false)
    ensures FireAlarm(alarms, k, now).alarms[k].triggered == Some(now)
  {
  }

  /** An alarm cancelled before its task wakes is never marked triggered. */
  lemma CancelledAlarmDoesNotFire(alarms: seq<Alarm>, id: int, now: int, later: int)
    requires CancelById(alarms, id, now).reply.success
    ensures FirstCancellable(alarms, id, 0).Some?
    ensures var j := FirstCancellable(alarms, id, 0).value;
            var after := CancelById(alarms, id, now).alarms;
            FireAlarm(after, j, later) == FireResult(after, None)
  {
  }

  /** Every operation keeps ids sequential, so a registry started empty
      hands out 1, 2, 3, ... in list order. */
  lemma AddAlarmKeepsIdsSequential(alarms: seq<Alarm>, minutes: int, message: string, now: int)
    requires IdsSequential(alarms)
    ensures IdsSequential(AddAlarm(alarms, minutes, message, now).alarms)
  {
    var r := AddAlarm(alarms, minutes, message, now);
    if minutes > 0 {
      forall k | 0 <= k < |r.alarms| ensures r.alarms[k].id == k + 1 {
        if k < |alarms| { assert r.alarms[k] == r.alarms[..|alarms|][k]; }
      }
    }
  }

  lemma CancelKeepsIdsSequential(alarms: seq<Alarm>, id: int, now: int)
    requires IdsSequential(alarms)
    ensures IdsSequential(CancelById(alarms, id, now).alarms)
  {
  }

  lemma FireKeepsIdsSequential(alarms: seq<Alarm>, k: nat, now: int)
    requires k < |alarms| && IdsSequential(alarms)
    ensures IdsSequential(FireAlarm(alarms, k, now).alarms)
  {
  }

  /** n successful calls on an empty registry: the ids are 1..n in order. */
  function AddAll(alarms: seq<Alarm>, requests: seq<(int, string)>, now: int): seq<Alarm>
    decreases |requests|
  {
    if requests == [] then alarms
    else AddAll(AddAlarm(alarms, requests[0].0, requests[0].1, now).alarms, requests[1..], now)
  }

  lemma {:induction false} AddAllFromEmpty(alarms: seq<Alarm>, requests: seq<(int, string)>, now: int)
    requires IdsSequential(alarms)
    requires forall i :: 0 <= i < |requests| ==> requests[i].0 > 0
    ensures |AddAll(alarms, requests, now)| == |alarms| + |requests|
    ensures IdsSequential(AddAll(alarms, requests, now))
    decreases |requests|
  {
    if requests != [] {
      AddAlarmKeepsIdsSequential(alarms, requests[0].0, requests[0].1, now);
      AddAllFromEmpty(AddAlarm(alarms, requests[0].0, requests[0].1, now).alarms, requests[1..], now);
    }
  }

  // ------------------------------------------------------------------ state

  /** The registry object. Its list is replaced only at construction (the
      alarm file's contents); afterwards it is appended to and its entries
      are updated in place. `tasks` holds the indices of alarms whose
      background task has not yet woken. */
  class AlarmTasks {
    var activeAlarms: seq<Alarm>
    var tasks: set<nat>

    constructor (loaded: seq<Alarm>)
      ensures activeAlarms == loaded && tasks == {}
    {
      activeAlarms := loaded;
      tasks := {};
    }

    method SetAlarm(minutes: int, message: string, now: int) returns (reply: SetReply)
      modifies this
      ensures var r := AddAlarm(old(activeAlarms), minutes, message, now);
              activeAlarms == r.alarms && reply == r.reply
      ensures tasks == if minutes > 0 then old(tasks) + {|old(activeAlarms)|} else old(tasks)
    {
      if minutes <= 0 {
        return SetReply(false, NotPositive, None, None);
      }
      var id := |activeAlarms| + 1;
      var alarm := Alarm(id, message, now + 60 * minutes, minutes, Some(true), now, None, None);
      tasks := tasks + {|activeAlarms|};
      activeAlarms := activeAlarms + [alarm];
      reply := SetReply(true, SetMessage(minutes, message), Some(id), Some(alarm.alarmTime));
    }

    method CancelAlarm(id: int, now: int) returns (reply: Reply)
      modifies this
      ensures var r := CancelById(old(activeAlarms), id, now);
              activeAlarms == r.alarms && reply == r.reply
      ensures tasks == old(tasks)
    {
      var i := 0;
      while i < |activeAlarms|
        invariant 0 <= i <= |activeAlarms| && activeAlarms == old(activeAlarms)
        invariant FirstCancellable(activeAlarms, id, 0) == FirstCancellable(activeAlarms, id, i)
      {
        if activeAlarms[i].id == id && IsActive(activeAlarms[i]) {
          activeAlarms := activeAlarms[i := activeAlarms[i].(active := Some(false), cancelled := Some(now))];
          return Reply(true, "Alarm " + IntToString(id) + " cancelled successfully");
        }
        i := i + 1;
      }
      return Reply(false, NotFound(id));
    }

    method ListAlarms(now: int) returns (reply: ListReply)
      ensures reply.success && reply.alarms == Upcoming(activeAlarms, now)
      ensures reply.message == ListMessage(|reply.alarms|)
    {
      var listed: seq<Listed> := [];
      var i := 0;
      while i < |activeAlarms|
        invariant 0 <= i <= |activeAlarms|
        invariant listed == Upcoming(activeAlarms[..i], now)
      {
        var a := activeAlarms[i];
        assert activeAlarms[..i + 1][..i] == activeAlarms[..i];
        if IsActive(a) && a.alarmTime - now > 0 {
          listed := listed + [Listed(a.id, a.message, a.alarmTime - now, a.alarmTime)];
        }
        i := i + 1;
      }
      assert activeAlarms[..i] == activeAlarms;
      return ListReply(true, ListMessage(|listed|), listed);
    }

    /** The background task of alarm k wakes. */
    method Wake(k: nat, now: int) returns (fired: Option<Triggered>)
      requires k in tasks && k < |activeAlarms|
      modifies this
      ensures var r := FireAlarm(old(activeAlarms), k, now);
              activeAlarms == r.alarms && fired == r.fired
      ensures tasks == old(tasks) - {k}
    {
      tasks := tasks - {k};
      var alarm := activeAlarms[k];
      if alarm.active != Some(true) {
        return None;
      }
      var i := 0;
      while i < |activeAlarms|
        invariant 0 <= i <= |activeAlarms| && activeAlarms == old(activeAlarms)
        invariant FirstWithId(activeAlarms, alarm.id, 0) == FirstWithId(activeAlarms, alarm.id, i)
      {
        if activeAlarms[i].id == alarm.id {
          activeAlarms := activeAlarms[i := activeAlarms[i].(active := Some(false), triggered := Some(now))];
          break;
        }
        i := i + 1;
      }
      return Some(Triggered(alarm.message, alarm.id));
    }
  }
}
