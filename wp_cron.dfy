/**
 * WP-Cron as the controller sees it: the registered recurrences and a set of
 * scheduled events, each a hook with a timestamp and a recurrence name.
 */
module WpCron {
  import opened Wrappers

  datatype CronEvent = CronEvent(hook: string, timestamp: int, recurrence: string)

  /** PHP truthiness of what `wp_next_scheduled` returns: `false` and 0 are false. */
  predicate Truthy(t: Option<int>) {
    t.Some? && t.value != 0
  }

  class Cron {
    const schedules: map<string, nat>   // recurrence name to interval in seconds
    var events: set<CronEvent>

    /** WordPress stores only events with a positive timestamp. */
    ghost predicate Valid()
      reads this
    {
      forall e | e in events :: e.timestamp > 0
    }

    constructor (schedules: map<string, nat>)
      ensures Valid() && this.schedules == schedules && events == {}
    {
      this.schedules := schedules;
      events := {};
    }

    /** The timestamps at which `hook` is scheduled. */
    function Timestamps(hook: string): (ts: set<int>)
      reads this
      ensures ts == {} <==> forall e :: e in events ==> e.hook != hook
    {
      var ts := set e | e in events && e.hook == hook :: e.timestamp;
      assert (exists e :: e in events && e.hook == hook) ==> ts != {} by {
        if exists e :: e in events && e.hook == hook {
          var e :| e in events && e.hook == hook;
          assert e.timestamp in ts;
        }
      }
      ts
    }

    /** The events of every other hook. */
    function OtherHooks(hook: string): set<CronEvent>
      reads this
    {
      set e | e in events && e.hook != hook
    }

    /** `wp_next_scheduled`: the earliest timestamp of `hook`, None when it has none. */
    method NextScheduled(hook: string) returns (t: Option<int>)
      ensures t.None? <==> Timestamps(hook) == {}
      ensures t.Some? ==> t.value in Timestamps(hook)
      ensures t.Some? ==> forall u :: u in Timestamps(hook) ==> t.value <= u
    {
      var pending := Timestamps(hook);
      if pending == {} {
        return None;
      }
      var earliest :| earliest in pending;
      while pending != {}
        invariant pending <= Timestamps(hook)
        invariant earliest in Timestamps(hook)
        invariant forall u :: u in Timestamps(hook) && u !in pending ==> earliest <= u
        decreases |pending|
      {
        var u :| u in pending;
        if u < earliest {
          earliest := u;
        }
        pending := pending - {u};
      }
      return Some(earliest);
    }

    /** `wp_unschedule_event`: drop the event of `hook` at `timestamp`. */
    method UnscheduleEvent(timestamp: int, hook: string)
      requires Valid()
      modifies this
      ensures Valid()
      ensures events == set e | e in old(events) && !(e.hook == hook && e.timestamp == timestamp)
    {
      events := set e | e in events && !(e.hook == hook && e.timestamp == timestamp);
    }

    /**
     * `wp_schedule_event`: add a recurring event; refused (false) for a
     * timestamp that is not positive or a recurrence that is not registered.
     */
    method ScheduleEvent(timestamp: int, recurrence: string, hook: string) returns (ok: bool)
      requires Valid()
      modifies this
      ensures Valid()
      ensures ok <==> timestamp > 0 && recurrence in schedules
      ensures events == old(events) + (if ok then {CronEvent(hook, timestamp, recurrence)} else {})
    {
      if timestamp <= 0 || recurrence !in schedules {
        return false;
      }
      events := events + {CronEvent(hook, timestamp, recurrence)};
      return true;
    }
  }
}
