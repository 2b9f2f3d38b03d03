/**
 * The daily practice reminder (lib/notifications.ts): its settings in the
 * device's key-value store and the set of notifications scheduled with the
 * operating system.
 */
module Notifications {
  import opened Storage

  datatype ReminderSettings = ReminderSettings(enabled: bool, hour: int, minute: int)

  /** Off, at 07:00. */
  const DefaultReminder := ReminderSettings(false, 7, 0)

  /** The object stored under `@aasanify_reminder_settings`; a field may be missing. */
  datatype StoredReminder = StoredReminder(enabled: Option<bool>, hour: Option<int>, minute: Option<int>)

  function OrDefault<T>(field: Option<T>, default: T): T {
    match field
    case Some(v) => v
    case None => default
  }

  /** `{ ...DEFAULT_REMINDER, ...stored }`: a stored field overrides its default, a missing one keeps it. */
  function MergeDefaults(stored: StoredReminder): (s: ReminderSettings)
    ensures s.enabled == if stored.enabled.Some? then stored.enabled.value else DefaultReminder.enabled
    ensures s.hour == if stored.hour.Some? then stored.hour.value else DefaultReminder.hour
    ensures s.minute == if stored.minute.Some? then stored.minute.value else DefaultReminder.minute
  {
    ReminderSettings(OrDefault(stored.enabled, DefaultReminder.enabled), OrDefault(stored.hour, DefaultReminder.hour),
                     OrDefault(stored.minute, DefaultReminder.minute))
  }

  /** What `saveReminderSettings` stores: every field present. */
  function Serialize(s: ReminderSettings): StoredReminder {
    StoredReminder(Some(s.enabled), Some(s.hour), Some(s.minute))
  }

  /** `getReminderSettings`: the merged stored object, or the defaults when nothing is stored or it cannot be read. */
  function ReadSettings(slot: Slot<StoredReminder>): (s: ReminderSettings)
    ensures !slot.Holds? ==> s == DefaultReminder && !s.enabled
    ensures slot.Holds? ==> s == MergeDefaults(slot.value)
  {
    match slot
    case Holds(stored) => MergeDefaults(stored)
    case _ => DefaultReminder
  }

  lemma SettingsRoundTrip(s: ReminderSettings)
    ensures ReadSettings(Holds(Serialize(s))) == s
  {
  }

  /** One call of `getReminderSettings`: a rejected read is caught and gives the defaults, whatever the key holds. */
  function ReadSettingsOnce(slot: Slot<StoredReminder>, readFails: bool): (s: ReminderSettings)
    ensures readFails ==> s == DefaultReminder
    ensures !readFails ==> s == ReadSettings(slot)
  {
    if readFails then DefaultReminder else ReadSettings(slot)
  }

  /** The profile screen's `toggleReminder`: the settings it last read with the reminder switched. */
  function ToggleReminder(s: ReminderSettings): ReminderSettings {
    s.(enabled := !s.enabled)
  }

  /**
   * What the key reads as after the profile screen loads the reminder and one
   * toggle is saved: the switch flips and the time is kept when the load read
   * the key, but the reminder is switched on at 07:00 when that one load's
   * read rejected.
   */
  lemma ToggleReminderSaves(slot: Slot<StoredReminder>, readFails: bool)
    ensures var saved := ReadSettings(Holds(Serialize(ToggleReminder(ReadSettingsOnce(slot, readFails)))));
      && (!readFails ==> saved.enabled != ReadSettings(slot).enabled
                         && saved.hour == ReadSettings(slot).hour && saved.minute == ReadSettings(slot).minute)
      && (readFails ==> saved == ReminderSettings(true, 7, 0))
  {
    SettingsRoundTrip(ToggleReminder(ReadSettingsOnce(slot, readFails)));
  }

  /** A reminder stored off at 09:30 is stored on at 07:00 after a failed load and one toggle. */
  lemma EnableAfterFailedReadResetsTime()
    ensures var slot := Holds(StoredReminder(Some(false), Some(9), Some(30)));
      && ReadSettings(slot) == ReminderSettings(false, 9, 30)
      && ReadSettings(Holds(Serialize(ToggleReminder(ReadSettingsOnce(slot, true))))) == ReminderSettings(true, 7, 0)
  {
    ToggleReminderSaves(Holds(StoredReminder(Some(false), Some(9), Some(30))), true);
  }

  /** A notification scheduled with the operating system, repeating every day at `hour:minute`. */
  datatype DailyNotification = DailyNotification(title: string, body: string, sound: bool, hour: int, minute: int)

  function Reminder(s: ReminderSettings): DailyNotification {
    DailyNotification("Time for Yoga", "Start your Surya Namaskar practice today", true, s.hour, s.minute)
  }

  /** The schedule `scheduleReminder` leaves on a device once every call resolved: the one reminder, or none. */
  function Schedule(s: ReminderSettings, scheduleFails: bool): (scheduled: seq<DailyNotification>)
    ensures |scheduled| <= 1
    ensures |scheduled| == 1 <==> s.enabled && !scheduleFails
    ensures forall n :: n in scheduled ==> n.hour == s.hour && n.minute == s.minute
  {
    if s.enabled && !scheduleFails then [Reminder(s)] else []
  }

  /** Faults of the notification service: cancelling everything rejects, or scheduling one rejects. */
  datatype ServiceFaults = ServiceFaults(cancelFails: bool, scheduleFails: bool)

  class ReminderService {
    const isWeb: bool
    var stored: Slot<StoredReminder>
    var scheduled: seq<DailyNotification>

    constructor (isWeb: bool, stored: Slot<StoredReminder>, scheduled: seq<DailyNotification>)
      ensures this.isWeb == isWeb && this.stored == stored && this.scheduled == scheduled
    {
      this.isWeb := isWeb;
      this.stored := stored;
      this.scheduled := scheduled;
    }

    /** `getReminderSettings`. */
    method GetReminderSettings() returns (s: ReminderSettings)
      ensures s == ReadSettings(stored)
    {
      s := ReadSettings(stored);
    }

    /**
     * `scheduleReminder`: nothing on the web; otherwise cancel every
     * scheduled notification and then, when enabled, schedule the daily
     * reminder (a failure to schedule is caught). A rejected cancel escapes
     * to the caller (`rejected`) with nothing changed.
     */
    method ScheduleReminder(s: ReminderSettings, faults: ServiceFaults) returns (rejected: bool)
      modifies this`scheduled
      ensures rejected <==> !isWeb && faults.cancelFails
      ensures scheduled == if isWeb || faults.cancelFails then old(scheduled) else Schedule(s, faults.scheduleFails)
    {
      if isWeb {
        return false;
      }
      if faults.cancelFails {
        return true;
      }
      scheduled := [];
      if !s.enabled {
        return false;
      }
      if !faults.scheduleFails {
        scheduled := scheduled + [Reminder(s)];
      }
      return false;
    }

    /**
     * `saveReminderSettings`: store the settings, then reschedule with them;
     * a failure of either step is logged and swallowed, and a failed write
     * skips the rescheduling.
     */
    method SaveReminderSettings(s: ReminderSettings, writeFails: bool, faults: ServiceFaults)
      modifies this
      ensures stored == if writeFails then old(stored) else Holds(Serialize(s))
      ensures scheduled == if writeFails || isWeb || faults.cancelFails then old(scheduled) else Schedule(s, faults.scheduleFails)
    {
      if writeFails {
        return;
      }
      stored := Holds(Serialize(s));
      var _ := ScheduleReminder(s, faults);
    }

    /**
     * `initializeReminders`: on a device, schedule the stored reminder when it
     * is enabled; a rejected cancel escapes to the caller.
     */
    method InitializeReminders(faults: ServiceFaults) returns (rejected: bool)
      modifies this`scheduled
      ensures var s := ReadSettings(stored);
        && (rejected <==> !isWeb && s.enabled && faults.cancelFails)
        && scheduled == if isWeb || !s.enabled || faults.cancelFails then old(scheduled) else Schedule(s, faults.scheduleFails)
    {
      if isWeb {
        return false;
      }
      var s := GetReminderSettings();
      rejected := false;
      if s.enabled {
        rejected := ScheduleReminder(s, faults);
      }
    }
  }
}
