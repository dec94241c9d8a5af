/**
 * The sync controller: runs a sync for the manual, REST and cron triggers,
 * turns the outcome into a REST response or an admin notice, and keeps the
 * cron schedule in line with the auto-sync setting.
 */
module SyncController {
  import opened Wrappers
  import opened ProductStore
  import opened SyncService
  import opened WpCron

  const MinuteInSeconds := 60
  const DefaultInterval := "hourly"

  /** The settings snapshot the controller reads (an option value with defaults filled in). */
  datatype PluginSettings = PluginSettings(
    apiEndpoint: string,
    apiKey: string,
    defaultStatus: string,
    enableAutoSync: bool,
    syncInterval: Option<string>)

  const RunEndpointMissing := WpError("siti_stock_missing_endpoint", "Stel eerst een API-endpoint in.")

  /** The settings array handed to the service's constructor: every key present. */
  function ServiceInput(settings: PluginSettings): RawSettings {
    RawSettings(Some(settings.apiEndpoint), Some(settings.apiKey), Some(settings.defaultStatus), Some(settings.enableAutoSync))
  }

  /** The result and product states after `run_sync`. */
  function RunSyncOutcome(settings: PluginSettings, send: Request -> Response, catalog: Catalog, before: map<int, Snapshot>)
    : (Result<Summary, WpError>, map<int, Snapshot>)
  {
    if PhpEmpty(settings.apiEndpoint) then (Failure(RunEndpointMissing), before)
    else SyncOutcome(WithDefaults(ServiceInput(settings)), send, catalog, before)
  }

  /** `run_sync`: refuse an empty endpoint before building the service, else sync. */
  method RunSync(settings: PluginSettings, send: Request -> Response, catalog: Catalog) returns (r: Result<Summary, WpError>)
    requires catalog.Valid()
    modifies catalog.products.Values
    ensures (r, States(catalog)) == RunSyncOutcome(settings, send, catalog, old(States(catalog)))
  {
    if PhpEmpty(settings.apiEndpoint) {
      return Failure(RunEndpointMissing);
    }
    var service := new SyncService(ServiceInput(settings));
    r := service.Sync(send, catalog);
  }

  /** `run_scheduled_sync`: the cron trigger runs a sync and drops its result. */
  method RunScheduledSync(settings: PluginSettings, send: Request -> Response, catalog: Catalog)
    requires catalog.Valid()
    modifies catalog.products.Values
    ensures States(catalog) == RunSyncOutcome(settings, send, catalog, old(States(catalog))).1
  {
    var _ := RunSync(settings, send, catalog);
  }

  /**
   * The controller checks the endpoint as stored; the service checks it
   * trimmed. An endpoint of blanks gets past the first check and is refused
   * by the second, with the service's message; nothing is sent or changed.
   */
  lemma BlankEndpointRefusedByService(settings: PluginSettings, send: Request -> Response, catalog: Catalog, before: map<int, Snapshot>)
    requires !PhpEmpty(settings.apiEndpoint)
    requires forall k :: 0 <= k < |settings.apiEndpoint| ==> IsTrimmable(settings.apiEndpoint[k])
    ensures RunSyncOutcome(settings, send, catalog, before) == (Failure(EndpointMissing), before)
  {
    BlankTrimsToEmpty(settings.apiEndpoint);
  }

  /** An empty endpoint stops the run with its error and touches no product. */
  lemma EmptyEndpointChangesNothing(settings: PluginSettings, send: Request -> Response, catalog: Catalog, before: map<int, Snapshot>)
    requires PhpEmpty(settings.apiEndpoint)
    ensures RunSyncOutcome(settings, send, catalog, before) == (Failure(RunEndpointMissing), before)
  {
  }

  // ----- REST trigger -----

  datatype RestBody =
    | ErrorBody(error: string, message: string)
    | SummaryBody(updated: int, skipped: int, errors: seq<string>)

  datatype RestResponse = RestResponse(body: RestBody, status: int)

  /** The REST response for a run: 400 with the error's code and message, or 200 with the summary. */
  function RestResponseFor(result: Result<Summary, WpError>): (response: RestResponse)
    ensures response.status == 200 <==> result.Success?
    ensures response.status == 400 <==> result.Failure?
    ensures result.Failure? ==> response.body == ErrorBody(result.error.code, result.error.message)
    ensures result.Success? ==>
      response.body == SummaryBody(result.value.updated, result.value.skipped, result.value.errors)
  {
    match result
    case Failure(e) => RestResponse(ErrorBody(e.code, e.message), 400)
    case Success(s) => RestResponse(SummaryBody(s.updated, s.skipped, s.errors), 200)
  }

  /** The summary can be read back from a 200 response unchanged. */
  lemma RestSummaryRoundTrip(summary: Summary)
    ensures var body := RestResponseFor(Success(summary)).body;
      body.SummaryBody? && Summary(body.updated, body.skipped, body.errors) == summary
  {
  }

  /** `rest_trigger_sync`. */
  method RestTriggerSync(settings: PluginSettings, send: Request -> Response, catalog: Catalog) returns (response: RestResponse)
    requires catalog.Valid()
    modifies catalog.products.Values
    ensures var (result, after) := RunSyncOutcome(settings, send, catalog, old(States(catalog)));
      response == RestResponseFor(result) && States(catalog) == after
  {
    var result := RunSync(settings, send, catalog);
    response := RestResponseFor(result);
  }

  // ----- Manual trigger -----

  datatype Notice = Notice(message: string, kind: string)

  function SyncCompletedMessage(updated: nat, skipped: nat): string {
    "Sync voltooid. " + Decimal(updated) + " producten bijgewerkt, " + Decimal(skipped) + " overgeslagen."
  }

  /** The admin notice for a manual run: the error's message, or the counts of a completed run. */
  function ManualSyncNotice(result: Result<Summary, WpError>): (notice: Notice)
    ensures notice.kind == "error" <==> result.Failure?
    ensures notice.kind == "success" <==> result.Success?
    ensures result.Failure? ==> notice.message == result.error.message
    ensures result.Success? ==> notice.message == SyncCompletedMessage(result.value.updated, result.value.skipped)
  {
    match result
    case Failure(e) => Notice(e.message, "error")
    case Success(s) => Notice(SyncCompletedMessage(s.updated, s.skipped), "success")
  }

  /** `handle_manual_sync`, from the run onwards. */
  method HandleManualSync(settings: PluginSettings, send: Request -> Response, catalog: Catalog) returns (notice: Notice)
    requires catalog.Valid()
    modifies catalog.products.Values
    ensures var (result, after) := RunSyncOutcome(settings, send, catalog, old(States(catalog)));
      notice == ManualSyncNotice(result) && States(catalog) == after
  {
    var result := RunSync(settings, send, catalog);
    notice := ManualSyncNotice(result);
  }

  // ----- Schedule -----

  const QuarterHourSchedule := "siti_stock_quarter_hour"

  /** `register_custom_schedules`: adds the quarter-hour recurrence and keeps every other one. */
  function RegisterCustomSchedules(schedules: map<string, nat>): (r: map<string, nat>)
    ensures QuarterHourSchedule in r && r[QuarterHourSchedule] == 15 * MinuteInSeconds
    ensures r.Keys == schedules.Keys + {QuarterHourSchedule}
    ensures forall name | name in schedules && name != QuarterHourSchedule :: r[name] == schedules[name]
  {
    schedules[QuarterHourSchedule := 15 * MinuteInSeconds]
  }

  /** The events after rescheduling `hook`: the other hooks' events, plus the new one when WordPress accepts it. */
  function Rescheduled(cron: Cron, hook: string, interval: string, now: int): set<CronEvent>
    reads cron
  {
    cron.OtherHooks(hook) + (if interval in cron.schedules then {CronEvent(hook, now + MinuteInSeconds, interval)} else {})
  }

  /** `clear_schedule`: unschedule the next event of `hook` until there is none. */
  method ClearSchedule(cron: Cron, hook: string)
    requires cron.Valid()
    modifies cron
    ensures cron.Valid()
    ensures cron.events == old(cron.OtherHooks(hook))
    ensures cron.Timestamps(hook) == {}
  {
    var timestamp := cron.NextScheduled(hook);
    while Truthy(timestamp)
      invariant cron.Valid()
      invariant timestamp.None? <==> cron.Timestamps(hook) == {}
      invariant timestamp.Some? ==> timestamp.value in cron.Timestamps(hook)
      invariant cron.OtherHooks(hook) == old(cron.OtherHooks(hook))
      decreases |cron.Timestamps(hook)|
    {
      ghost var before := cron.Timestamps(hook);
      cron.UnscheduleEvent(timestamp.value, hook);
      assert cron.Timestamps(hook) == before - {timestamp.value};
      timestamp := cron.NextScheduled(hook);
    }
  }

  /** `schedule_sync`: clear the hook, then schedule one event a minute from `now`. */
  method ScheduleSync(cron: Cron, hook: string, interval: string, now: int)
    requires cron.Valid() && now >= 0
    modifies cron
    ensures cron.Valid()
    ensures cron.events == old(Rescheduled(cron, hook, interval, now))
    ensures cron.Timestamps(hook) == if interval in cron.schedules then {now + MinuteInSeconds} else {}
  {
    ClearSchedule(cron, hook);
    var _ := cron.ScheduleEvent(now + MinuteInSeconds, interval, hook);
    assert interval in cron.schedules ==> CronEvent(hook, now + MinuteInSeconds, interval) in cron.events;
  }

  /** `handle_settings_update`: auto-sync off clears the hook; on, it is rescheduled once. */
  method HandleSettingsUpdate(cron: Cron, hook: string, oldValue: PluginSettings, value: PluginSettings, now: int)
    requires cron.Valid() && now >= 0
    modifies cron
    ensures cron.Valid()
    ensures !value.enableAutoSync ==> cron.events == old(cron.OtherHooks(hook)) && cron.Timestamps(hook) == {}
    ensures value.enableAutoSync ==>
      cron.events == old(Rescheduled(cron, hook, value.syncInterval.GetOr(DefaultInterval), now))
  {
    if !value.enableAutoSync {
      ClearSchedule(cron, hook);
      return;
    }
    var interval := value.syncInterval.GetOr(DefaultInterval);
    ScheduleSync(cron, hook, interval, now);
  }

  /** The interval used on activation: the setting passed through `sanitize_key`, `hourly` when unset. */
  function ActivationInterval(settings: PluginSettings): (interval: string)
    ensures settings.syncInterval.None? ==> interval == DefaultInterval
    ensures settings.syncInterval.Some? ==> interval == SanitizeKey(settings.syncInterval.value)
  {
    if settings.syncInterval.Some? then SanitizeKey(settings.syncInterval.value) else DefaultInterval
  }

  /** `maybe_schedule_from_settings`: nothing when auto-sync is off, else reschedule once. */
  method MaybeScheduleFromSettings(cron: Cron, hook: string, settings: PluginSettings, now: int)
    requires cron.Valid() && now >= 0
    modifies cron
    ensures cron.Valid()
    ensures !settings.enableAutoSync ==> cron.events == old(cron.events)
    ensures settings.enableAutoSync ==>
      cron.events == old(Rescheduled(cron, hook, ActivationInterval(settings), now))
  {
    if !settings.enableAutoSync {
      return;
    }
    ClearSchedule(cron, hook);
    var interval := ActivationInterval(settings);
    var _ := cron.ScheduleEvent(now + MinuteInSeconds, interval, hook);
    assert interval in cron.schedules ==> CronEvent(hook, now + MinuteInSeconds, interval) in cron.events;
  }

  /** Rescheduling leaves exactly one event for the hook when the interval is registered, and none otherwise. */
  lemma RescheduledHasOneEventForHook(cron: Cron, hook: string, interval: string, now: int)
    ensures var hookEvents := set e | e in Rescheduled(cron, hook, interval, now) && e.hook == hook;
      hookEvents == if interval in cron.schedules then {CronEvent(hook, now + MinuteInSeconds, interval)} else {}
  {
    var hookEvents := set e | e in Rescheduled(cron, hook, interval, now) && e.hook == hook;
    forall e | e in hookEvents
      ensures interval in cron.schedules && e == CronEvent(hook, now + MinuteInSeconds, interval)
    {
      assert e !in cron.OtherHooks(hook);
    }
  }
}
