/**
 * includes/cron.php: the custom WP-Cron intervals, the schedule and batch-size choice, the
 * lock-protected batch run and the manual run over all sites.
 * The site store and the probe are inputs: `SelectOutcome` is what the batch query returned,
 * `probe` and `update` give what checking a site and storing its result did. Each of those
 * calls is appended to the scheduler's `calls` trace.
 */
module Cron {
  import opened Wrappers
  import opened Text
  import opened Platform
  import opened Sites
  import opened Helpers
  import T = Transients
  import M = Monitor
  import V = Validator
  import C = Constants

  // ---------------------------------------------------------------------------
  // lm_monitor_cron_schedules
  // ---------------------------------------------------------------------------

  datatype Schedule = Schedule(interval: nat, display: string)

  function DefaultSchedules(): map<string, Schedule> {
    map[
      "five_minutes" := Schedule(C.CronFiveMinutes, "Every 5 Minutes"),
      "one_minute" := Schedule(C.CronOneMinute, "Every Minute"),
      "thirty_seconds" := Schedule(C.CronThirtySeconds, "Every 30 Seconds")
    ]
  }

  /** The schedules after the filter: the plugin's three added where their names are free. */
  function MergeSchedules(schedules: map<string, Schedule>): (r: map<string, Schedule>)
    ensures r.Keys == schedules.Keys + {"five_minutes", "one_minute", "thirty_seconds"}
    ensures forall k :: k in schedules ==> r[k] == schedules[k]
    ensures forall k :: k in DefaultSchedules() && k !in schedules ==> r[k] == DefaultSchedules()[k]
  {
    DefaultSchedules() + schedules
  }

  /** Running the filter twice adds nothing more. */
  lemma MergeSchedulesIdempotent(schedules: map<string, Schedule>)
    ensures MergeSchedules(MergeSchedules(schedules)) == MergeSchedules(schedules)
  {
  }

  method CronSchedules(schedules: map<string, Schedule>) returns (r: map<string, Schedule>)
    ensures r == MergeSchedules(schedules)
  {
    r := schedules;
    if "five_minutes" !in r {
      r := r["five_minutes" := Schedule(C.CronFiveMinutes, "Every 5 Minutes")];
    }
    if "one_minute" !in r {
      r := r["one_minute" := Schedule(C.CronOneMinute, "Every Minute")];
    }
    if "thirty_seconds" !in r {
      r := r["thirty_seconds" := Schedule(C.CronThirtySeconds, "Every 30 Seconds")];
    }
  }

  // ---------------------------------------------------------------------------
  // Schedule and batch size from the check interval (in minutes, compared as a number)
  // ---------------------------------------------------------------------------

  /** The schedule `lm_monitor_schedule_cron` registers. */
  function ScheduleName(interval: real): (s: string)
    ensures s == "thirty_seconds" <==> interval <= 0.5
    ensures s == "one_minute" <==> interval == 1.0
    ensures s == "five_minutes" <==> interval > 0.5 && interval != 1.0
  {
    if interval <= 0.5 then "thirty_seconds"
    else if interval == 1.0 then "one_minute"
    else "five_minutes"
  }

  /** The batch size `lm_monitor_run_checks` asks for, with its branches in their written order. */
  function BatchSize(interval: real): nat {
    if interval <= 1.0 then C.BatchSizeFast
    else if interval <= 0.5 then C.BatchSizeVeryFast
    else C.BatchSizeDefault
  }

  /** The 3-site batch is never chosen: any interval at most 0.5 is already at most 1. */
  lemma BatchSizeChoice(interval: real)
    ensures BatchSize(interval) == C.BatchSizeFast <==> interval <= 1.0
    ensures BatchSize(interval) == C.BatchSizeDefault <==> interval > 1.0
    ensures BatchSize(interval) != C.BatchSizeVeryFast
  {
  }

  /** Every interval the settings sanitiser lets through runs every five minutes in batches of ten. */
  lemma SanitizedIntervalSchedule(env: Env, s: Settings)
    requires "check_interval" in V.SanitizeSettings(env, s)
    ensures var n := V.SanitizeSettings(env, s)["check_interval"].n;
            ScheduleName(n as real) == "five_minutes" && BatchSize(n as real) == C.BatchSizeDefault
  {
  }

  /** With the default interval of 5, which is also what the settings form stores, the same holds. */
  lemma DefaultIntervalSchedule()
    ensures DefaultSettings()["check_interval"] == Int(C.DefaultCheckInterval)
    ensures ScheduleName(C.DefaultCheckInterval as real) == "five_minutes"
    ensures BatchSize(C.DefaultCheckInterval as real) == C.BatchSizeDefault
  {
  }

  // ---------------------------------------------------------------------------
  // What one site's check does
  // ---------------------------------------------------------------------------

  datatype ProbeOutcome = ProbeThrew(message: string) | Returned(value: M.ResultValue)

  datatype UpdateOutcome = UpdateThrew(message: string) | Updated(success: bool)

  datatype SelectOutcome = SelectThrew(message: string) | Selected(sites: seq<Site>)

  datatype Call = SelectSites(batch: nat, interval: real) | Probe(url: string) | UpdateStatus(id: nat)

  /** The calls checking one site makes: the probe, then the status update when the result has the right shape. */
  function SiteCalls(s: Site, probe: Site -> ProbeOutcome): seq<Call> {
    match probe(s)
    case ProbeThrew(_) => [Probe(s.url)]
    case Returned(v) => if M.IsValidCheckResult(v) then [Probe(s.url), UpdateStatus(s.id)] else [Probe(s.url)]
  }

  function BatchCalls(sites: seq<Site>, probe: Site -> ProbeOutcome): seq<Call>
    decreases |sites|
  {
    if sites == [] then [] else BatchCalls(sites[..|sites| - 1], probe) + SiteCalls(sites[|sites| - 1], probe)
  }

  /** The scheduled run counts a site as checked only when the update succeeded. */
  predicate RunCounts(s: Site, probe: Site -> ProbeOutcome, update: Site -> UpdateOutcome) {
    probe(s).Returned? && M.IsValidCheckResult(probe(s).value) && update(s) == Updated(true)
  }

  /** The manual run counts a site as checked once the update returned, whatever it returned. */
  predicate ManualCounts(s: Site, probe: Site -> ProbeOutcome, update: Site -> UpdateOutcome) {
    probe(s).Returned? && M.IsValidCheckResult(probe(s).value) && update(s).Updated?
  }

  function RunChecked(sites: seq<Site>, probe: Site -> ProbeOutcome, update: Site -> UpdateOutcome): nat
    decreases |sites|
  {
    if sites == [] then 0
    else RunChecked(sites[..|sites| - 1], probe, update) + (if RunCounts(sites[|sites| - 1], probe, update) then 1 else 0)
  }

  function RunFailed(sites: seq<Site>, probe: Site -> ProbeOutcome, update: Site -> UpdateOutcome): nat
    decreases |sites|
  {
    if sites == [] then 0
    else RunFailed(sites[..|sites| - 1], probe, update) + (if RunCounts(sites[|sites| - 1], probe, update) then 0 else 1)
  }

  function ManualChecked(sites: seq<Site>, probe: Site -> ProbeOutcome, update: Site -> UpdateOutcome): nat
    decreases |sites|
  {
    if sites == [] then 0
    else ManualChecked(sites[..|sites| - 1], probe, update) + (if ManualCounts(sites[|sites| - 1], probe, update) then 1 else 0)
  }

  function ManualFailed(sites: seq<Site>, probe: Site -> ProbeOutcome, update: Site -> UpdateOutcome): nat
    decreases |sites|
  {
    if sites == [] then 0
    else ManualFailed(sites[..|sites| - 1], probe, update) + (if ManualCounts(sites[|sites| - 1], probe, update) then 0 else 1)
  }

  /** In both runs every site is counted exactly once, as checked or as failed. */
  lemma {:induction false} CountsCoverBatch(sites: seq<Site>, probe: Site -> ProbeOutcome, update: Site -> UpdateOutcome)
    ensures RunChecked(sites, probe, update) + RunFailed(sites, probe, update) == |sites|
    ensures ManualChecked(sites, probe, update) + ManualFailed(sites, probe, update) == |sites|
    decreases |sites|
  {
    if sites != [] {
      CountsCoverBatch(sites[..|sites| - 1], probe, update);
    }
  }

  /** The scheduled run never counts more sites as checked than the manual run would. */
  lemma {:induction false} RunCheckedAtMostManual(sites: seq<Site>, probe: Site -> ProbeOutcome, update: Site -> UpdateOutcome)
    ensures RunChecked(sites, probe, update) <= ManualChecked(sites, probe, update)
    ensures RunChecked(sites, probe, update) == ManualChecked(sites, probe, update) <==>
            forall i :: 0 <= i < |sites| ==> (ManualCounts(sites[i], probe, update) ==> RunCounts(sites[i], probe, update))
    decreases |sites|
  {
    if sites != [] {
      var init := sites[..|sites| - 1];
      RunCheckedAtMostManual(init, probe, update);
      assert forall i :: 0 <= i < |init| ==> init[i] == sites[i];
    }
  }

  /** The URLs probed by a call trace, in order. */
  function ProbedUrls(calls: seq<Call>): seq<string>
    decreases |calls|
  {
    if calls == [] then []
    else ProbedUrls(calls[..|calls| - 1]) + (match calls[|calls| - 1] case Probe(u) => [u] case _ => [])
  }

  lemma {:induction false} ProbedUrlsAppend(a: seq<Call>, b: seq<Call>)
    ensures ProbedUrls(a + b) == ProbedUrls(a) + ProbedUrls(b)
    decreases |b|
  {
    if b != [] {
      assert (a + b)[..|a + b| - 1] == a + b[..|b| - 1];
      ProbedUrlsAppend(a, b[..|b| - 1]);
    } else {
      assert a + b == a;
    }
  }

  /** The sites' URLs, in order. */
  function Urls(sites: seq<Site>): (r: seq<string>)
    ensures |r| == |sites| && forall i :: 0 <= i < |sites| ==> r[i] == sites[i].url
    decreases |sites|
  {
    if sites == [] then [] else Urls(sites[..|sites| - 1]) + [sites[|sites| - 1].url]
  }

  /** Checking one site probes its URL once. */
  lemma SiteProbesItsUrl(s: Site, probe: Site -> ProbeOutcome)
    ensures ProbedUrls(SiteCalls(s, probe)) == [s.url]
  {
    var one := [Probe(s.url)];
    assert ProbedUrls(one) == [s.url] by {
      assert one[..0] == [];
    }
    if |SiteCalls(s, probe)| == 2 {
      var upd := [UpdateStatus(s.id)];
      ProbedUrlsAppend(one, upd);
      assert SiteCalls(s, probe) == one + upd;
      assert ProbedUrls(upd) == [] by {
        assert upd[..0] == [];
      }
    }
  }

  /** Every site of the batch is probed exactly once, in the order the batch lists them. */
  lemma {:induction false} BatchProbesEverySiteInOrder(sites: seq<Site>, probe: Site -> ProbeOutcome)
    ensures ProbedUrls(BatchCalls(sites, probe)) == Urls(sites)
    decreases |sites|
  {
    if sites != [] {
      var init := sites[..|sites| - 1];
      var last := sites[|sites| - 1];
      assert BatchCalls(sites, probe) == BatchCalls(init, probe) + SiteCalls(last, probe);
      BatchProbesEverySiteInOrder(init, probe);
      ProbedUrlsAppend(BatchCalls(init, probe), SiteCalls(last, probe));
      SiteProbesItsUrl(last, probe);
      assert ProbedUrls(BatchCalls(sites, probe)) == Urls(init) + [last.url];
    }
  }

  /** A site is updated exactly when its probe returned a result of the right shape. */
  lemma {:induction false} UpdatedIffValid(sites: seq<Site>, probe: Site -> ProbeOutcome, s: Site)
    requires forall i :: 0 <= i < |sites| ==> sites[i].id == s.id ==> sites[i] == s
    ensures UpdateStatus(s.id) in BatchCalls(sites, probe) <==>
            s in sites && probe(s).Returned? && M.IsValidCheckResult(probe(s).value)
    decreases |sites|
  {
    if sites != [] {
      var init := sites[..|sites| - 1];
      assert forall i :: 0 <= i < |init| ==> init[i] == sites[i];
      UpdatedIffValid(init, probe, s);
      assert sites == init + [sites[|sites| - 1]];
    }
  }

  /** When the probe is the real check, no result is ever rejected for its shape, so every site is updated. */
  lemma RealProbeAlwaysUpdates(s: Site, env: Env, http: M.HttpOutcome, elapsedMs: nat,
                               connect: (string, int) -> M.TlsOutcome, now: int, probe: Site -> ProbeOutcome)
    requires probe(s) == Returned(M.ToValue(M.CheckWebsite(env, s.url, http, elapsedMs, connect, now)))
    ensures SiteCalls(s, probe) == [Probe(s.url), UpdateStatus(s.id)]
  {
    M.CheckResultsAreValid(env, s.url, http, elapsedMs, connect, now);
  }

  // ---------------------------------------------------------------------------
  // The lock
  // ---------------------------------------------------------------------------

  const LockKey: string := "cron_lock"

  /** `lm_monitor_is_cron_running`: any live lock entry counts, whatever its value. */
  predicate IsCronRunning(store: T.Store, now: int) {
    T.Get(store, LockKey, now).Some?
  }

  /** A released lock is not held at any time, and a fresh lock is held for its whole duration. */
  lemma LockLifetime(store: T.Store, now: int, t: int)
    ensures !IsCronRunning(T.Delete(store, LockKey), t)
    ensures now <= t <= now + C.CronLockDuration ==>
              IsCronRunning(T.Set(store, LockKey, T.Stamp(now), C.CronLockDuration, now), t)
  {
    T.GetAfterDelete(store, LockKey, t);
    if now <= t {
      T.GetAfterSet(store, LockKey, T.Stamp(now), C.CronLockDuration, now, t);
    }
  }

  datatype RunReport = Skipped | NothingToCheck | Aborted | Completed(checked: nat, failed: nat)

  datatype LastRun = LastRun(checked: nat, failed: nat)

  datatype ManualReport = NoSites | Summary(total: nat, checked: nat, failed: nat)

  class Scheduler {
    var transients: T.Store
    var calls: seq<Call>
    var lastRun: Option<LastRun>

    constructor(store: T.Store)
      ensures transients == store && calls == [] && lastRun.None?
    {
      transients := store;
      calls := [];
      lastRun := None;
    }

    /** `lm_monitor_set_cron_lock`. */
    method SetCronLock(now: int)
      modifies this`transients
      ensures transients == T.Set(old(transients), LockKey, T.Stamp(now), C.CronLockDuration, now)
    {
      transients := T.Set(transients, LockKey, T.Stamp(now), C.CronLockDuration, now);
    }

    /** `lm_monitor_release_cron_lock`. */
    method ReleaseCronLock()
      modifies this`transients
      ensures transients == T.Delete(old(transients), LockKey)
    {
      transients := T.Delete(transients, LockKey);
    }

    /** Checks the sites one by one, counting each as checked or failed. */
    method CheckBatch(sites: seq<Site>, probe: Site -> ProbeOutcome, update: Site -> UpdateOutcome)
      returns (checked: nat, failed: nat)
      modifies this`calls
      ensures checked == RunChecked(sites, probe, update) && failed == RunFailed(sites, probe, update)
      ensures calls == old(calls) + BatchCalls(sites, probe)
    {
      checked, failed := 0, 0;
      var i := 0;
      while i < |sites|
        invariant 0 <= i <= |sites|
        invariant checked == RunChecked(sites[..i], probe, update)
        invariant failed == RunFailed(sites[..i], probe, update)
        invariant calls == old(calls) + BatchCalls(sites[..i], probe)
      {
        var site := sites[i];
        ghost var done := sites[..i + 1];
        assert done[..i] == sites[..i] && done[i] == site;
        assert BatchCalls(done, probe) == BatchCalls(sites[..i], probe) + SiteCalls(site, probe);
        assert RunChecked(done, probe, update) == checked + (if RunCounts(site, probe, update) then 1 else 0);
        assert RunFailed(done, probe, update) == failed + (if RunCounts(site, probe, update) then 0 else 1);
        calls := calls + [Probe(site.url)];
        match probe(site) {
          case ProbeThrew(_) =>
            failed := failed + 1;
          case Returned(result) =>
            if !M.IsValidCheckResult(result) {
              failed := failed + 1;
            } else {
              calls := calls + [UpdateStatus(site.id)];
              match update(site) {
                case UpdateThrew(_) => failed := failed + 1;
                case Updated(ok) =>
                  if ok {
                    checked := checked + 1;
                  } else {
                    failed := failed + 1;
                  }
              }
            }
        }
        i := i + 1;
      }
      assert sites[..i] == sites;
    }

    /** `lm_monitor_run_checks` at time `now`, with the check interval read from the settings. */
    method RunChecks(now: int, interval: real, select: (nat, real) -> SelectOutcome,
                     probe: Site -> ProbeOutcome, update: Site -> UpdateOutcome) returns (report: RunReport)
      modifies this
      ensures IsCronRunning(old(transients), now) ==>
        report == Skipped && transients == old(transients) && calls == old(calls) && lastRun == old(lastRun)
      ensures !IsCronRunning(old(transients), now) ==>
        && transients == T.Delete(old(transients), LockKey)
        && calls == old(calls) + [SelectSites(BatchSize(interval), interval)] +
             (match select(BatchSize(interval), interval)
              case Selected(sites) => BatchCalls(sites, probe)
              case SelectThrew(_) => [])
        && (match select(BatchSize(interval), interval)
            case SelectThrew(_) => report == Aborted && lastRun == old(lastRun)
            case Selected(sites) =>
              if sites == [] then report == NothingToCheck && lastRun == old(lastRun)
              else
                && report == Completed(RunChecked(sites, probe, update), RunFailed(sites, probe, update))
                && lastRun == Some(LastRun(report.checked, report.failed)))
    {
      if IsCronRunning(transients, now) {
        return Skipped;
      }
      SetCronLock(now);
      var batch := BatchSize(interval);
      calls := calls + [SelectSites(batch, interval)];
      match select(batch, interval) {
        case SelectThrew(_) =>
          report := Aborted;
        case Selected(sites) =>
          if sites == [] {
            ReleaseCronLock();
            report := NothingToCheck;
          } else {
            var checked, failed := CheckBatch(sites, probe, update);
            lastRun := Some(LastRun(checked, failed));
            report := Completed(checked, failed);
          }
      }
      ReleaseCronLock();
    }

    /** `lm_monitor_manual_check_all` for an administrator, over all stored sites; it never touches the lock. */
    method ManualCheckAll(sites: seq<Site>, probe: Site -> ProbeOutcome, update: Site -> UpdateOutcome)
      returns (report: ManualReport)
      modifies this`calls
      ensures sites == [] ==> report == NoSites && calls == old(calls)
      ensures sites != [] ==>
        && report == Summary(|sites|, ManualChecked(sites, probe, update), ManualFailed(sites, probe, update))
        && calls == old(calls) + BatchCalls(sites, probe)
    {
      if sites == [] {
        return NoSites;
      }
      var checked, failed := 0, 0;
      var i := 0;
      while i < |sites|
        invariant 0 <= i <= |sites|
        invariant checked == ManualChecked(sites[..i], probe, update)
        invariant failed == ManualFailed(sites[..i], probe, update)
        invariant calls == old(calls) + BatchCalls(sites[..i], probe)
      {
        var site := sites[i];
        ghost var done := sites[..i + 1];
        assert done[..i] == sites[..i] && done[i] == site;
        assert BatchCalls(done, probe) == BatchCalls(sites[..i], probe) + SiteCalls(site, probe);
        assert ManualChecked(done, probe, update) == checked + (if ManualCounts(site, probe, update) then 1 else 0);
        assert ManualFailed(done, probe, update) == failed + (if ManualCounts(site, probe, update) then 0 else 1);
        calls := calls + [Probe(site.url)];
        match probe(site) {
          case ProbeThrew(_) =>
            failed := failed + 1;
          case Returned(result) =>
            if M.IsValidCheckResult(result) {
              calls := calls + [UpdateStatus(site.id)];
              match update(site) {
                case UpdateThrew(_) => failed := failed + 1;
                case Updated(_) => checked := checked + 1;
              }
            } else {
              failed := failed + 1;
            }
        }
        i := i + 1;
      }
      assert sites[..i] == sites;
      report := Summary(|sites|, checked, failed);
    }
  }
}
