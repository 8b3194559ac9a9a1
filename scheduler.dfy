/** The sync scheduler: one nullable cron job handle, started at most once,
    stopped on demand, and reported by a status query. Each start also
    (re)initialises the database; each start that creates a job also runs
    one immediate sync, and each firing of the job runs one scheduled sync.
    Sync outcomes are caught and logged, so they never reach this state. */
module Scheduler {
  import opened Collections

  /** How a sync ended; both outcomes are caught and only logged. */
  datatype SyncOutcome = Completed(total: nat, added: nat) | Failed

  datatype SchedulerStatus = SchedulerStatus(running: bool, nextRun: string)

  const EveryFiveMinutes: string := "Every 5 minutes"
  const NotScheduled: string := "Not scheduled"

  class SyncScheduler {
    /** `cronJob`: the handle of the running job, if any. */
    var job: Option<nat>
    /** Handles issued so far; a new job gets the next one. */
    var jobsCreated: nat
    /** Calls of `initDatabase`. */
    var initCalls: nat
    /** Immediate syncs started by `startScheduler`. */
    var immediateSyncs: nat
    /** Syncs run by the job's firings. */
    var scheduledSyncs: nat

    ghost predicate Valid()
      reads this
    {
      job.Some? ==> job.value == jobsCreated - 1
    }

    constructor ()
      ensures Valid() && job.None?
      ensures jobsCreated == 0 && initCalls == 0 && immediateSyncs == 0 && scheduledSyncs == 0
    {
      job := None;
      jobsCreated := 0;
      initCalls := 0;
      immediateSyncs := 0;
      scheduledSyncs := 0;
    }

    /** `startScheduler`: initialise the database; if a job exists, stop
        there; otherwise create and start a job and run one sync at once,
        whose `outcome` is only logged. */
    method Start(outcome: SyncOutcome)
      requires Valid()
      modifies this
      ensures Valid() && job.Some?
      ensures initCalls == old(initCalls) + 1
      ensures scheduledSyncs == old(scheduledSyncs)
      ensures old(job).Some? ==> job == old(job) && jobsCreated == old(jobsCreated) && immediateSyncs == old(immediateSyncs)
      ensures old(job).None? ==>
        && job == Some(old(jobsCreated)) && jobsCreated == old(jobsCreated) + 1
        && immediateSyncs == old(immediateSyncs) + 1
    {
      initCalls := initCalls + 1;
      if job.Some? {
        return;
      }
      job := Some(jobsCreated);
      jobsCreated := jobsCreated + 1;
      immediateSyncs := immediateSyncs + 1;
    }

    /** `stopScheduler`: stop and drop the job if there is one. */
    method Stop()
      requires Valid()
      modifies this
      ensures Valid() && job.None?
      ensures jobsCreated == old(jobsCreated) && initCalls == old(initCalls)
      ensures immediateSyncs == old(immediateSyncs) && scheduledSyncs == old(scheduledSyncs)
    {
      if job.Some? {
        job := None;
      }
    }

    /** One firing of the running job: a scheduled sync whose `outcome` is
        caught, so the job stays as it was. */
    method Fire(outcome: SyncOutcome)
      requires Valid() && job.Some?
      modifies this
      ensures Valid() && job == old(job)
      ensures scheduledSyncs == old(scheduledSyncs) + 1
      ensures jobsCreated == old(jobsCreated) && initCalls == old(initCalls) && immediateSyncs == old(immediateSyncs)
    {
      scheduledSyncs := scheduledSyncs + 1;
    }

    /** `getSchedulerStatus`. */
    function GetSchedulerStatus(): (st: SchedulerStatus)
      reads this
      ensures st.running <==> job.Some?
      ensures st.nextRun == EveryFiveMinutes <==> st.running
      ensures st.nextRun == NotScheduled <==> !st.running
    {
      SchedulerStatus(job.Some?, if job.Some? then EveryFiveMinutes else NotScheduled)
    }
  }

  /** Starting twice creates one job and one immediate sync, but initialises
      the database twice. */
  method StartTwice() returns (running: bool, jobs: nat, syncs: nat, inits: nat)
    ensures running && jobs == 1 && syncs == 1 && inits == 2
  {
    var s := new SyncScheduler();
    s.Start(Completed(0, 0));
    s.Start(Completed(0, 0));
    running := s.GetSchedulerStatus().running;
    jobs, syncs, inits := s.jobsCreated, s.immediateSyncs, s.initCalls;
  }

  /** Start, stop, start: running again under a new job, after a second
      immediate sync, even when every sync failed. */
  method StartStopStart() returns (running: bool, firstJob: nat, secondJob: nat, syncs: nat)
    ensures running && firstJob != secondJob && syncs == 2
  {
    var s := new SyncScheduler();
    s.Start(Failed);
    firstJob := s.job.value;
    s.Fire(Failed);
    s.Stop();
    s.Stop();
    s.Start(Failed);
    secondJob := s.job.value;
    running := s.GetSchedulerStatus().running;
    syncs := s.immediateSyncs;
  }
}
