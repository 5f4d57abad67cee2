/**
 * The bookkeeping of the Run Engine worker process: the environment state, the
 * record of the plan being executed, the foreground task UID, the background task
 * counter, the one-shot plan report, the completed-task results, and the
 * accept/reject rules of the command handlers. The Run Engine's own state, the IPython
 * kernel state and everything that runs user code (plan preparation, the plan
 * itself, a task's target, starting a thread) are inputs of the methods here.
 */
module Worker {
  import opened Basics
  import Plans

  /** State of the worker environment. */
  datatype EState = Initializing | Idle | ExecutingPlan | ExecutingTask | Closing | Closed

  /** State of the IPython kernel; `KernelOff` also stands for a worker without IPython. */
  datatype IPKernelState = KernelOff | KernelBusy | KernelIdle | KernelStarting

  /** How an entry of the execution queue is run. */
  datatype ExecOption = New | Resume | Stop | Abort | Halt | Task

  /** The Run Engine state as the worker reads it (`RE._state`). */
  datatype ReState = ReIdle | ReRunning | RePaused | RePanicked | ReOther

  /** The status field of a handler's reply. */
  datatype Status = Accepted | Rejected | Error

  /** What a worker helper raises: a `RejectedError`, or any other exception. */
  datatype Raised = RejectedError | OtherException

  /**
   * An entry of the execution queue handed to the main thread: a plan (new, or the
   * `{"option": …}` record of a continued plan) with its option, or a foreground task.
   */
  datatype ExecEntry = PlanEntry(info: Plans.Plan, option: ExecOption) | TaskEntry(taskUid: string, runInBackground: bool)

  /** The `plan_exit` report of a finished or interrupted plan. */
  datatype PlanReport = PlanReport(success: bool, planState: string, reState: ReState)

  /** The result record a finished task leaves in the completed-task list. */
  datatype TaskResult = TaskResult(taskUid: string, success: bool)

  /** `_plan_exit_status_expected`: the plan state a plan run with `opt` reports when it exits normally. */
  function PlanExitStatusExpected(opt: ExecOption): (r: Option<string>)
    ensures r.None? <==> opt == Task
    ensures opt == New || opt == Resume ==> r == Some("completed")
    ensures r.Some? && opt != New && opt != Resume ==> r.value != "completed"
  {
    match opt
    case New => Some("completed")
    case Resume => Some("completed")
    case Stop => Some("stopped")
    case Abort => Some("aborted")
    case Halt => Some("halted")
    case Task => None
  }

  /** No two plan options share an expected exit status except new and resume. */
  lemma ExitStatusDistinguishesOptions(a: ExecOption, b: ExecOption)
    requires PlanExitStatusExpected(a).Some? && PlanExitStatusExpected(a) == PlanExitStatusExpected(b)
    ensures a == b || ({a, b} == {New, Resume})
  {
  }

  /** The option named by a continue request, as `ExecOption(option)` reads it. */
  function ContinueOption(option: string): (r: Option<ExecOption>)
    ensures r.Some? <==> option in ["resume", "abort", "stop", "halt"]
    ensures r.Some? ==> r.value != New && r.value != Task
  {
    if option == "resume" then Some(Resume)
    else if option == "abort" then Some(Abort)
    else if option == "stop" then Some(Stop)
    else if option == "halt" then Some(Halt)
    else None
  }

  /**
   * The `update_existing_plans_devices` setting as the worker keeps it: one of the
   * three known options, an unknown value falling back to "NEVER".
   */
  function NormalizeUpdateOption(option: string): (r: string)
    ensures r in ["NEVER", "ENVIRONMENT_OPEN", "ALWAYS"]
    ensures option in ["NEVER", "ENVIRONMENT_OPEN", "ALWAYS"] ==> r == option
    ensures option !in ["NEVER", "ENVIRONMENT_OPEN", "ALWAYS"] ==> r == "NEVER"
  {
    if option == "NEVER" || option == "ENVIRONMENT_OPEN" || option == "ALWAYS" then option else "NEVER"
  }

  /**
   * The report and completed flag `_execute_plan` leaves behind, for a run with
   * option `opt` that returned (`raised` false) or raised, with the Run Engine in
   * state `re` afterwards. The completed flag is `None` where it is left as it was.
   */
  function PlanOutcome(opt: ExecOption, raised: bool, re: ReState): (r: (PlanReport, Option<bool>))
    ensures !raised && opt != Task ==> r.0.success && r.0.planState == PlanExitStatusExpected(opt).value && r.1 == Some(true)
    ensures (raised || opt == Task) && re == RePaused ==> r.0 == PlanReport(true, "paused", re) && r.1.None?
    ensures (raised || opt == Task) && re != RePaused ==> r.0 == PlanReport(false, "failed", re) && r.1 == Some(true)
    ensures r.0.reState == re
  {
    if !raised && opt != Task then
      (PlanReport(true, PlanExitStatusExpected(opt).value, re), Some(true))
    else if re == RePaused then
      (PlanReport(true, "paused", re), None)
    else
      (PlanReport(false, "failed", re), Some(true))
  }

  /** A report is successful exactly when the plan exited normally or was paused. */
  lemma OutcomeSuccessIff(opt: ExecOption, raised: bool, re: ReState)
    ensures PlanOutcome(opt, raised, re).0.success <==> (!raised && opt != Task) || re == RePaused
    ensures PlanOutcome(opt, raised, re).0.planState in ["completed", "stopped", "aborted", "halted", "paused", "failed"]
  {
  }

  class RunEngineWorker {
    var envState: EState
    /** `_running_plan_info`: `None` or the plan record (possibly `{}`). */
    var runningPlanInfo: Option<Plans.Plan>
    var runningPlanCompleted: bool
    var runningTaskUid: Option<string>
    var backgroundTasksNum: int
    /** `_re_report`: `None` until a plan exits, cleared when read. */
    var reReport: Option<PlanReport>
    var completedTasks: seq<TaskResult>
    var executionQueue: seq<ExecEntry>
    var exitEvent: bool
    var exitConfirmed: bool
    var shutdownInitiated: bool
    var ipKernelState: IPKernelState
    var useIpythonKernel: bool
    var updateExistingPlansDevices: string

    /** The background task counter is never negative. */
    predicate Valid()
      reads this
    {
      backgroundTasksNum >= 0
    }

    /** `__init__`: a closed environment with nothing running and the update option normalised. */
    constructor(updateOption: string, useIpython: bool)
      ensures Valid()
      ensures envState == Closed && runningPlanInfo.None? && !runningPlanCompleted && runningTaskUid.None?
      ensures backgroundTasksNum == 0 && reReport.None? && completedTasks == [] && executionQueue == []
      ensures !exitEvent && !exitConfirmed && !shutdownInitiated && ipKernelState == KernelOff
      ensures useIpythonKernel == useIpython && updateExistingPlansDevices == NormalizeUpdateOption(updateOption)
    {
      envState := Closed;
      runningPlanInfo := None;
      runningPlanCompleted := false;
      runningTaskUid := None;
      backgroundTasksNum := 0;
      reReport := None;
      completedTasks := [];
      executionQueue := [];
      exitEvent := false;
      exitConfirmed := false;
      shutdownInitiated := false;
      ipKernelState := KernelOff;
      useIpythonKernel := useIpython;
      updateExistingPlansDevices := NormalizeUpdateOption(updateOption);
    }

    /** Whether `_running_plan_info` is truthy: set and not `{}`. */
    function HasRunningPlanInfo(): bool
      reads this
    {
      runningPlanInfo.Some? && |runningPlanInfo.value| > 0
    }

    /**
     * `_start_new_plan`: only from the idle state. The plan record is saved, the
     * completed flag cleared and the state set to executing a plan before the plan's
     * name is read; a record without a name raises there, after those updates and
     * before anything is queued.
     */
    method StartNewPlan(planInfo: Plans.Plan) returns (r: Outcome<Raised>)
      modifies this
      ensures r == Fail(RejectedError) <==> old(envState) != Idle
      ensures old(envState) != Idle ==>
        envState == old(envState) && runningPlanInfo == old(runningPlanInfo)
        && runningPlanCompleted == old(runningPlanCompleted) && executionQueue == old(executionQueue)
      ensures old(envState) == Idle ==>
        envState == ExecutingPlan && runningPlanInfo == Some(planInfo) && !runningPlanCompleted
        && (r.Pass? <==> "name" in planInfo)
        && executionQueue == old(executionQueue) + (if r.Pass? then [PlanEntry(planInfo, New)] else [])
      ensures runningTaskUid == old(runningTaskUid) && backgroundTasksNum == old(backgroundTasksNum)
      ensures reReport == old(reReport) && completedTasks == old(completedTasks)
      ensures exitEvent == old(exitEvent) && exitConfirmed == old(exitConfirmed) && shutdownInitiated == old(shutdownInitiated)
      ensures ipKernelState == old(ipKernelState) && useIpythonKernel == old(useIpythonKernel)
      ensures updateExistingPlansDevices == old(updateExistingPlansDevices)
    {
      if envState != Idle {
        return Fail(RejectedError);
      }
      runningPlanInfo := Some(planInfo);
      runningPlanCompleted := false;
      envState := ExecutingPlan;
      if "name" !in planInfo {
        return Fail(OtherException);
      }
      executionQueue := executionQueue + [PlanEntry(planInfo, New)];
      return Pass;
    }

    /**
     * `_continue_plan`: an option outside resume/abort/stop/halt raises first, then
     * any state but idle is rejected; otherwise the state becomes executing a plan
     * and the continue request is queued.
     */
    method ContinuePlan(option: string) returns (r: Outcome<Raised>)
      modifies this
      ensures ContinueOption(option).None? ==> r == Fail(OtherException)
      ensures ContinueOption(option).Some? && old(envState) != Idle ==> r == Fail(RejectedError)
      ensures r.Pass? <==> ContinueOption(option).Some? && old(envState) == Idle
      ensures r.Fail? ==> envState == old(envState) && executionQueue == old(executionQueue)
      ensures r.Pass? ==>
        envState == ExecutingPlan
        && executionQueue == old(executionQueue) + [PlanEntry(map["option" := option], ContinueOption(option).value)]
      ensures runningPlanInfo == old(runningPlanInfo) && runningPlanCompleted == old(runningPlanCompleted)
      ensures runningTaskUid == old(runningTaskUid) && backgroundTasksNum == old(backgroundTasksNum)
      ensures reReport == old(reReport) && completedTasks == old(completedTasks)
      ensures exitEvent == old(exitEvent) && exitConfirmed == old(exitConfirmed) && shutdownInitiated == old(shutdownInitiated)
      ensures ipKernelState == old(ipKernelState) && useIpythonKernel == old(useIpythonKernel)
      ensures updateExistingPlansDevices == old(updateExistingPlansDevices)
    {
      var opt := ContinueOption(option);
      if opt.None? {
        return Fail(OtherException);
      }
      if envState != Idle {
        return Fail(RejectedError);
      }
      envState := ExecutingPlan;
      executionQueue := executionQueue + [PlanEntry(map["option" := option], opt.value)];
      return Pass;
    }

    /**
     * `_start_task`. The UID is the given one, or `freshUid` when none is given
     * (empty). Rejected outside idle/executing-plan/executing-task, and a foreground
     * task also outside idle. A background task bumps the counter; a foreground task
     * takes the environment and records its UID. A task for a thread (background, or
     * foreground in a separate thread) ends in "error" when the thread does not start,
     * with those updates kept; a foreground task for the main thread is queued.
     */
    method StartTask(runInBackground: bool, runInSeparateThread: bool, taskUid: string, freshUid: string, threadStarts: bool)
      returns (status: Status, uid: string)
      requires Valid()
      modifies this
      ensures Valid()
      ensures uid == (if taskUid != "" then taskUid else freshUid)
      ensures status == Rejected <==>
        old(envState) !in {Idle, ExecutingPlan, ExecutingTask} || (!runInBackground && old(envState) != Idle)
      ensures status == Rejected ==>
        envState == old(envState) && runningTaskUid == old(runningTaskUid)
        && backgroundTasksNum == old(backgroundTasksNum) && executionQueue == old(executionQueue)
      ensures status != Rejected && runInBackground ==>
        backgroundTasksNum == old(backgroundTasksNum) + 1 && envState == old(envState) && runningTaskUid == old(runningTaskUid)
      ensures status != Rejected && !runInBackground ==>
        backgroundTasksNum == old(backgroundTasksNum) && envState == ExecutingTask && runningTaskUid == Some(uid)
      ensures status != Rejected ==>
        if runInBackground || runInSeparateThread then
          executionQueue == old(executionQueue) && (status == Accepted <==> threadStarts)
        else
          executionQueue == old(executionQueue) + [TaskEntry(uid, false)] && status == Accepted
      ensures runningPlanInfo == old(runningPlanInfo) && runningPlanCompleted == old(runningPlanCompleted)
      ensures reReport == old(reReport) && completedTasks == old(completedTasks)
      ensures exitEvent == old(exitEvent) && exitConfirmed == old(exitConfirmed) && shutdownInitiated == old(shutdownInitiated)
      ensures ipKernelState == old(ipKernelState) && useIpythonKernel == old(useIpythonKernel)
      ensures updateExistingPlansDevices == old(updateExistingPlansDevices)
    {
      uid := if taskUid != "" then taskUid else freshUid;
      if envState != Idle && envState != ExecutingPlan && envState != ExecutingTask {
        return Rejected, uid;
      }
      if !runInBackground && envState != Idle {
        return Rejected, uid;
      }
      if runInBackground {
        backgroundTasksNum := backgroundTasksNum + 1;
      } else {
        envState := ExecutingTask;
        runningTaskUid := Some(uid);
      }
      if runInBackground || runInSeparateThread {
        status := if threadStarts then Accepted else Error;
      } else {
        executionQueue := executionQueue + [TaskEntry(uid, false)];
        status := Accepted;
      }
    }

    /**
     * The `finally` of a task function and the result record it appends: a foreground
     * task frees the environment, a background task decrements the counter, never
     * below zero.
     */
    method CompleteTask(taskUid: string, runInBackground: bool, success: bool)
      requires Valid()
      modifies this
      ensures Valid()
      ensures completedTasks == old(completedTasks) + [TaskResult(taskUid, success)]
      ensures !runInBackground ==>
        envState == Idle && runningTaskUid.None? && backgroundTasksNum == old(backgroundTasksNum)
      ensures runInBackground ==>
        envState == old(envState) && runningTaskUid == old(runningTaskUid)
        && backgroundTasksNum == (if old(backgroundTasksNum) > 0 then old(backgroundTasksNum) - 1 else 0)
      ensures runningPlanInfo == old(runningPlanInfo) && runningPlanCompleted == old(runningPlanCompleted)
      ensures reReport == old(reReport) && executionQueue == old(executionQueue)
      ensures exitEvent == old(exitEvent) && exitConfirmed == old(exitConfirmed) && shutdownInitiated == old(shutdownInitiated)
      ensures ipKernelState == old(ipKernelState) && useIpythonKernel == old(useIpythonKernel)
      ensures updateExistingPlansDevices == old(updateExistingPlansDevices)
    {
      if !runInBackground {
        envState := Idle;
        runningTaskUid := None;
      } else {
        backgroundTasksNum := Max(backgroundTasksNum - 1, 0);
      }
      completedTasks := completedTasks + [TaskResult(taskUid, success)];
    }

    /**
     * `_execute_plan`: whatever happens, the environment ends idle with a fresh plan
     * report; the report and the completed flag follow `PlanOutcome`. `raised` says
     * whether preparing or running the plan raised; `re` is the Run Engine state
     * afterwards.
     */
    method ExecutePlan(opt: ExecOption, raised: bool, re: ReState)
      modifies this
      ensures envState == Idle && reReport == Some(PlanOutcome(opt, raised, re).0)
      ensures runningPlanCompleted == (if PlanOutcome(opt, raised, re).1.Some? then PlanOutcome(opt, raised, re).1.value else old(runningPlanCompleted))
      ensures runningPlanInfo == old(runningPlanInfo) && runningTaskUid == old(runningTaskUid)
      ensures backgroundTasksNum == old(backgroundTasksNum) && completedTasks == old(completedTasks)
      ensures executionQueue == old(executionQueue)
      ensures exitEvent == old(exitEvent) && exitConfirmed == old(exitConfirmed) && shutdownInitiated == old(shutdownInitiated)
      ensures ipKernelState == old(ipKernelState) && useIpythonKernel == old(useIpythonKernel)
      ensures updateExistingPlansDevices == old(updateExistingPlansDevices)
    {
      var outcome := PlanOutcome(opt, raised, re);
      reReport := Some(outcome.0);
      if outcome.1.Some? {
        runningPlanCompleted := outcome.1.value;
      }
      envState := Idle;
    }

    /**
     * One pass of the main-thread loop: nothing once the exit event is set or while
     * the execution queue is empty; otherwise the front entry is taken and run, a
     * plan through `ExecutePlan` and a task through its task function.
     */
    method ExecuteNext(raised: bool, re: ReState, taskSuccess: bool) returns (taken: Option<ExecEntry>)
      requires Valid()
      modifies this
      ensures Valid()
      ensures taken.None? <==> old(exitEvent) || |old(executionQueue)| == 0
      ensures taken.None? ==>
        && envState == old(envState) && runningPlanInfo == old(runningPlanInfo)
        && runningPlanCompleted == old(runningPlanCompleted) && runningTaskUid == old(runningTaskUid)
        && backgroundTasksNum == old(backgroundTasksNum) && reReport == old(reReport)
        && completedTasks == old(completedTasks) && executionQueue == old(executionQueue)
      ensures taken.Some? ==> taken.value == old(executionQueue)[0] && executionQueue == old(executionQueue)[1..]
      ensures taken.Some? && taken.value.PlanEntry? ==>
        var outcome := PlanOutcome(taken.value.option, raised, re);
        && envState == Idle && reReport == Some(outcome.0)
        && runningPlanCompleted == (if outcome.1.Some? then outcome.1.value else old(runningPlanCompleted))
        && runningPlanInfo == old(runningPlanInfo) && runningTaskUid == old(runningTaskUid)
        && backgroundTasksNum == old(backgroundTasksNum) && completedTasks == old(completedTasks)
      ensures taken.Some? && taken.value.TaskEntry? ==>
        && completedTasks == old(completedTasks) + [TaskResult(taken.value.taskUid, taskSuccess)] && reReport == old(reReport)
        && runningPlanInfo == old(runningPlanInfo) && runningPlanCompleted == old(runningPlanCompleted)
        && (!taken.value.runInBackground ==>
              envState == Idle && runningTaskUid.None? && backgroundTasksNum == old(backgroundTasksNum))
        && (taken.value.runInBackground ==>
              envState == old(envState) && runningTaskUid == old(runningTaskUid)
              && backgroundTasksNum == (if old(backgroundTasksNum) > 0 then old(backgroundTasksNum) - 1 else 0))
      ensures exitEvent == old(exitEvent) && exitConfirmed == old(exitConfirmed) && shutdownInitiated == old(shutdownInitiated)
      ensures ipKernelState == old(ipKernelState) && useIpythonKernel == old(useIpythonKernel)
      ensures updateExistingPlansDevices == old(updateExistingPlansDevices)
    {
      if exitEvent || |executionQueue| == 0 {
        return None;
      }
      var entry := executionQueue[0];
      executionQueue := executionQueue[1..];
      match entry {
        case PlanEntry(_, opt) =>
          ExecutePlan(opt, raised, re);
        case TaskEntry(uid, background) =>
          CompleteTask(uid, background, taskSuccess);
      }
      return Some(entry);
    }

    /** `_request_plan_report_handler`: hands out the report and clears it. */
    method RequestPlanReport() returns (report: Option<PlanReport>)
      modifies this
      ensures report == old(reReport) && reReport.None?
      ensures envState == old(envState) && runningPlanInfo == old(runningPlanInfo)
      ensures runningPlanCompleted == old(runningPlanCompleted) && completedTasks == old(completedTasks)
      ensures backgroundTasksNum == old(backgroundTasksNum) && executionQueue == old(executionQueue)
      ensures runningTaskUid == old(runningTaskUid)
      ensures exitEvent == old(exitEvent) && exitConfirmed == old(exitConfirmed) && shutdownInitiated == old(shutdownInitiated)
      ensures ipKernelState == old(ipKernelState) && useIpythonKernel == old(useIpythonKernel)
      ensures updateExistingPlansDevices == old(updateExistingPlansDevices)
    {
      report := reReport;
      reReport := None;
    }

    /** `_request_task_results_handler`: hands out the completed-task results and clears the list. */
    method RequestTaskResults() returns (results: seq<TaskResult>)
      modifies this
      ensures results == old(completedTasks) && completedTasks == []
      ensures envState == old(envState) && reReport == old(reReport)
      ensures backgroundTasksNum == old(backgroundTasksNum) && executionQueue == old(executionQueue)
      ensures runningPlanInfo == old(runningPlanInfo) && runningPlanCompleted == old(runningPlanCompleted)
      ensures runningTaskUid == old(runningTaskUid)
      ensures exitEvent == old(exitEvent) && exitConfirmed == old(exitConfirmed) && shutdownInitiated == old(shutdownInitiated)
      ensures ipKernelState == old(ipKernelState) && useIpythonKernel == old(useIpythonKernel)
      ensures updateExistingPlansDevices == old(updateExistingPlansDevices)
    {
      results := completedTasks;
      completedTasks := [];
    }

    /**
     * `_command_run_plan_handler`: rejected on the first failing check, in order: a
     * non-empty execution queue (1), a running Run Engine (2), a plan record or
     * completed flag left from the previous plan (3); otherwise `_start_new_plan`
     * decides. `check` is the number of the failing check, 0 when all pass.
     */
    method RunPlan(planInfo: Plans.Plan, re: ReState) returns (status: Status, check: nat)
      modifies this
      ensures check == (if |old(executionQueue)| > 0 then 1
                        else if re == ReRunning then 2
                        else if (old(runningPlanInfo).Some? && old(runningPlanInfo).value != map[]) || old(runningPlanCompleted) then 3
                        else 0)
      ensures check != 0 ==> status == Rejected
      ensures check != 0 || status == Rejected ==>
        envState == old(envState) && runningPlanInfo == old(runningPlanInfo)
        && runningPlanCompleted == old(runningPlanCompleted) && executionQueue == old(executionQueue)
      ensures status == Error ==>
        check == 0 && envState == ExecutingPlan && runningPlanInfo == Some(planInfo) && !runningPlanCompleted
        && executionQueue == []
      ensures check == 0 ==>
        (status == Rejected <==> old(envState) != Idle)
        && (status == Accepted <==> old(envState) == Idle && "name" in planInfo)
      ensures status == Accepted ==>
        envState == ExecutingPlan && runningPlanInfo == Some(planInfo) && !runningPlanCompleted
        && executionQueue == [PlanEntry(planInfo, New)]
      ensures runningTaskUid == old(runningTaskUid) && backgroundTasksNum == old(backgroundTasksNum)
      ensures reReport == old(reReport) && completedTasks == old(completedTasks)
      ensures exitEvent == old(exitEvent) && exitConfirmed == old(exitConfirmed) && shutdownInitiated == old(shutdownInitiated)
      ensures ipKernelState == old(ipKernelState) && useIpythonKernel == old(useIpythonKernel)
      ensures updateExistingPlansDevices == old(updateExistingPlansDevices)
    {
      check := 0;
      if |executionQueue| > 0 {
        check := 1;
      } else if re == ReRunning {
        check := 2;
      } else if HasRunningPlanInfo() || runningPlanCompleted {
        check := 3;
      }
      if check != 0 {
        return Rejected, check;
      }
      var started := StartNewPlan(planInfo);
      status := match started
        case Pass => Accepted
        case Fail(RejectedError) => Rejected
        case Fail(OtherException) => Error;
    }

    /**
     * `_command_pause_plan_handler`: only a running Run Engine can be paused; an
     * option other than deferred/immediate is an error, and so is a pause request
     * that cannot be handed to the Run Engine's loop (`requestSent` false when
     * scheduling it raises). The request itself changes nothing here.
     */
    method PausePlan(option: string, re: ReState, requestSent: bool) returns (status: Status)
      ensures status == Rejected <==> re != ReRunning
      ensures status == Error <==> re == ReRunning && (option !in ["deferred", "immediate"] || !requestSent)
      ensures status == Accepted <==> re == ReRunning && option in ["deferred", "immediate"] && requestSent
    {
      if re != ReRunning {
        return Rejected;
      }
      if option != "deferred" && option != "immediate" {
        return Error;
      }
      if !requestSent {
        return Error;
      }
      return Accepted;
    }

    /**
     * `_command_continue_plan_handler`: only a paused Run Engine can be continued;
     * then `_continue_plan` decides (its rejection is "rejected", its other failure
     * "error").
     */
    method ContinuePlanCommand(option: string, re: ReState) returns (status: Status)
      modifies this
      ensures re != RePaused ==> status == Rejected && envState == old(envState) && executionQueue == old(executionQueue)
      ensures re == RePaused ==>
        && (status == Error <==> ContinueOption(option).None?)
        && (status == Rejected <==> ContinueOption(option).Some? && old(envState) != Idle)
        && (status == Accepted <==> ContinueOption(option).Some? && old(envState) == Idle)
      ensures status == Accepted ==>
        envState == ExecutingPlan
        && executionQueue == old(executionQueue) + [PlanEntry(map["option" := option], ContinueOption(option).value)]
      ensures status != Accepted ==> envState == old(envState) && executionQueue == old(executionQueue)
      ensures runningPlanInfo == old(runningPlanInfo) && runningPlanCompleted == old(runningPlanCompleted)
      ensures runningTaskUid == old(runningTaskUid) && backgroundTasksNum == old(backgroundTasksNum)
      ensures reReport == old(reReport) && completedTasks == old(completedTasks)
      ensures exitEvent == old(exitEvent) && exitConfirmed == old(exitConfirmed) && shutdownInitiated == old(shutdownInitiated)
      ensures ipKernelState == old(ipKernelState) && useIpythonKernel == old(useIpythonKernel)
      ensures updateExistingPlansDevices == old(updateExistingPlansDevices)
    {
      if re != RePaused {
        return Rejected;
      }
      var continued := ContinuePlan(option);
      status := match continued
        case Pass => Accepted
        case Fail(RejectedError) => Rejected
        case Fail(OtherException) => Error;
    }

    /**
     * `_command_reset_worker_handler`: accepted only with the Run Engine idle, and
     * then forgets the previous plan's record, completed flag and report.
     */
    method ResetWorker(re: ReState) returns (status: Status)
      modifies this
      ensures status == Accepted <==> re == ReIdle
      ensures status == Rejected <==> re != ReIdle
      ensures status == Accepted ==> runningPlanInfo.None? && !runningPlanCompleted && reReport.None?
      ensures status == Rejected ==>
        runningPlanInfo == old(runningPlanInfo) && runningPlanCompleted == old(runningPlanCompleted) && reReport == old(reReport)
      ensures envState == old(envState) && runningTaskUid == old(runningTaskUid) && backgroundTasksNum == old(backgroundTasksNum)
      ensures completedTasks == old(completedTasks) && executionQueue == old(executionQueue)
      ensures exitEvent == old(exitEvent) && exitConfirmed == old(exitConfirmed) && shutdownInitiated == old(shutdownInitiated)
      ensures ipKernelState == old(ipKernelState) && useIpythonKernel == old(useIpythonKernel)
      ensures updateExistingPlansDevices == old(updateExistingPlansDevices)
    {
      if re != ReIdle {
        return Rejected;
      }
      runningPlanInfo := None;
      runningPlanCompleted := false;
      reReport := None;
      return Accepted;
    }

    /**
     * `_command_close_env_handler`: rejected while the IPython kernel is busy, else
     * while a Run Engine (`re`, `None` before there is one) is running. Otherwise the
     * worker without IPython sets its exit event, the IPython worker asks its kernel
     * to quit (`kernelQuits` false when that raises, an "error"); on success the
     * shutdown counts as requested.
     */
    method CloseEnvironment(re: Option<ReState>, kernelQuits: bool) returns (status: Status)
      modifies this
      ensures status == Rejected <==> ipKernelState == KernelBusy || re == Some(ReRunning)
      ensures status == Error <==> !(ipKernelState == KernelBusy || re == Some(ReRunning)) && useIpythonKernel && !kernelQuits
      ensures status == Accepted ==> shutdownInitiated && exitEvent == (old(exitEvent) || !useIpythonKernel)
      ensures status != Accepted ==> shutdownInitiated == old(shutdownInitiated) && exitEvent == old(exitEvent)
      ensures envState == old(envState) && ipKernelState == old(ipKernelState) && useIpythonKernel == old(useIpythonKernel)
      ensures exitConfirmed == old(exitConfirmed) && executionQueue == old(executionQueue)
      ensures runningPlanInfo == old(runningPlanInfo) && reReport == old(reReport) && completedTasks == old(completedTasks)
      ensures runningPlanCompleted == old(runningPlanCompleted) && runningTaskUid == old(runningTaskUid)
      ensures backgroundTasksNum == old(backgroundTasksNum)
      ensures updateExistingPlansDevices == old(updateExistingPlansDevices)
    {
      if ipKernelState == KernelBusy {
        return Rejected;
      }
      if re == Some(ReRunning) {
        return Rejected;
      }
      if useIpythonKernel {
        if !kernelQuits {
          return Error;
        }
      } else {
        exitEvent := true;
      }
      shutdownInitiated := true;
      return Accepted;
    }

    /** `_command_confirm_exit_handler`: accepted, and the exit confirmed, exactly when the exit event is set. */
    method ConfirmExit() returns (status: Status)
      modifies this
      ensures status == Accepted <==> exitEvent
      ensures status == Rejected <==> !exitEvent
      ensures exitConfirmed == (old(exitConfirmed) || exitEvent)
      ensures exitEvent == old(exitEvent) && shutdownInitiated == old(shutdownInitiated) && envState == old(envState)
      ensures executionQueue == old(executionQueue) && reReport == old(reReport)
      ensures runningPlanInfo == old(runningPlanInfo) && runningPlanCompleted == old(runningPlanCompleted)
      ensures runningTaskUid == old(runningTaskUid) && backgroundTasksNum == old(backgroundTasksNum)
      ensures completedTasks == old(completedTasks)
      ensures ipKernelState == old(ipKernelState) && useIpythonKernel == old(useIpythonKernel)
      ensures updateExistingPlansDevices == old(updateExistingPlansDevices)
    {
      if exitEvent {
        exitConfirmed := true;
        return Accepted;
      }
      return Rejected;
    }
  }

  /** `max(a, b)`. */
  function Max(a: int, b: int): (r: int)
    ensures r >= a && r >= b && (r == a || r == b)
  {
    if a >= b then a else b
  }
}
