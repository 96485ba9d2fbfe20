/**
 * The job-control worker of the shell (`Worker` in src/shell.rs): its state,
 * the built-in dispatch, the `exit` and `fg` built-ins, and one step of the
 * loop that consumes the worker's inbound messages.
 *
 * The replies the worker sends to the controller thread are recorded in the
 * field `sent`; the terminal and process-group system calls it makes are
 * recorded in `osCalls`. Collaborators whose bodies are not part of this
 * model (`parse_cmd`, `spawn_child`, `wait_child`, `run_jobs`) are given by
 * the values they return.
 */
module Shell {
  import opened Wrappers
  import opened NumParse

  type Pid = int

  /** Linux signal numbers. */
  const SIGINT: int := 2
  const SIGCHLD: int := 17
  const SIGCONT: int := 18
  const SIGTSTP: int := 20

  /** Messages the worker receives: a forwarded signal, or a command line from the controller. */
  datatype WorkerMsg = Signal(signo: int) | Cmd(line: string)

  /** Replies to the controller: resume reading (with the last exit code), or quit (with the shell's exit code). */
  datatype MainMsg = Continue(code: int) | Quit(code: int)

  datatype ProcState = Run | Stop

  datatype ProcInfo = ProcInfo(state: ProcState, pgid: Pid)

  /** One pipeline stage: the program name and its whole argument vector, the name included at index 0. */
  datatype Stage = Stage(program: string, args: seq<string>)

  /** What the parser produces: at least one stage (the worker reads the first stage unconditionally). */
  type Pipeline = p: seq<Stage> | |p| >= 1 witness [Stage([], [])]

  /** The terminal and signal calls the built-ins make. */
  datatype OsCall = SetTerminalPgrp(pgid: Pid) | KillGroup(pgid: Pid, signo: int)

  /** Collaborators whose bodies are not part of this model, in the order a step hands over to them. */
  datatype Delegated = SpawnChild | WaitChild | RunJobs

  /** Which built-in, if any, a pipeline runs. */
  datatype BuiltIn = NotBuiltIn | ExitCmd | JobsCmd | FgCmd

  type JobTable = map<nat, (Pid, string)>

  /**
   * Built-in dispatch: only a single-stage pipeline can be a built-in. The
   * name "cd" is routed to the `fg` built-in.
   */
  function SelectBuiltIn(cmd: Pipeline): (b: BuiltIn)
    ensures b == NotBuiltIn <==> |cmd| > 1 || cmd[0].program !in {"exit", "jobs", "fg", "cd"}
    ensures b == ExitCmd <==> |cmd| == 1 && cmd[0].program == "exit"
    ensures b == JobsCmd <==> |cmd| == 1 && cmd[0].program == "jobs"
    ensures b == FgCmd <==> |cmd| == 1 && (cmd[0].program == "fg" || cmd[0].program == "cd")
  {
    if |cmd| > 1 then NotBuiltIn
    else match cmd[0].program
      case "exit" => ExitCmd
      case "jobs" => JobsCmd
      case "fg" => FgCmd
      case "cd" => FgCmd
      case _ => NotBuiltIn
  }

  /** What a built-in decides: the new exit status, the new foreground group, the replies sent now, and the system calls made. */
  datatype Outcome = Outcome(exitValue: int, fg: Option<Pid>, replies: seq<MainMsg>, osCalls: seq<OsCall>)

  predicate RepliesAreI32(replies: seq<MainMsg>) {
    forall k :: 0 <= k < |replies| ==> IsI32(replies[k].code)
  }

  /**
   * The `exit` built-in. It refuses while any job is tracked; otherwise it
   * quits with its numeric argument, or with the last exit status when there
   * is none. Either way it answers the controller at once, with one message.
   */
  function ExitOutcome(jobs: JobTable, args: seq<string>, exitValue: int, fg: Option<Pid>): (o: Outcome)
    ensures o.fg == fg && o.osCalls == [] && |o.replies| == 1
    ensures o.replies[0].Quit? <==> jobs == map[] && (|args| < 2 || ParseI32(args[1]).Some?)
    ensures o.replies[0].Quit? ==> o.exitValue == exitValue
    ensures o.replies[0].Quit? && |args| < 2 ==> o.replies[0].code == exitValue
    ensures o.replies[0].Quit? && |args| >= 2 ==> Some(o.replies[0].code) == ParseI32(args[1])
    ensures o.replies[0].Continue? ==> o.exitValue == 1 && o.replies[0].code == 1
    ensures IsI32(exitValue) ==> IsI32(o.exitValue) && RepliesAreI32(o.replies)
  {
    if jobs != map[] then
      Outcome(1, fg, [Continue(1)], [])
    else if |args| < 2 then
      Outcome(exitValue, fg, [Quit(exitValue)], [])
    else match ParseI32(args[1])
      case Some(n) => Outcome(exitValue, fg, [Quit(n)], [])
      case None => Outcome(1, fg, [Continue(1)], [])
  }

  /** The job number `fg` is asked for, when its argument is present and is a usize. */
  function FgJobId(args: seq<string>): (id: Option<nat>)
    ensures id.Some? ==> |args| >= 2 && id == ParseUsize(args[1])
    ensures |args| >= 2 && ParseUsize(args[1]).Some? ==> id.Some?
  {
    if |args| < 2 then None else ParseUsize(args[1])
  }

  /**
   * The `fg` built-in. It always sets the exit status to 1. When the job
   * exists it makes the job's group the foreground group, hands it the
   * terminal, continues it, and does not answer yet (the answer comes when
   * the job stops or ends); otherwise it answers `Continue(1)` and changes
   * nothing else.
   */
  function FgOutcome(jobs: JobTable, args: seq<string>, fg: Option<Pid>): (o: Outcome)
    ensures o.exitValue == 1
    ensures o.replies == [] <==> FgJobId(args).Some? && FgJobId(args).value in jobs
    ensures o.replies != [] ==> o.replies == [Continue(1)] && o.fg == fg && o.osCalls == []
    ensures o.replies == [] ==>
      var pgid := jobs[FgJobId(args).value].0;
      o.fg == Some(pgid) && o.osCalls == [SetTerminalPgrp(pgid), KillGroup(pgid, SIGCONT)]
    ensures FgTracked(fg, jobs) ==> FgTracked(o.fg, jobs)
  {
    var id := FgJobId(args);
    if id.Some? && id.value in jobs then
      var pgid := jobs[id.value].0;
      Outcome(1, Some(pgid), [], [SetTerminalPgrp(pgid), KillGroup(pgid, SIGCONT)])
    else
      Outcome(1, fg, [Continue(1)], [])
  }

  /** With no jobs, `exit <n>` for an i32 n quits with exactly n, whatever the last status was. */
  lemma ExitWithCode(n: int, exitValue: int, fg: Option<Pid>)
    requires IsI32(n)
    ensures ExitOutcome(map[], ["exit", FormatInt(n)], exitValue, fg).replies == [Quit(n)]
  {
    ParseI32FormatInt(n);
  }

  /** `fg <n>` for a tracked job n brings that job's group to the foreground and defers the reply. */
  lemma FgResumesJob(jobs: JobTable, n: nat, fg: Option<Pid>)
    requires n in jobs && n <= USIZE_MAX
    ensures var o := FgOutcome(jobs, ["fg", FormatInt(n)], fg);
      o.fg == Some(jobs[n].0) && o.replies == [] && o.exitValue == 1
  {
    ParseUsizeFormatInt(n);
  }

  /** The reply a command line gets when no built-in answered it and the spawn did not go through. */
  function SpawnFallback(spawned: bool, exitValue: int, fg: Option<Pid>): (o: Outcome)
    ensures o.exitValue == exitValue && o.fg == fg && o.osCalls == []
    ensures spawned <==> o.replies == []
    ensures !spawned ==> o.replies == [Continue(exitValue)]
  {
    Outcome(exitValue, fg, if spawned then [] else [Continue(exitValue)], [])
  }

  /** The foreground group, when there is one, is the group of a tracked job. */
  ghost predicate FgTracked(fg: Option<Pid>, jobs: JobTable) {
    fg.Some? ==> exists id :: id in jobs && jobs[id].0 == fg.value
  }

  class Worker {
    var exitValue: int
    var fg: Option<Pid>
    var jobs: JobTable
    var pgidToPids: map<Pid, (nat, set<Pid>)>
    var pidToInfo: map<Pid, ProcInfo>
    var shellPgid: Pid
    /** The replies sent to the controller, oldest first. */
    var sent: seq<MainMsg>
    /** The terminal and signal system calls made, oldest first. */
    var osCalls: seq<OsCall>

    /**
     * The exit status and every reply are i32 values, and the foreground
     * group, when there is one, belongs to a tracked job.
     */
    ghost predicate Valid()
      reads this
    {
      && IsI32(exitValue)
      && RepliesAreI32(sent)
      && FgTracked(fg, jobs)
    }

    /** The worker took the decision `o`: its fields and logs now say so. */
    twostate predicate Applied(o: Outcome)
      reads this
    {
      && exitValue == o.exitValue
      && fg == o.fg
      && sent == old(sent) + o.replies
      && osCalls == old(osCalls) + o.osCalls
    }

    /** `Worker::new`: the shell's own process group is what the terminal reports at start-up. */
    constructor (shellPgid: Pid)
      ensures Valid()
      ensures exitValue == 0 && fg == None
      ensures jobs == map[] && pgidToPids == map[] && pidToInfo == map[]
      ensures this.shellPgid == shellPgid
      ensures sent == [] && osCalls == []
    {
      exitValue := 0;
      fg := None;
      jobs := map[];
      pgidToPids := map[];
      pidToInfo := map[];
      this.shellPgid := shellPgid;
      sent := [];
      osCalls := [];
    }

    /** `run_exit`: always handled. */
    method RunExit(args: seq<string>) returns (handled: bool)
      requires Valid()
      modifies this`exitValue, this`sent
      ensures Valid()
      ensures handled && Applied(ExitOutcome(jobs, args, old(exitValue), old(fg)))
    {
      if jobs != map[] {
        exitValue := 1;
        sent := sent + [Continue(exitValue)];
        return true;
      }
      var code;
      if |args| >= 2 {
        var parsed := ParseI32(args[1]);
        if parsed.Some? {
          code := parsed.value;
        } else {
          exitValue := 1;
          sent := sent + [Continue(exitValue)];
          return true;
        }
      } else {
        code := exitValue;
      }
      sent := sent + [Quit(code)];
      handled := true;
    }

    /** `run_fg`: always handled. */
    method RunFg(args: seq<string>) returns (handled: bool)
      requires Valid()
      modifies this`exitValue, this`fg, this`sent, this`osCalls
      ensures Valid()
      ensures handled && Applied(FgOutcome(jobs, args, old(fg)))
    {
      exitValue := 1;
      if |args| < 2 {
        sent := sent + [Continue(exitValue)];
        return true;
      }
      var id := ParseUsize(args[1]);
      if id.Some? && id.value in jobs {
        var pgid := jobs[id.value].0;
        fg := Some(pgid);
        osCalls := osCalls + [SetTerminalPgrp(pgid)];
        osCalls := osCalls + [KillGroup(pgid, SIGCONT)];
        return true;
      }
      sent := sent + [Continue(exitValue)];
      handled := true;
    }

    /**
     * `built_in_cmd`: runs the selected built-in and reports whether the
     * line was handled. `jobsListed` is what `run_jobs` returns; what
     * `run_jobs` itself does is not part of this model.
     */
    method BuiltInCmd(cmd: Pipeline, jobsListed: bool) returns (handled: bool)
      requires Valid()
      modifies this`exitValue, this`fg, this`sent, this`osCalls
      ensures Valid()
      ensures match SelectBuiltIn(cmd)
        case NotBuiltIn => !handled && unchanged(this)
        case JobsCmd => handled == jobsListed && unchanged(this)
        case ExitCmd => handled && Applied(ExitOutcome(jobs, cmd[0].args, old(exitValue), old(fg)))
        case FgCmd => handled && Applied(FgOutcome(jobs, cmd[0].args, old(fg)))
    {
      if |cmd| > 1 {
        return false;
      }
      match cmd[0].program
      case "exit" =>
        handled := RunExit(cmd[0].args);
      case "jobs" =>
        handled := jobsListed;
      case "fg" =>
        handled := RunFg(cmd[0].args);
      case "cd" =>
        handled := RunFg(cmd[0].args);
      case _ =>
        handled := false;
    }

    /**
     * One iteration of the worker's message loop. `parsed` is what
     * `parse_cmd` returns for a command line, `jobsListed` what `run_jobs`
     * returns and `spawned` what `spawn_child` returns; `delegated` lists
     * the collaborators the step handed over to, whose own effects are not
     * part of this model. The job and process tables are never touched here.
     */
    method Step(msg: WorkerMsg, parsed: Result<Pipeline, string>, jobsListed: bool, spawned: bool)
      returns (delegated: seq<Delegated>)
      requires Valid()
      modifies this`exitValue, this`fg, this`sent, this`osCalls
      ensures Valid()
      ensures msg.Signal? && msg.signo == SIGCHLD ==> delegated == [WaitChild] && unchanged(this)
      ensures msg.Signal? && msg.signo != SIGCHLD ==> delegated == [] && unchanged(this)
      ensures msg.Cmd? && parsed.Err? ==>
        delegated == [] && Applied(Outcome(old(exitValue), old(fg), [Continue(old(exitValue))], []))
      ensures msg.Cmd? && parsed.Ok? ==>
        var cmd := parsed.value;
        match SelectBuiltIn(cmd)
        case ExitCmd => delegated == [] && Applied(ExitOutcome(jobs, cmd[0].args, old(exitValue), old(fg)))
        case FgCmd => delegated == [] && Applied(FgOutcome(jobs, cmd[0].args, old(fg)))
        case JobsCmd =>
          && delegated == (if jobsListed then [RunJobs] else [RunJobs, SpawnChild])
          && Applied(SpawnFallback(jobsListed || spawned, old(exitValue), old(fg)))
        case NotBuiltIn =>
          delegated == [SpawnChild] && Applied(SpawnFallback(spawned, old(exitValue), old(fg)))
    {
      match msg {
        case Cmd(line) =>
          match parsed {
            case Ok(cmd) =>
              var handled := BuiltInCmd(cmd, jobsListed);
              delegated := if SelectBuiltIn(cmd) == JobsCmd then [RunJobs] else [];
              if handled {
                return;
              }
              delegated := delegated + [SpawnChild];
              if !spawned {
                sent := sent + [Continue(exitValue)];
              }
            case Err(_) =>
              sent := sent + [Continue(exitValue)];
              delegated := [];
          }
        case Signal(signo) =>
          delegated := if signo == SIGCHLD then [WaitChild] else [];
      }
    }
  }

  /**
   * A session on a fresh worker: a line that does not parse, then `fg 1`
   * with no jobs, then `exit 7`.
   */
  method Session() returns (replies: seq<MainMsg>, exitValue: int)
    ensures replies == [Continue(0), Continue(1), Quit(7)]
    ensures exitValue == 1
  {
    var w := new Worker(100);
    var d := w.Step(Cmd("|cmd"), Err("syntax error"), false, false);
    d := w.Step(Cmd("fg 1"), Ok([Stage("fg", ["fg", "1"])]), false, false);
    d := w.Step(Cmd("exit 7"), Ok([Stage("exit", ["exit", "7"])]), false, false);
    replies, exitValue := w.sent, w.exitValue;
  }
}
