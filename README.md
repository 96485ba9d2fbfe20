# Job-control worker of holly-shell, modelled in Dafny

holly-shell runs three threads: a controller that reads command lines, a
signal relay that forwards SIGINT, SIGTSTP and SIGCHLD, and a job-control
worker that owns all job state. This project models the worker's decision
logic from `src/shell.rs`:

- its state: exit status, foreground process group, job table, process-group
  and process tables, and the shell's own process group;
- built-in dispatch;
- the `exit` and `fg` built-ins;
- one step of the loop that consumes the worker's inbound messages;
- the EINTR retry wrapper around system calls.

Files:

- `wrappers.dfy`: `Option` and `Result`.
- `syscall.dfy`: the retry loop. The wrapped call is a sequence of results, one per invocation.
- `numparse.dfy`: Rust's `str::parse::<i32>` and `str::parse::<usize>`, with the decimal rendering that inverts them.
- `shell.dfy`: the messages, the pure decisions of the built-ins (`SelectBuiltIn`, `ExitOutcome`, `FgOutcome`), and the `Worker` class.

The class keeps the source's fields. It also has two logs:

- `sent` holds the replies sent to the controller, in order;
- `osCalls` holds the `tcsetpgrp`/`killpg` calls, in order.

Each mutating method is proved to apply the matching pure decision
(`Applied`). Each also keeps the invariant `Valid`: the exit status and all
replies are i32 values, and a foreground group is always the group of a
tracked job.

Some collaborators are called, but their bodies are not in this model:
`parse_cmd`, `spawn_child`, `wait_child` and `run_jobs`. `Worker.Step` takes
the values they return as parameters. It returns the list of collaborators
it handed control to.

Where the source cannot compile as written, the model follows the evident
intent:

- `fn: None` in `Worker::new` is the `fg` field;
- `self.job` in `run_exit` is `self.jobs`;
- `seld` is `send`;
- `ShellMsg` is the declared `MainMsg`.

`cd` is routed to `run_fg` (src/shell.rs:217). The model does the same and
does not change any directory.

## Model

| member | source | states |
|---|---|---|
| `Syscall.Retry` | src/shell.rs:28-33 | the retry result is never EINTR; there is no result exactly when every invocation so far was interrupted |
| `Syscall.Call` | src/shell.rs:24-34 | the loop returns the first result that is not EINTR and counts the invocations it made; every earlier invocation was EINTR |
| `Syscall.RetryTransparent` | src/shell.rs:28-33 | interrupted invocations in front of the real one do not change what the wrapper returns |
| `NumParse.ParseI32` | src/shell.rs:232 | an accepted `exit` argument is an i32; it is non-empty; a negative value is written with a leading '-' |
| `NumParse.ParseUsize` | src/shell.rs:257 | an accepted `fg` argument is at most the usize maximum; it never starts with '-' |
| `NumParse.ParseI32FormatInt` | src/shell.rs:232 | parsing the decimal rendering of n returns n when n is an i32, and fails otherwise |
| `NumParse.ParseUsizeFormatInt` | src/shell.rs:257 | parsing the decimal rendering of a natural n returns n when it fits a usize, and fails otherwise |
| `NumParse.LeadingZeroParse` | src/shell.rs:231-233 | for a non-empty string of ASCII digits, a leading '0' does not change what either parse returns |
| `NumParse.ParseI32Numeral` | src/shell.rs:232 | a numeral with sign "", "+" or "-", any leading zeros and then digits parses to its signed value when that is an i32, and is rejected otherwise |
| `NumParse.ParseI32IsNumeral` | src/shell.rs:232 | conversely, every accepted string is such a numeral and parses to that numeral's value; so every other string is rejected |
| `NumParse.ParseUsizeNumeral` | src/shell.rs:257 | a numeral with sign "" or "+", any leading zeros and then digits parses to its value when that fits a usize, and is rejected otherwise |
| `NumParse.ParseUsizeIsNumeral` | src/shell.rs:257 | conversely, every accepted string is such a numeral (never one with '-') and parses to its value |
| `Shell.SelectBuiltIn` | src/shell.rs:208-220 | a pipeline runs a built-in exactly when it has one stage named exit, jobs, fg or cd; both fg and cd select the `fg` built-in |
| `Shell.ExitOutcome` | src/shell.rs:222-246 | exactly one reply; it is Quit exactly when no job is tracked and the argument is absent or numeric; Quit carries the argument or, without one, the last status, and leaves the status alone; otherwise the status becomes 1 and the reply is Continue(1); i32 values stay i32 |
| `Shell.FgJobId` | src/shell.rs:251-257 | `fg` names a job only when it has a second argument that parses as a usize |
| `Shell.FgOutcome` | src/shell.rs:248-271 | the status always becomes 1; there is no reply exactly when the job is tracked; then the job's group becomes foreground and receives the terminal and SIGCONT; otherwise the reply is exactly Continue(1) and nothing else changes; a tracked foreground stays tracked |
| `Shell.ExitWithCode` | src/shell.rs:231-244 | with no jobs, `exit n` for an i32 n quits with exactly n |
| `Shell.FgResumesJob` | src/shell.rs:257-264 | `fg n` for a tracked job n brings that job's group to the foreground, sends no reply, and sets the status to 1 |
| `Shell.SpawnFallback` | src/shell.rs:189-191 | a line no built-in handled gets `Continue(exit status)` exactly when the spawn failed, and no reply otherwise |
| `Shell.Worker.constructor` | src/shell.rs:167-176 | exit status 0, no foreground group, empty tables, the given shell process group, nothing sent |
| `Shell.Worker.RunExit` | src/shell.rs:222-246 | always handled; applies `ExitOutcome` to the status and the reply log; foreground, tables and system calls unchanged; keeps `Valid` |
| `Shell.Worker.RunFg` | src/shell.rs:248-271 | always handled; applies `FgOutcome` to the status, foreground, reply log and system-call log; tables unchanged; keeps `Valid` |
| `Shell.Worker.BuiltInCmd` | src/shell.rs:208-220 | not a built-in: returns false and changes nothing; `jobs`: returns what `run_jobs` returns; `exit`/`fg`/`cd`: handled, with the built-in's outcome applied |
| `Shell.Worker.Step` | src/shell.rs:180-203 | a parse failure sends exactly `Continue(status)`; an unhandled line goes to `spawn_child` and sends `Continue(status)` exactly when the spawn fails; SIGCHLD goes to `wait_child`; any other signal changes nothing and sends nothing; tables never change; keeps `Valid` |
| `Shell.Session` | src/shell.rs:180-246 | on a fresh worker, a parse error, then `fg 1` with no jobs, then `exit 7` produce the replies Continue(0), Continue(1), Quit(7), and leave the status at 1 |

## Left out

- The controller loop `HollyShell::run` is not modelled. It covers line reading, history load and save, the prompt, and `process::exit`. These are terminal I/O and a foreign line-editing library.
- `spawn_sig_handler` is not modelled. Neither is the thread and channel plumbing in `Worker::spawn`. Their subject is concurrency. Inbound messages become arguments of `Worker.Step`, one call per message. Outbound replies are appended to `sent`.
- `parse_cmd`, `spawn_child`, `wait_child` and `run_jobs` are called by the worker, but their bodies are not part of this model. Only their return values enter the model, as parameters. Their effects on the tables, the foreground group and the replies are not modelled.
- Shell.Worker.Step: its post-state covers only the worker's own code. It excludes what the delegated collaborators then do.
- `tcgetpgrp`, `tcsetpgrp`, `killpg` and `signal` are system calls. `tcgetpgrp`'s result is the constructor's parameter. `tcsetpgrp` and `killpg` are recorded in `osCalls`. The `signal` call is made by the controller and is not modelled.
- The panics from `.unwrap()` on a failed system call or channel send are not modelled. The model treats every such call as succeeding.
- The messages the worker writes to stderr are not modelled. These are the parse error, the refusal to exit while jobs run, the invalid `exit` argument, the `fg` usage message, the resume notice and "job not found" (src/shell.rs:194, 225, 235, 252, 259, 268). They are output only, and the model records only the replies and system calls.
- The `CleanUp` drop guard has no logic of its own and is not modelled.
- `pgid_to_pids` and `pid_to_info` are kept only as fields that the modelled operations leave unchanged.
- Syscall.Call: if the wrapped call keeps returning EINTR, the source retries forever. The model sees only a finite sequence of outcomes and returns None when all of them were EINTR.
- The `usize` bound assumes a 64-bit target. The signal numbers are Linux's.
- `Pipeline` is a non-empty sequence. The source indexes the first stage without checking, so an empty pipeline from the parser would panic.
