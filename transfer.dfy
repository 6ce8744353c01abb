/**
 * What one backup session does, as values: the log entries it appends, the
 * `adb pull` commands it issues and how the script ends. The three copies
 * of the script differ only in their failure policy:
 *
 *  - `Windows` (for-windows.py): a disconnect found before a folder logs
 *    `[ERROR]` and exits 1; a pull the tool fails logs `[❌ FAIL]` and the
 *    loop goes on; any other exception escapes without a log line.
 *  - `LinuxSkip` (the first copy in for-linux.py): the same disconnect check;
 *    every `Exception` in a pull becomes a `[SKIP]` line and the loop goes
 *    on; afterwards the rooted-only cookie pull runs.
 *  - `LinuxFailFast` (the second copy in for-linux.py, of which only the tail
 *    of its pull function survives): no disconnect check; a failed pull logs
 *    `[❌ FAIL]`, re-raises, and the main block exits 1.
 *
 * The device bridge is replaced by the answers it gives: the output of each
 * `adb devices` run, the outcome of each pull and of the `id` shell command.
 */
module Transfer {
  import opened Common
  import opened Text
  import opened Paths
  import opened AdbDevices
  import opened SessionLog

  /** How one `os.makedirs` + `adb pull` attempt went. */
  datatype PullAnswer =
    | Pulled                       // the tool exited 0
    | ToolFailed(reason: string)   // the tool exited non-zero: `CalledProcessError`
    | Interrupted                  // Ctrl-C while the tool ran: `KeyboardInterrupt`
    | OsError(reason: string)      // `makedirs` failed or the tool could not be started; no pull ran

  /** How `adb shell id` went: its output, or the exception it raised. */
  datatype IdAnswer = IdOutput(text: string) | IdFailed(reason: string)

  /** An exception leaving a function: `KeyboardInterrupt` is not an `Exception` and escapes `except Exception`. */
  datatype Exc = KeyboardInterrupt | Exception(reason: string)

  /** One `adb -s <device> pull <remote> <local>` command sent to the tool. */
  datatype PullRequest = PullRequest(device: string, remote: string, local: string)

  /** What one call of a pull function does: lines appended, commands issued, exception raised. */
  datatype Effect = Effect(entries: seq<LogEntry>, issued: seq<PullRequest>, escape: Option<Exc>)

  /** The bridge's answers while one folder is handled: the main loop's `adb devices`, the one inside the pull function, and the pull. */
  datatype FolderEnv = FolderEnv(check: Enumeration, recheck: Enumeration, pull: PullAnswer)

  /** The bridge's answers for the cookie step. */
  datatype CookieEnv = CookieEnv(id: IdAnswer, pull: PullAnswer)

  /** How the script ends: normally, by `sys.exit(code)`, or by an uncaught exception (a traceback and a non-zero status). */
  datatype Ending = Completed | Exit(code: int) | Uncaught(exc: Exc)

  /** A run of several steps: all lines appended and commands issued, in order, and how it ended. */
  datatype Run = Run(entries: seq<LogEntry>, issued: seq<PullRequest>, ending: Ending)

  /** The three copies of the script. */
  datatype Variant = Windows | LinuxSkip | LinuxFailFast

  const ARROW: string := " \U{2192} "

  /** The message of the `RuntimeError` the first Linux copy raises when the device is gone. */
  const DEVICE_GONE: string := "\U{1F4F4} Device disconnected"

  /** The message of the `PermissionError` raised when the device is not rooted. */
  const NOT_ROOTED: string := "Device is not rooted"

  /** The substring of the `id` output that marks the superuser. */
  const ROOT_UID: string := "uid=0"

  /** `[✅ OK] Pulled <remote> → <local>`, in every copy. */
  function OkEntry(remote: string, local: string): LogEntry
  {
    LogEntry(Ok, "Pulled " + remote + ARROW + local)
  }

  /** `[❌ FAIL] Pull failed: <remote> → <local> | <e>` (Windows, tool failure). */
  function ToolFailEntry(remote: string, local: string, why: string): LogEntry
  {
    LogEntry(Fail, "Pull failed: " + remote + ARROW + local + " | " + why)
  }

  /** `[❌ FAIL] Interrupted during pull from <remote>` (Windows, Ctrl-C). */
  function InterruptEntry(remote: string): LogEntry
  {
    LogEntry(Fail, "Interrupted during pull from " + remote)
  }

  /** `[SKIP] Failed to pull <remote> → <local> | <e>` (first Linux copy). */
  function SkipEntry(remote: string, local: string, why: string): LogEntry
  {
    LogEntry(Skip, "Failed to pull " + remote + ARROW + local + " | " + why)
  }

  /** `[❌ FAIL] <remote> → <local> | <e>` (fail-fast Linux copy). */
  function FailFastEntry(remote: string, local: string, why: string): LogEntry
  {
    LogEntry(Fail, remote + ARROW + local + " | " + why)
  }

  /** `[✅ OK] Pulled cookies → <local>`. */
  function CookieOkEntry(local: string): LogEntry
  {
    LogEntry(Ok, "Pulled cookies" + ARROW + local)
  }

  /** `[SKIP] Cookies → <local> | <e>`. */
  function CookieSkipEntry(local: string, why: string): LogEntry
  {
    LogEntry(Skip, "Cookies" + ARROW + local + " | " + why)
  }

  /** `[ERROR] USB disconnected while pulling <folder>` (Windows) or `[ERROR] Device disconnected while pulling <folder>` (Linux). */
  function DisconnectEntry(v: Variant, folder: string): LogEntry
  {
    LogEntry(Error, (if v.Windows? then "USB" else "Device") + " disconnected while pulling " + folder)
  }

  /** The pull command an attempt sends to the tool: none when `makedirs` or starting the tool failed. */
  function Sent(d: string, remote: string, local: string, ans: PullAnswer): seq<PullRequest>
  {
    if ans.OsError? then [] else [PullRequest(d, remote, local)]
  }

  /**
   * `pull_from_android` of for-windows.py. A tool failure or an interrupt
   * still writes exactly one `[❌ FAIL]` line and returns normally; any other
   * exception leaves the function with nothing logged.
   */
  function WindowsPull(d: string, remote: string, local: string, ans: PullAnswer): (e: Effect)
    ensures e.escape.None? <==> !ans.OsError?
    ensures e.escape.None? ==> |e.entries| == 1 && (e.entries[0].tag == Ok <==> ans.Pulled?)
    ensures e.escape.None? && !ans.Pulled? ==> e.entries[0].tag == Fail
    ensures e.escape.Some? ==> e.entries == [] && e.escape == Some(Exception(ans.reason))
    ensures e.issued == Sent(d, remote, local, ans)
  {
    match ans
    case Pulled => Effect([OkEntry(remote, local)], Sent(d, remote, local, ans), None)
    case ToolFailed(why) => Effect([ToolFailEntry(remote, local, why)], Sent(d, remote, local, ans), None)
    case Interrupted => Effect([InterruptEntry(remote)], Sent(d, remote, local, ans), None)
    case OsError(why) => Effect([], [], Some(Exception(why)))
  }

  /**
   * `pull_from_android` of the first Linux copy. It asks `adb devices` once
   * more and raises "Device disconnected" itself when the device is gone;
   * every `Exception` becomes one `[SKIP]` line; only an interrupt escapes,
   * unlogged.
   */
  function LinuxSkipPull(d: string, remote: string, local: string, recheck: Enumeration, ans: PullAnswer): (e: Effect)
    ensures e.escape.Some? <==> IsDeviceConnected(recheck, d) && ans.Interrupted?
    ensures e.escape.Some? ==> e.entries == [] && e.escape == Some(KeyboardInterrupt)
    ensures e.escape.None? ==> |e.entries| == 1
    ensures e.escape.None? ==> (e.entries[0].tag == Ok <==> IsDeviceConnected(recheck, d) && ans.Pulled?)
    ensures e.escape.None? && e.entries[0].tag != Ok ==> e.entries[0].tag == Skip
    ensures !IsDeviceConnected(recheck, d) ==> e.entries == [SkipEntry(remote, local, DEVICE_GONE)] && e.issued == []
    ensures IsDeviceConnected(recheck, d) ==> e.issued == Sent(d, remote, local, ans)
  {
    if !IsDeviceConnected(recheck, d) then
      Effect([SkipEntry(remote, local, DEVICE_GONE)], [], None)
    else
      match ans
      case Pulled => Effect([OkEntry(remote, local)], Sent(d, remote, local, ans), None)
      case ToolFailed(why) => Effect([SkipEntry(remote, local, why)], Sent(d, remote, local, ans), None)
      case OsError(why) => Effect([SkipEntry(remote, local, why)], [], None)
      case Interrupted => Effect([], Sent(d, remote, local, ans), Some(KeyboardInterrupt))
  }

  /**
   * The surviving tail of `pull_from_android` in the fail-fast Linux copy:
   * a failed pull writes one `[❌ FAIL]` line and re-raises; an interrupt
   * escapes unlogged; only a successful pull returns normally.
   */
  function FailFastPull(d: string, remote: string, local: string, ans: PullAnswer): (e: Effect)
    ensures e.escape.None? <==> ans.Pulled?
    ensures ans.Pulled? ==> e.entries == [OkEntry(remote, local)]
    ensures ans.ToolFailed? || ans.OsError? ==>
              e.entries == [FailFastEntry(remote, local, ans.reason)] && e.escape == Some(Exception(ans.reason))
    ensures ans.Interrupted? ==> e.entries == [] && e.escape == Some(KeyboardInterrupt)
    ensures e.issued == Sent(d, remote, local, ans)
  {
    match ans
    case Pulled => Effect([OkEntry(remote, local)], Sent(d, remote, local, ans), None)
    case ToolFailed(why) => Effect([FailFastEntry(remote, local, why)], Sent(d, remote, local, ans), Some(Exception(why)))
    case OsError(why) => Effect([FailFastEntry(remote, local, why)], [], Some(Exception(why)))
    case Interrupted => Effect([], Sent(d, remote, local, ans), Some(KeyboardInterrupt))
  }

  /**
   * `pull_cookies`: the cookie database is pulled only when the output of
   * `adb shell id` contains `uid=0`; otherwise exactly one `[SKIP]` line is
   * written and nothing is pulled. Every `Exception` becomes that one
   * `[SKIP]` line; an interrupt during the pull escapes unlogged.
   */
  function PullCookies(d: string, local: string, env: CookieEnv): (e: Effect)
    ensures e.issued != [] ==> env.id.IdOutput? && Contains(env.id.text, ROOT_UID)
    ensures forall q | q in e.issued :: q == PullRequest(d, COOKIE_REMOTE_PATH, local)
    ensures env.id.IdOutput? && !Contains(env.id.text, ROOT_UID) ==>
              e == Effect([CookieSkipEntry(local, NOT_ROOTED)], [], None)
    ensures env.id.IdFailed? ==> e == Effect([CookieSkipEntry(local, env.id.reason)], [], None)
    ensures e.escape.Some? <==> env.id.IdOutput? && Contains(env.id.text, ROOT_UID) && env.pull.Interrupted?
    ensures e.escape.Some? ==> e.entries == [] && e.escape == Some(KeyboardInterrupt)
    ensures e.escape.None? ==> |e.entries| == 1 && e.entries[0].tag in {Ok, Skip}
    ensures e.escape.None? ==> (e.entries[0].tag == Ok <==> env.id.IdOutput? && Contains(env.id.text, ROOT_UID) && env.pull.Pulled?)
  {
    match env.id
    case IdFailed(why) => Effect([CookieSkipEntry(local, why)], [], None)
    case IdOutput(text) =>
      if !Contains(text, ROOT_UID) then
        Effect([CookieSkipEntry(local, NOT_ROOTED)], [], None)
      else
        var sent := Sent(d, COOKIE_REMOTE_PATH, local, env.pull);
        match env.pull
        case Pulled => Effect([CookieOkEntry(local)], sent, None)
        case ToolFailed(why) => Effect([CookieSkipEntry(local, why)], sent, None)
        case OsError(why) => Effect([CookieSkipEntry(local, why)], sent, None)
        case Interrupted => Effect([], sent, Some(KeyboardInterrupt))
  }

  /** An exception that reaches the main block uncaught ends the script. */
  function Escalate(e: Effect): Run
  {
    Run(e.entries, e.issued, if e.escape.Some? then Uncaught(e.escape.value) else Completed)
  }

  /**
   * One iteration of a main `for folder` loop: the disconnect check (not in
   * the fail-fast copy) and the pull into `root/basename(folder)`.
   * `Completed` means the loop goes on to the next folder.
   */
  function Step(v: Variant, d: string, root: string, folder: string, env: FolderEnv): Run
  {
    var local := LocalFolder(root, folder);
    match v
    case Windows =>
      if !IsDeviceConnected(env.check, d) then Run([DisconnectEntry(v, folder)], [], Exit(1))
      else Escalate(WindowsPull(d, folder, local, env.pull))
    case LinuxSkip =>
      if !IsDeviceConnected(env.check, d) then Run([DisconnectEntry(v, folder)], [], Exit(1))
      else Escalate(LinuxSkipPull(d, folder, local, env.recheck, env.pull))
    case LinuxFailFast =>
      var e := FailFastPull(d, folder, local, env.pull);
      Run(e.entries, e.issued,
          match e.escape
          case None => Completed
          case Some(KeyboardInterrupt) => Uncaught(KeyboardInterrupt)
          case Some(Exception(_)) => Exit(1))
  }

  /** The step for each folder, in list order. */
  function Steps(v: Variant, d: string, root: string, folders: seq<string>, envs: seq<FolderEnv>): (steps: seq<Run>)
    requires |envs| == |folders|
    ensures |steps| == |folders|
  {
    if folders == [] then []
    else [Step(v, d, root, folders[0], envs[0])] + Steps(v, d, root, folders[1..], envs[1..])
  }

  /** Entry `i` of `Steps` is the step for folder `i`. */
  lemma {:induction false} StepsAt(v: Variant, d: string, root: string, folders: seq<string>, envs: seq<FolderEnv>, i: nat)
    requires |envs| == |folders| && i < |folders|
    ensures Steps(v, d, root, folders, envs)[i] == Step(v, d, root, folders[i], envs[i])
  {
    if i > 0 {
      StepsAt(v, d, root, folders[1..], envs[1..], i - 1);
    }
  }

  /**
   * `steps` holds the step for each folder, in list order. The quantifier
   * fires only on a `Step` term for one folder, so a proof that carries this
   * fact never unfolds the steps it does not look at.
   */
  predicate IsStepsOf(steps: seq<Run>, v: Variant, d: string, root: string, folders: seq<string>, envs: seq<FolderEnv>)
  {
    && |steps| == |folders| == |envs|
    && forall j {:trigger Step(v, d, root, folders[j], envs[j])} | 0 <= j < |steps| ::
         steps[j] == Step(v, d, root, folders[j], envs[j])
  }

  /** `Steps` is the sequence of per-folder steps. */
  lemma StepsAreSteps(v: Variant, d: string, root: string, folders: seq<string>, envs: seq<FolderEnv>)
    requires |envs| == |folders|
    ensures IsStepsOf(Steps(v, d, root, folders, envs), v, d, root, folders, envs)
  {
    forall j | 0 <= j < |folders|
      ensures Steps(v, d, root, folders, envs)[j] == Step(v, d, root, folders[j], envs[j])
    {
      StepsAt(v, d, root, folders, envs, j);
    }
  }

  /** Steps run one after the other, up to and including the first that does not go on; its ending is the loop's. */
  function Chain(steps: seq<Run>): Run
  {
    if steps == [] then Run([], [], Completed)
    else if steps[0].ending != Completed then steps[0]
    else
      var rest := Chain(steps[1..]);
      Run(steps[0].entries + rest.entries, steps[0].issued + rest.issued, rest.ending)
  }

  /** The whole folder loop of a copy. */
  function Folders(v: Variant, d: string, root: string, folders: seq<string>, envs: seq<FolderEnv>): Run
    requires |envs| == |folders|
  {
    Chain(Steps(v, d, root, folders, envs))
  }

  /** The folders each copy pulls. */
  function FolderList(v: Variant): seq<string>
  {
    if v.LinuxSkip? then FOLDERS_WITH_APP_DATA else FOLDERS
  }

  /** A whole session after the device is known: the folder loop, then (first Linux copy only) the cookie step. */
  function Session(v: Variant, d: string, root: string, envs: seq<FolderEnv>, cookie: CookieEnv): Run
    requires |envs| == |FolderList(v)|
  {
    var f := Folders(v, d, root, FolderList(v), envs);
    if v.LinuxSkip? && f.ending == Completed then
      var c := Escalate(PullCookies(d, CookiesPath(root), cookie));
      Run(f.entries + c.entries, f.issued + c.issued, c.ending)
    else f
  }

  /** The pull commands for the given folders, in order, each into its local folder under `root`. */
  function Requests(d: string, root: string, folders: seq<string>): seq<PullRequest>
  {
    if folders == [] then []
    else [PullRequest(d, folders[0], LocalFolder(root, folders[0]))] + Requests(d, root, folders[1..])
  }
}
