/**
 * The `__main__` block of each script as a state machine: a backup session
 * owns its directory, its log file and the commands it has sent, and its
 * methods follow the scripts statement by statement. Each method is proved
 * to do exactly what the corresponding function of `Transfer` describes, so
 * the policies proved about those functions hold of the session.
 */
module Orchestrator {
  import opened Common
  import opened Paths
  import opened AdbDevices
  import opened SessionLog
  import opened Transfer
  import opened DeviceWait

  /** Running the steps from `i` on is step `i`, then, if it goes on, the steps from `i + 1` on. */
  lemma ChainFrom(steps: seq<Run>, i: nat)
    requires i < |steps|
    ensures Chain(steps[i..])
            == if steps[i].ending != Completed then steps[i]
               else Run(steps[i].entries + Chain(steps[i + 1..]).entries, steps[i].issued + Chain(steps[i + 1..]).issued,
                        Chain(steps[i + 1..]).ending)
  {
    assert steps[i..][1..] == steps[i + 1..];
  }

  /**
   * One turn of the folder loop. Before it, the lines and commands so far
   * followed by those of the steps from `i` on make up the whole loop's;
   * after step `i`, either the same holds from `i + 1` on, or step `i` ended
   * the loop and the lines and commands so far are exactly the whole loop's.
   */
  lemma LoopTurn(steps: seq<Run>, i: nat, whole: Run, log: seq<LogEntry>, log0: seq<LogEntry>, log1: seq<LogEntry>,
                 issued: seq<PullRequest>, issued0: seq<PullRequest>, issued1: seq<PullRequest>)
    requires i < |steps|
    requires log + whole.entries == log0 + Chain(steps[i..]).entries
    requires issued + whole.issued == issued0 + Chain(steps[i..]).issued
    requires whole.ending == Chain(steps[i..]).ending
    requires log1 == log0 + steps[i].entries && issued1 == issued0 + steps[i].issued
    ensures steps[i].ending == Completed ==>
              && log + whole.entries == log1 + Chain(steps[i + 1..]).entries
              && issued + whole.issued == issued1 + Chain(steps[i + 1..]).issued
              && whole.ending == Chain(steps[i + 1..]).ending
    ensures steps[i].ending != Completed ==>
              log1 == log + whole.entries && issued1 == issued + whole.issued && whole.ending == steps[i].ending
  {
    ChainFrom(steps, i);
  }

  /** Appending in two rounds is appending both parts in one. */
  lemma SplitAppend<T>(start: seq<T>, middle: seq<T>, end: seq<T>, first: seq<T>, second: seq<T>)
    requires middle == start + first && end == middle + second
    ensures end == start + (first + second)
  {
  }

  class BackupSession {
    /** `backup_root`, the session directory. */
    const root: string
    /** `log_file`, inside the session directory. */
    const logFile: string
    /** The lines appended to the log file so far, oldest first. */
    var log: seq<LogEntry>
    /** The `adb pull` commands sent so far, oldest first. */
    var issued: seq<PullRequest>

    /** Sets up the session directory `<target>/AndroidBackup_<timestamp>` and its log file, both still empty. */
    constructor(target: string, timestamp: string)
      ensures root == BackupRoot(target, timestamp) && logFile == LogFilePath(root)
      ensures log == [] && issued == []
    {
      root := BackupRoot(target, timestamp);
      logFile := LogFilePath(BackupRoot(target, timestamp));
      log := [];
      issued := [];
    }

    /** `open(log_file, 'a')` and write one line: the log only ever grows at its end. */
    method Append(e: LogEntry)
      modifies this
      ensures log == old(log) + [e] && issued == old(issued)
    {
      log := log + [e];
    }

    /** `makedirs` and `adb pull`: the command reaches the tool unless creating the folder or starting the tool failed. */
    method SendPull(d: string, remote: string, local: string, ans: PullAnswer)
      modifies this
      ensures issued == old(issued) + Sent(d, remote, local, ans) && log == old(log)
    {
      if !ans.OsError? {
        issued := issued + [PullRequest(d, remote, local)];
      }
    }

    /** `pull_from_android` of the Windows script. */
    method PullWindows(d: string, remote: string, local: string, ans: PullAnswer) returns (escape: Option<Exc>)
      modifies this
      ensures var e := WindowsPull(d, remote, local, ans);
              log == old(log) + e.entries && issued == old(issued) + e.issued && escape == e.escape
    {
      SendPull(d, remote, local, ans);
      var line: LogEntry;
      match ans {
        case OsError(why) =>
          return Some(Exception(why));
        case Pulled =>
          line := OkEntry(remote, local);
        case ToolFailed(why) =>
          line := ToolFailEntry(remote, local, why);
        case Interrupted =>
          line := InterruptEntry(remote);
      }
      Append(line);
      escape := None;
    }

    /** `pull_from_android` of the first Linux copy, with its own connectivity check. */
    method PullLinuxSkip(d: string, remote: string, local: string, recheck: Enumeration, ans: PullAnswer)
      returns (escape: Option<Exc>)
      modifies this
      ensures var e := LinuxSkipPull(d, remote, local, recheck, ans);
              log == old(log) + e.entries && issued == old(issued) + e.issued && escape == e.escape
    {
      if !IsDeviceConnected(recheck, d) {
        Append(SkipEntry(remote, local, DEVICE_GONE));
        return None;
      }
      SendPull(d, remote, local, ans);
      match ans {
        case Interrupted =>
          return Some(KeyboardInterrupt);
        case Pulled =>
          Append(OkEntry(remote, local));
        case ToolFailed(why) =>
          Append(SkipEntry(remote, local, why));
        case OsError(why) =>
          Append(SkipEntry(remote, local, why));
      }
      escape := None;
    }

    /** The surviving tail of `pull_from_android` in the fail-fast Linux copy. */
    method PullFailFast(d: string, remote: string, local: string, ans: PullAnswer) returns (escape: Option<Exc>)
      modifies this
      ensures var e := FailFastPull(d, remote, local, ans);
              log == old(log) + e.entries && issued == old(issued) + e.issued && escape == e.escape
    {
      SendPull(d, remote, local, ans);
      match ans {
        case Pulled =>
          Append(OkEntry(remote, local));
          escape := None;
        case Interrupted =>
          escape := Some(KeyboardInterrupt);
        case ToolFailed(why) =>
          Append(FailFastEntry(remote, local, why));
          escape := Some(Exception(why));
        case OsError(why) =>
          Append(FailFastEntry(remote, local, why));
          escape := Some(Exception(why));
      }
    }

    /** `pull_cookies`: ask `adb shell id`, and pull the cookie database only as the superuser. */
    method PullCookieFile(d: string, env: CookieEnv) returns (escape: Option<Exc>)
      modifies this
      ensures var e := PullCookies(d, CookiesPath(root), env);
              log == old(log) + e.entries && issued == old(issued) + e.issued && escape == e.escape
    {
      var local := CookiesPath(root);
      escape := None;
      match env.id {
        case IdFailed(why) =>
          Append(CookieSkipEntry(local, why));
        case IdOutput(text) =>
          if !Text.Contains(text, ROOT_UID) {
            Append(CookieSkipEntry(local, NOT_ROOTED));
          } else {
            SendPull(d, COOKIE_REMOTE_PATH, local, env.pull);
            match env.pull {
              case Pulled =>
                Append(CookieOkEntry(local));
              case ToolFailed(why) =>
                Append(CookieSkipEntry(local, why));
              case OsError(why) =>
                Append(CookieSkipEntry(local, why));
              case Interrupted =>
                escape := Some(KeyboardInterrupt);
            }
          }
      }
    }

    /** One iteration of the `for folder` loop: the disconnect check, then the pull into `root/basename(folder)`. */
    method RunFolder(v: Variant, d: string, folder: string, env: FolderEnv) returns (ending: Ending)
      modifies this
      ensures var r := Step(v, d, root, folder, env);
              log == old(log) + r.entries && issued == old(issued) + r.issued && ending == r.ending
    {
      var local := Join(root, Basename(folder));
      if !v.LinuxFailFast? && !IsDeviceConnected(env.check, d) {
        Append(DisconnectEntry(v, folder));
        return Exit(1);
      }
      var escape: Option<Exc>;
      match v {
        case Windows =>
          escape := PullWindows(d, folder, local, env.pull);
        case LinuxSkip =>
          escape := PullLinuxSkip(d, folder, local, env.recheck, env.pull);
        case LinuxFailFast =>
          escape := PullFailFast(d, folder, local, env.pull);
      }
      match escape {
        case None =>
          ending := Completed;
        case Some(KeyboardInterrupt) =>
          ending := Uncaught(KeyboardInterrupt);
        case Some(Exception(why)) =>
          ending := if v.LinuxFailFast? then Exit(1) else Uncaught(Exception(why));
      }
    }

    /** The loop body for the `i`-th folder of the list: the `i`-th of the loop's steps. */
    method RunFolderAt(v: Variant, d: string, folders: seq<string>, envs: seq<FolderEnv>, i: nat,
                       ghost steps: seq<Run>) returns (ending: Ending)
      requires IsStepsOf(steps, v, d, root, folders, envs) && i < |folders|
      modifies this
      ensures log == old(log) + steps[i].entries && issued == old(issued) + steps[i].issued && ending == steps[i].ending
    {
      ending := RunFolder(v, d, folders[i], envs[i]);
    }

    /** The `for folder in folders_to_pull` loop: it stops at the first folder whose step ends the script. */
    method BackupFolders(v: Variant, d: string, folders: seq<string>, envs: seq<FolderEnv>,
                         ghost steps: seq<Run>) returns (ending: Ending)
      requires IsStepsOf(steps, v, d, root, folders, envs)
      modifies this
      ensures var r := Chain(steps);
              log == old(log) + r.entries && issued == old(issued) + r.issued && ending == r.ending
    {
      ghost var whole := Chain(steps);
      var i := 0;
      ending := Completed;
      while i < |folders| && ending == Completed
        invariant 0 <= i <= |folders|
        invariant ending == Completed ==>
                    && old(log) + whole.entries == log + Chain(steps[i..]).entries
                    && old(issued) + whole.issued == issued + Chain(steps[i..]).issued
                    && whole.ending == Chain(steps[i..]).ending
        invariant ending != Completed ==>
                    log == old(log) + whole.entries && issued == old(issued) + whole.issued && ending == whole.ending
        decreases |folders| - i
      {
        ghost var log0, issued0 := log, issued;
        ending := RunFolderAt(v, d, folders, envs, i, steps);
        LoopTurn(steps, i, whole, old(log), log0, log, old(issued), issued0, issued);
        i := i + 1;
      }
      if ending == Completed {
        assert steps[i..] == [];
      }
    }

    /** Everything after the device is found: the folder loop and, in the first Linux copy, the cookie step. */
    method RunSession(v: Variant, d: string, envs: seq<FolderEnv>, cookie: CookieEnv) returns (ending: Ending)
      requires |envs| == |FolderList(v)|
      modifies this
      ensures var r := Session(v, d, root, envs, cookie);
              log == old(log) + r.entries && issued == old(issued) + r.issued && ending == r.ending
    {
      StepsAreSteps(v, d, root, FolderList(v), envs);
      ending := BackupFolders(v, d, FolderList(v), envs, Steps(v, d, root, FolderList(v), envs));
      if v.LinuxSkip? && ending == Completed {
        ghost var log0, issued0 := log, issued;
        var escape := PullCookieFile(d, cookie);
        ending := if escape.Some? then Uncaught(escape.value) else Completed;
        ghost var c := PullCookies(d, CookiesPath(root), cookie);
        assert log == log0 + c.entries && issued == issued0 + c.issued;
        SplitAppend(old(log), log0, log, Folders(v, d, root, FolderList(v), envs).entries, c.entries);
        SplitAppend(old(issued), issued0, issued, Folders(v, d, root, FolderList(v), envs).issued, c.issued);
      }
    }

    /**
     * The whole session once its directory is set up: wait for a device, then
     * run the session on the serial the wait settled on. `None` means no poll
     * listed a device, so the script is still waiting and has written nothing.
     */
    method RunBackup(v: Variant, polls: seq<Enumeration>, envs: seq<FolderEnv>, cookie: CookieEnv)
      returns (device: Option<string>, outcome: Option<Ending>)
      requires |envs| == |FolderList(v)|
      modifies this
      ensures device == Chosen(polls)
      ensures device.None? ==> outcome.None? && log == old(log) && issued == old(issued)
      ensures device.Some? ==> var r := Session(v, device.value, root, envs, cookie);
                               outcome == Some(r.ending) && log == old(log) + r.entries && issued == old(issued) + r.issued
    {
      var polled;
      device, polled := WaitForDevice(polls);
      if device.None? {
        return device, None;
      }
      var ending := RunSession(v, device.value, envs, cookie);
      outcome := Some(ending);
    }
  }
}
