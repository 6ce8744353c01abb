/**
 * The failure policies of the three copies, proved about the folder loop
 * and the session: which folders are pulled, which lines are logged, and
 * how the script ends.
 */
module Policies {
  import opened Text
  import opened Paths
  import opened AdbDevices
  import opened SessionLog
  import opened Transfer

  /**
   * A step that goes on appends exactly one line, never an `[ERROR]` one, and
   * issues at most the one command for its own folder; in the Windows copy
   * that command is always sent.
   */
  lemma StepGoesOn(v: Variant, d: string, root: string, folder: string, env: FolderEnv)
    requires Step(v, d, root, folder, env).ending == Completed
    ensures |Step(v, d, root, folder, env).entries| == 1
    ensures Step(v, d, root, folder, env).entries[0].tag != Error
    ensures Step(v, d, root, folder, env).issued <= [PullRequest(d, folder, LocalFolder(root, folder))]
    ensures v.Windows? ==> Step(v, d, root, folder, env).issued == [PullRequest(d, folder, LocalFolder(root, folder))]
  {
  }

  /** With a disconnect check, a device missing from the main loop's listing ends the step with one `[ERROR]` line, no command and exit 1. */
  lemma StepDisconnects(v: Variant, d: string, root: string, folder: string, env: FolderEnv)
    requires !v.LinuxFailFast? && !IsDeviceConnected(env.check, d)
    ensures Step(v, d, root, folder, env) == Run([DisconnectEntry(v, folder)], [], Exit(1))
  {
  }

  /** No step issues anything but the one command for its own folder. */
  lemma StepIssuesOwnFolder(v: Variant, d: string, root: string, folder: string, env: FolderEnv)
    ensures Step(v, d, root, folder, env).issued <= [PullRequest(d, folder, LocalFolder(root, folder))]
  {
  }

  /** Every command of a run of steps is one that some step issued. */
  function AllIssued(steps: seq<Run>): seq<PullRequest>
  {
    if steps == [] then [] else steps[0].issued + AllIssued(steps[1..])
  }

  /**
   * When every step goes on, the loop completes, issues the steps' commands
   * in order and, when each step logs one line, logs the steps' lines in order.
   */
  lemma {:induction false} ChainAllGoOn(steps: seq<Run>)
    requires forall i | 0 <= i < |steps| :: steps[i].ending == Completed
    ensures Chain(steps).ending == Completed
    ensures Chain(steps).issued == AllIssued(steps)
    ensures (forall i | 0 <= i < |steps| :: |steps[i].entries| == 1) ==>
              |Chain(steps).entries| == |steps| && forall i | 0 <= i < |steps| :: Chain(steps).entries[i] == steps[i].entries[0]
  {
    if steps != [] {
      ChainAllGoOn(steps[1..]);
      if forall i | 0 <= i < |steps| :: |steps[i].entries| == 1 {
        forall i | 1 <= i < |steps| ensures Chain(steps).entries[i] == steps[i].entries[0] {
          assert steps[1..][i - 1] == steps[i];
        }
      }
    }
  }

  /**
   * The loop stops at the first step that does not go on: its lines and
   * commands are those of the earlier steps followed by that step's, it ends
   * as that step ends, and no later step contributes anything.
   */
  lemma {:induction false} ChainStopAt(steps: seq<Run>, k: nat)
    requires k < |steps|
    requires forall i | 0 <= i < k :: steps[i].ending == Completed
    requires steps[k].ending != Completed
    ensures Chain(steps[..k]).ending == Completed
    ensures Chain(steps)
            == Run(Chain(steps[..k]).entries + steps[k].entries, Chain(steps[..k]).issued + steps[k].issued, steps[k].ending)
  {
    if k == 0 {
      assert steps[..k] == [];
    } else {
      var rest := steps[1..];
      assert forall i | 0 <= i < k - 1 :: rest[i] == steps[i + 1];
      ChainStopAt(rest, k - 1);
      assert steps[..k][1..] == rest[..k - 1];
      assert rest[k - 1] == steps[k];
      var before := Chain(rest[..k - 1]);
      assert steps[0].entries + (before.entries + steps[k].entries) == (steps[0].entries + before.entries) + steps[k].entries;
      assert steps[0].issued + (before.issued + steps[k].issued) == (steps[0].issued + before.issued) + steps[k].issued;
    }
  }

  /** The commands of a run of steps each of which issued the one command for its folder are the commands for those folders. */
  lemma {:induction false} AllIssuedRequests(d: string, root: string, folders: seq<string>, steps: seq<Run>)
    requires |steps| == |folders|
    requires forall i | 0 <= i < |steps| :: steps[i].issued == [PullRequest(d, folders[i], LocalFolder(root, folders[i]))]
    ensures AllIssued(steps) == Requests(d, root, folders)
  {
    if steps != [] {
      AllIssuedRequests(d, root, folders[1..], steps[1..]);
    }
  }

  /** Every command a run of steps issues was issued by one of the steps. */
  lemma {:induction false} ChainIssuedFrom(steps: seq<Run>)
    ensures forall q | q in Chain(steps).issued :: exists i | 0 <= i < |steps| :: q in steps[i].issued
  {
    if steps != [] && steps[0].ending == Completed {
      ChainIssuedFrom(steps[1..]);
      forall q | q in Chain(steps[1..]).issued ensures exists i | 0 <= i < |steps| :: q in steps[i].issued {
        var i :| 0 <= i < |steps[1..]| && q in steps[1..][i].issued;
        assert steps[i + 1] == steps[1..][i];
      }
    }
  }

  /** Every command a session issues goes to the session's one device and copies a listed folder into its own local folder. */
  lemma FoldersIssueOnlyListed(v: Variant, d: string, root: string, folders: seq<string>, envs: seq<FolderEnv>, steps: seq<Run>)
    requires IsStepsOf(steps, v, d, root, folders, envs)
    ensures forall q | q in Chain(steps).issued :: q.device == d && q.remote in folders && q.local == LocalFolder(root, q.remote)
  {
    ChainIssuedFrom(steps);
    forall q | q in Chain(steps).issued ensures q.device == d && q.remote in folders && q.local == LocalFolder(root, q.remote) {
      var i :| 0 <= i < |steps| && q in steps[i].issued;
      StepIssuesOwnFolder(v, d, root, folders[i], envs[i]);
    }
  }

  /**
   * Windows, disconnect before folder k (earlier folders seen connected and
   * not raising): the loop appends one line per earlier folder and then
   * exactly one `[ERROR] USB disconnected while pulling <folder k>` line, the
   * only `[ERROR]` line; the script exits 1; and exactly the earlier folders
   * were pulled, in order, so no folder from k on is attempted.
   */
  lemma WindowsDisconnectAborts(d: string, root: string, folders: seq<string>, envs: seq<FolderEnv>, steps: seq<Run>, k: nat)
    requires IsStepsOf(steps, Windows, d, root, folders, envs) && k < |folders|
    requires forall i | 0 <= i < k :: IsDeviceConnected(envs[i].check, d) && !envs[i].pull.OsError?
    requires !IsDeviceConnected(envs[k].check, d)
    ensures Chain(steps).ending == Exit(1)
    ensures |Chain(steps).entries| == k + 1
    ensures Chain(steps).entries[k] == DisconnectEntry(Windows, folders[k])
    ensures forall j | 0 <= j < k :: Chain(steps).entries[j].tag != Error
    ensures Chain(steps).issued == Requests(d, root, folders[..k])
  {
    forall i | 0 <= i < k
      ensures steps[i].ending == Completed && |steps[i].entries| == 1 && steps[i].entries[0].tag != Error
      ensures steps[i].issued == [PullRequest(d, folders[i], LocalFolder(root, folders[i]))]
    {
      assert steps[i] == Step(Windows, d, root, folders[i], envs[i]);
      StepGoesOn(Windows, d, root, folders[i], envs[i]);
    }
    assert steps[k] == Step(Windows, d, root, folders[k], envs[k]);
    StepDisconnects(Windows, d, root, folders[k], envs[k]);
    ChainStopAt(steps, k);
    ChainAllGoOn(steps[..k]);
    AllIssuedRequests(d, root, folders[..k], steps[..k]);
  }

  /**
   * Windows, skip-and-continue: when every check finds the device and no pull
   * raises anything but a tool failure or an interrupt, every folder is pulled
   * in list order, each appends exactly one line (`[✅ OK]` for a pull that
   * worked, `[❌ FAIL]` otherwise), and the loop completes.
   */
  lemma WindowsSkipAndContinue(d: string, root: string, folders: seq<string>, envs: seq<FolderEnv>, steps: seq<Run>)
    requires IsStepsOf(steps, Windows, d, root, folders, envs)
    requires forall i | 0 <= i < |folders| :: IsDeviceConnected(envs[i].check, d) && !envs[i].pull.OsError?
    ensures Chain(steps).ending == Completed
    ensures |Chain(steps).entries| == |folders|
    ensures forall i | 0 <= i < |folders| ::
              Chain(steps).entries[i].tag == (if envs[i].pull.Pulled? then Ok else Fail)
    ensures Chain(steps).issued == Requests(d, root, folders)
  {
    forall i | 0 <= i < |folders|
      ensures steps[i].ending == Completed && |steps[i].entries| == 1
      ensures steps[i].entries[0].tag == (if envs[i].pull.Pulled? then Ok else Fail)
      ensures steps[i].issued == [PullRequest(d, folders[i], LocalFolder(root, folders[i]))]
    {
      assert steps[i] == Step(Windows, d, root, folders[i], envs[i]);
    }
    ChainAllGoOn(steps);
    AllIssuedRequests(d, root, folders, steps);
  }

  /** Windows: a pull that raises anything other than a tool failure or an interrupt ends the script uncaught, with no line for that folder. */
  lemma WindowsOtherErrorEscapes(d: string, root: string, folders: seq<string>, envs: seq<FolderEnv>, steps: seq<Run>, k: nat)
    requires IsStepsOf(steps, Windows, d, root, folders, envs) && k < |folders|
    requires forall i | 0 <= i < k :: IsDeviceConnected(envs[i].check, d) && !envs[i].pull.OsError?
    requires IsDeviceConnected(envs[k].check, d) && envs[k].pull.OsError?
    ensures Chain(steps).ending == Uncaught(Exception(envs[k].pull.reason))
    ensures |Chain(steps).entries| == k
    ensures Chain(steps).issued == Requests(d, root, folders[..k])
  {
    forall i | 0 <= i < k
      ensures steps[i].ending == Completed && |steps[i].entries| == 1
      ensures steps[i].issued == [PullRequest(d, folders[i], LocalFolder(root, folders[i]))]
    {
      assert steps[i] == Step(Windows, d, root, folders[i], envs[i]);
      StepGoesOn(Windows, d, root, folders[i], envs[i]);
    }
    assert steps[k] == Step(Windows, d, root, folders[k], envs[k]);
    assert steps[k] == Run([], [], Uncaught(Exception(envs[k].pull.reason)));
    ChainStopAt(steps, k);
    ChainAllGoOn(steps[..k]);
    AllIssuedRequests(d, root, folders[..k], steps[..k]);
  }

  /**
   * First Linux copy, disconnect before folder k (earlier folders seen
   * connected and not interrupted): one line per earlier folder, then exactly
   * one `[ERROR] Device disconnected while pulling <folder k>` line, the only
   * `[ERROR]` line; exit 1.
   */
  lemma LinuxSkipDisconnectAborts(d: string, root: string, folders: seq<string>, envs: seq<FolderEnv>, steps: seq<Run>, k: nat)
    requires IsStepsOf(steps, LinuxSkip, d, root, folders, envs) && k < |folders|
    requires forall i | 0 <= i < k ::
               IsDeviceConnected(envs[i].check, d) && !(IsDeviceConnected(envs[i].recheck, d) && envs[i].pull.Interrupted?)
    requires !IsDeviceConnected(envs[k].check, d)
    ensures Chain(steps).ending == Exit(1)
    ensures |Chain(steps).entries| == k + 1
    ensures Chain(steps).entries[k] == DisconnectEntry(LinuxSkip, folders[k])
    ensures forall j | 0 <= j < k :: Chain(steps).entries[j].tag != Error
  {
    forall i | 0 <= i < k
      ensures steps[i].ending == Completed && |steps[i].entries| == 1 && steps[i].entries[0].tag != Error
    {
      assert steps[i] == Step(LinuxSkip, d, root, folders[i], envs[i]);
      StepGoesOn(LinuxSkip, d, root, folders[i], envs[i]);
    }
    assert steps[k] == Step(LinuxSkip, d, root, folders[k], envs[k]);
    StepDisconnects(LinuxSkip, d, root, folders[k], envs[k]);
    ChainStopAt(steps, k);
    ChainAllGoOn(steps[..k]);
  }

  /** First Linux copy, disconnect before folder k: every command issued copies one of the earlier folders. */
  lemma LinuxSkipDisconnectPullsOnlyEarlier(d: string, root: string, folders: seq<string>, envs: seq<FolderEnv>, steps: seq<Run>, k: nat)
    requires IsStepsOf(steps, LinuxSkip, d, root, folders, envs) && k < |folders|
    requires forall i | 0 <= i < k ::
               IsDeviceConnected(envs[i].check, d) && !(IsDeviceConnected(envs[i].recheck, d) && envs[i].pull.Interrupted?)
    requires !IsDeviceConnected(envs[k].check, d)
    ensures forall q | q in Chain(steps).issued :: q.remote in folders[..k]
  {
    forall i | 0 <= i < k ensures steps[i].ending == Completed {
      assert steps[i] == Step(LinuxSkip, d, root, folders[i], envs[i]);
      StepGoesOn(LinuxSkip, d, root, folders[i], envs[i]);
    }
    assert steps[k] == Step(LinuxSkip, d, root, folders[k], envs[k]);
    StepDisconnects(LinuxSkip, d, root, folders[k], envs[k]);
    ChainStopAt(steps, k);
    ChainIssuedFrom(steps[..k]);
    forall q | q in Chain(steps[..k]).issued ensures q.remote in folders[..k] {
      var i :| 0 <= i < k && q in steps[..k][i].issued;
      assert steps[i] == Step(LinuxSkip, d, root, folders[i], envs[i]);
      StepIssuesOwnFolder(LinuxSkip, d, root, folders[i], envs[i]);
      assert folders[..k][i] == folders[i];
    }
  }

  /**
   * First Linux copy, skip-and-continue: when every main-loop check finds the
   * device and nothing is interrupted, each folder appends exactly one line,
   * `[✅ OK]` when the inner check found the device and the pull worked and
   * `[SKIP]` otherwise, and the loop completes.
   */
  lemma LinuxSkipContinues(d: string, root: string, folders: seq<string>, envs: seq<FolderEnv>, steps: seq<Run>)
    requires IsStepsOf(steps, LinuxSkip, d, root, folders, envs)
    requires forall i | 0 <= i < |folders| ::
               IsDeviceConnected(envs[i].check, d) && !(IsDeviceConnected(envs[i].recheck, d) && envs[i].pull.Interrupted?)
    ensures Chain(steps).ending == Completed
    ensures |Chain(steps).entries| == |folders|
    ensures forall i | 0 <= i < |folders| ::
              Chain(steps).entries[i].tag
              == (if IsDeviceConnected(envs[i].recheck, d) && envs[i].pull.Pulled? then Ok else Skip)
  {
    forall i | 0 <= i < |folders|
      ensures steps[i].ending == Completed && |steps[i].entries| == 1
      ensures steps[i].entries[0].tag == (if IsDeviceConnected(envs[i].recheck, d) && envs[i].pull.Pulled? then Ok else Skip)
    {
      assert steps[i] == Step(LinuxSkip, d, root, folders[i], envs[i]);
    }
    ChainAllGoOn(steps);
  }

  /**
   * Fail-fast copy: at the first pull that fails (tool failure or other
   * exception) the loop has logged `[✅ OK]` for every earlier folder and
   * appends one `[❌ FAIL]` line; the script exits 1 and no later folder is
   * attempted.
   */
  lemma FailFastStopsAtFirstFailure(d: string, root: string, folders: seq<string>, envs: seq<FolderEnv>, steps: seq<Run>, k: nat)
    requires IsStepsOf(steps, LinuxFailFast, d, root, folders, envs) && k < |folders|
    requires forall i | 0 <= i < k :: envs[i].pull.Pulled?
    requires envs[k].pull.ToolFailed? || envs[k].pull.OsError?
    ensures Chain(steps).ending == Exit(1)
    ensures |Chain(steps).entries| == k + 1
    ensures forall j | 0 <= j < k ::
              Chain(steps).entries[j] == OkEntry(folders[j], LocalFolder(root, folders[j]))
    ensures Chain(steps).entries[k]
            == FailFastEntry(folders[k], LocalFolder(root, folders[k]), envs[k].pull.reason)
    ensures Chain(steps).issued
            == Requests(d, root, folders[..k]) + Sent(d, folders[k], LocalFolder(root, folders[k]), envs[k].pull)
  {
    forall i | 0 <= i < k
      ensures steps[i] == Run([OkEntry(folders[i], LocalFolder(root, folders[i]))],
                              [PullRequest(d, folders[i], LocalFolder(root, folders[i]))], Completed)
    {
      assert steps[i] == Step(LinuxFailFast, d, root, folders[i], envs[i]);
    }
    assert steps[k] == Step(LinuxFailFast, d, root, folders[k], envs[k])
                    == Run([FailFastEntry(folders[k], LocalFolder(root, folders[k]), envs[k].pull.reason)],
                           Sent(d, folders[k], LocalFolder(root, folders[k]), envs[k].pull), Exit(1));
    ChainStopAt(steps, k);
    ChainAllGoOn(steps[..k]);
    AllIssuedRequests(d, root, folders[..k], steps[..k]);
  }

  /** Fail-fast copy: when every pull works, every folder is pulled in order with one `[✅ OK]` line each and the loop completes. */
  lemma FailFastAllPulled(d: string, root: string, folders: seq<string>, envs: seq<FolderEnv>, steps: seq<Run>)
    requires IsStepsOf(steps, LinuxFailFast, d, root, folders, envs)
    requires forall i | 0 <= i < |folders| :: envs[i].pull.Pulled?
    ensures Chain(steps).ending == Completed
    ensures |Chain(steps).entries| == |folders|
    ensures forall i | 0 <= i < |folders| ::
              Chain(steps).entries[i] == OkEntry(folders[i], LocalFolder(root, folders[i]))
    ensures Chain(steps).issued == Requests(d, root, folders)
  {
    forall i | 0 <= i < |folders|
      ensures steps[i] == Run([OkEntry(folders[i], LocalFolder(root, folders[i]))],
                              [PullRequest(d, folders[i], LocalFolder(root, folders[i]))], Completed)
    {
      assert steps[i] == Step(LinuxFailFast, d, root, folders[i], envs[i]);
    }
    ChainAllGoOn(steps);
    AllIssuedRequests(d, root, folders, steps);
  }

  /**
   * First Linux copy: the cookie database is requested only after the
   * whole folder loop completed and only when `adb shell id` printed
   * `uid=0`; every command of the session goes to its one device.
   */
  lemma CookiesOnlyWhenRooted(d: string, root: string, envs: seq<FolderEnv>, cookie: CookieEnv)
    requires |envs| == |FOLDERS_WITH_APP_DATA|
    ensures forall q | q in Session(LinuxSkip, d, root, envs, cookie).issued :: q.device == d
    ensures (exists q | q in Session(LinuxSkip, d, root, envs, cookie).issued :: q.remote == COOKIE_REMOTE_PATH) ==>
              && Folders(LinuxSkip, d, root, FOLDERS_WITH_APP_DATA, envs).ending == Completed
              && cookie.id.IdOutput? && Contains(cookie.id.text, ROOT_UID)
  {
    StepsAreSteps(LinuxSkip, d, root, FOLDERS_WITH_APP_DATA, envs);
    FoldersIssueOnlyListed(LinuxSkip, d, root, FOLDERS_WITH_APP_DATA, envs, Steps(LinuxSkip, d, root, FOLDERS_WITH_APP_DATA, envs));
    assert COOKIE_REMOTE_PATH !in FOLDERS_WITH_APP_DATA;
  }

  /**
   * First Linux copy on a device that is not rooted: after a completed folder
   * loop the session appends exactly one more line, `[SKIP] Cookies → … |
   * Device is not rooted`, requests no cookie file and completes.
   */
  lemma NotRootedSkipsCookies(d: string, root: string, envs: seq<FolderEnv>, cookie: CookieEnv)
    requires |envs| == |FOLDERS_WITH_APP_DATA|
    requires Folders(LinuxSkip, d, root, FOLDERS_WITH_APP_DATA, envs).ending == Completed
    requires cookie.id.IdOutput? && !Contains(cookie.id.text, ROOT_UID)
    ensures Session(LinuxSkip, d, root, envs, cookie).entries
            == Folders(LinuxSkip, d, root, FOLDERS_WITH_APP_DATA, envs).entries + [CookieSkipEntry(CookiesPath(root), NOT_ROOTED)]
    ensures forall q | q in Session(LinuxSkip, d, root, envs, cookie).issued :: q.remote != COOKIE_REMOTE_PATH
    ensures Session(LinuxSkip, d, root, envs, cookie).ending == Completed
  {
    StepsAreSteps(LinuxSkip, d, root, FOLDERS_WITH_APP_DATA, envs);
    FoldersIssueOnlyListed(LinuxSkip, d, root, FOLDERS_WITH_APP_DATA, envs, Steps(LinuxSkip, d, root, FOLDERS_WITH_APP_DATA, envs));
    assert COOKIE_REMOTE_PATH !in FOLDERS_WITH_APP_DATA;
  }
}
