# Android USB backup scripts, modelled in Dafny

The repository holds two near-duplicate Python scripts that copy fixed
folders off an Android phone with the `adb` tool, into a session
directory `<target>/AndroidBackup_<timestamp>`. They log each folder's
outcome to `backup_log.txt` in that directory. `for-windows.py` is one
script. `for-linux.py` holds two copies: the first is a skip-and-continue
version with a rooted-only Chrome cookie pull. The second, a fail-fast
version, is glued onto the first one's last line.

The model covers the core shared by the three copies:

- **Device listing** (`AdbDevices`, on `Text`):
  - the `adb devices` parser: `strip`, `split('\n')`, drop the header, keep the lines that contain `device`, and take the text before the first tab;
  - `[]` when running the tool fails;
  - `is_device_connected` as membership in that list.
- **Wait loop** (`DeviceWait`): the loop that polls until a listing is non-empty and takes its first serial.
- **Paths** (`Paths`): the session root, the log file, `root/basename(folder)` for each folder, and the cookie path.
- **Session log** (`SessionLog`): `[<tag>] <message>` lines in a file that is only ever appended to.
- **Failure policies** (`Transfer`, as functions on values):
  - each copy's pull function and the cookie gate, as the lines they append, the `adb pull` commands they send and the exception they let out;
  - one loop step per folder, and the loop as the chain of steps up to the first one that ends the script.
- **Policy proofs** (`Policies`): for each copy, which folders are pulled, which lines are logged and how the script ends.
- **The `__main__` blocks** (`Orchestrator.BackupSession`): a class whose fields are the session directory, the log and the commands sent. Its methods follow the scripts statement by statement, and each is proved to do exactly what the matching `Transfer` function describes.

The device bridge is replaced by its answers:

- `Enumeration`: the output of one `adb devices` run, or `Failed`.
- `PullAnswer`:
  - `Pulled`;
  - `ToolFailed`: a non-zero exit, which raises `CalledProcessError`;
  - `Interrupted`: Ctrl-C while the tool ran;
  - `OsError`: `makedirs` failed, or the tool could not be started.
- `IdAnswer`: the output of `adb shell id`, or the exception it raised.

`FolderEnv` holds, for one folder, the main loop's listing, the listing
inside the pull function, and the pull's answer.

What is modelled is what the scripts do, not a tidier design one might expect of them:

- **Device choice.** The wait loop takes the first serial of the first non-empty listing; there is no lexicographic tie-break.
- **Disconnect before a folder.** In both copies that check, the main loop's check writes `[ERROR]` and exits 1; that check never skips a folder. The first Linux copy checks again inside its pull function (for-linux.py:63-64). A device missing there gives one `[SKIP] Failed to pull … | 📴 Device disconnected` line, and the loop goes on.
- **Fail-fast copy.** It has no disconnect check before a folder.
- **Log contents.** No session-summary line is written.
- **Session directory.** It is created with `exist_ok=True`, so an existing directory is reused without confirmation.

As written, `for-linux.py` is not a valid Python file. Line 141 joins the
first copy's last `print` with a line from the middle of the second
copy's `pull_from_android`. The second copy's imports, helpers and the
head of its pull function are missing. Each copy is modelled as its
authors evidently intended:

- the first copy runs up to line 141;
- the second copy's pull function starts at `os.makedirs`;
- its `__main__` block uses the listing functions of the first copy.

## Model

| member | source | states |
|---|---|---|
| Text.LeadingSpacesSpec | for-linux.py:51 | the leading count covers a run of whitespace and stops at the first other character |
| Text.TrailingSpacesSpec | for-linux.py:51 | the trailing count covers a run of whitespace at the end and stops at the last other character |
| Text.StripSpec | for-linux.py:51 | `strip()` keeps a contiguous slice of the input, removes only whitespace before and after it, and what it keeps neither starts nor ends with whitespace |
| Text.Strip | for-linux.py:51 | `str.strip()`; its meaning is given by `Text.StripSpec`: the maximal slice with whitespace removed on both sides |
| Text.FindSpec | for-linux.py:52 | the found index is the first occurrence of the character: none occurs before it, the character sits there, and the index is the length exactly when the character is absent |
| Text.SplitSpec | for-linux.py:51 | no piece of `split(sep)` contains the separator, and joining the pieces with it gives back the input |
| Text.SplitUnique | for-linux.py:51 | any separator-free pieces that join to the input are exactly what `split(sep)` returns |
| Text.Split | for-linux.py:51 | `str.split(sep)`, never empty; `Text.SplitSpec` and `Text.SplitUnique` show it is the one separator-free decomposition that joins back to the input |
| Text.FirstFieldIsSplitHead | for-linux.py:52 | the serial column is element 0 of `line.split('\t')` |
| Text.FirstFieldSpec | for-linux.py:52 | the serial is the longest tab-free prefix of the line: the whole line when it has no tab, otherwise the text before its first tab |
| Text.ContainsIff | for-linux.py:52 | the substring test holds exactly when the substring occurs at some position |
| Text.Contains | for-linux.py:52 | `sub in s`; `Text.ContainsIff` shows it holds exactly when `sub` occurs at some position |
| AdbDevices.KeptSerialsMember | for-linux.py:52 | a serial is kept exactly when some line that mentions `device` carries it in its first column |
| AdbDevices.KeptSerialsAppend | for-linux.py:52 | the kept serials follow line order: two blocks of lines give the first block's serials, then the second's |
| AdbDevices.ListAndroidDevices | for-linux.py:48-55 | `list_android_devices`; `AdbDevices.ListedIff` gives its exact contents, `AdbDevices.KeptSerialsAppend` its order, and a failed run gives `[]` |
| AdbDevices.HeaderOnlyListsNothing | for-linux.py:51 | output that is a single line after stripping lists no device, so no serial ever comes from the header |
| AdbDevices.ListedIff | for-linux.py:48-55 | a serial is listed exactly when some line after the header mentions `device` and carries that serial before its first tab (the Windows copy, for-windows.py:66-73, is the same function) |
| AdbDevices.IsDeviceConnected | for-linux.py:57-59 | `is_device_connected`; `AdbDevices.ConnectedIff` characterises it in terms of the lines of the output |
| AdbDevices.ConnectedIff | for-linux.py:57-59 | a device is connected exactly when some line after the header lists it; a failed `adb devices` run reports every device as disconnected (likewise for-windows.py:90-92) |
| DeviceWait.FirstNonEmptyPoll | for-linux.py:106-110 | the index is that of the first poll with a non-empty listing: every earlier poll listed nothing |
| DeviceWait.WaitForDevice | for-linux.py:105-112 | the loop stops only on a non-empty listing, after exactly the polls up to it, and returns that listing's first serial; if every poll is empty there is no device (the Windows loop, for-windows.py:112-119, is the same) |
| SessionLog.LineInjective | for-linux.py:67-72 | a written line determines its tag and message: two different entries never give the same line |
| SessionLog.FileTextAppend | for-linux.py:71-72 | appending an entry adds exactly its line and a newline at the end of the file; everything written before is unchanged |
| Paths.SegmentStart | for-linux.py:125 | `basename` starts right after the last `/`: no `/` follows, and the character before is a `/` |
| Paths.Basename | for-linux.py:125 | `os.path.basename`: the text after the last `/`, by `Paths.SegmentStart`; `Paths.BasenameAfterSlash` gives it for a name under a directory |
| Paths.JoinRelative | for-linux.py:126 | joining a `/`-free name under a directory gives a path that extends the directory and whose basename is that name again (an empty name leaves a basename that is empty too) |
| Paths.Join | for-linux.py:126 | `os.path.join` for two components; `Paths.JoinRelative` and `Paths.LocalFolderBasename` show that a `/`-free second component ends up under the first as its basename |
| Paths.BasenameAfterSlash | for-linux.py:125 | a `/`-free name after a directory ending in `/` is that path's basename |
| Paths.LocalFolderBasename | for-linux.py:125-126 | each local folder lies under the session root and has the remote folder's last segment as its own basename |
| Paths.LocalFolder | for-linux.py:125-126 | `join(backup_root, basename(folder))`; `Paths.LocalFolderBasename` shows it lies under the root with the folder's basename |
| Paths.FolderNames | for-linux.py:115-121 | the five folders go to `DCIM`, `Download`, `Documents`, `WhatsApp` and `data`, in list order; the four-folder list of the Windows script and the fail-fast copy is its prefix (by definition of `FOLDERS_WITH_APP_DATA`) |
| Paths.FolderNamesDistinct | for-linux.py:115-121 | the five local directory names are pairwise different |
| Paths.LocalFoldersDistinct | for-linux.py:115-126 | under any session root, no two fixed folders are copied into the same local directory |
| Paths.BackupRoot | for-linux.py:99-102 | `join(target, "AndroidBackup_" + timestamp)`; the session constructor ties the session directory and log file to it |
| Transfer.WindowsPull | for-windows.py:76-87 | a pull that works, fails in the tool or is interrupted writes exactly one line, `[✅ OK]` only for a pull that worked and `[❌ FAIL]` otherwise, and returns normally; any other exception escapes with no line; the command is sent unless creating the folder or starting the tool failed |
| Transfer.LinuxSkipPull | for-linux.py:61-72 | a device missing from the fresh listing gives one `[SKIP] … Device disconnected` line and no command; otherwise every `Exception` becomes one `[SKIP]` line, `[✅ OK]` is written exactly when the device is listed and the pull worked, and only an interrupt escapes, with no line |
| Transfer.FailFastPull | for-linux.py:141-152 | only a pull that worked returns normally, with one `[✅ OK]` line; a tool failure or other exception writes one `[❌ FAIL]` line and is raised again; an interrupt escapes with no line |
| Transfer.PullCookies | for-linux.py:74-89 | the cookie file is requested only when the `id` output contains `uid=0`, and only from the fixed path into `root/Cookies`; a device that is not rooted gives exactly one `[SKIP] … Device is not rooted` line and no command; otherwise exactly one `[✅ OK]` or `[SKIP]` line, `[✅ OK]` exactly when rooted and pulled; only an interrupt during the pull escapes |
| Policies.StepGoesOn | for-linux.py:124-134 | a loop step that goes on writes exactly one line, never an `[ERROR]` one, and sends at most the command for its own folder; in the Windows script it always sends it |
| Policies.StepIssuesOwnFolder | for-linux.py:134 | a loop step sends no command other than the one for its own folder into `root/basename(folder)` |
| Transfer.Step | for-linux.py:124-134 | one folder iteration of each copy; `Policies.StepGoesOn` and `Policies.StepIssuesOwnFolder` state what it logs and sends when the device is there, and `Policies.WindowsDisconnectAborts`, `Policies.LinuxSkipDisconnectAborts` and `Policies.LinuxSkipDisconnectPullsOnlyEarlier` state how a disconnect before a folder ends the loop |
| Policies.ChainAllGoOn | for-linux.py:124-134 | when every step goes on, the loop completes and sends the steps' commands in order; when each step writes one line, it writes the steps' lines in order |
| Policies.ChainStopAt | for-linux.py:124-134 | the loop stops at the first step that ends the script: earlier steps' lines and commands, then that step's; it ends as that step ends, and no later step contributes anything |
| Policies.AllIssuedRequests | for-linux.py:124-134 | steps that each sent their own folder's command together send the commands for those folders, in order |
| Policies.ChainIssuedFrom | for-linux.py:124-134 | every command the loop sends was sent by one of its steps |
| Transfer.Chain | for-linux.py:124-134 | the `for folder` loop as steps run up to the first that ends the script; `Policies.ChainAllGoOn`, `Policies.ChainStopAt` and `Policies.ChainIssuedFrom` characterise it |
| Transfer.Folders | for-windows.py:131-141 | the folder loop of a copy over its folder list, as the chain of its steps; the `Policies.Windows*`, `Policies.LinuxSkip*` and `Policies.FailFast*` lemmas state each copy's policy about that chain |
| Policies.FoldersIssueOnlyListed | for-linux.py:124-134 | every command of the loop goes to the session's one device and copies a listed folder into its own local folder |
| Policies.WindowsDisconnectAborts | for-windows.py:131-141 | a disconnect before folder k writes one line per earlier folder, then exactly one `[ERROR] USB disconnected while pulling <folder k>` line, the only `[ERROR]` line; the script exits 1, and exactly the earlier folders were pulled, in order |
| Policies.WindowsSkipAndContinue | for-windows.py:131-141 | when the device stays listed and no pull raises anything but a tool failure or an interrupt, every folder is pulled in order with one line each (`[✅ OK]` exactly for the pulls that worked, `[❌ FAIL]` otherwise), and the loop completes |
| Policies.WindowsOtherErrorEscapes | for-windows.py:76-87 | an exception other than a tool failure or an interrupt at folder k ends the script uncaught, with one line per earlier folder and none for folder k |
| Policies.LinuxSkipDisconnectAborts | for-linux.py:128-132 | a disconnect before folder k writes one line per earlier folder, then exactly one `[ERROR] Device disconnected while pulling <folder k>` line, the only `[ERROR]` line; the script exits 1 |
| Policies.LinuxSkipDisconnectPullsOnlyEarlier | for-linux.py:124-134 | after a disconnect before folder k, every command sent copies one of the folders before k |
| Policies.LinuxSkipContinues | for-linux.py:61-72 | when the main loop always finds the device and nothing is interrupted, each folder writes exactly one line (`[✅ OK]` exactly when the inner listing found the device and the pull worked, `[SKIP]` otherwise), and the loop completes |
| Policies.FailFastStopsAtFirstFailure | for-linux.py:186-193 | at the first pull that fails, each earlier folder has its `[✅ OK]` line, one `[❌ FAIL]` line follows, the script exits 1, and no later folder is attempted |
| Policies.FailFastAllPulled | for-linux.py:186-190 | when every pull works, every folder is pulled in order with one `[✅ OK]` line each, and the loop completes |
| Policies.CookiesOnlyWhenRooted | for-linux.py:136-137 | the cookie file is requested only after the whole folder loop completed and only when the `id` output contains `uid=0`; every command of the session goes to its one device |
| Policies.NotRootedSkipsCookies | for-linux.py:78-86 | on a device that is not rooted, a completed session adds exactly one `[SKIP] Cookies → … \| Device is not rooted` line, never requests the cookie file, and completes |
| Transfer.Session | for-linux.py:123-137 | the folder loop, then (first Linux copy, loop completed) the cookie step; `Policies.CookiesOnlyWhenRooted` and `Policies.NotRootedSkipsCookies` state the cookie gate over the whole session |
| Orchestrator.BackupSession.constructor | for-linux.py:99-102 | the session directory is `<target>/AndroidBackup_<timestamp>` with `backup_log.txt` inside it; nothing has been logged or sent yet |
| Orchestrator.BackupSession.Append | for-linux.py:71-72 | the log grows by exactly the one line at its end |
| Orchestrator.BackupSession.SendPull | for-linux.py:65-66 | the pull command is added to those sent unless creating the folder or starting the tool failed; the log is untouched |
| Orchestrator.BackupSession.PullWindows | for-windows.py:76-87 | the new log, the commands sent and the escaping exception are exactly those of the Windows pull function |
| Orchestrator.BackupSession.PullLinuxSkip | for-linux.py:61-72 | the new state and escaping exception are exactly those of the skip-and-continue pull function |
| Orchestrator.BackupSession.PullFailFast | for-linux.py:141-152 | the new state and escaping exception are exactly those of the fail-fast pull function |
| Orchestrator.BackupSession.PullCookieFile | for-linux.py:74-89 | the new state and escaping exception are exactly those of the cookie gate, writing into `root/Cookies` |
| Orchestrator.BackupSession.RunFolder | for-linux.py:125-134 | one loop iteration changes the log and commands exactly as that folder's step does, and ends as it does |
| Orchestrator.BackupSession.RunFolderAt | for-linux.py:124-134 | the iteration for folder i has the effect of the loop's i-th step |
| Orchestrator.BackupSession.BackupFolders | for-linux.py:124-134 | the `for folder` loop has exactly the effect of its steps chained up to the first that ends the script; the same loop in the Windows script (for-windows.py:131-141) and the fail-fast copy (for-linux.py:186-190) |
| Orchestrator.BackupSession.RunSession | for-linux.py:123-137 | after the device is found, the log and commands grow exactly as the session describes: the folder loop, then (first Linux copy, loop completed) the cookie step |
| Orchestrator.BackupSession.RunBackup | for-linux.py:104-137 | the device chosen is the one the wait settles on; with no device, nothing is logged or sent; otherwise the session runs on that device |

## Left out

- **Provisioning and user interface:** installing packages and `adb` (`install_and_import`, `check_adb`, `install_dependencies_linux`), listing drives, and prompting for the target. They are external provisioning and interaction; the target path is a parameter.
- **Console and timing:** `print` output, `time.sleep(3)` and the value of `datetime.now()`. They carry no behaviour; the timestamp is an opaque string.
- **The wait loop** polls forever. It is modelled on a finite sequence of `adb devices` answers, and running out of them means the script is still waiting.
- **Windows path rules:** `os.path` on Windows follows Windows rules (backslashes, drive letters). Both scripts' paths are modelled with the POSIX `join` and `basename`. These give the same basenames for the fixed `/sdcard/...` folders, but not the same full paths on Windows. For example, `ntpath.join("E:\\", "AndroidBackup_T")` gives `E:\AndroidBackup_T`, while the model gives `E:\/AndroidBackup_T`. So for the Windows script, the local paths in the model's `[✅ OK]` and `[❌ FAIL]` lines and in its `PullRequest.local` differ from the script's.
- **`os.makedirs(backup_root)`** and a failure to open or write the log file are not modelled. Such a failure would end the script with an uncaught exception.
- **Interrupts outside a pull:** a Ctrl-C during `adb devices`, during `adb shell id` or while writing the log is not modelled. Interrupts are modelled only during a pull.
- **Exit status of an uncaught exception:** it is the ending `Uncaught(exception)`, not a number.
- **Exception texts:** the messages of `CalledProcessError` and other exceptions are opaque reason strings. Only `Device disconnected` and `Device is not rooted`, which the scripts raise themselves, are spelled out.
- **Decoding and encoding:** decoding of the tool's bytes and the universal-newline translation are assumed done. An output that cannot be decoded counts as a failed `adb devices` run. The file encoding of the log is not modelled.
- **The copied files:** the files `adb pull` copies and the directories it creates are not modelled, only the command sent.
- **The second Linux copy's head:** the start of its `pull_from_android` is missing from the file; the model starts at `os.makedirs`.
