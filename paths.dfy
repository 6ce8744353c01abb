/**
 * Where a backup session puts things: the session directory
 * `<target>/AndroidBackup_<timestamp>`, the log file inside it, and one
 * sub-directory per remote folder, named by the folder's last path segment.
 * Paths follow POSIX `os.path.join` and `os.path.basename`.
 */
module Paths {

  /** Index just past the last `/` in `p` (0 when there is none). */
  function SegmentStart(p: string): (k: nat)
    ensures k <= |p|
    ensures '/' !in p[k..]
    ensures k > 0 ==> p[k - 1] == '/'
  {
    if p == [] then 0
    else if p[|p| - 1] == '/' then |p|
    else
      var k := SegmentStart(p[..|p| - 1]);
      assert p[k..] == p[..|p| - 1][k..] + [p[|p| - 1]];
      k
  }

  /** The last path segment starts at exactly one place: after the one `/` that has none after it. */
  lemma SegmentStartUnique(p: string, k: nat)
    requires k <= |p| && '/' !in p[k..]
    requires k > 0 ==> p[k - 1] == '/'
    ensures SegmentStart(p) == k
  {
  }

  /** `os.path.basename(p)`: the text after the last `/` (empty if `p` ends with `/`). */
  function Basename(p: string): string
  {
    p[SegmentStart(p)..]
  }

  /**
   * `os.path.join(a, b)` for two components: `b` alone when it is absolute,
   * `a + b` when `a` is empty or already ends with `/`, and `a + "/" + b` otherwise.
   */
  function Join(a: string, b: string): string
  {
    if |b| > 0 && b[0] == '/' then b
    else if a == [] || a[|a| - 1] == '/' then a + b
    else a + "/" + b
  }

  /** The session directory `os.path.join(target, "AndroidBackup_" + timestamp)`; the timestamp is opaque. */
  function BackupRoot(target: string, timestamp: string): string
  {
    Join(target, "AndroidBackup_" + timestamp)
  }

  /** The log file `backup_log.txt` at the session root. */
  function LogFilePath(root: string): string
  {
    Join(root, "backup_log.txt")
  }

  /** Where a remote folder is copied: `os.path.join(root, os.path.basename(remote))`. */
  function LocalFolder(root: string, remote: string): string
  {
    Join(root, Basename(remote))
  }

  /** Where the privileged cookie file is copied: `os.path.join(root, "Cookies")`. */
  function CookiesPath(root: string): string
  {
    Join(root, "Cookies")
  }

  /**
   * `Join` with a `/`-free component places it under `a`: the result extends
   * `a`, and its `basename` gives the component back (an empty component
   * leaves a path ending in `/`, whose `basename` is empty).
   */
  lemma JoinRelative(a: string, b: string)
    requires '/' !in b
    ensures a <= Join(a, b)
    ensures Basename(Join(a, b)) == b
  {
    var prefix := if a == [] || a[|a| - 1] == '/' then a else a + "/";
    assert Join(a, b) == prefix + b;
    assert prefix == [] || prefix[|prefix| - 1] == '/';
    BasenameAfterSlash(prefix, b);
  }

  /**
   * The local folder is a child of the session root whose last segment is
   * the remote folder's last segment: taking `basename` of the local path
   * gives back the name the remote path was reduced to.
   */
  lemma LocalFolderBasename(root: string, remote: string)
    ensures root <= LocalFolder(root, remote)
    ensures Basename(LocalFolder(root, remote)) == Basename(remote)
  {
    JoinRelative(root, Basename(remote));
  }

  /** A `/`-free name placed after a directory prefix ending in `/` is that path's basename. */
  lemma BasenameAfterSlash(prefix: string, name: string)
    requires prefix == [] || prefix[|prefix| - 1] == '/'
    requires '/' !in name
    ensures Basename(prefix + name) == name
  {
    var p := prefix + name;
    assert p[|prefix|..] == name;
    SegmentStartUnique(p, |prefix|);
  }

  /** The folders the Windows script and the fail-fast Linux copy pull, in order. */
  const FOLDERS: seq<string> := ["/sdcard/DCIM", "/sdcard/Download", "/sdcard/Documents", "/sdcard/WhatsApp"]

  /** The folders the first Linux copy pulls, in order: the four above and the apps' data tree. */
  const FOLDERS_WITH_APP_DATA: seq<string> := FOLDERS + ["/sdcard/Android/data"]

  /** The rooted-only cookie database of the Chrome browser. */
  const COOKIE_REMOTE_PATH: string := "/data/data/com.android.chrome/app_chrome/Default/Cookies"

  /** The local directory names of the fixed folders, in list order. */
  const FOLDER_NAMES: seq<string> := ["DCIM", "Download", "Documents", "WhatsApp", "data"]

  /** The fixed folders go to the local directories DCIM, Download, Documents, WhatsApp and data, in list order. */
  lemma FolderNames()
    ensures forall i | 0 <= i < |FOLDERS_WITH_APP_DATA| :: Basename(FOLDERS_WITH_APP_DATA[i]) == FOLDER_NAMES[i]
  {
    forall i | 0 <= i < |FOLDERS_WITH_APP_DATA| ensures Basename(FOLDERS_WITH_APP_DATA[i]) == FOLDER_NAMES[i] {
      if i < 4 {
        FolderName(i, "/sdcard/");
      } else {
        FolderName(i, "/sdcard/Android/");
      }
    }
  }

  /** No two fixed folders share a local directory, so no folder's copy lands inside another's. */
  lemma FolderNamesDistinct()
    ensures |FOLDER_NAMES| == |FOLDERS_WITH_APP_DATA|
    ensures forall i, j | 0 <= i < j < |FOLDER_NAMES| :: FOLDER_NAMES[i] != FOLDER_NAMES[j]
  {
    forall i, j | 0 <= i < j < |FOLDER_NAMES| ensures FOLDER_NAMES[i] != FOLDER_NAMES[j] {
      assert FOLDER_NAMES[i][0] != FOLDER_NAMES[j][0] || |FOLDER_NAMES[i]| != |FOLDER_NAMES[j]|;
    }
  }

  /** Under any session root, no two fixed folders are copied into the same local directory. */
  lemma LocalFoldersDistinct(root: string)
    ensures forall i, j | 0 <= i < j < |FOLDERS_WITH_APP_DATA| ::
              LocalFolder(root, FOLDERS_WITH_APP_DATA[i]) != LocalFolder(root, FOLDERS_WITH_APP_DATA[j])
  {
    FolderNames();
    FolderNamesDistinct();
    forall i, j | 0 <= i < j < |FOLDERS_WITH_APP_DATA|
      ensures LocalFolder(root, FOLDERS_WITH_APP_DATA[i]) != LocalFolder(root, FOLDERS_WITH_APP_DATA[j])
    {
      LocalFolderBasename(root, FOLDERS_WITH_APP_DATA[i]);
      LocalFolderBasename(root, FOLDERS_WITH_APP_DATA[j]);
    }
  }

  /** The basename of fixed folder `i`, which is `dir` followed by its local name. */
  lemma FolderName(i: nat, dir: string)
    requires i < |FOLDERS_WITH_APP_DATA|
    requires dir == [] || dir[|dir| - 1] == '/'
    requires FOLDERS_WITH_APP_DATA[i] == dir + FOLDER_NAMES[i]
    ensures Basename(FOLDERS_WITH_APP_DATA[i]) == FOLDER_NAMES[i]
  {
    BasenameAfterSlash(dir, FOLDER_NAMES[i]);
  }
}
