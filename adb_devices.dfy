/**
 * Device discovery: the parser for the output of `adb devices` and the
 * connectivity check built on it. The scripts run the tool, decode its
 * output as text (line endings already translated to `\n` by Python's text
 * mode) and keep, from every line after the header, the serial before the
 * first tab of each line that mentions `device`.
 */
module AdbDevices {
  import opened Text

  /** What running `adb devices` gave: its decoded output, or an exception (tool missing, non-zero exit, undecodable bytes). */
  datatype Enumeration = Output(text: string) | Failed

  /** `output.strip().split('\n')`: the lines of the tool's output, header first. */
  function Lines(text: string): seq<string>
  {
    Split(Strip(text), '\n')
  }

  /** A line counts as a device when the substring `device` occurs anywhere in it. */
  predicate MentionsDevice(line: string)
  {
    Contains(line, "device")
  }

  /** `line.split('\t')[0]`: the serial number column of a line. */
  function Serial(line: string): string
  {
    FirstField(line, '\t')
  }

  /** `[line.split('\t')[0] for line in lines if 'device' in line]`. */
  function KeptSerials(lines: seq<string>): seq<string>
  {
    if lines == [] then []
    else (if MentionsDevice(lines[0]) then [Serial(lines[0])] else []) + KeptSerials(lines[1..])
  }

  /** `list_android_devices()`: the serials of the listed devices, or `[]` when running the tool failed. */
  function ListAndroidDevices(e: Enumeration): seq<string>
  {
    match e
    case Failed => []
    case Output(text) => KeptSerials(Lines(text)[1..])
  }

  /** A line of the output, after the header, that yields serial `d`. */
  predicate ListsSerial(text: string, i: int, d: string)
  {
    1 <= i < |Lines(text)| && MentionsDevice(Lines(text)[i]) && Serial(Lines(text)[i]) == d
  }

  /** `is_device_connected(d)`: membership in a fresh device listing. */
  predicate IsDeviceConnected(e: Enumeration, d: string)
  {
    d in ListAndroidDevices(e)
  }

  /**
   * A device is connected exactly when some line after the header mentions
   * `device` and has its serial before the first tab; a failed enumeration
   * reports every device as disconnected.
   */
  lemma ConnectedIff(e: Enumeration, d: string)
    ensures e.Failed? ==> !IsDeviceConnected(e, d)
    ensures e.Output? ==> (IsDeviceConnected(e, d) <==> exists i :: ListsSerial(e.text, i, d))
  {
    if e.Output? {
      ListedIff(e.text, d);
    }
  }

  /** A serial is kept exactly when some line mentioning `device` carries it. */
  lemma {:induction false} KeptSerialsMember(lines: seq<string>, d: string)
    ensures d in KeptSerials(lines) <==>
              exists j | 0 <= j < |lines| :: MentionsDevice(lines[j]) && Serial(lines[j]) == d
  {
    if lines != [] {
      KeptSerialsMember(lines[1..], d);
      if d in KeptSerials(lines[1..]) {
        var j :| 0 <= j < |lines[1..]| && MentionsDevice(lines[1..][j]) && Serial(lines[1..][j]) == d;
        assert lines[j + 1] == lines[1..][j];
      }
      forall j | 1 <= j < |lines| && MentionsDevice(lines[j]) && Serial(lines[j]) == d
        ensures d in KeptSerials(lines[1..])
      {
        assert lines[1..][j - 1] == lines[j];
      }
    }
  }

  /** Serials come out in line order: parsing two blocks of lines gives the first block's serials, then the second's. */
  lemma {:induction false} KeptSerialsAppend(a: seq<string>, b: seq<string>)
    ensures KeptSerials(a + b) == KeptSerials(a) + KeptSerials(b)
  {
    if a != [] {
      assert (a + b)[1..] == a[1..] + b;
      KeptSerialsAppend(a[1..], b);
    } else {
      assert a + b == b;
    }
  }

  /** The header is never parsed: output that is a single line (after stripping) lists no device. */
  lemma HeaderOnlyListsNothing(text: string)
    requires '\n' !in Strip(text)
    ensures ListAndroidDevices(Output(text)) == []
  {
    FindSpec(Strip(text), '\n');
    assert Lines(text) == [Strip(text)];
  }

  /**
   * The serials reported are exactly those of the lines after the header that
   * mention `device`; in particular no serial is ever taken from the header.
   */
  lemma ListedIff(text: string, d: string)
    ensures d in ListAndroidDevices(Output(text)) <==> exists i :: ListsSerial(text, i, d)
  {
    var lines := Lines(text);
    KeptSerialsMember(lines[1..], d);
    if d in ListAndroidDevices(Output(text)) {
      var j :| 0 <= j < |lines[1..]| && MentionsDevice(lines[1..][j]) && Serial(lines[1..][j]) == d;
      assert lines[1..][j] == lines[j + 1];
      assert ListsSerial(text, j + 1, d);
    }
    forall i | ListsSerial(text, i, d) ensures d in ListAndroidDevices(Output(text)) {
      assert lines[1..][i - 1] == lines[i];
    }
  }
}
