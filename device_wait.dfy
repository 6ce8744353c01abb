/**
 * The wait for a device: `while not android_devices` re-runs the device
 * listing until it is non-empty and then takes its first serial. The
 * script sleeps three seconds between polls and never gives up; here the
 * successive answers of the tool are a finite sequence, and running out of
 * them means the script would still be waiting.
 */
module DeviceWait {
  import opened Common
  import opened AdbDevices

  /** Index of the first poll that lists at least one device (`|polls|` if none does). */
  function FirstNonEmptyPoll(polls: seq<Enumeration>): (k: nat)
    ensures k <= |polls|
    ensures forall j | 0 <= j < k :: ListAndroidDevices(polls[j]) == []
    ensures k < |polls| ==> ListAndroidDevices(polls[k]) != []
  {
    if polls == [] then 0
    else if ListAndroidDevices(polls[0]) != [] then 0
    else 1 + FirstNonEmptyPoll(polls[1..])
  }

  /** The serial the wait settles on: the first one listed by the first non-empty poll. */
  function Chosen(polls: seq<Enumeration>): Option<string>
  {
    var k := FirstNonEmptyPoll(polls);
    if k < |polls| then Some(ListAndroidDevices(polls[k])[0]) else None
  }

  /**
   * The polling loop. It stops only on a non-empty listing, after exactly
   * the polls up to and including that one, and returns that listing's first
   * serial; every earlier poll listed nothing. `None` means every poll
   * given came back empty, so the script is still waiting.
   */
  method WaitForDevice(polls: seq<Enumeration>) returns (device: Option<string>, polled: nat)
    ensures device == Chosen(polls)
    ensures polled <= |polls|
    ensures forall j | 0 <= j < polled - 1 :: ListAndroidDevices(polls[j]) == []
    ensures device.Some? ==> 0 < polled && ListAndroidDevices(polls[polled - 1]) != []
                             && device.value == ListAndroidDevices(polls[polled - 1])[0]
    ensures device.None? ==> polled == |polls| && forall j | 0 <= j < |polls| :: ListAndroidDevices(polls[j]) == []
  {
    var androidDevices: seq<string> := [];
    polled := 0;
    while androidDevices == [] && polled < |polls|
      invariant polled <= |polls|
      invariant forall j | 0 <= j < polled - 1 :: ListAndroidDevices(polls[j]) == []
      invariant androidDevices == [] ==> forall j | 0 <= j < polled :: ListAndroidDevices(polls[j]) == []
      invariant androidDevices != [] ==> 0 < polled && androidDevices == ListAndroidDevices(polls[polled - 1])
      decreases |polls| - polled
    {
      androidDevices := ListAndroidDevices(polls[polled]);
      polled := polled + 1;
    }
    var k := FirstNonEmptyPoll(polls);
    if androidDevices != [] {
      assert k == polled - 1 by {
        assert !(k < polled - 1);
        assert !(k > polled - 1);
      }
      device := Some(androidDevices[0]);
    } else {
      assert k == |polls|;
      device := None;
    }
  }
}
