/**
 * Callback data and device lookup for the device buttons
 * (modules/user/control_subscription/keyboards.py builds the data,
 * modules/user/control_subscription/handlers.py reads it back).
 *
 * A device button carries `remove_device:<uuid>:<first 8 characters of the
 * hwid>`; the handler splits the text at every ':' as Python's `str.split`
 * does and looks for the first live device whose hwid starts with the short
 * hwid.
 */
module Callbacks {
  import opened Wrappers

  /** A device as the remote directory lists it; only the hardware id matters to the core. */
  datatype Device = Device(hwid: string)

  const Separator: char := ':'
  const ShortHwidLength: nat := 8

  /** `s.split(":")`: the texts between separators, one more than there are separators. */
  function Split(s: string): (parts: seq<string>)
    ensures |parts| >= 1
    ensures forall i :: 0 <= i < |parts| ==> Separator !in parts[i]
  {
    if s == [] then [[]]
    else
      var rest := Split(s[1..]);
      if s[0] == Separator then [[]] + rest
      else [[s[0]] + rest[0]] + rest[1..]
  }

  /** `":".join(parts)`. */
  function Join(parts: seq<string>): string
    requires |parts| >= 1
  {
    if |parts| == 1 then parts[0] else parts[0] + [Separator] + Join(parts[1..])
  }

  /** Joining the pieces of a split gives the text back. */
  lemma {:induction false} JoinSplit(s: string)
    ensures Join(Split(s)) == s
  {
    if s != [] {
      JoinSplit(s[1..]);
      var rest := Split(s[1..]);
      if s[0] != Separator && |rest| > 1 {
        assert Join(rest) == rest[0] + [Separator] + Join(rest[1..]);
        assert Join(Split(s)) == [s[0]] + rest[0] + [Separator] + Join(rest[1..]);
      }
    }
  }

  /** Text without separators glues onto the first piece of a split. */
  lemma {:induction false} SplitAfterPlainText(a: string, s: string)
    requires Separator !in a
    ensures Split(a + s) == [a + Split(s)[0]] + Split(s)[1..]
  {
    if a == [] {
      var r := Split(s);
      assert a + s == s && a + r[0] == r[0];
      assert r == [r[0]] + r[1..];
    } else {
      assert a[0] in a;
      SplitAfterPlainText(a[1..], s);
      assert (a + s)[0] == a[0] && (a + s)[1..] == a[1..] + s;
      var rest := Split(a[1..] + s);
      assert rest[0] == a[1..] + Split(s)[0] && rest[1..] == Split(s)[1..];
      assert [a[0]] + (a[1..] + Split(s)[0]) == a + Split(s)[0];
    }
  }

  /** Splitting pieces joined with separators, none containing one, gives the pieces back. */
  lemma {:induction false} SplitJoin(parts: seq<string>)
    requires |parts| >= 1
    requires forall i :: 0 <= i < |parts| ==> Separator !in parts[i]
    ensures Split(Join(parts)) == parts
  {
    if |parts| == 1 {
      SplitAfterPlainText(parts[0], []);
      assert parts[0] + [] == parts[0];
    } else {
      var tail := Join(parts[1..]);
      SplitJoin(parts[1..]);
      SplitAfterPlainText(parts[0], [Separator] + tail);
      assert ([Separator] + tail)[1..] == tail;
      assert parts[0] + [Separator] + tail == parts[0] + ([Separator] + tail);
      assert parts[0] + [] == parts[0];
    }
  }

  /** `hwid[:8]`. */
  function ShortHwid(hwid: string): (r: string)
    ensures r <= hwid
    ensures |r| == if |hwid| < ShortHwidLength then |hwid| else ShortHwidLength
  {
    if |hwid| < ShortHwidLength then hwid else hwid[..ShortHwidLength]
  }

  /** The action name a remove button's data starts with (keyboards.py). */
  const RemoveDeviceAction: string := "remove_device"

  /**
   * The callback data of a device's remove button (keyboards.py). It starts
   * with `remove_device:`, the prefix the router dispatches on.
   */
  function RemoveDeviceCallback(uuid: string, hwid: string): (r: string)
    ensures RemoveDeviceAction + [Separator] <= r
  {
    Join([RemoveDeviceAction, uuid, ShortHwid(hwid)])
  }

  /**
   * `next((d for d in devices if d['hwid'].startswith(prefix)), None)`, as an
   * index: the first device whose hwid starts with `prefix`, if any.
   */
  function FirstMatch(devices: seq<Device>, prefix: string): (r: Option<nat>)
    ensures r.None? <==> forall i :: 0 <= i < |devices| ==> !(prefix <= devices[i].hwid)
    ensures r.Some? ==>
      && r.value < |devices|
      && prefix <= devices[r.value].hwid
      && forall i :: 0 <= i < r.value ==> !(prefix <= devices[i].hwid)
  {
    if devices == [] then None
    else if prefix <= devices[0].hwid then Some(0)
    else
      match FirstMatch(devices[1..], prefix)
      case None => None
      case Some(i) => Some(i + 1)
  }

  /**
   * The data of a remove button splits into exactly three parts naming the
   * subscription and the short hwid, provided neither holds a separator.
   */
  lemma RemoveCallbackParses(uuid: string, hwid: string)
    requires Separator !in uuid && Separator !in ShortHwid(hwid)
    ensures Split(RemoveDeviceCallback(uuid, hwid)) == [RemoveDeviceAction, uuid, ShortHwid(hwid)]
  {
    var parts := [RemoveDeviceAction, uuid, ShortHwid(hwid)];
    assert Separator !in RemoveDeviceAction;
    assert forall i :: 0 <= i < |parts| ==> Separator !in parts[i] by {
      assert parts[0] == RemoveDeviceAction && parts[1] == uuid && parts[2] == ShortHwid(hwid);
    }
    SplitJoin(parts);
  }

  /** The number of separators in a text. */
  function SeparatorCount(s: string): nat {
    if s == [] then 0 else (if s[0] == Separator then 1 else 0) + SeparatorCount(s[1..])
  }

  /** A split has one more part than the text has separators. */
  lemma {:induction false} SplitLength(s: string)
    ensures |Split(s)| == SeparatorCount(s) + 1
  {
    if s != [] {
      SplitLength(s[1..]);
    }
  }

  lemma {:induction false} SeparatorCountAppend(a: string, b: string)
    ensures SeparatorCount(a + b) == SeparatorCount(a) + SeparatorCount(b)
  {
    if a == [] {
      assert a + b == b;
    } else {
      assert (a + b)[0] == a[0] && (a + b)[1..] == a[1..] + b;
      SeparatorCountAppend(a[1..], b);
    }
  }

  lemma {:induction false} SeparatorCountPositive(s: string)
    ensures Separator in s <==> SeparatorCount(s) > 0
  {
    if s != [] {
      SeparatorCountPositive(s[1..]);
      assert s == [s[0]] + s[1..];
    }
  }

  /** Three texts joined by two separators hold the separators of each, and two more. */
  lemma SeparatorCountJoin3(a: string, b: string, c: string)
    ensures SeparatorCount(Join([a, b, c])) == SeparatorCount(a) + SeparatorCount(b) + SeparatorCount(c) + 2
  {
    var tail := b + [Separator] + c;
    assert Join([a, b, c]) == a + [Separator] + Join([b, c]);
    assert Join([b, c]) == tail;
    SeparatorCountAppend(a + [Separator], tail);
    SeparatorCountAppend(a, [Separator]);
    SeparatorCountAppend(b + [Separator], c);
    SeparatorCountAppend(b, [Separator]);
  }

  /** Three texts joined by separators, the first without one, split into three parts exactly when the others have none. */
  lemma Join3PartCount(a: string, b: string, c: string)
    requires Separator !in a
    ensures |Split(Join([a, b, c]))| >= 3
    ensures |Split(Join([a, b, c]))| == 3 <==> Separator !in b && Separator !in c
  {
    SplitLength(Join([a, b, c]));
    SeparatorCountJoin3(a, b, c);
    SeparatorCountPositive(a);
    SeparatorCountPositive(b);
    SeparatorCountPositive(c);
  }

  /**
   * A remove button's data splits into three parts exactly when neither the
   * uuid nor the short hwid holds a separator; otherwise it splits into more.
   */
  lemma RemoveCallbackPartCount(uuid: string, hwid: string)
    ensures |Split(RemoveDeviceCallback(uuid, hwid))| >= 3
    ensures |Split(RemoveDeviceCallback(uuid, hwid))| == 3 <==> Separator !in uuid && Separator !in ShortHwid(hwid)
  {
    assert Separator !in RemoveDeviceAction;
    Join3PartCount(RemoveDeviceAction, uuid, ShortHwid(hwid));
  }

  /** The short hwid of a listed device finds that device or an earlier one with the same prefix. */
  lemma ShortHwidFindsDevice(devices: seq<Device>, k: nat)
    requires k < |devices|
    ensures FirstMatch(devices, ShortHwid(devices[k].hwid)).Some?
    ensures FirstMatch(devices, ShortHwid(devices[k].hwid)).value <= k
  {
    var short := ShortHwid(devices[k].hwid);
    assert short <= devices[k].hwid;
  }
}
