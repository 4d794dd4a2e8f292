/**
 What the discovery broadcast receiver does to the list of available
 devices, as functions on values.

 The handler reacts only to an `ACTION_FOUND` intent that carries a device;
 it builds the discovered label and appends it unless that exact string is
 already in the list. Identity is the whole label, never the address.
 */
module Discovery {
  import opened Labels

  /** `BluetoothDevice.ACTION_FOUND`. */
  const ActionFound: string := "android.bluetooth.device.action.FOUND"

  /** A broadcast intent: its action (may be null) and its `EXTRA_DEVICE` parcelable (may be null). */
  datatype Intent = Intent(action: Option<string>, extraDevice: Option<Device>)

  /** A delivered broadcast; the intent argument of `onReceive` is itself nullable. */
  type Broadcast = Option<Intent>

  /** The label a broadcast proposes for the list, or None when the handler ignores it. */
  function FoundLabel(b: Broadcast): (r: Option<string>)
    ensures r.Some? <==> b.Some? && b.value.action == Some(ActionFound) && b.value.extraDevice.Some?
    ensures r.Some? ==> r.value == DiscoveredLabel(b.value.extraDevice.value)
  {
    match b
    case None => None
    case Some(intent) =>
      if intent.action == Some(ActionFound) then
        match intent.extraDevice
        case None => None
        case Some(device) => Some(DiscoveredLabel(device))
      else None
  }

  /** The list after one broadcast: check-then-add on the full label. */
  function Discover(available: seq<string>, b: Broadcast): (r: seq<string>)
    ensures r == available || (FoundLabel(b).Some? && r == available + [FoundLabel(b).value])
    ensures r != available <==> FoundLabel(b).Some? && FoundLabel(b).value !in available
    ensures FoundLabel(b).Some? ==> FoundLabel(b).value in r
  {
    match FoundLabel(b)
    case None => available
    case Some(entry) => if entry in available then available else available + [entry]
  }

  /** The list after a run of broadcasts delivered in order. */
  function DiscoverAll(available: seq<string>, bs: seq<Broadcast>): (r: seq<string>)
    ensures available <= r
    ensures |r| <= |available| + |bs|
    decreases |bs|
  {
    if bs == [] then available
    else DiscoverAll(Discover(available, bs[0]), bs[1..])
  }

  /** No label appears twice. */
  predicate NoDuplicates(s: seq<string>)
  {
    forall i, j :: 0 <= i < j < |s| ==> s[i] != s[j]
  }

  /** A broadcast that is not `ACTION_FOUND`, has no intent, or carries no device leaves the list as it was. */
  lemma IgnoredBroadcast(available: seq<string>, b: Broadcast)
    requires b.None? || b.value.action != Some(ActionFound) || b.value.extraDevice.None?
    ensures Discover(available, b) == available
  {
  }

  /** One broadcast keeps the list free of duplicates, keeps it as a prefix, and leaves its label in the list. */
  lemma DiscoverPreserves(available: seq<string>, b: Broadcast)
    requires NoDuplicates(available)
    ensures NoDuplicates(Discover(available, b))
    ensures available <= Discover(available, b)
    ensures |Discover(available, b)| <= |available| + 1
    ensures FoundLabel(b).Some? ==> FoundLabel(b).value in Discover(available, b)
  {
  }

  /** Delivering the same broadcast twice has the effect of delivering it once. */
  lemma DiscoverIdempotent(available: seq<string>, b: Broadcast)
    ensures Discover(Discover(available, b), b) == Discover(available, b)
  {
  }

  /** Any run of broadcasts keeps a duplicate-free list duplicate-free and never disturbs earlier entries. */
  lemma {:induction false} DiscoverAllPreserves(available: seq<string>, bs: seq<Broadcast>)
    requires NoDuplicates(available)
    ensures NoDuplicates(DiscoverAll(available, bs))
    ensures available <= DiscoverAll(available, bs)
    decreases |bs|
  {
    if bs != [] {
      DiscoverPreserves(available, bs[0]);
      DiscoverAllPreserves(Discover(available, bs[0]), bs[1..]);
    }
  }

  /** Starting from the empty list, as the activity does, the available list never holds a label twice. */
  lemma DiscoverAllFromEmptyNoDuplicates(bs: seq<Broadcast>)
    ensures NoDuplicates(DiscoverAll([], bs))
  {
    DiscoverAllPreserves([], bs);
  }

  /**
   After a run of broadcasts the list holds exactly the earlier entries and
   the labels of the broadcasts that were not ignored.
   */
  lemma {:induction false} DiscoverAllContents(available: seq<string>, bs: seq<Broadcast>, x: string)
    ensures x in DiscoverAll(available, bs) <==>
      x in available || exists k :: 0 <= k < |bs| && FoundLabel(bs[k]) == Some(x)
    decreases |bs|
  {
    if bs != [] {
      var next := Discover(available, bs[0]);
      DiscoverAllContents(next, bs[1..], x);
      assert x in next <==> x in available || FoundLabel(bs[0]) == Some(x);
      if exists k :: 0 <= k < |bs[1..]| && FoundLabel(bs[1..][k]) == Some(x) {
        var k :| 0 <= k < |bs[1..]| && FoundLabel(bs[1..][k]) == Some(x);
        assert FoundLabel(bs[k + 1]) == Some(x);
      }
      if exists k :: 0 <= k < |bs| && FoundLabel(bs[k]) == Some(x) {
        var k :| 0 <= k < |bs| && FoundLabel(bs[k]) == Some(x);
        if k > 0 {
          assert FoundLabel(bs[1..][k - 1]) == Some(x);
        }
      }
    }
  }

  /** The broadcast `ACTION_FOUND` with device `d`. */
  function FoundBroadcast(d: Device): (b: Broadcast)
    ensures FoundLabel(b) == Some(DiscoveredLabel(d))
  {
    Some(Intent(Some(ActionFound), Some(d)))
  }

  /**
   Two sightings of one address under different displayed names are two
   entries: both labels are appended, in order.
   */
  lemma SameAddressDifferentNamesBothKept(available: seq<string>, d1: Device, d2: Device)
    requires d1.address == d2.address
    requires DisplayName(d1) != DisplayName(d2)
    requires DiscoveredLabel(d1) !in available && DiscoveredLabel(d2) !in available
    ensures DiscoverAll(available, [FoundBroadcast(d1), FoundBroadcast(d2)]) ==
      available + [DiscoveredLabel(d1), DiscoveredLabel(d2)]
  {
    SameAddressLabelsEqualIff(d1, d2);
    var bs := [FoundBroadcast(d1), FoundBroadcast(d2)];
    var first := Discover(available, bs[0]);
    assert first == available + [DiscoveredLabel(d1)];
    assert bs[1..] == [FoundBroadcast(d2)];
    assert DiscoverAll(first, bs[1..]) == DiscoverAll(Discover(first, bs[1..][0]), []);
  }

  /** A second sighting with the same displayed name and address is dropped. */
  lemma SameLabelDroppedOnSecondSighting(available: seq<string>, d1: Device, d2: Device)
    requires d1.address == d2.address
    requires DisplayName(d1) == DisplayName(d2)
    ensures DiscoverAll(available, [FoundBroadcast(d1), FoundBroadcast(d2)]) ==
      Discover(available, FoundBroadcast(d1))
  {
    SameAddressLabelsEqualIff(d1, d2);
    var bs := [FoundBroadcast(d1), FoundBroadcast(d2)];
    var first := Discover(available, bs[0]);
    assert DiscoveredLabel(d1) in first;
    assert bs[1..] == [FoundBroadcast(d2)];
    assert DiscoverAll(first, bs[1..]) == DiscoverAll(Discover(first, bs[1..][0]), []);
  }
}
