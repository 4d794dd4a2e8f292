/**
 The device-list bookkeeping of the main activity, without its views.

 The activity owns three append-only lists of labels: connected devices
 (filled by the headset profile proxy's `onServiceConnected` callback),
 paired devices (filled once from the adapter's bonded set) and available
 devices (filled by the discovery broadcast receiver, which skips labels
 it already holds). Startup fills nothing unless an adapter exists and the
 required permissions are granted.
 */
module Activity {
  import opened Labels
  import opened Permissions
  import opened Discovery

  /** The labels appended, in order, for a run of connected or bonded devices. */
  function PlainLabels(devices: seq<Device>): (r: seq<string>)
    ensures |r| == |devices|
    decreases |devices|
  {
    if devices == [] then []
    else PlainLabels(devices[..|devices| - 1]) + [PlainLabel(devices[|devices| - 1])]
  }

  /** One label per device, the i-th label being the i-th device's. */
  lemma {:induction false} PlainLabelsAt(devices: seq<Device>, i: int)
    requires 0 <= i < |devices|
    ensures |PlainLabels(devices)| == |devices|
    ensures PlainLabels(devices)[i] == PlainLabel(devices[i])
    decreases |devices|
  {
    var front := devices[..|devices| - 1];
    if i < |devices| - 1 {
      PlainLabelsAt(front, i);
    }
  }

  /** No duplicate check: a device listed twice yields its label twice. */
  lemma RepeatedDeviceListedTwice(d: Device)
    ensures PlainLabels([d, d]) == [PlainLabel(d), PlainLabel(d)]
  {
    assert [d, d][..1] == [d];
    assert [d][..0] == [];
    assert PlainLabels([d]) == PlainLabels([]) + [PlainLabel(d)];
    assert PlainLabels([d, d]) == PlainLabels([d]) + [PlainLabel(d)];
  }

  /** How `onCreate` ends. */
  datatype Startup =
    | NotSupported                                  // no adapter: toast and `finish()` (see README)
    | PermissionsRequested(request: PermissionRequest)
    | SetUp                                         // `setupBluetooth()` ran

  /** The branch `onCreate` takes, given whether an adapter exists, the API level and the granted permissions. */
  function StartupDecision(adapterPresent: bool, sdkInt: int, granted: set<Permission>): (r: Startup)
    ensures r.NotSupported? <==> !adapterPresent
    ensures r.SetUp? <==> adapterPresent && forall p :: p in RequiredPermissions(sdkInt) ==> p in granted
    ensures r.PermissionsRequested? <==>
      adapterPresent && exists p :: p in RequiredPermissions(sdkInt) && p !in granted
    ensures r.PermissionsRequested? ==>
      r.request.permissions == RequiredPermissions(sdkInt) && r.request.requestCode == PermissionRequestCode
  {
    if !adapterPresent then NotSupported
    else if !HasPermissions(sdkInt, granted) then PermissionsRequested(RequestPermissions(sdkInt))
    else SetUp
  }

  /** The activity's bookkeeping state. */
  class MainActivity {
    var connectedDevices: seq<string>
    var pairedDevices: seq<string>
    var availableDevices: seq<string>
    /** `getProfileProxy` was called, so `onServiceConnected` may follow. */
    var proxyRequested: bool
    /** The discovery receiver was registered and discovery started. */
    var receiverRegistered: bool

    /**
     The receiver's check-then-add keeps the available list duplicate-free,
     and a list whose callback was never set up is still empty.
     */
    ghost predicate Valid()
      reads this
    {
      && NoDuplicates(availableDevices)
      && (!receiverRegistered ==> availableDevices == [])
      && (!proxyRequested ==> connectedDevices == [])
    }

    constructor ()
      ensures Valid()
      ensures connectedDevices == [] && pairedDevices == [] && availableDevices == []
      ensures !proxyRequested && !receiverRegistered
    {
      connectedDevices := [];
      pairedDevices := [];
      availableDevices := [];
      proxyRequested := false;
      receiverRegistered := false;
    }

    /** The body of `onServiceConnected`: one label per connected device, appended in order, no dedup. */
    method OnServiceConnected(devices: seq<Device>)
      requires Valid()
      requires proxyRequested  // the platform calls back only after `getProfileProxy`
      modifies this
      ensures Valid()
      ensures connectedDevices == old(connectedDevices) + PlainLabels(devices)
      ensures pairedDevices == old(pairedDevices) && availableDevices == old(availableDevices)
      ensures proxyRequested == old(proxyRequested) && receiverRegistered == old(receiverRegistered)
    {
      for i := 0 to |devices|
        invariant connectedDevices == old(connectedDevices) + PlainLabels(devices[..i])
        invariant pairedDevices == old(pairedDevices) && availableDevices == old(availableDevices)
        invariant proxyRequested == old(proxyRequested) && receiverRegistered == old(receiverRegistered)
      {
        assert devices[..i + 1][..i] == devices[..i];
        connectedDevices := connectedDevices + [PlainLabel(devices[i])];
      }
      assert devices[..|devices|] == devices;
    }

    /** `fetchPairedDevices`: one label per bonded device, appended in iteration order, no dedup. */
    method FetchPairedDevices(bonded: seq<Device>)
      requires Valid()
      modifies this
      ensures Valid()
      ensures pairedDevices == old(pairedDevices) + PlainLabels(bonded)
      ensures connectedDevices == old(connectedDevices) && availableDevices == old(availableDevices)
      ensures proxyRequested == old(proxyRequested) && receiverRegistered == old(receiverRegistered)
    {
      for i := 0 to |bonded|
        invariant pairedDevices == old(pairedDevices) + PlainLabels(bonded[..i])
        invariant connectedDevices == old(connectedDevices) && availableDevices == old(availableDevices)
        invariant proxyRequested == old(proxyRequested) && receiverRegistered == old(receiverRegistered)
      {
        assert bonded[..i + 1][..i] == bonded[..i];
        pairedDevices := pairedDevices + [PlainLabel(bonded[i])];
      }
      assert bonded[..|bonded|] == bonded;
    }

    /**
     The discovery receiver's `onReceive`. Returns whether the list changed
     (the case in which the source notifies the list's adapter).
     */
    method OnReceive(intent: Broadcast) returns (changed: bool)
      requires Valid()
      requires receiverRegistered  // the platform delivers broadcasts only to a registered receiver
      modifies this
      ensures Valid()
      ensures availableDevices == Discover(old(availableDevices), intent)
      ensures changed <==> FoundLabel(intent).Some? && FoundLabel(intent).value !in old(availableDevices)
      ensures changed ==> availableDevices == old(availableDevices) + [FoundLabel(intent).value]
      ensures !changed ==> availableDevices == old(availableDevices)
      ensures connectedDevices == old(connectedDevices) && pairedDevices == old(pairedDevices)
      ensures proxyRequested == old(proxyRequested) && receiverRegistered == old(receiverRegistered)
    {
      changed := false;
      if intent.Some? && intent.value.action == Some(ActionFound) {
        var device := intent.value.extraDevice;
        if device.Some? {
          var deviceInfo := DiscoveredLabel(device.value);
          if deviceInfo !in availableDevices {
            availableDevices := availableDevices + [deviceInfo];
            changed := true;
          }
        }
      }
      DiscoverPreserves(old(availableDevices), intent);
    }

    /** `setupBluetooth`: ask for the headset proxy, list the bonded devices, start discovery. */
    method SetupBluetooth(bonded: seq<Device>)
      requires Valid()
      modifies this
      ensures Valid()
      ensures proxyRequested && receiverRegistered
      ensures pairedDevices == old(pairedDevices) + PlainLabels(bonded)
      ensures connectedDevices == old(connectedDevices) && availableDevices == old(availableDevices)
    {
      proxyRequested := true;
      FetchPairedDevices(bonded);
      receiverRegistered := true;
    }

    /**
     The gate in `onCreate`: stop when there is no adapter, request the
     permissions when they are not all granted, and only otherwise set up.
     Nothing but setup touches the lists.
     */
    method OnCreate(adapterPresent: bool, sdkInt: int, granted: set<Permission>, bonded: seq<Device>)
      returns (outcome: Startup)
      requires Valid()
      modifies this
      ensures Valid()
      ensures outcome == StartupDecision(adapterPresent, sdkInt, granted)
      ensures outcome.SetUp? ==> proxyRequested && receiverRegistered
      ensures outcome.SetUp? ==> pairedDevices == old(pairedDevices) + PlainLabels(bonded)
      ensures outcome.SetUp? ==>
        connectedDevices == old(connectedDevices) && availableDevices == old(availableDevices)
      ensures !outcome.SetUp? ==> unchanged(this)
    {
      if !adapterPresent {
        return NotSupported;
      }
      if !HasPermissions(sdkInt, granted) {
        outcome := PermissionsRequested(RequestPermissions(sdkInt));
      } else {
        SetupBluetooth(bonded);
        outcome := SetUp;
      }
    }
  }

  /**
   A freshly created activity whose startup is refused keeps all three lists
   empty and never asks for the proxy or registers the receiver, so no
   callback can fill them later.
   */
  method Launch(adapterPresent: bool, sdkInt: int, granted: set<Permission>, bonded: seq<Device>)
    returns (outcome: Startup, connected: seq<string>, paired: seq<string>, available: seq<string>, listening: bool)
    ensures outcome == StartupDecision(adapterPresent, sdkInt, granted)
    ensures listening <==> outcome.SetUp?
    ensures !outcome.SetUp? ==> connected == [] && paired == [] && available == []
    ensures outcome.SetUp? ==> connected == [] && paired == PlainLabels(bonded) && available == []
  {
    var activity := new MainActivity();
    outcome := activity.OnCreate(adapterPresent, sdkInt, granted, bonded);
    connected, paired, available := activity.connectedDevices, activity.pairedDevices, activity.availableDevices;
    listening := activity.receiverRegistered && activity.proxyRequested;
  }
}
