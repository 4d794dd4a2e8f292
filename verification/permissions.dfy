/**
 The runtime permissions the activity needs before it touches the adapter.

 From API level 31 (Android 12, `Build.VERSION_CODES.S`) on, Bluetooth
 needs BLUETOOTH_CONNECT and BLUETOOTH_SCAN; below it, discovery needs
 ACCESS_FINE_LOCATION. The check and the request build the same array.
 */
module Permissions {

  datatype Permission = BluetoothConnect | BluetoothScan | AccessFineLocation

  /** `Build.VERSION_CODES.S`. */
  const SdkS: int := 31

  /** The permission array built in both `hasPermissions` and `requestPermissions`. */
  function RequiredPermissions(sdkInt: int): (r: seq<Permission>)
    ensures sdkInt >= SdkS ==> r == [BluetoothConnect, BluetoothScan]
    ensures sdkInt < SdkS ==> r == [AccessFineLocation]
  {
    if sdkInt >= SdkS then [BluetoothConnect, BluetoothScan] else [AccessFineLocation]
  }

  /** `permissions.all { granted }`: true when no element of the array is missing from `granted`. */
  function AllGranted(permissions: seq<Permission>, granted: set<Permission>): (r: bool)
    ensures r <==> forall i :: 0 <= i < |permissions| ==> permissions[i] in granted
  {
    if permissions == [] then true
    else permissions[0] in granted && AllGranted(permissions[1..], granted)
  }

  /** `hasPermissions()`, with the platform's grant table passed in as `granted`. */
  function HasPermissions(sdkInt: int, granted: set<Permission>): (r: bool)
    ensures r <==> forall p :: p in RequiredPermissions(sdkInt) ==> p in granted
  {
    AllGranted(RequiredPermissions(sdkInt), granted)
  }

  /** A call to `ActivityCompat.requestPermissions`: the array asked for and the request code. */
  datatype PermissionRequest = PermissionRequest(permissions: seq<Permission>, requestCode: int)

  /** `PERMISSION_REQUEST_CODE`. */
  const PermissionRequestCode: int := 100

  /** `requestPermissions()`: asks for the same array `hasPermissions` checks. */
  function RequestPermissions(sdkInt: int): (r: PermissionRequest)
    ensures r.requestCode == PermissionRequestCode
    ensures r.permissions == RequiredPermissions(sdkInt)
  {
    PermissionRequest(RequiredPermissions(sdkInt), PermissionRequestCode)
  }

  /** Which set the check needs, spelled out per API level, in both directions. */
  lemma HasPermissionsBySdk(sdkInt: int, granted: set<Permission>)
    ensures sdkInt >= SdkS ==>
      (HasPermissions(sdkInt, granted) <==> BluetoothConnect in granted && BluetoothScan in granted)
    ensures sdkInt < SdkS ==>
      (HasPermissions(sdkInt, granted) <==> AccessFineLocation in granted)
  {
  }

  /** Granting everything that `requestPermissions` asks for makes `hasPermissions` hold. */
  lemma {:induction false} GrantingRequestSuffices(sdkInt: int, granted: set<Permission>)
    requires forall i :: 0 <= i < |RequestPermissions(sdkInt).permissions| ==>
      RequestPermissions(sdkInt).permissions[i] in granted
    ensures HasPermissions(sdkInt, granted)
  {
    var req := RequestPermissions(sdkInt).permissions;
    forall p | p in RequiredPermissions(sdkInt) ensures p in granted {
      var i :| 0 <= i < |req| && req[i] == p;
    }
  }

  /** More grants never revoke access. */
  lemma HasPermissionsMonotone(sdkInt: int, granted: set<Permission>, more: set<Permission>)
    requires granted <= more
    requires HasPermissions(sdkInt, granted)
    ensures HasPermissions(sdkInt, more)
  {
  }
}
