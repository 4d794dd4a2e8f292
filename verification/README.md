# Bluetooth device lists of `MainActivity`, modelled in Dafny

The app's single activity shows three lists of Bluetooth devices for the
phone's adapter: the devices currently connected through the headset
profile, the paired (bonded) devices, and the devices found by a discovery
scan. Each entry is a display label, the device name, a line break, then the
hardware address. This project models the bookkeeping behind those lists
without the Android views:

- `labels.dfy` (module `Labels`): the device record (nullable name, address)
  and the two label formats. The connected and paired lists use the string
  template `"${name}\n${address}"`, which renders a missing name as `null`.
  The discovery handler substitutes `Unknown` first.
- `permissions.dfy` (module `Permissions`): the permission array chosen by API
  level (31, Android 12, is the cut-over), the all-granted check, and the
  request that asks for the same array.
- `discovery.dfy` (module `Discovery`): what the broadcast receiver does to the
  available list, as functions on values, plus its properties. These are
  duplicate-freedom from the empty list, exact contents after a run of
  broadcasts, and identity by full label rather than by address.
- `activity.dfy` (module `Activity`): class `MainActivity` with the three lists as
  `seq<string>` fields. Its methods append in loops, as the `forEach` bodies
  do. `OnReceive` does the check-then-add. `OnCreate` holds the startup gate.

Platform inputs become parameters: whether an adapter exists, the API level,
the set of permissions the system reports as granted, the bonded devices
and the proxy's connected devices (each as a sequence in iteration order),
and each broadcast intent. The bonded devices are really a set, so in the
source they are distinct; the model accepts any sequence and does not rely
on that. The proxy's connected devices are a list.

A few facts about the code shape the model:

- Discovered devices are deduplicated on the whole label, so two sightings of
  one address under different names are two entries.
- Connected and paired devices are not deduplicated.
- Discovery is started once and never stopped, and the lists are never cleared.
- The activity does not override `onRequestPermissionsResult`, so setup does
  not run after a permission request.

## Model

| member | source | states |
|---|---|---|
| Labels.TemplateText | app/src/main/java/com/example/myapplication/MainActivity.kt:102 | a string template prints a present name as is and a null name as `null` |
| Labels.DisplayName | app/src/main/java/com/example/myapplication/MainActivity.kt:131 | the elvis fallback: a present name as is, `Unknown` for a null name |
| Labels.PlainLabel | app/src/main/java/com/example/myapplication/MainActivity.kt:114 | a paired/connected label is the templated name (`null` when absent), then `\n`, then the address |
| Labels.DiscoveredLabel | app/src/main/java/com/example/myapplication/MainActivity.kt:131 | a discovered label is the name or `Unknown`, then `\n`, then the address |
| Labels.PlainAndDiscoveredLabels | app/src/main/java/com/example/myapplication/MainActivity.kt:131 | the two formats agree for a named device; for a nameless one they differ (`null` vs `Unknown`) |
| Labels.SameAddressLabelsEqualIff | app/src/main/java/com/example/myapplication/MainActivity.kt:131-132 | at one address, two discovered labels are equal iff the displayed names are equal |
| Labels.UnknownFallbackCollides | app/src/main/java/com/example/myapplication/MainActivity.kt:131-132 | a nameless device and one named `Unknown` at the same address share a discovered label |
| Permissions.RequiredPermissions | app/src/main/java/com/example/myapplication/MainActivity.kt:73-77 | CONNECT and SCAN from API level 31 on, FINE_LOCATION below it |
| Permissions.AllGranted | app/src/main/java/com/example/myapplication/MainActivity.kt:78-80 | true iff every element of the array is granted |
| Permissions.HasPermissions | app/src/main/java/com/example/myapplication/MainActivity.kt:72-81 | holds iff every required permission for the API level is granted |
| Permissions.RequestPermissions | app/src/main/java/com/example/myapplication/MainActivity.kt:83-90 | the request asks for the same array the check uses, with request code 100 |
| Permissions.HasPermissionsBySdk | app/src/main/java/com/example/myapplication/MainActivity.kt:73-80 | per API level, the check holds iff CONNECT and SCAN (≥ 31) or FINE_LOCATION (< 31) are granted |
| Permissions.GrantingRequestSuffices | app/src/main/java/com/example/myapplication/MainActivity.kt:84-89 | granting everything the request asks for makes the check hold |
| Permissions.HasPermissionsMonotone | app/src/main/java/com/example/myapplication/MainActivity.kt:78-80 | granting more never makes the check fail |
| Discovery.FoundLabel | app/src/main/java/com/example/myapplication/MainActivity.kt:127-131 | a broadcast proposes a label iff it is `ACTION_FOUND` with a device, and the label is that device's discovered label |
| Discovery.Discover | app/src/main/java/com/example/myapplication/MainActivity.kt:132-133 | one broadcast either leaves the list as it was or appends its label; it changes the list iff it proposes a label not yet present, and afterwards any proposed label is present |
| Discovery.DiscoverAll | app/src/main/java/com/example/myapplication/MainActivity.kt:126-138 | a run of broadcasts keeps the earlier entries as a prefix and adds at most one entry per broadcast |
| Discovery.IgnoredBroadcast | app/src/main/java/com/example/myapplication/MainActivity.kt:127-130 | a null intent, another action or a missing device leaves the list unchanged |
| Discovery.DiscoverPreserves | app/src/main/java/com/example/myapplication/MainActivity.kt:131-135 | one broadcast keeps the list duplicate-free, keeps earlier entries as a prefix, grows it by at most one and leaves the label present |
| Discovery.DiscoverIdempotent | app/src/main/java/com/example/myapplication/MainActivity.kt:132-133 | the same broadcast twice has the effect of once |
| Discovery.DiscoverAllPreserves | app/src/main/java/com/example/myapplication/MainActivity.kt:131-135 | any run of broadcasts keeps a duplicate-free list duplicate-free with earlier entries as a prefix |
| Discovery.DiscoverAllFromEmptyNoDuplicates | app/src/main/java/com/example/myapplication/MainActivity.kt:29 | from the initially empty available list, no run of broadcasts produces a duplicate label |
| Discovery.DiscoverAllContents | app/src/main/java/com/example/myapplication/MainActivity.kt:126-138 | after a run, a label is in the list iff it was there before or some broadcast in the run proposed it |
| Discovery.SameAddressDifferentNamesBothKept | app/src/main/java/com/example/myapplication/MainActivity.kt:131-133 | two sightings of one address under different displayed names both get appended, in order |
| Discovery.SameLabelDroppedOnSecondSighting | app/src/main/java/com/example/myapplication/MainActivity.kt:132 | a second sighting with the same name and address adds nothing |
| Activity.PlainLabels | app/src/main/java/com/example/myapplication/MainActivity.kt:101-103 | a `forEach` append run yields exactly one label per device |
| Activity.PlainLabelsAt | app/src/main/java/com/example/myapplication/MainActivity.kt:101-103 | one label per device, the i-th label being the i-th device's |
| Activity.RepeatedDeviceListedTwice | app/src/main/java/com/example/myapplication/MainActivity.kt:101-103 | no dedup: a device reported twice yields its label twice |
| Activity.StartupDecision | app/src/main/java/com/example/myapplication/MainActivity.kt:59-69 | no adapter stops startup; otherwise setup iff every required permission is granted, else a request for exactly the required array |
| Activity.MainActivity.constructor | app/src/main/java/com/example/myapplication/MainActivity.kt:27-29 | all three lists start empty, with no proxy requested and no receiver registered |
| Activity.MainActivity.OnServiceConnected | app/src/main/java/com/example/myapplication/MainActivity.kt:100-105 | only after the proxy was requested: the connected list becomes the old list followed by one label per proxy device; the other lists are unchanged |
| Activity.MainActivity.FetchPairedDevices | app/src/main/java/com/example/myapplication/MainActivity.kt:111-117 | the paired list becomes the old list followed by one label per bonded device; the other lists are unchanged |
| Activity.MainActivity.OnReceive | app/src/main/java/com/example/myapplication/MainActivity.kt:126-138 | only once the receiver is registered: the available list stays duplicate-free; it changes, by appending the label, iff the broadcast is a found device whose label is absent |
| Activity.MainActivity.SetupBluetooth | app/src/main/java/com/example/myapplication/MainActivity.kt:92-96 | requests the proxy, appends the bonded labels and registers for discovery |
| Activity.MainActivity.OnCreate | app/src/main/java/com/example/myapplication/MainActivity.kt:58-69 | follows the startup decision; anything but setup leaves every field unchanged |
| Activity.Launch | app/src/main/java/com/example/myapplication/MainActivity.kt:39-69 | a fresh activity whose setup is refused keeps all three lists empty and neither requests the proxy nor registers the receiver; one that sets up has only the bonded labels so far |

## Left out

- The views: `ListView`, `ArrayAdapter`, `notifyDataSetChanged`, `Toast`, `setContentView`, `finish`. `OnReceive` instead returns whether it changed the list, which is when the source notifies.
- Receiver registration, `startDiscovery` and `getProfileProxy` are platform calls. They are recorded only as the flags `receiverRegistered` and `proxyRequested`.
- The platform delivers broadcasts only to a registered receiver, and the proxy callback only after `getProfileProxy`. The source has no check for this; in the model it is the precondition of `OnReceive` and `OnServiceConnected`. The class invariant then keeps the available and connected lists empty until setup has run.
- `onServiceDisconnected` has an empty body and is not modelled.
- `onDestroy` (unregistering the receiver) is not modelled.
- The asynchronous proxy callback is modelled as a separate method, called with the proxy's device list.
- `ContextCompat.checkSelfPermission` becomes the `granted` set. `ActivityCompat.requestPermissions` becomes the returned `PermissionRequest` value.
- The adapter lookup becomes the `adapterPresent` flag. `getDefaultAdapter()` returns a platform type, and it is assigned to the non-null `lateinit` field `bluetoothAdapter` (MainActivity.kt:22, :58). Kotlin inserts a null assertion on that assignment. So with no adapter the activity dies with a NullPointerException at :58, and the toast-and-`finish()` branch at :59-63 is never reached. `NotSupported` in `StartupDecision` and `OnCreate` models that unreachable branch. In both versions startup stops with every list empty.
- Threading: every callback runs on the main thread, one at a time.
