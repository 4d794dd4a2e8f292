/**
 The device records the activity reads from the platform and the display
 labels it builds from them.

 A label is the device name, a line break and the hardware address. The
 connected and paired lists use Kotlin's string template on the raw
 (possibly null) name, which renders a missing name as "null"; the
 discovery handler substitutes "Unknown" with the elvis operator first.
 */
module Labels {

  datatype Option<+T> = None | Some(value: T)

  /** A Bluetooth device as the activity sees it: `name` may be null, `address` is always set. */
  datatype Device = Device(name: Option<string>, address: string)

  const Separator: string := "\n"

  /** What a Kotlin string template prints for a nullable string. */
  function TemplateText(s: Option<string>): (r: string)
    ensures s.Some? ==> r == s.value
    ensures s.None? ==> r == "null"
  {
    match s
    case Some(v) => v
    case None => "null"
  }

  /** `device.name ?: "Unknown"`: the name with the discovery handler's fallback. */
  function DisplayName(d: Device): (r: string)
    ensures d.name.Some? ==> r == d.name.value
    ensures d.name.None? ==> r == "Unknown"
  {
    match d.name
    case Some(v) => v
    case None => "Unknown"
  }

  /** The label of a connected or paired device: `"${name}\n${address}"`, no fallback. */
  function PlainLabel(d: Device): (r: string)
    ensures |r| == |TemplateText(d.name)| + 1 + |d.address|
    ensures r[..|TemplateText(d.name)|] == TemplateText(d.name)
    ensures r[|TemplateText(d.name)|] == '\n'
    ensures r[|TemplateText(d.name)| + 1..] == d.address
  {
    TemplateText(d.name) + Separator + d.address
  }

  /** The label of a discovered device: `"${name ?: "Unknown"}\n${address}"`. */
  function DiscoveredLabel(d: Device): (r: string)
    ensures |r| == |DisplayName(d)| + 1 + |d.address|
    ensures r[..|DisplayName(d)|] == DisplayName(d)
    ensures r[|DisplayName(d)|] == '\n'
    ensures r[|DisplayName(d)| + 1..] == d.address
  {
    DisplayName(d) + Separator + d.address
  }

  /**
   For two devices with the same address, the discovered labels coincide
   exactly when the displayed names do: the address alone does not decide
   whether two sightings are the same entry.
   */
  lemma SameAddressLabelsEqualIff(d1: Device, d2: Device)
    requires d1.address == d2.address
    ensures DiscoveredLabel(d1) == DiscoveredLabel(d2) <==> DisplayName(d1) == DisplayName(d2)
  {
  }

  /**
   The two label formats agree except on a device without a name, where the
   paired/connected label says "null" and the discovered label says "Unknown".
   */
  lemma PlainAndDiscoveredLabels(d: Device)
    ensures d.name.Some? ==> PlainLabel(d) == DiscoveredLabel(d)
    ensures d.name.None? ==> PlainLabel(d) == "null\n" + d.address
    ensures d.name.None? ==> DiscoveredLabel(d) == "Unknown\n" + d.address
    ensures d.name.None? ==> PlainLabel(d) != DiscoveredLabel(d)
  {
  }

  /** A nameless device and a device literally named "Unknown" at the same address get the same discovered label. */
  lemma UnknownFallbackCollides(address: string)
    ensures DiscoveredLabel(Device(None, address)) == DiscoveredLabel(Device(Some("Unknown"), address))
    ensures PlainLabel(Device(None, address)) != PlainLabel(Device(Some("Unknown"), address))
  {
  }
}
