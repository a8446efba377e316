/**
 The two read-only stores of the bot: the energy usage level of each device and
 its descriptive record (pros, cons, eco tip). Both are keyed by the canonical,
 lower-case device name.
 */
module Tables {
  import Ascii

  /** The descriptive record kept for one device. */
  datatype DeviceInfo = DeviceInfo(pros: string, cons: string, ecoTip: string)

  const Low: string := "Low usage"
  const Medium: string := "Medium usage"
  const High: string := "High usage"

  /** The closed set of usage levels the table uses. */
  const UsageLevelNames: set<string> := {Low, Medium, High}

  const UsageLevels: map<string, string> := map[
    "laptop" := Low,
    "air conditioner" := High,
    "washing machine" := Medium,
    "microwave" := Low,
    "tv" := Medium,
    "smartphone" := Low,
    "tablet" := Low,
    "camera" := Low,
    "headphones" := Low,
    "speaker" := Low,
    "game console" := Medium,
    "router" := Low,
    "printer" := Low
  ]

  const ElectronicsInfo: map<string, DeviceInfo> := map[
    "laptop" := DeviceInfo(
      "Portable, versatile, energy-efficient compared to desktops.",
      "Battery degradation over time, manufacturing impact.",
      "Extend lifespan by upgrading RAM/SSD and recycling old devices responsibly."),
    "air conditioner" := DeviceInfo(
      "Effective cooling, improves indoor comfort.",
      "High energy consumption, greenhouse gas emissions.",
      "Use energy-efficient models, maintain filters, and set temperature wisely."),
    "washing machine" := DeviceInfo(
      "Saves time and water compared to hand washing.",
      "Consumes electricity and water, may have environmental impact if inefficient.",
      "Use full loads, select eco modes, and maintain regularly."),
    "microwave" := DeviceInfo(
      "Fast cooking, energy-efficient for small portions.",
      "Limited cooking capability compared to ovens.",
      "Use microwave for reheating to save energy."),
    "tv" := DeviceInfo(
      "Entertainment and information source.",
      "Energy consumption varies, screen manufacturing impacts environment.",
      "Turn off when not in use and choose energy-efficient displays."),
    "smartphone" := DeviceInfo(
      "Portable, versatile communication and computing device.",
      "Short lifespan, resource-intensive manufacturing.",
      "Use cases and screen protectors to prolong lifespan, recycle old phones."),
    "tablet" := DeviceInfo(
      "Portable and convenient for media consumption and light tasks.",
      "Battery life degrades, resource use in production.",
      "Avoid overcharging and recycle responsibly."),
    "camera" := DeviceInfo(
      "High-quality image capture, digital convenience.",
      "Battery and accessory waste, manufacturing footprint.",
      "Use rechargeable batteries and recycle old electronics."),
    "headphones" := DeviceInfo(
      "Personal audio, portable.",
      "Short lifespan for cheaper models.",
      "Choose durable brands and recycle properly."),
    "speaker" := DeviceInfo(
      "Portable audio output.",
      "Battery waste, plastic use.",
      "Use wired speakers when possible to reduce battery waste."),
    "game console" := DeviceInfo(
      "Entertainment and social connection.",
      "High power consumption during use and standby.",
      "Turn off fully when not in use, unplug accessories."),
    "router" := DeviceInfo(
      "Provides internet connectivity.",
      "Consumes electricity continuously.",
      "Use energy-efficient routers and restart periodically."),
    "printer" := DeviceInfo(
      "Convenient document output.",
      "Ink and paper waste, energy use.",
      "Print only when necessary, use duplex mode.")
  ]

  /** The thirteen canonical device names both tables are keyed by. */
  const Devices: set<string> := {
    "laptop", "air conditioner", "washing machine", "microwave", "tv", "smartphone",
    "tablet", "camera", "headphones", "speaker", "game console", "router", "printer"
  }

  /** A text that fits on one line of a reply and is not empty. */
  predicate IsLineText(s: string)
  {
    |s| > 0 && '\n' !in s
  }

  /** A canonical device name: a non-empty single line without capitals. */
  predicate IsCanonicalName(s: string)
  {
    IsLineText(s) && Ascii.IsLowerCase(s)
  }

  /** A record with text in each of its three fields. */
  predicate HasText(d: DeviceInfo)
  {
    |d.pros| > 0 && |d.cons| > 0 && |d.ecoTip| > 0
  }

  /** A record whose three fields are each a non-empty single line. */
  predicate IsWellFormed(d: DeviceInfo)
  {
    IsLineText(d.pros) && IsLineText(d.cons) && IsLineText(d.ecoTip)
  }

  lemma UsageDevices()
    ensures UsageLevels.Keys == Devices
  {
  }

  lemma InfoDevices()
    ensures ElectronicsInfo.Keys == Devices
  {
  }

  lemma DeviceCount()
    ensures |Devices| == 13
  {
  }

  /** Both tables describe the same thirteen devices. */
  lemma SameDevices()
    ensures UsageLevels.Keys == ElectronicsInfo.Keys == Devices
    ensures |Devices| == 13
  {
    UsageDevices();
    InfoDevices();
    DeviceCount();
  }

  lemma DevicesCanonical()
    ensures forall k :: k in Devices ==> IsCanonicalName(k)
  {
    assert IsCanonicalName("laptop");
    assert IsCanonicalName("air conditioner");
    assert IsCanonicalName("washing machine");
    assert IsCanonicalName("microwave");
    assert IsCanonicalName("tv");
    assert IsCanonicalName("smartphone");
    assert IsCanonicalName("tablet");
    assert IsCanonicalName("camera");
    assert IsCanonicalName("headphones");
    assert IsCanonicalName("speaker");
    assert IsCanonicalName("game console");
    assert IsCanonicalName("router");
    assert IsCanonicalName("printer");
  }

  /** Every key of both tables is canonical, so a lowered query can reach each of them. */
  lemma KeysAreCanonical()
    ensures forall k :: k in UsageLevels ==> IsCanonicalName(k)
    ensures forall k :: k in ElectronicsInfo ==> IsCanonicalName(k)
  {
    SameDevices();
    DevicesCanonical();
  }

  /** Every usage level is one of the three named levels. */
  lemma UsageLevelsClosed()
    ensures forall k :: k in UsageLevels ==> UsageLevels[k] in UsageLevelNames
  {
  }

  /** Every record has text in each of its three fields. */
  lemma InfoFieldsNonEmpty()
    ensures forall k :: k in ElectronicsInfo ==> HasText(ElectronicsInfo[k])
  {
    InfoDevices();
    assert HasText(ElectronicsInfo["laptop"]);
    assert HasText(ElectronicsInfo["air conditioner"]);
    assert HasText(ElectronicsInfo["washing machine"]);
    assert HasText(ElectronicsInfo["microwave"]);
    assert HasText(ElectronicsInfo["tv"]);
    assert HasText(ElectronicsInfo["smartphone"]);
    assert HasText(ElectronicsInfo["tablet"]);
    assert HasText(ElectronicsInfo["camera"]);
    assert HasText(ElectronicsInfo["headphones"]);
    assert HasText(ElectronicsInfo["speaker"]);
    assert HasText(ElectronicsInfo["game console"]);
    assert HasText(ElectronicsInfo["router"]);
    assert HasText(ElectronicsInfo["printer"]);
  }
}
