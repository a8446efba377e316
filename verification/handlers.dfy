/**
 The two lookup commands, `info` and `howtouse`, and the usage-level lookup the
 classify command uses. Each command is modelled as the reply text it sends.
 The argument is lowered and used as the key; on a hit the device name is shown
 title-cased, on a miss a fixed apology is sent.
 */
module Handlers {
  import Ascii
  import Lines
  import Tables

  const NoInfoReply: string := "Sorry, I don't have info on that device."
  // Written in two pieces so that the verifier can read the characters of each.
  const NoTipsReply: string := "Sorry, I don't have " + "usage tips for that device."
  const UnknownUsage: string := "Unknown"

  /** The fixed text that opens a `howtouse` reply, before the device name. */
  const TipPrefix: string := "**Sustainable Use Tip for "
  /** The fixed text between the device name and the eco tip. */
  const TipSeparator: string := ":** "

  /** The four lines of an `info` reply for the device `key`, top to bottom. */
  function InfoLines(key: string, d: Tables.DeviceInfo): seq<string>
  {
    ["**" + Ascii.Title(key) + " Info:**", "Pros: " + d.pros, "Cons: " + d.cons, "Eco Tip: " + d.ecoTip]
  }

  /** The text `info` sends for a device found under `key`: its four lines, newline-separated. */
  function InfoReply(key: string, d: Tables.DeviceInfo): (reply: string)
    ensures reply == Lines.Join(InfoLines(key, d), Lines.NewLine)
    ensures reply != NoInfoReply
  {
    var reply := "**" + Ascii.Title(key) + " Info:**\n"
      + "Pros: " + d.pros + "\n"
      + "Cons: " + d.cons + "\n"
      + "Eco Tip: " + d.ecoTip;
    var ls := InfoLines(key, d);
    assert ls[3..] == [ls[3]] && ls[2..][1..] == ls[3..] && ls[1..][1..] == ls[2..];
    calc {
      Lines.Join(ls, Lines.NewLine);
      ls[0] + "\n" + Lines.Join(ls[1..], Lines.NewLine);
      ls[0] + "\n" + (ls[1] + "\n" + Lines.Join(ls[2..], Lines.NewLine));
      ls[0] + "\n" + (ls[1] + "\n" + (ls[2] + "\n" + ls[3]));
      reply;
    }
    assert reply[0] == '*' != NoInfoReply[0];
    reply
  }

  /** The text `howtouse` sends for a device found under `key` with eco tip `tip`. */
  function TipReply(key: string, tip: string): (reply: string)
    ensures reply != NoTipsReply
    ensures Ascii.IsLowerCase(key) ==> ReadsAsTip(reply, key, tip)
  {
    var reply := TipPrefix + Ascii.Title(key) + TipSeparator + tip;
    assert reply[0] == '*' != NoTipsReply[0];
    if Ascii.IsLowerCase(key) then TipReplyReadsBack(key, tip); reply else reply
  }

  /** The `info` command: the record of the named device, or an apology. */
  function Info(device: string): (reply: string)
    ensures Ascii.Lower(device) in Tables.ElectronicsInfo <==> reply != NoInfoReply
    ensures Ascii.Lower(device) in Tables.ElectronicsInfo ==>
      reply == Lines.Join(InfoLines(Ascii.Lower(device), Tables.ElectronicsInfo[Ascii.Lower(device)]), Lines.NewLine)
  {
    var key := Ascii.Lower(device);
    if key in Tables.ElectronicsInfo then InfoReply(key, Tables.ElectronicsInfo[key]) else NoInfoReply
  }

  /** The `howtouse` command: the eco tip of the named device, or an apology. */
  function HowToUse(device: string): (reply: string)
    ensures Ascii.Lower(device) in Tables.ElectronicsInfo <==> reply != NoTipsReply
    ensures Ascii.Lower(device) in Tables.ElectronicsInfo ==>
      ReadsAsTip(reply, Ascii.Lower(device), Tables.ElectronicsInfo[Ascii.Lower(device)].ecoTip)
  {
    var key := Ascii.Lower(device);
    if key in Tables.ElectronicsInfo then TipReply(key, Tables.ElectronicsInfo[key].ecoTip) else NoTipsReply
  }

  /** The usage level shown for a predicted label; labels the table lacks read "Unknown". */
  function UsageOf(name: string): (usage: string)
    ensures usage in Tables.UsageLevelNames || usage == UnknownUsage
    ensures usage == UnknownUsage <==> Ascii.Lower(name) !in Tables.UsageLevels
    ensures Ascii.Lower(name) in Tables.UsageLevels ==> usage == Tables.UsageLevels[Ascii.Lower(name)]
  {
    Tables.UsageLevelsClosed();
    var key := Ascii.Lower(name);
    if key in Tables.UsageLevels then Tables.UsageLevels[key] else UnknownUsage
  }

  /** `info` does not care how the argument is capitalised. */
  lemma InfoCaseInsensitive(device: string)
    ensures Info(device) == Info(Ascii.Lower(device))
    ensures Info(device) == Info(Ascii.Title(device))
  {
    Ascii.LowerIdempotent(device);
    Ascii.LowerTitle(device);
  }

  /** `howtouse` does not care how the argument is capitalised. */
  lemma HowToUseCaseInsensitive(device: string)
    ensures HowToUse(device) == HowToUse(Ascii.Lower(device))
    ensures HowToUse(device) == HowToUse(Ascii.Title(device))
  {
    Ascii.LowerIdempotent(device);
    Ascii.LowerTitle(device);
  }

  /** The usage lookup does not care how the label is capitalised. */
  lemma UsageCaseInsensitive(name: string)
    ensures UsageOf(name) == UsageOf(Ascii.Lower(name))
    ensures UsageOf(name) == UsageOf(Ascii.Title(name))
  {
    Ascii.LowerIdempotent(name);
    Ascii.LowerTitle(name);
  }

  /** Every device in the table is reachable by its own name, however it is capitalised. */
  lemma EveryDeviceAnswered(key: string)
    requires key in Tables.ElectronicsInfo
    ensures Info(key) != NoInfoReply && Info(Ascii.Title(key)) != NoInfoReply
    ensures HowToUse(key) != NoTipsReply && HowToUse(Ascii.Title(key)) != NoTipsReply
    ensures UsageOf(key) != UnknownUsage
  {
    Tables.KeysAreCanonical();
    Tables.SameDevices();
    Ascii.LowerIdempotent(key);
    Ascii.LowerTitle(key);
  }

  /** An `info` reply for a single-line name and record shows as exactly its four lines. */
  lemma InfoReplyLines(key: string, d: Tables.DeviceInfo)
    requires Lines.NewLine !in key
    requires Tables.IsWellFormed(d)
    ensures Lines.Split(InfoReply(key, d), Lines.NewLine) == InfoLines(key, d)
  {
    var lines := InfoLines(key, d);
    Ascii.TitleKeepsNonLetters(key, Lines.NewLine);
    assert Lines.NewLine !in lines[0];
    Lines.SplitJoin(lines, Lines.NewLine);
  }

  /**
   The name in an `info` reply lowers back to the key that was found, and the
   reply shows as the four lines of `InfoLines` whenever the record's texts are
   single lines.
   */
  lemma InfoReadsBack(device: string)
    requires Ascii.Lower(device) in Tables.ElectronicsInfo
    requires Tables.IsWellFormed(Tables.ElectronicsInfo[Ascii.Lower(device)])
    ensures Lines.Split(Info(device), Lines.NewLine)
         == InfoLines(Ascii.Lower(device), Tables.ElectronicsInfo[Ascii.Lower(device)])
    ensures Ascii.Lower(Ascii.Title(Ascii.Lower(device))) == Ascii.Lower(device)
  {
    var key := Ascii.Lower(device);
    Tables.KeysAreCanonical();
    assert Tables.IsCanonicalName(key);
    InfoReplyLines(key, Tables.ElectronicsInfo[key]);
    Ascii.LowerTitle(key);
    Ascii.LowerIdempotent(device);
  }

  /**
   `reply` reads, left to right: the fixed prefix, the title-cased `key` (a
   name that lowers back to `key`), the fixed separator, and exactly `tip`.
   */
  predicate ReadsAsTip(reply: string, key: string, tip: string)
  {
    var nameEnd := |TipPrefix| + |key|;
    && |reply| == nameEnd + |TipSeparator| + |tip|
    && reply[..|TipPrefix|] == TipPrefix
    && reply[|TipPrefix|..nameEnd] == Ascii.Title(key)
    && Ascii.Lower(reply[|TipPrefix|..nameEnd]) == key
    && reply[nameEnd..nameEnd + |TipSeparator|] == TipSeparator
    && reply[nameEnd + |TipSeparator|..] == tip
  }

  /** The tip template filled in for a lower-case key reads back into that key and tip. */
  lemma TipReplyReadsBack(key: string, tip: string)
    requires Ascii.IsLowerCase(key)
    ensures ReadsAsTip(TipPrefix + Ascii.Title(key) + TipSeparator + tip, key, tip)
  {
    var title := Ascii.Title(key);
    var reply := TipPrefix + title + TipSeparator + tip;
    assert reply[|TipPrefix|..|TipPrefix| + |key|] == title;
    Ascii.LowerTitle(key);
    Ascii.LowerIdempotent(key);
  }

  /** `info` ignores capitals in the documented sample. */
  lemma InfoSampleCase()
    ensures Info("LAPTOP") == Info("laptop")
  {
    assert Ascii.Lower("LAPTOP") == "laptop";
  }

  /** `info` on the documented known sample: the laptop's record, pros line first. */
  lemma InfoSampleHit()
    ensures Info("laptop") == Lines.Join([
      "**Laptop Info:**",
      "Pros: " + "Portable, versatile, energy-efficient compared to desktops.",
      "Cons: " + "Battery degradation over time, manufacturing impact.",
      "Eco Tip: " + "Extend lifespan by upgrading RAM/SSD and recycling old devices responsibly."], Lines.NewLine)
  {
    var d := Tables.DeviceInfo(
      "Portable, versatile, energy-efficient compared to desktops.",
      "Battery degradation over time, manufacturing impact.",
      "Extend lifespan by upgrading RAM/SSD and recycling old devices responsibly.");
    LaptopRecord();
    assert Ascii.Lower("laptop") == "laptop";
    assert Ascii.Title("laptop") == "Laptop";
    assert "**" + Ascii.Title("laptop") + " Info:**" == "**Laptop Info:**";
    assert InfoLines("laptop", d) == [
      "**Laptop Info:**",
      "Pros: " + "Portable, versatile, energy-efficient compared to desktops.",
      "Cons: " + "Battery degradation over time, manufacturing impact.",
      "Eco Tip: " + "Extend lifespan by upgrading RAM/SSD and recycling old devices responsibly."];
  }

  /** `info` and `howtouse` on the documented unknown sample send their apologies. */
  lemma SampleMiss()
    ensures Info("toaster") == NoInfoReply
    ensures HowToUse("toaster") == NoTipsReply
    ensures UsageOf("toaster") == UnknownUsage
  {
    ToasterUnknown();
    assert Ascii.Lower("toaster") == "toaster";
  }

  /** `howtouse` on the documented known sample. */
  lemma HowToUseSampleHit()
    ensures HowToUse("router") == TipPrefix + "Router" + TipSeparator + "Use energy-efficient routers and restart periodically."
  {
    assert Ascii.Lower("router") == "router";
    assert Ascii.Title("router") == "Router";
  }

  /** The usage lookup on a capitalised known label. */
  lemma UsageSampleHit()
    ensures UsageOf("TV") == "Medium usage"
  {
    TvLevel();
    assert Ascii.Lower("TV") == "tv";
  }

  lemma TvLevel()
    ensures "tv" in Tables.UsageLevels && Tables.UsageLevels["tv"] == Tables.Medium
  {
  }

  lemma LaptopRecord()
    ensures "laptop" in Tables.ElectronicsInfo
    ensures Tables.ElectronicsInfo["laptop"] == Tables.DeviceInfo(
      "Portable, versatile, energy-efficient compared to desktops.",
      "Battery degradation over time, manufacturing impact.",
      "Extend lifespan by upgrading RAM/SSD and recycling old devices responsibly.")
  {
  }

  lemma ToasterUnknown()
    ensures "toaster" !in Tables.UsageLevels && "toaster" !in Tables.ElectronicsInfo
  {
    assert "toaster" !in Tables.Devices;
    Tables.UsageDevices();
    Tables.InfoDevices();
  }
}
