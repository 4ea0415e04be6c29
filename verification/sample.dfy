/** The configuration of the repository's own test fixture, and what the
    model says `configure_switch` sends for it. */
module SampleConfig {
  import opened Config
  import opened CommandSpec
  import opened Transport

  /** The fixture's one switch: three VLANs, only the management one with an
      address (the others carry `null` ip and subnet), one trunk port. */
  function SampleSwitch(): SwitchConfig {
    SwitchConfig(
      JStr("Switch1"),
      [ ("10", VlanInfo(Present(JStr("DATA")), Present(JNull), Present(JNull))),
        ("20", VlanInfo(Present(JStr("VOICE")), Present(JNull), Present(JNull))),
        ("99", VlanInfo(Present(JStr("MGMT")), Present(JStr("192.168.99.2")), Present(JStr("255.255.255.0")))) ],
      [JStr("GigabitEthernet0/1")])
  }

  /** The fixture's global record (its `total_ports` of 2 is never read). */
  function SampleGlobal(): GlobalConfig {
    GlobalConfig(JStr("10"), JStr("20"), JStr("99"),
                 JStr("cisco123"), JStr("cisco123"), JStr("cisco456"), JInt(2048))
  }

  // The steps below each rely on a few fields of the records only, which
  // keeps the verifier away from evaluating the whole literal list.

  /** The rendered fixture lines, spelled out. */
  lemma SampleLines()
    ensures "hostname " + "Switch1" == "hostname Switch1"
    ensures "vlan " + "10" == "vlan 10"
    ensures "name " + "DATA" == "name DATA"
    ensures "interface " + "GigabitEthernet0/1" == "interface GigabitEthernet0/1"
    ensures "interface vlan " + "99" == "interface vlan 99"
    ensures "ip address " + "192.168.99.2" + " " + "255.255.255.0" == "ip address 192.168.99.2 255.255.255.0"
    ensures "GigabitEthernet0/" + "1" == "GigabitEthernet0/1"
  {
  }

  /** A switch named Switch1 whose first VLAN is 10, named DATA, starts with
      its hostname and that VLAN's two lines. */
  lemma SampleHead(sw: SwitchConfig, g: GlobalConfig)
    requires Commands(sw, g).Success?
    requires sw.hostname == JStr("Switch1")
    requires |sw.vlans| >= 1 && sw.vlans[0].0 == "10" && sw.vlans[0].1.name == Present(JStr("DATA"))
    ensures var cs := Commands(sw, g).value;
      |cs| >= 4 && cs[0] == "hostname Switch1" && cs[2] == "vlan 10" && cs[3] == "name DATA"
  {
    CommandsBeginWithHostnameAndVlans(sw, g);
    SampleLines();
  }

  /** With three VLANs, the first trunk block starts at index 8. */
  lemma SampleTrunk(sw: SwitchConfig, g: GlobalConfig)
    requires Commands(sw, g).Success?
    requires |sw.vlans| == 3 && sw.trunkPorts == [JStr("GigabitEthernet0/1")]
    ensures var cs := Commands(sw, g).value;
      |cs| >= 10 && cs[8] == "interface GigabitEthernet0/1" && cs[9] == "switchport mode trunk"
  {
    CommandsTrunkBlocks(sw, g);
    SampleLines();
    var cs := Commands(sw, g).value;
    assert cs[8..13] == TrunkBlock(sw.trunkPorts[0], AllowedVlans(sw.vlans));
  }

  /** A management VLAN 99 with an address and a mask puts its four lines
      right before the closing block. */
  lemma SampleManagement(sw: SwitchConfig, g: GlobalConfig)
    requires Commands(sw, g).Success?
    requires g.managementVlan == JStr("99")
    requires Lookup(sw.vlans, g.managementVlan).Some?
    requires Lookup(sw.vlans, g.managementVlan).value.ip == Present(JStr("192.168.99.2"))
    requires Lookup(sw.vlans, g.managementVlan).value.subnet == Present(JStr("255.255.255.0"))
    ensures var cs := Commands(sw, g).value;
      |cs| >= 18 &&
      cs[|cs| - 18] == "interface vlan 99" &&
      cs[|cs| - 17] == "ip address 192.168.99.2 255.255.255.0" &&
      cs[|cs| - 1] == "wr mem"
  {
    ManagementBlockIffIp(sw, g);
    ClosingBlockLast(sw, g);
    SampleLines();
  }

  /** A port listed as a trunk gets no access block. */
  lemma SamplePortOne(trunks: seq<Json>)
    requires trunks == [JStr("GigabitEthernet0/1")]
    ensures 1 !in AccessPorts(trunks, TotalPorts())
  {
    SampleLines();
    AccessPortsExactly(trunks, TotalPorts());
  }

  /** The fields of the fixture the steps rely on. */
  lemma SampleFields(sw: SwitchConfig, g: GlobalConfig)
    requires sw == SampleSwitch() && g == SampleGlobal()
    ensures sw.hostname == JStr("Switch1") && |sw.vlans| == 3
    ensures sw.vlans[0].0 == "10" && sw.vlans[0].1.name == Present(JStr("DATA"))
    ensures sw.trunkPorts == [JStr("GigabitEthernet0/1")] && g.managementVlan == JStr("99")
    ensures AllNamed(sw.vlans)
    ensures Lookup(sw.vlans, g.managementVlan) ==
      Some(VlanInfo(Present(JStr("MGMT")), Present(JStr("192.168.99.2")), Present(JStr("255.255.255.0"))))
  {
    assert sw.vlans[2].0 == "99";
  }

  /** Every VLAN named and a management entry with an address and a mask:
      the build succeeds. */
  lemma SampleBuilds(sw: SwitchConfig, g: GlobalConfig)
    requires AllNamed(sw.vlans)
    requires Lookup(sw.vlans, g.managementVlan).Some?
    requires Lookup(sw.vlans, g.managementVlan).value.subnet.Present?
    ensures Commands(sw, g).Success?
  {
    BuildFailsExactly(sw, g);
  }

  /** The fixture builds without error; the list starts with the hostname and
      VLAN 10's two lines, the trunk block for GigabitEthernet0/1 follows the
      six VLAN lines, that port gets no access block, the management block for
      VLAN 99 stands right before the fourteen closing lines, and `wr mem` is
      last. On the wire the handshake's `enable` and `configure terminal`
      come first. */
  lemma SampleConfigCommands(sw: SwitchConfig, g: GlobalConfig)
    requires sw == SampleSwitch() && g == SampleGlobal()
    ensures Commands(sw, g).Success?
    ensures var cs := Commands(sw, g).value;
      |cs| >= 18 &&
      cs[0] == "hostname Switch1" &&
      cs[2] == "vlan 10" && cs[3] == "name DATA" &&
      cs[8] == "interface GigabitEthernet0/1" && cs[9] == "switchport mode trunk" &&
      cs[|cs| - 18] == "interface vlan 99" &&
      cs[|cs| - 17] == "ip address 192.168.99.2 255.255.255.0" &&
      cs[|cs| - 1] == "wr mem"
    ensures 1 !in AccessPorts(sw.trunkPorts, TotalPorts())
    ensures var t := Trace(sw, g);
      |t| >= 4 && t[2] == "enable\n" && t[3] == "configure terminal\n"
  {
    SampleFields(sw, g);
    SampleBuilds(sw, g);
    SampleHead(sw, g);
    SampleTrunk(sw, g);
    SampleManagement(sw, g);
    SamplePortOne(sw.trunkPorts);
    TraceOfShape(Commands(sw, g));
  }
}
