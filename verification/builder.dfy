/** The command-list construction of `configure_switch`, as the source does
    it: start from the hostname lines and grow one list section by section,
    raising a `KeyError` where a dictionary lookup fails. Each loop of the
    source is a method of its own, proved against the section function that
    specifies it; `BuildCommands` chains them in the source's order. */
module Builder {
  import opened Text
  import opened Config
  import opened CommandSpec

  /** The VLAN loop: appends `vlan <id>` and `name <name>` per entry, in
      mapping order, and fails with `KeyError('name')` at the first entry
      without a name. */
  method AppendVlans(commands: seq<string>, vlans: VlanMap) returns (r: Result<seq<string>>)
    ensures r.Success? <==> AllNamed(vlans)
    ensures r.Failure? ==> r.error == KeyError(JStr("name"))
    ensures r.Success? ==> r.value == commands + VlanSection(vlans)
  {
    var out := commands;
    for i := 0 to |vlans|
      invariant AllNamed(vlans[..i])
      invariant out == commands + VlanSection(vlans[..i])
    {
      var (vlanId, vlanInfo) := vlans[i];
      out := out + ["vlan " + vlanId];
      if vlanInfo.name.Absent? {
        assert !vlans[i].1.name.Present?;
        return Failure(KeyError(JStr("name")));
      }
      out := out + ["name " + Render(vlanInfo.name.value)];
      assert vlans[..i + 1][..i] == vlans[..i];
    }
    assert vlans[..|vlans|] == vlans;
    return Success(out);
  }

  /** The trunk loop: five lines per trunk port, in list order, each
      allowing the comma-joined VLAN ids. */
  method AppendTrunks(commands: seq<string>, trunks: seq<Json>, vlans: VlanMap) returns (out: seq<string>)
    ensures out == commands + TrunkSection(trunks, AllowedVlans(vlans))
  {
    out := commands;
    for k := 0 to |trunks|
      invariant out == commands + TrunkSection(trunks[..k], AllowedVlans(vlans))
    {
      var trunkPort := trunks[k];
      out := out + [
        "interface " + Render(trunkPort),
        "switchport mode trunk",
        "switchport trunk encapsulation dot1q",
        "switchport trunk allowed vlan " + Join(VlanIds(vlans), ','),
        "exit"
      ];
      assert trunks[..k + 1][..k] == trunks[..k];
    }
    assert trunks[..|trunks|] == trunks;
  }

  /** The port loop: ports 1 to `TotalPorts()`, ten access-port lines for
      each whose name is not in the trunk list. */
  method AppendAccessPorts(commands: seq<string>, trunks: seq<Json>, g: GlobalConfig) returns (out: seq<string>)
    ensures out == commands + AccessSection(trunks, g, TotalPorts())
  {
    out := commands;
    for portNum := 1 to TotalPorts() + 1
      invariant out == commands + AccessSection(trunks, g, portNum - 1)
    {
      var portName := "GigabitEthernet0/" + NatToString(portNum);
      if JStr(portName) !in trunks {
        out := out + [
          "interface " + portName,
          "switchport mode access",
          "switchport access vlan " + Render(g.dataVlan),
          "switchport voice vlan " + Render(g.voiceVlan),
          "switchport port-security",
          "switchport port-security maximum 2",
          "switchport port-security violation restrict",
          "switchport port-security aging time 5",
          "switchport port-security aging type inactivity",
          "exit"
        ];
      }
    }
  }

  /** Builds the list of commands for one switch; proved to be exactly the
      specification `Commands`, so every property proved of that function
      holds of what this method returns. */
  method BuildCommands(sw: SwitchConfig, g: GlobalConfig) returns (r: Result<seq<string>>)
    ensures r == Commands(sw, g)
  {
    var commands := ["hostname " + Render(sw.hostname), "no ip domain-lookup"];
    var withVlans := AppendVlans(commands, sw.vlans);
    if withVlans.Failure? {
      return withVlans;
    }
    commands := AppendTrunks(withVlans.value, sw.trunkPorts, sw.vlans);
    commands := AppendAccessPorts(commands, sw.trunkPorts, g);
    ghost var afterPorts := commands;
    // `vlans[management_vlan]` must exist; when its entry has an "ip" key,
    // four lines follow, and a missing "subnet" is then a `KeyError`.
    var mgmt := Lookup(sw.vlans, g.managementVlan);
    if mgmt.None? {
      return Failure(KeyError(g.managementVlan));
    }
    var mgmtVlan := mgmt.value;
    ghost var mgmtLines: seq<string> := [];
    if mgmtVlan.ip.Present? {
      if mgmtVlan.subnet.Absent? {
        return Failure(KeyError(JStr("subnet")));
      }
      commands := commands + [
        "interface vlan " + Render(g.managementVlan),
        "ip address " + Render(mgmtVlan.ip.value) + " " + Render(mgmtVlan.subnet.value),
        "no shutdown",
        "exit"
      ];
      mgmtLines := ManagementBlock(g.managementVlan, mgmtVlan.ip.value, mgmtVlan.subnet.value);
    }
    assert ManagementSection(sw.vlans, g) == Success(mgmtLines);
    assert commands == afterPorts + mgmtLines;
    commands := commands + [
      "line console 0",
      "password " + Render(g.consolePassword),
      "login",
      "exit",
      "line vty 0 4",
      "password " + Render(g.vtyPassword),
      "login",
      "transport input ssh",
      "exit",
      "enable secret " + Render(g.enablePassword),
      "service password-encryption",
      "crypto key generate rsa modulus " + Render(g.sshModulus),
      "ip ssh version 2",
      "wr mem"
    ];
    return Success(commands);
  }
}
