/** The configuration records the builder reads: one switch record and the
    global record, as `json.load` hands them over. JSON scalars keep their
    type, because the f-strings render them with Python's `str()` and the
    management-VLAN lookup compares them with dictionary keys. */
module Config {
  import opened Text

  /** A JSON scalar as Python sees it after `json.load` (floats are not modelled). */
  datatype Json = JNull | JBool(b: bool) | JInt(i: int) | JStr(s: string)

  /** What an f-string placeholder prints for a value: Python's `str()`. */
  function Render(v: Json): string {
    match v
    case JNull => "None"
    case JBool(b) => if b then "True" else "False"
    case JInt(i) => IntToString(i)
    case JStr(s) => s
  }

  /** A key of a JSON object: missing altogether, or present with a value
      (which may be `null`). */
  datatype Field = Absent | Present(value: Json)

  /** One entry of a switch's "vlans" object. */
  datatype VlanInfo = VlanInfo(name: Field, ip: Field, subnet: Field)

  /** The "vlans" object in the order `json.load` keeps its keys (insertion order). */
  type VlanMap = seq<(string, VlanInfo)>

  /** One element of the "switches" list. */
  datatype SwitchConfig = SwitchConfig(hostname: Json, vlans: VlanMap, trunkPorts: seq<Json>)

  /** The "global" object; the keys the builder never reads (serial port,
      baud rate, total_ports) are not part of the record. */
  datatype GlobalConfig = GlobalConfig(
    dataVlan: Json,
    voiceVlan: Json,
    managementVlan: Json,
    consolePassword: Json,
    vtyPassword: Json,
    enablePassword: Json,
    sshModulus: Json)

  datatype Option<T> = None | Some(value: T)

  /** The VLAN ids in mapping order: `vlans.keys()`. */
  function VlanIds(vlans: VlanMap): seq<string> {
    seq(|vlans|, k requires 0 <= k < |vlans| => vlans[k].0)
  }

  /** A Python dict never holds a key twice. */
  predicate DistinctIds(vlans: VlanMap) {
    forall i, j :: 0 <= i < j < |vlans| ==> vlans[i].0 != vlans[j].0
  }

  /** Every VLAN entry has a "name" key. */
  predicate AllNamed(vlans: VlanMap) {
    forall k :: 0 <= k < |vlans| ==> vlans[k].1.name.Present?
  }

  /** `vlans[key]`: found exactly when the key is a string that is one of the
      ids (object keys are always strings, so an int or null key never
      matches), and then it is that id's entry. */
  function Lookup(vlans: VlanMap, key: Json): (r: Option<VlanInfo>)
    ensures r.Some? <==> key.JStr? && key.s in VlanIds(vlans)
    ensures r.Some? ==> exists k :: 0 <= k < |vlans| && vlans[k] == (key.s, r.value)
  {
    if vlans == [] then None
    else if key == JStr(vlans[0].0) then
      assert VlanIds(vlans)[0] == vlans[0].0;
      Some(vlans[0].1)
    else
      assert VlanIds(vlans) == [vlans[0].0] + VlanIds(vlans[1..]);
      var r := Lookup(vlans[1..], key);
      assert r.Some? ==> exists k :: 0 <= k < |vlans| && vlans[k] == (key.s, r.value) by {
        if r.Some? {
          var k :| 0 <= k < |vlans| - 1 && vlans[1..][k] == (key.s, r.value);
          assert vlans[k + 1] == (key.s, r.value);
        }
      }
      r
  }
}
