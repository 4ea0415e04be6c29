# Cisco switch console provisioning — a Dafny model

`switch_config.py` configures Cisco switches over a serial console. For each
switch record of a JSON file, `configure_switch` opens the serial port, sends a
four-line handshake (two carriage returns, `enable`, `configure terminal`) and
builds one list of IOS commands:

- the hostname;
- one `vlan`/`name` pair per VLAN;
- a five-line trunk block per trunk port;
- a ten-line access/port-security block for every other port 1..48;
- an optional management-SVI block;
- a fourteen-line block for console, vty, enable secret and SSH, ending in `wr mem`.

It then sends the commands one by one, each followed by a newline, and closes
the port. Any exception is caught and reported.

The model has six modules:

- `Text` (text.dfy): Python's `str()` of an integer and `str.join`/`str.split` on one character, with their inverses.
- `Config` (config.dfy): the configuration records as `json.load` returns them. Each JSON scalar is kept with its type: string, int, bool or `null`. A dictionary key is either absent or present (possibly `null`). The VLAN object keeps its key order. `vlans[key]` is a first-match lookup that only a string key can satisfy. `Render` prints a value the way an f-string placeholder does (Python's `str()`): `null` as `None`, booleans as `True`/`False`, ints in decimal, strings as they are. That is why a `null` management ip yields `ip address None ...`.
- `CommandSpec` (command_spec.dfy): the command list as a function `Commands` of the two records, section by section. `Commands` returns the list, or the `KeyError` Python would raise. The file also holds the lemmas about the list's layout.
- `Builder` (builder.dfy): the builder as the source writes it. It grows one sequence, with one loop per source loop, and `BuildCommands` is proved equal to `Commands`.
- `Transport` (transport.dfy): the serial port as a class that records every write and the wait it asks for. It also holds the handshake, the send loop and `configure_switch` itself, with the trace of writes it produces.
- `SampleConfig` (sample.dfy): the configuration used by the repository's tests, and the commands the model produces for it.

## Model

| member | source | states |
|---|---|---|
| Text.NatToString | switch_config.py:49 | the decimal rendering of a port number is a non-empty digit string with no leading zero (unless the number is 0) |
| Text.DecimalRoundTrip | switch_config.py:49 | reading the rendered digits back gives the number: the rendering loses nothing |
| Text.NatToStringInjective | switch_config.py:49 | two numbers render the same exactly when they are equal |
| Text.SplitJoinRoundTrip | switch_config.py:44 | splitting a join at its separator gives the original pieces back, in order, when no piece contains the separator |
| Config.Lookup | switch_config.py:64-65 | `vlans[key]` succeeds exactly when the key is a string that is one of the VLAN ids; the entry found is that id's entry |
| CommandSpec.PortNameInjective | switch_config.py:49 | distinct port numbers give distinct interface names `GigabitEthernet0/<n>` |
| CommandSpec.VlanSectionShape | switch_config.py:35-37 | the VLAN section has 2 lines per VLAN: `vlan <id>` then `name <name>` for the k-th VLAN, in key order |
| CommandSpec.TrunkSectionShape | switch_config.py:39-46 | the trunk section is 5 lines per trunk port, the k-th block configuring the k-th trunk port |
| CommandSpec.AccessSectionShape | switch_config.py:48-62 | the port loop emits 10 lines per access port, the j-th block for the j-th access port |
| CommandSpec.AccessPortsExactly | switch_config.py:48-50 | port m gets an access block iff 1 <= m <= n and its name is not a trunk port; access ports come in strictly ascending order |
| CommandSpec.EveryPortConfiguredOnce | switch_config.py:39-62 | a port 1..48 is a trunk port iff it is not an access port; in a built list a trunk port's name opens one of the trunk blocks and any other port's name opens one of the access blocks |
| CommandSpec.AllowedVlansExactlyIds | switch_config.py:44 | when no VLAN id contains a comma, the allowed-VLAN list splits back into exactly the VLAN ids in key order, none repeated; it is empty when there are no VLANs |
| CommandSpec.CommandsLength | switch_config.py:30-88 | a built list has 2 + 2V + 5T + 10A + (4 if the management entry has "ip") + 14 commands |
| CommandSpec.CommandsBeginWithHostnameAndVlans | switch_config.py:30-37 | the list opens with `hostname <h>` and `no ip domain-lookup`, then every VLAN's two lines at positions 2+2k and 3+2k |
| CommandSpec.CommandsTrunkBlocks | switch_config.py:39-46 | after the VLAN lines, the k-th five-line block is the trunk block of the k-th trunk port, allowing every VLAN id |
| CommandSpec.CommandsAccessBlocks | switch_config.py:48-62 | after the trunk blocks, the j-th ten-line block configures the j-th access port with the data and voice VLANs |
| CommandSpec.ManagementBlockIffIp | switch_config.py:64-71 | the four management lines stand right before the closing block iff the management entry has an "ip" key; otherwise nothing stands there |
| CommandSpec.ClosingBlockLast | switch_config.py:73-88 | the last 14 commands are the console/vty/secret/SSH block, and the last is `wr mem` |
| CommandSpec.BuildFailsExactly | switch_config.py:35-68 | the build fails iff a VLAN has no "name", the management VLAN is not a key, or its entry has "ip" but no "subnet"; it raises the `KeyError` for the first of these |
| Builder.AppendVlans | switch_config.py:35-37 | the VLAN loop succeeds iff every entry has a name, appending exactly the VLAN section; otherwise it fails with `KeyError('name')` |
| Builder.AppendTrunks | switch_config.py:39-46 | the trunk loop appends exactly the trunk section for the configured ports |
| Builder.AppendAccessPorts | switch_config.py:48-62 | the port loop over 1..48 appends exactly the access section |
| Builder.BuildCommands | switch_config.py:30-88 | the imperative builder (the loops above, then the management lookup and block inline, then the closing block) returns exactly `Commands`: the same list, or the same error |
| Transport.SerialLink.Open | switch_config.py:23 | a freshly opened port is open and has nothing written |
| Transport.SerialLink.SendCommand | switch_config.py:13-15 | one write of the command plus a newline, with its wait, is appended to the port's record |
| Transport.SerialLink.Close | switch_config.py:94 | closing changes nothing written and leaves the port closed |
| Transport.SendHandshake | switch_config.py:25-28 | the four handshake lines are written in order, each asking for a 3-second wait |
| Transport.SendAll | switch_config.py:90-91 | every command is written in list order, each asking for the default 2-second wait |
| Transport.ConfigureSwitch | switch_config.py:20-97 | the port's writes are exactly the trace; on success the port ends closed, after a `KeyError` it stays open; a port that cannot be opened gets no writes |
| Transport.TraceOfShape | switch_config.py:25-28 | every trace starts with the four handshake writes (the third is `enable\n`), followed by the commands in order on success and by nothing on failure |
| Transport.TraceShape | switch_config.py:25-91 | a failed build sends only the handshake; a successful one sends every command and ends with `wr mem\n` |
| Transport.StreamSplitsIntoCommands | switch_config.py:14 | cutting the byte stream of framed writes at newlines gives the commands back, when no command contains a newline |
| Transport.TraceReadsBackAsCommands | switch_config.py:90-91 | when no built command contains a newline, the console, cutting what it receives at newlines, reads the handshake lines and then the built commands |
| SampleConfig.SampleConfigCommands | tests/test_switch_config.py:108-133 | for the test configuration the build succeeds. The list holds `hostname Switch1`, `vlan 10`/`name DATA`, the trunk block for GigabitEthernet0/1 (and no access block for port 1), and `interface vlan 99` and `ip address 192.168.99.2 255.255.255.0` before the closing block. It ends in `wr mem`, and `enable` and `configure terminal` are written first |

Behaviour of the code worth knowing, which the model follows:

- The port loop always walks ports 1..48 (`TOTAL_PORTS`, line 7). The global `total_ports` key is never read.
- The management block is guarded by the presence of an "ip" key (line 64), not by "ip and subnet both set":
  - an "ip" of `null` yields `ip address None ...`;
  - an "ip" without a "subnet" raises `KeyError('subnet')` (line 68).
- `data_vlan` and `voice_vlan` are never checked against the VLAN keys (lines 54-55 only render them). A build whose data VLAN is not a key still succeeds, as `BuildFailsExactly` shows; no error is raised for it.
- Trunk membership is exact string equality with the generated name `GigabitEthernet0/<n>` (lines 49-50). A trunk listed under another spelling, such as `Gi0/1`, does not exclude port 1: that port then gets both a trunk block and an access block.
- A missing management VLAN raises `KeyError`, and so does a missing VLAN name. The handler at lines 96-97 catches either error, after the handshake has already been written. The test at tests/test_switch_config.py:151 expects a serial-open error to propagate, but the same handler catches it too.

## Left out

- Reading the switch's reply (`inWaiting`/`read`/`decode`, lines 16-18) and the sleeps are not modelled. Only the requested wait is recorded, because timing and device output are outside the program.
- `print` and `input` output (lines 17, 22, 93, 97, 104) are not modelled, because they are operator I/O with no effect on what is sent.
- `load_config` and the module-level driver (lines 9-11, 99-104) are left out. They are file I/O and an operator-paced loop over `configure_switch`.
- Opening the serial port is modelled only as success or failure (`portAvailable`). `SERIAL_PORT`, `BAUD_RATE` and the timeout (lines 5-6, 23) are device parameters.
- Bytes and `encode()` (line 14) are not modelled: writes are kept as character strings, with no UTF-8 encoding.
- JSON floats, nested values and duplicate object keys are not modelled. VLAN lookup takes the first matching key.
- A missing key in the global record or in the switch record (`hostname`, `vlans`, `trunk_ports`) is not modelled: those fields are always present in the records. Only the keys the builder looks up conditionally can be absent: a VLAN's "name", "ip" and "subnet", and the management VLAN's entry.
- Transport.StreamSplitsIntoCommands: holds only for commands without a newline. A configuration value containing one is sent as two console lines.
