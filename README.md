# Cisco IOS configuration generators, modelled in Dafny

This project models the two command-line generators of Cisco IOS configuration text:

- **The interface generator** (`csint.py`) covers the `cs_Interface` record and its setters. It converts a CIDR prefix to a dotted-decimal netmask (`get_mask`) and renders one interface's configuration (`output`). It also covers the script body that calls the setters in a fixed order and may append ` exit`.
- **The device bootstrap generator** (`csinit.py`) covers the `cs_Config` record and its `conf_*` setters. It renders the global settings (`gen_vty`, `output`): host name and banner, domain, IPv6 routing, enable secret and console, and the VTY lines with optional SSH. It also covers the script's choice of VTY transport from its telnet, ssh and login options.

## Structure

| file | module | contents |
|---|---|---|
| `text.dfy` | `Text` | Decimal formatting and parsing, Python's substring test, ASCII lower-casing, and splitting at a separator. |
| `netmask.dfy` | `Netmask` | `get_mask` as a loop-based method, with a bit-level reference definition of the mask. |
| `interface.dfy` | `InterfaceGen` | The `cs_Interface` class, its rendered lines, and the interface script. |
| `bootstrap.dfy` | `Bootstrap` | The `cs_Config` class, its rendered blocks, the transport choice, and the bootstrap script. |

Rendered text is specified through a structured reference.

- An interface is a sequence of `Line` values and a device is a sequence of `Block` values. Each has a `Format` that gives its text and a `Rank` that gives its position.
- The Python code builds its output with `+=`. The model proves that this text equals `Render` of the reference sequence.
- Presence, absence, order and content of every line are then stated about the sequence.

Objects that the source updates in place are Dafny classes (`InterfaceConfig`, `DeviceConfig`).

- Each setter's `ensures` states the whole new record: `Fields() == old(Fields()).(field := value)`. So it also states that nothing else changes.
- The interface renderer is a method that appends line by line, as the source does.
- `get_mask` builds its mask with two loops, as the source does.
- `gen_vty` and the bootstrap `output` contain no loop, so they are pure functions of the record.

### Behaviour of the source worth knowing

- **Non-numeric prefix.** A prefix that is not an integer yields `255.255.255.0` with a diagnostic, not the host mask (csint.py:64-68).
- **Prefix 0.** A prefix of 0 yields `255.255.255.255`, as every out-of-range prefix does (csint.py:70-71).
- **When the SSH diagnostic fires.** It fires only when `ssh` is requested and login is not local (csinit.py:88-89). It does not fire when login is local but no domain is set: then SSH is silently left out.
- **Port security.** It writes no line of its own. It only forces access mode (csint.py:121-124).
- **Address text.** An address whose text before the slash is empty (`-4 /24`) gives an empty `ipv4`, so no `ip address` line is written.

## Model

| member | source | states |
|---|---|---|
| Netmask.GetMask | csint.py:59-82 | The loops build exactly the reference mask `MaskOf(cidr)`. The diagnostic is raised iff the prefix does not parse. For 1..31 the text is `N div 8` copies of `255.`, then the decimal of `256 - 2^(8 - N mod 8)`, then `3 - N div 8` copies of `.0`. |
| Netmask.PrefixMaskShape | csint.py:73-81 | For 1..31, the reference mask (the dotted octets of N one bits then zeros) is exactly the three-part text the source builds. |
| Netmask.MaskOctets | csint.py:73-77 | The octets of N leading one bits in 32 are `N div 8` octets of 255, then `256 - 2^(8 - N mod 8)`, then zeros. |
| Netmask.PrefixMaskValue | csint.py:59-82 | For 1..31, the four octets read as one 32-bit number equal `2^32 - 2^(32-N)`, i.e. N leading ones followed by zeros. |
| Netmask.LeadingOnesValue | csint.py:77 | A run of a ones followed by w - a zeros is worth `2^w - 2^(w-a)`. |
| Netmask.PrefixMaskFourOctets | csint.py:69-82 | Every mask, for any integer prefix, splits at its dots into exactly four decimal fields, each in 0..255. |
| Netmask.PrefixMaskIsDotted | csint.py:69-82 | Every mask is the dotted-decimal text of four octets, each at most 255. |
| Netmask.SplitDotted | csint.py:76-81 | Dotted text of four numbers splits back into their four decimal texts. |
| Netmask.OutOfRangeIsHostMask | csint.py:70-71 | Every prefix ≤ 0 or ≥ 32, 0 included, gives `255.255.255.255`. |
| Netmask.MaskOfIntText | csint.py:64-82 | The decimal text of any integer prefix parses, with no diagnostic, to the mask of that prefix. |
| Netmask.OutOfRangeTextIsHostMask | csint.py:64-71 | Prefix text naming any integer of 0 or less, or of 32 or more, gives `255.255.255.255` with no diagnostic. |
| Netmask.WholeOctetShape | csint.py:73-81 | Prefixes 8, 16 and 24 give whole 255 octets, a `0` octet, then `.0` padding. |
| Netmask.EightBitMask | csint.py:59-82 | Prefix 8 gives `255.0.0.0`. |
| Netmask.SixteenBitMask | csint.py:59-82 | Prefix 16 gives `255.255.0.0`. |
| Netmask.TwentyFourBitMask | csint.py:59-82 | Prefix 24 gives `255.255.255.0`. |
| Netmask.PartialOctetMask | csint.py:73-81 | Prefix 25 gives `255.255.255.128`. |
| Netmask.MaskOfTwentyFour | csint.py:64-82 | The text `24`, parsed and converted, gives `255.255.255.0` with no diagnostic. |
| Text.NatToString | csint.py:78 | The decimal text of a natural number is a non-empty run of digits with no leading zero unless the number is 0. The same formatting writes the integer fields at csinit.py:92-97. |
| Text.ParseInt | csint.py:65 | Parsing succeeds iff the text is a run of digits, or a `-` or `+` followed by one. A run of digits parses to its value, and a negative result comes only from a leading `-`. |
| Text.IntToString | csint.py:78 | The decimal text of an integer is non-empty and starts with `-` iff the integer is negative. |
| Text.ParseIntToString | csint.py:65 | Reading back the decimal text of any integer, signed or not, gives that integer. |
| Text.ContainsIff | csinit.py:78-88 | The substring test `pat in s` holds iff `pat` starts at some position of `s`. |
| Text.Lower | csint.py:137 | The lower-cased text has the same length and no capital letter. Each character is kept or is a capital moved to its small letter. |
| Text.SplitOnce | csinit.py:52 | For text with one separator, the two parts contain no separator and rejoin around it to give the text. |
| Text.ParseNatToString | csint.py:65 | Reading back the decimal text of a natural number gives that number. |
| Text.SplitOnceJoin | csint.py:56 | Splitting text joined around one separator gives back both parts. |
| Text.SplitAfter | csint.py:56 | A separator ends the field before it. |
| InterfaceGen.IpCidr | csint.py:55-57 | The address and prefix are the text on either side of the single slash, and joining them around `/` gives back the input. |
| InterfaceGen.IpCidrJoin | csint.py:55-57 | `ip_cidr` takes apart exactly what joining an address and a prefix around a slash puts together. |
| InterfaceGen.InterfaceConfig.constructor | csint.py:30-44 | A new record has the given identifier, empty text fields, no switchport mode, port security off and the no-shutdown state. |
| InterfaceGen.InterfaceConfig.AddIpv4 | csint.py:46-57 | With a slash, the address is the text before it and the mask is `get_mask` of the text after it, with its diagnostic. Without one, the address is the whole text and the mask is the host mask. Nothing else changes. |
| InterfaceGen.InterfaceConfig.AddMask | csint.py:84-86 | Only the mask is replaced. The address is kept, so applying it twice equals applying it once. |
| InterfaceGen.InterfaceConfig.AddDesc | csint.py:88-90 | Only the description changes. |
| InterfaceGen.InterfaceConfig.ConfEncap | csint.py:92-95 | Only the encapsulation changes. |
| InterfaceGen.InterfaceConfig.AddIpv6 | csint.py:97-99 | Only the IPv6 address changes. |
| InterfaceGen.InterfaceConfig.AddLlocal | csint.py:101-103 | Only the link-local address changes. |
| InterfaceGen.InterfaceConfig.ConfAccess | csint.py:105-107 | Only the switchport mode changes, to access. |
| InterfaceGen.InterfaceConfig.ConfNative | csint.py:109-111 | Only the switchport mode changes, to native. |
| InterfaceGen.InterfaceConfig.ConfTrunk | csint.py:113-115 | Only the switchport mode changes, to trunk. |
| InterfaceGen.InterfaceConfig.ConfVlan | csint.py:117-119 | Only the VLAN changes. |
| InterfaceGen.InterfaceConfig.ConfPortsec | csint.py:121-124 | Port security is on and the mode is access, whatever it was before. Nothing else changes. |
| InterfaceGen.InterfaceConfig.NoShut | csint.py:126-128 | Only the administrative state changes. |
| InterfaceGen.Format | csint.py:132-160 | The text of each interface line, word for word as the source's format strings write it: the `interface` header, ` description`, ` encapsulation` with or without the VLAN, ` ip address`, ` ipv6 address` with and without ` link-local`, the switchport mode and VLAN lines, ` no shutdown` or ` shutdown`, and the ` exit` line of csint.py:229-230. |
| InterfaceGen.InterfaceConfig.Output | csint.py:130-161 | The text grown by the successive appends is the text of the record's lines in fixed order. |
| InterfaceGen.AppendEncapsulation | csint.py:135-140 | Appends the encapsulation line when the mode is set. The VLAN is added only for 802.1Q with a VLAN. |
| InterfaceGen.AppendAddresses | csint.py:141-146 | Appends the IPv4, IPv6 and link-local lines, each when its field is set. |
| InterfaceGen.AppendSwitchport | csint.py:147-156 | Appends the mode line (trunk for trunk and native modes), then the native or access VLAN when one is set. |
| InterfaceGen.RenderLines | csint.py:130-161 | The text of the lines is the header, then the description, encapsulation, address and switchport blocks, then the administrative state. |
| InterfaceGen.LinesInOrder | csint.py:130-161 | Lines come in strictly increasing rank, so each kind appears at most once and in the source's order. The header is first and the administrative state last. |
| InterfaceGen.AddressLinesInOrder | csint.py:141-146 | The address lines come as IPv4, IPv6, link-local. |
| InterfaceGen.HeadLinesInOrder | csint.py:132-140 | The header comes before the description, which comes before the encapsulation. |
| InterfaceGen.TextBoundaries | csint.py:132-160 | The text starts with `interface <id>\n` and ends with ` no shutdown\n`, or ` shutdown\n` when the interface was shut. |
| InterfaceGen.DescriptionLine | csint.py:133-134 | The description line is present iff the description is non-empty. |
| InterfaceGen.DescriptionCarried | csint.py:133-134 | Any description line carries the record's description. |
| InterfaceGen.Ipv4LinePresent | csint.py:141-142 | The `ip address` line, with the address and mask, is present iff the address is non-empty. |
| InterfaceGen.Ipv6LinePresent | csint.py:143-144 | The IPv6 line is present iff the IPv6 address is non-empty. |
| InterfaceGen.LinkLocalLinePresent | csint.py:145-146 | The link-local line is present iff the link-local address is non-empty. |
| InterfaceGen.AddressLinesCarry | csint.py:141-146 | Every address line written carries the record's own values. |
| InterfaceGen.Dot1qSpellings | csint.py:137 | The encapsulation counts as 802.1Q iff it is five characters, each the small or capital form of the matching character of `dot1q`. |
| InterfaceGen.EncapsulationLine | csint.py:135-140 | An encapsulation line is present iff the encapsulation is set. It carries the VLAN iff the mode lower-cases to `dot1q` and a VLAN is set. |
| InterfaceGen.EncapsulationCarries | csint.py:135-140 | Any encapsulation line names the record's mode. A VLAN on it is the record's, and appears only for 802.1Q. |
| InterfaceGen.SwitchportModeLine | csint.py:147-156 | `switchport mode trunk` appears iff the mode is trunk or native, and `switchport mode access` iff the mode is access. |
| InterfaceGen.SwitchportVlanLine | csint.py:149-156 | The native VLAN line appears iff the mode is native and a VLAN is set. The access VLAN line appears iff the mode is access and a VLAN is set. |
| InterfaceGen.VlanCarried | csint.py:149-156 | The only VLAN lines written are the record's own, and only under their own mode. |
| InterfaceGen.ModeOf | csint.py:205-221 | The switchport mode the script leaves: access under port security, else trunk, native or access by the last mode setter called, else none. |
| InterfaceGen.AddressOf | csint.py:183-189 | The address and mask the script leaves: nothing without `-4`. With it, the `-m` mask if given, else the mask of the prefix after the slash, else the host mask. |
| InterfaceGen.Configured | csint.py:181-224 | The record after the script's setters: each text option copied, the address and mode as above, and the shutdown flag inverted. |
| InterfaceGen.Generate | csint.py:181-230 | The setters, called in the script's order, return the text of the script's lines. The diagnostic is `get_mask`'s. |
| InterfaceGen.ApplyAddress | csint.py:183-189 | The address and its mask are set from `-4`. The explicit `-m` mask replaces the mask only when `-4` was given. |
| InterfaceGen.ApplyOptional | csint.py:191-202 | The description, encapsulation, IPv6 and link-local options set only their own fields. |
| InterfaceGen.ApplyModes | csint.py:204-216 | Access, native and trunk are applied in that order, then the VLAN. |
| InterfaceGen.ApplyFlags | csint.py:218-224 | Port security forces access mode, and `-X` shuts the interface. |
| InterfaceGen.ExitSuffix | csint.py:228-230 | With ` exit` requested, the text is the interface text followed by ` exit\n`. Otherwise it is the interface text unchanged. |
| InterfaceGen.RenderExit | csint.py:229-230 | Appending the exit line appends ` exit\n`. |
| InterfaceGen.PortsecForcesAccess | csint.py:205-221 | With port security, the access mode line is written and no trunk or native-VLAN line is, whatever mode flags were given. |
| InterfaceGen.PortsecAsAccess | csint.py:219-221 | Port security writes no line of its own. The text is the text of the same options with access mode. |
| InterfaceGen.LinesIgnorePortsec | csint.py:130-161 | The port-security flag never affects the rendered lines. |
| InterfaceGen.ModeFlagsLastWins | csint.py:205-213 | Among the mode flags the later setter wins: trunk over native over access. |
| InterfaceGen.ExplicitMaskWins | csint.py:183-189 | With `-4` and `-m`, every IPv4 line carries the explicit mask. |
| InterfaceGen.NetmaskIgnoredWithoutAddress | csint.py:183-189 | Without `-4`, the `-m` mask changes nothing and no IPv4 line is written. |
| InterfaceGen.CidrAddressLine | csint.py:46-57 | With `-4 A/N` and no `-m`, the IPv4 line holds A and `get_mask(N)` whenever A is non-empty. |
| InterfaceGen.CidrScenario | csint.py:181-230 | `<iface> -4 10.0.0.1/24` renders the header, `ip address 10.0.0.1 255.255.255.0` and `no shutdown`, and nothing else. |
| InterfaceGen.AccessVlanScenario | csint.py:205-216 | `-sA -v 10` writes `switchport mode access` directly followed by `switchport access vlan 10`. |
| Bootstrap.Initial | csinit.py:31-48 | The default record: the three given settings, no domain, IPv6 routing on, no user, password `cisco`, login `login`, transport `none`, timeout 5, no Packet Tracer syntax, modulus 2048. |
| Bootstrap.DeviceConfig.constructor | csinit.py:31-48 | The record holds the given host name, console password and enable secret, and every other setting at its default: no domain, IPv6 routing on, no user, password `cisco`, login `login`, transport `none`, timeout 5, no Packet Tracer syntax, modulus 2048. |
| Bootstrap.WithLogin | csinit.py:50-58 | The credentials are the two sides of the colon. The login mode is `login local` iff the user part is non-empty, else `login`. No other setting changes. |
| Bootstrap.DeviceConfig.ConfLogin | csinit.py:50-58 | The record becomes `WithLogin` of the old record. |
| Bootstrap.DeviceConfig.ConfIpv6ur | csinit.py:60-61 | Only IPv6 routing changes. |
| Bootstrap.DeviceConfig.ConfDomain | csinit.py:63-64 | Only the domain changes. |
| Bootstrap.DeviceConfig.ConfVty | csinit.py:66-67 | Only the transport changes. |
| Bootstrap.DeviceConfig.ConfPktracer | csinit.py:69-70 | Only the key-generation syntax changes. |
| Bootstrap.BannerText | csinit.py:110-115 | The host name line, `no ip domain-lookup`, `service password-encryption` and the login banner. This is the source's literal block after `textwrap.dedent`, with the trailing whitespace-only line dropped. |
| Bootstrap.CredentialsText | csinit.py:121-130 | The enable secret, the console line with its password, `logging synchronous`, `login` and the timeout, and the auxiliary line with `no exec`. This is the literal block after `textwrap.dedent`, with the trailing whitespace-only line dropped; the timeout is written as decimal text. |
| Bootstrap.UsernameText | csinit.py:76 | The local user name line with its scrypt secret. |
| Bootstrap.KeyText | csinit.py:81-86 | RSA key generation: with Packet Tracer syntax the modulus goes on the next line; otherwise it is the `modulus` argument. No newline follows the modulus. |
| Bootstrap.VtyLinesText | csinit.py:92-97 | The `line vty 0 15` block with `logging synchronous`, the timeout and `transport input` with the transport. This is the literal block after `textwrap.dedent`, with the trailing whitespace-only line dropped. |
| Bootstrap.Format | csinit.py:72-132 | The text of each block: the four templates above, the domain and IPv6 routing lines of csinit.py:116-119, `\nip ssh version 2\n`, and the three access-control tails of csinit.py:98-104. |
| Bootstrap.GenVty | csinit.py:72-105 | The VTY text is the text of the VTY blocks in order: the user name block, the key and SSH version blocks, the VTY lines, and the access-control tail. The diagnostic is raised iff `ssh` occurs in the transport and login is not local, and when it is raised neither a user name nor any SSH block is written. |
| Bootstrap.TailText | csinit.py:98-104 | The tail is ` no login` for `none`. For `telnet` it is ` password <p>\n <login>` under password login, else ` <login>`. For any other transport it is empty. |
| Bootstrap.SshText | csinit.py:78-87 | The SSH text is the key generation (Packet Tracer or device syntax) and then `\nip ssh version 2\n`, exactly when SSH is enabled. |
| Bootstrap.Output | csinit.py:107-132 | The output text is the text of all the record's blocks, in order: the hostname block, the optional domain and IPv6 routing, the credentials, then the VTY blocks. Its diagnostic is raised under the same condition as `gen_vty`'s. |
| Bootstrap.BlockInText | csinit.py:107-132 | Every block written appears, as text, in the output. |
| Bootstrap.BlocksInOrder | csinit.py:107-132 | Blocks come in strictly increasing rank: hostname block first, then domain, IPv6 routing, credentials, user name, key, SSH version, VTY lines and access control, each at most once. |
| Bootstrap.VtyBlocksInOrder | csinit.py:72-105 | Within the VTY part, the user name comes before the key, which comes before the SSH version, the VTY lines and the access-control tail. |
| Bootstrap.OptionalBlocks | csinit.py:116-119 | The domain line appears iff the domain is set. The IPv6 routing line appears iff routing is on. |
| Bootstrap.UsernameBlock | csinit.py:74-76 | The user name line appears iff login is local, and it carries the local credentials. |
| Bootstrap.SshBlocksPresent | csinit.py:78-87 | The key generation and `ip ssh version 2` appear iff login is local, `ssh` occurs in the transport and a domain is set. The key carries the record's modulus and syntax. |
| Bootstrap.WarningExcludesSsh | csinit.py:74-89 | When the diagnostic is raised, no SSH directive and no user name are written. |
| Bootstrap.VtyLinesPresent | csinit.py:91-97 | The VTY lines, with the timeout and the transport, are always written. |
| Bootstrap.AccessControl | csinit.py:98-104 | ` no login` appears iff the transport is `none`. The password-and-login tail appears iff it is `telnet` with password login. The login-mode tail appears iff it is `telnet` with any other login. For other transports the VTY lines come last. |
| Bootstrap.Transport | csinit.py:156-165 | The transport selected is one of `telnet ssh`, `telnet`, `ssh` or `none`. |
| Bootstrap.TransportSsh | csinit.py:156-165 | `ssh` is in the selected transport iff it was asked for and, together with telnet, only with login credentials. |
| Bootstrap.TransportTelnet | csinit.py:156-165 | `telnet` is in the selected transport iff it was asked for. |
| Bootstrap.WithIdentity | csinit.py:147-151 | The domain is set when given, then the credentials are applied through `conf_login` when given. |
| Bootstrap.WithAccess | csinit.py:152-165 | The Packet Tracer syntax and the IPv6 switch are set when asked for. The transport becomes the decision table's value only when telnet or ssh is asked for. |
| Bootstrap.Configured | csinit.py:147-165 | The configured record's transport is the one the decision table selects. |
| Bootstrap.ApplyIdentity | csinit.py:148-151 | The domain, then the credentials, are applied when given. |
| Bootstrap.ApplyAccess | csinit.py:152-165 | The Packet Tracer syntax, the IPv6 switch and the transport branch are applied in the script's order. |
| Bootstrap.Generate | csinit.py:147-169 | The setters, called in the script's order, generate the text of the configured record's blocks with `gen_vty`'s diagnostic. |
| Bootstrap.ConfiguredLogin | csinit.py:150-151 | The script ends with local login iff credentials naming a user were given. |
| Bootstrap.ScriptSsh | csinit.py:147-169 | End to end, SSH is set up iff it is asked for with a domain and credentials naming a user. The diagnostic is raised iff SSH was selected without such credentials. |
| Bootstrap.PlainScenario | csinit.py:147-169 | With no options, the blocks are the hostname block, IPv6 routing, the credentials, and the VTY lines over `none` with ` no login`, and there is no diagnostic. |
| Bootstrap.SshScenario | csinit.py:147-169 | `--domain D --login user:pass --ssh` writes the user name, `crypto key generate rsa modulus 2048`, `ip ssh version 2`, and the VTY lines over `ssh`, with no diagnostic. |

## Left out

- Argument parsing and the final `print` (csint.py:163-179 and 232, csinit.py:134-145 and 171) are I/O. The two `Generate` methods return the text; the newline that `print` adds after it is not modelled. The options are a datatype whose absent values are `""` or `false`; the scripts only test each option for truth.
- The printed diagnostics (`Error` at csint.py:67 and the SSH message at csinit.py:89) are a boolean in the result, not output.
- Text.ParseInt: `int()` is modelled as an optional sign followed by ASCII decimal digits. Surrounding whitespace, underscores between digits and non-ASCII decimal digits, all of which Python also accepts, are not modelled.
- Text.Lower: `str.lower()` is modelled as ASCII lower-casing only. Its one use compares the result with `dot1q` (csint.py:137). No non-ASCII character lower-cases in Python to any character of `dot1q`, so for that comparison the ASCII model is exact; InterfaceGen.Dot1qSpellings states which texts it accepts.
- InterfaceGen.InterfaceConfig.AddIpv4 requires at most one slash. With no slash the source never splits; with several, `split` gives too many parts and the unpacking raises `ValueError`. That exception path is not modelled.
- Bootstrap.DeviceConfig.ConfLogin requires exactly one colon. With none or with several, the unpacking of `split` raises `ValueError` in the source. That exception path is not modelled.
- `textwrap.dedent` is not modelled. The model uses the dedented text it produces for the blocks as written; a value that itself contains line breaks could change the common margin, and that case is not covered.
- The default of `no_shut` is modelled as `true`. In the source the method of the same name shadows the class attribute, so the default is a bound method, which Python treats as true.
- Bootstrap.DeviceConfig: `exec_timeout` and `rsa_mod` have no setter in the source. They keep 5 and 2048, which are written with the decimal formatting of `str`.
- Bootstrap.GenVty and Bootstrap.Output are pure functions of a snapshot of the record, because the source methods only read fields and concatenate strings.
- InterfaceGen.InterfaceConfig.Output renders a snapshot of the fields. Its encapsulation, address and switchport parts are separate methods over that snapshot, each appending its lines in the source's order.
- The other near-duplicate interface scripts of the repository are not part of this model.
