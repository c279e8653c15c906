/** The interface configuration generator: a record of one interface's
    settings that setter methods update (`cs_Interface`), the renderer
    that turns it into IOS interface-mode text, and the order in which
    the command-line script applies the setters.

    The rendered text is specified by a list of structured `Line`s: the
    renderer's output is the concatenation of their fixed formats, and
    the ordering and presence properties are stated on that list. */
module InterfaceGen {
  import opened Text
  import opened Netmask

  /** `sw_mode`: unset, or the last switchport mode requested. */
  datatype SwitchMode = NoMode | Access | Native | Trunk

  /** A snapshot of every field of an interface record. */
  datatype Interface = Interface(
    ident: string,
    desc: string,
    encap: string,
    ipv4: string,
    netmask: string,
    ipv6: string,
    linklocal: string,
    noShutdown: bool,
    swMode: SwitchMode,
    vlan: string,
    portsec: bool)

  /** One line of interface configuration. */
  datatype Line =
    | InterfaceHeader(ident: string)
    | Description(text: string)
    | Encapsulation(mode: string, tag: Option<string>)
    | IpAddress(address: string, mask: string)
    | Ipv6Address(address: string)
    | LinkLocal(address: string)
    | SwitchportMode(trunk: bool)
    | NativeVlan(vlan: string)
    | AccessVlan(vlan: string)
    | AdminState(up: bool)
    | Exit

  /** The IOS text of each line. */
  function Format(l: Line): string {
    match l
    case InterfaceHeader(id) => "interface " + id + "\n"
    case Description(d) => " description " + d + "\n"
    case Encapsulation(m, tag) =>
      if tag.Some? then " encapsulation " + m + " " + tag.value + "\n" else " encapsulation " + m + "\n"
    case IpAddress(a, m) => " ip address " + a + " " + m + "\n"
    case Ipv6Address(a) => " ipv6 address " + a + "\n"
    case LinkLocal(a) => " ipv6 address " + a + " link-local\n"
    case SwitchportMode(trunk) =>
      if trunk then " switchport mode trunk\n" else " switchport mode access\n"
    case NativeVlan(v) => " switchport trunk native vlan " + v + "\n"
    case AccessVlan(v) => " switchport access vlan " + v + "\n"
    case AdminState(up) => if up then " no shutdown\n" else " shutdown\n"
    case Exit => " exit\n"
  }

  /** The text of a list of lines, one after the other. */
  function Render(ls: seq<Line>): string {
    if ls == [] then "" else Render(ls[..|ls| - 1]) + Format(ls[|ls| - 1])
  }

  lemma RenderSnoc(ls: seq<Line>, l: Line)
    ensures Render(ls + [l]) == Render(ls) + Format(l)
  {
    assert (ls + [l])[..|ls|] == ls;
  }

  /** Position of each kind of line in interface text. */
  function Rank(l: Line): nat {
    match l
    case InterfaceHeader(_) => 0
    case Description(_) => 1
    case Encapsulation(_, _) => 2
    case IpAddress(_, _) => 3
    case Ipv6Address(_) => 4
    case LinkLocal(_) => 5
    case SwitchportMode(_) => 6
    case NativeVlan(_) => 7
    case AccessVlan(_) => 8
    case AdminState(_) => 9
    case Exit => 10
  }

  /** Every kind of line comes after the kinds ranked before it, and no
      kind occurs twice. */
  predicate InOrder(ls: seq<Line>) {
    forall j, k | 0 <= j < k < |ls| :: Rank(ls[j]) < Rank(ls[k])
  }

  /** Whether the encapsulation is 802.1Q, compared case-insensitively. */
  predicate IsDot1q(encap: string) {
    Lower(encap) == "dot1q"
  }

  /** The encapsulation names 802.1Q exactly when it is `dot1q` spelled
      with any mix of capital and small letters. */
  lemma Dot1qSpellings(e: string)
    ensures IsDot1q(e) <==> |e| == 5 && forall k | 0 <= k < 5 :: e[k] == "dot1q"[k] || e[k] == "DOT1Q"[k]
  {
    if IsDot1q(e) {
      forall k | 0 <= k < 5
        ensures e[k] == "dot1q"[k] || e[k] == "DOT1Q"[k]
      {
        assert LowerChar(e[k]) == Lower(e)[k] == "dot1q"[k];
      }
    }
    if |e| == 5 && forall k | 0 <= k < 5 :: e[k] == "dot1q"[k] || e[k] == "DOT1Q"[k] {
      forall k | 0 <= k < 5
        ensures Lower(e)[k] == "dot1q"[k]
      {
        assert Lower(e)[k] == LowerChar(e[k]);
      }
      assert Lower(e) == "dot1q";
    }
  }

  function DescriptionLines(i: Interface): seq<Line> {
    if i.desc != "" then [Description(i.desc)] else []
  }

  /** The VLAN rides on the encapsulation line only for 802.1Q. */
  function EncapsulationLines(i: Interface): seq<Line> {
    if i.encap == "" then []
    else if IsDot1q(i.encap) && i.vlan != "" then [Encapsulation(i.encap, Some(i.vlan))]
    else [Encapsulation(i.encap, None)]
  }

  function AddressLines(i: Interface): seq<Line> {
    (if i.ipv4 != "" then [IpAddress(i.ipv4, i.netmask)] else [])
    + (if i.ipv6 != "" then [Ipv6Address(i.ipv6)] else [])
    + (if i.linklocal != "" then [LinkLocal(i.linklocal)] else [])
  }

  /** The switchport block: the mode line, then the VLAN when one is set
      and the mode uses it. */
  function SwitchportLines(i: Interface): seq<Line> {
    match i.swMode
    case NoMode => []
    case Trunk => [SwitchportMode(true)]
    case Native => [SwitchportMode(true)] + (if i.vlan != "" then [NativeVlan(i.vlan)] else [])
    case Access => [SwitchportMode(false)] + (if i.vlan != "" then [AccessVlan(i.vlan)] else [])
  }

  /** The lines of an interface record, in the order `output` writes them;
      each optional line is there when its field is non-empty. */
  function Lines(i: Interface): seq<Line> {
    [InterfaceHeader(i.ident)] + DescriptionLines(i) + EncapsulationLines(i) + AddressLines(i)
    + SwitchportLines(i) + [AdminState(i.noShutdown)]
  }

  lemma {:induction false} RenderAppend(a: seq<Line>, b: seq<Line>)
    ensures Render(a + b) == Render(a) + Render(b)
    decreases |b|
  {
    if b == [] {
      assert a + b == a;
    } else {
      var b' := b[..|b| - 1];
      assert (a + b)[..|a + b| - 1] == a + b';
      RenderAppend(a, b');
      Associative(Render(a), Render(b'), Format(b[|b| - 1]));
    }
  }

  /** The text of an interface record, block by block. */
  lemma RenderLines(i: Interface)
    ensures Render(Lines(i))
      == Format(InterfaceHeader(i.ident)) + Render(DescriptionLines(i)) + Render(EncapsulationLines(i))
         + Render(AddressLines(i)) + Render(SwitchportLines(i)) + Format(AdminState(i.noShutdown))
  {
    var h := [InterfaceHeader(i.ident)];
    var d := DescriptionLines(i);
    var e := EncapsulationLines(i);
    var a := AddressLines(i);
    var w := SwitchportLines(i);
    var z := [AdminState(i.noShutdown)];
    calc {
      Render(Lines(i));
      Render(h + d + e + a + w + z);
      { RenderAppend(h + d + e + a + w, z); RenderOne(AdminState(i.noShutdown)); }
      Render(h + d + e + a + w) + Format(AdminState(i.noShutdown));
      { RenderAppend(h + d + e + a, w); }
      Render(h + d + e + a) + Render(w) + Format(AdminState(i.noShutdown));
      { RenderAppend(h + d + e, a); }
      Render(h + d + e) + Render(a) + Render(w) + Format(AdminState(i.noShutdown));
      { RenderAppend(h + d, e); }
      Render(h + d) + Render(e) + Render(a) + Render(w) + Format(AdminState(i.noShutdown));
      { RenderAppend(h, d); RenderOne(InterfaceHeader(i.ident)); }
      Format(InterfaceHeader(i.ident)) + Render(d) + Render(e) + Render(a) + Render(w) + Format(AdminState(i.noShutdown));
    }
  }

  lemma RenderOne(l: Line)
    ensures Render([l]) == Format(l)
  {
    RenderSnoc([], l);
  }

  /** Appending an optional line: nothing, or the text of the one line. */
  lemma OptionalStep(o: string, o': string, c: bool, l: Line)
    requires o' == if c then o + Format(l) else o
    ensures o' == o + Render(if c then [l] else [])
  {
    RenderOne(l);
    assert o + "" == o;
  }

  /** Appending the three optional address lines one after the other. */
  lemma AddressStep(o: string, o1: string, o2: string, o3: string, i: Interface)
    requires o1 == if i.ipv4 != "" then o + Format(IpAddress(i.ipv4, i.netmask)) else o
    requires o2 == if i.ipv6 != "" then o1 + Format(Ipv6Address(i.ipv6)) else o1
    requires o3 == if i.linklocal != "" then o2 + Format(LinkLocal(i.linklocal)) else o2
    ensures o3 == o + Render(AddressLines(i))
  {
    var p := if i.ipv4 != "" then [IpAddress(i.ipv4, i.netmask)] else [];
    var q := if i.ipv6 != "" then [Ipv6Address(i.ipv6)] else [];
    var r := if i.linklocal != "" then [LinkLocal(i.linklocal)] else [];
    OptionalStep(o, o1, i.ipv4 != "", IpAddress(i.ipv4, i.netmask));
    OptionalStep(o1, o2, i.ipv6 != "", Ipv6Address(i.ipv6));
    OptionalStep(o2, o3, i.linklocal != "", LinkLocal(i.linklocal));
    RenderAppend(p, q);
    RenderAppend(p + q, r);
    Associative(o, Render(p), Render(q));
    Associative(o, Render(p) + Render(q), Render(r));
  }

  /** Appending the switchport block: a mode line and possibly a VLAN line. */
  lemma SwitchportStep(o: string, o1: string, o2: string, i: Interface)
    requires o1 == if i.swMode == NoMode then o else o + Format(SwitchportMode(i.swMode != Access))
    requires o2 == if i.swMode == Native && i.vlan != "" then o1 + Format(NativeVlan(i.vlan))
      else if i.swMode == Access && i.vlan != "" then o1 + Format(AccessVlan(i.vlan))
      else o1
    ensures o2 == o + Render(SwitchportLines(i))
  {
    var m := SwitchportMode(i.swMode != Access);
    var v := if i.swMode == Native then NativeVlan(i.vlan) else AccessVlan(i.vlan);
    if i.swMode != NoMode && i.swMode != Trunk {
      var tail := if i.vlan != "" then [v] else [];
      assert SwitchportLines(i) == [m] + tail;
      OptionalStep(o1, o2, i.vlan != "", v);
      RenderAppend([m], tail);
      RenderOne(m);
      Associative(o, Format(m), Render(tail));
    } else {
      RenderOne(m);
      assert o + "" == o;
    }
  }

  /** `output`'s appends, block by block, build the text of the record's
      lines. */
  lemma OutputSteps(i: Interface, o0: string, o1: string, o2: string, o3: string, o4: string,
                    o5: string)
    requires o0 == Format(InterfaceHeader(i.ident))
    requires o1 == if i.desc != "" then o0 + Format(Description(i.desc)) else o0
    requires o2 == o1 + Render(EncapsulationLines(i))
    requires o3 == o2 + Render(AddressLines(i))
    requires o4 == o3 + Render(SwitchportLines(i))
    requires o5 == o4 + Format(AdminState(i.noShutdown))
    ensures o5 == Render(Lines(i))
  {
    OptionalStep(o0, o1, i.desc != "", Description(i.desc));
    RenderLines(i);
  }

  /** Every line of `ls` ranks below `m`. */
  predicate Below(ls: seq<Line>, m: nat) {
    forall k | 0 <= k < |ls| :: Rank(ls[k]) < m
  }

  /** Every line of `ls` ranks at `m` or above. */
  predicate AtLeast(ls: seq<Line>, m: nat) {
    forall k | 0 <= k < |ls| :: m <= Rank(ls[k])
  }

  lemma InOrderJoin(a: seq<Line>, b: seq<Line>, m: nat)
    requires InOrder(a) && InOrder(b) && Below(a, m) && AtLeast(b, m)
    ensures InOrder(a + b)
  {
    forall j, k | 0 <= j < k < |a + b|
      ensures Rank((a + b)[j]) < Rank((a + b)[k])
    {
      if k < |a| {
        assert (a + b)[j] == a[j] && (a + b)[k] == a[k];
      } else if j < |a| {
        assert (a + b)[j] == a[j] && (a + b)[k] == b[k - |a|];
      } else {
        assert (a + b)[j] == b[j - |a|] && (a + b)[k] == b[k - |a|];
      }
    }
  }

  lemma BelowJoin(a: seq<Line>, b: seq<Line>, m: nat)
    requires Below(a, m) && Below(b, m)
    ensures Below(a + b, m)
  {
    forall k | 0 <= k < |a + b|
      ensures Rank((a + b)[k]) < m
    {
      if k >= |a| {
        assert (a + b)[k] == b[k - |a|];
      }
    }
  }

  lemma AtLeastJoin(a: seq<Line>, b: seq<Line>, m: nat)
    requires AtLeast(a, m) && AtLeast(b, m)
    ensures AtLeast(a + b, m)
  {
    forall k | 0 <= k < |a + b|
      ensures m <= Rank((a + b)[k])
    {
      if k >= |a| {
        assert (a + b)[k] == b[k - |a|];
      }
    }
  }

  /** The address lines come as IPv4, IPv6, link-local. */
  lemma AddressLinesInOrder(i: Interface)
    ensures InOrder(AddressLines(i)) && AtLeast(AddressLines(i), 3) && Below(AddressLines(i), 6)
  {
    var p := if i.ipv4 != "" then [IpAddress(i.ipv4, i.netmask)] else [];
    var q := if i.ipv6 != "" then [Ipv6Address(i.ipv6)] else [];
    var r := if i.linklocal != "" then [LinkLocal(i.linklocal)] else [];
    InOrderJoin(p, q, 4);
    BelowJoin(p, q, 5);
    InOrderJoin(p + q, r, 5);
    BelowJoin(p + q, r, 6);
    AtLeastJoin(p, q, 3);
    AtLeastJoin(p + q, r, 3);
  }

  /** The header, then the description, then the encapsulation. */
  lemma HeadLinesInOrder(i: Interface)
    ensures var hde := [InterfaceHeader(i.ident)] + DescriptionLines(i) + EncapsulationLines(i);
      InOrder(hde) && Below(hde, 3)
  {
    var h := [InterfaceHeader(i.ident)];
    var d := DescriptionLines(i);
    var e := EncapsulationLines(i);
    InOrderJoin(h, d, 1);
    BelowJoin(h, d, 2);
    InOrderJoin(h + d, e, 2);
    BelowJoin(h + d, e, 3);
  }

  /** The switchport mode line comes before the VLAN line. */
  lemma SwitchportLinesInOrder(i: Interface)
    ensures InOrder(SwitchportLines(i)) && AtLeast(SwitchportLines(i), 6) && Below(SwitchportLines(i), 9)
  {
  }

  /** `output` writes the header first and the administrative state last,
      and in between every kind of line at most once and in the fixed
      order description, encapsulation, IPv4, IPv6, link-local, switchport
      mode, VLAN. */
  lemma LinesInOrder(i: Interface)
    ensures InOrder(Lines(i))
    ensures Lines(i)[0] == InterfaceHeader(i.ident)
    ensures Lines(i)[|Lines(i)| - 1] == AdminState(i.noShutdown)
  {
    var h := [InterfaceHeader(i.ident)];
    var d := DescriptionLines(i);
    var e := EncapsulationLines(i);
    var a := AddressLines(i);
    var w := SwitchportLines(i);
    var z := [AdminState(i.noShutdown)];
    HeadLinesInOrder(i);
    AddressLinesInOrder(i);
    SwitchportLinesInOrder(i);
    InOrderJoin(h + d + e, a, 3);
    BelowJoin(h + d + e, a, 6);
    InOrderJoin(h + d + e + a, w, 6);
    BelowJoin(h + d + e + a, w, 9);
    InOrderJoin(h + d + e + a + w, z, 9);
  }

  /** The lines of a record are the lines of its blocks. */
  lemma LinesMembers(i: Interface, l: Line)
    ensures l in Lines(i) <==>
      l == InterfaceHeader(i.ident) || l in DescriptionLines(i) || l in EncapsulationLines(i)
      || l in AddressLines(i) || l in SwitchportLines(i) || l == AdminState(i.noShutdown)
  {
  }

  /** The description line is written exactly when the description is
      non-empty. */
  lemma DescriptionLine(i: Interface)
    ensures Description(i.desc) in Lines(i) <==> i.desc != ""
  {
    LinesMembers(i, Description(i.desc));
  }

  /** A description line that is written carries the record's description. */
  lemma DescriptionCarried(i: Interface, l: Line)
    requires l in Lines(i) && l.Description?
    ensures l == Description(i.desc) && i.desc != ""
  {
    LinesMembers(i, l);
  }

  /** The IPv4 line is written exactly when the address is non-empty,
      with the record's netmask. */
  lemma Ipv4LinePresent(i: Interface)
    ensures IpAddress(i.ipv4, i.netmask) in Lines(i) <==> i.ipv4 != ""
  {
    LinesMembers(i, IpAddress(i.ipv4, i.netmask));
  }

  /** The IPv6 line is written exactly when the IPv6 address is non-empty. */
  lemma Ipv6LinePresent(i: Interface)
    ensures Ipv6Address(i.ipv6) in Lines(i) <==> i.ipv6 != ""
  {
    LinesMembers(i, Ipv6Address(i.ipv6));
  }

  /** The link-local line is written exactly when the link-local address
      is non-empty. */
  lemma LinkLocalLinePresent(i: Interface)
    ensures LinkLocal(i.linklocal) in Lines(i) <==> i.linklocal != ""
  {
    LinesMembers(i, LinkLocal(i.linklocal));
  }

  /** Every address line that is written carries the record's own values. */
  lemma AddressLinesCarry(i: Interface, l: Line)
    requires l in Lines(i)
    ensures l.IpAddress? ==> l == IpAddress(i.ipv4, i.netmask)
    ensures l.Ipv6Address? ==> l == Ipv6Address(i.ipv6)
    ensures l.LinkLocal? ==> l == LinkLocal(i.linklocal)
  {
    LinesMembers(i, l);
  }

  /** An encapsulation line is written exactly when the encapsulation is
      set; it carries the VLAN exactly for 802.1Q with a VLAN set. */
  lemma EncapsulationLine(i: Interface)
    ensures (Encapsulation(i.encap, None) in Lines(i) || Encapsulation(i.encap, Some(i.vlan)) in Lines(i))
      <==> i.encap != ""
    ensures Encapsulation(i.encap, Some(i.vlan)) in Lines(i) <==> i.encap != "" && IsDot1q(i.encap) && i.vlan != ""
  {
    var plain, tagged := Encapsulation(i.encap, None), Encapsulation(i.encap, Some(i.vlan));
    LinesMembers(i, plain);
    LinesMembers(i, tagged);
    assert plain !in AddressLines(i) + SwitchportLines(i) && tagged !in AddressLines(i) + SwitchportLines(i) by {
      AddressLinesInOrder(i);
      SwitchportLinesInOrder(i);
      AtLeastJoin(AddressLines(i), SwitchportLines(i), 3);
    }
  }

  /** Every encapsulation line that is written names the record's
      encapsulation, and any tag on it is the record's VLAN. */
  lemma EncapsulationCarries(i: Interface, l: Line)
    requires l in Lines(i) && l.Encapsulation?
    ensures l.mode == i.encap && i.encap != ""
    ensures l.tag.Some? ==> l.tag.value == i.vlan && IsDot1q(i.encap)
  {
    LinesMembers(i, l);
  }

  /** The switchport mode line says trunk for trunk and native modes and
      access for access mode, and is absent with no mode. */
  lemma SwitchportModeLine(i: Interface)
    ensures SwitchportMode(true) in Lines(i) <==> i.swMode == Trunk || i.swMode == Native
    ensures SwitchportMode(false) in Lines(i) <==> i.swMode == Access
  {
    LinesMembers(i, SwitchportMode(true));
    LinesMembers(i, SwitchportMode(false));
  }

  /** A VLAN line is written in the switchport block exactly under native
      or access mode with a VLAN set. */
  lemma SwitchportVlanLine(i: Interface)
    ensures NativeVlan(i.vlan) in Lines(i) <==> i.swMode == Native && i.vlan != ""
    ensures AccessVlan(i.vlan) in Lines(i) <==> i.swMode == Access && i.vlan != ""
  {
    LinesMembers(i, NativeVlan(i.vlan));
    LinesMembers(i, AccessVlan(i.vlan));
  }

  /** The only VLAN lines written are the record's own. */
  lemma VlanCarried(i: Interface, l: Line)
    requires l in Lines(i)
    ensures l.NativeVlan? ==> l.vlan == i.vlan && i.swMode == Native
    ensures l.AccessVlan? ==> l.vlan == i.vlan && i.swMode == Access
  {
    LinesMembers(i, l);
  }

  lemma Boundaries(head: string, mid: string, tail: string)
    ensures var t := head + mid + tail;
      |head| + |tail| <= |t| && t[..|head|] == head && t[|t| - |tail|..] == tail
  {
  }

  lemma TextAroundBlocks(i: Interface)
    ensures Render(Lines(i)) == Format(InterfaceHeader(i.ident))
      + (Render(DescriptionLines(i)) + Render(EncapsulationLines(i))
         + Render(AddressLines(i)) + Render(SwitchportLines(i)))
      + Format(AdminState(i.noShutdown))
  {
    var head := Format(InterfaceHeader(i.ident));
    var d, e, a, w := Render(DescriptionLines(i)), Render(EncapsulationLines(i)),
      Render(AddressLines(i)), Render(SwitchportLines(i));
    RenderLines(i);
    Associative(head, d, e);
    Associative(head, d + e, a);
    Associative(head, d + e + a, w);
  }

  /** The text begins with the interface header and ends with the
      administrative state, ` no shutdown` unless the interface was shut. */
  lemma TextBoundaries(i: Interface)
    ensures var t := Render(Lines(i));
      var head := "interface " + i.ident + "\n";
      var tail := if i.noShutdown then " no shutdown\n" else " shutdown\n";
      |head| + |tail| <= |t| && t[..|head|] == head && t[|t| - |tail|..] == tail
  {
    var head := Format(InterfaceHeader(i.ident));
    var mid := Render(DescriptionLines(i)) + Render(EncapsulationLines(i))
      + Render(AddressLines(i)) + Render(SwitchportLines(i));
    var tail := Format(AdminState(i.noShutdown));
    assert Render(Lines(i)) == head + mid + tail by {
      TextAroundBlocks(i);
    }
    assert head == "interface " + i.ident + "\n";
    assert tail == if i.noShutdown then " no shutdown\n" else " shutdown\n";
    Boundaries(head, mid, tail);
  }

  /** `ip_cidr`: the address and the prefix on either side of the one
      slash. */
  function IpCidr(ipaddr: string): (r: (string, string))
    requires multiset(ipaddr)['/'] == 1
    ensures r.0 + "/" + r.1 == ipaddr
    ensures '/' !in r.0 && '/' !in r.1
  {
    SplitOnce(ipaddr, '/')
  }

  /** `ip_cidr` takes apart exactly what joining an address and a prefix
      around a slash puts together. */
  lemma IpCidrJoin(addr: string, prefix: string)
    requires '/' !in addr && '/' !in prefix
    ensures multiset(addr + "/" + prefix)['/'] == 1
    ensures IpCidr(addr + "/" + prefix) == (addr, prefix)
  {
    SplitOnceJoin(addr, '/', prefix);
  }

  /** The encapsulation line of `output`, appended to `o` when the mode
      is set; the VLAN follows the mode only for 802.1Q. */
  method AppendEncapsulation(o: string, i: Interface) returns (out: string)
    ensures out == o + Render(EncapsulationLines(i))
  {
    out := o;
    if i.encap != "" {
      var line := " encapsulation " + i.encap;
      if IsDot1q(i.encap) && i.vlan != "" {
        line := line + " " + i.vlan + "\n";
        assert line == Format(Encapsulation(i.encap, Some(i.vlan)));
      } else {
        line := line + "\n";
        assert line == Format(Encapsulation(i.encap, None));
      }
      out := out + line;
      OptionalStep(o, out, true, EncapsulationLines(i)[0]);
    } else {
      assert o + "" == o;
    }
  }

  /** The address part of `output`: the IPv4, IPv6 and link-local lines,
      each when its field is set, appended to `o`. */
  method AppendAddresses(o: string, i: Interface) returns (out: string)
    ensures out == o + Render(AddressLines(i))
  {
    out := o;
    if i.ipv4 != "" {
      out := out + (" ip address " + i.ipv4 + " " + i.netmask + "\n");
      assert out == o + Format(IpAddress(i.ipv4, i.netmask));
    }
    ghost var o1 := out;
    if i.ipv6 != "" {
      out := out + (" ipv6 address " + i.ipv6 + "\n");
      assert out == o1 + Format(Ipv6Address(i.ipv6));
    }
    ghost var o2 := out;
    if i.linklocal != "" {
      out := out + (" ipv6 address " + i.linklocal + " link-local\n");
      assert out == o2 + Format(LinkLocal(i.linklocal));
    }
    AddressStep(o, o1, o2, out, i);
  }

  /** The switchport part of `output`: the mode line, then the native or
      access VLAN when one is set, appended to `o`. */
  method AppendSwitchport(o: string, i: Interface) returns (out: string)
    ensures out == o + Render(SwitchportLines(i))
  {
    out := o;
    ghost var o1 := out;
    if i.swMode == Trunk {
      out := out + " switchport mode trunk\n";
      assert out == o + Format(SwitchportMode(true));
      o1 := out;
    } else if i.swMode == Native {
      out := out + " switchport mode trunk\n";
      assert out == o + Format(SwitchportMode(true));
      o1 := out;
      if i.vlan != "" {
        out := out + (" switchport trunk native vlan " + i.vlan + "\n");
        assert out == o1 + Format(NativeVlan(i.vlan));
      }
    } else if i.swMode == Access {
      out := out + " switchport mode access\n";
      assert out == o + Format(SwitchportMode(false));
      o1 := out;
      if i.vlan != "" {
        out := out + (" switchport access vlan " + i.vlan + "\n");
        assert out == o1 + Format(AccessVlan(i.vlan));
      }
    }
    SwitchportStep(o, o1, out, i);
  }

  class InterfaceConfig {
    var ident: string
    var desc: string
    var encap: string
    var ipv4: string
    var netmask: string
    var ipv6: string
    var linklocal: string
    /** `no_shut` as a field; the setter below is `NoShut`. */
    var noShutdown: bool
    var swMode: SwitchMode
    var vlan: string
    var portsec: bool

    function Fields(): Interface
      reads this
    {
      Interface(ident, desc, encap, ipv4, netmask, ipv6, linklocal, noShutdown, swMode, vlan, portsec)
    }

    /** A new interface: only the identifier is set; it is administratively
        up and has no switchport mode. */
    constructor (id: string)
      ensures Fields() == Interface(id, "", "", "", "", "", "", true, NoMode, "", false)
    {
      ident := id;
      desc, encap, ipv4, netmask, ipv6, linklocal := "", "", "", "", "", "";
      noShutdown := true;
      swMode := NoMode;
      vlan := "";
      portsec := false;
    }

    /** `add_ipv4`: `A.B.C.D/N` sets the address and the mask derived from
        N; text without a slash is the address with the host mask. Only
        the address and the mask change. */
    method AddIpv4(ipv4addr: string) returns (maskError: bool)
      requires multiset(ipv4addr)['/'] <= 1
      modifies this
      ensures '/' in ipv4addr ==>
        var (addr, cidr) := IpCidr(ipv4addr);
        Fields() == old(Fields()).(ipv4 := addr, netmask := MaskOf(cidr).mask)
        && maskError == MaskOf(cidr).error
      ensures '/' !in ipv4addr ==>
        Fields() == old(Fields()).(ipv4 := ipv4addr, netmask := HOST_MASK) && !maskError
    {
      if '/' in ipv4addr {
        var (addr, cidr) := IpCidr(ipv4addr);
        ipv4 := addr;
        var m := GetMask(cidr);
        netmask := m.mask;
        maskError := m.error;
      } else {
        ipv4 := ipv4addr;
        netmask := "255.255.255.255";
        maskError := false;
      }
    }

    /** `add_mask`: an explicit netmask replaces the current one and
        nothing else. */
    method AddMask(mask: string)
      modifies this
      ensures Fields() == old(Fields()).(netmask := mask)
    {
      netmask := mask;
    }

    method AddDesc(d: string)
      modifies this
      ensures Fields() == old(Fields()).(desc := d)
    {
      desc := d;
    }

    method ConfEncap(e: string)
      modifies this
      ensures Fields() == old(Fields()).(encap := e)
    {
      encap := e;
    }

    method AddIpv6(a: string)
      modifies this
      ensures Fields() == old(Fields()).(ipv6 := a)
    {
      ipv6 := a;
    }

    method AddLlocal(a: string)
      modifies this
      ensures Fields() == old(Fields()).(linklocal := a)
    {
      linklocal := a;
    }

    method ConfAccess()
      modifies this
      ensures Fields() == old(Fields()).(swMode := Access)
    {
      swMode := Access;
    }

    method ConfNative()
      modifies this
      ensures Fields() == old(Fields()).(swMode := Native)
    {
      swMode := Native;
    }

    method ConfTrunk()
      modifies this
      ensures Fields() == old(Fields()).(swMode := Trunk)
    {
      swMode := Trunk;
    }

    method ConfVlan(v: string)
      modifies this
      ensures Fields() == old(Fields()).(vlan := v)
    {
      vlan := v;
    }

    /** `conf_portsec`: port security, which forces access mode whatever
        the mode was. */
    method ConfPortsec()
      modifies this
      ensures Fields() == old(Fields()).(swMode := Access, portsec := true)
    {
      swMode := Access;
      portsec := true;
    }

    /** `no_shut`: the administrative state. */
    method NoShut(enable: bool)
      modifies this
      ensures Fields() == old(Fields()).(noShutdown := enable)
    {
      noShutdown := enable;
    }

    /** `output`: the interface text, grown line by line. */
    method Output() returns (out: string)
      ensures out == Render(Lines(Fields()))
    {
      var i := Fields();
      out := "interface " + i.ident + "\n";
      ghost var o0 := out;
      if i.desc != "" {
        out := out + (" description " + i.desc + "\n");
      }
      ghost var o1 := out;
      out := AppendEncapsulation(out, i);
      ghost var o2 := out;
      out := AppendAddresses(out, i);
      ghost var o3 := out;
      out := AppendSwitchport(out, i);
      ghost var o4 := out;
      if i.noShutdown {
        assert Format(AdminState(true)) == " no shutdown\n";
        out := out + " no shutdown\n";
      } else {
        assert Format(AdminState(false)) == " shutdown\n";
        out := out + " shutdown\n";
      }
      OutputSteps(i, o0, o1, o2, o3, o4, out);
    }
  }

  /** The interface script's options; an option that is absent, or given
      as empty text, is "" (the script only tests each for truth). */
  datatype InterfaceArgs = InterfaceArgs(
    iface: string,
    desc: string,
    encap: string,
    ipv4: string,
    ipv6: string,
    llocal: string,
    netmask: string,
    access: bool,
    native: bool,
    portsec: bool,
    trunk: bool,
    vlan: string,
    shutdown: bool,
    exit: bool)

  /** The switchport mode the script ends with: of the mode setters it
      calls (access, native, trunk, then port security) the last one wins. */
  function ModeOf(args: InterfaceArgs): SwitchMode {
    if args.portsec then Access
    else if args.trunk then Trunk
    else if args.native then Native
    else if args.access then Access
    else NoMode
  }

  /** The address and mask the script leaves: nothing without `-4`; with
      it, an explicit `-m` mask, else the mask of the prefix after the
      slash, else the host mask. */
  function AddressOf(args: InterfaceArgs): (string, string)
    requires multiset(args.ipv4)['/'] <= 1
  {
    if args.ipv4 == "" then ("", "")
    else
      var (addr, derived) :=
        if '/' in args.ipv4 then (IpCidr(args.ipv4).0, MaskOf(IpCidr(args.ipv4).1).mask)
        else (args.ipv4, HOST_MASK);
      (addr, if args.netmask != "" then args.netmask else derived)
  }

  /** The record the script builds from its options. */
  function Configured(args: InterfaceArgs): Interface
    requires multiset(args.ipv4)['/'] <= 1
  {
    Interface(
      ident := args.iface,
      desc := args.desc,
      encap := args.encap,
      ipv4 := AddressOf(args).0,
      netmask := AddressOf(args).1,
      ipv6 := args.ipv6,
      linklocal := args.llocal,
      noShutdown := !args.shutdown,
      swMode := ModeOf(args),
      vlan := args.vlan,
      portsec := args.portsec)
  }

  /** The lines the script prints: the record's, then ` exit` if asked. */
  function ScriptLines(args: InterfaceArgs): seq<Line>
    requires multiset(args.ipv4)['/'] <= 1
  {
    Lines(Configured(args)) + (if args.exit then [Exit] else [])
  }

  /** Whether `get_mask` reports an unparsable prefix for the `-4` option. */
  predicate MaskDiagnostic(args: InterfaceArgs)
    requires multiset(args.ipv4)['/'] <= 1
  {
    args.ipv4 != "" && '/' in args.ipv4 && ParseInt(IpCidr(args.ipv4).1).None?
  }

  /** The script's `-4`/`-m` step: the address and its mask, the explicit
      mask only when an address was given. */
  method ApplyAddress(c: InterfaceConfig, args: InterfaceArgs) returns (maskError: bool)
    requires multiset(args.ipv4)['/'] <= 1
    modifies c
    ensures c.Fields() == old(c.Fields()).(ipv4 := if args.ipv4 == "" then old(c.ipv4) else AddressOf(args).0,
                                           netmask := if args.ipv4 == "" then old(c.netmask) else AddressOf(args).1)
    ensures maskError == MaskDiagnostic(args)
  {
    maskError := false;
    if args.ipv4 != "" {
      maskError := c.AddIpv4(args.ipv4);
      if args.netmask != "" {
        c.AddMask(args.netmask);
      }
    }
  }

  /** The script's description, encapsulation, IPv6 and link-local steps:
      each option given replaces its field. */
  method ApplyOptional(c: InterfaceConfig, args: InterfaceArgs)
    modifies c
    ensures c.Fields() == old(c.Fields()).(
      desc := if args.desc != "" then args.desc else old(c.desc),
      encap := if args.encap != "" then args.encap else old(c.encap),
      ipv6 := if args.ipv6 != "" then args.ipv6 else old(c.ipv6),
      linklocal := if args.llocal != "" then args.llocal else old(c.linklocal))
  {
    if args.desc != "" {
      c.AddDesc(args.desc);
    }
    if args.encap != "" {
      c.ConfEncap(args.encap);
    }
    if args.ipv6 != "" {
      c.AddIpv6(args.ipv6);
    }
    if args.llocal != "" {
      c.AddLlocal(args.llocal);
    }
  }

  /** The script's switchport steps: access, native and trunk in that
      order, so the last flag given wins, then the VLAN. */
  method ApplyModes(c: InterfaceConfig, args: InterfaceArgs)
    modifies c
    ensures c.Fields() == old(c.Fields()).(
      swMode := if args.trunk then Trunk else if args.native then Native else if args.access then Access
                else old(c.swMode),
      vlan := if args.vlan != "" then args.vlan else old(c.vlan))
  {
    if args.access {
      c.ConfAccess();
    }
    if args.native {
      c.ConfNative();
    }
    if args.trunk {
      c.ConfTrunk();
    }
    if args.vlan != "" {
      c.ConfVlan(args.vlan);
    }
  }

  /** The script's last steps: port security, then the shutdown flag. */
  method ApplyFlags(c: InterfaceConfig, args: InterfaceArgs)
    modifies c
    ensures c.Fields() == old(c.Fields()).(
      swMode := if args.portsec then Access else old(c.swMode),
      portsec := args.portsec || old(c.portsec),
      noShutdown := if args.shutdown then false else old(c.noShutdown))
  {
    if args.portsec {
      c.ConfPortsec();
    }
    if args.shutdown {
      c.NoShut(false);
    }
  }

  /** The script body: build the record with the setters in the script's
      order, render it and append ` exit` when asked. `maskError` is the
      diagnostic `get_mask` prints for a prefix that is not a number. */
  method Generate(args: InterfaceArgs) returns (config: string, maskError: bool)
    requires multiset(args.ipv4)['/'] <= 1
    ensures config == Render(ScriptLines(args))
    ensures maskError == MaskDiagnostic(args)
  {
    var c := new InterfaceConfig(args.iface);
    maskError := ApplyAddress(c, args);
    ApplyOptional(c, args);
    ApplyModes(c, args);
    ApplyFlags(c, args);
    assert c.Fields() == Configured(args);
    config := c.Output();
    if args.exit {
      config := config + " exit\n";
    }
    ExitSuffix(args);
  }

  lemma RenderExit(ls: seq<Line>)
    ensures Render(ls + [Exit]) == Render(ls) + " exit\n"
  {
    RenderSnoc(ls, Exit);
  }

  /** With ` exit` requested the printed text is the record's text followed
      by ` exit`; otherwise it is the record's text alone. */
  lemma ExitSuffix(args: InterfaceArgs)
    requires multiset(args.ipv4)['/'] <= 1
    ensures args.exit ==> Render(ScriptLines(args)) == Render(Lines(Configured(args))) + " exit\n"
    ensures !args.exit ==> Render(ScriptLines(args)) == Render(Lines(Configured(args)))
  {
    RenderExit(Lines(Configured(args)));
    assert Lines(Configured(args)) + [] == Lines(Configured(args));
  }

  /** Port security is set after the mode flags, so it wins over trunk and
      native: the switchport block is the access block. */
  lemma PortsecForcesAccess(args: InterfaceArgs)
    requires multiset(args.ipv4)['/'] <= 1 && args.portsec
    ensures SwitchportMode(false) in Lines(Configured(args))
    ensures SwitchportMode(true) !in Lines(Configured(args))
    ensures NativeVlan(args.vlan) !in Lines(Configured(args))
  {
    SwitchportModeLine(Configured(args));
    SwitchportVlanLine(Configured(args));
  }

  /** The record's port-security flag is never written. */
  lemma LinesIgnorePortsec(i: Interface, b: bool)
    ensures Lines(i.(portsec := b)) == Lines(i)
  {
    var j := i.(portsec := b);
    assert DescriptionLines(j) == DescriptionLines(i);
    assert EncapsulationLines(j) == EncapsulationLines(i);
    assert AddressLines(j) == AddressLines(i);
    assert SwitchportLines(j) == SwitchportLines(i);
  }

  /** Port security writes no line of its own: the text is the text of
      access mode with the other mode flags off. */
  lemma PortsecAsAccess(args: InterfaceArgs)
    requires multiset(args.ipv4)['/'] <= 1 && args.portsec
    ensures Lines(Configured(args))
      == Lines(Configured(args.(portsec := false, access := true, native := false, trunk := false)))
  {
    var other := args.(portsec := false, access := true, native := false, trunk := false);
    assert AddressOf(other) == AddressOf(args);
    assert Configured(other) == Configured(args).(portsec := false);
    LinesIgnorePortsec(Configured(args), false);
  }

  /** Among the mode flags the later setter wins: trunk over native over
      access. */
  lemma ModeFlagsLastWins(args: InterfaceArgs)
    requires multiset(args.ipv4)['/'] <= 1 && !args.portsec
    ensures args.trunk ==> SwitchportMode(true) in Lines(Configured(args)) && NativeVlan(args.vlan) !in Lines(Configured(args))
    ensures !args.trunk && args.native ==>
      SwitchportMode(true) in Lines(Configured(args))
      && (NativeVlan(args.vlan) in Lines(Configured(args)) <==> args.vlan != "")
    ensures !args.trunk && !args.native && args.access ==>
      SwitchportMode(false) in Lines(Configured(args))
      && (AccessVlan(args.vlan) in Lines(Configured(args)) <==> args.vlan != "")
    ensures !args.trunk && !args.native && !args.access ==>
      SwitchportMode(true) !in Lines(Configured(args)) && SwitchportMode(false) !in Lines(Configured(args))
  {
    SwitchportModeLine(Configured(args));
    SwitchportVlanLine(Configured(args));
  }

  /** An explicit `-m` mask is written instead of the one derived from the
      prefix, whatever the prefix was. */
  lemma ExplicitMaskWins(args: InterfaceArgs)
    requires multiset(args.ipv4)['/'] <= 1 && args.ipv4 != "" && args.netmask != ""
    ensures AddressOf(args).0 != "" ==> IpAddress(AddressOf(args).0, args.netmask) in Lines(Configured(args))
    ensures forall l | l in Lines(Configured(args)) && l.IpAddress? :: l.mask == args.netmask
  {
    Ipv4LinePresent(Configured(args));
    forall l | l in Lines(Configured(args)) && l.IpAddress?
      ensures l.mask == args.netmask
    {
      AddressLinesCarry(Configured(args), l);
    }
  }

  /** Without `-4` the `-m` mask is ignored and no IPv4 line is written. */
  lemma NetmaskIgnoredWithoutAddress(args: InterfaceArgs, mask: string)
    requires args.ipv4 == ""
    ensures Lines(Configured(args)) == Lines(Configured(args.(netmask := mask)))
    ensures forall l | l in Lines(Configured(args)) :: !l.IpAddress?
  {
    forall l | l in Lines(Configured(args))
      ensures !l.IpAddress?
    {
      LinesMembers(Configured(args), l);
    }
  }

  /** With `-4 A/N` and no `-m`, the IPv4 line holds the text before the
      slash and the mask `get_mask` derives from the text after it; when
      nothing precedes the slash no IPv4 line is written at all. */
  lemma CidrAddressLine(args: InterfaceArgs)
    requires multiset(args.ipv4)['/'] == 1 && args.netmask == ""
    ensures var (addr, prefix) := IpCidr(args.ipv4);
      IpAddress(addr, MaskOf(prefix).mask) in Lines(Configured(args)) <==> addr != ""
  {
    Ipv4LinePresent(Configured(args));
  }

  /** `<interface> -4 10.0.0.1/24` (for instance on gigabitethernet0/1):
      the header, the IPv4 line with the /24 mask, and ` no shutdown`. */
  lemma CidrScenario(args: InterfaceArgs)
    requires args == InterfaceArgs(args.iface, "", "", "10.0.0.1/24", "", "", "",
                                   false, false, false, false, "", false, false)
    ensures multiset(args.ipv4)['/'] <= 1
    ensures Lines(Configured(args)) == [InterfaceHeader(args.iface), IpAddress("10.0.0.1", "255.255.255.0"), AdminState(true)]
  {
    CidrScenarioAddress(args);
    AddressOnlyLines(Configured(args));
  }

  /** A record with only an IPv4 address set is three lines long. */
  lemma AddressOnlyLines(i: Interface)
    requires i.desc == "" && i.encap == "" && i.ipv4 != "" && i.ipv6 == "" && i.linklocal == "" && i.swMode == NoMode
    ensures Lines(i) == [InterfaceHeader(i.ident), IpAddress(i.ipv4, i.netmask), AdminState(i.noShutdown)]
  {
    assert AddressLines(i) == [IpAddress(i.ipv4, i.netmask)];
  }

  lemma CidrScenarioAddress(args: InterfaceArgs)
    requires args.ipv4 == "10.0.0.1/24" && args.netmask == ""
    ensures multiset(args.ipv4)['/'] <= 1
    ensures AddressOf(args) == ("10.0.0.1", "255.255.255.0")
  {
    assert args.ipv4 == "10.0.0.1" + "/" + "24";
    IpCidrJoin("10.0.0.1", "24");
    MaskOfTwentyFour();
    AddressOfCidr(args);
  }

  lemma AddressOfCidr(args: InterfaceArgs)
    requires multiset(args.ipv4)['/'] == 1 && args.netmask == ""
    ensures AddressOf(args) == (IpCidr(args.ipv4).0, MaskOf(IpCidr(args.ipv4).1).mask)
  {
  }

  /** `-sA -v 10`: the access mode line directly followed by the access
      VLAN line. */
  lemma AccessVlanScenario(iface: string)
    ensures var args := InterfaceArgs(iface, "", "", "", "", "", "", true, false, false, false, "10", false, false);
      Lines(Configured(args))
      == [InterfaceHeader(iface), SwitchportMode(false), AccessVlan("10"), AdminState(true)]
  {
  }
}
