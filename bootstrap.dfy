/** The device bootstrap generator: a record of global device settings,
    setters that the command line drives, and the text that the record
    renders to (hostname and banner, domain, IPv6 routing, enable secret
    and console, then the VTY lines with optional SSH). */
module Bootstrap {
  import opened Text

  /** A snapshot of the settings record. */
  datatype Device = Device(
    hostname: string,
    domain: string,
    ipv6ur: bool,
    enPass: string,
    conPass: string,
    localUser: string,
    localPass: string,
    vtyLogin: string,
    vtyTrans: string,
    execTimeout: nat,
    pktracer: bool,
    rsaMod: nat)

  const LOCAL_LOGIN := "login local"
  const PASSWORD_LOGIN := "login"

  /** A fresh record: the three given settings, every other one at its
      default. */
  function Initial(hostname: string, conPass: string, enPass: string): Device {
    Device(hostname, "", true, enPass, conPass, "", "cisco", PASSWORD_LOGIN, "none", 5, false, 2048)
  }

  /** `conf_login` on a snapshot: the credentials are the two sides of
      the colon, and the VTY lines log in against the local account
      exactly when a user name is given. */
  function WithLogin(d: Device, userpass: string): (r: Device)
    requires multiset(userpass)[':'] == 1
    ensures r.localUser + ":" + r.localPass == userpass && ':' !in r.localUser && ':' !in r.localPass
    ensures r.vtyLogin == LOCAL_LOGIN <==> r.localUser != ""
    ensures r.vtyLogin == if r.localUser == "" then PASSWORD_LOGIN else LOCAL_LOGIN
    ensures r == d.(localUser := r.localUser, localPass := r.localPass, vtyLogin := r.vtyLogin)
  {
    var (user, pass) := SplitOnce(userpass, ':');
    d.(localUser := user, localPass := pass,
       vtyLogin := if user == "" then PASSWORD_LOGIN else LOCAL_LOGIN)
  }

  /** The host name line and the fixed lines after it, ending with the
      login banner. */
  function BannerText(hostname: string): string {
    "hostname " + hostname + "\nno ip domain-lookup\nservice password-encryption\n"
    + "banner motd #Unauthorized access prohibited#\n"
  }

  /** The enable secret, the console line and the auxiliary line. */
  function CredentialsText(enPass: string, conPass: string, timeout: nat): string {
    "enable algorithm-type scrypt secret " + enPass + "\nline con 0\n password " + conPass
    + "\n logging synchronous\n login\n exec-timeout " + NatToString(timeout) + "\nline aux 0\n no exec\n"
  }

  function UsernameText(user: string, pass: string): string {
    "username " + user + " algorithm-type scrypt secret " + pass + "\n"
  }

  /** RSA key generation: Packet Tracer takes the modulus on the next
      line, a device takes it as the `modulus` argument; no newline
      follows the modulus. */
  function KeyText(modulus: nat, pktracer: bool): string {
    if pktracer then "crypto key generate rsa\n" + NatToString(modulus)
    else "crypto key generate rsa modulus " + NatToString(modulus)
  }

  function VtyLinesText(timeout: nat, transport: string): string {
    "line vty 0 15\n logging synchronous\n exec-timeout " + NatToString(timeout)
    + "\n transport input " + transport + "\n"
  }

  /** One block of device configuration text, in the order `output`
      writes them. */
  datatype Block =
    | Banner(hostname: string)
    | DomainName(domain: string)
    | Ipv6Routing
    | Credentials(enPass: string, conPass: string, timeout: nat)
    | Username(user: string, pass: string)
    | RsaKey(modulus: nat, pktracer: bool)
    | SshVersion
    | VtyLines(timeout: nat, transport: string)
    | NoLogin
    | PasswordLogin(pass: string, login: string)
    | VtyLogin(login: string)

  function Format(b: Block): string {
    match b
    case Banner(h) => BannerText(h)
    case DomainName(dn) => "ip domain-name " + dn + "\n"
    case Ipv6Routing => "ipv6 unicast-routing\n"
    case Credentials(en, con, t) => CredentialsText(en, con, t)
    case Username(u, p) => UsernameText(u, p)
    case RsaKey(m, pt) => KeyText(m, pt)
    case SshVersion => "\nip ssh version 2\n"
    case VtyLines(t, tr) => VtyLinesText(t, tr)
    case NoLogin => " no login"
    case PasswordLogin(p, l) => " password " + p + "\n " + l
    case VtyLogin(l) => " " + l
  }

  /** The text of a list of blocks, one after the other. */
  function Render(bs: seq<Block>): string {
    if bs == [] then "" else Render(bs[..|bs| - 1]) + Format(bs[|bs| - 1])
  }

  /** Position of each kind of block; the three access-control tails
      share a position since at most one of them is written. */
  function Rank(b: Block): nat {
    match b
    case Banner(_) => 0
    case DomainName(_) => 1
    case Ipv6Routing => 2
    case Credentials(_, _, _) => 3
    case Username(_, _) => 4
    case RsaKey(_, _) => 5
    case SshVersion => 6
    case VtyLines(_, _) => 7
    case NoLogin => 8
    case PasswordLogin(_, _) => 8
    case VtyLogin(_) => 8
  }

  predicate InOrder(bs: seq<Block>) {
    forall j, k | 0 <= j < k < |bs| :: Rank(bs[j]) < Rank(bs[k])
  }

  /** SSH is set up only for local login, an `ssh` transport and a domain. */
  predicate SshEnabled(d: Device) {
    d.vtyLogin == LOCAL_LOGIN && Contains(d.vtyTrans, "ssh") && d.domain != ""
  }

  function LoginBlocks(d: Device): seq<Block> {
    if d.vtyLogin == LOCAL_LOGIN then [Username(d.localUser, d.localPass)] else []
  }

  function SshBlocks(d: Device): seq<Block> {
    if SshEnabled(d) then [RsaKey(d.rsaMod, d.pktracer), SshVersion] else []
  }

  /** What follows `transport input`: depends on the transport and, for
      telnet, on the login mode; nothing for any other transport. */
  function TailBlocks(d: Device): seq<Block> {
    if d.vtyTrans == "none" then [NoLogin]
    else if d.vtyTrans == "telnet" then
      if d.vtyLogin == PASSWORD_LOGIN then [PasswordLogin(d.localPass, d.vtyLogin)] else [VtyLogin(d.vtyLogin)]
    else []
  }

  function VtyBlocks(d: Device): seq<Block> {
    LoginBlocks(d) + SshBlocks(d) + [VtyLines(d.execTimeout, d.vtyTrans)] + TailBlocks(d)
  }

  /** The blocks of a record, in the order `output` writes them. */
  function Blocks(d: Device): seq<Block> {
    [Banner(d.hostname)] + (if d.domain != "" then [DomainName(d.domain)] else [])
    + (if d.ipv6ur then [Ipv6Routing] else []) + [Credentials(d.enPass, d.conPass, d.execTimeout)]
    + VtyBlocks(d)
  }

  /** Generated text with the diagnostic that `gen_vty` prints when SSH
      is asked for without local login. */
  datatype Generated = Generated(text: string, warning: bool)

  /** `gen_vty`: the VTY part of the configuration. Its text is the text
      of the VTY blocks, and when it raises the diagnostic it writes
      neither a user name nor any SSH directive. */
  function GenVty(d: Device): (r: Generated)
    ensures r.text == Render(VtyBlocks(d))
    ensures r.warning <==> d.vtyLogin != LOCAL_LOGIN && Contains(d.vtyTrans, "ssh")
    ensures r.warning ==> LoginBlocks(d) == [] && SshBlocks(d) == []
  {
    var user := if d.vtyLogin == LOCAL_LOGIN then UsernameText(d.localUser, d.localPass) else "";
    var ssh := if SshEnabled(d) then KeyText(d.rsaMod, d.pktracer) + "\nip ssh version 2\n" else "";
    var lines := VtyLinesText(d.execTimeout, d.vtyTrans);
    var tail := if d.vtyTrans == "none" then " no login"
      else if d.vtyTrans == "telnet" then
        if d.vtyLogin == PASSWORD_LOGIN then " password " + d.localPass + "\n " + d.vtyLogin
        else " " + d.vtyLogin
      else "";
    VtyParts(d);
    LoginText(d);
    SshText(d);
    TailText(d);
    Generated(user + ssh + lines + tail, d.vtyLogin != LOCAL_LOGIN && Contains(d.vtyTrans, "ssh"))
  }

  /** `output`: the whole configuration, ending with the VTY part. Its
      text is the text of all the record's blocks, and its diagnostic is
      the one `gen_vty` raises. */
  function Output(d: Device): (r: Generated)
    ensures r.text == Render(Blocks(d))
    ensures r.warning <==> d.vtyLogin != LOCAL_LOGIN && Contains(d.vtyTrans, "ssh")
  {
    var head := BannerText(d.hostname);
    var domain := if d.domain != "" then "ip domain-name " + d.domain + "\n" else "";
    var ipv6 := if d.ipv6ur then "ipv6 unicast-routing\n" else "";
    var creds := CredentialsText(d.enPass, d.conPass, d.execTimeout);
    var vty := GenVty(d);
    HeadParts(d);
    HeadText(d);
    Generated(head + domain + ipv6 + creds + vty.text, vty.warning)
  }

  lemma {:induction false} RenderAppend(a: seq<Block>, b: seq<Block>)
    ensures Render(a + b) == Render(a) + Render(b)
    decreases |b|
  {
    if b == [] {
      assert a + b == a;
    } else {
      var b' := b[..|b| - 1];
      assert (a + b)[..|a + b| - 1] == a + b';
      RenderAppend(a, b');
      Associative(Render(a), Render(b'), Format(b[|b| - 1]));
    }
  }

  lemma RenderOne(b: Block)
    ensures Render([b]) == Format(b)
  {
    assert [b][..0] == [];
    assert Render([]) == "";
  }

  /** An optional block renders to its text or to nothing. */
  lemma RenderOptional(c: bool, b: Block)
    ensures Render(if c then [b] else []) == if c then Format(b) else ""
  {
    RenderOne(b);
  }

  lemma RenderPair(a: Block, b: Block)
    ensures Render([a, b]) == Format(a) + Format(b)
  {
    assert [a, b] == [a] + [b];
    RenderAppend([a], [b]);
    RenderOne(a);
    RenderOne(b);
  }

  /** Render of four consecutive parts. */
  lemma RenderFour(a: seq<Block>, b: seq<Block>, c: seq<Block>, e: seq<Block>)
    ensures Render(a + b + c + e) == Render(a) + Render(b) + Render(c) + Render(e)
  {
    RenderAppend(a + b + c, e);
    RenderAppend(a + b, c);
    RenderAppend(a, b);
  }

  lemma LoginText(d: Device)
    ensures Render(LoginBlocks(d)) == if d.vtyLogin == LOCAL_LOGIN then UsernameText(d.localUser, d.localPass) else ""
  {
    RenderOptional(d.vtyLogin == LOCAL_LOGIN, Username(d.localUser, d.localPass));
  }

  lemma SshText(d: Device)
    ensures Render(SshBlocks(d)) == if SshEnabled(d) then KeyText(d.rsaMod, d.pktracer) + "\nip ssh version 2\n" else ""
  {
    RenderPair(RsaKey(d.rsaMod, d.pktracer), SshVersion);
  }

  lemma TailText(d: Device)
    ensures Render(TailBlocks(d)) == if d.vtyTrans == "none" then " no login"
      else if d.vtyTrans == "telnet" then
        if d.vtyLogin == PASSWORD_LOGIN then " password " + d.localPass + "\n " + d.vtyLogin
        else " " + d.vtyLogin
      else ""
  {
    if d.vtyTrans == "none" {
      RenderOne(NoLogin);
    } else if d.vtyTrans == "telnet" {
      RenderOne(TailBlocks(d)[0]);
    }
  }

  /** The VTY blocks render part by part. */
  lemma VtyParts(d: Device)
    ensures Render(VtyBlocks(d)) == Render(LoginBlocks(d)) + Render(SshBlocks(d))
      + VtyLinesText(d.execTimeout, d.vtyTrans) + Render(TailBlocks(d))
  {
    var v := [VtyLines(d.execTimeout, d.vtyTrans)];
    RenderFour(LoginBlocks(d), SshBlocks(d), v, TailBlocks(d));
    RenderOne(v[0]);
  }

  lemma HeadText(d: Device)
    ensures var dn := if d.domain != "" then [DomainName(d.domain)] else [];
      var v6 := if d.ipv6ur then [Ipv6Routing] else [];
      Render([Banner(d.hostname)] + dn + v6 + [Credentials(d.enPass, d.conPass, d.execTimeout)])
      == Format(Banner(d.hostname)) + (if d.domain != "" then Format(DomainName(d.domain)) else "")
         + (if d.ipv6ur then Format(Ipv6Routing) else "") + Format(Credentials(d.enPass, d.conPass, d.execTimeout))
  {
    var h := [Banner(d.hostname)];
    var dn := if d.domain != "" then [DomainName(d.domain)] else [];
    var v6 := if d.ipv6ur then [Ipv6Routing] else [];
    var c := [Credentials(d.enPass, d.conPass, d.execTimeout)];
    RenderFour(h, dn, v6, c);
    RenderOne(h[0]);
    RenderOptional(d.domain != "", DomainName(d.domain));
    RenderOptional(d.ipv6ur, Ipv6Routing);
    RenderOne(c[0]);
  }

  /** All the blocks render as the head blocks followed by the VTY blocks. */
  lemma HeadParts(d: Device)
    ensures var dn := if d.domain != "" then [DomainName(d.domain)] else [];
      var v6 := if d.ipv6ur then [Ipv6Routing] else [];
      Render(Blocks(d)) == Render([Banner(d.hostname)] + dn + v6 + [Credentials(d.enPass, d.conPass, d.execTimeout)])
        + Render(VtyBlocks(d))
  {
    var dn := if d.domain != "" then [DomainName(d.domain)] else [];
    var v6 := if d.ipv6ur then [Ipv6Routing] else [];
    RenderAppend([Banner(d.hostname)] + dn + v6 + [Credentials(d.enPass, d.conPass, d.execTimeout)], VtyBlocks(d));
  }

  /** The text of a list around one of its blocks. */
  lemma RenderAround(a: seq<Block>, b: Block, c: seq<Block>)
    ensures Render(a + [b] + c) == Render(a) + Format(b) + Render(c)
  {
    RenderAppend(a + [b], c);
    RenderAppend(a, [b]);
    RenderOne(b);
  }

  /** Every block that is written appears, as text, in the output. */
  lemma BlockInText(d: Device, k: nat)
    requires k < |Blocks(d)|
    ensures Contains(Output(d).text, Format(Blocks(d)[k]))
  {
    var bs := Blocks(d);
    assert bs == bs[..k] + [bs[k]] + bs[k + 1..];
    RenderAround(bs[..k], bs[k], bs[k + 1..]);
    ContainsMiddle(Render(bs[..k]), Format(bs[k]), Render(bs[k + 1..]));
  }

  /** Every block in `bs` ranks below `m`. */
  predicate Below(bs: seq<Block>, m: nat) {
    forall k | 0 <= k < |bs| :: Rank(bs[k]) < m
  }

  /** Every block in `bs` ranks at `m` or above. */
  predicate AtLeast(bs: seq<Block>, m: nat) {
    forall k | 0 <= k < |bs| :: m <= Rank(bs[k])
  }

  lemma InOrderJoin(a: seq<Block>, b: seq<Block>, m: nat)
    requires InOrder(a) && InOrder(b) && Below(a, m) && AtLeast(b, m)
    ensures InOrder(a + b)
  {
    forall j, k | 0 <= j < k < |a + b|
      ensures Rank((a + b)[j]) < Rank((a + b)[k])
    {
      if k < |a| {
        assert (a + b)[j] == a[j] && (a + b)[k] == a[k];
      } else if j < |a| {
        assert Rank(a[j]) < m <= Rank(b[k - |a|]);
      } else {
        assert (a + b)[j] == b[j - |a|] && (a + b)[k] == b[k - |a|];
      }
    }
  }

  lemma BelowJoin(a: seq<Block>, b: seq<Block>, m: nat)
    requires Below(a, m) && Below(b, m)
    ensures Below(a + b, m)
  {
    forall k | 0 <= k < |a + b| ensures Rank((a + b)[k]) < m {
      if k < |a| { assert (a + b)[k] == a[k]; } else { assert (a + b)[k] == b[k - |a|]; }
    }
  }

  lemma AtLeastJoin(a: seq<Block>, b: seq<Block>, m: nat)
    requires AtLeast(a, m) && AtLeast(b, m)
    ensures AtLeast(a + b, m)
  {
    forall k | 0 <= k < |a + b| ensures m <= Rank((a + b)[k]) {
      if k < |a| { assert (a + b)[k] == a[k]; } else { assert (a + b)[k] == b[k - |a|]; }
    }
  }

  lemma VtyBlocksInOrder(d: Device)
    ensures InOrder(VtyBlocks(d)) && AtLeast(VtyBlocks(d), 4)
  {
    var l, s, v, t := LoginBlocks(d), SshBlocks(d), [VtyLines(d.execTimeout, d.vtyTrans)], TailBlocks(d);
    InOrderJoin(l, s, 5);
    BelowJoin(l, s, 7);
    InOrderJoin(l + s, v, 7);
    BelowJoin(l + s, v, 8);
    InOrderJoin(l + s + v, t, 8);
    AtLeastJoin(l, s, 4);
    AtLeastJoin(l + s, v, 4);
    AtLeastJoin(l + s + v, t, 4);
  }

  /** `output` writes the hostname block first, then the domain, IPv6
      routing, credentials, user name, key generation, SSH version, VTY
      lines and access control, each at most once and in that order. */
  lemma BlocksInOrder(d: Device)
    ensures InOrder(Blocks(d)) && Blocks(d)[0] == Banner(d.hostname)
  {
    var h := [Banner(d.hostname)];
    var dn := if d.domain != "" then [DomainName(d.domain)] else [];
    var v6 := if d.ipv6ur then [Ipv6Routing] else [];
    var c := [Credentials(d.enPass, d.conPass, d.execTimeout)];
    InOrderJoin(h, dn, 1);
    BelowJoin(h, dn, 2);
    InOrderJoin(h + dn, v6, 2);
    BelowJoin(h + dn, v6, 3);
    InOrderJoin(h + dn + v6, c, 3);
    BelowJoin(h + dn + v6, c, 4);
    VtyBlocksInOrder(d);
    InOrderJoin(h + dn + v6 + c, VtyBlocks(d), 4);
  }

  /** A block is written when it belongs to one of the parts of `output`. */
  lemma BlocksMembers(d: Device, b: Block)
    ensures b in Blocks(d) <==>
      b == Banner(d.hostname) || (d.domain != "" && b == DomainName(d.domain)) || (d.ipv6ur && b == Ipv6Routing)
      || b == Credentials(d.enPass, d.conPass, d.execTimeout) || b in LoginBlocks(d) || b in SshBlocks(d)
      || b == VtyLines(d.execTimeout, d.vtyTrans) || b in TailBlocks(d)
  {
    var h := [Banner(d.hostname)];
    var dn := if d.domain != "" then [DomainName(d.domain)] else [];
    var v6 := if d.ipv6ur then [Ipv6Routing] else [];
    var c := [Credentials(d.enPass, d.conPass, d.execTimeout)];
    assert Blocks(d) == h + dn + v6 + c + VtyBlocks(d);
    assert b in VtyBlocks(d) <==> (b in LoginBlocks(d) || b in SshBlocks(d)
      || b == VtyLines(d.execTimeout, d.vtyTrans) || b in TailBlocks(d));
  }

  /** The domain and IPv6 routing lines are written exactly when set. */
  lemma OptionalBlocks(d: Device)
    ensures DomainName(d.domain) in Blocks(d) <==> d.domain != ""
    ensures Ipv6Routing in Blocks(d) <==> d.ipv6ur
  {
    BlocksMembers(d, DomainName(d.domain));
    BlocksMembers(d, Ipv6Routing);
  }

  /** The user name line is written exactly for local login, and then
      carries the local credentials. */
  lemma UsernameBlock(d: Device)
    ensures Username(d.localUser, d.localPass) in Blocks(d) <==> d.vtyLogin == LOCAL_LOGIN
    ensures forall u, p :: Username(u, p) in Blocks(d) ==> u == d.localUser && p == d.localPass
  {
    forall u, p | true
      ensures Username(u, p) in Blocks(d) <==> d.vtyLogin == LOCAL_LOGIN && u == d.localUser && p == d.localPass
    {
      BlocksMembers(d, Username(u, p));
    }
  }

  /** The key generation and SSH version directives are written exactly
      when login is local, the transport mentions `ssh` and a domain is
      set. */
  lemma SshBlocksPresent(d: Device)
    ensures SshVersion in Blocks(d) <==> SshEnabled(d)
    ensures RsaKey(d.rsaMod, d.pktracer) in Blocks(d) <==> SshEnabled(d)
    ensures forall m, pt :: RsaKey(m, pt) in Blocks(d) ==> m == d.rsaMod && pt == d.pktracer
  {
    BlocksMembers(d, SshVersion);
    forall m, pt | true
      ensures RsaKey(m, pt) in Blocks(d) <==> SshEnabled(d) && m == d.rsaMod && pt == d.pktracer
    {
      BlocksMembers(d, RsaKey(m, pt));
    }
  }

  /** The diagnostic and the SSH directives never come together: a
      warned-about request writes no SSH directive and no user name. */
  lemma WarningExcludesSsh(d: Device)
    requires Output(d).warning
    ensures SshVersion !in Blocks(d)
    ensures Username(d.localUser, d.localPass) !in Blocks(d)
  {
    SshBlocksPresent(d);
    UsernameBlock(d);
  }

  /** The VTY lines are always written, with the timeout and transport. */
  lemma VtyLinesPresent(d: Device)
    ensures VtyLines(d.execTimeout, d.vtyTrans) in Blocks(d)
  {
    BlocksMembers(d, VtyLines(d.execTimeout, d.vtyTrans));
  }

  /** The access-control tail: ` no login` for no transport, a password
      and ` login` for telnet with password login, the login mode for
      telnet otherwise, nothing for any other transport. */
  lemma AccessControl(d: Device)
    ensures NoLogin in Blocks(d) <==> d.vtyTrans == "none"
    ensures PasswordLogin(d.localPass, PASSWORD_LOGIN) in Blocks(d)
      <==> d.vtyTrans == "telnet" && d.vtyLogin == PASSWORD_LOGIN
    ensures VtyLogin(d.vtyLogin) in Blocks(d) <==> d.vtyTrans == "telnet" && d.vtyLogin != PASSWORD_LOGIN
    ensures d.vtyTrans != "none" && d.vtyTrans != "telnet" ==> Blocks(d)[|Blocks(d)| - 1] == VtyLines(d.execTimeout, d.vtyTrans)
  {
    BlocksMembers(d, NoLogin);
    BlocksMembers(d, PasswordLogin(d.localPass, PASSWORD_LOGIN));
    BlocksMembers(d, VtyLogin(d.vtyLogin));
  }

  class DeviceConfig {
    var hostname: string
    var domain: string
    var ipv6ur: bool
    var enPass: string
    var conPass: string
    var localUser: string
    var localPass: string
    var vtyLogin: string
    var vtyTrans: string
    var execTimeout: nat
    var pktracer: bool
    var rsaMod: nat

    function Fields(): Device
      reads this
    {
      Device(hostname, domain, ipv6ur, enPass, conPass, localUser, localPass, vtyLogin, vtyTrans,
             execTimeout, pktracer, rsaMod)
    }

    /** A new record: host name, console password and enable secret
        given; no domain, IPv6 routing on, password login with password
        `cisco`, no transport, a 5-minute timeout, the device's own key
        generation syntax and a 2048-bit modulus. */
    constructor (host: string, con: string, en: string)
      ensures Fields() == Initial(host, con, en)
    {
      hostname := host;
      conPass := con;
      enPass := en;
      domain := "";
      ipv6ur := true;
      localUser := "";
      localPass := "cisco";
      vtyLogin := PASSWORD_LOGIN;
      vtyTrans := "none";
      execTimeout := 5;
      pktracer := false;
      rsaMod := 2048;
    }

    /** `conf_login`: only the credentials and the login mode change. */
    method ConfLogin(userpass: string)
      requires multiset(userpass)[':'] == 1
      modifies this
      ensures Fields() == WithLogin(old(Fields()), userpass)
    {
      var (user, pass) := SplitOnce(userpass, ':');
      localUser, localPass := user, pass;
      if localUser == "" {
        vtyLogin := PASSWORD_LOGIN;
      } else {
        vtyLogin := LOCAL_LOGIN;
      }
    }

    method ConfIpv6ur(enabled: bool)
      modifies this
      ensures Fields() == old(Fields()).(ipv6ur := enabled)
    {
      ipv6ur := enabled;
    }

    method ConfDomain(dn: string)
      modifies this
      ensures Fields() == old(Fields()).(domain := dn)
    {
      domain := dn;
    }

    method ConfVty(transport: string)
      modifies this
      ensures Fields() == old(Fields()).(vtyTrans := transport)
    {
      vtyTrans := transport;
    }

    method ConfPktracer(mode: bool)
      modifies this
      ensures Fields() == old(Fields()).(pktracer := mode)
    {
      pktracer := mode;
    }
  }

  /** The transport the script selects from its telnet, ssh and login
      options; `none` (the default) when neither transport is asked for. */
  function Transport(telnet: bool, ssh: bool, login: bool): (r: string)
    ensures r in {"telnet ssh", "telnet", "ssh", "none"}
  {
    if telnet then (if ssh && login then "telnet ssh" else "telnet")
    else if ssh then "ssh"
    else "none"
  }

  /** SSH is among the selected transports exactly when it was asked for
      and, together with telnet, only with login credentials: telnet
      without credentials drops SSH silently. */
  lemma TransportSsh(telnet: bool, ssh: bool, login: bool)
    ensures Contains(Transport(telnet, ssh, login), "ssh") <==> ssh && (!telnet || login)
  {
    var r := Transport(telnet, ssh, login);
    if r == "telnet ssh" {
      ContainsMiddle("telnet ", "ssh", "");
      assert "telnet " + "ssh" + "" == r;
    } else if r == "ssh" {
      ContainsMiddle("", "ssh", "");
      assert "" + "ssh" + "" == r;
    } else {
      assert 's' !in r;
      NotContainsFirst(r, "ssh");
    }
  }

  /** Telnet is among the selected transports exactly when asked for. */
  lemma TransportTelnet(telnet: bool, ssh: bool, login: bool)
    ensures Contains(Transport(telnet, ssh, login), "telnet") <==> telnet
  {
    var r := Transport(telnet, ssh, login);
    if r == "telnet ssh" {
      ContainsMiddle("", "telnet", " ssh");
      assert "" + "telnet" + " ssh" == r;
    } else if r == "telnet" {
      ContainsMiddle("", "telnet", "");
      assert "" + "telnet" + "" == r;
    } else {
      assert 't' !in r;
      NotContainsFirst(r, "telnet");
    }
  }

  /** The script's options; an absent option is "" or false. */
  datatype DeviceArgs = DeviceArgs(
    hostname: string,
    consolePass: string,
    enablePass: string,
    domain: string,
    login: string,
    telnet: bool,
    ssh: bool,
    noipv6: bool,
    packettracer: bool)

  /** Login credentials, when given, hold exactly one colon. */
  predicate LoginWellFormed(args: DeviceArgs) {
    args.login == "" || multiset(args.login)[':'] == 1
  }

  /** The domain and credentials options, applied in the script's order. */
  function WithIdentity(d: Device, args: DeviceArgs): Device
    requires LoginWellFormed(args)
  {
    var d1 := if args.domain != "" then d.(domain := args.domain) else d;
    if args.login != "" then WithLogin(d1, args.login) else d1
  }

  /** The packet tracer, IPv6 and transport options, applied in the
      script's order; the transport is left alone when neither telnet
      nor ssh is asked for. */
  function WithAccess(d: Device, args: DeviceArgs): Device {
    var d1 := if args.packettracer then d.(pktracer := true) else d;
    var d2 := if args.noipv6 then d1.(ipv6ur := false) else d1;
    if args.telnet || args.ssh then d2.(vtyTrans := Transport(args.telnet, args.ssh, args.login != "")) else d2
  }

  /** The record after the script's setter calls, in the script's order:
      domain, login, packet tracer syntax, IPv6 routing, transport. */
  function Configured(args: DeviceArgs): (d: Device)
    requires LoginWellFormed(args)
    ensures d.vtyTrans == Transport(args.telnet, args.ssh, args.login != "")
  {
    WithAccess(WithIdentity(Initial(args.hostname, args.consolePass, args.enablePass), args), args)
  }

  method ApplyIdentity(c: DeviceConfig, args: DeviceArgs)
    requires LoginWellFormed(args)
    modifies c
    ensures c.Fields() == WithIdentity(old(c.Fields()), args)
  {
    if args.domain != "" {
      c.ConfDomain(args.domain);
    }
    if args.login != "" {
      c.ConfLogin(args.login);
    }
  }

  method ApplyAccess(c: DeviceConfig, args: DeviceArgs)
    modifies c
    ensures c.Fields() == WithAccess(old(c.Fields()), args)
  {
    if args.packettracer {
      c.ConfPktracer(true);
    }
    if args.noipv6 {
      c.ConfIpv6ur(false);
    }
    if args.telnet {
      if args.ssh && args.login != "" {
        c.ConfVty("telnet ssh");
      } else {
        c.ConfVty("telnet");
      }
    } else if args.ssh {
      c.ConfVty("ssh");
    }
  }

  /** The script: build the record from the options and generate its
      text, with the SSH diagnostic as a flag. */
  method Generate(args: DeviceArgs) returns (config: string, warning: bool)
    requires LoginWellFormed(args)
    ensures config == Render(Blocks(Configured(args)))
    ensures warning == Output(Configured(args)).warning
  {
    var c := new DeviceConfig(args.hostname, args.consolePass, args.enablePass);
    ApplyIdentity(c, args);
    ApplyAccess(c, args);
    var d := c.Fields();
    assert d == Configured(args);
    var g := Output(d);
    config, warning := g.text, g.warning;
  }

  /** The login mode the script ends with is local exactly when
      credentials with a user name were given. */
  lemma ConfiguredLogin(args: DeviceArgs)
    requires LoginWellFormed(args)
    ensures Configured(args).vtyLogin == LOCAL_LOGIN
      <==> args.login != "" && SplitOnce(args.login, ':').0 != ""
  {
  }

  /** End to end, SSH is set up exactly when it is asked for with a
      domain and credentials naming a user (and, with telnet, only then
      too); otherwise an SSH request without such credentials draws the
      diagnostic. */
  lemma ScriptSsh(args: DeviceArgs)
    requires LoginWellFormed(args)
    ensures SshVersion in Blocks(Configured(args))
      <==> args.ssh && args.domain != "" && args.login != "" && SplitOnce(args.login, ':').0 != ""
    ensures Output(Configured(args)).warning
      <==> args.ssh && (!args.telnet || args.login != "")
           && !(args.login != "" && SplitOnce(args.login, ':').0 != "")
  {
    var d := Configured(args);
    TransportSsh(args.telnet, args.ssh, args.login != "");
    ConfiguredLogin(args);
    SshBlocksPresent(d);
  }

  /** With no options, the record renders to the hostname block, IPv6
      routing, the credentials, and VTY lines without transport or login. */
  lemma PlainScenario(args: DeviceArgs)
    requires args == DeviceArgs(args.hostname, args.consolePass, args.enablePass, "", "", false, false, false, false)
    ensures Blocks(Configured(args)) == [Banner(args.hostname), Ipv6Routing,
      Credentials(args.enablePass, args.consolePass, 5), VtyLines(5, "none"), NoLogin]
    ensures !Output(Configured(args)).warning
  {
    var d := Configured(args);
    assert d == Initial(args.hostname, args.consolePass, args.enablePass);
    assert 's' !in "none";
    NotContainsFirst("none", "ssh");
  }

  /** Domain, credentials with a user name and SSH: the user name, key
      generation with the default modulus, SSH version 2, and VTY lines
      over SSH with no further access-control line. */
  lemma SshScenario(args: DeviceArgs, user: string, pass: string)
    requires user != "" && ':' !in user && ':' !in pass
    requires args == DeviceArgs(args.hostname, args.consolePass, args.enablePass, args.domain,
      user + ":" + pass, false, true, false, false)
    requires args.domain != ""
    ensures LoginWellFormed(args)
    ensures Blocks(Configured(args)) == [Banner(args.hostname), DomainName(args.domain), Ipv6Routing,
      Credentials(args.enablePass, args.consolePass, 5), Username(user, pass), RsaKey(2048, false),
      SshVersion, VtyLines(5, "ssh")]
    ensures !Output(Configured(args)).warning
  {
    SplitOnceJoin(user, ':', pass);
    assert user + ":" + pass == user + [':'] + pass;
    var d := Configured(args);
    assert d.localUser == user && d.localPass == pass && d.vtyLogin == LOCAL_LOGIN;
    assert d.vtyTrans == "ssh";
    ContainsMiddle("", "ssh", "");
    assert "" + "ssh" + "" == "ssh";
  }
}
