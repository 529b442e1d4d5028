/**
  The deterministic decisions of the network service mesh manager's startup
  code (internal/manager/manager.go): which listen endpoint is the default,
  which URL the manager advertises, which directories it creates for unix
  sockets, and whether it dials a registry at all.
 */
module NsmManager {
  import opened Wrappers
  import opened GoLib

  const TcpSchema: string := "tcp"
  const UnixSchema: string := "unix"

  /** The parts of a net/url URL the manager looks at. */
  datatype Url = Url(scheme: string, host: string, path: string)

  /**
    One entry of net.InterfaceAddrs(): whether it is a *net.IPNet, whether its
    IP is a loopback address, whether it has an IPv4 form (To4() != nil), and
    the IP's printed form.
   */
  datatype Addr = Addr(isIPNet: bool, isLoopback: bool, isIPv4: bool, ipString: string)

  /** The configuration fields the modelled code reads. */
  datatype Config = Config(name: string, listenOn: seq<Url>, registryURL: Url)

  /** A registry connection handle returned by a successful dial. */
  datatype ClientConn = ClientConn(target: string)

  predicate IsTcp(u: Url)
  {
    u.scheme == TcpSchema
  }

  /** Index of the first element of `s` satisfying `p`, if there is one. */
  function FirstWhere<T>(s: seq<T>, p: T -> bool): (r: Option<nat>)
    ensures r.Some? ==> r.value < |s| && p(s[r.value]) && forall j :: 0 <= j < r.value ==> !p(s[j])
    ensures r.None? ==> forall j :: 0 <= j < |s| ==> !p(s[j])
  {
    if |s| == 0 then None
    else if p(s[0]) then Some(0)
    else
      match FirstWhere(s[1..], p)
      case None => None
      case Some(k) => Some(k + 1)
  }

  // ---------------------------------------------------------------------
  // defaultURL
  // ---------------------------------------------------------------------

  /**
    The entry of listenOn that defaultURL points at: the first "tcp" entry,
    or entry 0 when no entry is "tcp". An empty listenOn makes the Go code
    index out of range, so it is excluded.
   */
  function DefaultIndex(listenOn: seq<Url>): (i: nat)
    requires |listenOn| > 0
    ensures i < |listenOn|
    ensures IsTcp(listenOn[i]) ==> forall j :: 0 <= j < i ==> !IsTcp(listenOn[j])
    ensures !IsTcp(listenOn[i]) ==> i == 0 && forall j :: 0 <= j < |listenOn| ==> !IsTcp(listenOn[j])
  {
    match FirstWhere(listenOn, IsTcp)
    case Some(k) => k
    case None => 0
  }

  /** defaultURL: the returned pointer &ListenOn[i] is modelled by the index i. */
  method DefaultURL(listenOn: seq<Url>) returns (i: nat)
    requires |listenOn| > 0
    ensures i == DefaultIndex(listenOn)
  {
    i := 0;
    while i < |listenOn|
      invariant i <= |listenOn|
      invariant forall j :: 0 <= j < i ==> !IsTcp(listenOn[j])
    {
      if listenOn[i].scheme == TcpSchema {
        return;
      }
      i := i + 1;
    }
    i := 0;
  }

  // ---------------------------------------------------------------------
  // getPublicURL
  // ---------------------------------------------------------------------

  /**
    The condition under which getPublicURL looks for an interface address:
    the port is not empty and the host is exactly one character longer than
    the port. A host with an address in front of the port, "0.0.0.0:5001"
    included, does not satisfy it.
   */
  predicate IsPortOnlyHost(host: string)
  {
    Port(host) != [] && |host| == |":"| + |Port(host)|
  }

  /** IsPortOnlyHost holds exactly of ':' followed by one or more digits. */
  lemma {:induction false} PortOnlyHostIff(host: string)
    ensures IsPortOnlyHost(host) <==> |host| >= 2 && host[0] == ':' && IsDigits(host[1..])
  {
    if |host| >= 2 && host[0] == ':' && IsDigits(host[1..]) {
      assert host == HostPort([], host[1..]);
      PortOfHostPort([], host[1..]);
    }
  }

  /** An address getPublicURL accepts: an IP network, not loopback, IPv4. */
  predicate Qualifies(a: Addr)
  {
    a.isIPNet && !a.isLoopback && a.isIPv4
  }

  /** Address k is the first one getPublicURL accepts: every earlier one fails a test. */
  predicate IsFirstQualifying(addrs: seq<Addr>, k: int)
  {
    0 <= k < |addrs| && Qualifies(addrs[k]) && forall j :: 0 <= j < k ==> !Qualifies(addrs[j])
  }

  /** fmt.Sprintf("%v://%v:%v", tcpSchema, ip, port). */
  function TcpURL(ip: string, port: string): string
  {
    TcpSchema + "://" + HostPort(ip, port)
  }

  /**
    What getPublicURL returns, given the interface enumeration (None when
    net.InterfaceAddrs fails) and url.URL.String() as `show`.
   */
  function PublicURL(listenOn: seq<Url>, addrs: Option<seq<Addr>>, show: Url -> string): (r: string)
    requires |listenOn| > 0
    ensures var u := listenOn[DefaultIndex(listenOn)];
      !IsPortOnlyHost(u.host) || addrs.None? ==> r == show(u)
    ensures var u := listenOn[DefaultIndex(listenOn)];
      addrs.Some? && (forall j :: 0 <= j < |addrs.value| ==> !Qualifies(addrs.value[j])) ==> r == show(u)
    ensures var u := listenOn[DefaultIndex(listenOn)];
      IsPortOnlyHost(u.host) && addrs.Some? ==>
        forall k :: IsFirstQualifying(addrs.value, k) ==> r == TcpURL(addrs.value[k].ipString, Port(u.host))
  {
    var u := listenOn[DefaultIndex(listenOn)];
    if !IsPortOnlyHost(u.host) || addrs.None? then show(u)
    else
      match FirstWhere(addrs.value, Qualifies)
      case None => show(u)
      case Some(k) => TcpURL(addrs.value[k].ipString, Port(u.host))
  }

  /**
    When getPublicURL rewrites, the result has scheme "tcp", whatever the
    default entry's scheme was, and its host carries the original port.
   */
  lemma {:induction false} RewriteKeepsPort(listenOn: seq<Url>, addrs: seq<Addr>, show: Url -> string)
    requires |listenOn| > 0
    requires IsPortOnlyHost(listenOn[DefaultIndex(listenOn)].host)
    requires exists k :: 0 <= k < |addrs| && Qualifies(addrs[k])
    ensures var r := PublicURL(listenOn, Some(addrs), show);
      |r| > 6 && r[..6] == "tcp://" && Port(r[6..]) == Port(listenOn[DefaultIndex(listenOn)].host)
  {
    var port := Port(listenOn[DefaultIndex(listenOn)].host);
    var found := FirstWhere(addrs, Qualifies);
    assert found.Some?;
    var hostPort := HostPort(addrs[found.value].ipString, port);
    var r := PublicURL(listenOn, Some(addrs), show);
    assert r == (TcpSchema + "://") + hostPort;
    assert TcpSchema + "://" == "tcp://";
    PortOfHostPort(addrs[found.value].ipString, port);
  }

  /**
    An endpoint bound to "0.0.0.0:5001" is advertised as configured: the host
    has an address in front of its port, so no interface address is looked up.
   */
  lemma ZeroAddressHostKept(addrs: Option<seq<Addr>>, show: Url -> string)
    ensures var u := Url(TcpSchema, "0.0.0.0:5001", []);
      PublicURL([u, Url(UnixSchema, [], "/var/run/nsm.sock")], addrs, show) == show(u)
  {
    PortOnlyHostIff("0.0.0.0:5001");
  }

  /**
    An endpoint bound to ":5001", listed after a unix socket, is advertised
    with the first non-loopback IPv4 address: here the third address, after a
    loopback entry and an IPv6-only entry.
   */
  lemma PortOnlyHostRewritten(socket: string, loopback: string, v6: string, ip: string, show: Url -> string)
    ensures var listenOn := [Url(UnixSchema, [], socket), Url(TcpSchema, ":5001", [])];
      var addrs := [Addr(true, true, true, loopback), Addr(true, false, false, v6), Addr(true, false, true, ip)];
      PublicURL(listenOn, Some(addrs), show) == TcpURL(ip, "5001")
  {
    var listenOn := [Url(UnixSchema, [], socket), Url(TcpSchema, ":5001", [])];
    var addrs := [Addr(true, true, true, loopback), Addr(true, false, false, v6), Addr(true, false, true, ip)];
    assert DefaultIndex(listenOn) == 1 by {
      assert !IsTcp(listenOn[0]) && IsTcp(listenOn[1]);
    }
    assert IsPortOnlyHost(":5001") && Port(":5001") == "5001" by {
      assert ":5001" == HostPort([], "5001");
      PortOfHostPort([], "5001");
    }
    assert IsFirstQualifying(addrs, 2) by {
      assert !Qualifies(addrs[0]) && !Qualifies(addrs[1]) && Qualifies(addrs[2]);
    }
  }

  /** getPublicURL, with the address enumeration and URL printing as inputs. */
  method GetPublicURL(listenOn: seq<Url>, addrs: Option<seq<Addr>>, show: Url -> string) returns (r: string)
    requires |listenOn| > 0
    ensures r == PublicURL(listenOn, addrs, show)
  {
    var i := DefaultURL(listenOn);
    var u := listenOn[i];
    var port := Port(u.host);
    if port == [] || |u.host| != |":"| + |port| {
      return show(u);
    }
    if addrs.None? {
      // the enumeration error is only logged
      return show(u);
    }
    var candidates := addrs.value;
    var k := 0;
    while k < |candidates|
      invariant k <= |candidates|
      invariant forall j :: 0 <= j < k ==> !Qualifies(candidates[j])
    {
      var a := candidates[k];
      if a.isIPNet && !a.isLoopback {
        if a.isIPv4 {
          return TcpURL(a.ipString, port);
        }
      }
      k := k + 1;
    }
    return show(u);
  }

  // ---------------------------------------------------------------------
  // createListenFolders
  // ---------------------------------------------------------------------

  /** A directory part as path.Split returns it: empty, or ending in '/'. */
  predicate IsDirPart(d: string)
  {
    d == [] || d[|d| - 1] == '/'
  }

  /** The directory createListenFolders makes for one entry: one for "unix", none otherwise. */
  function FolderOf(u: Url): (dirs: seq<string>)
    ensures |dirs| <= 1
    ensures |dirs| == 1 <==> u.scheme == UnixSchema
    ensures |dirs| == 1 ==> IsDirPart(dirs[0])
  {
    if u.scheme == UnixSchema then [PathSplit(u.path).0] else []
  }

  /** The directories createListenFolders passes to os.MkdirAll, in order. */
  function ListenFolders(listenOn: seq<Url>): (dirs: seq<string>)
    ensures |dirs| <= |listenOn|
    ensures forall k :: 0 <= k < |dirs| ==> IsDirPart(dirs[k])
  {
    if |listenOn| == 0 then []
    else FolderOf(listenOn[0]) + ListenFolders(listenOn[1..])
  }

  /** No directory is created exactly when no entry is "unix". */
  lemma {:induction false} ListenFoldersEmptyIff(listenOn: seq<Url>)
    ensures ListenFolders(listenOn) == [] <==> forall i :: 0 <= i < |listenOn| ==> listenOn[i].scheme != UnixSchema
  {
    if |listenOn| > 0 {
      ListenFoldersEmptyIff(listenOn[1..]);
      assert forall i :: 1 <= i < |listenOn| ==> listenOn[i] == listenOn[1..][i - 1];
    }
  }

  /** The directory list of a concatenation is the concatenation of the lists. */
  lemma {:induction false} ListenFoldersAppend(a: seq<Url>, b: seq<Url>)
    ensures ListenFolders(a + b) == ListenFolders(a) + ListenFolders(b)
  {
    if a == [] {
      assert a + b == b;
    } else {
      assert (a + b)[1..] == a[1..] + b;
      ListenFoldersAppend(a[1..], b);
    }
  }

  /** Adding one entry adds its directory, if any, at the end. */
  lemma {:induction false} ListenFoldersStep(listenOn: seq<Url>, i: nat)
    requires i < |listenOn|
    ensures ListenFolders(listenOn[..i + 1]) == ListenFolders(listenOn[..i]) + FolderOf(listenOn[i])
  {
    assert listenOn[..i + 1] == listenOn[..i] + [listenOn[i]];
    ListenFoldersAppend(listenOn[..i], [listenOn[i]]);
    assert [listenOn[i]][1..] == [];
  }

  /**
    The "unix" entry at index i gets its directory at the position that
    follows one directory per earlier "unix" entry.
   */
  lemma {:induction false} ListenFoldersAt(listenOn: seq<Url>, i: nat)
    requires i < |listenOn| && listenOn[i].scheme == UnixSchema
    ensures var k := |ListenFolders(listenOn[..i])|;
      k < |ListenFolders(listenOn)| && ListenFolders(listenOn)[k] == PathSplit(listenOn[i].path).0
  {
    var dir := PathSplit(listenOn[i].path).0;
    if i == 0 {
      assert listenOn[..0] == [];
      assert ListenFolders(listenOn) == [dir] + ListenFolders(listenOn[1..]);
    } else {
      var rest := listenOn[1..];
      ListenFoldersAt(rest, i - 1);
      var head := FolderOf(listenOn[0]);
      var tail := ListenFolders(rest);
      var k' := |ListenFolders(rest[..i - 1])|;
      assert k' < |tail| && tail[k'] == dir;
      assert listenOn[..i][1..] == rest[..i - 1];
      assert ListenFolders(listenOn[..i]) == head + ListenFolders(rest[..i - 1]);
      assert ListenFolders(listenOn) == head + tail;
      assert (head + tail)[|head| + k'] == dir;
    }
  }

  /** createListenFolders, returning the directories it would create instead of creating them. */
  method CreateListenFolders(listenOn: seq<Url>) returns (dirs: seq<string>)
    ensures dirs == ListenFolders(listenOn)
  {
    dirs := [];
    var i := 0;
    while i < |listenOn|
      invariant i <= |listenOn|
      invariant dirs == ListenFolders(listenOn[..i])
    {
      var u := listenOn[i];
      if u.scheme == UnixSchema {
        var (nsmDir, _) := PathSplit(u.path);
        dirs := dirs + [nsmDir];
      }
      ListenFoldersStep(listenOn, i);
      i := i + 1;
    }
    assert listenOn[..i] == listenOn;
  }

  // ---------------------------------------------------------------------
  // The manager record and connectRegistry
  // ---------------------------------------------------------------------

  class Manager {
    const configuration: Config
    var registryCC: Option<ClientConn>
    /** The registry URLs this manager has dialed, oldest first. */
    ghost var dialed: seq<Url>

    constructor (configuration: Config)
      ensures this.configuration == configuration
      ensures registryCC == None && dialed == []
    {
      this.configuration := configuration;
      registryCC := None;
      dialed := [];
    }

    /**
      connectRegistry. `show` is url.URL.String(); `dial` is what
      grpc.DialContext yields when it is called (a connection, or an error
      with no connection).
     */
    method ConnectRegistry(show: Url -> string, dial: Result<ClientConn, string>) returns (err: Option<string>)
      modifies this
      ensures show(configuration.registryURL) == [] ==>
        registryCC == None && err == None && dialed == old(dialed)
      ensures show(configuration.registryURL) != [] ==>
        dialed == old(dialed) + [configuration.registryURL] &&
        match dial
        case Success(cc) => registryCC == Some(cc) && err == None
        case Failure(e) => registryCC == None && err == Some(e)
    {
      if show(configuration.registryURL) == [] {
        registryCC := None;
        return None;
      }
      dialed := dialed + [configuration.registryURL];
      match dial
      case Success(cc) =>
        registryCC := Some(cc);
        err := None;
      case Failure(e) =>
        registryCC := None;
        err := Some(e);
    }
  }
}
