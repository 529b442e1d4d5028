/**
  The behaviour of the few Go standard-library routines the manager relies on:
  strings.LastIndexByte, path.Split and url.URL.Port.
 */
module GoLib {
  import opened Wrappers

  /** Index of the last occurrence of `c` in `s` (strings.LastIndexByte), or None. */
  function LastIndex(s: string, c: char): (r: Option<nat>)
    ensures r.Some? ==> r.value < |s| && s[r.value] == c && c !in s[r.value + 1..]
    ensures r.None? ==> c !in s
  {
    if |s| == 0 then None
    else if s[|s| - 1] == c then Some(|s| - 1)
    else
      var r := LastIndex(s[..|s| - 1], c);
      if r.Some? then
        assert s[r.value + 1..] == s[..|s| - 1][r.value + 1..] + [s[|s| - 1]];
        r
      else
        assert s == s[..|s| - 1] + [s[|s| - 1]];
        r
  }

  /**
    path.Split: splits immediately after the final '/', giving a directory
    part and a file name; with no '/' the directory part is empty.
   */
  function PathSplit(p: string): (r: (string, string))
    ensures r.0 + r.1 == p
    ensures '/' !in r.1
    ensures r.0 == [] || r.0[|r.0| - 1] == '/'
  {
    match LastIndex(p, '/')
    case None => ([], p)
    case Some(i) => (p[..i + 1], p[i + 1..])
  }

  /**
    A directory part of p can reach no further than the directory part of a
    split whose file name has no '/'.
   */
  lemma {:induction false} DirPartNoLonger(p: string, dir: string, file: string, other: string)
    requires dir + file == p && '/' !in file
    requires other <= p && (other == [] || other[|other| - 1] == '/')
    ensures |other| <= |dir|
  {
    assert forall k :: |dir| <= k < |p| ==> p[k] == file[k - |dir|];
    assert other != [] ==> p[|other| - 1] == '/';
  }

  /** The three properties of PathSplit determine its result. */
  lemma {:induction false} PathSplitUnique(p: string, dir: string, file: string)
    requires dir + file == p
    requires '/' !in file
    requires dir == [] || dir[|dir| - 1] == '/'
    ensures PathSplit(p) == (dir, file)
  {
    var (d, f) := PathSplit(p);
    assert dir == p[..|dir|] && d == p[..|d|];
    DirPartNoLonger(p, d, f, dir);
    DirPartNoLonger(p, dir, file, d);
    assert file == p[|dir|..] && f == p[|d|..];
  }

  predicate IsDigits(s: string)
  {
    forall i :: 0 <= i < |s| ==> '0' <= s[i] <= '9'
  }

  /**
    url.URL.Port applied to a host: the text after the last ':' when it is all
    decimal digits (the port may be empty), and "" when there is no ':' or
    something other than digits follows it.
   */
  function Port(host: string): (port: string)
    ensures IsDigits(port)
    ensures port != [] ==> |port| < |host| && host[|host| - |port| - 1] == ':' && host[|host| - |port|..] == port
  {
    match LastIndex(host, ':')
    case None => []
    case Some(i) => if IsDigits(host[i + 1..]) then host[i + 1..] else []
  }

  /** An address and a port joined by ':', as "%v:%v" prints them. */
  function HostPort(addr: string, port: string): string
  {
    addr + ":" + port
  }

  /** Joining an address and a decimal port with ':' and taking the Port back gives the port. */
  lemma {:induction false} PortOfHostPort(addr: string, port: string)
    requires IsDigits(port)
    ensures Port(HostPort(addr, port)) == port
  {
    var s := HostPort(addr, port);
    assert s[|addr|] == ':';
    assert s[|addr| + 1..] == port;
    assert LastIndex(s, ':') == Some(|addr|);
  }
}
