# Network service mesh manager: startup decisions

This project models the deterministic part of the network service mesh
manager's startup code (`internal/manager/manager.go`) and proves what it
decides:

- **Default listen endpoint** (`defaultURL`): the first `ListenOn` entry with
  scheme `tcp`, or entry 0 when there is none. The Go function returns a
  pointer into `ListenOn`; the model returns its index.
- **Advertised URL** (`getPublicURL`): the default entry's `String()`, unless
  its host is exactly `":" + port`. In that case the manager looks at the
  interface addresses. It returns `tcp://<ip>:<port>` for the first address
  that is an IP network, not loopback and IPv4. It falls back to `String()`
  when the enumeration fails or when no address qualifies.
- **Unix-socket directories** (`createListenFolders`): one directory per
  `unix` entry, in order. Each directory is the directory part of `path.Split`
  applied to the entry's path.
- **Registry connection** (`connectRegistry`): an empty registry URL means
  standalone mode. The manager then has no registry connection, reports no
  error and does not dial.

Module `GoLib` (golib.dfy) models the Go library routines these rely on:
`strings.LastIndexByte`, `path.Split` and `url.URL.Port`, following Go's
`splitHostPort`. Module `NsmManager` (manager.dfy) models manager.go. Module
`Wrappers` (wrappers.dfy) holds `Option` and `Result`.

Inputs that come from outside the code:

- the result of `net.InterfaceAddrs()` is a parameter `Option<seq<Addr>>`.
  `None` stands for an enumeration error. Each `Addr` records whether it is a
  `*net.IPNet`, whether its IP is loopback, whether it has an IPv4 form, and
  the IP's printed form;
- `url.URL.String()` is a parameter `show: Url -> string` and is not
  interpreted;
- the outcome of `grpc.DialContext` is a parameter of `ConnectRegistry`.

A design description of this component says that a wildcard bind such as
`tcp://0.0.0.0:5001` is advertised with a real interface address. The code
does not do that. Line 242 rewrites only a host that is exactly `":" + port`,
so `0.0.0.0:5001` is advertised unchanged. The model follows the code.
`ZeroAddressHostKept` proves the unchanged result, and `PortOnlyHostRewritten`
shows the rewrite of `:5001`.

## Model

| member | source | states |
|---|---|---|
| `NsmManager.DefaultIndex` | internal/manager/manager.go:230-238 | needs a non-empty ListenOn; gives an index into it; a "tcp" result is preceded only by non-"tcp" entries; a non-"tcp" result is index 0 and then no entry is "tcp" |
| `NsmManager.DefaultURL` | internal/manager/manager.go:230-238 | the index loop with early return picks exactly the entry DefaultIndex characterises |
| `NsmManager.FirstWhere` | internal/manager/manager.go:250-256 | the first-match search both loops perform: a found index satisfies the test and every earlier element fails it; None means no element satisfies it |
| `GoLib.Port` | internal/manager/manager.go:242 | `u.Port()`: a string of decimal digits; when non-empty it is the suffix of the host right after a ':' |
| `GoLib.PortOfHostPort` | internal/manager/manager.go:253 | for any address and decimal port, `Port(addr + ":" + port) == port` (the port survives the rewrite) |
| `NsmManager.PortOnlyHostIff` | internal/manager/manager.go:242 | the test "port non-empty and len(host) == 1 + len(port)" holds exactly of ':' followed by one or more digits |
| `NsmManager.PublicURL` | internal/manager/manager.go:240-258 | result is `String()` of the default entry when the host is not ":"+port or enumeration failed, and when no address qualifies; otherwise it is `tcp://` + the first qualifying address's IP + ":" + the port |
| `NsmManager.RewriteKeepsPort` | internal/manager/manager.go:250-254 | when a rewrite happens, the result starts with "tcp://" whatever the entry's scheme, and the Port of its host equals the original port |
| `NsmManager.ZeroAddressHostKept` | internal/manager/manager.go:242-243 | an endpoint "tcp" with host "0.0.0.0:5001" is advertised as its own `String()` for every enumeration outcome |
| `NsmManager.PortOnlyHostRewritten` | internal/manager/manager.go:250-253 | with endpoints [unix, tcp ":5001"] and addresses [loopback IPv4, non-loopback IPv6-only, non-loopback IPv4 `ip`] the result is "tcp://" + ip + ":5001", for every choice of the printed addresses |
| `NsmManager.GetPublicURL` | internal/manager/manager.go:240-258 | the method with its address loop returns exactly PublicURL |
| `GoLib.PathSplit` | internal/manager/manager.go:192 | `path.Split`: dir + file == path, file has no '/', dir is empty or ends in '/' |
| `GoLib.DirPartNoLonger` | internal/manager/manager.go:192 | a prefix of a path that is empty or ends in '/' is no longer than the directory part of any split whose file name has no '/' |
| `GoLib.PathSplitUnique` | internal/manager/manager.go:192 | any split with those three properties is the one PathSplit returns |
| `NsmManager.FolderOf` | internal/manager/manager.go:191-194 | one directory exactly for a "unix" entry, none otherwise; that directory is empty or ends in '/' |
| `NsmManager.ListenFolders` | internal/manager/manager.go:188-196 | at most one directory per entry; every directory is empty or ends in '/' |
| `NsmManager.ListenFoldersEmptyIff` | internal/manager/manager.go:189-195 | no directory is produced exactly when no entry has scheme "unix" |
| `NsmManager.ListenFoldersAppend` | internal/manager/manager.go:189-195 | the directory list of a concatenation of entries is the concatenation of the lists (order is kept) |
| `NsmManager.ListenFoldersStep` | internal/manager/manager.go:189-195 | one more entry appends its own directory, if any, at the end |
| `NsmManager.ListenFoldersAt` | internal/manager/manager.go:189-194 | the "unix" entry at index i has its `path.Split` directory at the position after the directories of the entries before it |
| `NsmManager.CreateListenFolders` | internal/manager/manager.go:188-196 | the loop produces exactly the ListenFolders list, in order |
| `NsmManager.Manager.constructor` | internal/manager/manager.go:96-98 | a fresh manager holds the configuration, has no registry connection and has dialed nothing |
| `NsmManager.Manager.ConnectRegistry` | internal/manager/manager.go:208-228 | empty registry URL: no connection, no error, nothing dialed; otherwise the registry URL is dialed once, and a successful dial stores the connection with no error while a failed one leaves no connection and returns the error |

## Left out

- `initSecurity` (the SPIFFE X.509 source and SVID): foreign library calls, and failure ends the process through `logrus.Fatalf`.
- The dial in `connectRegistry` (`grpc.DialContext` with its 5-second timeout, the TLS credentials and the target conversion): external libraries. Only its outcome enters the model, as a parameter.
- `RunNsmgr`'s assembly of the chain (`nsmgr.NewServer`, `grpc.NewServer`, `Register`), its logging and tracing setup, its time measurement and its wait on `ctx.Done()`: delegation to external libraries and I/O.
- `startServers` and `waitErrChan`: goroutines, a `sync.WaitGroup` and channel selects, whose point is concurrency.
- `Stop`: it cancels the context, stops the server and closes the identity source, all external effects. The code has no guard against a second call, so nothing about repeated stops is claimed.
- `CreateListenFolders`: the `os.MkdirAll` calls are not made; the method returns the directories in the order they would be created. Errors from `MkdirAll` are discarded by the code and play no part.
- `net.InterfaceAddrs()` and the printed forms of `url.URL` and `net.IP` are inputs, not modelled.
- `Config` keeps only the name, the listen endpoints and the registry URL. `MaxTokenLifetime` feeds only the token generator, which is not modelled.
