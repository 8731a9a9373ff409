# frp: a verified model of the reverse proxy

This project models the stateful core of frp, the reverse proxy, in Dafny and proves what its components
promise. `dafny verify dfyconfig.toml` checks all of it.

| file | what it models |
|---|---|
| `ClientHello.dfy`, `Handshake.dfy` | the reader that takes the server name from a TLS ClientHello: the reslicing loops, a recursive reading, a typed message with a serializer |
| `Names.dfy`, `Routers.dfy`, `VirtualHosts.dfy` | the routing table sorted by location, and the two wildcard lookups on top of it |
| `HttpGroups.dfy`, `HttpProxies.dfy`, `HttpRuns.dfy` | HTTP load-balancing groups, the transactional registration of an HTTP proxy, and whole runs of both |
| `Ports.dfy`, `TcpGroups.dfy` | the port manager with its shared records, TCP groups that share a port, and TCP proxies |
| `ControlProtocol.dfy`, `Controls.dfy` | the controls of the server: login, replacement, proxies, port quota, work connections, shutdown |
| `ProxyWrappers.dfy`, `ProxyManagers.dfy`, `ClientRuns.dfy` | the client's proxies: phases, messages, hot reload |
| `DateCounter.dfy`, `Reconnect.dfy` | the counter of the last days, and the pace of reconnecting |
| `Addresses.dfy`, `Collections.dfy`, `Options.dfy` | how addresses are written for the client; ranging over a map; optional values |

Objects that update themselves are classes, and their methods are proved against functions or predicates on
values; what the component promises is proved about those, for every input and every run. Where goroutines
meet, the component is a step system (`ControlProtocol`, `ClientRuns`): each mutex-guarded region or channel
operation is one step, and the theorems hold for every interleaving. What cannot be seen from the code comes
in as a parameter: the clock, the operating system's answer to a probe or a bind, whether running a proxy
succeeds, the random run id, what a network read returned. A shutdown object's start may be requested more
than once, and a wait for its end returns only after the end.

## Where the code falls short

Eight promises do not hold of the code as it stands. The model keeps the code; each has its exact condition.

- The round-robin index of an HTTP group is converted to a signed integer before the remainder is taken:
  from 2^63 on it can be negative (`HttpGroups.PickPanicsExactly`; `HttpGroups.ThreeMembersPanic` is an input).
- The first member of a TCP group acquires one port and binds the port it was asked for. With port 0 these
  differ, two holders can be given one port, and it can become free under a member
  (`TcpGroups.ZeroSharesExactly` has the condition, `TcpGroups.ZeroPortShared` is a run).
- The index of an HTTP group joins group, domain and location with underscores, so with an underscore in a
  domain two places of one proxy can have one index, and the second is refused
  (`HttpGroups.IndexCollides`; `HttpProxies.AllOrNothing` and `HttpProxies.RunSucceedsExactly` have the condition).
- If 0 is an allowed port, an acquisition can pick it, report a failure, and keep it marked as used
  (`Ports.FailureTakesOnlyZero`).
- A reserved port is handed out without a look at the table of used ports; only the probe protects its
  holder (`Ports.HandsOutUsedExactly`).
- The day counter mixes days when the clock goes back (`DateCounter.BackwardExactly` has the condition,
  `DateCounter.BackwardClockMixes` is a run).
- A ClientHello whose bytes do not all come with the one read that follows the first 47, as any that is longer
  than 1024 bytes, is refused (`ClientHello.ReadIffWhole`, `Handshake.GetHTTPSHostname`).
- A login that passes all checks with a pool count below -10 panics while the channel of the pool is made
  (`Controls.Service.AddControl`).

## Model

| member | source | states |
|---|---|---|
| `Handshake.ReadHandshake` | frp/pkg/util/vhost/https.go:55-181 | For every pair of reads, the reslicing code indexes inside its slices, ends, and answers what the recursive reading of the nested length fields answers, error kind included; a failed read is an error of its own. |
| `Handshake.ScanExtensions` | frp/pkg/util/vhost/https.go:124-180 | The loop over the extensions agrees with the recursive reading of the whole extension block; the remaining length shrinks in each turn. |
| `Handshake.ScanNames` | frp/pkg/util/vhost/https.go:146-175 | The loop over the entries of one server_name extension agrees with the recursive reading of the list (section 3 of RFC 6066). |
| `Handshake.GetHTTPSHostname` | frp/pkg/util/vhost/https.go:183-193 | A connection is given host `h` exactly when its bytes are a well-formed ClientHello whose first host_name, trimmed, is `h`; every other byte sequence is an error, in particular the beginning of a message that did not come whole. |
| `ClientHello.ReadSerialized` | frp/pkg/util/vhost/https.go:65-181 | Round trip: a serialized ClientHello, with any session, ciphers, compression methods, passed-over extensions and later data, is read back as its first host name, trimmed (sections 7.4.1.2 and 7.4.1.4 of RFC 5246). |
| `ClientHello.HelloWritten` | frp/pkg/util/vhost/https.go:65-181 | The other way: whatever the reader accepts is the serialization of some message, with the host it answered. |
| `ClientHello.AcceptedExactly` | frp/pkg/util/vhost/https.go:65-181 | Both directions together: acceptance with host `h` if and only if the bytes serialize a message for `h`. |
| `ClientHello.ReadIffWhole` | frp/pkg/util/vhost/https.go:60-111 | Of a well-formed ClientHello, or of one followed by more, the name is read if and only if exactly its own bytes were received. |
| `ClientHello.ExtensionsRead` | frp/pkg/util/vhost/https.go:124-178 | Extensions before the naming one are read past, and the first host_name entry wins whatever follows it. |
| `ClientHello.ExtensionStep` | frp/pkg/util/vhost/https.go:129-177 | One extension: a renegotiation_info that is not one zero byte fails, a server_name decides or is read past, any other is read past. |
| `ClientHello.TrimSpaceMeaning` | frp/pkg/util/vhost/https.go:171 | Trimming takes whole white-space characters off both ends, nothing else, and leaves none there. |
| `ClientHello.IsSpaceExactly` | frp/pkg/util/vhost/https.go:171 | White space is recognized by its UTF-8 encoding: a byte sequence is taken for a white-space character if and only if it encodes one of them. |
| `ClientHello.SampleRead` | frp/pkg/util/vhost/https.go:65-181 | The bytes of a message as a client sends it, written out, are read as the name in it. |
| `ClientHello.SampleRenegotiation` | frp/pkg/util/vhost/https.go:133-137 | A renegotiation_info extension, written out, that is not one zero byte is refused. |
| `Routers.Routers.Add` | frp/pkg/util/vhost/router.go:32-55 | Refused exactly when the domain has a route for that location; otherwise the table gains that route and stays sorted. |
| `Routers.Routers.Del` | frp/pkg/util/vhost/router.go:57-72 | The loop that rebuilds the list leaves the table without the routes of that location. |
| `Routers.Routers.Get` | frp/pkg/util/vhost/router.go:74-91 | The scan answers the first route in order whose location is a prefix of the path. |
| `Routers.Routers.Exist` | frp/pkg/util/vhost/router.go:93-106 | True exactly when the table has a payload for this domain and location. |
| `Routers.SortReverseSorts` | frp/pkg/util/vhost/router.go:52 | Sorting keeps the routes as a multiset and makes distinct locations strictly descending. |
| `Routers.DescendingUnique` | frp/pkg/util/vhost/router.go:109-119 | A set of routes has one descending order only, so two tables that answer lookups alike hold equal lists. |
| `Routers.LessExactly` | frp/pkg/util/vhost/router.go:109-119 | One location is less than another if and only if it is a proper prefix of it or has the lower character where they first differ. |
| `Routers.AddRouteEffect` | frp/pkg/util/vhost/router.go:32-55 | An addition keeps every list strictly descending, makes one route findable, never overwrites, and changes no other lookup. |
| `Routers.DelRouteEffect` | frp/pkg/util/vhost/router.go:57-72 | A deletion keeps every list strictly descending and takes away exactly one lookup. |
| `Routers.GetRouteLongest` | frp/pkg/util/vhost/router.go:74-91 | First match in descending order equals longest registered prefix: the scan answers `r` if and only if `r` is the longest one, and nothing if and only if no location is a prefix. |
| `Routers.RunAgrees` | frp/pkg/util/vhost/router.go:32-72 | After any sequence of additions and deletions the sorted lists and a plain finite map give the same answers. |
| `Routers.RunLongestPrefix` | frp/pkg/util/vhost/router.go:32-91 | After any sequence of additions and deletions a request gets the longest registered location that is a prefix of its path, or none. |
| `VirtualHosts.WildcardsExactly` | frp/pkg/util/vhost/http.go:173-190 | The domains tried after the host are exactly `*.` with each proper dot-suffix of two labels or more, longest first. |
| `VirtualHosts.FindVhostMeaning` | frp/pkg/util/vhost/http.go:164-191 | The lookup answers the longest location of the host itself; failing that, of the longest wildcard with a match; failing that, nothing. |
| `VirtualHosts.HTTPReverseProxy.GetVhost` | frp/pkg/util/vhost/http.go:165-191 | The loop of the HTTP reverse proxy ends and computes that lookup. |
| `VirtualHosts.Muxer.GetListener` | frp/pkg/util/vhost/vhost.go:100-127 | The separately written loop of the muxer computes the same lookup. |
| `VirtualHosts.HTTPReverseProxy.Register` | frp/pkg/util/vhost/http.go:103-109 | Registration fails exactly on a conflict and otherwise adds this one route. |
| `VirtualHosts.HTTPReverseProxy.UnRegister` | frp/pkg/util/vhost/http.go:112-114 | The route of this domain and location is deleted. |
| `VirtualHosts.Muxer.Listen` | frp/pkg/util/vhost/vhost.go:82-98 | A listener is handed out exactly when the place was free, and is what the table then has there. |
| `VirtualHosts.Muxer.CloseListener` | frp/pkg/util/vhost/vhost.go:233-237 | Closing deletes the listener's own place from the table and closes its accept channel; a second close panics after deleting the place again. |
| `VirtualHosts.ListenCloseRestores` | frp/pkg/util/vhost/vhost.go:82-98 | Listening and closing again gives back every list of the table. |
| `HttpGroups.HTTPGroup.Register` | frp/server/group/http.go:78-113 | First member takes the route or reports the conflict; a later one must agree in group, domain, location and key and not be repeated; a refusal changes nothing. |
| `HttpGroups.JoinedExactly` | frp/server/group/http.go:78-113 | Each refusal exactly: the first member needs the route to be free; a later one must agree in group, domain, location and key, and not be a member. Whoever joins comes last and the terms of the group are its own; the first member's settings are those of the route. |
| `HttpGroups.HTTPGroup.UnRegister` | frp/server/group/http.go:115-131 | The member goes from map and list; the route goes exactly with the last member. |
| `HttpGroups.HTTPGroup.CreateConn` | frp/server/group/http.go:133-152 | The counter advances by one with wrap-around at 2^64, and the source is that of the member picked for the new value. |
| `HttpGroups.HTTPGroupController.Register` | frp/server/group/http.go:27-40 | The whole call, with the group created on demand, leaves the routes and groups that the registration function says. |
| `HttpGroups.HTTPGroupController.UnRegister` | frp/server/group/http.go:42-55 | The whole call; a group without members leaves the map. |
| `HttpGroups.RegisterKeepsValid` | frp/server/group/http.go:78-113 | Successful or not, a registration keeps: names without repeats equal to the keys of the function map, each non-empty group with its own route, each group route with a non-empty group. |
| `HttpGroups.UnRegisterKeepsValid` | frp/server/group/http.go:115-131 | Leaving keeps the same invariant, whether or not the name is a member, if and only if it does not meet a group that nobody has joined while the route of the empty domain and location leads to a group. |
| `HttpGroups.MembersIffRoute` | frp/server/group/http.go:78-131 | A group has members if and only if some route leads to it, and its list has no repeats and equals the keys of its map. |
| `HttpGroups.IndexTellsPlace` | frp/server/group/http.go:154-156 | Places of one group whose domains have no underscore have different indices. |
| `HttpGroups.IndexCollides` | frp/server/group/http.go:154-156 | An input: with an underscore in a domain two places have one index. |
| `HttpGroups.EachMemberOnce` | frp/server/group/http.go:135-143 | n consecutive counter values below 2^63 pick each of n members exactly once, in rotated list order. |
| `HttpGroups.PickPanicsExactly` | frp/server/group/http.go:142 | The index is out of range if and only if the counter has reached 2^63 and n does not divide its distance to 2^64. |
| `HttpGroups.ThreeMembersPanic` | frp/server/group/http.go:142 | An input: with three members the pick at counter 2^63 is out of range. |
| `HttpProxies.HTTPProxy.Run` | frp/server/proxy/http.go:38-129 | The nested loops over domains and locations, with the undo list and the deferred close, do the registration whose meaning `AllOrNothing` gives; the answer lists the address of every place in order, and is empty after a failure. |
| `HttpProxies.HTTPProxy.Close` | frp/server/proxy/http.go:174-179 | The undo list is worked off in order. |
| `HttpProxies.HTTPProxy.RegisterCustomDomains` | frp/server/proxy/http.go:60-94 | The loop over custom domains skips empty ones and stops at the first place that fails, with exactly the places before it on the undo list. |
| `HttpProxies.HTTPProxy.RegisterDomain` | frp/server/proxy/http.go:66-93 | The loop over the locations of one domain, likewise. |
| `HttpProxies.AllOrNothing` | frp/server/proxy/http.go:38-129 | A run succeeds if and only if its places are distinct and each is free at the start; after a failure, or after success and close, every list of routes and every ordered group membership is as before, with and without groups. |
| `HttpProxies.TargetsExactly` | frp/server/proxy/http.go:48-126 | The places of a proxy are its non-empty custom domains and its subdomain of the server's host, each at every location, or at the empty one if none is named, and no others. |
| `HttpProxies.TargetsInOrder` | frp/server/proxy/http.go:60-126 | Their order: custom domains as listed, each at the locations as listed, then the subdomain at the same locations; and their number. |
| `HttpProxies.RanMeans` | frp/server/proxy/http.go:38-126 | After a run that succeeds each place without a group has a route with the proxy's rewrite host, headers, user, password and connections; in a group the proxy is the last member on the group's terms, and the route is that of the first member; no other place is routed anew. |
| `HttpProxies.RunSucceedsExactly` | frp/server/proxy/http.go:38-129 | If no domain has an underscore, a run succeeds if and only if its places are distinct and each is free at the start. |
| `HttpProxies.RegisterSeqProgress` | frp/server/proxy/http.go:60-126 | At every point of the run exactly the places passed so far are registered and the rest of the world is untouched. |
| `HttpProxies.UndoSeqRestores` | frp/server/proxy/http.go:174-179 | Working off the undo list from any such point gives the first state back. |
| `HttpProxies.PendingUndo` | frp/server/proxy/http.go:78-89 | Undoing one place, in whatever order, removes it and leaves the other places registered. |
| `HttpProxies.RegisterSeqSplit` | frp/server/proxy/http.go:60-126 | Custom domains and then the subdomain amount to one list of places, stopped at the first failure. |
| `HttpRuns.RunBalanced` | frp/server/proxy/http.go:38-129 | Over any sequence of proxies that run and close, each route and each membership belongs to exactly one running proxy, and groups list their members in the order of the registrations. |
| `HttpRuns.MembersInRunOrder` | frp/server/group/http.go:105-123 | Over any such sequence, a group lists exactly the running proxies that claim it, in the order in which they ran. |
| `HttpRuns.MembersShareKey` | frp/server/group/http.go:95-104 | Over any sequence of runs and closes, running proxies that are in one group gave the same group name and key. |
| `HttpRuns.AllClosedEmpty` | frp/server/proxy/http.go:174-179 | When every proxy has closed, no route and no group member is left. |
| `Ports.Manager.constructor` | frp/server/ports/ports.go:42-61 | The free ports are the allowed ones, all of 1 to 65535 if none are named. |
| `Ports.Manager.Acquire` | frp/server/ports/ports.go:63-133 | Reserved port first, then up to five free ports, or the port asked for, with each error case; on records that are shared and written at the end. |
| `Ports.Manager.AcquireRandom` | frp/server/ports/ports.go:93-112 | The loop gives up only after five free ports, or all of them, could not be bound. |
| `Ports.Manager.Release` | frp/server/ports/ports.go:157-166 | A used port becomes free and its shared record is closed; any other port is left alone. |
| `Ports.Manager.CleanReservedPorts` | frp/server/ports/ports.go:172-178 | One round removes exactly the reservations whose record was closed more than 24 hours ago. |
| `Ports.HandsOutUsedExactly` | frp/server/ports/ports.go:80-131 | A port in use is handed out if and only if it is the name's reserved port, in use, and bindable all the same; an acquired port is allowed, used by the new record, and the one asked for if one was; the tables stay conserved. |
| `Ports.NamedPortExactly` | frp/server/ports/ports.go:113-130 | The answer to a request for a named port, exactly: the port if it is allowed, not in use and bindable, and otherwise the error for which of the three it is. |
| `Ports.AnyPortServed` | frp/server/ports/ports.go:79-112 | A request for any port is served from the reservation if that is bindable, else with a bindable free port; it fails only if five free ports, or all, were not bindable, or port 0 was picked, so never if at most five are free and one of them, not 0, is bindable. |
| `Ports.ReleasedExactly` | frp/server/ports/ports.go:157-178 | A released port is free, and its reservation is cleaned away if and only if more than 24 hours have passed. |
| `Ports.FailureTakesOnlyZero` | frp/server/ports/ports.go:93-112 | A call can fail and change the tables all the same if and only if it asks for any port, its reservation is no help, and port 0 is free and bindable. |
| `Ports.StepConserves` | frp/server/ports/ports.go:63-180 | Each operation keeps: free and used disjoint, together the allowed set, used records open and on their own port, reserved records on an allowed port. |
| `Ports.RunConserves` | frp/server/ports/ports.go:63-180 | From a conserved state on, conservation in every state of every run. |
| `Ports.HeldNeverCleaned` | frp/server/ports/ports.go:173-177 | A reservation whose record is still held survives any cleaning. |
| `Ports.ClosedStaysOn` | frp/server/ports/ports.go:157-166 | A closed record is never written again, however often it is shared. |
| `Ports.StickyPort` | frp/server/ports/ports.go:80-91 | A name that asks for port 0 gets the port it last had, if it is bindable and was held or released within 24 hours, whatever others did and however often the name itself failed in between. |
| `Ports.AcquiredRemembers` | frp/server/ports/ports.go:84-89 | Every acquisition leaves the reservation that stickiness starts from. |
| `TcpGroups.TCPGroup.Listen` | frp/server/group/tcp.go:95-141 | First member acquires and binds, a later one must agree in group, address, port and key; each error case. |
| `TcpGroups.JoinedExactly` | frp/server/group/tcp.go:120-139 | A later listener must agree with the first member in group, address, port and key; the first disagreement is the error, and whoever joins comes last. |
| `TcpGroups.OpenedExactly` | frp/server/group/tcp.go:95-119 | A group is opened on a named port if and only if the port is allowed, not in use, bindable and bound; each error exactly; and the new group is the request's, on that port. |
| `TcpGroups.TCPGroup.CloseListener` | frp/server/group/tcp.go:164-179 | The listener leaves the list; channel and socket are closed, the port is given back and the map entry goes exactly with the last one; a channel closed already or a socket never opened panics. |
| `TcpGroups.TCPGroupCtl.Listen` | frp/server/group/tcp.go:46-58 | The whole call, with the group created on demand. |
| `TcpGroups.TCPGroupCtl.RemoveGroup` | frp/server/group/tcp.go:61-65 | The name leaves the map of groups. |
| `TcpGroups.TCPProxy.Run` | frp/server/proxy/tcp.go:31-70 | In a group the group's port is used and nothing is released; alone, the port is acquired, bound, and given back if binding fails; on success the port that was got is written into the configuration and reported. |
| `TcpGroups.RanAloneSteps` | frp/server/proxy/tcp.go:47-63 | What running alone does to the ports is the step of the server. |
| `TcpGroups.TCPProxy.Close` | frp/server/proxy/tcp.go:76-81 | Alone, the port is released; in a group the listener leaves and only the last one releases it; a second close in a group panics before the group is touched. |
| `TcpGroups.GroupListenGoodExactly` | frp/server/group/tcp.go:95-141 | The invariant that each holder's socket is on a used port of its own is kept if and only if the group's socket is on the port acquired for it, which is so whenever the group is open already or an explicit port was asked for. |
| `TcpGroups.ZeroSharesExactly` | frp/server/group/tcp.go:97-104 | From a state in which every port is held once, a listen can lead to a shared port in the next step of an honest server if and only if it opens a group with port 0 while one port can be acquired and another one bound. |
| `TcpGroups.GoodStepHeldOnce` | frp/server/group/tcp.go:95-179 | While every socket is on its holder's port, no single step of an honest server, with port 0 or not, makes two holders hold one port. |
| `TcpGroups.UnheardPortShared` | frp/server/ports/ports.go:81-89 | In every state with a group on whose port nobody listens, the name that has the port reserved can run alone with port 0 and is given the group's port. |
| `TcpGroups.ZeroCanMiss` | frp/server/group/tcp.go:100-104 | With port 0 any other free port that the same call binds is missed: the socket is on the requested port, not the acquired one. |
| `TcpGroups.ZeroPortShared` | frp/server/group/tcp.go:95-179 | A run in which two groups with port 0 hold one port, and it becomes free while one still has a member. |
| `TcpGroups.GroupCloseGood` | frp/server/group/tcp.go:164-179 | The port becomes free, and the group leaves the map, if and only if the last listener closes. |
| `TcpGroups.SoloRunGood` | frp/server/proxy/tcp.go:48-63 | A proxy outside groups takes a port that nobody holds, or none. |
| `TcpGroups.SoloExactly` | frp/server/proxy/tcp.go:47-63 | A proxy outside groups runs on a named port if and only if the port is allowed, not in use, bindable and bound; otherwise free and used ports are as before. |
| `TcpGroups.SoloCloseGood` | frp/server/proxy/tcp.go:76-81 | Closing it frees that port and no port of another. |
| `TcpGroups.RunGood` | frp/server/group/tcp.go:95-179 | Over every run in which groups are opened on explicit ports each non-empty group and each proxy outside groups holds one used port of its own, and all members of a group share name, key, address and requested port. |
| `TcpGroups.RunAddressesDiffer` | frp/server/proxy/tcp.go:66-67 | Over every such run no two groups, no two proxies outside groups, and no group and proxy report the same address to their clients at the same time. |
| `TcpGroups.RunListensExactly` | frp/server/group/tcp.go:164-179 | Over every such run a port is listened on if and only if a group or a proxy holds it: no socket is left open. |
| `Addresses.RemoteAddrMeans` | frp/server/proxy/tcp.go:67 | The reported address is a colon and the port in decimal digits, which read back as the port. |
| `Addresses.CanonicalAddrMeans` | frp/pkg/util/util/util.go:51-58 | The address of a host is the host, alone exactly for ports 80 and 443, and otherwise followed by a colon and the port in digits. |
| `Addresses.CommaJoinedRead` | frp/server/proxy/http.go:127 | The list of addresses can be split at its commas again. |
| `ControlProtocol.StepKeeps` | frp/server/control.go:281-386 | Every login, replacement, deletion, manager step, connection step and shutdown step keeps the invariant of the whole server. |
| `ControlProtocol.OneActivePerRunId` | frp/server/control.go:57-76 | In every reachable state at most one control of a run id is between its start and its end; a map entry is the latest control added; without an entry all controls of the run id are done. |
| `ControlProtocol.NamesHaveOneLiveOwner` | frp/server/control.go:534-562 | In every reachable state each name of the table of all proxies belongs to exactly one control, not done; once a control has started, no earlier control of its run id has a name left. |
| `ControlProtocol.QuotaKept` | frp/server/control.go:504-563 | With a port limit the counter never exceeds it, and between messages equals the ports of the registered proxies, failed runs and name clashes included. |
| `ControlProtocol.AdmittedExactly` | frp/server/control.go:504-514 | Between messages a proxy is admitted if and only if there is no limit or the ports of the registered proxies and its own keep it; a proxy that is not admitted changes nothing. |
| `ControlProtocol.LimitExact` | frp/server/control.go:504-514 | The same in every reachable state of the server. |
| `ControlProtocol.ProxyCanRegister` | frp/server/control.go:482-543 | In every state that keeps the invariant a proxy with room and a free name can be registered, and then has its name in the table and its entry with the control. |
| `ControlProtocol.ConnectionsConserved` | frp/server/control.go:208-279 | The pool is bounded by its count plus ten; each accepted connection is in exactly one of pool, handed out, drained; none is left when the control is done; channels close only after their users have ended. |
| `ControlProtocol.PlacedExactly` | frp/server/control.go:217-224 | A connection is taken in if and only if the pool is open and has fewer than its count plus ten, at the end; the first is handed out or drained first. |
| `ControlProtocol.ServedInOrder` | frp/server/control.go:208-279 | First come, first served, over any events of an open pool: what was handed out and what waits is what came, in that order. |
| `ControlProtocol.EarlierDone` | frp/server/service.go:459-461 | Waiting for the one control that was replaced is enough: then every earlier control of the run id is done. |
| `ControlProtocol.LoginKeeps` | frp/server/service.go:458-463 | A login keeps the chain of replacements. |
| `ControlProtocol.LoginMeans` | frp/server/service.go:458-461 | A login adds an untouched control as the latest of its run id and tells the one it replaces to stop; nothing else changes. |
| `ControlProtocol.LoginAlways` | frp/server/service.go:430-461 | A login is taken in any state that keeps the invariant, unless its pool count is below -10. |
| `ControlProtocol.LoginCanStart` | frp/server/service.go:458-463 | A login can always come to its start, by steps of the controls before it: the one it replaced can start if need be, and end. |
| `ControlProtocol.ControlCanEnd` | frp/server/control.go:349-386 | A control that has started can always come to its end, by finitely many steps of its own, whatever its manager is in the middle of. |
| `ControlProtocol.DeleteKeeps` | frp/server/control.go:70-76 | A late deletion keeps it too: it never removes a newer control. |
| `ControlProtocol.DeleteMeans` | frp/server/control.go:70-76 | A deletion takes out the entry of the control's run id if and only if it is its own. |
| `ControlProtocol.CtlKeeps` | frp/server/control.go:349-386 | Each step of a control keeps its own invariant, and the names it answers for change exactly as the table does. |
| `ControlProtocol.ManagerQuota` | frp/server/control.go:504-562 | Each phase of registering and closing keeps the counter equal to the ports registered plus those in flight. |
| `Controls.Service.AddControl` | frp/server/service.go:430-461 | A login is refused for want of a run id, version or credentials, in that order, with nothing changed; otherwise it panics exactly when its pool count or the server's cap is below -10, or a new control with the lesser of both counts takes the run id and the old one is told to stop. |
| `Controls.Service.StartControl` | frp/server/service.go:459-463 | What a login does once the control it replaced has finished: it asks for as many connections as its pool is to have. That the wait suffices for all earlier controls is `ControlProtocol.EarlierDone`. |
| `Controls.Service.ForgetControl` | frp/server/service.go:468-472 | The entry under the run id of the login goes only if it is still this control. |
| `Controls.ControlManager.Add` | frp/server/control.go:57-67 | The new control takes the entry; the old one is returned, told to stop, and forgets its run id. |
| `Controls.ControlManager.Del` | frp/server/control.go:70-76 | Only the control that is in the map takes its entry out. |
| `Controls.ControlManager.GetByID` | frp/server/control.go:78-83 | The control of the run id, if there is one. |
| `Controls.Control.Start` | frp/server/control.go:189-206 | One request for a connection per place of the pool, none if the count is negative. |
| `Controls.Control.Replaced` | frp/server/control.go:281-286 | The run id is forgotten and the shutdown requested. |
| `Controls.Control.RegisterProxy` | frp/server/control.go:482-543 | Each error exactly, the limit in terms of the ports of the registered proxies; registered if there is none; otherwise counter, proxies and table are as before and a running proxy is closed; the address of the run is returned; the path is a path of manager steps. |
| `Controls.Control.CloseProxy` | frp/server/control.go:545-563 | A proxy of this control leaves both maps and returns its ports; a name of another control is left alone. |
| `Controls.Control.RegisterWorkConn` | frp/server/control.go:208-225 | Taken in, at the end of the buffer, exactly if the pool is open and has room; refused if full; lost without an error if the pool channel is closed. |
| `Controls.Control.GetWorkConn` | frp/server/control.go:231-279 | The oldest pooled connection, else the one that arrives and is handed straight on, else the error of what ended the waiting; one request for each connection taken and one before each waiting. |
| `Controls.Control.Stop` | frp/server/control.go:369-383 | Every pooled connection is closed, and exactly the names of this control leave the table. |
| `Controls.Control.DrainPool` | frp/server/control.go:372-375 | All connections left are closed, in order, and none twice. |
| `Controls.Control.CloseProxies` | frp/server/control.go:377-381 | Every proxy is closed and exactly its name leaves the table. |
| `Controls.ProxyManager.Add` | frp/server/proxy/proxy.go:299-308 | A name in use is refused and keeps its owner. |
| `Controls.ProxyManager.Del` | frp/server/proxy/proxy.go:310-314 | The name leaves the table. |
| `Controls.ProxyManager.GetByName` | frp/server/proxy/proxy.go:316-321 | The owner of the name, if there is one. |
| `Controls.RegisterLeads` | frp/server/control.go:504-543 | Each outcome of a registration is reached by enabled manager steps, and a failed one ends where it began. |
| `Controls.CloseLeads` | frp/server/control.go:545-563 | So is closing a proxy. |
| `ProxyWrappers.Wrapper.SetRunningStatus` | frp/client/proxy/proxy_wrapper.go:99-125 | Only a waiting wrapper takes notice of an answer; a proxy that cannot run is closed at the server. |
| `ProxyWrappers.AnswerMeans` | frp/client/proxy/proxy_wrapper.go:99-125 | An answer makes a waiting wrapper run if and only if neither the server nor running the proxy failed; otherwise it keeps the first error and its time, and closes a proxy that the server had accepted; other wrappers take no notice. |
| `ProxyWrappers.Wrapper.CheckWorker` | frp/client/proxy/proxy_wrapper.go:155-199 | One pass: what is sent and the next phase, for each phase, health and time. |
| `ProxyWrappers.PassMeans` | frp/client/proxy/proxy_wrapper.go:160-199 | When a pass asks for a start, after 20 seconds of waiting or 30 after a failure; when it closes the proxy; and that it otherwise changes nothing. |
| `ProxyWrappers.Wrapper.Stop` | frp/client/proxy/proxy_wrapper.go:134-153 | The wrapper is closed with a close message; a second stop is not allowed. |
| `ProxyWrappers.Wrapper.StatusNormalCallback` | frp/client/proxy/proxy_wrapper.go:201-211 | A successful health check makes the wrapper healthy. |
| `ProxyWrappers.Wrapper.StatusFailedCallback` | frp/client/proxy/proxy_wrapper.go:213-223 | A failed one makes it unhealthy. |
| `ProxyWrappers.SendChannel.HandleEvent` | frp/client/proxy/proxy_manager.go:78-93 | A message on the closed channel is lost and reported, not sent. |
| `ProxyWrappers.SentMeans` | frp/client/proxy/proxy_manager.go:78-93 | A start message brings the configuration, a close message the name only; on a closed channel both are lost. |
| `ProxyManagers.Manager.StartProxy` | frp/client/proxy/proxy_manager.go:43-56 | An unknown name is an error and changes nothing; a known one gets the answer, and it is an error unless the wrapper was waiting and is running now. |
| `ProxyManagers.Manager.Close` | frp/client/proxy/proxy_manager.go:58-65 | Every managed wrapper is stopped once, with one close message each. |
| `ProxyManagers.Manager.Reload` | frp/client/proxy/proxy_manager.go:105-146 | The managed names are the configured ones; unchanged configurations keep the same wrapper untouched; all others get a new one; those removed are stopped with one close message each and no other message. |
| `ProxyManagers.Manager.RemoveChanged` | frp/client/proxy/proxy_manager.go:110-131 | The first loop stops exactly the wrappers that are gone or changed. |
| `ProxyManagers.Manager.AddMissing` | frp/client/proxy/proxy_manager.go:133-146 | The second loop adds exactly the missing ones. |
| `ClientRuns.MessagesWellOrdered` | frp/client/proxy/proxy_wrapper.go:99-199 | Over any interleaving: stopped once at most, closed exactly when stopped, the last message of a closed wrapper is a close, all messages of a wrapper precede those of its replacement, and the channel holds a prefix of the messages. |
| `ClientRuns.ClosedIsFinal` | frp/client/proxy/proxy_wrapper.go:134-145 | A closed wrapper keeps its phase, is not stopped again and sends nothing, ever. |
| `ClientRuns.RetriesSpaced` | frp/client/proxy/proxy_wrapper.go:166-179 | Two start messages without a close between them are more than the response timeout apart. |
| `ClientRuns.RunningAnswered` | frp/client/proxy/proxy_wrapper.go:99-125 | Over any interleaving a wrapper that runs was waiting when an answer without an error came and running the proxy succeeded, and has the address of that answer. |
| `ClientRuns.PassLeaves` | frp/client/proxy/proxy_wrapper.go:160-199 | After a healthy pass no wrapper is idle: it waits for at most 20 seconds, failed at most 30 seconds ago, runs or is closed; after an unhealthy one it neither runs nor waits. |
| `ClientRuns.CanRun` | frp/client/proxy/proxy_wrapper.go:99-199 | Whatever has happened, a wrapper that is not closed comes to run with a later healthy pass and an answer without an error. |
| `ClientRuns.OpGoesOn` | frp/client/proxy/proxy_manager.go:58-146 | A reload or a close under way always has a next step of its own, and ends after finitely many. |
| `ClientRuns.ReloadResult` | frp/client/proxy/proxy_manager.go:105-146 | When a reload ends, with workers and answers interleaved, names equal the configuration, unchanged ones kept their wrapper, the other old wrappers are closed, and the new ones are newer and have the new configuration. |
| `ClientRuns.StepKeeps` | frp/client/proxy/proxy_manager.go:58-146 | Every worker pass, answer, and turn of a reload or close keeps the invariant behind these. |
| `DateCounter.StandardDateCounter.Rotate` | frp/pkg/util/metric/date_counter.go:114-134 | The array becomes the counts of `days` days later, in place of the old array. |
| `DateCounter.StandardDateCounter.Inc` | frp/pkg/util/metric/date_counter.go:80-85 | Counted on the day of the clock, with 64-bit wrap-around. |
| `DateCounter.StandardDateCounter.Dec` | frp/pkg/util/metric/date_counter.go:87-92 | Taken off on the day of the clock, with 64-bit wrap-around. |
| `DateCounter.StandardDateCounter.TodayCount` | frp/pkg/util/metric/date_counter.go:57-63 | The count of the day of the clock. |
| `DateCounter.StandardDateCounter.GetLastDaysCount` | frp/pkg/util/metric/date_counter.go:65-78 | The last days, no more than are kept; a negative number panics before anything changes. |
| `DateCounter.StandardDateCounter.Clear` | frp/pkg/util/metric/date_counter.go:104-110 | All counts are zero, the date stays. |
| `DateCounter.RotateTwice` | frp/pkg/util/metric/date_counter.go:114-134 | Rotating in two steps equals rotating once. |
| `DateCounter.RunShows` | frp/pkg/util/metric/date_counter.go:80-134 | At any readings of the clock, each count is the 64-bit sum of the full log for its day. |
| `DateCounter.WrapMeaning` | frp/pkg/util/metric/date_counter.go:80-92 | The value of a 64-bit count: in the signed range, and equal modulo 2^64. |
| `DateCounter.CountsTheDays` | frp/pkg/util/metric/date_counter.go:65-134 | With a clock that does not go back, count `i` is what was counted `i` days before the last reading and since the last clear. |
| `DateCounter.BackwardExactly` | frp/pkg/util/metric/date_counter.go:114-134 | The first time the clock has gone back, a count stays right after any operation if and only if the sums of the day it stood for and of the day it now stands for agree in 64 bits. |
| `DateCounter.BackwardClockMixes` | frp/pkg/util/metric/date_counter.go:122-123 | A clock that goes back a day puts two days into one count. |
| `Reconnect.KeepControllerWorking` | frp/client/service.go:142-208 | The loop with its four variables sleeps and waits as the functions of the passes say. |
| `Reconnect.LogIn` | frp/client/service.go:175-206 | The login loop waits as its failures say, and leaves the wait at one second. |
| `Reconnect.LoginWaitsAt` | frp/client/service.go:178-195 | Each wait is between one and twenty seconds, two after a dial failure, and otherwise never shrinks. |
| `Reconnect.LoginWaitExactly` | frp/client/service.go:178-195 | The wait doubles from one second, or from two after a dial failure, up to twenty. |
| `Reconnect.BackOffExactly` | frp/client/service.go:147-173 | In each window the first three passes do not sleep, the next sleep 1, 2, 4, 8 seconds and so on; the window ends with the first pass that is more than a minute after its beginning. |
| `Reconnect.WindowInv` | frp/client/service.go:160-173 | All but one second of the current delay has been slept inside the window, which bounds delay and count together. |
| `Reconnect.WaitsBounded` | frp/client/service.go:160-164 | If a sleep takes at least as long as asked, no back-off exceeds 32 seconds. |
| `Reconnect.ResetWithinNine` | frp/client/service.go:168-173 | Among any nine passes in a row one resets the window. |
| `Reconnect.BoundsReached` | frp/client/service.go:147-173 | Both bounds are met by a client that loses each controller at once. |

## Left out

- Sockets, TLS, KCP, stream multiplexing, encryption, compression, message framing and HTTP transport: input and output, or libraries that are not part of this model.
- The Android app, the dashboards, command lines, configuration files and logging: plumbing around the core.
- Plugins and credentials: their verdicts are parameters of a login, and a proxy that a plugin rejects is a message the manager does not handle.
- Controls.Control.RegisterProxy: the checks of the message's configuration and of the proxy's type are verdicts, and what running a proxy answers is a parameter.
- Controls.Service.StartControl: waiting for the replaced control is a precondition here; that the wait happens between adding and starting, in any interleaving with the other controls, is part of the step system.
- ControlProtocol.ConnectionsConserved: safety only; the shutdown can block, because the manager may wait on a full message channel after the writer has ended. A panic inside the manager, and pings and heartbeats other than as a reason for the manager to end, are not modelled.
- ControlProtocol.ControlCanEnd: says that the guards can be met one after the other; the capacity of the message channels, on which the manager can block, is not modelled.
- HttpGroups.HTTPGroupController.Register: whole calls only; the lookup of the group and its update take separate locks, and calls that overlap between the two are not modelled. The same holds of `TcpGroups.TCPGroupCtl.Listen`.
- TcpGroups.RunGood: says that a group's port is used, not that every used port has a group; a bind that fails after the acquisition keeps the port used.
- TcpGroups.SoloRunGood: port 0 is not an allowed port here, as in `TcpGroups.RunGood`; a proxy that is given port 0 by its reservation would listen on another port than it holds.
- UDP proxies: their close releases the port on every call, so ports are not owned; NAT-hole registration overwrites entries by name.
- TCP multiplexer groups and visitors: the same structure as the groups modelled, with easier claims.
- ProxyWrappers.Wrapper.SetRunningStatus: an answer carries no attempt number, so that "running" means that the server still has the proxy is neither true nor stated.
- Health checks: only their verdict is modelled; the count of failures in a row is never reset.
- DateCounter.StandardDateCounter.Rotate: days are whole numbers of 24 hours; days of other lengths, and `Snapshot`, which stamps the date without rotating, are left out.
- Reconnect.KeepControllerWorking: leaving the loop on exit is left out.
- Integers: ports, counts and pool sizes are unbounded here; the 64-bit counters of the HTTP group and the day counter wrap as in the source.
