# tlspxy: a Dafny model of the proxy's concurrent core

tlspxy terminates TLS in front of a TCP or HTTP backend. This project models the parts of
it whose correctness is not visible in any single function, and proves statements about
every interleaving, every input or every pattern of failures.

## What is modelled

Concurrent parts are step machines: a state and an action determine the next state
(`Do`), `Enabled` says when an action is possible, `Valid`/`Exec` describe whole runs, and
the environment (peers, disk, scheduler, clock) chooses the actions. Sequential code is
written as methods and classes, each proved against a specification.

| files | part of the program |
|---|---|
| `PipeMachine.dfy`, `CopyLoop.dfy` | one copy goroutine: as an automaton over what it observes, and as code with a reused buffer and a short-write loop that is proved to follow the automaton |
| `Connection.dfy`, `ConnectionInvariant.dfy`, `ConnectionTheorems.dfy`, `ConnectionCauses.dfy` | `TCPProxy.Start`: the goroutine running Start, the context watcher and two copy goroutines, sharing the signal channel, the sync.Once, two connections and a parent/child context; panics in Start and in the copy goroutines are included |
| `Counters.dfy`, `Traffic.dfy` | the traffic counter shared by any number of connections |
| `Text.dfy`, `ProxyHeader.dfy`, `ProxyRoundTrip.dfy`, `ProxyBytes.dfy`, `EndToEnd.dfy` | the PROXY protocol encoder, a reference decoder for sections 2.1 and 2.2 of the PROXY protocol specification, what is sent in plain bytes, and all of it composed with the connection protocol |
| `Certificates.dfy`, `CertStore.dfy`, `ReloadMachine.dfy` | the certificate store as an object, and concurrent reloads that read one file at a time from a changing disk |
| `Freshness.dfy`, `ReloadOrder.dfy` | when the store serves what is on disk: what one job keeps, who installed last among overlapping reloads, and serial reloads |
| `WatchPaths.dfy`, `WatchMachine.dfy`, `WatchProgress.dfy` | what the certificate watcher watches, and its loop: event queue, debounce timer (Go 1.23 semantics), reload |
| `TcpAdmission.dfy`, `HttpLimiter.dfy` | the two connection limiters of `main.go` |
| `HttpBody.dfy` | body counting and the reconstruction of a logged response body |
| `ConfigMerge.dfy`, `CombineMaps.dfy` | the recursive map merge as a function, and `CombineMaps` on heap maps that may share structure |

Theorems about runs are stated over what the environment did (the actions, the events of a
goroutine, the bytes on the wire), and come in pairs: what never happens, and what does
happen and why. Where documentation and code disagree the code is modelled: the comment
above `ProxyHeader` says that an unknown version disables the header, the code returns an
error (internal/proxy/proxyproto.go:13-29).

Where the code does less than one might expect, the exact condition is proved, and a
concrete case shows the failure:

- Bytes that a `Read` returns together with an error are dropped, and so is the rest of a
  chunk cut short by a failed, stalled or panicking write (`EverythingArrivesIff`;
  `DataWithErrorIsLost`, `CutChunkIsNotCounted`).
- Bytes that such a write did deliver are not counted (`EverythingCountedIff` for one
  goroutine, `WordExactIff` for the shared counter; `CutChunkIsNotCounted`).
- A shutdown that arrives while Start is inside the header write has nobody to wake it: the
  watcher is spawned later, so without a write deadline progress depends on the backend
  taking the header (`TeardownProgressIff`; `ShutdownDuringHeaderWrite`). The model lets any
  write on an open connection block.
- Start ignores how much of the header a write took. If it fell short without an error, the
  client's bytes follow a truncated header (`HeaderFirst`; `ShortHeaderGoesUnnoticed`).
- Timeouts are exempt from the error metric in the copy goroutines only; a dial or header
  write that times out is counted (`SetupErrorIff`; `DialTimeoutIsCounted`,
  `HeaderTimeoutIsCounted`). A `Write` that accepts nothing and reports nothing is counted
  without asking the context (`ErrorClassification`, `StalledIff`).
- A port outside 16 bits makes a version 1 line invalid and wraps in version 2
  (`V1RoundTrip`, `V2ExactIff`, `VersionsAgreeIff`; `PortOutOfRange`). Addresses that are
  neither 4 nor 16 bytes long give a wrong length (`V2LengthIff`; `OddAddressLength`).
- Two overlapping reloads can leave the older certificate installed: the last install
  decides, by when it read its files (`LastInstallDecides`; `OverlapServesStale`,
  `OverlapServesStaleHost`). Serial reloads agree with the disk (`SerialReloadsAgree`). With
  duplicate hostnames the last entry that loads wins, also at quiescence
  (`QuiescentFreshness`).
- Closing a body twice counts it twice (`CountExactIff`; `CloseTimes`).
- The map merge overrides path by path, and is associative, under the conditions of
  `OverrideIff` and `AssociativeIff`; in general it is neither (`MapOverScalar`,
  `ScalarBetweenMaps`).

Assumptions about code outside the repository: an operation on a connection closed by this
process fails with net.ErrClosed; a child context is done no earlier than its parent or its
own cancel; handshake and dial end by their deadlines; a file is read atomically, and no
file has an empty path; each change of a file the store depends on is announced by an event
on that file or a Create beside it;
certificate parsing is a function of the two files' contents; `net.IP.String` on addresses
that are not IPv4 is injective, at most 39 characters long and free of spaces and CR; a
body's terminal result repeats. `net.SplitHostPort`, `net.ParseIP`, `fmt.Sscanf` and the
`filepath` functions are parameters. Metrics are taken as enabled; logging is not modelled.

## Model

| member | source | states |
|---|---|---|
| `PipeMachine.PipeStepKeepsInv` | internal/proxy/tcp.go:271-355 | every step of a copy goroutine keeps its byte and control invariants: all but the current chunk is copied and counted, and nothing is reported before it leaves the loop |
| `PipeMachine.StreamFidelity` | internal/proxy/tcp.go:270-356 | for every pattern of short writes, errors and panics the destination holds exactly as many of the error-free reads, from the first on, as its writes accepted; at most 65535 bytes are missing, none at each loop head; uncounted bytes are at most one chunk |
| `PipeMachine.EverythingArrivesIff` | internal/proxy/tcp.go:289-343 | a goroutine that has exited delivered every byte the source handed over if and only if no read error carried data, no write stalled, every write error came with the last byte of its chunk and no panic hit inside one |
| `PipeMachine.EverythingCountedIff` | internal/proxy/tcp.go:321-354 | it had every delivered byte counted if and only if no write error accepted a byte and no error, stall or panic found the chunk partly written or written and not yet counted |
| `PipeMachine.DataWithErrorIsLost` | internal/proxy/tcp.go:289-305 | one byte arriving together with EOF is lost |
| `PipeMachine.CutChunkIsNotCounted` | internal/proxy/tcp.go:322-342 | of a two-byte chunk whose write fails after one byte, one byte is delivered and uncounted, the other lost |
| `PipeMachine.PipeReportsOnlyFailures` | internal/proxy/tcp.go:290-304 | a copy goroutine raises the error metric at most once, for an error that is not EOF, not net.ErrClosed and not a timeout, on a connection this process had open, with the context live, or for a stalled write |
| `PipeMachine.StalledIff` | internal/proxy/tcp.go:325-328 | the stalled-write cause occurs if and only if some Write returned zero bytes and no error |
| `PipeMachine.ReportedIff` | internal/proxy/tcp.go:289-342 | a failed operation is counted if and only if its error is not EOF, not net.ErrClosed and not a timeout and the context was live right after it; a stalled write in any case |
| `PipeMachine.ExitedIff` | internal/proxy/tcp.go:249-305 | the goroutine has returned if and only if the last thing it saw is a context that is done, or CloseOnce.Do has run |
| `PipeMachine.TracesOfPipe` | internal/proxy/tcp.go:271-355 | the runs of the automaton are exactly the prefixes of the loop's traces, with every result of a read or write possible |
| `CopyLoop.TcpProxy.Signal` | internal/proxy/tcp.go:89-89 | sends one token if the once had not fired, none otherwise |
| `CopyLoop.TcpProxy.ContextDone` | internal/proxy/tcp.go:273-275 | returns the context's next answer and records it |
| `CopyLoop.TcpProxy.Recover` | internal/proxy/tcp.go:249-254 | after a panic the goroutine ends, having signalled; nothing is reported and no byte moves |
| `CopyLoop.TcpProxy.Fail` | internal/proxy/tcp.go:290-304 | after a failed operation the goroutine ends, having signalled unless the context was done; metric and token grow exactly as the automaton says; no byte moves |
| `CopyLoop.TcpProxy.WriteSome` | internal/proxy/tcp.go:323-342 | one Write: accepted bytes are appended to the destination once, and the goroutine continues only after progress without an error |
| `CopyLoop.TcpProxy.WriteAll` | internal/proxy/tcp.go:321-343 | the short-write loop terminates; if it succeeds the whole chunk was appended in order, else a prefix of it |
| `CopyLoop.TcpProxy.ReadChunk` | internal/proxy/tcp.go:273-306 | context check and read: the chunk is exactly what the source handed over, not the stale rest of the buffer |
| `CopyLoop.TcpProxy.Count` | internal/proxy/tcp.go:344-354 | a finished chunk is added to the word of its direction and to no other |
| `CopyLoop.TcpProxy.Turn` | internal/proxy/tcp.go:271-355 | one turn of the loop follows the automaton and counts a chunk exactly if it was written whole |
| `CopyLoop.TcpProxy.CountedTurn` | internal/proxy/tcp.go:271-355 | a turn, with the counter compared to its words when the goroutine began |
| `CopyLoop.TcpProxy.Pipe` | internal/proxy/tcp.go:248-356 | for every script of context answers, reads, writes and panics the goroutine terminates having followed a run of the automaton whose answers, reads and writes are those it was given; destination, counter, metric and token changes are those of that run; the once has fired unless the last thing it saw is a context that is done |
| `ConnectionInvariant.StepKeepsInv` | internal/proxy/tcp.go:93-245 | every step of Start, watcher, copy goroutines or contexts keeps the inductive invariant |
| `ConnectionInvariant.RunKeepsInv` | internal/proxy/tcp.go:93-356 | the invariant holds in every state of every interleaving |
| `ConnectionTheorems.SignalConservation` | internal/proxy/tcp.go:214-243 | in every run the tokens in the channel, held by the watcher and consumed by Start number one if the once has fired and none otherwise; no send inside the once blocks and the re-send never takes its default branch |
| `ConnectionTheorems.TeardownProgressIff` | internal/proxy/tcp.go:211-245 | once the connection is told to end, some goroutine can step without its peers if and only if not all have exited and Start is not in a header write without a deadline |
| `ConnectionTheorems.ShutdownDuringHeaderWrite` | internal/proxy/tcp.go:187-196 | the exception is reachable for every non-empty header: a shutdown during its write leaves no goroutine able to step by itself |
| `ConnectionTheorems.ClosingIsBounded` | internal/proxy/tcp.go:105-245 | Start and watcher take at most 28 steps plus the one send in any run, and such a step is enabled as long as a connection told to end is open: copying cannot put off the teardown |
| `ConnectionTheorems.BoundedTeardown` | internal/proxy/tcp.go:93-356 | from any reachable state with both connections closed every schedule ends within 46 steps, and only with all goroutines exited |
| `ConnectionTheorems.ProjectedRun` | internal/proxy/tcp.go:237-356 | in every interleaving each copy goroutine follows a run of its automaton |
| `ConnectionTheorems.Streams` | internal/proxy/tcp.go:237-356 | in every interleaving each destination holds exactly as many of the concatenated error-free reads of its source, from the first on, as its writes accepted; at most one buffer is missing, none at each loop head |
| `ConnectionTheorems.LossesIff` | internal/proxy/tcp.go:289-354 | in every interleaving an exited goroutine lost nothing, or left nothing uncounted, exactly under the conditions on what it observed |
| `ConnectionTheorems.HeaderFirst` | internal/proxy/tcp.go:178-238 | no pipe byte precedes the header: before setup is through the backend has a prefix of the header, afterwards what the header write took and a prefix of the client's bytes; what it took is the whole header if and only if the write did not fall short without an error |
| `ConnectionTheorems.ShortHeaderGoesUnnoticed` | internal/proxy/tcp.go:193-196 | a header write of one byte out of two that reports nothing lets Start go on |
| `ConnectionTheorems.ErrorClassification` | internal/proxy/tcp.go:78-90 | in every run the metric rises at most twice, once if setup fails (and then nothing was spawned); copy goroutines raise it for real failures or stalled writes, and for real failures alone if and only if no Write in the run accepted nothing and reported nothing |
| `ConnectionTheorems.CopyErrorIff` | internal/proxy/tcp.go:289-342 | in every interleaving the causes counted by a copy goroutine are exactly those of what it observed |
| `ConnectionTheorems.SetupErrorIff` | internal/proxy/tcp.go:171-196 | setup counts an error if and only if dial, header encoding or header write failed with it and it is not EOF or net.ErrClosed; a timeout if and only if dial or header write timed out |
| `ConnectionTheorems.HeaderTimeoutIsCounted` | internal/proxy/tcp.go:193-196 | a header write timeout raises the metric |
| `ConnectionTheorems.DialTimeoutIsCounted` | internal/proxy/tcp.go:171-174 | a dial timeout raises the metric |
| `ConnectionCauses.AllRunning` | internal/proxy/tcp.go:214-243 | Start waits only when watcher and both copy goroutines run |
| `ConnectionCauses.EndingTearsDown` | internal/proxy/tcp.go:249-305 | in every run an exited copy goroutine has seen the context done or CloseOnce.Do has been entered, so the connection has been told to end or Start is returning |
| `ConnectionCauses.ReturnsIff` | internal/proxy/tcp.go:118-245 | Start returns if and only if setup failed, it took the token, it saw the shutdown or it panicked; the token was sent before, the shutdown is real |
| `ConnectionCauses.ReturnedStart` | internal/proxy/tcp.go:99-176 | when Start has returned both connections are closed and its context is cancelled, and a failed setup or panic has been signalled; without a shutdown the backend was closed before the context was cancelled and the client after |
| `ConnectionCauses.SignalsForAReason` | internal/proxy/tcp.go:89-146 | Start signals only after a failed setup or a panic of its own; the once is entered if and only if Start or a copy goroutine wins it |
| `ConnectionCauses.WatcherCloses` | internal/proxy/tcp.go:214-235 | a watcher that exits without having taken the token has closed both connections, or Start has cancelled the context itself |
| `ConnectionCauses.NoDialBeforeHandshake` | internal/proxy/tcp.go:118-147 | on a TLS listener every dial comes after a successful handshake in the run |
| `ConnectionCauses.CanProxy` | internal/proxy/tcp.go:93-356 | unless the header version is unknown, any two byte streams can be delivered, the one to the backend behind the header, the other to the client, both counted and no error raised |
| `ConnectionCauses.CanObserve` | internal/proxy/tcp.go:248-356 | every trace of the loop on open connections occurs in some run, in either direction |
| `ConnectionCauses.EndsOfCopies` | internal/proxy/tcp.go:237-238 | the client's connection is read by the one goroutine and written by the other, the backend's the other way round |
| `Counters.Counter.To` | internal/proxy/tcp.go:24-26 | adds modulo 2^64 to the first word only |
| `Counters.Counter.From` | internal/proxy/tcp.go:29-31 | adds modulo 2^64 to the second word only |
| `Counters.AddsCombine` | internal/proxy/tcp.go:24-31 | adding in pieces equals adding the sum, through wrap-around |
| `Traffic.TrafficConservation` | internal/proxy/tcp.go:344-354 | over any interleaving of any number of connections the two words equal, modulo 2^64, the fully written chunks of each direction; at most one buffer per goroutine is delivered and uncounted; the header is never counted |
| `Traffic.ConnectionsRunAlone` | main.go:246-273 | each connection of a system with a shared counter follows a run of the connection protocol, so every theorem about those runs applies to it |
| `Traffic.WordExactIff` | internal/proxy/tcp.go:321-354 | with the goroutines of a direction over, its word equals the bytes delivered if and only if no connection had a write error that took a byte, or an error, stall or panic inside a chunk |
| `ProxyHeader.BuildHeaderV2` | internal/proxy/proxyproto.go:74-119 | the appended slice is the version 2 header |
| `ProxyRoundTrip.V2RoundTrip` | internal/proxy/proxyproto.go:74-119 | for all 4- and 16-byte addresses, all ports and any payload, decoding returns the canonical addresses (v4-mapped collapsed, ports modulo 2^16), or UNSPEC for mixed or unparsed addresses, and exactly the payload |
| `ProxyRoundTrip.V2ExactIff` | internal/proxy/proxyproto.go:95-112 | the addresses survive unchanged if and only if the ports fit 16 bits (or the header says UNSPEC) |
| `ProxyRoundTrip.V2LengthIff` | internal/proxy/proxyproto.go:85-118 | the length field equals the address bytes emitted if and only if the header is not for IPv6 or both addresses are 4 or 16 bytes long |
| `ProxyRoundTrip.OddAddressLength` | internal/proxy/proxyproto.go:104-112 | two 3-byte addresses give a length field of 36 and 4 bytes |
| `ProxyRoundTrip.V1RoundTrip` | internal/proxy/proxyproto.go:53-71 | decoding the text line and any payload returns the canonical addresses and the payload, in at most 107 bytes, if the ports fit 16 bits (or the line says UNKNOWN), and fails otherwise |
| `ProxyRoundTrip.VersionsAgreeIff` | internal/proxy/proxyproto.go:52-119 | both versions decode alike if and only if the ports fit 16 bits; for all ports v1 is UNKNOWN exactly when v2 is UNSPEC |
| `ProxyRoundTrip.PortOutOfRange` | internal/proxy/proxyproto.go:60-112 | port 65536 reads as 0 in version 2 and makes version 1 undecodable |
| `ProxyRoundTrip.EncodeRoundTrip` | internal/proxy/proxyproto.go:18-29 | the named version is produced, and a receiver accepting both recovers addresses and payload if and only if the ports fit 16 bits |
| `ProxyBytes.Announces4` | internal/proxy/proxyproto.go:52-119 | two IPv4 addresses, each as four bytes or behind ten 0x00 and two 0xff, are announced by both versions as those four bytes and the ports, and the payload follows |
| `ProxyBytes.Announces6` | internal/proxy/proxyproto.go:52-119 | two other 16-byte addresses are announced as they are |
| `ProxyBytes.AnnouncesMixed` | internal/proxy/proxyproto.go:69-118 | one of each kind is announced as unspecified |
| `ProxyBytes.TextAddress` | internal/proxy/proxyproto.go:37-49 | an address that is not a TCPAddr is announced like the address its string form parses to |
| `ProxyBytes.UnparsedAddress` | internal/proxy/proxyproto.go:37-86 | one that does not parse gives the UNKNOWN line and the UNSPEC header, byte by byte |
| `ProxyBytes.WireV4` | internal/proxy/proxyproto.go:74-103 | a version 2 header for IPv4 is signature, 0x21, 0x11, length 12, addresses and big-endian ports, byte by byte |
| `ProxyBytes.WireV6` | internal/proxy/proxyproto.go:74-112 | the same for IPv6, with 0x21 and length 36 |
| `ProxyBytes.LineV4` | internal/proxy/proxyproto.go:53-64 | a version 1 line for IPv4 is its keyword, dotted addresses and decimal ports with single spaces and CR LF, byte by byte |
| `ProxyBytes.LineV6` | internal/proxy/proxyproto.go:65-68 | the same for IPv6 with the library's address text |
| `ProxyBytes.VersionChooses` | internal/proxy/proxyproto.go:18-29 | "v1" and "v2" choose their header, the empty string none, anything else an error |
| `EndToEnd.BackendLearnsClient` | internal/proxy/tcp.go:178-238 | from any reachable backend stream containing the whole header the decoder recovers client source and destination, and the rest is a prefix of the client's bytes unless the header write fell short without an error |
| `EndToEnd.WholeHeader` | internal/proxy/tcp.go:187-238 | unless the header write fell short, a stream as long as the header is the header and then a prefix of the client's bytes |
| `EndToEnd.NoHeaderWhenDisabled` | internal/proxy/tcp.go:181-181 | without the setting the backend receives a prefix of the client's bytes and nothing else |
| `EndToEnd.KnownVersionProxies` | internal/proxy/tcp.go:178-238 | with no or a known version any two byte streams can be proxied without a counted error, the one to the backend behind exactly the encoded header |
| `EndToEnd.UnknownVersionSendsNothing` | internal/proxy/tcp.go:182-186 | an unknown version string means the backend never receives a byte |
| `CertStore.CertStore.GetCertificate` | internal/tls/certstore.go:45-55 | the certificate of a registered, non-empty name, else the default |
| `CertStore.CertStore.AddSNICert` | internal/tls/certstore.go:58-73 | registers and installs if the pair loads, else changes nothing |
| `CertStore.CertStore.Reload` | internal/tls/certstore.go:77-86 | replaces the default if the pair loads, else keeps it |
| `CertStore.CertStore.ReloadEntry` | internal/tls/certstore.go:104-114 | installs one entry's load, or keeps what the host has |
| `CertStore.CertStore.ReloadEntries` | internal/tls/certstore.go:103-115 | the loop over the entries has the effect of loading pair by pair and finds the first error |
| `CertStore.CertStore.ReloadAll` | internal/tls/certstore.go:90-118 | for any entries, duplicates included, and any failures: each host ends with the load of its last successfully loading entry or unchanged, the default likewise, the error is that of the first failure; the effect is that of loading pair by pair |
| `CertStore.SettledMeansInstalled` | internal/tls/certstore.go:103-115 | loading entries one after the other leaves each host with its last successful load |
| `CertStore.NewCertStore` | internal/tls/certstore.go:30-41 | a store exists only if the default pair loads, and then serves it |
| `ReloadMachine.Provenance` | internal/tls/certstore.go:43-118 | with any number of concurrent reloads and additions and any disk changes, a served certificate was loaded, at earlier disk states, from a pair registered for that name, or from the default pair for unregistered names |
| `ReloadMachine.NamesStay` | internal/tls/certstore.go:57-118 | no hostname ever leaves the map and the default pair stays |
| `ReloadMachine.ReloadAllIsARun` | internal/tls/certstore.go:90-118 | an undisturbed ReloadAll has the effect stated for the method, leaves other jobs alone and is a run of the concurrent machine |
| `ReloadOrder.LastInstallDecides` | internal/tls/certstore.go:77-118 | in every run of overlapping reloads, since the last change of the disk: a slot with no install is unchanged; otherwise it holds what a pair loads as from the disk if and only if the last install for it was of that pair with both files read after the change, or had read contents that load alike |
| `ReloadOrder.SerialReloadsAgree` | internal/tls/certstore.go:77-118 | if no call begins while another is unfinished, one ReloadAll begun after the last change makes default and every hostname, duplicates included, agree with the disk; one Reload suffices for the default |
| `ReloadOrder.OverlapServesStale` | internal/tls/certstore.go:77-86 | two overlapping Reloads can both return with the older default served |
| `ReloadOrder.OverlapServesStaleHost` | internal/tls/certstore.go:104-114 | two overlapping ReloadAlls can both return with the older certificate served for a hostname |
| `WatchPaths.CertFilePaths` | internal/tls/watcher.go:20-42 | exactly the non-empty paths of the store, resolved |
| `WatchPaths.WatchSets` | internal/tls/watcher.go:63-71 | exactly those files and their directories |
| `WatchPaths.Watch` | internal/tls/watcher.go:57-86 | it fails if and only if the watcher cannot be created or a directory of a store file cannot be added; otherwise it watches the absolute (or cleaned) form of every non-empty path of the default pair and the entries, and their directories |
| `WatchPaths.ChangesAreRelevant` | internal/tls/watcher.go:147-169 | an event on any file of the store, or a Create beside one, is relevant to the sets Watch builds |
| `WatchPaths.RelevantIff` | internal/tls/watcher.go:147-169 | the filter passes exactly the events on a file the store reads and the Creates in the directory of one |
| `WatchMachine.StepKeepsTimer` | internal/tls/watcher.go:94-131 | every step keeps the timer flag exact and the reload log debounced |
| `WatchMachine.Debounce` | internal/tls/watcher.go:92-131 | in every timed run the active flag holds exactly when the timer is armed or unread, the drain branch is never entered, each reload comes at least the window after the relevant event directly before it, and every relevant event is followed by a reload or has the timer running |
| `WatchMachine.NoticedIff` | internal/tls/watcher.go:105-137 | the loop notices exactly the handled events that concern the store and reloads exactly when the timer's value is received; with no such handled event the log is empty and the timer stopped |
| `WatchMachine.FirstComeFirstServed` | internal/tls/watcher.go:105-111 | events are handled in the order they arrive, each once |
| `WatchMachine.RunsUntilStopped` | internal/tls/watcher.go:100-108 | the loop runs until it is stopped and handles or reloads nothing afterwards |
| `WatchMachine.ActiveTimerFires` | internal/tls/watcher.go:125-131 | at the select, after the window, an active timer needs only to expire and fire |
| `WatchMachine.RelatedChange` | internal/tls/watcher.go:57-169 | a change of any file of the store leaves a relevant event in the queue |
| `WatchMachine.StepKeepsFresh` | internal/tls/watcher.go:100-139 | every step, including each file read of a reload, keeps the freshness invariant |
| `WatchMachine.FreshOrPending` | internal/tls/watcher.go:89-140 | in every state the default pair, if loadable, and each host's last loadable pair are served as on disk, or an event is queued, or the timer is active, or the running reload has yet to deal with them |
| `WatchMachine.QuiescentFreshness` | internal/tls/watcher.go:57-140 | started on the sets Watch builds, whenever no relevant event is queued, the timer is inactive and no reload runs, the store agrees with the disk for every hostname |
| `WatchProgress.CanCatchUp` | internal/tls/watcher.go:89-140 | from every state of every run, unless the loop was stopped, time and the loop's own steps can lead to an empty queue, an inactive timer, no reload running and a store that agrees with the disk |
| `Freshness.ServedAsOnDisk` | internal/tls/certstore.go:45-55 | agreement means that a client gets what the two files of its name's last loadable pair parse as, or those of the default pair |
| `Freshness.NextKeepsHosts` | internal/tls/certstore.go:90-118 | against an unchanged disk every step of a job keeps each host whose last loadable pair it has dealt with served as on disk |
| `TcpAdmission.Admission` | main.go:214-285 | in every run held slots equal unfinished goroutines (plus the one about to be spawned) and never exceed the limit; ids increase; giving back a slot never blocks; a Start that panicked is not running; "drained" implies no goroutine is left |
| `TcpAdmission.RejectedIffFull` | main.go:233-241 | an accepted connection is turned away if and only if maxconns others are unfinished, and admitted otherwise; the loop never blocks on the semaphore |
| `TcpAdmission.StopsIff` | main.go:223-232 | the loop stops accepting if and only if Accept fails after a shutdown was requested |
| `TcpAdmission.DrainIff` | main.go:276-285 | the drain ends as drained if and only if the WaitGroup was seen empty, and is given up if and only if it timed out; once no goroutine is left it can end well |
| `TcpAdmission.Bookkeeping` | main.go:264-273 | a spawned connection is running until its Start returns, normally or not, holds its slot until it gives it back and the WaitGroup until it leaves |
| `TcpAdmission.AcceptLoop.Admit` | main.go:233-274 | the loop body admits if and only if fewer than maxconns goroutines are unfinished, with the effect of the machine's steps |
| `HttpLimiter.LimiterConservation` | main.go:335-364 | in every interleaving tokens equal recorded owners plus acquirers not yet recorded plus the deletion in progress, never exceed maxconns, the receive under the mutex never blocks, and nobody gives back twice |
| `HttpLimiter.RejectedNeverReleases` | main.go:351-362 | a rejected connection never gives a slot back |
| `HttpLimiter.OwnersIff` | main.go:343-363 | a connection is in the map exactly from the recording of its slot to its first terminal callback, and rejected exactly by a New callback that found no slot |
| `HttpLimiter.RejectedIffFull` | main.go:345-353 | a new connection is turned away if and only if all slots are owned |
| `HttpLimiter.Limiter.OnState` | main.go:343-363 | each callback has the effect of the machine's steps; a connection is closed exactly when no slot is free |
| `HttpLimiter.Limiter.Forget` | main.go:355-362 | a terminal state gives back exactly one slot of an owner, and nothing otherwise |
| `HttpBody.ReadPrefix` | internal/proxy/http.go:84-89 | reads ahead exactly the first 65536 bytes or all there is, whatever the chunking |
| `HttpBody.CountingBody.Read` | internal/proxy/http.go:29-33 | the bytes returned are the next bytes of the stream and are counted; an end is reported only at the end |
| `HttpBody.CountingBody.ReadInner` | internal/proxy/http.go:98-109 | prefix and remaining body read as one stream with the body's terminal result |
| `HttpBody.CountingBody.Close` | internal/proxy/http.go:35-41 | closes the body once more and adds the bytes delivered so far, each time |
| `HttpBody.CountingBody.ReadSizes` | internal/proxy/http.go:98-116 | any sequence of read sizes yields a prefix of the stream, all of it with its terminal result if one is seen, which enough reads guarantee |
| `HttpBody.RoundTrip` | internal/proxy/http.go:60-134 | both wrappers stand for the whole body; an error yields no response and is counted |
| `HttpBody.Receive` | internal/proxy/http.go:84-131 | with or without logging a client receives a prefix of the stream, all of it and its terminal result if it reads on, and one Close counts the bytes delivered |
| `HttpBody.CompareLogging` | internal/proxy/http.go:84-131 | clients behind the logging and the plain wrapper receive the same bytes; each sees the same terminal result after a bounded number of reads; one Close counts the bytes delivered behind either |
| `HttpBody.CloseTimes` | internal/proxy/http.go:35-41 | k closes count the body k times |
| `HttpBody.CountExactIff` | internal/proxy/http.go:35-41 | the count is exact if and only if the body is closed once or delivered nothing |
| `ConfigMerge.OverrideIff` | internal/config/config.go:583-604 | the flattened merge is the flattened inputs overridden if and only if no map replaces a scalar and no scalar a map that holds one |
| `ConfigMerge.MapOverScalar` | internal/config/config.go:589-596 | an empty map over a scalar removes a path that overriding would keep |
| `ConfigMerge.FoldOverrides` | internal/config/config.go:583-604 | for any list of maps in which no path is a scalar in one and a map in another, the flattened result is the inputs overridden left to right |
| `ConfigMerge.AbsorbedIff` | internal/config/config.go:592-594 | merging under a map changes nothing if and only if that map covers the other |
| `ConfigMerge.AssociativeIff` | internal/config/config.go:583-604 | the merge of three values is associative if and only if no scalar hides an earlier map from a later one that does not cover it |
| `ConfigMerge.ScalarBetweenMaps` | internal/config/config.go:589-596 | a scalar between two maps breaks associativity |
| `CombineMaps.MergedCell` | internal/config/config.go:588-597 | the type switch for a present key stores the merge of both values without writing either |
| `CombineMaps.MergeInto` | internal/config/config.go:586-601 | one input merged in whatever order its keys are visited |
| `CombineMaps.CombineMaps` | internal/config/config.go:583-604 | for every list of maps and every iteration order the result is a new map equal to the left fold of the binary merge, and no existing map is written |

## Left out

- TLS handshakes, X.509 parsing, CA pools, Let's Encrypt and dialing: success or failure is chosen by the environment.
- `internal/tls/server.go`, `remote.go`, `tls.go`, `versions.go`, `ParseSNIConfig`, configuration validation and loading, flags and environment: each option is copied or checked on its own, with no state and no interaction between operations.
- `internal/proxy/rewrite.go`, `internal/health`, `SingleJoiningSlash`, logging, the metrics server and the signal mux.
- `internal/loadtest` and `cmd/loadtest`: test tooling.
- Start as code: its control flow is the step machine of `Connection.dfy`, because what matters is its interleaving with three other goroutines; the same holds for `watchLoop`.
- Pipe: in the code version a panic comes from a Read or Write call that moved no bytes; the automaton allows it anywhere in the loop.
- Deadline values and the elapsing of timeouts in the connection protocol: a timeout is an error that may be returned at any time.
- The Errors channel of fsnotify, and filesystem events that the kernel drops.
- Certificates registered after `Watch` has built its sets: the watcher machine keeps the entry list fixed.
- A `ReloadAll` on SIGHUP beside the watcher: `LastInstallDecides` says what it does to the store; the freshness theorem of the watcher does not hold with it.
- V1RoundTrip: IPv6 text is the library's, so the decoder inverts an arbitrary injective printer; `PrinterExists` shows that such a printer exists.
- CompareLogging: bodies whose terminal error is returned only once are outside the model, since the prefetch would swallow it.
- CountExactIff: stated for totals below 2^64, where wrap-around cannot make different counts equal; so is `WordExactIff`.
- OnState: one callback at a time; the interleaving of callbacks is the machine's.
