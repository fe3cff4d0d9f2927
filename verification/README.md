# Verified model of the tunnel lease life cycle

This project models the reverse-SSH tunnel daemon of hyrule-network-proxy (`internal/tunnel`)
and proves what its comments promise about ordering: store before teardown, disk before
memory, persist before mutate. `dafny verify dfyconfig.toml` checks the whole project.

A customer buys a *lease*: a public data port and a token, until an expiry. The *store* keeps
leases in two in-memory indexes that share lease objects, and in a bbolt file. An SSH client
that presents the token is *registered* with the forward *manager* for its lease and may ask for
a public *listener* on the lease's port, whose *visitors* are piped to the client. The
*coordinator* creates, extends, revokes and sweeps leases while all of this is going on.

| file | what it holds |
|---|---|
| `Protocol.dfy` | manager, coordinator and connection goroutines as one transition system: explicit `Manager.mu`, store reads and installs as separate steps, program counters for everything done after unlocking |
| `ProtocolProofs.dfy`, `ProtocolListeners.dfy` | the inductive invariant and its preservation, one group of steps at a time |
| `ProtocolTheorems.dfy` | what the invariant means for whole runs |
| `ProtocolInstalls.dfy` | exactly when an installed listener is on its lease's port |
| `ProtocolSessions.dfy` | who is let in, who is turned away and why, and how connections end |
| `Manager.dfy` | the manager as an object; each method says what it does and is the protocol's call run without interference |
| `Visitors.dfy`, `VisitorProofs.dfy` | any number of visitor handlers against `close()`, with load and compare-and-swap as separate steps |
| `VisitorSlots.dfy` | what each visitor handler gets, and that the cap can be used in full |
| `VisitorTeardown.dfy` | teardown of visitors ends, with a bound on the steps it takes |
| `Forward.dfy` | the forward object: its visitor map and `close()` |
| `Limiter.dfy`, `LimiterRates.dfy`, `LimiterCap.dfy` | the auth limiter, its refinement of a plain counter, its rate bounds, its hard cap |
| `Allocator.dfy` | the cyclic port allocator |
| `StoreModel.dfy`, `StoreRuns.dfy` | the store on values with every micro-step, crashes, histories, paid time |
| `Store.dfy` | the store as an object with shared lease objects, proved against `StoreModel` |
| `Coordinator.dfy` | clamped durations in int64, and the coordinator's calls on the store object |
| `Allowlist.dfy` | the allowlist check and its pre-parsed form |
| `Bridge.dfy` | what `Protocol` takes the store to do is what `StoreModel` does |

## Assumptions

- Time is a number of nanoseconds and the clock never goes back within a run of the daemon.
- A bbolt `Update` that returns an error changed nothing; one that returns nil is on disk.
- The database is empty or was written by this daemon: what decodes never names a port or a
  token twice (`SoundDisk`). Rows that do not decode are allowed.
- A lease survives JSON encoding unchanged. An expiry that JSON cannot encode is a failed write.
- A minted token is not the token of a live lease. `Create` does not check this;
  `CreateNeedsFreshToken` shows that the indexes stay exact if and only if it holds.
- The configuration bounds of `internal/tunnel/config/config.go:99-107` hold. The protocol also
  takes durations to be positive, which `ClampIsExact` gives for a `MaxLeaseSeconds` of up to
  9223372036 and `ClampCanGoNegative` shows to fail one above it.
- The operating system never gives out two listeners on one port. A connection is named by the
  goroutine that serves it, and Go pointers are identities that are never reused.
- One critical section of a mutex is one step where it touches only what that mutex guards.
  The early look at the store in `handleConn`, before registration, is left to happen or not.

Where comments and code differ, the model follows the code.

- `limiter.go:57` says that whatever is left after the cleanup is within its window. Cleanup is
  amortised, so that is not so. `LeftoversLiveIff` says when it holds, from the times of the
  calls and the windows they opened; `ExpiredEntriesCanFillTheCap` has a run for every
  configuration in which a new address is refused over a map of expired entries.
- `forward.go:225-229` says that no listener can go up once a lease has left the store. One can,
  when the removal falls between StartForward's store read and its install
  (`OrphanListenerIsReachable`), also on a port that the lease no longer has
  (`StaleListenerIsReachable`). `InstallOnLeasePortIff` and `LinkedOnLeasePortIff` give the exact
  condition on that window; the teardown is pending whenever it fails (`ForwardOnLeasePort`), and
  nothing is left after it (`RevokedStaysDown`).
- `clampDuration` multiplies in int64 and is exact for every request if and only if the configured
  maximum is at most 9223372036 seconds (`ClampExactIff`).
- A forward that is cancelled, with its connection kept, can leave a visitor handler waiting for
  the client to answer its channel, with a slot held (`CancelCanStrandAHandler`); nothing else can
  hold up a handler on a closed forward (`NothingBlocksTeardown`).

## Model

| member | source | states |
|---|---|---|
| ProtocolTheorems.InstalledIsLiveOrPending | internal/tunnel/sshd/forward.go:204-284 | In every reachable state of every interleaving, a lease id that is in the manager's table, or that a thread holding the lock is about to install, is live in the store or has a teardown pending |
| ProtocolTheorems.RevokedStaysDown | internal/tunnel/coordinator.go:63-75 | Once Teardown's critical section has run after a revoke, or after a sweep that deleted the row, nothing is installed or being installed for that id, and every session of it has lost its connection or is about to, in any later state until the id is created again |
| ProtocolTheorems.SweepLeavesOnlyRenewed | internal/tunnel/coordinator.go:108-139 | When a sweep has gone through its ids, every id left in the table has a lease that ends after the time at which the sweep began, or another thread's teardown pending, whatever extends, re-creates, registrations and failed row deletes happened meanwhile |
| ProtocolTheorems.OnlyRevokedOrExpiredLeave | internal/tunnel/lease/store.go:219-239 | Over whole runs, a lease leaves the store only in its own revoke or in a sweep step, and the cutoff of that sweep is not in the future; that the sweep step removes only what has expired rests on Store.LeaseStore.MarkExpiredIfBefore |
| ProtocolTheorems.ForwardOnLeasePort | internal/tunnel/sshd/forward.go:225-268 | Every installed forward is bound to the port the store now gives its lease, or a teardown of that id is pending; exactly when the first holds is LinkedOnLeasePortIff |
| ProtocolInstalls.InstallHasRead | internal/tunnel/sshd/forward.go:234-264 | Every install of every run goes back to a store read of the same thread that found the lease and to a later check at which it had not ended, and listens on the port that was read |
| ProtocolInstalls.InstallOnLeasePortIff | internal/tunnel/sshd/forward.go:225-268 | At every moment from an install on, its lease exists if and only if no removal fell after the store read or a create followed the last one, and is on the listener's port if and only if that create, if any, gave the same port |
| ProtocolInstalls.LinkedOnLeasePortIff | internal/tunnel/sshd/forward.go:225-268 | The same for every forward linked in any reachable state: it has an install, a store read and a check, and what happened since the read decides whether it is on the port of its lease |
| ProtocolSessions.RegistrationIsPaid | internal/tunnel/sshd/forward.go:204-213 | Every registration of every run goes back to a store read that found the lease and to a later check at which that lease had not ended |
| ProtocolSessions.RegisterRefusalHasCause | internal/tunnel/sshd/forward.go:206-210 | In every run RegisterConn turns a connection away only when the store did not have the lease, or when the lease it read had ended by its check |
| ProtocolSessions.StartRefusalHasCause | internal/tunnel/sshd/forward.go:234-242 | In every run StartForward refuses for good only when the store did not have the lease, when the lease it read had ended by its check, or when the client's registration is not the latest of that id |
| ProtocolSessions.RefusalDisconnects | internal/tunnel/sshd/server.go:229-234 | A client refused for good is disconnected before its goroutine does anything else |
| ProtocolSessions.GoroutineEndsClosed | internal/tunnel/sshd/server.go:176-206 | In every run a goroutine that served a connection does not end with the connection open, whichever way it ends |
| ProtocolTheorems.OrphanListenerIsReachable | internal/tunnel/sshd/forward.go:225-268 | For any port, a run with a revoke between StartForward's store read and its install ends with the listener up and no such lease in the store |
| ProtocolTheorems.StaleListenerIsReachable | internal/tunnel/sshd/forward.go:230-268 | For any two ports, the run in which an id is revoked and re-created between StartForward's store read and its install ends with the listener on the port the lease no longer has |
| ProtocolTheorems.NoForeignListener | internal/tunnel/sshd/forward.go:249-284 | A listener open on a lease's port is that lease's own, or is in the hands of a thread, or belongs to another id whose teardown is pending |
| ProtocolTheorems.ListenerHasOneOwner | internal/tunnel/sshd/forward.go:257-318 | A listener is open exactly when it is the forward of one linked leaseState or is held by one thread; never both, never two of either, so none leaks and none is closed by two |
| ProtocolTheorems.UnlinkedStateIsFrozen | internal/tunnel/sshd/forward.go:211-222 | A leaseState that has left the table never changes again and never returns, which justifies reading its forward after unlocking |
| ProtocolTheorems.LastWriterWins | internal/tunnel/sshd/forward.go:198-223 | The registered connection of a lease is c if and only if the run contains a registration by c for it that was not followed by another registration, a teardown or c's own close |
| ProtocolTheorems.StaleRequestIsIgnored | internal/tunnel/sshd/forward.go:286-318 | In every run a cancel or close from a connection whose registration is not the latest of that id changes neither table, leaseStates, forwards nor connections; a close changes the table exactly when it is the latest |
| ProtocolTheorems.OneLiveSession | internal/tunnel/sshd/server.go:185-206 | Two open registered connections of one lease that nobody is about to close are the same one, and it is the one in the table |
| ProtocolProofs.RunKeepsInv | internal/tunnel/sshd/forward.go:204-318 | Every reachable state satisfies the lock, pointer, ownership, listener, store, sweep and session invariants together |
| ManagerObject.Manager.RegisterConn | internal/tunnel/sshd/forward.go:198-223 | Refuses exactly when the lease is unknown or has ended, and then changes nothing; otherwise the id gets a new entry, and the forward and the connection of the old one, unless it is the same connection, are closed and no others |
| ManagerObject.Manager.StartForward | internal/tunnel/sshd/forward.go:230-268 | Exactly when each of the four outcomes occurs; only a start changes anything, and puts a listener on the lease's port up as the forward of the caller's entry; the port echoed is the requested one, or for 0 the lease's |
| ManagerObject.Manager.Teardown | internal/tunnel/sshd/forward.go:270-284 | The id is gone from the table and nothing else is; its forward and its connection are closed and no other |
| ManagerObject.Manager.CancelForward | internal/tunnel/sshd/forward.go:286-302 | The forward of the caller's own entry is closed and detached and no other; every entry stays; for another's entry nothing changes |
| ManagerObject.Manager.OnConnClosed | internal/tunnel/sshd/forward.go:304-318 | The caller's own entry is gone and its forward closed, and nothing else changes; for another's entry nothing changes |
| ManagerObject.RegisterIsRun | internal/tunnel/sshd/forward.go:204-223 | What RegisterConn does is reached in the protocol by steps of the calling thread alone, up to where the caller serves or hangs up |
| ManagerObject.StartIsRun | internal/tunnel/sshd/forward.go:230-268 | What StartForward does, for each outcome, is reached by steps of the calling thread alone, up to where the caller serves on or is refused |
| ManagerObject.TeardownIsRun | internal/tunnel/sshd/forward.go:272-284 | What Teardown does is reached by steps of the calling thread alone, up to where the revoke ends or the sweep goes on |
| ManagerObject.CancelIsRun | internal/tunnel/sshd/forward.go:290-302 | What CancelForward does is reached by steps of the calling thread alone, up to where the caller serves on |
| ManagerObject.ConnClosedIsRun | internal/tunnel/sshd/forward.go:306-318 | What OnConnClosed does is reached by steps of the calling thread alone, up to where the caller closes its connection |
| ManagerObject.TakeoverClosesAnother | internal/tunnel/sshd/forward.go:214-221 | In every reachable state a connection about to register owns no entry, so the guard against closing one's own connection never bites |
| VisitorProofs.CounterCountsSlots | internal/tunnel/sshd/forward.go:129-141 | In every interleaving of loads and compare-and-swaps, over all forward generations, a leaseState's counter is the number of handlers holding one of its slots and stays within 0..max |
| VisitorSlots.TurnedAwayIffFull | internal/tunnel/sshd/forward.go:131-136 | In every run a handler that loads the counter is turned away if and only if all slots of its leaseState are taken at that moment |
| VisitorSlots.OnlyFullTurnsAway | internal/tunnel/sshd/forward.go:131-141 | In every run a handler leaves reserveVisitorSlot only with a slot or on finding all slots taken |
| VisitorSlots.SwapWinsIff | internal/tunnel/sshd/forward.go:137-139 | A handler that loads with a slot free and swaps next gets its slot if and only if as many slots are taken at the swap as at the load; otherwise it tries again |
| VisitorSlots.UndisturbedGetsSlot | internal/tunnel/sshd/forward.go:131-141 | With no other swap or release between its load and its swap it does get the slot |
| VisitorSlots.CapCanBeUsed | internal/tunnel/sshd/forward.go:383-390 | For every n up to the cap some run has n visitors of one leaseState holding slots at once |
| VisitorSlots.ClosedTurnsAway | internal/tunnel/sshd/forward.go:379-409 | In every run trackVisitor and setVisitorChannel let a handler through if and only if its forward has not been closed, and record it without and with a channel |
| VisitorSlots.OnlyOpenedChannelsClose | internal/tunnel/sshd/forward.go:400-409 | Only a channel that has been opened is ever closed, and no handler copies without one |
| VisitorProofs.TeardownReachesVisitors | internal/tunnel/sshd/forward.go:62-115 | After close() every tracked visitor socket is closed, and a handler in its copy phase has lost its SSH channel too |
| VisitorProofs.NoLateVisitor | internal/tunnel/sshd/forward.go:78-91 | A handler that is not tracked when `closed` is set is never tracked on that forward afterwards |
| VisitorProofs.NothingBlocksTeardown | internal/tunnel/sshd/forward.go:365-432 | On a closed forward an unfinished handler has a step that waits for nobody if and only if it is not waiting for its channel, or its connection is closed too |
| VisitorProofs.RestedForwardIsClean | internal/tunnel/sshd/forward.go:379-432 | When a single torn-down forward has come to rest, also while other forwards of its leaseState are open, each of its handlers has finished, its socket and channel are closed and it holds no slot; that all forwards of a leaseState do come to rest is TeardownEnds |
| VisitorTeardown.TeardownEnds | internal/tunnel/sshd/forward.go:365-432 | After the forwards and the connection of a leaseState with n handlers are closed, these take at most 4*n*n + 6*n more steps in any interleaving, lost compare-and-swaps included, and until all have finished, their sockets and channels are closed and the counter is 0, one of them has a step that waits for nobody |
| VisitorTeardown.CancelCanStrandAHandler | internal/tunnel/sshd/forward.go:286-302 | A run that closes a forward and keeps its connection, as a cancel does, and leaves a handler that holds a slot waiting for its channel |
| ForwardObject.ForwardObject.TrackVisitor | internal/tunnel/sshd/forward.go:78-91 | Fails exactly when the forward is closed; otherwise the socket is tracked without a channel, as the step of the visitor protocol does |
| ForwardObject.ForwardObject.SetVisitorChannel | internal/tunnel/sshd/forward.go:93-107 | Succeeds exactly when the forward is open and still tracks the socket, and then records the channel for it alone |
| ForwardObject.ForwardObject.UntrackVisitor | internal/tunnel/sshd/forward.go:109-115 | Removes that socket and no other, also after the close |
| ForwardObject.ForwardObject.Close | internal/tunnel/sshd/forward.go:62-76 | Closes every tracked socket and exactly the recorded channels, forgets them, and does nothing the second time |
| Limiter.AuthLimiter.TryAdmit | internal/tunnel/sshd/limiter.go:39-63 | Answers and changes state as the limiter's transition function says |
| Limiter.AuthLimiter.MaybeCleanup | internal/tunnel/sshd/limiter.go:65-77 | The eviction loop keeps exactly the entries within their window, at most once per interval |
| Limiter.SimulatesStep | internal/tunnel/sshd/limiter.go:40-63 | From related states the limiter and a counter that never evicts agree on a call if and only if the map is not full of other addresses, and then stay related |
| Limiter.AgreesWithSimpleCounter | internal/tunnel/sshd/limiter.go:40-77 | In every run, until a call meets a full map, every answer is that of a per-address fixed-window counter that never evicts; the first call that meets one differs |
| Limiter.MapStaysBounded | internal/tunnel/sshd/limiter.go:8-15 | After any call of any run the map has at most 65536 entries, each younger than the window plus the cleanup interval |
| LimiterRates.IntervalBound | internal/tunnel/sshd/limiter.go:40-63 | Any closed interval of one window length admits at most 2*max - 1 attempts of an address, in every run |
| LimiterRates.IntervalBoundIsTight | internal/tunnel/sshd/limiter.go:40-63 | For every configuration some run admits exactly 2*max - 1, so that bound cannot be lowered |
| LimiterRates.WindowBound | internal/tunnel/sshd/limiter.go:47-54 | From the call that opens a window through the rest of the run, at most max attempts within the window length are admitted, evictions included |
| LimiterCap.LeftoversLiveIff | internal/tunnel/sshd/limiter.go:55-60 | In every run, what the cleanup leaves at a call is all within its window if and only if a scan is due, by the times of the calls alone, or no address has a latest window that was open at the last scan and is over now |
| LimiterCap.CapCountsLiveIff | internal/tunnel/sshd/limiter.go:55-60 | A call that meets the cap is refused over exactly 65536 entries of other addresses, all within their window under exactly that condition |
| LimiterCap.ExpiredEntriesCanFillTheCap | internal/tunnel/sshd/limiter.go:55-60 | For every configuration a run in which a new address is refused although every entry has expired |
| Allocator.PortAllocator.Allocate | internal/tunnel/lease/allocator.go:39-63 | The scan loop grants the first acceptable candidate, or none after one round |
| Allocator.PortAllocator.Reserve | internal/tunnel/lease/allocator.go:22-27 | Marks a port of the range as held and ignores any other |
| Allocator.PortAllocator.Release | internal/tunnel/lease/allocator.go:29-32 | Gives that port back and no other |
| Allocator.PortAllocator.Free | internal/tunnel/lease/allocator.go:34-37 | The number of ports not held, between 0 and the size of the range |
| Allocator.AllocateIsCyclicallyFirst | internal/tunnel/lease/allocator.go:41-63 | A grant is the cyclically first port that is neither held nor busy when probed, and the cursor moves just past it; a refusal means all were held or busy, and leaves the allocator as it was |
| Allocator.ScanVisitsEachPortOnce | internal/tunnel/lease/allocator.go:42-48 | One round looks at every port of the range exactly once and at no other |
| Allocator.HeldPortsAreNotProbed | internal/tunnel/lease/allocator.go:49-58 | What probes of held ports would answer has no influence on the outcome |
| Allocator.PortsAreReusedLast | internal/tunnel/lease/allocator.go:41-63 | Over any sequence of calls, between two grants of one port the cursor has passed every port of the range |
| StoreModel.RequestKeepsGood | internal/tunnel/lease/store.go:143-266 | Every call, committed or not, keeps ports and tokens unique, the held ports exactly the leases' ports, the token index exact, and disk equal to memory |
| StoreModel.ReopenIsGood | internal/tunnel/lease/store.go:93-131 | Open establishes all of that from any database of this daemon |
| StoreModel.ReopenKeepsExactly | internal/tunnel/lease/store.go:99-131 | A row survives Open, unchanged, if and only if it decodes to an active lease that ends after now and holds a port of the range |
| StoreRuns.CrashIsAtomic | internal/tunnel/lease/store.go:143-266 | Stopping a call after any of its micro-steps and reopening gives what reopening before or after the call would give, restricted to unexpired leases in range, never two on a port |
| StoreRuns.OpenIsCrashSafe | internal/tunnel/lease/store.go:81-136 | Whether or not Open's pruning committed, a later Open yields the same store |
| StoreRuns.HistoryKeepsGood | internal/tunnel/lease/store.go:81-266 | The store's invariant holds after every history of calls, failed writes, crashes in mid-call and restarts with other ranges |
| StoreRuns.HealthAddsUp | internal/tunnel/lease/store.go:319-324 | From an empty database, after any history, active leases and free ports add up to the range, ports are distinct and in range, and disk equals memory |
| StoreRuns.TokenFindsItsLease | internal/tunnel/lease/store.go:279-292 | After any history a token finds l if and only if l is the live lease that holds it, with its current expiry |
| StoreRuns.CreateNeedsFreshToken | internal/tunnel/lease/store.go:157-182 | A create that goes through keeps the store's invariant if and only if its token is not in use |
| StoreRuns.PaidTimeIsConserved | internal/tunnel/lease/store.go:140-203 | After any history a live lease ends its creation time plus the durations of its persisted create and extends; retries, failed writes and restarts add nothing |
| StoreRuns.TermsAreKept | internal/tunnel/lease/store.go:166-182 | After any history a live lease has the token and the allowlist of the persisted create that opened it, through extends, failed writes, crashes and restarts |
| Store.LeaseStore.Get | internal/tunnel/lease/store.go:268-277 | A copy of the lease, or nothing |
| Store.LeaseStore.ByToken | internal/tunnel/lease/store.go:279-292 | Returns l if and only if l is the live lease that holds the token |
| Store.LeaseStore.Stats | internal/tunnel/lease/store.go:319-324 | The two counters add up to the size of the range |
| Store.LeaseStore.Create | internal/tunnel/lease/store.go:140-183 | A retry returns the lease unchanged; a first create has the requested allowlist, the minted token and the requested duration from now, on the cyclically first free port; which failure is reported, and that a failed one gives its port back but leaves the cursor past it |
| Store.LeaseStore.Extend | internal/tunnel/lease/store.go:185-203 | Moves the expiry of the object both indexes share after the row is on disk; without a commit nothing changes |
| Store.LeaseStore.Delete | internal/tunnel/lease/store.go:205-217 | Removes exactly that lease from disk, both indexes and the allocator, or changes nothing and says why |
| Store.LeaseStore.MarkExpiredIfBefore | internal/tunnel/lease/store.go:219-239 | Tells an expired lease from a renewed or unknown one, and removes exactly an expired one whose row delete commits |
| Store.LeaseStore.ExpiredBefore | internal/tunnel/lease/store.go:306-317 | Lists exactly the ids whose lease ends at or before the time, each once: those for which MarkExpiredIfBefore at that cutoff finds an expired lease |
| Store.Open | internal/tunnel/lease/store.go:78-136 | The loading loop rebuilds both indexes over shared objects from exactly the rows of active leases that end after now and lie in the range, reserves exactly their ports, and prunes the rest; or leaves the disk alone and returns no store |
| Coordinator.ClampIsExact | internal/tunnel/coordinator.go:148-156 | For a maximum of up to 9223372036 seconds a request within the bounds is granted exactly, one below the minimum gets the minimum, one above the maximum the maximum |
| Coordinator.ClampIsNearest | internal/tunnel/coordinator.go:148-156 | What is granted is the permitted number of seconds nearest to the request |
| Coordinator.ClampExactIff | internal/tunnel/coordinator.go:148-156 | Over all requests the int64 product is exact if and only if the configured maximum is at most 9223372036 seconds |
| Coordinator.ClampCanGoNegative | internal/tunnel/coordinator.go:148-156 | A configuration that passes the checks and a request whose duration comes out negative |
| Coordinator.PaidSecondsAreGranted | internal/tunnel/coordinator.go:34-61 | From an empty database, through any history of orders, retries, failed writes, crashes and restarts, a live lease ends exactly the clamped seconds bought after it began |
| Coordinator.Coordinator.CreateLease | internal/tunnel/coordinator.go:34-50 | A first create takes a port no lease holds, has the requested allowlist and the minted token, and expires its clamped duration from now; a retry returns the lease unchanged; a failure leaves leases and disk alone and is the store's |
| Coordinator.Coordinator.ExtendLease | internal/tunnel/coordinator.go:52-61 | Adds the clamped duration to the expiry of that lease and changes nothing else, or changes nothing and says why |
| Coordinator.Coordinator.RevokeLease | internal/tunnel/coordinator.go:63-75 | The teardown runs if and only if the lease was removed; otherwise the error says whether it was unknown or could not be deleted |
| Coordinator.Coordinator.SweepExpired | internal/tunnel/coordinator.go:108-139 | Without interference exactly the leases that end at or before now are torn down, each once, even when the row delete fails; exactly those whose delete commits leave the store, and the result counts them |
| Allowlist.AllowsIP | internal/tunnel/lease/store.go:47-60 | Admits everybody without entries, and otherwise whoever some well-formed entry contains |
| Allowlist.ParseCIDRs | internal/tunnel/sshd/forward.go:168-178 | Keeps the networks of the well-formed entries in order |
| Allowlist.ParsedAdmits | internal/tunnel/sshd/forward.go:168-178 | Some parsed network contains an address if and only if some well-formed entry does |
| Allowlist.Allows | internal/tunnel/sshd/forward.go:47-60 | Fails closed when a restriction parsed to nothing, and otherwise admits whoever some network contains |
| Allowlist.VisitorAllowed | internal/tunnel/sshd/forward.go:365-376 | The check in handleVisitor admits exactly whom Lease.AllowsIP admits, malformed entries and missing addresses included |
| Bridge.CallIsProtocolStep | internal/tunnel/lease/store.go:140-266 | Seen through port and expiry, a store call is the protocol's Create, Extend or removal of its lease exactly when it goes through, and nothing otherwise; a sweep's call removes only what had expired at the cutoff |
| Bridge.OpenIsProtocolInit | internal/tunnel/lease/store.go:117-120 | The leases Open rehydrates are a legal start for the protocol |

## Left out

- ManagerObject.Manager.RegisterConn: the methods of the object run to their end undisturbed; interleaving is in `Protocol`, on values with identities for pointers.
- ForwardObject.ForwardObject.Close: is one call on the object; its interleaving with handlers is in `Visitors`, on values.
- Coordinator.Coordinator.SweepExpired: states the sweep without concurrent calls; the concurrent sweep is `ProtocolTheorems.SweepLeavesOnlyRenewed`.
- Allocator.PortAllocator.Allocate: `portInUse` is a function from candidate number to answer, one per call.
- Allowlist.AllowsIP: `net.ParseCIDR` and `net.IPNet.Contains` are parameters.
- VisitorTeardown.TeardownEnds: takes it that a torn-down leaseState gets no new forward, which is `ProtocolTheorems.UnlinkedStateIsFrozen`; that the scheduler runs a handler that can run is not modelled.
- The SSH handshake, keepalives, channel multiplexing, byte copying and byte counters: sockets and channels are identities with an open or closed flag.
- The accept loop and its back-off, host keys, STUN, the control API, metrics, logging and configuration loading: plumbing around the core.
- `List`, `Manager.Stats` and the response projections: they only read.
- bbolt, JSON and token generation: an atomic map update, a faithful encoding and a source of fresh tokens.
- The egress sidecar (`internal/policy`, `internal/transport`, `internal/server`): it shares no state with the tunnel.
