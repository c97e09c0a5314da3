# frp: control handoff, UDP data planes, packet codec and allocators

frp exposes services behind NAT: a client (frpc) logs in to a server (frps) over a control
connection, registers proxies, and lends the server work connections that carry user traffic.
This project models the parts of frp whose correctness depends on many things happening at once,
and proves what they promise.

- **Control generations** (`Registry`, `Handoff`, `HandoffInvariant`, `HandoffEffects`,
  `HandoffTheorems`, `HandoffOnline`, `HandoffTeardown`, `HandoffWitness`, `Controls`). A client that logs in again with the same run ID
  gets a new control while the old one may still be tearing down. `Handoff` is a step system with any
  number of login threads, control workers, closing managers and incoming work connections, in which
  one action is one critical section or one channel operation. Callers always remove a pending control
  before they close it (server/service.go:480-495, 507-510; server/control.go:348-351), and the model
  has that discipline. `HandoffInvariant` is the invariant and its preservation, `HandoffTheorems` the
  results over all runs. `Controls` has the objects themselves, one method per critical section, each
  proved to do what the step system does.
- **UDP data planes** (`XudpVisitor*`, `AsyncRequest`, `UdpProxy*`, `SudpVisitor*`, `XudpProxy*`, `UserSocket`).
  Queues of packets survive the replacement of the transport under them. Each is a step system of the
  goroutines involved; dialling, sending and receiving succeed or fail as the environment likes. The
  fields and maps that critical sections change are classes whose methods are proved against the steps.
- **The binary UDP packet codec and the bridge** (`Codec`, `CodecTheorems`, `Bridge`, `BridgeCodec`). The methods work
  on byte arrays by a moving offset, as the source does, and are proved equal to functions on values;
  the theorems say what those functions mean by an independent description of the layout.
- **Allocators and schedulers** (`Ports`, `TcpGroup*`, `NatHole*`). TCP groups and the port manager
  they share are one step system, in which acquiring, binding, closing and releasing a port are separate actions.

A step system has a `State`, `Enabled` and `Apply`; `IsRun` says that the states are
those of a run from the initial one. Theorems take any run and any position in it.

Where the code and its comments disagree the model follows the code. Each promise that fails is shown
to fail, together with the exact condition under which it holds.

- Recommender scores are called "between -10 and 10" (pkg/nathole/analysis.go:261) but have no lower
  bound (`NatHole.NoLowerBound`). A recommendation keeps a floor exactly when the best score is above it
  (`NatHole.FloorIff`), and without successes the floor lasts for exactly as many recommendations as the
  scores together exceed it by (`NatHole.FloorKeptFor`).
- A peer on a public network is called "always receiver" (pkg/nathole/analysis.go:28). Between easy peers a
  public client receives in the first five recommendations and then in five of every ten
  (`NatHolePublic.PublicClientReceivesIff`). A public visitor does likewise, unless the client is public too:
  then it sends in the first five, from the very first (`NatHolePublic.PublicVisitorReceivesIff`, `NatHolePublic.BothPublic`).
  The condition after any history, successes included, is `NatHolePublic.ReceivesAfterIff`.
- A failed request for any port loses the port it found exactly when that port is number 0
  (`Ports.Manager.Acquire`, shown by `Ports.ZeroPortIsLost`).
- A port in use is handed out a second time exactly when it is the proxy's own reservation and the system
  reports it free (`Ports.ReservedPortTwice`). Used ports have one holder each exactly as long as neither
  of these two things happens (`TcpGroupPorts.ExclusiveIff`); both ways in which a port is then released
  under a listening group are shown (`TcpGroupWitness.ReleasedWhileBound`, `TcpGroupWitness.ReleasedByTheLoser`).
- A packet whose write fails is kept and retried on the next connection (server/proxy/udp.go:273-277,
  client/visitor/xudp.go:748-758). One that has no binary encoding fails on every one, and blocks the frps
  UDP proxy for good (`UdpProxyCodec.BlockedForGood`); with a buffer of 65508 bytes a datagram of that length
  from an IPv6 address is such a packet (`UdpProxyPasses.BlockedByZeros`). The next packet can get through
  exactly when it has an encoding (`UdpProxyPasses.PassesIff`). So users cannot block the proxy exactly when
  `udpPacketSize` is at most 65507 and every interface name is UTF-8 of at most 255 bytes and together with
  `udpPacketSize` at most 65511 (`UdpProxyPasses.NeverBlockedIff`). Names have at most 15 bytes under Linux, so
  there 65496 is safe, and the default of 1500 is (`UserSocket.FitsLinux`). The XUDP visitor is blocked in the
  same way, and under the same condition, while its transports are binary (`XudpVisitorPasses.NeverBlockedIff`).
- What the XUDP visitor settles it need not deliver. P2P transports drop a packet whose encoding has more than
  1150 bytes (client/visitor/xudp.go:190-199), and relays do not (`XudpVisitorPasses.OversizedIff`). A packet of
  1400 bytes, which fits the default size, is dropped if the first P2P dial succeeds (`XudpVisitorAccepts.DropsDefault`).
  The next packet can still be accepted exactly when it has an encoding, and has one of at most 1150 bytes or
  is not yet committed to P2P (`XudpVisitorAccepts.AcceptsIff`). So nothing applications send need ever be
  dropped exactly when `udpPacketSize` is at most 1127 and every interface name is UTF-8 of at most 255 bytes
  and together with `udpPacketSize` at most 1127 (`XudpVisitorAccepts.NeverDroppedIff`).

## Model

| member | source | states |
|---|---|---|
| Registry.EveryRunConsistent | server/registry/registry.go:74-173 | after any run of register and offline calls the run index is exactly the inverse of the online entries, online means a non-empty run ID, and every offline entry has a raw client ID |
| Registry.RegisterEffect | server/registry/registry.go:74-136 | a registration is refused, changing nothing, exactly when another run is online under the key of a client that named itself; otherwise it puts this run and control online and no third run sees a difference, also when two user and ID pairs compose to the same key |
| Registry.MarkOfflineEffect | server/registry/registry.go:138-173 | a mismatched control ID changes nothing; a matching one takes that run offline and leaves every other run as it was |
| Registry.ClientRegistry.constructor | server/registry/registry.go:55-65 | a new registry is the result of no calls |
| Registry.ClientRegistry.RegisterWithControlID | server/registry/registry.go:74-136 | updating the two maps in place does what `Register` says, and keeps them consistent |
| Registry.ClientRegistry.MarkOfflineByRunID | server/registry/registry.go:148-173 | updating the two maps in place does what `MarkOffline` says, and keeps them consistent |
| HandoffInvariant.ActionKeeps | server/control.go:81-353 | the protocol invariant is kept by every action of every thread: lock ownership, slots, barriers, uniqueness of IDs and of the generation with something to clean up, agreement with the registry |
| HandoffTheorems.OneOwnerPerRun | server/control.go:109-171 | at no time do two generations of one run ID own proxies or work connections |
| HandoffTheorems.ActivationIsExclusive | server/control.go:175-220 | when a control is activated every other generation of its run, through any chain of replaced pending ones, has been cleaned up, and never owns anything again |
| HandoffTheorems.RunningIsCurrent | server/control.go:226-247 | while the manager is open a running control is the current entry of its run, hence the only one |
| HandoffTheorems.VisitorMeetsCurrent | server/control.go:289-303 | a visitor is let in only by the current and running generation of its run, while no other generation of the run owns anything or has anything left to clean up |
| HandoffTheorems.GateFreezesSlot | server/control.go:81-105 | while a thread is inside a call let in by lockCurrentRun no other thread changes the slot of its run, although slots are removed and made again with new gates |
| HandoffTheorems.OneGateEach | server/control.go:78-105 | no thread holds two run gates, and one that waits for a gate holds none |
| HandoffTheorems.RegistryFollowsManager | server/control.go:148-160 | every online registry entry belongs to the current map entry of its run, which records it, also when inherited by a replacement that never activates |
| HandoffOnline.OnlineIff | server/control.go:202-219 | conversely, the registry shows a run online for a control exactly when that control registered it and since then the map has recorded it without a break and no client that did not name itself has registered under its key |
| Registry.DisplacedIff | server/registry/registry.go:87-120 | a registration takes another run offline exactly when it names no client and its key is the one that run is online with |
| HandoffTheorems.ClosedMeansOffline | server/control.go:339-353 | once Close of the manager has returned no run is in the map and no client is online |
| HandoffTheorems.WorkConnsConserved | server/control.go:307-337 | a presented work connection is in exactly one of pooled, handed out and closed, and no pool exceeds its pool count plus ten |
| HandoffTheorems.ClosedPoolOnlyShrinks | server/control.go:683-725 | nothing is ever sent on a closed work connection channel |
| HandoffTheorems.BarriersDescend | server/control.go:551-573 | a handoff barrier belongs to an earlier control of the same run, so waits are well-founded |
| HandoffTheorems.ManagerLockNeverWaits | server/control.go:135-160 | a thread about to enter a section that takes a lifecycle lock under the manager's lock finds it free, so the manager's lock is never held while waiting |
| HandoffTheorems.NoDeadlock | server/control.go:78-80 | in every reachable state every unfinished thread that is not just serving a client can step, or waits through at most three others for one that can; and no section under the manager's lock waits |
| HandoffTeardown.TeardownIsBounded | server/control.go:683-725 | once a control has been replaced or told to close, its worker takes at most as many steps as a measure of that moment, which counts its pooled connections and proxies, plus one for each proxy its client still registers |
| HandoffTeardown.TeardownProgresses | server/control.go:498-511 | the measure is zero exactly when the control is closed and its barrier released; until then the worker can step, or waits through at most three others for a thread that can |
| HandoffWitness.LoginReachesRunning | server/service.go:833-846 | there is a run in which a login ends with its control running, current and online |
| HandoffWitness.ChainReachesActivation | server/control.go:551-573 | there is a run in which a running control is replaced, its pending replacement is replaced too, and the third is activated behind the barrier of the first |
| Controls.Control.constructor | server/control.go:436-474 | a new control is created and owns nothing |
| Controls.Control.Admit | server/control.go:486-496 | admission succeeds exactly on a created control and makes it pending with its ID |
| Controls.Control.MarkReplaced | server/control.go:551-573 | the control afterwards and the transitive barrier are those of the step system |
| Controls.Control.Succeed | server/control.go:142-160 | a replacement is admitted with the barrier its predecessor passes on |
| Controls.Control.Close | server/control.go:529-540 | a control without a worker is finished, a running one is left to its worker, and the connection is interrupted |
| Controls.Control.StartLocked | server/control.go:520-527 | only a pending and activated control starts |
| Controls.Control.FinishLocked | server/control.go:583-589 | the control is closed, and nothing else about it changes |
| Controls.Control.Pool | server/control.go:328-336 | a connection is pooled exactly when there is room, and otherwise stays with the caller |
| Controls.Control.CleanUp | server/control.go:705-713 | the worker closes the pool, takes every pooled connection out once and in order, and gives up all proxies |
| Controls.ControlManager.constructor | server/control.go:71-76 | a new manager is the initial state of the step system |
| Controls.ControlManager.CommitFirst | server/control.go:135-161 | committing to an empty slot is the admission step of the system |
| Controls.ControlManager.CommitReplacing | server/control.go:135-161 | committing over an entry is the admission step of the system, for both controls |
| Controls.ControlManager.ActivateLocked | server/control.go:181-219 | activation succeeds exactly for the pending current generation of an open manager, and a registry conflict changes nothing |
| Controls.ControlManager.RemoveLocked | server/control.go:257-267 | exactly the current generation is removed, and taken offline under the control ID that registered it |
| Controls.ControlManager.OfferLocked | server/control.go:319-336 | a work connection is taken exactly by the current running generation with room in its pool |
| Controls.ControlManager.CloseLocked | server/control.go:340-346 | the manager is closed and the snapshot holds exactly the current controls |
| XudpVisitorTheorems.Delivery | client/visitor/xudp.go:619-787 | across any switches, failures and cancellations the k-th packet settled is the k-th enqueued; settled, in-flight and queued packets are those enqueued, and none is given up before close |
| XudpVisitorTheorems.OneConsumer | client/visitor/xudp.go:345-365 | at most one goroutine consumes sendCh, and one that takes a packet from it is that consumer |
| XudpVisitorTheorems.EpochsAreExclusive | client/visitor/xudp.go:836-859 | the epoch moves only when no transport exists, so packets delivered and packets accepted are never of a superseded epoch |
| XudpVisitorTheorems.CloseIsFinal | client/visitor/xudp.go:864-907 | when Close has returned no transport is left, no connection is open and nothing can happen any more |
| XudpVisitorClose.CloseIsBounded | client/visitor/xudp.go:864-907 | once Close has begun the visitor's own steps are bounded by a measure of the state then and by what others do to it meanwhile |
| XudpVisitorClose.CloseProgresses | client/visitor/xudp.go:679-704 | until Close returns, the visitor has such a step to take; so Close returns unless others keep it busy for ever |
| XudpVisitorPasses.NothingPasses | client/visitor/xudp.go:748-758 | over binary transports, and while the visitor is open, the packets settled come before the first that has no encoding |
| XudpVisitorPasses.OversizedIff | client/visitor/xudp.go:190-199 | in every run over such transports a packet that was not given up has been settled by one step, and dropped exactly when that step sent it over P2P and its encoding has more than 1150 bytes; otherwise it was accepted |
| XudpVisitorPasses.AllBeforePass | client/visitor/xudp.go:654-676 | conversely, any run of the open visitor has a continuation in which exactly those are settled, that is accepted or dropped as too large for P2P, and what is accepted is accepted by an open transport |
| XudpVisitorPasses.PassesIff | client/visitor/xudp.go:748-758 | the next packet can be settled, accepted or dropped as too large for P2P, exactly when it has an encoding |
| XudpVisitorPasses.NeverBlockedIff | client/visitor/xudp.go:310 | no run of the open visitor, whatever applications send, leaves it with a packet that cannot be settled, exactly when the packet size in the configuration fits |
| XudpVisitorAccepts.StaysCommitted | client/visitor/xudp.go:654-758 | a packet too large for P2P that is committed to it stays so, whatever anyone does, until it is dropped or given up |
| XudpVisitorAccepts.AcceptsIff | client/visitor/xudp.go:659-663 | the next packet can still be accepted exactly when it has an encoding, and has one of at most 1150 bytes or is not yet committed to P2P, which it is as the first packet of a P2P transport, past the last check of such a transport's sender, or with a dispatcher, or on its way back to one, that has dialled a P2P connection |
| XudpVisitorAccepts.Drops | client/visitor/xudp.go:748-752 | for every larger packet, or one without an encoding, that applications can send there is a run after which it cannot be accepted |
| XudpVisitorAccepts.DropsDefault | pkg/xudp/transport/mtu.go:22 | one such under the default packet size: 1400 bytes from 10.0.0.1:5000, which have an encoding and can only be dropped |
| XudpVisitorAccepts.NeverDroppedIff | client/visitor/xudp.go:310 | in every run of the open visitor, whatever applications send, the next packet can still be accepted, exactly when the packet size in the configuration and the address fit 1150 bytes |
| XudpVisitorTheorems.ActionKeeps | client/visitor/xudp.go:348-415 | the data plane's invariant is kept by every step of dispatcher, transports, readers, senders and Close |
| XudpVisitorObjects.Machine.BeginSession | pkg/xudp/state/state.go:35-42 | a session gets the next generation and starts at epoch zero |
| XudpVisitorObjects.Machine.BeginTransport | pkg/xudp/state/state.go:47-55 | a transport of the current generation gets a strictly larger epoch; a stale one gets none and changes nothing |
| XudpVisitorObjects.Visitor.Register | client/visitor/xudp.go:319-343 | a transport is registered exactly while the visitor is open |
| XudpVisitorObjects.Visitor.BeginClose | client/visitor/xudp.go:873-895 | Close takes exactly the transports registered so far |
| AsyncRequest.OneOwner | client/visitor/xudp.go:121-184 | a result is always in exactly one place |
| AsyncRequest.GivenOrRecycled | client/visitor/sudp.go:91-158 | once producer and waiter are done the result was given to the caller or recycled, once, and the channel is empty |
| AsyncRequest.ProducerNeverBlocks | server/proxy/udp.go:91-155 | the producer never blocks and never needs its fallback; a waiter gives up only at shutdown and leaves an empty channel |
| AsyncRequest.Request.Deliver | server/proxy/udp.go:104-118 | the producer's section delivers or leaves the result to be recycled, as the step system does |
| AsyncRequest.Request.Cancel | server/proxy/udp.go:141-155 | cancelling drains a result that was delivered before |
| UdpProxy.Delivery | server/proxy/udp.go:244-286 | over any number of reconnects accepted writes, the packet in flight and sendCh are the packets enqueued, in order |
| UdpProxy.CyclesAreExclusive | server/proxy/udp.go:297-387 | a connection cycle starts only when the one before has ended with both workers gone and reconnectCh empty, and with the packet handed back first |
| UdpProxy.WakesAreGenuine | server/proxy/udp.go:203-242 | the dispatcher leaves a cycle only when that cycle's own reader has left, or at shutdown |
| UdpProxy.WorkersCounted | server/proxy/udp.go:357-380 | the WaitGroup count is the number of live goroutines and grows only while it is positive |
| UdpProxy.CloseIsFinal | server/proxy/udp.go:428-462 | when Close has returned no worker runs, no connection is open and the port was released once |
| UdpProxyCodec.NothingPasses | server/proxy/udp.go:244-286 | over connections that speak the binary codec, however often the proxy reconnects, what is accepted comes before the first packet that has no encoding; `UdpProxyPasses.AllBeforePass` is the converse |
| UdpProxyCodec.BlockedForGood | server/proxy/udp.go:273-277 | once a packet without an encoding is taken from the queue it stays in flight for good, and nothing is accepted any more |
| UdpProxyPasses.AllBeforePass | server/proxy/udp.go:297-387 | any run of the open proxy has a continuation in which exactly the packets before the first without an encoding are accepted, each written to an open connection |
| UdpProxyPasses.PassesIff | server/proxy/udp.go:273-277 | the next packet can be accepted exactly when it has an encoding |
| UdpProxyPasses.Blocks | server/proxy/udp.go:256-277 | for every packet without an encoding that users can send there is a run in which it is in flight and can never be accepted |
| UdpProxyPasses.BlockedByZeros | server/proxy/udp.go:393 | one such: with a buffer of 65508 bytes, as many zeros from an IPv6 address |
| UdpProxyPasses.NeverBlockedIff | server/proxy/udp.go:393 | no run of the open proxy, whatever users send, leaves it with a packet that cannot get through, exactly when the packet size in the configuration fits |
| UserSocket.EncodableIff | pkg/proto/udp/udp.go:125-134 | which of the packets a user socket can deliver have an encoding |
| UserSocket.EncodedSize | pkg/msg/udp_binary.go:44-89 | an encoding is 11 bytes longer than the packet over IPv4, and 23 and the zone over IPv6 |
| UserSocket.AllEncodableIff | pkg/msg/udp_binary.go:44-89 | all of them have one exactly when the buffer size fits the names of the interfaces |
| UserSocket.FitsLinux | pkg/config/v1/server.go:123 | with names of at most 15 bytes sizes up to 65496 fit, exactly those if a name has full length, and so does the default |
| UdpProxyClose.ShutdownIsBounded | server/proxy/udp.go:436-462 | once shutdown has begun the proxy's own steps are at most a measure of the state then plus the number of steps others take |
| UdpProxyClose.CloseProgresses | server/proxy/udp.go:428-454 | until Close returns, the proxy has such a step to take; so Close returns unless others keep it busy for ever |
| UdpProxy.Proxy.ReplaceWorkConn | server/proxy/udp.go:411-426 | the new connection is published, or refused once the proxy is closed, and the one to close is returned |
| UdpProxy.Proxy.ShutDown | server/proxy/udp.go:436-446 | shutdown takes the published connection and refuses later ones |
| SudpVisitor.ClosedOnce | client/visitor/sudp.go:161-245 | however Run, failed startups and Close interleave, the close channel and the base visitor are closed at most once, and no worker is added once the visitor is closed |
| SudpVisitor.NoSocketEscapes | client/visitor/sudp.go:182-211 | an open socket is the published one of a running visitor or some call is still going to close it |
| SudpVisitor.CloseWaitsForWorkers | client/visitor/sudp.go:450-472 | a Close that returns leaves no worker running and no connection in use |
| SudpVisitorClose.CloseIsBounded | client/visitor/sudp.go:450-472 | once the visitor is closed its data plane and any one call take together at most as many steps as a measure of that moment, plus two for each packet that still comes in |
| SudpVisitorClose.CloseProgresses | client/visitor/sudp.go:247-301 | until the call returns there is such a step to take; so Close returns unless packets keep coming for ever |
| SudpVisitor.AttemptsInOrder | client/visitor/sudp.go:398-428 | write attempts are an in-order subsequence of the input without duplicates |
| SudpVisitor.RetriesPrecedeConnection | client/visitor/sudp.go:247-301 | a packet is retried only before a connection exists for it, and is given up unwritten only at close or when its connection could not be set up |
| SudpVisitor.Visitor.Enter | client/visitor/sudp.go:162-174 | only the first Run gets past the first section |
| SudpVisitor.Visitor.Commit | client/visitor/sudp.go:200-213 | a socket is published, with two workers, only if the visitor was not closed meanwhile |
| SudpVisitor.Visitor.FailStartup | client/visitor/sudp.go:229-245 | a failed startup closes the visitor unless it is closed already |
| SudpVisitor.Visitor.BeginClose | client/visitor/sudp.go:450-462 | the first Close takes the published socket |
| XudpProxyTheorems.WaitGroupCounts | client/proxy/xudp.go:204-232 | the WaitGroup counts exactly the promoted and unfinished connections, and never grows once Close has begun |
| XudpProxyTheorems.ClosersRunOnce | client/proxy/xudp.go:92-121 | every registered closer runs exactly once, after stop |
| XudpProxyTheorems.CloseOwnsAll | client/proxy/xudp.go:155-180 | after Close returns nothing is active, all closers have run and every pending connection is closed |
| XudpProxyClose.CloseIsBounded | client/proxy/xudp.go:155-180 | once Close has begun, Close and all workers take together at most as many steps as a measure of that moment, plus three for each connection that arrives and each socket a connection in service is asked for |
| XudpProxyClose.CloseProgresses | client/proxy/xudp.go:155-232 | until Close returns there is such a step to take, by Close or, while it waits, by a promoted worker that it waits for |
| XudpProxyTheorems.NoLeak | client/proxy/xudp.go:237-271 | a worker that is gone left no connection open, except those whose closers Close is running |
| XudpProxyTheorems.ActionKeeps | client/proxy/xudp.go:155-232 | the ownership invariant is kept by every step of every worker and of Close |
| XudpProxyObjects.ConnLifecycle.AddCloser | client/proxy/xudp.go:92-104 | a closer is registered before stop and handed back to be run after it |
| XudpProxyObjects.ConnLifecycle.Stop | client/proxy/xudp.go:106-121 | the first stop takes all closers, a later one none |
| XudpProxyObjects.Proxy.RegisterPending | client/proxy/xudp.go:182-193 | a connection becomes pending under a new ID, unless the proxy is closed |
| XudpProxyObjects.Proxy.FinishPending | client/proxy/xudp.go:195-202 | the registration is withdrawn if it is still the connection's own |
| XudpProxyObjects.Proxy.PromotePending | client/proxy/xudp.go:207-222 | a pending connection becomes active and counted, unless the proxy is closed |
| XudpProxyObjects.Proxy.RemoveActive | client/proxy/xudp.go:224-232 | a finished lifecycle leaves the active ones |
| XudpProxyObjects.Proxy.BeginClose | client/proxy/xudp.go:158-168 | Close takes exactly what is pending and active then |
| Codec.CopyInto | pkg/msg/udp_binary.go:170-181 | copying writes the source over the buffer at the offset and nowhere else |
| Codec.PutBinaryUDPAddr | pkg/msg/udp_binary.go:170-181 | the address is written at the offset and nowhere else, and the offset moves past it |
| Codec.EncodeUDPPacketBinary | pkg/msg/udp_binary.go:44-89 | the buffer filled by a moving offset is what `Encode` says, and each error has its cause |
| Codec.ReadBinaryUDPAddr | pkg/msg/udp_binary.go:183-219 | reading at an offset gives the address and rest that `ReadAddr` gives |
| Codec.DecodeUDPPacketBinary | pkg/msg/udp_binary.go:93-141 | reading by a moving offset is what `Decode` says, errors included |
| CodecTheorems.DecodeIff | pkg/msg/udp_binary.go:93-141 | a body is accepted as a packet if and only if it is that packet's layout and fits a frame |
| CodecTheorems.EncodeIff | pkg/msg/udp_binary.go:44-89 | a packet is encoded if and only if its normal form is legal and fits a frame, and then to its layout |
| CodecTheorems.ValidatesIff | pkg/msg/udp_binary.go:143-164 | an address is accepted if and only if its normal form is legal, and is written in normal form |
| CodecTheorems.RoundTrip | pkg/msg/udp_binary.go:44-141 | decoding an encoded packet gives it back with IPv4-mapped addresses (section 2.5.5.2 of RFC 4291) reduced to four bytes |
| CodecTheorems.ReencodesIff | pkg/msg/udp_binary.go:93-164 | encoding the packet of an accepted body gives the body back if and only if it holds no IPv4-mapped address |
| CodecTheorems.ReencodableIff | pkg/msg/udp_binary.go:143-164 | the packet of an accepted body can be encoded at all if and only if no IPv4-mapped address in it has a zone |
| CodecTheorems.PrefixFree | pkg/msg/udp_binary.go:123-138 | no accepted body is a proper prefix of another |
| CodecTheorems.CastsAreExact | pkg/msg/udp_binary.go:84-88 | the 16-bit and 8-bit casts of an encoded packet cut nothing off |
| CodecTheorems.EncodeInjective | pkg/msg/udp_binary.go:44-89 | packets with the same encoding are equal up to normal form |
| Bridge.JoinMatchesCodecs | server/proxy/proxy.go:342-420 | bytes are joined exactly when both ends select the same packet codec, bridged exactly when both have one but not the same, refused exactly when one has none |
| Bridge.BridgeProxyToVisitor | server/proxy/proxy.go:473-495 | packets and pings are passed on in order up to the first failure, and the count is the payload bytes written |
| Bridge.BridgeVisitorToProxy | server/proxy/proxy.go:497-517 | packets are passed on in order and pings dropped, and the count is the payload bytes written |
| Bridge.KnownIff | server/proxy/proxy.go:491-494 | a clean input is passed on whole, otherwise what comes before the first message that does not belong |
| Bridge.PacketsKeepPayload | server/proxy/proxy.go:511-513 | dropping pings drops no payload byte |
| BridgeCodec.BridgeToBinaryVisitor | server/proxy/proxy.go:473-495 | a bridge to a binary visitor writes what comes before the first message that has no encoding, and stops there with the write's error, or else ends as its input does; the far end reads each message written in normal form, in order, and the count is the payload bytes it reads |
| BridgeCodec.BridgeToBinaryProxy | server/proxy/proxy.go:497-517 | the same for a binary proxy, of the packets among the messages read |
| BridgeCodec.Arrives | pkg/msg/udp_binary.go:229-296 | a message arrives exactly when it can be written, with its payload untouched |
| BridgeCodec.WritableIff | pkg/msg/udp_binary.go:44-89 | a packet can be written exactly when its normal form is legal and fits a frame |
| Ports.Manager.constructor | server/ports/ports.go:51-80 | exactly the configured ports are free, or all port numbers when none are configured |
| Ports.FindPort | server/ports/ports.go:111-128 | the loop finds the first of at most five free ports that can be bound, and there is at most one such port |
| Ports.Manager.Acquire | server/ports/ports.go:82-147 | free and used ports partition the allowed ones; success records one allowed port that can be bound; each error has its own cause; a used port is handed out again exactly in the reservation case; a failed call changes nothing unless the port found is number 0; the maps do what the table of the TCP group system does |
| Ports.Manager.Release | server/ports/ports.go:177-187 | a used port becomes free, its record closed and its reservation kept; anything else changes nothing |
| Ports.Manager.CleanReservedPorts | server/ports/ports.go:207-216 | exactly the reservations closed for longer than the limit are dropped |
| Ports.ReservedAcrossRelease | server/ports/ports.go:99-108 | a port acquired and released is given back to the same name on its next request for any port |
| Ports.ZeroPortIsLost | server/ports/ports.go:111-128 | with port 0 allowed a failed request for any port loses it |
| Ports.ReservedPortTwice | server/ports/ports.go:99-108 | a name that asks twice before anything listens gets its port twice |
| Ports.PositiveIff | server/ports/ports.go:64-73 | the configurations under which port 0 is not allowed |
| TcpGroupInvariant.ActionKeeps | server/group/base.go:63-77 | the invariant of groups, members, registry and bound ports is kept by every lookup, join, acquisition, binding, close, release and removal |
| TcpGroupTheorems.PortBoundIffListeners | server/group/tcp.go:81-102 | in every run a port has a real listener exactly while a group with members has it as its port, and no two such groups have the same |
| TcpGroupTheorems.NonEmptyIsRegistered | server/group/registry.go:20-59 | a group with members is the registered one of its name, and its listeners are its members, one each |
| TcpGroupTheorems.MembersAgree | server/group/tcp.go:104-121 | members that named one group share its object, key, address, port and real port; members of different groups share no real port |
| TcpGroupTheorems.CurrentIff | server/group/registry.go:47-59 | a group stays registered from any point on exactly until its own last member unregisters it, and is never registered again |
| TcpGroupTheorems.StaleMeansEmptied | server/group/tcp.go:40-54 | a caller had looked up its group when it was registered, and starts over exactly when the group was unregistered between that lookup and the attempt to listen; the group then has no member |
| TcpGroupTheorems.UnregisteredIsEmpty | server/group/tcp.go:96-101 | a group is unregistered only when it has no member and its port was released |
| TcpGroupPorts.TablePartition | server/ports/ports.go:82-187 | over every run free and used ports partition the allowed ones, and only allowed ports are reserved |
| TcpGroupPorts.StepBreaksIff | server/ports/ports.go:99-128 | an action leaves used ports with one holder each, if they had before, exactly unless it is a request for any port that is given a reserved port in use or finds port 0 |
| TcpGroupPorts.ExclusiveIff | server/group/tcp.go:75-123 | the used ports are those held, each by one group or caller, up to a point of a run exactly when no such request was made before |
| TcpGroupPorts.OneHolder | server/ports/ports.go:99-108 | so no port has two holders in any run in which the system reports used ports unavailable and port 0 is not allowed |
| TcpGroupPorts.PortIffListeners | server/group/tcp.go:75-123 | a group no caller is working on holds a port exactly when it has members; that port is bound, and under the exact condition it is used and held by nobody else |
| TcpGroupWitness.ReleasedWhileBound | server/group/base.go:72-76 | a port reserved by another proxy is taken up between the closing of a group's listener and the release of its port, and is then free while a group listens on it |
| TcpGroupWitness.ReleasedByTheLoser | server/group/tcp.go:83-92 | of two callers with one proxy name that were given the same port, the one that fails to bind it releases it under the other |
| TcpGroupWitness.ZeroIsLost | server/ports/ports.go:111-128 | with port 0 allowed a group's failed request leaves it used and held by nobody |
| TcpGroupObjects.GroupObject.Join | server/group/tcp.go:81-121 | joining does what the step system does, and each refusal has its own cause |
| TcpGroupObjects.GroupObject.CloseListener | server/group/base.go:63-77 | the loop removes exactly the closing listener, and says whether it was the last |
| NatHole.RowsHaveOneSender | pkg/nathole/analysis.go:39-120 | every row of every table has one sender and one receiver |
| NatHole.FirstMax | pkg/nathole/analysis.go:243-256 | the recommended row is the first with the highest score |
| NatHole.EveryRunOk | pkg/nathole/analysis.go:181-256 | over every run of recommendations and successes scores stay at most ten and rows real and distinct |
| NatHole.TriedAfterLeads | pkg/nathole/analysis.go:243-256 | without successes a row is first tried after exactly as many other recommendations as the other rows lead it by |
| NatHole.RetriedWithin | pkg/nathole/analysis.go:243-256 | so it is tried within one more than the sum of how far the others score above it, counting ties against it |
| NatHole.NoLowerBound | pkg/nathole/analysis.go:258-263 | scores have no lower bound |
| NatHole.FloorIff | pkg/nathole/analysis.go:243-256 | a recommendation keeps all scores on or above a floor exactly when they were and the best was above it |
| NatHole.FloorKeptFor | pkg/nathole/analysis.go:243-256 | without successes scores on or above a floor stay so for exactly as many recommendations as their total exceeds the floor by |
| NatHole.FloorKeptIff | pkg/nathole/analysis.go:227-256 | over any run of recommendations and successes a floor is kept throughout exactly when no recommendation finds the best score on it |
| NatHole.RolesAssigned | pkg/nathole/analysis.go:289-319 | after any history one side sends and the other receives; the sole HardNAT side sends in mode 1 and receives in mode 2, the sole regular-port side sends in mode 4 |
| NatHolePublic.PublicClientReceivesIff | pkg/nathole/analysis.go:188-197 | for every n, a public client between easy peers receives in the n-th recommendation exactly if it is among the first five or its row in the turn that follows is one in which the client receives |
| NatHolePublic.PublicVisitorReceivesIff | pkg/nathole/analysis.go:188-197 | the same for a public visitor, which in the first five receives exactly if the client is not public |
| NatHolePublic.BothPublic | pkg/nathole/analysis.go:188-191 | with both peers public the visitor sends in the very first recommendation |
| NatHolePublic.AlwaysReceivesIff | pkg/nathole/analysis.go:28 | a public client receives in all of the first n recommendations exactly when n is at most five |
| NatHolePublic.ReceivesAfterIff | pkg/nathole/analysis.go:243-256 | after any history, and whoever is public, the client receives between easy peers exactly when the best row in which it receives scores above the best in which it sends, or as much and is listed first; and the visitor the other way round |
| NatHoleRecords.BehaviorScores | pkg/nathole/analysis.go:152-163 | the loop scores every row of the mode by who sends in it |
| NatHoleRecords.ClassifyFeatureCount | pkg/nathole/classify.go:106-123 | easy and hard peers are counted, and regular port changes among the hard ones |
| NatHoleRecords.CountsOfPair | pkg/nathole/analysis.go:186 | the counts the initial scores are chosen by are those of the pair |
| NatHoleRecords.NewScores | pkg/nathole/analysis.go:181-225 | counting the pair's features and scoring the rows of each mode by loops gives the initial scores the theorems are about |
| NatHoleRecords.MakeHoleRecords.constructor | pkg/nathole/analysis.go:181-225 | initial scores are real rows, listed once |
| NatHoleRecords.MakeHoleRecords.ReportSuccess | pkg/nathole/analysis.go:227-241 | the first matching row goes up by two, to at most ten, and nothing else changes |
| NatHoleRecords.MakeHoleRecords.Recommend | pkg/nathole/analysis.go:243-256 | the loop finds the first best row and lowers it by one |
| NatHoleRecords.BehaviorsFor | pkg/nathole/analysis.go:299-317 | one side is given the sender's half of the row and the other the receiver's |
| NatHoleRecords.Analyzer.GetRecommendBehaviors | pkg/nathole/analysis.go:289-319 | the best row of the pair's records is tried, other pairs' records are untouched, and the row exists |
| NatHoleRecords.Analyzer.ReportSuccess | pkg/nathole/analysis.go:321-329 | a success counts for the pair's records if there are any |
| NatHoleRecords.Analyzer.Clean | pkg/nathole/analysis.go:331-348 | exactly the records unused for longer than the limit are dropped, and the counts are right |
| NatHoleRecords.ClassifyNATFeature | pkg/nathole/classify.go:42-104 | the NAT type, the kind of change, the port spread and the public flag say what differs from the base address on |
| NatHoleRecords.EasyIff | pkg/nathole/classify.go:79-92 | when the first address has a host a NAT is easy exactly when all addresses are the same |
| NatHoleRecords.HostlessIgnored | pkg/nathole/classify.go:63-69 | for every list, addresses before the first with a host change neither the differences found nor the port bounds |
| NatHoleRecords.HostlessExample | pkg/nathole/classify.go:63-69 | so two addresses that differ are called easy when the first has no host |

## Left out

- Network input and output, TLS, QUIC, KCP, yamux, compression and encryption: a transport is a send or receive that may fail.
- Wall-clock timeouts, heartbeats, backoff and jitter: they are steps that may happen at any time, and times are parameters.
- Liveness: what is proved is safety, that what is not finished can move, that what can get through has a way to, and for closing and tearing down a bound on the steps left to take. Fairness of the scheduler is not modelled.
- Go's scheduling: one action is one critical section or channel operation. Sections that hold `cm.mu`, a control's `lifecycleMu` and the registry lock together are one action.
- The dispatcher, reader and sender loops of the visitors and proxies, the login sequence and the control's worker are step systems, not methods: each loop is a program counter, and what they share is in the classes.
- 64-bit wrap-around of control IDs, generations, epochs and byte counts is not modelled.
- Host name, version, remote address and wire protocol fields of registry entries: they are copied and decide nothing.
- HandoffInvariant.ActionKeeps: the plugin and authentication checks on a work connection are an outcome of the step; what the visitor manager does with an admitted visitor is not modelled, nor are visitors that name no run.
- SudpVisitor.NoSocketEscapes: a second Close that finds the visitor closed waits for the workers and not for the first Close, as in the source.
- XudpVisitorPasses.OversizedIff: QUIC's own limit for datagrams (pkg/xudp/transport/quic.go:102-104) is taken to be no lower than 1150 bytes, as packets of 1200 are to ensure (pkg/xudp/transport/mtu.go:16-21).
- XudpVisitorTheorems.CloseIsFinal: several callers of Close are one, since later ones only wait for the first.
- XudpProxyTheorems.ClosersRunOnce: the order in which stop runs the closers is not kept.
- Bridge.BridgeProxyToVisitor: how many writes the end takes is a parameter, which `BridgeCodec.BridgeToBinaryVisitor` fixes for a binary end; the two directions and the closing of both connections when one ends are not modelled together.
- Bridge.BridgeVisitorToProxy: likewise; what a JSON end accepts stays a parameter.
- Codec.EncodeUDPPacketBinary: error texts are constants without the numbers they print; the framing around the body and the JSON codecs are not modelled.
- NatHoleRecords.ClassifyNATFeature: splitting and parsing addresses is a parameter.
- TcpGroupInvariant.ActionKeeps: the groups are the port manager's only users, and a reservation may expire at any time; the connections a group's worker hands to its members are not modelled.
- HTTP, HTTPS and TCPMux groups, the client's proxy and visitor managers, authentication, plugins, configuration, metrics, dashboards, the SSH gateway and virtual networks: easier variants of what is here, or plumbing.
