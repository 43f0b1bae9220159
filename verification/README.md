# Verified model of the in-process tunnels

This project models the protocols at the core of the tunnel crate and proves what they promise, for
every input and every interleaving. It is written in Dafny 4.11; `dafny verify dfyconfig.toml`
checks all of it.

The crate runs WireGuard, SSH and HTTP/3 tunnels inside one process. Its hard parts are small
concurrent protocols and some byte and integer arithmetic:

* **The WireGuard socket stack** (`SocketStack`, `SlotProtocol`, `SlotSafety`, `SlotOutcomes`, `Linger`). 256 slots
  are shared by dials, accepted connections, UDP sockets and sockets still closing. The parts under
  the stack's mutex are a class with the source's fields, proved against functions; the sharing is a
  state machine in which every lock section and every atomic operation is one step, callers may be
  cancelled, freed handle numbers are reused at once, and the network changes TCP states at will.
* **Stopping a stack** (`StopProtocol`, `StopAccept`). Flag, then close every socket under the lock, then notify,
  against operations that check, register a waker and park.
* **The resolver's query slots** (`DnsSlots`). The query, its guard and the permit are apart: the
  slot is freed under the lock, the guard disarmed later, and locals are dropped last first.
* **HTTP/3 streams** (`Http3Write`, `Http3StreamObject`). The poll methods as an object whose fields
  change in place, equal to a transition function; the writer task, the one-element queue and the
  acknowledgments as further transitions.
* **HTTP/3 sessions and the dial budget** (`Http3Sessions`, `Deadlines`).
* **The shared session and its host key** (`SharedSlot`, `HostKey`).
* **SOCKS5** (`Socks5`, `Socks5Stream`). The negotiation as a function of the bytes, proved to be
  the inverse of an encoder, and as the source writes it, over reads of any size.
* **Arithmetic** (`Mtu`, `Checksum`).
* `Bags` holds sums over sequences of tasks, which the protocols use for counting; `Bytes` the byte type.

Libraries appear as contracts: locks are exclusive, `notify_waiters` wakes every enabled waiter,
smoltcp keeps one waker per socket and direction and wakes it on abort or close, a one-element
channel is first in, first out, a failed or answered DNS query frees its slot. Clocks, the network,
schedulers and callers are nondeterministic.

## Where the code differs from what is said about it

* `src/ssh.rs` says the host key is only taken after authentication succeeds. The observer is told
  only then, but the key binds the provider from the first accepted handshake on, even if that
  connect never authenticates: `HostKey.KeyBindsBeforeAuthentication` gives the run and
  `HostKey.AcceptedExactly` the exact rule.
* Two dials that failed on the same session can both rebuild it without any retire: a third dial
  fails on the rebuilt session and then fails to connect, which leaves the slot empty
  (`SharedSlot.TwoRebuildsWithoutRetire`). A second rebuild needs the first rebuilt session to be
  gone, and never for the old session's sake (`SharedSlot.RebuiltTwice`). A dial whose turn it is
  rebuilds again if and only if it finds the slot empty and the provider open
  (`SharedSlot.RebuildsAgainExactly`).
* After a stop, two kinds of operation can sleep unwoken, and no others. One is a connect begun on
  the stopped stack. The other is an accept whose pool has run empty, which registers no waker at
  all. That needs the network library to refuse to listen on a fresh socket when a taken connection
  is to be replaced, an error the source provides for; as long as it never refuses, every accept is
  woken (`StopAccept.StopReachesEveryAccept`).

## Model

| member | source | states |
|---|---|---|
| SlotSafety.SlotsAreConserved | src/wireguard/stack.rs:172-193 | In every interleaving of claims, dials, cancellations, accepts, drops and reclaims the count equals live guards, streams, UDP sockets, slots being given back and counted closing entries; it stays within 0 to 256 and is positive whenever a decrement is due. |
| SlotSafety.EverySocketHasOneOwner | src/wireguard/tcp.rs:43-190 | Although handle numbers are reused, every socket in the set has exactly one owner, every handle an owner holds still means its own socket of the right type, and no two owners, nor an owner and a closing entry, share a handle. |
| SlotSafety.NoSlotIsFreedSilently | src/error.rs:108-123 | If a dial or a UDP bind enabled its notification, was refused and is unwoken while slots are free, some release is between its decrement and its signal, one for each free slot. |
| SlotSafety.InterleavedReclaimIsExact | src/wireguard/stack.rs:402-430 | A reclaim pass that other tasks interleave with leaves exactly what an undisturbed pass would have left. |
| SlotSafety.NothingPanics | src/wireguard/stack.rs:402-430 | In every reachable state a reclaim pass can start, take its next turn or end: it never meets a closing entry whose socket is gone. |
| SlotOutcomes.LoadOutcome | src/wireguard/stack.rs:172-175 | A claim that finds 256 slots taken owes a reclaim pass; one that finds fewer goes straight to the update. |
| SlotOutcomes.PassIsNotSkipped | src/wireguard/stack.rs:172-189 | Whatever anyone does, a claim that owes a pass reaches the update that may refuse it only after every closing entry was examined. |
| SlotOutcomes.ClaimPassGoal | src/wireguard/stack.rs:402-430 | A claim's pass will leave exactly what is neither Closed nor in TIME-WAIT and has time left. |
| SlotOutcomes.PollPassGoal | src/wireguard/stack.rs:378-400 | A poll's pass will leave exactly what is not Closed and has time left; TIME-WAIT keeps its linger. |
| SlotOutcomes.UpdateOutcome | src/wireguard/stack.rs:176-189 | Below 256 the claimant gets the slot and goes on; at 256 a dial or bind is refused with its notification, and an accepted connection is reset while the listener keeps its pool. |
| SlotOutcomes.ConnectionsEndByReclaim | src/wireguard/tcp.rs:165-177 | In every run, once a stream has a socket it stays with the stream or in the closing list until a reclaim turn finds it Closed, in TIME-WAIT under pressure, or past its deadline; it is never discarded out of hand. |
| SlotOutcomes.StreamsCloseOnce | src/wireguard/tcp.rs:153-163 | However often it is shut down, a stream's socket has been closed exactly once when it is retired. |
| SocketStack.ReclaimIsExact | src/wireguard/stack.rs:402-430 | The swap-remove loop leaves, as a multiset, exactly the entries that are unfinished and before their deadline, and removes exactly the other entries' sockets. |
| SocketStack.ReclaimSlots | src/wireguard/stack.rs:402-430 | A pass gives slots back if and only if some counted entry is finished or past its deadline, and never takes any. |
| SocketStack.StackInner.ReclaimFinished | src/wireguard/stack.rs:402-430 | The in-place loop equals its specification; the count falls by the counted entries dropped, and the signal rings once for each. |
| SocketStack.StackInner.ClaimSocket | src/wireguard/stack.rs:172-189 | With nobody else running, a claim succeeds exactly when a slot is free or some counted closing entry is Closed, in TIME-WAIT or past its deadline, spelled out on the socket's state. |
| SocketStack.StackInner.Retire | src/wireguard/stack.rs:358-365 | The entry is added at the end with a deadline of now plus the linger window, and the stack stays well formed. |
| SocketStack.StackInner.Poll | src/wireguard/stack.rs:378-395 | A poll keeps exactly the closing entries that the network did not leave Closed and whose deadline is in the future, TIME-WAIT included; it removes exactly the others' sockets, and the delay is the least of the protocol's and the remaining lingers. |
| SocketStack.LeastDelay | src/wireguard/stack.rs:386-394 | The delay is a lower bound of all candidates and one of them; there is none exactly when there are no candidates. |
| Linger.NoSocketLingersPastItsDeadline | src/wireguard/stack.rs:864-914 | Over any run of a pump that wakes on time, with sockets opened and discarded and handles reused, no closing entry outlives its deadline, which is at most ten seconds off, and the next wake-up is never later than the nearest deadline. |
| Linger.StepIsPunctual | src/wireguard/stack.rs:378-430 | Each step keeps the pump punctual, and a zero delay is never due to the closing list. |
| SocketStack.NthPortIsRotation | src/wireguard/stack.rs:342-350 | The k-th ephemeral port is 49152 + (start + k) mod 16384. |
| SocketStack.PortsRepeatOnlyAfterAFullRound | src/wireguard/stack.rs:342-350 | Any 16384 consecutive allocations are pairwise distinct, and a port returns after exactly that many. |
| SocketStack.StackInner.NextEphemeralPort | src/wireguard/stack.rs:342-350 | The counter's port is handed out, and the stack then hands out the rest of the same sequence. |
| SocketStack.FreeListenPort | src/wireguard/stack.rs:610-622 | On an unchanging stack the search fails if and only if every port of the range is held, and finds the first free one after its start. |
| StopProtocol.StopStrandsNoOne | src/wireguard/stack.rs:209-240 | Wherever the flag is written relative to a waiter's check, once the sockets are closed nobody sleeps unwoken except a late connect or an accept with an empty pool, and once `stop` has notified every waiter for the stop has been woken. |
| StopProtocol.SleepersKeepTheirWakers | src/wireguard/udp.rs:88-148 | A sleeping operation's stored waker is never replaced by another live waiter's; on a shared UDP socket the direction lock is held by the sleeper. |
| StopProtocol.StoppedStepsDescend | src/wireguard/tcp.rs:357-388 | On a stopped stack every step of an operation brings it strictly nearer its end, late connects apart. |
| StopProtocol.StoppedStackMoves | src/wireguard/stack.rs:209-240 | While an operation within reach is unfinished on a stopped stack, some runnable operation has a step to take. |
| StopProtocol.LateConnectIsStranded | src/wireguard/tcp.rs:77-99 | From any stopped state a connect begun now can be left asleep with no waker due. |
| StopAccept.EmptyAcceptIsStranded | src/wireguard/tcp.rs:391-401 | A run by the source's own path, in which one socket is bound, its connection taken, its replacement fails, and the next accept sleeps through the stop. |
| StopAccept.EmptyAcceptSleepsOn | src/wireguard/tcp.rs:360-388 | In every run an accept asleep with an empty pool stays asleep whatever anyone else does, the stop included. |
| StopAccept.StopReachesEveryAccept | src/wireguard/tcp.rs:328-401 | As long as every taken connection is replaced, pools are never empty and only late connects can sleep on a stopped stack. |
| DnsSlots.FlightsArePermitted | src/wireguard/stack.rs:748-824 | Queries in flight equal occupied resolver slots and never exceed permits held, which never exceed eight. |
| DnsSlots.NeverOutOfSlots | src/wireguard/stack.rs:759-780 | A lookup with a permit always finds a free resolver slot, so it never fails for want of one. |
| DnsSlots.QueriesCloseOnce | src/wireguard/stack.rs:748-824 | In any run with timeouts and cancellations a started query is closed exactly once, collected or cancelled, and before its permit returns; while it is open the permit is held, and whoever has a guard has a permit. |
| DnsSlots.OnlyOwnQueriesAreClosed | src/wireguard/stack.rs:784-858 | Taking a result, and dropping an armed guard, close the lookup's own query and never another that was given its slot, in every state and throughout every history. |
| DnsSlots.ArmedGuardOfAnothersSlot | src/wireguard/stack.rs:786-813 | A run that reaches the window between freeing and disarming: a guard is armed with the number of a slot that already serves another lookup. |
| DnsSlots.StepsDescend | src/wireguard/stack.rs:748-824 | Every step a lookup takes, wherever it is cancelled or times out, brings it nearer to having let go of everything. |
| DnsSlots.LookupsMove | src/wireguard/stack.rs:748-858 | Until then a step of its own is open to it that needs nobody else. |
| DnsSlots.EverythingComesBack | src/wireguard/stack.rs:840-858 | When every lookup is gone, all eight permits are back and all eight slots are free. |
| Http3Write.WriteSideIsFaithful | src/http3/stream.rs:82-108 | Over any sequence of polls, writer steps, failures and stops, bytes sent are a prefix of bytes accepted, at most two 64 KiB chunks are unsent, and FIN goes out at most once and after every accepted byte. |
| Http3Write.SuccessMeansSent | src/http3/stream.rs:141-171 | A flush that succeeds means every accepted byte was sent; a shutdown that succeeds, the FIN too. |
| Http3Write.AfterFin | src/http3/stream.rs:221-250 | Once the FIN is out nothing more is accepted, sent or finished, whatever follows. |
| Http3Write.OneExtraLevel | src/http3/stream.rs:141-171 | The poll for an acknowledgment calls itself at most once, and not at all without one outstanding. |
| Http3Write.PollAckKeeps | src/http3/stream.rs:141-171 | A flush or shutdown poll changes no byte and keeps the invariant; success is reported only with everything sent. |
| Http3Write.PollWriteKeeps | src/http3/stream.rs:221-242 | A write appends exactly the bytes it reports, at most a chunk, nothing when it reports none, and is refused once finishing. |
| Http3Write.PollAckOutcome | src/http3/stream.rs:141-171 | A flush or shutdown poll fails on a stopped stream, on a lost acknowledgment and with the writer gone; it waits only while the writer lives and has something to give. |
| Http3Write.PollWriteOutcome | src/http3/stream.rs:221-242 | A write is refused as closed exactly once a shutdown was asked for, fails when stopped or with the writer gone, and waits only for a living writer. |
| Http3Write.StoppedPollsFail | src/http3/stream.rs:129-145 | Once the session has stopped every later poll fails, whatever happens in between. |
| Http3Write.PollsComplete | src/http3/stream.rs:141-171 | With a living writer left to drain between polls, one of three flush or shutdown polls succeeds. |
| Http3Write.WritesProgress | src/http3/stream.rs:221-242 | Once the writer has caught up, a write is taken at once, up to a full chunk. |
| Http3StreamObject.Http3Stream.Reserve | src/http3/stream.rs:129-139 | The in-place reservation equals the transition the properties are proved of. |
| Http3StreamObject.Http3Stream.PollAck | src/http3/stream.rs:141-171 | The in-place poll equals the transition the properties are proved of. |
| Http3StreamObject.Http3Stream.PollWrite | src/http3/stream.rs:221-242 | The in-place write equals the transition the properties are proved of. |
| Http3StreamObject.Http3Stream.PollRead | src/http3/stream.rs:175-217 | In one call no byte is lost, repeated or reordered; buffered bytes are handed out at once; end of file needs the data to end, no trailers and an empty buffer; errors and waits have the stated causes; at most 32 arrivals are taken. |
| Http3StreamObject.ReadsAreFaithful | src/http3/stream.rs:175-217 | Over any sequence of reads what was handed out is the beginning of what arrived, the rest being buffered; at end of file it is all of it. |
| Http3StreamObject.EndOfFileIsFinal | src/http3/stream.rs:186-188 | After end of file no later read hands out or takes in anything, and it stays end of file. |
| Http3Sessions.StoppedSessionsStayStopped | src/http3/mod.rs:67-82 | Once a session's `stop` has returned its writer list is empty for good and every writer ever registered was aborted or had ended, in all interleavings with registrations. |
| Http3Sessions.NothingIsInstalledAfterShutdown | src/http3/mod.rs:298-320 | Once `stop_sessions` has returned no session is ever installed again. |
| Http3Sessions.SessionsAreBounded | src/http3/mod.rs:182-212 | The session list never exceeds four, has no duplicates, and lists exactly the installed sessions not drained, less only dropped ones. |
| Http3Sessions.InspectOutcome | src/http3/mod.rs:182-199 | A usable current session is taken over; otherwise it and the dropped ones are forgotten, and the dial connects exactly when fewer than four are left. |
| Http3Sessions.DrainedSessionsAreStopped | src/http3/mod.rs:402-435 | Once every retire, shutdown and drop has run its course, every session it took was stopped to the end: no writer of it runs. |
| Http3Sessions.ConnectLockIsNeverLost | src/http3/mod.rs:182-184 | The connect lock is held by one task at most, and always by one that goes on or gives it back. |
| Deadlines.Grant | src/http3/mod.rs:223-230 | One attempt's share is at least the fair part and at most what remains, all of it for the last address, and the others keep their fair part however long the attempt takes. |
| Deadlines.ConnectAddresses | src/http3/mod.rs:215-307 | Every address reached gets at least floor(budget / n), none past the overall deadline, the last all that remains; attempts follow each other directly; no address is skipped and the outcome is that of the deciding attempt. |
| SharedSlot.ReplaceDropsOnlyStale | src/ssh.rs:274-292 | In any interleaving a replacement drops only the session that failed, never a newer one. |
| SharedSlot.WhoEmptiesTheSlot | src/wireguard/mod.rs:444-459 | The only steps that take a session out of the slot are a retire, a liveness test that failed, and a replacement for that very session. |
| SharedSlot.RequestGets | src/wireguard/mod.rs:422-459 | Behind the lock a request is refused once closed; handed the session in the slot unless it failed on it or finds it dead; otherwise it rebuilds with the slot empty, and the log says why. |
| SharedSlot.BuildGets | src/ssh.rs:268-270 | A connect that succeeds puts a session nobody has seen into the slot and dials over it. |
| SharedSlot.RetireTakes | src/ssh.rs:357-366 | A retire empties the slot before it disconnects, the slot stays empty while it does, and the session it took is never in the slot again. |
| SharedSlot.ShutdownGetsThrough | src/ssh.rs:352-366 | While nobody holds the lock a shutdown can run to its end. |
| SharedSlot.RebuiltTwice | src/ssh.rs:274-292 | Two successful rebuilds for the same failed session need the first rebuilt one to have been retired, found dead or replaced by a dial that failed on it. |
| SharedSlot.RebuildsAgainExactly | src/ssh.rs:274-292 | After a successful rebuild for a failed session, another dial that failed on it rebuilds if and only if it finds the slot empty and the provider open; otherwise it is refused or takes over the session there. |
| SharedSlot.TwoRebuildsWithoutRetire | src/ssh.rs:274-292 | A concrete run without retire, shutdown or liveness test in which two dials that failed on one session both rebuild. |
| SharedSlot.FailedRebuildLeavesEmpty | src/wireguard/mod.rs:444-459 | A rebuild that fails or is cancelled leaves the slot empty and the lock free. |
| SharedSlot.EmptySlotIsRetryable | src/wireguard/mod.rs:422-441 | With the slot empty, any waiting request can go on to build a new session. |
| SharedSlot.DroppedForGood | src/ssh.rs:260-292 | A session dropped from the slot never comes back to it. |
| SharedSlot.OneBuilder | src/ssh.rs:260-271 | At most one task is behind the lock, and the slot is empty while it connects. |
| SharedSlot.ShutdownIsFinal | src/ssh.rs:352-366 | Once `shutdown` has returned the slot stays empty, nothing is built, and no task that was not already dialling ever gets a session. |
| HostKey.OneKeyForever | src/ssh.rs:406-438 | Over all handshakes and rekeys every accepted key is the configured pin, or without one the first accepted. |
| HostKey.AcceptedExactly | src/ssh.rs:406-438 | A key is accepted if and only if it is the pin, or without one equals every key accepted before. |
| HostKey.ToldOnce | src/ssh.rs:217-241 | The observer hears of a pin at most once, never when one was configured, only after that connect authenticated and had that very key authorized, and it is the key every handshake accepts. |
| HostKey.ConnectedWasAllowed | src/ssh.rs:198-217 | A connect that got through authenticated and then had the very key that every handshake accepts allowed by the observer. |
| HostKey.FirstConnectIsTold | src/ssh.rs:217-241 | The first connect without a pin, all going well: key accepted, authenticated, allowed, and only then told. |
| HostKey.PinIsReported | src/ssh.rs:219-241 | Once a connect without a pin is through, the report has been made or is about to be. |
| HostKey.KeyBindsBeforeAuthentication | src/ssh.rs:406-438 | After a handshake whose authentication fails, a handshake with any other key is refused. |
| HostKey.HostKeyState.CheckServerKey | src/ssh.rs:409-438 | The in-place check equals the judgement and learning the properties are proved of. |
| HostKey.HostKeyState.TakePin | src/ssh.rs:221-228 | The pin is handed out to the first caller that has one to report, and marked reported. |
| Socks5.AcceptsExactly | src/socks5.rs:267-358 | For every byte stream, a destination comes out if and only if the stream begins with a greeting offering password, the exact credentials and a CONNECT request for it; exactly that prefix is consumed. |
| Socks5.RoundTrip | src/socks5.rs:267-358 | Encoding any valid request and negotiating it, with anything behind it, gives the same host and port. |
| Socks5.EncodingIsPrefixFree | src/socks5.rs:267-358 | Two encodings that begin the same stream are equal, with the same remainder. |
| Socks5.WrongCredentialsStop | src/socks5.rs:289-308 | Any other user name or password is answered with a failure and nothing behind it is read. |
| Socks5.GreetFails | src/socks5.rs:269-288 | For every input, when and how the method negotiation fails, and the bytes it is answered with. |
| Socks5.AuthenticateFails | src/socks5.rs:289-308 | For every input, when and how the password exchange fails, by position in the input, and the bytes it is answered with. |
| Socks5.AddressFails | src/socks5.rs:324-353 | For every input, when and how the address fails, and its reply. |
| Socks5.RequestFails | src/socks5.rs:310-357 | For every input, when and how the request fails, and its reply. |
| Socks5.RefusalBytes | src/socks5.rs:267-358 | Whatever the peer sends, the exact bytes it has been sent when the negotiation stops, by cause. |
| Socks5.AuthenticateInverts | src/socks5.rs:289-308 | Well-formed credentials are accepted exactly when they are the expected ones. |
| Socks5.RequestOnly | src/socks5.rs:310-357 | A request that is understood is the encoding of what was understood. |
| Socks5Stream.Peer.ReadExact | src/socks5.rs:267-271 | However the bytes are split into reads, exactly the next n bytes are taken, or all of them at the end of the stream. |
| Socks5Stream.Peer.Negotiate | src/socks5.rs:267-358 | For every split into reads, the result, the bytes left and the bytes sent are those of the function on the whole stream. |
| Socks5Stream.Peer.HandleConnection | src/socks5.rs:214-247 | The tunnel is dialled exactly when a destination was asked for in full with the credentials, once and for that one; one reply follows with code 0, 5, 4 or 1 as the dial ended; otherwise only a refusal's bytes are sent; the pump starts exactly when fourteen bytes with a zero reply code were sent; nothing past the request is consumed. |
| Mtu.CarriedIsLargestSafe | src/wireguard/mod.rs:149-161 | The MTU is the largest value up to the configured one for which every packet, padded to 16 and wrapped in 32 + 8 + 20 or 40 bytes, fits the link; there is one exactly when 576 is safe. |
| Mtu.PacketFitsEveryLink | src/wireguard/mod.rs:149-161 | For a chain of any depth, a packet no larger than the innermost MTU fits every link, however each sender pads up to a multiple of 16. |
| Mtu.ChainsAreShort | src/wireguard/spec.rs:293-299 | With configured values in the allowed range each level costs at least 60 bytes and stays at 576 or more, which bounds the depth. |
| Mtu.FloorUnlessConfiguredLower | src/wireguard/mod.rs:149-161 | The innermost MTU is at least 576 unless it was configured lower. |
| Mtu.MaskRoundsDown | src/wireguard/mod.rs:152-152 | On 16-bit words, masking the four low bits is rounding down to a multiple of 16. |
| Checksum.HeaderChecksum | src/wireguard/mod.rs:965-980 | The two loops compute the complement of the folded sum, and the 32-bit accumulator does not overflow on up to 65537 words. |
| Checksum.ChecksumVerifies | src/wireguard/mod.rs:965-980 | Storing the checksum in a zero, word-aligned field makes the folded sum 0xffff. |
| Checksum.VerifiesExactly | src/wireguard/mod.rs:965-980 | A stored value makes the header verify if and only if it is the checksum, or the other way to write zero. |
| Checksum.FoldShrinks | src/wireguard/mod.rs:976-978 | Folding strictly decreases a sum of more than 16 bits and keeps it modulo 65535. |
| Checksum.FoldIs | src/wireguard/mod.rs:976-978 | The fold is the remainder modulo 65535, with a non-zero multiple written 65535. |
| Checksum.AllOnes | src/wireguard/mod.rs:968-975 | Words of all ones fit 32 bits if and only if there are at most 65537 of them. |

## Left out

- smoltcp, gotatun, quinn, h3, russh and tokio: only the contracts named above.
- The stream, listener and UDP objects of `src/wireguard/tcp.rs` and `src/wireguard/udp.rs` are steps of a state machine on values, not classes, because what matters about them is how they interleave; payload bytes, buffer sizes and socket options are not modelled.
- The slot of `src/ssh.rs` and `src/wireguard/mod.rs` and the HTTP/3 session list are steps of state machines on values for the same reason.
- The HTTP/3 writer task is a set of transitions; a send that fails, a closed connection and an abort are one event.
- Deadlines.ConnectAddresses: bookkeeping between attempts takes no time, and a provider stopped just before installation is left to `Http3Sessions`.
- Socks5Stream.Peer.Negotiate: writes to the peer do not fail, and the handshake timeout is not modelled.
- Socks5Stream.Peer.HandleConnection: ends where the bidirectional copy begins.
- Mtu.PacketFitsEveryLink: a sender pads up to the next multiple of 16 at most; the sender's own bound on padding only makes packets smaller.
- StopProtocol.StoppedStackMoves: progress is stated step by step; a fair scheduler is not modelled.
- Slot-freed wake-ups for HTTP/3 sessions: `retire` empties the list before the sessions are dropped, so capacity can return before the signal.
- Exclusive ownership of a listen port, which the source does not promise.
- A bound on all sockets: listener pools and reset, uncounted closing sockets are outside the 256 by design.
- The text form of addresses, UTF-8 validation, key parsing, TLS and cryptography.
- `src/endpoint.rs`, `src/wireguard/adapter.rs`, `src/wireguard/transport.rs`, `src/provider.rs`, `src/http3/spec.rs`: thin seams or simple validation.
- `src/wireguard/phy.rs` and `src/registry.rs`: counters and revision keys that would only add easy members.
