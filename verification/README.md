# ORT tunnel: a verified model

ORT is a TCP tunnel with a post-quantum handshake. `ortc` accepts local
connections and carries each one, through a 0-RTT or 1-RTT handshake and an AEAD
record layer, to `ortd`, which forwards the plaintext to a target. This project
models the protocol core in Dafny and proves what it promises: bytes come out as
they went in, no session derives two nonces from the same input, the replay cache
answers like a log that never forgets, and the wire format is a bijection.
Where a promise fails it gives the input and the exact condition: how often one
payload, and one sealed early datum, can be accepted, when two sessions derive
their nonces from the same input, when a sink holds bytes that the peer did not
send, and what a processed Close says about the bytes before it.

`dafny verify dfyconfig.toml` checks everything.

## How the model is laid out

| file | contents |
|---|---|
| `ByteStrings.dfy` | bytes, machine integers, big-endian numerals |
| `Codec.dfy`, `Messages.dfy`, `Framing.dfy` | wire grammar, reader and writer cursors, frames, length-prefixed stream |
| `Suite.dfy` | the cipher suite as uninterpreted functions with laws, and a toy instance showing the laws are consistent |
| `Pool.dfy`, `Record.dfy`, `Network.dfy` | entropy pool, record layer, lock-step, nonce inputs, delivery over an untrusted network |
| `Replay.dfy`, `Binding.dfy` | strike cache, timestamp window, signed binding, key schedule |
| `Wire.dfy` | the wire format byte by byte, as a reference for grammar and framing |
| `Handshake.dfy`, `Endpoints.dfy` | the handshake transforms, the mutable endpoints |
| `Primitives.dfy` | the handshake written out in its primitives: flights, sessions, signatures, refusals |
| `ServerRuns.dfy`, `Resubmission.dfy` | a server over whole runs: one payload presented again, one sealed datum under other payloads |
| `Flow.dfy`, `Tunnel.dfy`, `TunnelSafety.dfy`, `TunnelProgress.dfy`, `TunnelSteps.dfy`, `TunnelWire.dfy` | the two ends as a step protocol, its invariant, what it can still do, what single steps must answer, and the bytes under it |
| `Twins.dfy` | two sessions of one sealed datum: shared nonces, and the recorded stream of one in the other |
| `Hostile.dfy`, `Splicing.dfy` | the forwarding loops over a network that hands them any frame bodies, and records of other layers with the same keys |
| `PinCell.dfy` | the client's shared pin of the server key |

Objects that the source updates in place (`Writer`, `Reader`, `FramedReader`,
`FramedWriter`, `DirPool`, `EntropyPool`, `RecordLayer`, `StrikeCache`) are
classes whose methods are proved equal to a function on values; the laws are
proved about those functions, over every sequence of calls. The accept, open and
forward tasks are a state machine: each queue operation, each section under the
record or strike-cache lock and each write to a plain sink is one step, and the
theorems quantify over every list of steps.

Modelling decisions:

- Cryptography is known only through `Suite.Laws`: decapsulation undoes
  encapsulation for the matching key, verification accepts a signature, opening
  undoes sealing, sealing adds 16 bytes, keys, signatures, ciphertexts and hashes
  have the sizes of section 8 of FIPS 203 and section 4 of FIPS 204. The BLAKE3
  hasher is its key and the bytes it absorbed; its 12-byte output is not assumed
  injective, so nonce uniqueness is stated on hash inputs.
- AEAD authenticity is not a law. It is a hypothesis of the theorems of `Network`,
  `Hostile` and `Splicing`, attached to each step that opens a record: a triple of
  nonce, associated data and ciphertext opens only if some record layer with these
  keys sealed it. The two ends are not the only such layers; any number of others
  may seal and open beside them.
- Integer casts truncate and the record counter wraps at 2^64, as release builds
  do. Where that breaks a law, the law is stated with its exact condition
  (`Messages.RoundTrip`, `Pools.WrapRepeats`).
- Randomness, clock readings, certificate verdicts and peer addresses are inputs.
  The clock is assumed not to run backwards between two sections under the
  strike-cache lock.
- In the tunnel, an I/O error may halt either end at any step, also between the
  insertion of a tag and the acknowledgement; its peer then reads an end of stream.
  Decoding is part of the step that reads, building a flight part of the step that
  draws its randomness: neither touches shared state.

Where the code and its documentation differ, the model follows the code:

- The repository's protocol document calls 0-RTT replay closed. What
  crates/ort-core/src/replay.rs:4-9 claims, closing it inside the window, holds:
  sessions that share a tag lie at least window + 1 ms apart
  (`Resubmission.SameTagApart`). Beyond the window it is open in two ways.
  - The tag covers the nonce and the sealed data, and the work behind the cache reads
    only those and the KEM ciphertext. Anyone can keep these three, put in an address
    and the current time, and sign with a key of their own; one window later the
    server establishes the same session and releases the same early data
    (`Resubmission.HonestFlightReplayed`), and the recorded rest of the client's stream
    comes out of the second session as well (`Twins.RecordedStreamReplayed`). This needs
    no skew. A sealed datum can be
    established up to 1 + (2^64 - 1) / (window + 1) times and no more often
    (`Resubmission.DatumSessions`); it is established at most once in every run if and
    only if the window is the whole range of the clock
    (`Resubmission.EstablishedOnceIff`).
  - Even an unchanged payload can pass again: the cache forgets a tag one window after
    its insertion, while a timestamp may lie up to the skew ahead of the clock.
    `ServerRuns.AcceptanceBound` and `ServerRuns.BoundAttained` give the exact number
    of passes, `ServerRuns.PassesOnceIff` the exact condition for one, and
    `ServerRuns.DefaultsAcceptTwice` an instance with the documented defaults.
  - The tag can also be taken beforehand: nonce and sealed data of an honest flight,
    signed by anyone under any ciphertext, get the flight turned down for one window
    (`Resubmission.TagTaken`); `Resubmission.HonestReplayedIff` gives the exact condition.
- crates/ort-core/src/kdf.rs:3-5 excludes reuse of a key and nonce across sessions,
  because the client draws a fresh encapsulation seed. The server does not: two
  sessions of one datum start from the same record layer, so they seal their first
  records to the client under one key, nonce and associated data
  (`Twins.HonestNoncesRepeat`). Two sessions can share a hash input if and only if their
  connection nonces are equal (`Twins.ShareInputIff`), and two sessions of one datum
  never share pool key and hash input if and only if the window is the whole range of
  the clock (`Twins.NeverCollideIff`).
- For the same reason authenticity under the session key does not mean that the peer
  sealed a record. A record of the second session comes out of the sink of the first
  session's client (`Splicing.SecondSessionSpliced`); the sink holds a prefix of what
  the peer put in, in every authentic run, if and only if no other layer with these
  keys and this connection nonce seals towards this end (`Splicing.PrefixIff`).
- crates/ort-net/src/forward.rs:96 takes Close for the end of the data. The frame is
  not authenticated, so over a hostile network it can come after any prefix, and the
  receiving end is in the same state as if it had everything
  (`Hostile.CloseIsBlind`). `Hostile.HostileDelivery` gives the exact condition where
  no other layer seals towards this end.
- crates/ort-net/src/transport.rs:17 says `None` marks a clean end of stream. An
  end inside a length prefix also reads as `None`; `Framing.CutReassembly` covers
  every cut.
- crates/ort-net/src/run.rs:56-58 says connections after first contact use the
  cached key. Tasks that took their snapshot before the first publication may use
  another verified key (`PinCell.RaceLeavesPin`); all others use the pin
  (`PinCell.SessionsUsePin`).

## Model

| member | source | states |
|---|---|---|
| `TunnelSafety.Transparency` | crates/ort-net/src/forward.rs:27-108 | over every interleaving of an honest client and server, 0-RTT or 1-RTT, any server clock and cache, I/O failures anywhere: each sink holds a prefix of what the other side put in, all of it once Close is processed, and no unexpected-frame, decoding, frame-cap, AEAD or key-confirmation error is reachable |
| `TunnelSafety.StepKeeps` | crates/ort-net/src/forward.rs:45-104 | every event keeps the invariant: linked record layers, queues that hold exactly the records in flight, bytes conserved as out + pending + in flight = in |
| `TunnelSafety.ProcessSent` | crates/ort-core/src/handshake/server.rs:74-107 | a server's answer to an honest flight is the client's own session or one of source-address mismatch, stale timestamp, replay |
| `TunnelProgress.Delivers` | crates/ort-net/src/forward.rs:45-104 | from every reachable state in which both ends forward, some continuation brings out, towards either end, every byte put in so far |
| `TunnelProgress.Carries` | crates/ort-net/src/forward.rs:50-60 | whatever the run so far, with both ends live and the sending loop not done, a chunk of 1 to 16384 bytes can be put in and comes out behind everything before it |
| `TunnelProgress.Closes` | crates/ort-net/src/forward.rs:61-64 | with both ends live some continuation closes a direction, with all that was put in written out |
| `TunnelSteps.OpeningMode` | crates/ort-net/src/session.rs:86-99 | a client opens in 0-RTT against the cached key exactly if it has one and 1-RTT is not forced, and otherwise writes its hello |
| `TunnelSteps.HelloVerdict` | crates/ort-net/src/session.rs:100-111 | on whatever body comes back, a flight is built exactly for a hello that verifies and does not contradict the cached key, and against its key; every refusal has its error |
| `TunnelSteps.OneRttIsVerified` | crates/ort-net/src/session.rs:105-111 | over every run a 1-RTT client that has a flight or forwards has verified the server's key and certificate |
| `TunnelSteps.ServerAnswers` | crates/ort-net/src/session.rs:143-171 | over every run an honest flight is answered with the first refusal that applies, or with the client's session and the acknowledgement of its key |
| `TunnelSteps.RefusedBody` | crates/ort-net/src/forward.rs:85-98 | whatever lies on the wire, a body that does not decode and a frame that does not belong stop an end with their own errors |
| `TunnelSteps.RefusedRecord` | crates/ort-net/src/forward.rs:88-94 | a record that opens goes to the sink, one that does not stops the end, and the counter of the direction advances either way |
| `TunnelSteps.PeerGone` | crates/ort-net/src/session.rs:143-161 | once the peer has halted and the wire is empty, a waiting end reports an early close during the handshake and ends quietly afterwards |
| `TunnelSteps.HaltedStays` | crates/ort-net/src/forward.rs:106-107 | an error is final, and an I/O failure halts an end that has none |
| `TunnelProgress.ZeroRttOpens` | crates/ort-net/src/session.rs:86-96 | an admissible 0-RTT opening reaches forwarding at both ends, one step at a time, with the early data written to the server's sink |
| `TunnelProgress.OneRttOpens` | crates/ort-net/src/session.rs:97-118 | a 1-RTT opening whose certificate verifies and whose second flight is admissible does the same |
| `TunnelProgress.HelloAnswered` | crates/ort-net/src/session.rs:97-111 | the 1-RTT hello is answered with the server's key and the client builds its flight against it |
| `TunnelProgress.HonestSetupExists` | crates/ort-net/src/session.rs:69-120 | the hypotheses of the tunnel theorems can be met in either mode |
| `TunnelWire.WireCarriesQueues` | crates/ort-net/src/transport.rs:18-49 | in every run the bytes of the frames in transit read back as exactly those frames, and any cut as a prefix of them |
| `Records.LockStep` | crates/ort-core/src/record.rs:43-60 | for every interleaving of seals and in-order opens, sender state = receiver state advanced by the ciphertexts in flight, and opened + in flight = sealed |
| `Records.StepInStep` | crates/ort-core/src/record.rs:43-60 | each seal or in-order open keeps the peers linked, and the head of a queue opens to the plaintext that was sealed |
| `Records.DirectionsCommute` | crates/ort-core/src/pool.rs:88-105 | calls on different directions commute in state and results, failed opens included |
| `Records.AadParses` | crates/ort-core/src/record.rs:14-22 | label, direction and counter can be read back at their offsets |
| `Records.AadInjective` | crates/ort-core/src/record.rs:14-22 | equal associated data means equal direction and sequence number |
| `Records.RecordAad` | crates/ort-core/src/record.rs:16-22 | the array filled in place is the associated data |
| `Records.RecordLayer.constructor` | crates/ort-core/src/record.rs:33-40 | a new layer is the initial record state of its keys and nonce |
| `Records.RecordLayer.Seal` | crates/ort-core/src/record.rs:43-50 | new state and ciphertext are those of the value-level seal |
| `Records.RecordLayer.Open` | crates/ort-core/src/record.rs:53-60 | new state and result are those of the value-level open; a failure draws without absorbing |
| `Pools.NonceInputsDistinct` | crates/ort-core/src/pool.rs:33-67 | in any run of draws and absorbs with at most 2^64 draws per direction, all hash inputs are pairwise distinct, within and across directions |
| `Pools.WrapRepeats` | crates/ort-core/src/pool.rs:55-62 | the bound is exact: 2^64 draws without absorbing make the next input repeat the first |
| `Pools.SessionsDisjoint` | crates/ort-core/src/pool.rs:78-86 | sessions with one pool key and different seeds never share a hash input |
| `Pools.RunShape` | crates/ort-core/src/pool.rs:47-67 | after any run a transcript begins with label and seed, and the counter is the number of draws modulo 2^64 |
| `Pools.DirPool.NextNonce` | crates/ort-core/src/pool.rs:55-62 | the nonce is the output over transcript and counter, and only the counter advances |
| `Pools.DirPool.Absorb` | crates/ort-core/src/pool.rs:64-67 | the transcript grows by the absorb label and the data |
| `Pools.EntropyPool.NextNonce` | crates/ort-core/src/pool.rs:96-98 | a draw touches its own direction only |
| `Pools.EntropyPool.Absorb` | crates/ort-core/src/pool.rs:103-105 | an absorb touches its own direction only |
| `Network.EndpointInputsDistinct` | crates/ort-core/src/record.rs:43-60 | with at most 2^64 calls per direction, no two calls of one endpoint, sealing or opening, successful or not, share a nonce input |
| `Network.PeerInputsDistinct` | crates/ort-core/src/pool.rs:1-9 | what the client seals and what the server seals under the shared key never share a nonce input |
| `Network.TranscriptIsHistory` | crates/ort-core/src/pool.rs:100-105 | after any calls a transcript is label, seed and every sealed or opened ciphertext in order, keyed by the pool key |
| `Network.SealedUnderHistory` | crates/ort-core/src/record.rs:43-60 | after any calls a record is sealed and opened under the session key, with the keyed hash over the history and the number of calls as nonce, and label, direction and that number as associated data |
| `Network.CallUsesInput` | crates/ort-core/src/record.rs:45-57 | every call of an endpoint uses the nonce of the very hash input that is distinct from all others |
| `Network.Delivery` | crates/ort-core/src/record.rs:14-60 | under any drops, duplicates, reorderings and injections, and with any other layers under the same keys, the n-th open fails or yields a plaintext some layer sealed n-th in that direction; if no other layer seals that way it is the peer's, and the output up to the first failure is a prefix of what was sent |
| `Network.PeerOnlyIff` | crates/ort-core/src/record.rs:14-60 | every open of every authentic run yields the peer's record at its position if and only if no other layer with these keys and this connection nonce seals in that direction |
| `Network.PeerOnlyForEverySuiteIff` | crates/ort-core/src/record.rs:14-60 | for other layers with any connection nonces the same holds in every authentic run of every lawful suite if and only if none of them seals in that direction |
| `Network.Spliced` | crates/ort-core/src/record.rs:53-60 | the first record of another layer with the same first nonce opens at this session's receiver although the peer has sealed nothing |
| `Network.StepKeeps` | crates/ort-core/src/record.rs:43-60 | every seal and every open, at an end or at another layer, keeps counters, sealed records and openings accounted for |
| `Network.OpenedInPlace` | crates/ort-core/src/record.rs:53-60 | a successful open at position k is a record that some layer with these keys sealed in that direction at k, modulo 2^64 |
| `Hostile.HostileDelivery` | crates/ort-net/src/forward.rs:69-104 | whatever frame bodies the network hands over, records of other layers with the same keys included, a sink gets what opened before the first failure, each piece sealed by some such layer at that position; if no other layer seals towards this end it is a prefix of what the peer put in, and a processed Close means all of it arrived if and only if every record sealed towards this end was opened here |
| `Splicing.SplicedRecord` | crates/ort-net/src/forward.rs:85-95 | with a layer that shares keys and connection nonce, every plaintext can follow in the sink what the peer put in, in an authentic run in which the peer sends nothing |
| `Splicing.PrefixIff` | crates/ort-net/src/forward.rs:69-104 | the sink holds a prefix of what the peer put in, in every authentic run, if and only if no such layer seals towards this end |
| `Splicing.SecondSessionSpliced` | crates/ort-net/src/forward.rs:85-95 | the first record of the server session established by a resubmitted flight comes out of the honest client's sink while the client's own server has sent nothing |
| `Hostile.CloseIsBlind` | crates/ort-net/src/forward.rs:96-101 | for all delivered and all held-back chunks two authentic runs end closed with the receiving end in the same state, complete in one and short of exactly the held-back chunks in the other |
| `Hostile.NextKeeps` | crates/ort-net/src/forward.rs:46-104 | every event keeps sink and pending bytes equal to what was opened before the first failure, and a failure stops the loop |
| `Hostile.ConfirmedFirst` | crates/ort-net/src/forward.rs:72-84 | over every run, authentic or not, a 0-RTT client writes nothing out before it was handed an acknowledgement with the hash of its own session key |
| `Hostile.LoopEnds` | crates/ort-net/src/forward.rs:85-101 | an end stops exactly on a body its loop refuses or a record that does not open, ends quietly at the end of the stream, and writes nothing once done |
| `Hostile.StartIsEstablished` | crates/ort-core/src/handshake/server.rs:100-155 | the state these runs start from is the one an honest 0-RTT or 1-RTT handshake ends in, at both ends |
| `Replay.CacheRefinesLog` | crates/ort-core/src/replay.rs:42-57 | with a clock that does not run backwards, the evicting cache answers Replayed exactly when the full log holds the tag within the window |
| `Replay.LogSpaced` | crates/ort-core/src/replay.rs:48-57 | equal tags are inserted at least window + 1 ms apart |
| `Replay.RejectionLeavesEntries` | crates/ort-core/src/replay.rs:50-54 | a rejected call only evicts: it neither adds nor refreshes an entry |
| `Replay.BoundedCache` | crates/ort-core/src/replay.rs:25-57 | all entry times lie in the last window and their number is the number of insertions made in it |
| `Replay.WindowIsInterval` | crates/ort-core/src/time.rs:55-63 | the saturating check is the interval from ts - skew to ts + window |
| `Replay.SecondAcceptance` | crates/ort-core/src/time.rs:55-63 | a timestamp accepted once can be accepted again after the cache forgot it exactly when it was ahead of the clock at first |
| `Replay.StrikeCache.Evict` | crates/ort-core/src/replay.rs:42-46 | keeps exactly the entries not older than the window |
| `Replay.StrikeCache.CheckAndInsert` | crates/ort-core/src/replay.rs:50-57 | evicts, then rejects a present tag or records an absent one at this time |
| `ServerRuns.AcceptanceBound` | crates/ort-core/src/handshake/server.rs:82-99 | over any run in clock order, both entry points together, one payload passes at most `MaxPasses` times, never more than 1 + (window + skew) / (window + 1); once if its timestamp was not ahead when it first passed |
| `ServerRuns.BoundAttained` | crates/ort-core/src/handshake/server.rs:82-99 | for every signed payload some run in clock order reaches that bound |
| `ServerRuns.PassesOnceIff` | crates/ort-core/src/handshake/server.rs:82-99 | a signed payload passes at most once in every run if and only if no skew is tolerated, its timestamp is 0, or the clock ends within one window of the earliest reading at which it can pass |
| `ServerRuns.DefaultsAcceptTwice` | crates/ort-core/src/handshake/server.rs:82-99 | with window 2000 and skew 1000 a payload stamped a second ahead passes twice |
| `ServerRuns.SessionsAreAcceptances` | crates/ort-core/src/handshake/server.rs:97-107 | the sessions established from a payload are exactly its acceptances if its datum opens, and none otherwise |
| `ServerRuns.Gate` | crates/ort-core/src/handshake/server.rs:74-107 | a session is established if and only if the arrival passed the gate and its datum opens; passing the gate implies matching address, timestamp in the window, verified binding, and a tag fresh before and recorded now, also when decapsulation or opening then fails |
| `Primitives.AcceptedIsSigned` | crates/ort-core/src/handshake/server.rs:90-96 | no arrival is accepted without a signature under the key it names over label, address, big-endian timestamp, nonce, that key and the two hashes |
| `Primitives.SessionsAreSigned` | crates/ort-core/src/handshake/server.rs:74-107 | over every run each session comes from a signed payload of the address it names whose ciphertext decapsulates and whose sealed data opens |
| `Primitives.Refusals` | crates/ort-core/src/handshake/server.rs:83-107 | the whole answer to a payload: address, window and signature are refused in this order with the cache as it was, a present tag only evicts, an absent one is recorded whatever follows |
| `Primitives.BadSignatureIff` | crates/ort-core/src/handshake/server.rs:90-96 | the answer is a bad signature with the cache as it was if and only if address and window pass and that signature does not verify |
| `Primitives.FirstFrameAnswer` | crates/ort-core/src/handshake/server.rs:52-139 | a hello for suite 0x0001 is answered with that suite, the server's key, certificate and clock reading; other suites and frames are refused with their errors |
| `Primitives.SecondFrameRefused` | crates/ort-core/src/handshake/server.rs:142-155 | a second frame without a payload is refused and the cache does not move |
| `Primitives.AckConfirmsKey` | crates/ort-core/src/handshake/server.rs:125-136 | every acknowledgement carries the hash of the key derived from the decapsulated secret |
| `ServerRuns.CacheMoves` | crates/ort-core/src/handshake/server.rs:111-155 | the cache moves only for arrivals that passed every earlier check, and then as one check-and-insert |
| `ServerRuns.TakenIff` | crates/ort-core/src/replay.rs:48-57 | over any run in clock order the strike check turns an arrival down if and only if one with the same tag was accepted no longer than one window ago |
| `ServerRuns.LogIsAcceptances` | crates/ort-core/src/replay.rs:48-57 | the log of a run holds the strikes of its accepted arrivals and no others |
| `Resubmission.ResignedAnswer` | crates/ort-core/src/handshake/server.rs:74-107 | the answer to a payload re-signed by anyone, through either entry point, is decided by its timestamp, the evicted cache and the datum alone |
| `Resubmission.ResignedEstablishesIffForgotten` | crates/ort-core/src/handshake/server.rs:97-106 | re-signed with the current time it establishes the original session if and only if its tag is not in the evicted cache |
| `Resubmission.SameTagApart` | crates/ort-core/src/replay.rs:42-57 | over any run in clock order the sessions sharing a tag are at least window + 1 ms apart, and so at most 1 + (2^64 - 1) / (window + 1) |
| `Resubmission.ResubmittedEveryWindow` | crates/ort-core/src/replay.rs:15-57 | whatever the skew, for every number that fits into the clock some run establishes that many sessions with the same keys and early data |
| `Resubmission.DatumSessions` | crates/ort-core/src/replay.rs:15-57 | one sealed datum can be established n times in some run in clock order if and only if n is at most 1 + (2^64 - 1) / (window + 1) |
| `Resubmission.EstablishedOnceIff` | crates/ort-core/src/replay.rs:15-57 | one sealed datum is established at most once in every run in clock order if and only if the window is 2^64 - 1 |
| `Resubmission.HonestFlightReplayed` | crates/ort-core/src/handshake/server.rs:74-107 | an honest flight and its datum re-signed by a stranger one window later both give the client's session and early data |
| `Resubmission.HonestReplayedIff` | crates/ort-core/src/handshake/server.rs:97-106 | after any run in clock order an honest in-window flight is answered Replayed if and only if an arrival with its tag was accepted no longer than one window ago, and otherwise establishes |
| `Primitives.HonestTurnedDownIff` | crates/ort-core/src/replay.rs:15-21 | unless their strings collide under the hash, an honest in-window flight is turned down if and only if an arrival with the same nonce and the same sealed data was accepted within one window |
| `Primitives.SameTagIff` | crates/ort-core/src/replay.rs:15-21 | without such a collision two payloads have one tag if and only if nonce and sealed data are equal |
| `Resubmission.TagTaken` | crates/ort-core/src/replay.rs:15-21 | a stranger's payload with its nonce and sealed data, under any ciphertext, gets an honest flight turned down for one window |
| `Twins.ShareInputIff` | crates/ort-core/src/pool.rs:78-86 | two sessions can hash the same bytes for a nonce, at any calls, if and only if their connection nonces are equal |
| `Twins.FirstInputsIff` | crates/ort-core/src/handshake/server.rs:100-106 | two sessions of a run hash the same bytes for their first record to the client if and only if their payloads carry the same nonce |
| `Twins.NoncesRepeat` | crates/ort-core/src/kdf.rs:33-40 | whatever the skew, some run has two sessions that seal any first plaintexts under one key, nonce and associated data |
| `Twins.HonestNoncesRepeat` | crates/ort-core/src/kdf.rs:33-40 | an honest flight and its re-signed datum are such a run |
| `Twins.NeverCollideIff` | crates/ort-core/src/kdf.rs:33-40 | no two sessions of one datum share pool key and hash input, in any run in clock order, if and only if the window is 2^64 - 1 |
| `Twins.RecordedStreamReplayed` | crates/ort-net/src/forward.rs:82-95 | for all chunks the client went on to send, the recorded frames come out of the second session's sink unchanged |
| `Handshake.HonestBuild` | crates/ort-core/src/handshake/client.rs:31-66 | an honest flight always builds, has the suite's sizes and carries a binding that verifies |
| `Primitives.FlightFromSeed` | crates/ort-core/src/handshake/client.rs:31-66 | a flight is built if and only if encapsulation with the fresh seed succeeds; its ciphertext is that encapsulation, both keys are expanded from its secret, the early data is the first record under them, and the client signs the fields written out |
| `Primitives.EstablishIff` | crates/ort-core/src/handshake/server.rs:100-106 | a session stands if and only if the ciphertext decapsulates and the sealed data opens as first record under the keys of that secret; each failure has its own error |
| `Handshake.HonestEstablish` | crates/ort-core/src/handshake/server.rs:100-106 | the server recovers the client's record layer and early data, counters 1 and 0, and the expected key hash |
| `Handshake.HonestKeySchedule` | crates/ort-core/src/kdf.rs:33-40 | AEAD key and pool key come from the shared secret under their own labels, salted by the ciphertext hash, and key the acknowledgement and both pools |
| `Handshake.HonestProcess` | crates/ort-core/src/handshake/server.rs:74-107 | the exact answer to an honest payload for every address, clock and cache |
| `Handshake.ZeroRttCompletes` | crates/ort-core/src/handshake/server.rs:125-136 | an honest flight within the cap, encoded, framed, read and decoded, establishes with the same session and an acknowledgement equal to the expected hash |
| `Handshake.OneRttCompletes` | crates/ort-core/src/handshake/server.rs:119-155 | the same for hello, server hello and the second flight |
| `Handshake.FlightSizes` | crates/ort-proto/src/frame.rs:5-25 | a 0-RTT flight passes the frame cap exactly up to 1,042,142 bytes of early data, a 1-RTT data flight up to 1,042,144 |
| `Flows.ParseRecord` | crates/ort-net/src/forward.rs:14-60 | every record the forwarder writes passes the peer's frame cap and decoder unchanged |
| `Flows.AckIff` | crates/ort-net/src/forward.rs:72-84 | a waiting client goes on exactly on the acknowledgement with the expected hash, reports key confirmation exactly on another hash, and refuses other frames |
| `Flows.DrainIff` | crates/ort-net/src/forward.rs:85-101 | a draining loop opens exactly what a data record carries, ends on the single byte of Close alone, and refuses other frames |
| `Endpoints.BuildPayload` | crates/ort-core/src/handshake/client.rs:31-66 | payload, record layer and expected hash are those of the transform |
| `Endpoints.ProcessPayload` | crates/ort-core/src/handshake/server.rs:74-107 | result, record layer and strike cache are those of the transform, on every error path |
| `Endpoints.ServerOnFirst` | crates/ort-core/src/handshake/server.rs:111-139 | reply and cache are those of the transform for every frame |
| `Endpoints.ServerOnClientData` | crates/ort-core/src/handshake/server.rs:142-155 | result and cache are those of the transform for every frame |
| `Endpoints.DeriveSessionKeys` | crates/ort-core/src/kdf.rs:33-40 | the buffers filled one after the other are the derived keys |
| `Binding.BindingInjective` | crates/ort-core/src/connmeta.rs:33-55 | equal messages mean equal address, timestamp, nonce, client key of any length, and hashes |
| `Binding.BindingFields` | crates/ort-core/src/connmeta.rs:33-55 | label, metadata, key and hashes sit at their offsets |
| `Binding.CanonicalInjective` | crates/ort-core/src/connmeta.rs:22-31 | the 56-byte form determines the metadata |
| `Binding.CanonicalArray` | crates/ort-core/src/connmeta.rs:24-30 | the array filled in place is the canonical form |
| `Binding.ClientBindingMsg` | crates/ort-core/src/connmeta.rs:38-55 | the buffer appended to is the binding message |
| `Binding.TagPreimageInjective` | crates/ort-core/src/replay.rs:15-21 | equal replay-tag preimages mean equal nonce and early data |
| `Binding.TagIff` | crates/ort-core/src/replay.rs:15-21 | as long as their strings do not collide under the hash, two tags are equal exactly if nonce and early data are |
| `Messages.RoundTrip` | crates/ort-proto/src/messages.rs:139-221 | decoding undoes encoding exactly on the frames whose fields fit their length prefixes |
| `Wire.WireLayout` | crates/ort-proto/src/messages.rs:62-184 | the encoding of every frame equals its bytes written out: type codes, field order, big-endian numbers and lengths |
| `Wire.UnknownTypeIff` | crates/ort-proto/src/messages.rs:186-221 | a body is refused for its type exactly if its first byte is none of the seven |
| `Messages.Canonical` | crates/ort-proto/src/messages.rs:186-221 | a body that decodes is the one encoding of its frame |
| `Messages.PrefixTruncated` | crates/ort-proto/src/messages.rs:186-221 | every proper prefix of a valid body is reported as Truncated |
| `Messages.ExtensionTrails` | crates/ort-proto/src/codec.rs:156-163 | every extension by k bytes is reported as TrailingBytes(k) |
| `Messages.Encode` | crates/ort-proto/src/messages.rs:139-184 | the writer's bytes are the grammar's encoding of the frame |
| `Messages.Decode` | crates/ort-proto/src/messages.rs:187-221 | the reader's result, error or frame, is the grammar's on every input |
| `Messages.WritePayload` | crates/ort-proto/src/messages.rs:62-69 | appends exactly the payload's fields |
| `Messages.ReadPayload` | crates/ort-proto/src/messages.rs:71-80 | reads exactly the payload's fields or reports Truncated, with the cursor in the buffer |
| `Codec.ScanPrint` | crates/ort-proto/src/codec.rs:33-164 | scanning undoes printing for every list of fields, whatever follows |
| `Codec.PrintScan` | crates/ort-proto/src/codec.rs:93-164 | what a scan consumed is the only encoding of its result |
| `Codec.CutScan` | crates/ort-proto/src/codec.rs:97-104 | cutting anywhere before the end of a scan leaves it short |
| `Codec.Writer.Bytes16` | crates/ort-proto/src/codec.rs:63-69 | appends the length, truncated to 16 bits, and the block |
| `Codec.Writer.Bytes32` | crates/ort-proto/src/codec.rs:71-76 | appends the length, truncated to 32 bits, and the block |
| `Codec.Reader.Take` | crates/ort-proto/src/codec.rs:97-104 | yields the next n bytes or Truncated, and never leaves the buffer |
| `Codec.Reader.Number` | crates/ort-proto/src/codec.rs:106-129 | reads a big-endian number of the given width |
| `Codec.Reader.Array` | crates/ort-proto/src/codec.rs:136-142 | reads a fixed-size array |
| `Codec.Reader.Block` | crates/ort-proto/src/codec.rs:144-154 | reads a length-prefixed block |
| `Codec.Reader.ExpectEnd` | crates/ort-proto/src/codec.rs:156-163 | succeeds at the end and otherwise reports the bytes left |
| `Framing.Reassembly` | crates/ort-net/src/transport.rs:18-49 | a written stream reads back as its bodies and a clean end if and only if every body respects the cap |
| `Wire.FramedLayout` | crates/ort-proto/src/frame.rs:10-16 | a framed body is four length bytes, most significant first, and the body |
| `Wire.OversizedRefused` | crates/ort-net/src/transport.rs:18-30 | a body over 1 MiB is an error that names its size, after every body in front of it has come out |
| `ByteStrings.BigEndianAt` | crates/ort-proto/src/codec.rs:33-61 | digit i of a numeral of width n is the value divided by 256^(n-1-i), modulo 256 |
| `Framing.CutReassembly` | crates/ort-net/src/transport.rs:18-30 | every byte-prefix reads back as the whole frames in it, then None at a boundary or inside a length, an error inside a body |
| `Framing.CutAccounting` | crates/ort-proto/src/frame.rs:10-16 | whole frames and leftover account for every byte of the cut |
| `Framing.FramedReader.ReadFrame` | crates/ort-net/src/transport.rs:18-30 | one call returns and consumes what the framing prescribes, for every stream |
| `Framing.FramedWriter.WriteFrame` | crates/ort-net/src/transport.rs:45-49 | the sink, whatever it holds, grows by exactly one framed body |
| `Framing.StreamSnoc` | crates/ort-net/src/transport.rs:45-49 | writing one body after another produces the stream that the reader's laws speak about |
| `PinCell.PinNeverChanges` | crates/ort-net/src/run.rs:66-94 | once set, the pin never changes, whatever the tasks do |
| `PinCell.SessionsUsePin` | crates/ort-net/src/session.rs:86-118 | pin and session keys came, in this run, with a certificate the verifier accepted and opened a 1-RTT session; a session that started from a snapshot uses that key, and all 0-RTT sessions of a run share the pin |
| `PinCell.LateTasksUsePin` | crates/ort-net/src/run.rs:84-94 | over every run a task that takes its snapshot after the pin was set establishes only on the pinned key, and in 0-RTT if and only if 1-RTT is not forced |
| `PinCell.SnapThenOpen` | crates/ort-net/src/session.rs:86-118 | such a task opens in 0-RTT whatever the peer answers unless 1-RTT is forced, and otherwise exactly on the pinned key with a certificate that verifies |
| `PinCell.RaceLeavesPin` | crates/ort-net/src/run.rs:84-94 | two tasks that snapshot an empty pin can end on different verified keys; the first published one stays pinned |
| `Suites.LawsAreConsistent` | crates/ort-core/src/suite/mod.rs:31-103 | the laws assumed of a cipher suite have a common instance |

## Left out

- The internals of ML-KEM, ML-DSA, AES-GCM, HKDF and BLAKE3: foreign libraries, present only through `Suite.Laws`.
- X.509 parsing in crates/ort-net/src/cert.rs: the client's verdict on (server key, certificate) is an arbitrary predicate.
- Sockets, task spawning, cancellation by `try_join`, and shutdown errors: an I/O error is a step that halts an end, and so is a failure to write Close, which the source ignores before it shuts the stream down; the forwarding loops are steps of a state machine, not Dafny loops.
- Secrecy, forward secrecy and probabilistic claims: outside what a functional model can decide.
- Key files, command lines, logging, zeroization, `SuiteId` lookups beyond the one known code, and `ip_to_bytes`: they have no state and no law that a step or a run depends on; addresses enter the model as the 16 bytes they produce.
- The `len` and `is_empty` queries of the strike cache and the `Clock` implementations: clock readings are inputs.
- `Pools.NonceInputsDistinct`: distinctness of the 12-byte nonces themselves is not claimed, because the hash output is not assumed injective.
