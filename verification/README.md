# OpenMesh Messenger: a verified model

A Dafny model of the OpenMesh messenger's protocol code and proofs about it. The
model covers the v1 wire codec, the encrypted session, the messaging engine
(contact requests, messages, hole punching), the encrypted store, the signaling
server and its client, and the relay.

`dafny verify dfyconfig.toml` checks everything.

## How the model is built

- **Values and steps.** Each stateful component has a value type for its state and a
  function that takes one step: `EngineModel.Step`, `Storage.Step`,
  `SignalingProofs.Step`, `Relay.Step`, `Sessions.EncryptAs` / `Decrypt`. Theorems
  are about those functions, over all inputs and all runs.
- **Objects.** Where the C++ updates things in place there is a class whose methods
  do the same and are proved to take exactly that step: `EngineObject`,
  `StoreObject.Store`, `Sessions.SessionObject`, `Signaling.SignalingServer`,
  `Relay.RelayServer`, `PeerTable.PeerTableObject`, `Blob.Reader`,
  `SignalingClient.ClientObject`.
- **The outside world is an input.** Clock readings, AEAD nonces, challenges, send
  results, received datagrams, lost datagrams and failed file writes are arguments.
  Callbacks are the events a step returns.
- **Cryptography is a parameter.** `Crypto.Suite` is a record of functions (agree,
  seal, open, verify, derive). `Crypto.Correct` is what they promise: sealed text
  opens under the same key and associated data, nothing opens to more bytes than it
  was sealed in, keys and signatures have their fixed lengths. Everything else about
  them is arbitrary. That both ends derive one key (`EndToEnd.Paired`) rests on the
  sorted key order at libs/crypto/src/key_agreement.cpp:42-54.
- **The network of `EndToEnd`** may do anything with datagrams but make one that opens
  under the shared key and that neither holder of it put on the wire (`Unforged`). A
  packet whose send reported failure stays off the wire in `EndToEndOrder`, since the
  sender does not log it; in `LeakyOrder` it may get out.
- **Byte strings.** A `std::string` is a byte string, so hosts, nicknames and message
  texts are `Bytes`. Integer widths are explicit where they matter: u16 lengths and
  u32 counts are cast (and so truncated), counters wrap at 2^64, timestamps go
  through uint64, the port is cast to 16 bits.
- **Restart** is an engine input that ends the process and keeps the database.
  `EngineStore` puts the engine and its store together, where a restart opens whatever
  the file holds: `SavedHistoryIsRun` proves that if the last attempted save before
  each restart went through, such a history is a run with `Restart` steps, so the
  theorems over runs apply to it. What holds whichever writes fail is stated by
  `BooksSurviveFailedWrites` and `EngineHistory.AcceptanceAcrossLifetimes`.

## The main results

1. **End-to-end order** (`EndToEnd.EndToEndOrder`): over a network that drops,
   duplicates, reorders, redirects and injects, the messages one engine logs from
   another are a subsequence of those the other logged to it, or, if failed sends may
   get out, of those it handed to the socket (`LeakyOrder`). `EndToEnd.Delivery`: a
   message sent is delivered if and only if the receiver has the sender as a contact,
   the packet is not oversized and nothing newer came first.
2. **Non-interference** (`NonInterference.ControlTrafficDoesNotInterfere`): leaving any
   HELLO and CONNECT datagrams out of a run, and changing any send results and clocks,
   changes no trust, request, session, received message or callback.
3. **Acceptance provenance** (`EngineTrust.AcceptanceProvenance`,
   `DeliveryProvenance`): who is accepted, and who gets a message through, was vouched
   for in the run; over lifetimes with failed writes too
   (`EngineHistory.AcceptanceAcrossLifetimes`).
4. **Injective agreement** (`SignalingProofs.Agreement`, `InjectiveAgreement`), and both
   ways: `RegisterIsAnswered` gives every reply to REGISTER from the trace alone.
5. **Durability** (`Storage.Durability`) on top of the store codec, both with the exact
   condition under which they hold; only the caller of `set_nickname` or `send` can
   break it (`EngineStore.OnlyCallersOversize`, `FileStaysReadable`).
6. **Wire codec**: bijection, prefix-freeness, injective associated data.
7. **Registries agree with the log** (`SignalingProofs.RegistryAgreesWithLog`,
   `Relay.ForwardingFollowsTheLog`), and extra sweeps never matter to registration.
8. **Loss tolerance** of registration (`SignalingClient.LossTolerance`), an
   if-and-only-if over client, server and network.
9. **Hole punching**: probe budget, pacing, path stability (`EnginePaths`); and where
   every packet and probe goes, as a reading of the history (`EngineRoutes`).
10. **Request bookkeeping and conservation** (`EngineTrust`), over lifetimes that
    really re-open the file and with failed writes (`EngineStore`).
11. **The handshake completes** (`Handshake.HandshakeCompletes`): from request to first
    message, with the exact condition for each packet to take effect.

Where a property is false of some inputs, the condition is exact and a lemma gives a
failing input: a packet round-trips if and only if it is version 1 and its fields fit
(`Wire.RoundTrip`, `Wire.RoundTripFails`); the file re-opens to the last saved database
if and only if that is in codec bounds (`Storage.Durability`; an oversized nickname is
saved without complaint and lost until it is shortened, `Storage.OversizedNicknameIsLost`);
a legacy payload loads if and only if it is in bounds and its count does not put the
byte 0x02 first (`StoreCodec.LegacyRoundTrip`, `StoreCodec.LegacyFails`). Associated data
is injective unless two sources differ in length and agree in its low 16 bits
(`Wire.AssociatedDataInjective`, `Wire.AssociatedDataCollides`); books survive a restart
from a file in codec bounds, and need not from another (`EngineHistory.OutOfBoundsBreaksBooks`).

## Where code and comments differ

The model follows the code.

- libs/net/src/signaling_client.cpp:15-16 calls hosts with colons a limitation; the
  printer and the parser agree on them (`EndpointText.EndpointRoundTrip`).
- servers/signaling/src/registry.hpp:13 says expiry sweeping is still to do; it is there.
- libs/messaging/include/openmesh/messaging/engine.hpp:99 speaks of a fallback timer;
  `tick` only repeats probes.

## Model

| member | source | states |
|---|---|---|
| `Octets.PutUint` | libs/protocol/src/packet.cpp:10-19 | the shift loop appends the big-endian bytes of the value, high bits cut off |
| `Octets.GetUint` | libs/protocol/src/packet.cpp:31-42 | the accumulate loop reads the value those bytes denote |
| `Octets.FromBeOfBe` | libs/storage/src/blob.hpp:28-41 | writing then reading an integer that fits its width gives it back |
| `Octets.BeOfFromBe` | libs/storage/src/blob.hpp:63-90 | reading then writing gives the same bytes |
| `Octets.BeAt` | libs/protocol/src/packet.cpp:10-19 | byte i of n is the value shifted right by 8(n-1-i), cut to a byte |
| `HexKeys.ToHex` | libs/core/include/openmesh/core/hex.hpp:11-20 | the loop yields two lowercase hex digits per byte |
| `HexKeys.HexDigits` | libs/core/include/openmesh/core/hex.hpp:11-20 | digits 2i and 2i+1 are the high and low half of byte i |
| `HexKeys.HexInjective` | libs/core/include/openmesh/core/hex.hpp:11-20 | distinct keys have distinct hex, so hex-keyed maps are maps by key |
| `Wire.Layout` | libs/protocol/src/packet.cpp:84-102 | byte by byte: "OM", version, type, flags, counter, and the three length-prefixed fields at their offsets |
| `Wire.WriteHeaderAndRouting` | libs/protocol/src/packet.cpp:84-92 | appends header, source and destination fields |
| `Wire.SerializePacket` | libs/protocol/src/packet.cpp:95-102 | the bytes of a packet |
| `Wire.AssociatedDataOf` | libs/protocol/src/packet.cpp:104-110 | everything but the payload |
| `Wire.ReadField` | libs/protocol/src/packet.cpp:46-59 | reads one length-prefixed field at an offset, or fails when it runs past the end |
| `Wire.ParsePacket` | libs/protocol/src/packet.cpp:112-151 | the offset-advancing parser computes `Parse`, error codes included |
| `Wire.RoundTrip` | libs/protocol/src/packet.cpp:84-151 | parse(serialize(p)) is Ok(p) if and only if p is version 1 and its fields fit u16 lengths |
| `Wire.RoundTripFails` | libs/protocol/src/packet.cpp:95-151 | a 65536-byte payload and a version-2 packet do not come back |
| `Wire.OversizedPayloadIsRejected` | libs/protocol/src/packet.cpp:95-151 | an oversized payload serializes to bytes that are TrailingBytes, never to another packet |
| `Wire.SerializeOfParse` | libs/protocol/src/packet.cpp:84-151 | whatever parses to p is byte for byte serialize(p) |
| `Wire.ErrorsAreExact` | libs/protocol/src/packet.cpp:112-151 | each parse error if and only if its cause: length, magic bytes, version byte, bytes after a whole packet, and otherwise a field cut short |
| `Wire.PrefixIsRejected` | libs/protocol/src/packet.cpp:112-151 | every proper prefix is TooShort below 13 bytes and TruncatedField from there on |
| `Wire.ExtensionIsRejected` | libs/protocol/src/packet.cpp:139-141 | every proper extension is TrailingBytes |
| `Wire.AssociatedDataInjective` | libs/protocol/src/packet.cpp:84-110 | equal associated data if and only if all header and routing fields agree, for any two packets whose sources cannot be confused by the 16-bit length |
| `Wire.FittingEnvelopeIsUnique` | libs/protocol/src/packet.cpp:84-110 | a packet whose routing fields fit shares its associated data with no other envelope, oversized ones included |
| `Wire.AssociatedDataCollides` | libs/protocol/src/packet.cpp:84-110 | two oversized envelopes that share it |
| `EndpointText.EndpointRoundTrip` | libs/net/src/signaling_client.cpp:17-30 | to_string then parse_endpoint gives the endpoint back for every host, colons included, and every port |
| `EndpointText.ParsesIff` | libs/net/src/signaling_client.cpp:17-30 | a text parses if and only if it has a colon that is not its last byte; the host is all before the last colon, the port what strtoul makes of the rest |
| `EndpointText.StrtoulSigns` | libs/net/src/signaling_client.cpp:28 | strtoul with a sign and with text after the digits |
| `EndpointText.DecimalReadsBack` | libs/net/include/openmesh/net/endpoint.hpp:13 | strtoul reads back what to_string prints, up to where it saturates |
| `StoreCodec.EncodingExample` | libs/storage/src/store.cpp:18-68 | the payload of one contact, one message and one request, byte by byte |
| `StoreCodec.StoreRoundTrip` | libs/storage/src/store.cpp:48-113 | decode(encode(lists)) gives the lists if and only if fields fit u16 and counts u32 |
| `StoreCodec.DecodedIsInBounds` | libs/storage/src/store.cpp:70-113 | whatever decodes, from either layout, is in bounds |
| `StoreCodec.ReencodeIsStable` | libs/storage/src/store.cpp:48-113 | whatever decodes re-encodes to a payload that decodes to the same lists |
| `StoreCodec.LegacyRoundTrip` | libs/storage/src/store.cpp:70-113 | a legacy payload decodes to its contacts if and only if it is in bounds and its count does not start with byte 2 |
| `StoreCodec.LegacyFails` | libs/storage/src/store.cpp:70-113 | 2^25 blank legacy contacts do not load back |
| `StoreCodec.PutListOfTakeList` | libs/storage/src/store.cpp:28-46 | a decoded list is exactly the bytes consumed |
| `Blob.Reader.Uint` | libs/storage/src/blob.hpp:56-90 | the cursor reads n big-endian bytes and advances, or fails and stays |
| `Blob.Reader.FieldBytes` | libs/storage/src/blob.hpp:91-110 | the cursor reads a length-prefixed field, or fails, having consumed at most the length |
| `Blob.EncodeList` | libs/storage/src/store.cpp:18-26 | the encode loop appends count and records |
| `Blob.EncodeDb` | libs/storage/src/store.cpp:48-68 | the v2 payload |
| `Blob.DecodeList` | libs/storage/src/store.cpp:28-46 | the decode loop reads count and records, failing exactly when they are cut short |
| `Blob.DecodeDb` | libs/storage/src/store.cpp:70-113 | the layout chosen by the first byte, every byte used |
| `Blob.BlobReadsBack` | libs/storage/src/blob.cpp:31-90 | a written file yields its salt and, under the same key, its plaintext |
| `Storage.FindAfterUpsert` | libs/storage/src/store.cpp:174-201 | after upsert the key has the new contact and every other key its old one |
| `Storage.UpsertKeepsKeysUnique` | libs/storage/src/store.cpp:174-188 | upsert keeps contact keys unique |
| `Storage.WithoutKeepsOthers` | libs/storage/src/store.cpp:245-253 | remove_request removes the peer's requests and no other |
| `Storage.WithoutSelects` | libs/storage/src/store.cpp:245-253 | what is left are exactly the others' requests, in their order |
| `Storage.ConversationSelects` | libs/storage/src/store.cpp:223-231 | a conversation is the log at exactly the places where the peer is this one, in increasing order |
| `Storage.OpenSparesFile` | libs/storage/src/store.cpp:117-143 | opening an existing file never changes it, and a failed attempt changes nothing at all |
| `Storage.UnopenedWritesNothing` | libs/storage/src/store.cpp:160-253 | a store that was never opened writes no file, whatever is done to it |
| `Storage.LoadedWasWritten` | libs/storage/src/blob.cpp:31-90 | under ideal authenticated encryption, whatever loads is a file some store with that salt and key wrote |
| `Storage.SavedFileLoads` | libs/storage/src/store.cpp:117-165 | a successful save loads back if and only if the lists are in codec bounds |
| `Storage.OpenEstablishes` | libs/storage/src/store.cpp:117-158 | a successful open leaves a file that loads to what the store holds, if and only if the file existed or the lists are in bounds |
| `Storage.FileIsLastSaved` | libs/storage/src/store.cpp:160-253 | after any operations with any failed writes, there is a file if and only if there was one or some attempted write went through; it has the store's salt and loads to the database of the last successful write, if and only if that is in codec bounds |
| `Storage.FailedCreationIsLive` | libs/storage/src/store.cpp:147-157 | a store whose creating save failed stays persistent, without a file, and is covered by the rows above and below |
| `Storage.LastSavedIsPast` | libs/storage/src/store.cpp:160-253 | that database is a past one, and the current one if the last attempted save went through; skipped saves do not count |
| `Storage.Durability` | libs/storage/src/store.cpp:117-253 | the file, once a write has made one, re-opens to the database of the last successful write if and only if that is in bounds; it is a past in-memory state, and the current one if the last attempted save went through, so if none failed |
| `Storage.DurabilityAfterTries` | libs/storage/src/store.cpp:117-253 | and so after any number of attempts to open it with any passphrases |
| `Storage.OversizedNicknameIsLost` | libs/storage/src/store.cpp:160-188 | one saved 65536-byte nickname and the file no longer gives the store back; shortening it heals the file |
| `Storage.BoundsAreFieldsAndCounts` | libs/storage/src/store.cpp:18-68 | codec bounds are: every field below 65536 bytes, every list below 2^32 entries |
| `Storage.OpKeepsFieldsFit` | libs/storage/src/store.cpp:167-253 | an operation leaves all fields in bounds if and only if its own argument is |
| `StoreObject.Store.Open` | libs/storage/src/store.cpp:117-158 | loads or creates the file as the machine does |
| `StoreObject.Store.Save` | libs/storage/src/store.cpp:160-165 | replaces the file with the sealed database, or leaves it |
| `StoreObject.Store.Upsert` | libs/storage/src/store.cpp:174-188 | replaces in place or appends, then saves, on record |
| `StoreObject.Store.Find` | libs/storage/src/store.cpp:194-201 | the first contact with the key, or none |
| `StoreObject.Store.AddRequest` | libs/storage/src/store.cpp:233-243 | appends and saves, unless the peer has one pending |
| `StoreObject.Store.RemoveRequest` | libs/storage/src/store.cpp:245-253 | erases the peer's requests, saving only if some went |
| `StoreObject.Store.Conversation` | libs/storage/src/store.cpp:223-231 | the peer's messages in order |
| `Sessions.SessionObject.Encrypt` | libs/messaging/src/session.cpp:22-37 | numbers the packet, advances the counter, seals with the envelope as associated data |
| `Sessions.SessionObject.DecryptPacket` | libs/messaging/src/session.cpp:39-64 | checks, opens, and advances only on success |
| `Sessions.ReplaySafety` | libs/messaging/src/session.cpp:39-64 | over any use of a session accepted counters strictly increase and no packet is accepted twice |
| `Sessions.AcceptedIsAuthentic` | libs/messaging/src/session.cpp:39-64 | over any use, only encrypted packets from the remote end to this one that open under the session's key and their own envelope are accepted |
| `Sessions.CountersAreConsecutive` | libs/messaging/src/session.cpp:22-37 | packets of all kinds are numbered 0, 1, 2, ... modulo 2^64 |
| `Sessions.RejectionIsInert` | libs/messaging/src/session.cpp:39-64 | a rejected packet leaves the session unchanged |
| `Sessions.SealedOpensAtPeer` | libs/messaging/src/session.cpp:22-64 | what one end seals the other opens to the same text, if and only if its counter is new |
| `EngineModel.SetTrust` | libs/messaging/src/engine.cpp:164-170 | the contact found, with its trust changed and nothing else, or a new one with only that trust |
| `EngineModel.Rename` | libs/messaging/src/engine.cpp:172-178 | the contact found, with its nickname changed and nothing else, or a new Pending one |
| `EngineContacts.NamesAreKept` | libs/messaging/src/engine.cpp:164-178 | over any run a contact has the name last given by set_nickname or a surfaced greeting, else the store's, and the store's last-seen time |
| `EngineLedger.StepHasItsEffect` | libs/messaging/src/engine.cpp:164-384 | each step changes contacts, messages and requests by one effect whose guard held, and makes that effect's callback |
| `EngineSessions.StepUsesSession` | libs/messaging/src/engine.cpp:150-162 | the engine's dealings with a peer are the run of one session, made on demand |
| `EngineSessions.StepSeals` | libs/messaging/src/engine.cpp:191-281 | a packet leaves only from a sending call and is the next of that peer's session |
| `EngineTrust.StepKeepsBooks` | libs/messaging/src/engine.cpp:164-384 | unique contact keys, unique request peers who are contacts, pending set equal to the hex image of stored requests |
| `EngineTrust.BooksHold` | libs/messaging/src/engine.cpp:164-384 | the books hold in every reachable state of a run, Restart steps included |
| `EngineTrust.AcceptanceProvenance` | libs/messaging/src/engine.cpp:203-265 | from an empty store a peer is accepted only after add_peer, our accept of its surfaced request, or its authenticated accept of our request |
| `EngineTrust.DeliveryProvenance` | libs/messaging/src/engine.cpp:307-350 | a message is delivered only from a peer vouched for before |
| `EngineTrust.OneRequestPerPeer` | libs/messaging/src/engine.cpp:352-371 | a peer's request is surfaced at most once over any run, Restart steps included, and never for a known peer |
| `EngineTrust.ResponsesNeedRequests` | libs/messaging/src/engine.cpp:221-235 | responses surfaced from a peer never exceed the requests sent to it |
| `EngineStore.StepIsItsOps` | libs/messaging/src/engine.cpp:164-384 | a step's database is the fold of the store operations it makes, in their order |
| `EngineStore.ReopeningGivesSaved` | libs/messaging/src/engine.cpp:180-189 | a new process starts from what was last saved if and only if that is in codec bounds |
| `EngineStore.RestartIsReopen` | libs/messaging/src/engine.cpp:180-189 | with the last attempted save through, re-opening the file gives the engine a Restart gives, if and only if the database is in bounds |
| `EngineStore.FirstWorld` | libs/messaging/src/engine.cpp:180-189 | an engine that has just opened a store with sound books meets the invariant of the two |
| `EngineStore.TurnKeepsInv` | libs/messaging/src/engine.cpp:164-384 | every call with any of its writes failing, and every re-opening of a file in bounds, keeps it |
| `EngineStore.BooksSurviveFailedWrites` | libs/messaging/src/engine.cpp:164-384 | over any lifetimes with any failed writes, each restart on a file in codec bounds, the books hold, in memory and in what a new process would find |
| `EngineStore.OnlyCallersOversize` | libs/messaging/src/engine.cpp:164-384 | a step leaves stored fields in bounds if and only if the caller kept to sizes; no datagram can break them |
| `EngineStore.FileStaysReadable` | libs/messaging/src/engine.cpp:164-384 | over any lifetimes with such callers and any failed writes, what was last saved re-opens if and only if its lists have fewer than 2^32 entries |
| `EngineStore.SavedHistoryIsRun` | libs/messaging/src/engine.cpp:180-189 | lifetimes that re-open their file, in codec bounds and with the last attempted save before it through, are a run of the engine with Restart steps |
| `EngineStore.OneRequestAcrossLifetimes` | libs/messaging/src/engine.cpp:352-371 | over such lifetimes (files in codec bounds, last saves through) a peer's request is surfaced at most once |
| `EngineHistory.AcceptanceAcrossLifetimes` | libs/messaging/src/engine.cpp:203-265 | from an empty store, over lifetimes with any failed writes and files in codec bounds, whoever is accepted in memory or on file was vouched for in the history |
| `EngineHistory.DeliveryAcrossLifetimes` | libs/messaging/src/engine.cpp:307-350 | and a message is delivered only from a peer vouched for before |
| `EngineHistory.OutOfBoundsBreaksBooks` | libs/storage/src/store.cpp:48-113 | why files must be in bounds: one oversized nickname, saved without an error, re-opens to a request from someone who is not a contact |
| `EnginePaths.ProbeBudget` | libs/messaging/src/engine.cpp:76-134 | at most 12 probes per start_probing that went ahead, plus one |
| `EnginePaths.ProbesArePaced` | libs/messaging/src/engine.cpp:100-111 | on a monotone clock a tick probe comes at least 250 ms after every earlier probe of start_probing or tick |
| `EnginePaths.ConfirmedForever` | libs/messaging/src/engine.cpp:117-134 | a confirmed path stays confirmed and has a known endpoint |
| `EnginePaths.PathFollowsProbes` | libs/messaging/src/engine.cpp:122-148 | unless the caller reassigns it, a confirmed peer's endpoint is the source of its latest probe to us |
| `EnginePaths.TrafficFollowsProbes` | libs/messaging/src/engine.cpp:191-201 | what is sent to that peer goes to that endpoint |
| `EngineRoutes.RoutesAreCharted` | libs/messaging/src/engine.cpp:76-148 | over any run the relay, the confirmed path, the peer's endpoint and the course of its probing equal a backward reading of the inputs |
| `EngineRoutes.PacketsFollowRoutes` | libs/messaging/src/engine.cpp:191-281 | a sending call that passes its checks sends one packet, to the endpoint that reading gives, else to the relay, else none, and returns the socket's result; no other call sends one |
| `EngineRoutes.ProbesAreOwed` | libs/messaging/src/engine.cpp:76-134 | at every step each peer is sent exactly the probe that reading owes it, where it owes it |
| `EngineRoutes.AdvertIsProbed` | libs/messaging/src/engine.cpp:136-148 | a CONNECT that parses, for an unconfirmed peer, sends exactly one probe, to the advertised endpoint, with the relay as fallback route |
| `EngineRoutes.TicksUseTheBudget` | libs/messaging/src/engine.cpp:100-111 | ticks at least 250 ms apart after a start send eleven more probes and then none |
| `EngineRoutes.PunchCompletes` | libs/messaging/src/engine.cpp:66-134 | one engine's probe that reaches the other is answered where it came from, and that answer confirms the path at both ends |
| `EngineRoutes.StepReturns` | libs/messaging/src/engine.cpp:203-342 | what add_peer, poll and the other calls return |
| `Handshake.SealedIsAdmitted` | libs/messaging/src/engine.cpp:307-342 | what one engine seals, of any kind, the other decrypts if and only if nothing newer came first |
| `Handshake.RequestReaches` | libs/messaging/src/engine.cpp:221-371 | a contact request is surfaced with its greeting if and only if it gets through and its sender is a stranger |
| `Handshake.AnswerReaches` | libs/messaging/src/engine.cpp:237-384 | an answer is surfaced as what it is if and only if it gets through and was asked for |
| `Handshake.MessageReaches` | libs/messaging/src/engine.cpp:267-350 | a message to an engine that accepts the sender is delivered if and only if it gets through |
| `Handshake.HandshakeCompletes` | libs/messaging/src/engine.cpp:203-384 | two strangers: request, surfacing, acceptance, response and first message all happen, each packet to the right endpoint |
| `NonInterference.ControlIsInvisible` | libs/messaging/src/engine.cpp:294-305 | a HELLO or CONNECT datagram changes only endpoints and probes and makes no callback |
| `NonInterference.StepsAgree` | libs/messaging/src/engine.cpp:164-384 | two engines that agree on all but paths and outbound log still agree after the same input with any send result |
| `NonInterference.ControlTrafficDoesNotInterfere` | libs/messaging/src/engine.cpp:283-342 | two-run property: dropping any HELLO and CONNECT datagrams leaves trust, requests, sessions, received messages and callbacks the same |
| `EndToEnd.DeliveryOpens` | libs/messaging/src/engine.cpp:307-350 | a delivered message came in a packet from that peer to us, newer than any before, that opens to it under their key |
| `EndToEnd.DeliveriesAdvance` | libs/messaging/src/engine.cpp:313-332 | deliveries from a peer have increasing counters; no packet is delivered twice in a lifetime |
| `EndToEnd.StepLogs` | libs/messaging/src/engine.cpp:275-281 | only a successful send and a delivery write to the log, one line each |
| `EndToEnd.EndToEndOrder` | libs/messaging/src/engine.cpp:267-350 | the messages b logs from a are a subsequence of the messages a logs to b, failed sends staying off the wire |
| `EndToEnd.LoggedIsConversation` | libs/storage/src/store.cpp:223-231 | the log with a peer is what conversation returns |
| `EndToEnd.ConversationOrder` | libs/messaging/src/engine.cpp:267-350 | the order stated of what conversation returns at both ends |
| `EndToEnd.LeakyOrder` | libs/messaging/src/engine.cpp:267-350 | if failed sends may get out, they are a subsequence of the texts a handed to the socket |
| `EndToEnd.SentIsDelivered` | libs/messaging/src/engine.cpp:267-350 | b, polling the datagram of a's send, delivers and logs exactly that text if and only if it parses and is newer than anything accepted from a |
| `EndToEnd.Delivery` | libs/messaging/src/engine.cpp:267-350 | the same between any two points of a run of both engines, restarts included, with b's trust in a as part of the condition |
| `EngineObject.EngineObject.OpenStore` | libs/messaging/src/engine.cpp:180-189 | opens the store, re-surfaces its requests, and starts a new record of writes |
| `EngineObject.StartUp` | libs/messaging/src/engine.cpp:180-189 | a new engine on an old one's disk is what `EngineStore` calls re-opened |
| `EngineObject.EngineObject.SetNickname` | libs/messaging/src/engine.cpp:172-178 | renames, creating a Pending contact for an unknown peer; that upsert, and no other operation, is put on record |
| `EngineObject.EngineObject.EnsureSession` | libs/messaging/src/engine.cpp:150-162 | finds or makes the session, or fails with the key agreement |
| `EngineObject.EngineObject.SendPacket` | libs/messaging/src/engine.cpp:191-201 | to the known endpoint, else the relay, else not at all |
| `EngineObject.EngineObject.AddPeer` | libs/messaging/src/engine.cpp:203-211 | the machine's step, with exactly its store operations put on record |
| `EngineObject.EngineObject.SendContactRequest` | libs/messaging/src/engine.cpp:221-235 | the machine's step, its store operations on record, and the datagram handed to the socket |
| `EngineObject.EngineObject.Answer` | libs/messaging/src/engine.cpp:237-265 | accept_contact and reject_contact: the machine's step, its store operations on record in order, and the datagram |
| `EngineObject.EngineObject.Send` | libs/messaging/src/engine.cpp:267-281 | the machine's step: logged, and on record, only if sent |
| `EngineObject.EngineObject.StartProbing` | libs/messaging/src/engine.cpp:76-88 | nothing on a confirmed path, else a fresh probe sent |
| `EngineObject.EngineObject.Connect` | libs/messaging/src/engine.cpp:90-98 | the machine's step and the endpoint in use |
| `EngineObject.EngineObject.Tick` | libs/messaging/src/engine.cpp:100-115 | every due probe is repeated exactly once, the others untouched |
| `EngineObject.EngineObject.HandleProbe` | libs/messaging/src/engine.cpp:122-134 | confirms the path, moves the endpoint, answers once |
| `EngineObject.EngineObject.HandleConnect` | libs/messaging/src/engine.cpp:136-148 | relay as fallback, then probing of the advertised endpoint |
| `EngineObject.EngineObject.HandleContactRequest` | libs/messaging/src/engine.cpp:352-371 | the one-request rule, with the operations of a surfaced request on record in order |
| `EngineObject.EngineObject.HandleContactResponse` | libs/messaging/src/engine.cpp:373-384 | only an awaited response counts |
| `EngineObject.EngineObject.Receive` | libs/messaging/src/engine.cpp:307-342 | spam gate, session, decryption, address tracking, dispatch |
| `EngineObject.EngineObject.Poll` | libs/messaging/src/engine.cpp:283-342 | the machine's step on one datagram, with its store operations on record, the probe sent, none if nothing parses, and the callback made |
| `PeerTable.TableAgreesWithLog` | servers/signaling/src/registry.cpp:5-30 | the swept table holds a peer exactly when a backward reading of the log, without any table, says it is online |
| `PeerTable.SweptEntriesAreRecent` | servers/signaling/src/registry.cpp:22-30 | after a sweep every entry was seen in [now - ttl, now] |
| `PeerTable.PeerTableObject.Expire` | servers/relay/src/router.cpp:18-26 | erasing while iterating leaves exactly the entries not older than the cutoff |
| `Signaling.SignalingServer.Register` | servers/signaling/src/server.cpp:69-106 | the challenge/response step |
| `Signaling.SignalingServer.Discover` | servers/signaling/src/server.cpp:108-119 | the registered endpoint as text, or empty |
| `Signaling.SignalingServer.Connect` | servers/signaling/src/server.cpp:121-130 | the packet itself, to the registered endpoint |
| `Signaling.SignalingServer.Heartbeat` | servers/signaling/src/server.cpp:132-141 | moves and refreshes a registered peer, always answers |
| `Signaling.SignalingServer.Disconnect` | servers/signaling/src/server.cpp:143-147 | removes the peer |
| `Signaling.SignalingServer.Expire` | servers/signaling/src/server.cpp:149-158 | both erase loops |
| `Signaling.SignalingServer.Once` | servers/signaling/src/server.cpp:164-179 | parse, handle, serialize, sweep |
| `SignalingProofs.Agreement` | servers/signaling/src/server.cpp:69-106 | every registration ACK answers the last HELLO for that key: same endpoint, within the TTL, signed with the key |
| `SignalingProofs.InjectiveAgreement` | servers/signaling/src/server.cpp:69-106 | no two ACKs share a HELLO |
| `SignalingProofs.RegisterIsAnswered` | servers/signaling/src/server.cpp:69-106 | on a monotone clock every reply to REGISTER, from the trace alone: a challenge to a request, an ACK exactly to the first attempt, from its endpoint and in time, at the last challenge, if it verifies, else silence |
| `SignalingProofs.OthersAreAnswered` | servers/signaling/src/server.cpp:108-147 | every other reply, from the log: DISCOVER, CONNECT, HEARTBEAT, and silence |
| `SignalingProofs.ChallengesAreSwept` | servers/signaling/src/server.cpp:149-158 | after a sweep no challenge is kept past its time |
| `SignalingProofs.RegistryAgreesWithLog` | servers/signaling/src/server.cpp:69-158 | on a monotone clock a lookup equals the backward scan of registrations, live heartbeats, disconnects and sweeps |
| `SignalingProofs.RegistryIsRecent` | servers/signaling/src/server.cpp:149-179 | after a sweep every entry is within the TTL |
| `SignalingProofs.RoundTakesItsSteps` | servers/signaling/src/server.cpp:164-179 | a run_once, with or without a packet, is its steps of the trace, and sends the packet's reply serialized |
| `SignalingProofs.RoundsAreATrace` | servers/signaling/src/server.cpp:164-179 | any calls of run_once make a trace, ending in a sweep at the last call's time |
| `SignalingProofs.RegistryAfterRunOnce` | servers/signaling/src/server.cpp:149-179 | after each run_once every entry is in [now - ttl, now] and a lookup is the backward scan of the log |
| `SignalingProofs.SweepsDoNotMatter` | servers/signaling/src/server.cpp:69-106 | two-run property: extra sweeps never change a reply to REGISTER |
| `SignalingProofs.DiscoveryDecodes` | servers/signaling/src/server.cpp:108-119 | a DISCOVER reply parses to exactly the registered endpoint, or to offline |
| `SignalingProofs.ForwardingIsVerbatim` | servers/signaling/src/server.cpp:121-179 | a forwarded CONNECT leaves byte-identical, for the registered endpoint, and only if there is one |
| `Relay.RelayServer.HandleDatagram` | servers/relay/src/server.cpp:16-37 | learns the source, forwards the datagram if the destination is known |
| `Relay.RelayServer.Once` | servers/relay/src/server.cpp:47-59 | handle, then sweep |
| `Relay.RoutesAgreeWithLog` | servers/relay/src/server.cpp:16-59 | a route is where the peer's latest packet came from, within the TTL |
| `Relay.RoutesAreRecent` | servers/relay/src/server.cpp:39-59 | after a sweep every route is within the TTL |
| `Relay.ForwardingFollowsTheLog` | servers/relay/src/server.cpp:28-37 | a datagram is forwarded verbatim exactly when the log says its destination is online, to that endpoint |
| `Relay.RoundTakesItsSteps` | servers/relay/src/server.cpp:47-59 | a run_once, with or without a datagram, is its steps of the trace, and forwards what they forward |
| `Relay.RoundsAreATrace` | servers/relay/src/server.cpp:47-59 | any calls of run_once make a trace, ending in a sweep at the last call's time |
| `Relay.RoutesAfterRunOnce` | servers/relay/src/server.cpp:39-59 | after each run_once every route is in [now - ttl, now] and leads where the log says |
| `SignalingClient.AwaitPacket` | libs/net/src/signaling_client.cpp:44-64 | the deadline loop: the first datagram of the expected kind before the deadline or a timeout; others are discarded |
| `SignalingClient.AwaitEndsAtDeadline` | libs/net/src/signaling_client.cpp:44-64 | what is read at or after the deadline never matters |
| `SignalingClient.AwaitEndsAtTimeout` | libs/net/src/signaling_client.cpp:52-57 | a socket timeout ends the wait |
| `SignalingClient.AwaitSkipsNoise` | libs/net/src/signaling_client.cpp:58-62 | unrelated datagrams do not matter |
| `SignalingClient.ClientObject.RegisterSelf` | libs/net/src/signaling_client.cpp:66-96 | the retry loop and the learned public endpoint |
| `SignalingClient.RoundSucceedsIffClear` | libs/net/src/signaling_client.cpp:66-96 | a round is acknowledged if and only if none of its four datagrams is lost |
| `SignalingClient.LossTolerance` | libs/net/src/signaling_client.cpp:66-96 | register_self succeeds if and only if some round is clear, and then server and client agree on the endpoint |
| `SignalingClient.DiscoverPeer` | libs/net/src/signaling_client.cpp:98-112 | the discover retry loop |
| `SignalingClient.DiscoveryTolerance` | libs/net/src/signaling_client.cpp:98-112 | discover responds if and only if some query and its answer get through, with what the registry held then |

## Left out

- libs/crypto: key agreement, AEAD, signatures and key derivation are the arbitrary functions of `Crypto.Suite`; secrecy and forward secrecy are not stated.
- Sockets, threads, logging, configuration, command-line and graphical front ends, demos and `main` programs: input and output become step inputs and results.
- libs/storage/src/identity_store.cpp: the same codec and container with two fields would only add easy members.
- Engine queries (`knows_peer`, `trust_of`, `has_direct_path`, `contacts`), `announce_to`, and the client's `send_connect`, `heartbeat` and `disconnect`: one-line reads and sends.
- Counters across restarts: sessions are not persisted, so counter and order claims are per process lifetime.
- EngineObject.EngineObject.Tick: the order of the repeated probes is not fixed, because the map's iteration order is not.
- SignalingClient.LossTolerance: an answer is lost or read before its deadline, never late enough to be read by a later wait, and the round must finish within the challenge TTL.
- Storage.Durability: the file system is an atomic replace that succeeds or fails; temporary files and partial writes are not modelled.
- EngineStore.FirstWorld: histories start from a store that opened; an engine that goes on without one, after `open_store` returned false, is covered by the run theorems until it ends.
- Storage.OpenEstablishes: failure to allocate for an enormous declared count is not modelled.
- Signaling.SignalingServer.Register: times are unbounded integers, so overflow of a 64-bit time is not modelled; challenges are arbitrary, not random.
