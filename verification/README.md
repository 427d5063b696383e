# Verification of the construct-engine client

This project models the client engine of an end-to-end encrypted messenger and proves what its
documentation and comments promise: crash safety of the ratchet state, acknowledgements that are never
premature, a stream that resumes without gaps, healing that ends, framing that does not depend on how
bytes arrive, address discovery that returns the right address, and counters that add up. Where the
code does less than its comments say, the exact extent is proved instead.

`dafny verify dfyconfig.toml` checks everything.

## How the model is built

Each component has a value for its state, a function for one step, and a class with the original's
fields whose methods follow the original's statements and are proved to compute that function; the
properties are lemmas over the function and over all runs.

| File | Content |
|---|---|
| `Protocol`, `Ratchet` | stream messages and their routing; the crypto core as a per-contact ratchet |
| `EngineSpec`, `Engine` | the handlers of `src/engine.rs`: as functions with their visible effects in order, and as a class |
| `Visible`, `VisibleRuns` | what each event has to make visible and leave behind, stated kind by kind from the event, and over runs |
| `CrashSafety`, `KeySafety`, `AckSafety`, `Redelivery` | runs with a crash between any two effects, and restarts |
| `Resume`, `CursorOrder`, `StreamLife` | the frame queue, the pumps that feed it, and the cursor; when the stream is open |
| `Healing`, `HealingRuns` | the healing record as a machine, and the engine running it |
| `BackgroundPush`, `BatchSafety` | the background batch: its paging, and what it saves and reports |
| `SendAccounting`, `SentFrames` | the statuses reported, and the engine joined with its streams |
| `TokenLoop`, `Connectivity` | the timer, the tokens and the connection phases of the event loop |
| `Grpc`, `MessageStream` | framing, reassembly, and the outgoing queue |
| `Stun`, `StunVectors` | address discovery, and the parser against literal bytes |
| `P2PConnection`, `P2PManager`, `P2PHistory`, `P2PLatency` | candidate selection, attempt accounting, outcomes and peers, the reported latency |
| `Wrappers`, `Bytes`, `Powers` | an option type; bytes and integer fields; powers of two |

The object `ConstructEngine` appears three times, by concern: `Engine.ConstructEngine` (sessions and
stream), `TokenLoop.Engine` (tokens and timer) and `Connectivity.Link` (connection). A handler that
ends by calling another, such as the reopening of the stream after an authentication or the key upload
after a count, is followed by that event in a run; runs allow every order, so they include the
original's. A background batch is a run of one event per message, so that a crash can fall inside it.

## Assumptions

These are stated as preconditions or built into the types; each names the part that is not modelled.

- The crypto core (`construct-core`): a receive key works once; a session start that names a one-time
  pre-key needs its private half and uses it up, and other keys are kept; a failed encryption,
  decryption or key generation leaves the core unchanged; the number of healing attempts allowed per
  sender is a constant, left arbitrary; healing records live in the core object and vanish with it; an
  export that succeeds is not empty.
- Each safety theorem has its own hypothesis. `CrashSafety.Lawful`: a message that reaches the stream
  on a session of the keychain was exported, new session identities are new, a restore brings what was
  saved last.
  `AckSafety.Orderly`: a message whose acknowledgement may go out was exported, and the restore comes
  before other work. `Redelivery.Careful`: moreover a session that is begun encrypts its first message,
  session starts are exported, and generated one-time pre-keys are not ones the server already has.
  `CrashSafety.Restoring` (for the keys): restores only. For exports and restores the project also
  proves what happens without them.
- `SaveKeychain` is durable when the callback returns; everything else in memory is lost in a crash.
- The protobuf codec decodes what it encodes (`Protocol.Faithful`).
- The server delivers consecutive positions behind the subscribed cursor, and each readable frame at a
  position carries that position's cursor.

## Where the code and its comments part ways

- A failed export leaves the send and the acknowledgement in place. `SendSafeExactlyWhenSaved`,
  `AckSafeExactlyWhenSaved` give the exact condition and `ExportFailureReuses` a run that repeats a number.
- A state read before a later save, or work before the restore, breaks the promise:
  `RestoreSafeExactlyWhenAhead`, `UnrestoredSaveForgets`.
- The acknowledgement precedes the display, so a crash between them loses a message for good:
  `LossWindow`, `NeverShownAgain`.
- A message can be shown twice: a background batch shows its messages before it saves them, and a failed
  export stops no display. `ShownNoMoreExactlyWhenSaved` gives the exact condition,
  `BatchMayShowTwice` the case in which every export succeeds.
- The cursor can move backwards although nothing below it is missing: `CursorCanMoveBack` shows it,
  `FallsExactly` and `OpeningSteadyExactly` say exactly when.
- Closing the stream keeps its parameters, so a later reconnection or authentication opens it again:
  `ClosedStreamReopens` says exactly when.
- The transaction id of a STUN response is compared at bytes 4 to 16, not 8 to 20: `ResponseParses`.
- An IPv6 address is unmasked in its first four bytes only: `Address6RoundTrip`.
- `decrypted_count` includes session starts that failed: `DecryptedCountOverstates`.
- A refused registration or authentication clears the platform's tokens but not the engine's:
  `PlatformAndEngineDisagree`. One failed automatic refresh is the last until the next grant:
  `FailedRefreshIsFinal`, `ArmedExactly`.
- The paging of a background batch has no bound: a server that answers by the cursor, of which it knows
  finitely many, is asked forever exactly if it repeats one while it announces more
  (`EndsUnlessRepeated`). `AskedForever` is such a server: more to come behind an empty cursor.
- A failed `connect` leaves the previous address on record: `AddressExactly`.
- The average latency is weighted by connections instead of samples, so it can lie below every sample:
  `FairExactly` says exactly when it does not.
- The refresh delay wraps for expiry times far in the past: `RefreshDelayExact`.
- A lower priority number is tried first; the constants of `src/p2p/ice.rs` give LAN addresses 100 and
  public ones 50, so the order is stated over the number.

## Model

| member | source | states |
|---|---|---|
| Visible.EventVisible | src/engine.rs:338-540 | Of every kind of effect (save, frame, acknowledgement, status, text, notification, session, error, retry, receipt, key offer, stream opening, completion) an event makes visible what is due for it, with the right identifiers and contents, and nothing else |
| Visible.EventLeaves | src/engine.rs:338-540 | The core, stream, healing records and stream parameters that an event leaves are those due |
| Visible.EventRanked | src/engine.rs:1079-1214 | An event saves before it sends, sends before it reports, and reports before it shows |
| VisibleRuns.RunIsDue | src/engine.rs:338-540 | On every run exactly what is due became visible, kind by kind, and the state is the one due |
| VisibleRuns.ShownExactlyWhenUsed | src/engine.rs:2083-2089 | An event shows one text exactly if it uses up the receive key of the message it brings (a session start only if it has text), with the message's own body, identifier and key |
| VisibleRuns.TextsAreBrought | src/engine.rs:1596-1602 | Over every run and crash, each text shown is the body of a message that was brought, under its own identifier and key |
| CrashSafety.NumbersNeverReused | src/engine.rs:1064-1214 | Over every run of sends, session starts, decrypts, uploads, rotations, crashes between any two effects and restores, in which messages sent on saved sessions were exported: no two frames to a contact carry the same session and message number |
| CrashSafety.NextCounted | src/engine.rs:1108-1114 | The inductive invariant: every number on the wire lies below the saved counter and below the counter in memory |
| CrashSafety.SendSafeExactlyWhenSaved | src/engine.rs:1089-1114 | After a send no lawful continuation repeats a number exactly if the state was saved, the frame did not reach the stream, or the keychain does not hold the session |
| CrashSafety.ExportFailureReuses | src/engine.rs:1089-1109 | A concrete run with one failed export after which a restart sends the same number again |
| CrashSafety.RestoreSafeExactlyWhenAhead | src/engine.rs:466-507 | After importing a blob, at a restart or later, no lawful continuation repeats a number exactly if the counters of the blob are ahead of all numbers sent |
| CrashSafety.BehindReuses | src/engine.rs:1078-1092 | With a counter at or below a number on the wire, some lawful continuation repeats that number |
| CrashSafety.EncryptKeeps | src/engine.rs:1079-1092 | The number an encryption uses is above every number sent in that session, and the counter moves past it |
| CrashSafety.InitiateCounted | src/engine.rs:1334-1416 | A session start keeps the invariant however many of its effects became visible, and whether or not its export succeeds |
| CrashSafety.RespondCounted | src/engine.rs:1883-2036 | So does the responder path |
| AckSafety.AcksAreDurable | src/engine.rs:2006-2015 | Over every run and every crash point, also inside a background batch: each message the engine acknowledged has its receive key used up in the saved state |
| Redelivery.CrashLosesNothingAcked | src/engine.rs:2051-2081 | After a crash at any point of any event, a message that memory had decrypted is used up in the saved state, or it is unacknowledged and the saved state accepts it again |
| AckSafety.AckSafeExactlyWhenSaved | src/engine.rs:1899-2081 | A received message, session start or ordinary, keeps the promise exactly when its state was saved or no acknowledgement went out |
| AckSafety.UnrestoredSaveForgets | src/engine.rs:876-894 | A key upload before the restore saves a state without sessions; the promise then survives exactly if nothing was acknowledged |
| Redelivery.LossWindow | src/engine.rs:2006-2031 | The crash points that leave a message used up but not shown, and acknowledged but not shown, exactly |
| Redelivery.NeverShownAgain | src/engine.rs:2074-2089 | A message used up in the saved state is never shown afterwards in any later life |
| Redelivery.ShownNoMoreExactlyWhenSaved | src/engine.rs:2060-2089 | An ordinary message of a saved session is shown in no continuation exactly if its receive key is used up in the keychain |
| Redelivery.BatchMayShowTwice | src/engine.rs:1598-1646 | A message decrypted in a batch is shown before it is saved, and some continuation shows it again |
| AckSafety.NextKept | src/engine.rs:2074-2081 | The inductive invariant: acknowledged keys are durable, and memory has used up whatever the keychain has |
| Redelivery.NewlyConsumed | src/engine.rs:1770-1781 | A key that an event uses up belongs to a session start whose pre-key was held, or to a message that was decryptable before |
| Redelivery.NextMatches | src/engine.rs:1632-1652 | The inductive invariant: memory runs ahead of the keychain by ordinary decrypts of the same sessions and by keys nobody was offered |
| KeySafety.OfferedKeysAreSaved | src/engine.rs:889-894 | Over every run, whichever exports fail: the keychain holds the private half of every rotated key ever offered, and of every one-time key ever offered that no session start has used up |
| KeySafety.UploadsKeyed | src/engine.rs:984-1004 | An upload or rotation, cut anywhere, never offers a key that is not saved |
| EngineSpec.ReceiptsAreReceipts | src/engine.rs:1700-1710 | A receipt's identifiers are reported one callback each, in order and nothing else |
| Resume.NoGapBelowCursor | src/engine.rs:1685-1691 | Over every run of frames, disconnections, reopenings and overlapping pumps, every position from some start up to the stored cursor was handled |
| Resume.GaplessAfterOneOpen | src/engine.rs:1025-1045 | After one opening at a known cursor that start is the cursor opened with |
| CursorOrder.FallsExactly | src/engine.rs:1685-1691 | A step lowers the stored cursor exactly if it handles a frame with a lower one, or the application opens at a lower one |
| CursorOrder.OpeningSteadyExactly | src/engine.rs:1019-1057 | After any opening or reopening, successful or not, no continuation lowers the cursor exactly if what is left of older streams lies between the stored cursor and the first frame of the new stream, and no older pump is live beside a new one |
| CursorOrder.SteadyWhenFitting | src/engine.rs:557-564 | Over every run whose openings all meet that condition the cursor never moves backwards between openings by the application |
| CursorOrder.SteadyFromStart | src/engine.rs:1685-1691 | In particular over every run from the start |
| CursorOrder.CursorCanMoveBack | src/engine.rs:1685-1691 | A run of two pumps in which the cursor returns from 6 to 5 |
| StreamLife.OpenExactlyWhenLeftOpen | src/engine.rs:256-272 | On every run the stream is open exactly if the last event that opened it was not followed by one that drops it |
| StreamLife.ClosedStreamReopens | src/engine.rs:1059-1062 | A closed stream is open again exactly if a later opening, reopening or reconnection succeeded and was not undone; closing keeps the parameters |
| StreamLife.ParamsExactly | src/engine.rs:1685-1691 | On every run the stored conversations are those of the last opening by the application, and the cursor is the one given then or received since |
| StreamLife.SubscribedExactly | src/engine.rs:268-271 | Each event that opens the stream subscribes once, to exactly these conversations, behind the stored cursor; no other event subscribes |
| Resume.StepKeeps | src/engine.rs:256-272 | The inductive invariant: the predecessor of every queued frame was handled or lies in front of it |
| Resume.SubscribeKeeps | src/engine.rs:557-564 | Reopening at a reached cursor keeps it, whatever older pumps still deliver |
| Resume.FrameCursor | src/engine.rs:1685-1691 | What a frame does to the stored cursor, exactly |
| Resume.EventCursor | src/engine.rs:1059-1062 | No other event but an opening by the application changes the stored parameters; closing keeps them |
| Healing.RetriesBounded | src/engine.rs:1919-1999 | In every order of arrivals, failures, successes and exhaustions with shared records, retries per sender are at most the limit times the arrivals and core replacements |
| Healing.AllRetriesBounded | src/engine.rs:1919-1999 | Over all senders together, retries are at most the limit times the arrivals and the pairs of a sender and a core replacement; responder runs are at most one more per arrival |
| Healing.BoundAttained | src/engine.rs:1937-1982 | One message that always fails is retried as often as the bound says |
| Healing.ForgettingUnbounds | src/engine.rs:145-158 | Replacing the core between failures makes one message be retried once per replacement, without end |
| HealingRuns.Simulated | src/engine.rs:1903-2003 | Every run of the engine is a run of the healing machine with the same records, waiting messages, retries, arrivals and core replacements |
| HealingRuns.EngineRetriesBounded | src/engine.rs:1919-2003 | Over every run of the engine's handlers, the retries scheduled for a sender are at most the limit times its session starts and the core replacements |
| HealingRuns.RetryIsHandled | src/engine.rs:1944-1982 | A retry frame, encoded, queued, decoded and routed, is handled as the same message on the responder path and leaves the cursor alone |
| Protocol.RetryReenters | src/engine.rs:1955-1981 | It comes back unchanged exactly for a nonempty sender and message number 0, and carries no cursor |
| Protocol.RoutedMessagesRetry | src/engine.rs:1722-1768 | What the stream routed to the responder path can be retried any number of times |
| Protocol.FrameReads | src/engine.rs:1669-1683 | A response that was encoded and framed is read back; a frame with a flag is skipped |
| BackgroundPush.PushIsRun | src/engine.rs:1502-1659 | Whatever the server answers, a batch that ends handles the fetched messages in order, saves once, and completes exactly once with errors reported exactly when something failed |
| BackgroundPush.BatchReport | src/engine.rs:1543-1624 | Each message falls into one class; the count is session starts plus successful decrypts, errors exactly unpacking or decrypt failures |
| BatchSafety.SaveComesLast | src/engine.rs:1632-1659 | A batch is its messages' effects, then one save of the final state if there is a core that exports, then the completion |
| BatchSafety.BatchIsDurable | src/engine.rs:1632-1652 | After a batch whose export succeeds every receive key it used up is in the keychain |
| BatchSafety.PushReports | src/engine.rs:1543-1659 | The completion counts session starts and decrypted messages as a 32-bit number, and reports errors exactly if a fetch failed, a relevant message could not be unpacked, or an ordinary one could not be decrypted |
| BatchSafety.FetchedToLast | src/engine.rs:1512-1630 | The pages up to the first last reply are fetched, completely exactly if that reply is a page |
| BackgroundPush.DecryptedCountOverstates | src/engine.rs:1566-1580 | The count exceeds the receive keys used up by exactly the session starts that failed |
| BackgroundPush.AdvancingServerEnds | src/engine.rs:1512-1630 | If the server's cursor advances, the paging ends and fetches every pending message behind the cursor once and in order, or those before the failed call |
| BackgroundPush.EndsUnlessRepeated | src/engine.rs:1512-1630 | With a server that answers by the cursor and knows finitely many, the paging ends exactly if no cursor is repeated before a last reply |
| BackgroundPush.AskedForever | src/engine.rs:1536-1541 | A server with more to come behind an empty cursor is asked forever, wherever the batch starts |
| BackgroundPush.OneMessageConsumes | src/engine.rs:1564-1624 | A counted message uses up one receive key unless it is a session start that fails |
| SendAccounting.OneStatusPerMessage | src/engine.rs:1095-1214 | Over every run each handled message gets exactly one status, SENT exactly when its frame was queued; besides these only session starts queue message frames |
| SendAccounting.EventReports | src/engine.rs:1181-1213 | The same for one event of any kind |
| SentFrames.SentMeansAccepted | src/transport/stream.rs:62-67 | Over every run of the engine with its streams: the streams accepted exactly the frames put out, in order; each wire is the subscription and a FIFO prefix; a message is reported SENT exactly if its frame was accepted right before |
| SentFrames.EventBalanced | src/engine.rs:1181-1213 | What an event puts out is what the current stream accepts, whether it stays, is dropped or is replaced |
| Engine.ConstructEngine.EventLoop | src/engine.rs:338-540 | The class run on any events from its construction on: it computes the run of the model, sends no number twice, and every acknowledged message and offered key is in the keychain |
| Engine.ConstructEngine.HandleEvent | src/engine.rs:338-540 | Every event is dispatched to the handler that the model names |
| Engine.ConstructEngine.constructor | src/engine.rs:75-107 | A new engine has the core that its configuration's keys build, and no stream, parameters or records |
| Engine.ConstructEngine.HandleSendMessage | src/engine.rs:1064-1214 | New state and effects of a send, with all failure branches |
| Engine.ConstructEngine.HandleInitSessionInitiator | src/engine.rs:1250-1425 | New state and effects of a session start, also when the begun session fails to encrypt its first message |
| Engine.ConstructEngine.HandleSessionInitResponder | src/engine.rs:1783-2038 | New state, healing record and effects of the responder path, with all failure branches |
| Engine.ConstructEngine.Heal | src/engine.rs:1919-2003 | The failed message is queued again while the record allows, otherwise the record is closed and the failure reported |
| Engine.ConstructEngine.HandleDecryptMessage | src/engine.rs:2041-2090 | New state and effects of an ordinary decrypt |
| Engine.ConstructEngine.FireReceipts | src/engine.rs:1700-1710 | One callback for each identifier of a receipt, in order |
| Engine.ConstructEngine.HandleIncomingFrame | src/engine.rs:1665-1718 | A frame's bytes are decoded, decoded again, and dispatched; unreadable ones change nothing |
| Engine.ConstructEngine.HandleUploadOtpks | src/engine.rs:847-920 | New state and effects of a key upload; a failed export stops it before the upload |
| Engine.ConstructEngine.HandleRotateSpk | src/engine.rs:954-1017 | New state and effects of a rotation; a failed export stops it before the upload |
| Engine.ConstructEngine.HandlePrivateKeys | src/engine.rs:145-158 | Usable keys build a new core, empty ones remove it, malformed ones change nothing |
| Engine.ConstructEngine.HandleOrchestratorState | src/engine.rs:466-507 | The saved state replaces that of an existing core, and its contacts are reported |
| Engine.ConstructEngine.HandlePending | src/engine.rs:1543-1624 | State, effects, count and error of one message of a batch |
| Engine.ConstructEngine.HandlePage | src/engine.rs:1543-1625 | A page's messages one after another, with the counter as a 32-bit number |
| Engine.ConstructEngine.FetchAll | src/engine.rs:1512-1630 | The paging loop ends and has processed exactly the fetched stretch |
| Engine.ConstructEngine.HandleBackgroundPush | src/engine.rs:1491-1660 | The whole batch from the first fetch to the completion |
| TokenLoop.TimerInvariant | src/engine.rs:224-290 | At every select point an armed timer was set from the stored token state, no token change is unseen, and automatic refreshes are at least 10 seconds apart |
| TokenLoop.BearerMatchesGrant | src/engine.rs:669-670 | Across all token calls in any order, a stored refresh state belongs to the grant whose access token is the bearer |
| TokenLoop.LedgerExactly | src/engine.rs:662-817 | On every run the bearer is the last grant's, none after a logout, the configured one before; the refresh state is the last grant's until a logout or refused refresh; the platform is told of each grant, completed registration, refusal and logout |
| TokenLoop.FiresExactly | src/engine.rs:224-254 | On every run automatic refreshes are made exactly by the turns that reach the deadline of an armed timer, which was set when the last grant came |
| TokenLoop.ArmedExactly | src/engine.rs:224-254 | On every run the timer is armed exactly while a refresh state is stored, except after an automatic refresh that failed without being refused, until the next grant |
| TokenLoop.FailedRefreshIsFinal | src/engine.rs:245-254 | Once the timer is off it stays off exactly as long as no call brings a grant |
| TokenLoop.PlatformAndEngineDisagree | src/engine.rs:690-693 | On every run the engine stores a refresh state while the platform holds no tokens exactly if a registration or authentication was refused while it was stored, and since then there was no grant, refused refresh or logout |
| TokenLoop.RefreshDelayExact | src/engine.rs:297-305 | The 64-bit delay is 300 seconds before expiry and at least 10, exactly outside the range of expiry times that wraps |
| TokenLoop.SecsUntilRefresh | src/engine.rs:297-305 | Never sooner than ten seconds |
| TokenLoop.Engine.constructor | src/engine.rs:194-222 | The loop starts with the configured bearer, no refresh state and the timer off |
| TokenLoop.Engine.EventLoop | src/engine.rs:224-290 | The class run on any turns computes the run of the model, and at its select points timer, token and bearer agree |
| TokenLoop.Engine.HandleRegister | src/engine.rs:662-695 | Tokens, bearer and callbacks after each outcome of a registration, its completion among them |
| TokenLoop.Engine.HandleRefreshToken | src/engine.rs:766-801 | The same for a refresh; a refusal removes the stored state |
| Connectivity.StatesAlternate | src/engine.rs:256-273 | Over every run the connection callbacks alternate, start with connected, and never end on disconnected at a select point |
| Connectivity.WaitedClosedForm | src/engine.rs:307-336 | A phase with n failures waits 2^n - 1 seconds up to n = 6 and 63 + 60(n - 6) beyond |
| Connectivity.LossesNeedClosings | src/engine.rs:256-261 | Over every run the losses announced, and one still unseen, are at most the drivers that closed |
| Connectivity.AnnouncedExactly | src/engine.rs:256-273 | Over every run the platform is told of the first phase, and of each loss that a waking meets with the phase that repairs it; the channel holds true unless a driver closed since the last dialling or waking |
| Connectivity.LossIsRepaired | src/engine.rs:256-273 | A driver that closes with no redial behind it is announced by the next waking, followed by each retry and the connection |
| Connectivity.LossesExactly | src/engine.rs:257-261 | The losses announced are exactly the wakings that meet a connection that is down |
| Connectivity.Link.EnsureConnected | src/engine.rs:312-336 | The backoff loop announces and waits the delays of the phase, then connected, and publishes it |
| Connectivity.Link.OnWatchChanged | src/engine.rs:256-273 | The disconnect branch over a channel that merges unseen changes |
| Grpc.EncodeFrame | src/transport/grpc.rs:21-27 | The frame of a message: flag 0, four length bytes, the message |
| Grpc.DecodeFrame | src/transport/grpc.rs:31-57 | Stepwise consumption agrees with the decoder function in every branch |
| Grpc.DecodeEncoded | src/transport/grpc.rs:21-57 | Decoding an encoded message followed by anything returns both exactly for messages shorter than 2^32 bytes; a longer one is cut |
| Grpc.CompressedRefused | src/transport/grpc.rs:39-44 | A frame is refused as compressed exactly when its flag is not zero |
| Grpc.FrameFormat | src/transport/grpc.rs:21-27 | The frame byte by byte: flag, four length bytes with the most significant first, message |
| Grpc.DecodeRefusals | src/transport/grpc.rs:31-53 | Which bytes are refused as too short, compressed or incomplete, exactly |
| MessageStream.ChunksDoNotMatter | src/transport/stream.rs:202-221 | For every cut of a byte stream the pump delivers its framing: frames and rest concatenate to the stream and the rest holds no frame; this equals splitting it at once |
| MessageStream.FramingUnique | src/transport/stream.rs:207-221 | A stream has only one framing |
| MessageStream.FeedKeepsFraming | src/transport/stream.rs:202-221 | A chunk extends the framing of what came before |
| MessageStream.FramesArriveIntact | src/transport/stream.rs:207-221 | Frames with any flags, cut anywhere, come out unshifted; each unflagged one decodes to its body, each flagged one is refused |
| MessageStream.MessagesRoundTrip | src/transport/grpc.rs:21-57 | A list of messages survives encoding, any chunking, reassembly and decoding, in order, with nothing left |
| MessageStream.WireIsFifoPrefix | src/transport/stream.rs:149-199 | Over every run of a stream the wire holds the subscription and then a first-in first-out prefix of the accepted frames, the rest being queued while the pump runs |
| MessageStream.TakenExactly | src/transport/stream.rs:62-67 | A pump takes each frame offered while it runs and has room for it, runs until it is stopped or a write fails, and puts the next frame on the wire with each successful write |
| MessageStream.WriteAllMeaning | src/transport/stream.rs:181-199 | The drain writes the whole queue, or up to the failing frame, which is lost |
| MessageStream.Pump.constructor | src/transport/stream.rs:136-160 | The subscription is on the wire before the pump exists |
| MessageStream.Pump.SendFrame | src/transport/stream.rs:62-67 | A frame is queued exactly if the pump still runs |
| MessageStream.Pump.DrainOutgoing | src/transport/stream.rs:181-199 | The drain loop, with write failures and a dropped handle |
| MessageStream.Pump.Receive | src/transport/stream.rs:202-221 | The nested reassembly loop adds exactly the frames of buffer and chunk |
| MessageStream.Pump.Turn | src/transport/stream.rs:180-236 | One turn: outgoing first; incoming only if the pump survived; the pump ends with the server's side or a receive error |
| Stun.ResponseParses | src/p2p/stun.rs:133-189 | For an RFC-laid-out response, cut anywhere: with the documented id position the answer is that of the first mapped attribute; as written that holds only if the id is the cookie three times, and otherwise it is refused |
| Stun.StunRoundTrip | src/p2p/stun.rs:133-252 | The address and port of the first mapped IPv4 attribute come back |
| StunVectors.SampleParses | src/p2p/stun.rs:133-252 | A literal response with the sample address of RFC 5769 parses to it |
| StunVectors.SampleRefused | src/p2p/stun.rs:148-151 | With the id looked for at byte 4 that response is refused exactly unless the id is the cookie three times |
| StunVectors.SamplePlain | src/p2p/stun.rs:192-229 | A literal MAPPED-ADDRESS value parses to the sample address |
| StunVectors.PlainAddress6RoundTrip | src/p2p/stun.rs:230-249 | A plain IPv6 value comes back with its port |
| StunVectors.MaskedAddress6 | src/p2p/stun.rs:238-245 | An XOR-mapped IPv6 value is unmasked in its first four bytes and nowhere else |
| StunVectors.XorBits | src/p2p/stun.rs:213-219 | The masking is exclusive or, bit by bit |
| StunVectors.MappedKinds | src/p2p/stun.rs:171-173 | The attribute types 0x0001 and 0x0020, and no others, carry an address |
| StunVectors.Refusals | src/p2p/stun.rs:138-188 | Which response is refused as too short, of another type, of another transaction, or without address, exactly |
| StunVectors.AddressRefusals | src/p2p/stun.rs:193-250 | Which address value is refused as too short or of unknown family, exactly |
| Stun.FirstMappedIsChainEnd | src/p2p/stun.rs:156-186 | On any bytes the walk finds an attribute exactly when a chain of readable unmapped ones leads to it |
| Stun.WalkFindsFirst | src/p2p/stun.rs:156-186 | On an encoded list cut anywhere the walk finds the first mapped attribute if its value arrived |
| Stun.FoundMeaning | src/p2p/stun.rs:162-184 | That attribute is the first mapped one of the whole list, provided its value arrived in full |
| Stun.PaddingFormula | src/p2p/stun.rs:183-185 | The code's formula for the padding is the distance to the next multiple of four |
| Stun.MappedIndex | src/p2p/stun.rs:172-173 | The least index of a mapped attribute |
| Stun.Address4RoundTrip | src/p2p/stun.rs:197-229 | An IPv4 value of either kind decodes to its address and port |
| Stun.Address6RoundTrip | src/p2p/stun.rs:230-249 | An XOR-mapped IPv6 value decodes to its address exactly when the transaction id is all zero |
| Stun.PrintedInjective | src/p2p/stun.rs:225-228 | The decimal text determines address and port |
| Stun.HeadFields | src/p2p/stun.rs:125-132 | Where the documented layout puts type, length and id, and what lies at bytes 4 to 16 |
| Stun.BuildBindingRequest | src/p2p/stun.rs:107-123 | The request: 20 literal bytes but for the id, which comes last |
| Stun.ParseBindingResponse | src/p2p/stun.rs:133-189 | Total on every byte string, and equal to the recursive parser with the id at 4 |
| Stun.ParseMappedAddress | src/p2p/stun.rs:192-252 | Equal to the parser of an address value in every branch |
| Stun.DecodeInPlace | src/p2p/stun.rs:213-219 | The first four bytes are unmasked in place and the others kept |
| P2PConnection.Connection.ConnectTo | src/p2p/quic_p2p.rs:89-131 | Candidates are tried in the stable priority order up to the first that answers; success exactly if one answers, and the winner's address is recorded |
| P2PConnection.Connection.TryConnect | src/p2p/quic_p2p.rs:134-193 | The address is recorded on an answer only |
| P2PConnection.Connection.CloseLink | src/p2p/quic_p2p.rs:302-306 | Closed, with no address |
| P2PConnection.Connection.ReconnectTo | src/p2p/quic_p2p.rs:309-322 | Closing, then connecting anew |
| P2PConnection.AttemptOrder | src/p2p/quic_p2p.rs:98-100 | A permutation of the input in nondecreasing priority, stable |
| P2PConnection.AttemptOrderUnique | src/p2p/quic_p2p.rs:98-100 | No other permutation is stable and sorted |
| P2PConnection.OrderIsStableSort | src/p2p/quic_p2p.rs:98-100 | Every candidate is tried once, lower numbers first, equal numbers as given |
| P2PConnection.WinnerIsFirst | src/p2p/quic_p2p.rs:103-121 | The first answering candidate of the order is the only one that precedes all others that answer |
| P2PConnection.WinnerExists | src/p2p/quic_p2p.rs:103-131 | Some candidate wins exactly if some candidate answers |
| P2PConnection.ConnectedKnowsPeer | src/p2p/quic_p2p.rs:89-131 | Over every history of calls, connected exactly after a call with a winner, whose address is on record; closed means no address |
| P2PConnection.AddressExactly | src/p2p/quic_p2p.rs:178-182 | Over every history, an address is on record exactly if some call succeeded after which only calls of connect failed, and it is that call's winner's |
| P2PConnection.StateExactly | src/p2p/quic_p2p.rs:89-131 | The state after a history, by its last call |
| P2PConnection.Connection.Replay | src/p2p/quic_p2p.rs:89-322 | The class run on any calls computes the history of the model, and its address is on record exactly then |
| P2PManager.AttemptsAccounted | src/p2p/manager.rs:378-434 | Under every interleaving the success counters agree, and started attempts are the direct ones, the relay fallbacks and those under way |
| P2PHistory.CountedByOutcome | src/p2p/manager.rs:378-423 | Over every interleaving the connections counted, besides manual ones, are the attempts whose probe was answered and whose counter section ran, and the fallbacks those whose probe failed |
| P2PHistory.HandoffsCounted | src/p2p/manager.rs:233-237 | Every call that initiates a handoff is counted once, when its counter section runs |
| P2PHistory.PeerExactly | src/p2p/manager.rs:214-231 | A tracked peer holds the candidates offered last, the latency measured last, and the status set last; a task sets Connected exactly if its probe was answered |
| P2PHistory.AttemptRuns | src/p2p/manager.rs:328-435 | A handoff with candidates left to itself ends after seven sections: connected and counted as a connection, or failed and counted as a fallback, as its probe ended |
| P2PHistory.AttemptWithoutCandidates | src/p2p/manager.rs:350-353 | Without candidates nothing is probed and nothing is counted |
| P2PHistory.ConnectionsExactly | src/p2p/manager.rs:362-366 | A connection is kept for a peer exactly if an attempt on it got that far |
| P2PManager.QuietCounters | src/p2p/manager.rs:378-434 | Once all have finished the counters account for every attempt |
| P2PManager.TasksNeverRecreatePeers | src/p2p/manager.rs:464-468 | A peer is tracked exactly if a handoff named it after its last removal; attempts never bring it back |
| P2PManager.AverageBounded | src/p2p/manager.rs:507-513 | The average latency stays between zero and the largest sample under every interleaving |
| P2PLatency.FairExactly | src/p2p/manager.rs:507-513 | It is at every moment at least the smallest sample exactly if the first sample met at most one established connection, or was zero |
| P2PLatency.SampleWeighs | src/p2p/manager.rs:507-513 | A sample enters the average with weight one against all connections but one |
| P2PManager.Manager.Interleave | src/p2p/manager.rs:206-530 | The class run on any interleaving of calls and tasks computes the run of the model, and its own counters, peers and average keep what is proved of it |
| P2PManager.StepAccounted | src/p2p/manager.rs:328-435 | The accounting is kept by every section of every call and task |
| P2PManager.Manager.UpdatePeerLatency | src/p2p/manager.rs:491-513 | The peer's latency and then the average are updated |

## Left out

- QUIC, TLS, DNS and H3 (src/transport/connection.rs, `connect_h3`, `do_unary_call`): a call is an oracle that answers or fails, a connection attempt one that succeeds or does not.
- The internals of construct-core (X3DH, Double Ratchet, key encodings, proof of work, the healing queue's delays): see the assumptions; a heal record is its number of attempts.
- Protobuf encodings: an encoder and a decoder that undoes it.
- The contents of sealed-sender envelopes in Ghost mode: a flag on the frame; the branch changes neither state nor order of effects.
- Two threads calling into the engine at once: events are handled one after another, as the loop does; `init_core_from_keys` called from outside the loop is an event between two others.
- The public key material, signatures and challenge of registration and authentication: only the reply's outcome matters to the state modelled.
- Fields that callbacks and frames only pass on (timestamps, conversation ids, notification previews, server counts): not part of the effects.
- The bound of the event channel and events dropped when it is full: runs are over the events that were handled.
- Time inside a connect phase, tokio's scheduling and the largest representable timer deadline: time is a number that only grows.
- An expiry subtraction that overflows in a build with overflow checks: the wrapping of a release build is modelled.
- The search for users, push registration, pre-key counts and bundles, call signals, logging of direct-connection events: no state and no order of effects.
- `GrpcStatus`, `parse_grpc_trailers`, `CandidateType`, `should_use_p2p`, request headers: finite tables or single branches.
- The half-closing of a stream (`finish`) and what the server does with it: the pump stops.
- The text of an IPv6 address, printed by the standard library: an IPv6 answer is its bytes and its port.
- The random transaction id and the socket exchange of a STUN query: the id and the response are parameters.
- Parsing of candidate addresses, sockets and timeouts: an attempt on a candidate succeeds or fails.
- Round-trip measurements and byte counters of a connection: additions under a lock.
- Retry scheduling in the manager, which is a stub.
- P2PManager.AverageBounded: over reals, not 64-bit floats, because a rounding error of the mean is not the point; P2PLatency.FairExactly likewise.
- P2PManager.Manager.UpdatePeerLatency: keeps the average as a real number, for the same reason.
- P2PManager.AttemptsAccounted: unbounded counters, because a 64-bit overflow is out of reach.
- P2PManager.TasksNeverRecreatePeers: says nothing about `connections`, because removing a peer leaves its connection in that map.
- Stun.StunRoundTrip: for IPv4, because the code unmasks IPv6 with the cookie alone; `Address6RoundTrip` says exactly when that is enough.
- Resume.NoGapBelowCursor: cursors are positions, because the server's cursor text is opaque to the client.
