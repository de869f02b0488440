# A model of the Go audit client

This project models the audit client of microsoft/go-otel-audit in Dafny and proves properties of the model.
It covers three parts of the repository.

1. **The delivery protocol** of `audit.Client` and `audit.msgSender`. Many `Send` calls feed a bounded queue; one
   sender drains it, writes to a connection, requeues what failed and adds heartbeats; a manager replaces senders that
   end; a deferred start serves with a no-op sender first; a channel of two notices reports errors and, once, the death
   of the client.
2. **Marshalling and cloning of records.** `marshalPrep` sorts and compacts slices whose backing arrays are shared
   with the caller and with the copy that is requeued after a failed write; `Record.Clone` copies maps and slices that
   are references.
3. **The enum codec**: packed name tables, the lookup that ignores letter case, and the decoders that drop one
   MessagePack header byte or trim quotation marks.

`dafny verify dfyconfig.toml` checks the whole project.

## How the protocol is modelled

`Protocol.dfy` is a state machine. One event is one atomic action of one goroutine: the dead check and the `TryPut` of
a `Send` are separate, and so are a sender's dequeue, the outcome of its write, the requeue or drop, the notice and the
heartbeat, and each step of the manager. What `create` and `conn.Write` return, whether a background task could be
started, and when the closers finish and the consumer of `Notify()` reads are part of the events. So a list of enabled
events is a run with any interleaving and any outcomes, and `Reachable` means reachable by some run. `History` records
what happened; no step depends on it.

`Client.dfy` and `MsgSender.dfy` are the Go code again as classes with the fields of the Go structs. Every method
updates those fields statement by statement, commits each atomic action as one event, and calls `Interfere` between
them, which lets the other goroutines take any number of steps. A valid client is therefore always in a reachable
state, and everything proved about reachable states holds between any two atomic actions of any method.

| file | content |
|---|---|
| `Notices.dfy`, `Protocol.dfy`, `Frames.dfy` | the notifier channel, the state machine, and what each kind of event leaves alone |
| `Control.dfy`, `Death.dfy` | one consumer at a time, the handoff; causes of death, the death notice, closers, life after death |
| `Ledger.dfy`, `Accounting.dfy`, `Logs.dfy`, `Heartbeats.dfy` | the message ledger, metrics and notices, counters against connections, the heartbeat grammar |
| `Delivery.dfy`, `Service.dfy`, `Failing.dfy`, `Recovery.dfy` | delivery order, what a failed write costs, how fast a working connection delivers, repeated failure, recovery |
| `Interference.dfy`, `Client.dfy`, `MsgSender.dfy` | the code of the client and of the sender |
| `Records.dfy`, `Slices.dfy`, `Normalise.dfy`, `Marshal.dfy` | validation, sorting and compacting in place, one message marshalled again and again |
| `Sharing.dfy`, `Wire.dfy` | messages and callers that share arrays, what a run of the client puts on the wire |
| `Clone.dfy`, `Edits.dfy` | cloning; edits of a clone and of its original |
| `Enums.dfy`, `EnumTables.dfy` | the codec in general, and the four tables |

## What is assumed of the libraries

- `chans.TryPut` and `chans.TryGet` do not block. On a channel without a buffer `TryPut` is taken never to find a
  waiting reader; New always gives the notifier a buffer of two.
- `Backoff.Retry` runs the operation again until it returns nil or an error that wraps `ErrPermanent`; outside tests
  its context is never cancelled.
- `Tasks.Once` runs its function at most once, and not at all if it returns an error.
- `slices.Sort` leaves an ascending permutation; `slices.Compact` keeps one of each run of equal elements and zeroes
  the freed tail, as Go does since 1.22.
- MessagePack strings are written with the shortest header of the `str` format family of the MessagePack
  specification; `Enums.AnyEncoding` says what becomes of strings that others encode with a longer one.

## Where the code and its documentation differ

- The documentation of `ErrClientDead` and of the connection manager says that a client dies because connections do
  not close (audit/audit.go:39, audit/audit.go:341-344). In the code the guard against too many closers can never
  fire: a closer is only started for a connection that is rejected for good, so at most one ever is, and none while
  reconnect looks. `Death.ClosersGuardNeverFires` states this; every death has a permanent failure to create a sender
  as its cause.
- `marshalPrep` is said to remove duplicates (audit/msgs/msgs.go:102-103). It does so only the first time it meets an
  array. It compacts in place and keeps the shorter header to itself, so every other header on the array, the caller's
  and the requeued message's included, still has its old length and now sees zero values where the duplicates were.
  Whatever is marshalled from the array after that sends an additional zero value: the retry of a failed write
  (`Marshal.RetrySendsTheSame`, `Marshal.RetryStaysValid`), but without any failed write also the same message sent
  again, and the first attempt of another message built from the same slices, as the package comment recommends for
  static templates (audit/msgs/msgs.go:17-18). `Sharing.MarshalEach`, `Sharing.SendBeside` and
  `Sharing.BesideSendsTheSame` say what is then sent and exactly when it differs; `Sharing.Resend` says exactly when
  Send refuses the caller's own record the second time; `Marshal.DuplicatedLevelFails` and `Sharing.TwoFromOneTemplate`
  are valid records for which it happens, the second one with every write succeeding. A header that covers only the
  beginning of what is marshalled is harmed even without duplicates: once the whole was sorted it sees other elements, so
  its message names a category or an access level that it never had (`Sharing.ShorterSendsAnother`).
  `Sharing.ShorterHeader` says exactly when. `Wire.OwnRecordsSent` and `Wire.SentAsValidated` say what all this means
  for the records that a run of the client puts on the wire.

## Model

| member | source | states |
|---|---|---|
| Ledger.EachMessageInOnePlace | audit/msgsender.go:119-203 | In every reachable state each accepted message is exactly once among written, dropped on a failed requeue, swallowed by a no-op connection, queued and held by a sender; nothing else is anywhere; the queue never exceeds its size, requeues included |
| Ledger.OnlyUserTypesQueued | audit/audit.go:511-523 | Only DataPlane and ControlPlane messages are queued, write is called with those or a heartbeat, and the diagnostic and unknown-type branches are never taken |
| Control.SingleConsumer | audit/audit.go:318-335 | At most one sender, no-op or real, can receive from the send channel |
| Control.StartsAlone | audit/audit.go:351-370 | A sender starts only when every earlier one has returned, and none that returned runs again |
| Control.HandoffTakesAtMostOne | audit/audit.go:327-328 | After cancelNoop the no-op sender takes at most one more message; no other sender is ever cancelled |
| Control.NoCleanEnd | audit/audit.go:356-361 | manageSender's branch for a sender that ended without an error is never taken |
| Death.DeathIsAnnounced | audit/audit.go:404-408 | A dead client has offered exactly one death notice, naming the last and permanent failure; it was never evicted, and it is in the channel or was read exactly if the channel has a buffer |
| Death.AtMostOneDeathNotice | audit/audit.go:552-570 | At most one death notice per client, and only once sendNotifyDead has finished |
| Death.OnlyTheReaderTakesIt | audit/audit.go:486-492 | Once in the channel, also before the client is marked dead, the death notice is taken out only by a read |
| Death.DeathNoticeCost | audit/audit.go:563-569 | Nothing is evicted before the client is dying; then no more notices than there were failed puts, so at most one more than the closers running at its start, and at most two |
| Death.TwoEvictionsHappen | audit/audit.go:548-551 | That bound is reached: a run in which a closer takes the room made, so that two puts fail and two notices go |
| Death.DeathLoopIsShort | audit/audit.go:548-569 | Failed puts of the death notice are at most one more than the closers running at its start, so at most two |
| Death.LoopFailsAtMost | audit/audit.go:548-551 | The same bound from any state with any number of closers, any capacity and any behaviour of the reader |
| Death.ClosersGuardNeverFires | audit/audit.go:392-394 | At most one closer is ever started, and then for a permanent failure; none runs when reconnect looks, and the guard is never the cause of a death |
| Death.AcceptedAfterDeath | audit/audit.go:504-528 | clientDead is never reset; after it, at most one message is accepted for each Send that had passed the dead check, and no new Send passes it |
| Death.StrandedAfterStop | audit/audit.go:366-369 | After the manager has stopped nothing leaves the queue |
| Death.LateSendIsAccepted | audit/audit.go:505-523 | A run in which a dead client accepts a message, for a client as New makes it |
| Accounting.MetricIdentities | audit/msgsender.go:156-203 | With no error counted and unsettled: errors = requeued + dropped on error + heartbeats lost on error; dropped = dropped on error + swallowed; sent = user messages + heartbeats written to real connections |
| Logs.CountersMatchLogs | audit/msgsender.go:156-203 | In every reachable state the counters are sums over the senders: sent is what real connections were written, messages and heartbeats; what no-op ones were written is counted as dropped; errors are the failed writes |
| Accounting.NoticeLedger | audit/audit.go:531-586 | Offered notices = read + in the channel + dropped + evicted; the channel keeps its capacity; one notice per failed attempt of reconnect, in order |
| Heartbeats.HeartbeatGrammar | audit/msgsender.go:119-153 | A connection's successful writes are a prefix of: user message, heartbeat, any mix; the ticker is set exactly when a heartbeat got through; at most one write fails |
| Heartbeats.FailureIsLast | audit/msgsender.go:95-111 | After a failed write a connection is never written to again |
| Delivery.DeliveredInOrder | audit/msgsender.go:134-137 | Without requeue, drop or no-op connection: written, then held, then queued messages are the accept sequence |
| Delivery.LostOnlyToAThief | audit/msgsender.go:168-174 | A failed message is dropped exactly when messages accepted since it was dequeued fill the queue, hence at least one |
| Service.StepsDeliver | audit/msgsender.go:94-153 | In any run without a failed write the sender of a real connection keeps serving, messages are written in turn, and its own steps are exactly three for each message and each tick, up to the round it is in and the first heartbeat |
| Service.FirstAreDelivered | audit/msgsender.go:94-153 | So once it has made more than three steps for each message held, each of the first n queued and each tick it saw, those messages have been written, in order |
| Delivery.FailuresOnlyRotate | audit/msgsender.go:162-174 | Over any stretch without accepts and deliveries, whatever fails: what is held and queued is rotated once per requeue counted, and nothing is lost |
| Delivery.FailuresCutTheQueue | audit/msgsender.go:168-171 | With nothing held before and after, k requeues leave a queue of n messages cut at k mod n |
| Failing.FirstWritesFail | audit/audit.go:351-370 | For every k there is a run that uses up k connections: the serving one and every one started after it, except the last, fails at its next or first write and writes nothing more; k requeues are counted and the queue is rotated k times |
| Recovery.HopefulDelivers | audit/audit.go:373-379 | From every reachable state of a client that can still get a real connection there is a way on, without new Sends, in which every queued message is written to a real connection and only a message already held may be dropped |
| Recovery.HopelessWritesNothing | audit/audit.go:351-370 | From every other reachable state (dead or dying, no manager, served by a no-op connection of the user's, not linux) no run writes a user message to a real connection again |
| Recovery.NeverWedged | audit/audit.go:373-379 | So a reachable client with messages in its queue can still deliver them all exactly if it can still get a real connection |
| Recovery.WritesAgainIffHopeful | audit/audit.go:373-379 | And whatever is queued, some run writes one more user message exactly if it can |
| Client.Client.constructor | audit/audit.go:225-248 | A new client is in the initial state |
| Client.Client.Send | audit/audit.go:504-528 | ErrClientDead exactly if dead at the check, and then the death notice has landed; ErrValidation exactly if the type or the stamped record is invalid; neither changes anything. Otherwise only others have moved until the put; then it is accepted exactly if there is room in the queue, and is the newest accepted and last in the queue, or it is refused and queue and log stay as they were |
| Client.SendOn | audit/audit.go:504-507 | A nil client is refused like a dead one; any other answers as Send does, for the same type and record, with the same effect on the queue |
| Client.Client.SendNotify | audit/audit.go:530-540 | The notice is put, or dropped if the channel is full |
| Client.Client.SendNotifyDead | audit/audit.go:542-570 | The loop ends under interference, the death notice lands exactly once, and failed puts are bounded by the closers |
| Client.Client.TryPutDead | audit/audit.go:563 | One try to put the death notice: it lands exactly if there is room, and a failed try changes nothing but is counted |
| Client.Client.EvictOldest | audit/audit.go:564-568 | The eviction takes the oldest notice out of the channel, or nothing if the reader has emptied it, and leads back to the try |
| Client.Client.NewSender | audit/audit.go:412-439 | The error of create is passed on as it is; a connection is rejected exactly if it is a real one outside linux or the sender cannot be made, and exactly then a closer starts |
| Client.Client.Attempt | audit/audit.go:391-402 | One run of the retried operation: the guard, createSender, and where the manager goes on |
| Client.Client.ReportFailure | audit/audit.go:397-400 | A failed attempt offers one notice, with its own error; only a permanent failure ends the retry |
| Client.Client.Die | audit/audit.go:404-408 | The client ends dead, and in the state just before the flag was set the death notice had already landed |
| Client.Client.AttemptOnce | audit/audit.go:389-409 | One attempt: an error that can be retried is, a success gives a sender on that connection, and any other failure ends in the death of the client with that error; one notice for each failure |
| Client.Client.Reconnect | audit/audit.go:373-410 | For every sequence of outcomes: one notice per failed attempt in order, one death notice and the dead flag exactly at a first permanent failure, a sender exactly at a first success |
| Client.Client.ManageOnce | audit/audit.go:351-370 | One round: exactly one sender more, on the connection the manager holds, which then still runs, or has ended, by a failed write if it was started; then the manager goes on as the outcomes of create decide: with a new sender to start, retrying, or stopped and dead |
| Client.Client.ManageSender | audit/audit.go:341-371 | manageSender, round by round: one sender more in each, on the connection the round before has got; each but the last has ended, with a failed write if it was started; it uses every round given unless one did not end in a new connection, waits only for a sender that still runs, retries only if no outcome given decides, and returns only because the client is dead |
| Client.Client.DeferredConnect | audit/audit.go:313-335 | Until reconnect decides the no-op sender is the only sender and not cancelled; then it is cancelled and the handoff waits only while its loop runs; once that is over a permanent failure stops the manager and a connection is handed to manageSender, which runs the rounds given, beginning with a sender on that connection; it returns only because the client is dead |
| Client.Client.StopNoop | audit/audit.go:327-328 | The handoff is over exactly if the no-op sender has returned, and then no sender runs and the manager goes on as reconnect has decided |
| Client.Client.HandOver | audit/audit.go:324-335 | The end of deferredConnect: the sender of the connection that reconnect has got is started after the no-op sender has ended, never before and never not at all |
| Client.Client.StartConnManager | audit/audit.go:257-273 | New returns a client exactly if create opens a connection that can be used, or fails with an error that can be retried and the connection may be deferred, and senders can be made; the right background task then starts, or none |
| Client.Client.LaunchTask | audit/audit.go:276-311 | The client is published whether or not its background task could be started |
| MsgSenders.MsgSender.Write | audit/msgsender.go:155-203 | Others run during conn.Write; it succeeds exactly if the connection is a no-op one or takes the message; then the sender, the counters and the history change as one write; otherwise the loop is over with one failure more, nothing was logged as written, and a user message is queued again or counted as lost |
| MsgSenders.MsgSender.CountWritten | audit/msgsender.go:185-202 | A written message is counted as sent, or by its type as dropped on a no-op connection |
| MsgSenders.MsgSender.Fail | audit/msgsender.go:162-183 | A failed write adds one failure, writes nothing and ends the loop with an error |
| MsgSenders.MsgSender.Settle | audit/msgsender.go:167-181 | The switch that requeues a user message if there is room and counts a drop otherwise |
| MsgSenders.MsgSender.Report | audit/msgsender.go:182-183 | The failure is offered to the notifier and the loop ends |
| MsgSenders.MsgSender.ServiceMsg | audit/msgsender.go:115-153 | The select blocks exactly if the context is live, the queue is empty and no ticker is set; otherwise it takes a ready branch, the one picked if that is ready. Served means one message, a first message with its heartbeat, or one heartbeat, and a ticker that is set; a broken sender has returned an error after one failed write; a cancelled one has stopped |
| MsgSenders.Choose | audit/msgsender.go:130-152 | A select without a default: it takes some ready branch, any of them, and waits exactly if none is |
| MsgSenders.MsgSender.Serve | audit/msgsender.go:131-152 | What each branch does: the end, a message with perhaps a first heartbeat, or a heartbeat; and that it breaks only if the connection refuses a write |
| MsgSenders.MsgSender.ServiceUser | audit/msgsender.go:134-145 | A user message is written, with a heartbeat after it if it was the first; it fails exactly if a real connection refuses one of these writes |
| MsgSenders.MsgSender.ServiceTick | audit/msgsender.go:146-152 | A tick writes one heartbeat, and fails exactly if a real connection refuses it |
| MsgSenders.MsgSender.Receive | audit/msgsender.go:134 | The head of the queue goes to the sender |
| MsgSenders.MsgSender.Run | audit/msgsender.go:94-111 | The loop makes every round it is given, each of which writes, unless it ends broken, which takes a refused write and adds one failure, or cancelled, or waits with an empty queue, no ticker and a live context |
| Records.ValidateIdentities | audit/msgs/msgs.go:630-637 | An identity list passes exactly if it is not empty and every entry has an identity and a description |
| Records.ValidateResources | audit/msgs/msgs.go:668-675 | A resource list passes exactly if its type is not blank and every entry has a name |
| Records.RangeIdentities | audit/msgs/msgs.go:629-638 | The loop over the identities passes exactly if every list does, in any order |
| Records.RangeResources | audit/msgs/msgs.go:667-676 | The loop over the resources passes exactly if every list does, in any order |
| Records.Validate | audit/msgs/msgs.go:589-679 | The first violated check, in the order of the code, is reported; a record passes exactly if it violates none |
| Records.BlankMeans | audit/msgs/msgs.go:658-668 | What TrimSpace leaves empty: strings of tabs, line and page breaks and spaces |
| Records.VerdictIsUnique | audit/msgs/msgs.go:629-676 | The verdict depends on the record alone, not on the order in which the maps are ranged over |
| Slices.Sort | audit/msgs/msgs.go:123-125 | Sorting in place leaves an ascending permutation and nothing else changed |
| Slices.Squeeze | audit/msgs/msgs.go:124-126 | The loop from the first repeated element on keeps one of each run, in place, and changes nothing beyond the slice |
| Slices.Compact | audit/msgs/msgs.go:124-126 | Compacting in place keeps one of each run, zeroes the freed tail and changes nothing beyond the slice |
| Normalise.PayloadProperties | audit/msgs/msgs.go:122-126 | What is sent is strictly ascending with exactly the elements of the list, and shorter exactly if there were duplicates |
| Normalise.LeftElements | audit/msgs/msgs.go:123-126 | The header given to marshalPrep then sees the same elements, and the zero value exactly if there were duplicates |
| Normalise.SecondPayload | audit/msgs/msgs.go:121-127 | A second marshalling sends the same list exactly if there were no duplicates or the zero value was in it; otherwise the zero value and then the list |
| Normalise.LaterPayloads | audit/msgs/msgs.go:121-127 | Every later marshalling sends what the second sent |
| Marshal.SortCompact | audit/msgs/msgs.go:123-126 | Sort and Compact on one slice: the payload and what stays behind the header |
| Marshal.MarshalPrep | audit/msgs/msgs.go:113-146 | Which types have a record in the payload and which are refused; the payload is the message, of its type, with both lists normalised on the shared arrays and nothing else changed; the given message is scrubbed |
| Marshal.StringLeqMeans | audit/msgs/msgs.go:125-126 | The order in which access levels are sorted: a beginning before the whole, and otherwise the first difference decides, by the code of the character |
| Marshal.MarshalTimes | audit/msgs/msgs.go:121-127 | What a message's headers see after any number of marshallings of it, and that nothing beyond them changes |
| Marshal.DeliverAfter | audit/msgsender.go:162-171 | What is sent, of which type, after any number of failed attempts of the same message |
| Marshal.FirstPayloadKeepsChecks | audit/msgs/msgs.go:121-127 | The payload violates exactly the checks that the record violates as its headers see it when it is marshalled |
| Marshal.RetrySendsTheSame | audit/conn/internal/writer/writer.go:31-43 | A valid record whose arrays were marshalled before is sent as at first exactly if categories (unless 0 is among them) and access levels have no duplicates; all later attempts send the same |
| Marshal.SeenStaysValid | audit/msgs/msgs.go:653-661 | The record left behind the headers of a valid one is valid exactly if its access levels had no duplicates; otherwise there is an empty access level in it |
| Marshal.RetryStaysValid | audit/msgs/msgs.go:653-661 | A retried valid record is still valid exactly if its access levels have no duplicates; otherwise an empty access level is sent |
| Marshal.DuplicatedLevelFails | audit/msgs/msgs.go:653-661 | A valid record with a repeated access level whose retry is invalid |
| Sharing.SendBeside | audit/msgs/msgs.go:121-127 | What a message sends, type and record, at its first attempt after another one was marshalled k times, for any arrays and lengths their headers have |
| Sharing.LongerHeader | audit/msgs/msgs.go:123-126 | A list sends the same after a header on its array, not longer, was marshalled exactly if that had no duplicates or the zero value is in the list |
| Sharing.ShorterHeader | audit/msgs/msgs.go:123-126 | The beginning of any list sends the same after the whole list was marshalled k times exactly if it is empty, or k is 0, or it held the least elements, without duplicates or all of them with the zero value, and no zero value got into the longer payload |
| Sharing.BesideSendsTheSame | audit/msgs/msgs.go:121-127 | For any two messages: one is sent as if it had its arrays to itself after the other was marshalled k times exactly if both of its lists are: on arrays of their own, or not shorter and without a zero value brought in, or shorter and unharmed |
| Sharing.ShorterSendsAnother | audit/msgs/msgs.go:121-127 | Without any duplicates: a valid message whose only category is 3 is sent with category 2 after a message with both on the same array |
| Sharing.MarshalEach | audit/msgs/msgs.go:113-127 | Any sequence of messages, retries and resends over one template's slices: what each sends, type and record, depends on how often the slices were marshalled before, by any of them |
| Sharing.TwoFromOneTemplate | audit/msgs/msgs.go:121-127 | Two valid messages from one template, both written at the first attempt: the second sends an empty access level |
| Sharing.Resend | audit/audit.go:519-521 | A record accepted by Send and marshalled at least once is refused by the next Send, of a live client, exactly if its access levels had duplicates |
| Wire.Transmit | audit/conn/internal/writer/writer.go:31-43 | Any run of the client with its messages on the heap, each attempt at a real connection marshalling in place: the types and records written are those that Sent gives, the type is that of the message accepted, and the headers see what all attempts at their template have left |
| Wire.TriesAreOwn | audit/msgsender.go:161-171 | A message that shares no array is attempted once for each of its failed writes, and once more if it was written |
| Wire.OwnRecordsSent | audit/conn/internal/writer/writer.go:31-43 | In every run, for messages that share no arrays: what is on the wire for each message written, in the order of the writes, is its own type and its own record after its failed writes, normalised |
| Wire.SentAsValidated | audit/msgs/msgs.go:121-127 | So a valid record is on the wire as it was given, normalised, exactly if none of its writes failed or it has no duplicates |
| Clone.CloneSlice | audit/msgs/msgs.go:694-696 | An equal slice on a new array |
| Clone.CloneTable | audit/msgs/msgs.go:702-724 | nil for nil, otherwise an equal map made of new storage only |
| Clone.CloneCustom | audit/msgs/msgs.go:726-739 | A new map with the same keys; a Cloner is cloned, any other value is copied, references included |
| Clone.CloneRecord | audit/msgs/msgs.go:686-700 | The clone is equal in value and all its storage is new, references inside custom data apart |
| Edits.Append | audit/msgs/msgs.go:686-700 | append as the holder of a record uses it: in place within spare capacity, on a new array otherwise |
| Edits.Apply | audit/msgs/msgs.go:686-700 | One edit changes the value of a record as it should, and writes only its own storage |
| Edits.EditClone | audit/msgs/msgs.go:686-700 | Any sequence of edits of a clone (elements and map entries set, put, appended or dropped, marshalling) has exactly the effect it has on the value of the original, and the original keeps its own value |
| Edits.EditOriginal | audit/msgs/msgs.go:686-700 | Whatever edits are made to the original, and they have their effect on it, the clone keeps the value the original had |
| Enums.UnString | audit/msgs/msgs.go:747-756 | The loop finds the first name that equals the string in lower case, or gives 0 |
| Enums.ValueOfMeans | audit/msgs/msgs.go:745-756 | With distinct names a string decodes to i exactly if it is the i-th name but for letter case, place by place in the alphabet, or 0 if it is none |
| Enums.NameRoundTrip | audit/msgs/msgs.go:745-756 | unString undoes String on every value of the type, also if any letters are put into the other case |
| Enums.LowerMeans | audit/msgs/msgs.go:748-751 | Two strings are equal in lower case exactly if they are the same characters, place by place, but for the two cases of a letter of the alphabet |
| EnumTables.CapitalsDecode | audit/msgs/msgs.go:243-252 | "AUTHORIZATION", quoted or not, decodes to operation category 5 |
| Enums.DecimalReads | audit/msgs/operationcategory_string.go:39 | The number in the string of a value outside the type is written in decimal: digits that read it, without a leading zero |
| Enums.UnknownValueName | audit/msgs/operationcategory_string.go:37-42 | The string of a value outside the type decodes to 0 |
| Enums.OneByteIsEnough | audit/msgs/msgs.go:230-239 | For every string, dropping one byte of its MessagePack encoding gives what unString gives on the string; only the empty string is refused |
| Enums.EncodeDecodes | audit/msgs/msgs.go:225-228 | The bytes that the encoders write are the MessagePack form of the string, as any decoder reads it |
| Enums.AnyEncoding | audit/msgs/msgs.go:230-239 | For any MessagePack form of a string, with a header longer than needed too: dropping one byte gives what unString gives exactly if the header is one byte or the string decodes to 0 anyway |
| Enums.MsgpackRoundTrip | audit/msgs/msgs.go:274-287 | Marshalling and unmarshalling gives every value of the type back, and 0 for others |
| Enums.TrimUnquotes | audit/msgs/msgs.go:244 | Trimming takes off exactly the quotation marks around a string without any at its ends |
| Enums.JSONRoundTrip | audit/msgs/msgs.go:243-248 | The quoted name of every value decodes to that value, and to 0 for a value outside the type |
| Enums.Variable.UnmarshalMsgpack | audit/msgs/msgs.go:376-383 | Assigns through the receiver, or leaves it alone if the data is too short |
| Enums.Variable.UnmarshalJSON | audit/msgs/msgs.go:387-392 | Assigns what unString gives on the trimmed bytes |
| EnumTables.PackedEntries | audit/msgs/operationcategory_string.go:33-42 | The slices of a packed table are the names it was packed from |
| EnumTables.GoodTable | audit/msgs/operationcategory_string.go:33-35 | A table whose packed literal and offsets are those of proper names with distinct keys meets every hypothesis of the codec |
| EnumTables.OperationTypeIsGood | audit/msgs/operationtype_string.go:19-21 | The packed literal and the offsets of the operation types do, with 5 names |
| EnumTables.OperationResultIsGood | audit/msgs/operationresult_string.go:17-19 | The packed literal and the offsets of the operation results do, with 3 names |
| EnumTables.CallerIdentityTypeIsGood | audit/msgs/calleridentitytype_string.go:28-30 | The packed literal and the offsets of the caller identity types do, with 15 names |
| EnumTables.OperationCategoryIsGood | audit/msgs/operationcategory_string.go:33-35 | The packed literal and the offsets of the operation categories do, with 20 names |
| EnumTables.EveryValueRoundTrips | audit/msgs/msgs.go:419-435 | For all four types and all sixteen-bit values: MessagePack and JSON give a value of the type back, and 0 for any other |

## Left out

- Client.Client.ManageSender: runs for a given number of rounds, each with given outcomes of create, because the loop may go on for ever; it may be left with a sender to start when they are used up, waiting, or retrying. The statements about runs have no such bound.
- Client.Client.DeferredConnect: the same bound on the rounds of the manager it hands over to.
- MsgSenders.MsgSender.Run: the same bound on the rounds of the loop; a select that blocks ends it.
- Client.Client.Send: the message in the queue is its type and its place in the order of acceptance, not the record; the record is joined to it by its number, in Wire.dfy.
- Two goroutines that read and write one shared array at the same time: marshalling and validation are taken as single steps.
- Wire.Transmit: the records of all messages of the run are on the heap from its start, and their callers do not write them during the run.
- Records.Validate: reports which check failed, not the text of the error; inside the identity and resource checks the text may name any of several bad entries, depending on the order of iteration.
- Marshal.MarshalPrep: leaves out the time stamp and the constant envelope around the record; the type stands for its name.
- Enums.UnString: lower-cases ASCII letters only; the names are ASCII.
- Closing of replaced connections: manageSender never closes the connection it replaces, and no statement says that every opened connection is closed.
- A closer is one event: the return of CloseSend, its notice and the end of its goroutine; one that hangs never has its event.
- Contexts that are cancelled, `testParams` and `testing.Testing()` branches: only tests use them. Without them the retry in reconnect cannot be aborted.
- Backoff delays and ticker periods: a retry may come at any time, and a tick whenever the ticker is set.
- Options and New's checks before startConnManager (queue size, service tree ID, kernel version, meters): one branch each.
- Sockets, dialling, write deadlines and path probing: conn.Write succeeds or fails arbitrarily. A marshalling error inside it is a failed write.
- Slices start at the start of their backing array, and a nil slice is an empty one.
- strings.TrimSpace: ASCII white space only; netip addresses are their four predicates.
- The table of message types (`type_string.go`): nothing decodes it.
- The bodies of the MessagePack and JSON libraries, OpenTelemetry meters, logging, and the numbers in heartbeat messages.
