# Circuit protocol of the Ziti SDK: a model and its proofs

This project models the `xgress` package, which carries a reliable, ordered,
flow-controlled byte stream over a data plane that may lose, repeat, delay and reorder
messages, together with three smaller parts of the SDK: reading an edge connection,
allocating connection ids and choosing a service for an intercepted address. It proves
what they promise for every input, every run and every interleaving.

`dafny verify dfyconfig.toml` checks everything.

## How it is built

| file | part |
|---|---|
| `Bytes`, `Varint` | fixed-width arithmetic with explicit wrap-around, big-endian numbers, varints |
| `Messages`, `HeaderMap`, `ChunkCodec` | flag words, header-keyed messages, the header map, the chunk image with its two late stamps |
| `Segmentation`, `WritePath` | cutting a write into chunks, the txer that puts it together, `Write` over a byte buffer |
| `Weights`, `ReceiveBuffer`, `SendBuffer` | the two buffers: specification functions on values, and the classes that refine them |
| `Circuit` | one direction of a circuit as a state machine over its atomic steps, and its invariant |
| `StreamProofs`, `CircuitProofs` | every step keeps the invariant |
| `CircuitTheorems` | what holds in every reachable state |
| `CircuitPaths`, `CircuitRuns` | schedules, reachable states, pieces of concrete runs |
| `Advertising` | when the advertised receive size is fresh, and when it is not |
| `CircuitWindow`, `CircuitFailures` | what each check of the window decides; what becomes of a write that fails |
| `CircuitProgress`, `CircuitFinish`, `CircuitSignals`, `CircuitWedge` | when a circuit can finish, and when it cannot |
| `ConcurrentWrites` | several writes at once |
| `RetransmitTiming`, `RetransmitQueue`, `RetransmitPipeline`, `RetransmitProgress` | when a payload is retransmitted; the linked retransmit queue; the goroutines around it |
| `CircuitClose`, `WriteDeadline`, `RoundTrip` | two-half close, write deadlines, round-trip times |
| `EdgeRead`, `ConnIds`, `Intercepts` | the three smaller parts |

Buffers, queues and adapters that the original updates in place are classes whose methods
are proved against a function on values (`State() == Spec(old(State()))`). The state
machines use the same functions, so what is proved about runs is about the code of the
methods.

## What was found

- A number taken for a write that fails afterwards blocks the circuit for good
  (`CircuitProgress.BurnedBlocks`, `CircuitFailures.FailedIsNeverDelivered`).
- A number that is taken but waits outside the send buffer can wedge a circuit without any
  loss: data ahead of it fills the receiver, more of it is refused, and nothing the sender can
  still hear opens its buffer. Neither side moves until the number is given up or the buffer is
  told to close (`CircuitWedge.WedgeStays`). Refused data above the largest window does it
  (`CircuitWedge.WedgeRun`). One refused byte is enough if every size the receiver advertised
  is above the largest window, since an ack carries that size and `isBlocked` compares the two
  (`CircuitWedge.RemoteWedgeRun`).
- That is the only way: behind a check that let nothing in, a circuit can finish if and only if
  it is not wedged at its lowest waiting number (`CircuitWedge.FinishExactly`), for every
  receive limit that is not below the largest window, as in the default options. Told to
  close, it can always finish (`CircuitFinish.ClosingFinishes`).
- Two writes at once interleave their chunks, and the txer then mixes their messages or
  panics: two writes of four bytes under an MTU of six are enough, and both calls return
  without an error (`ConcurrentWrites.InterleavedWritesCrash`).
  `ConcurrentWrites.WholeExactly` gives the exact condition.
- The advertised receive size can stay stale, because the size is read and stored in two
  steps (`Advertising.StaleRun`); `Advertising.FreshExactly` says exactly when it does not.
- An ack from a peer that does not report its buffer size reads as the largest size, so it blocks
  a sender that holds anything (`CircuitWindow.SizelessAckBlocks`).
- The window can drop below its minimum when the 32-bit sum of window and growth wraps:
  8380428 acked payloads of 512 bytes do it under the default options
  (`SendBuffer.MinimumCanBreak`). `SendBuffer.WindowStaysInRange` gives the exact condition.
- The txer would leak the length prefix of a chunk-flagged message that is complete in one
  chunk; `CircuitTheorems.ReleaseIsWholeUnlessComplete` is the exact condition, and
  `Write` never sends such a chunk (`CircuitTheorems.NoChunkLeaks`).
- A circuit id comes back from the chunk codec if and only if it has at most 15 bytes
  (`ChunkCodec.CircuitIdLimit`).
- Smoothing two round trips leaves the interval between them exactly when their 16-bit sum
  wraps (`RoundTrip.SmoothStaysBetween`).
- The rule that the alphabetically first of equally good services wins does not hold for
  exact matches: the search stops at the first one it meets
  (`Intercepts.ExactTieDependsOnOrder`). `Intercepts.AlphabeticalExactly` gives the exact
  condition.
- A write-failed payload reaches the peer as an empty write
  (`Segmentation.WriteFailedIsDelivered`), and a write without data and headers takes no
  number when an MTU is set (`WritePath.EmptyWriteSendsNothing`).

## Model

| member | source | states |
|---|---|---|
| `CircuitTheorems.PrefixDelivery` | xgress/xgress.go:439-567 | With one Write at a time: in every state of every run over a network that loses, repeats, delays and reorders, the messages given to the peer, with their headers, are a prefix of the messages whose last chunk has been put on the wire, in order and each once. So are the bytes. |
| `CircuitTheorems.NothingAfterEnd` | xgress/xgress.go:466-495 | Nothing numbered after an end-of-file or end-of-circuit payload is ever delivered, whatever was queued behind it. |
| `CircuitTheorems.HaltedStays` | xgress/xgress.go:497-566 | Once tx has returned, for whatever reason, no later step of any run delivers anything. |
| `CircuitTheorems.RefusalEndsIt` | xgress/xgress.go:484-491 | A message the peer refuses does not count as given, and nothing is offered after it in any run. |
| `CircuitTheorems.NoLoss` | xgress/link_send_buffer.go:332-370 | Every number that entered the send buffer is still there, unchanged, or the receiver has it in its tree, in its queue or already taken; acks only ever list numbers the receiver has. |
| `CircuitTheorems.AcceptedStays` | xgress/link_receive_buffer.go:49-79 | A number the receiver accepted stays accepted through every later step, so an ack is never taken back. |
| `CircuitTheorems.AckEchoes` | xgress/xgress.go:894-913 | In every run the ack an ingest worker sends lists exactly the payload last delivered to that worker and echoes the stamp of that delivery. |
| `CircuitTheorems.OutstandingBound` | xgress/link_send_buffer.go:222-302 | Outstanding bytes are counted exactly and never exceed the maximum window plus two payloads, as long as that sum is below 2^32 and until the buffer is told to close; the window never exceeds its maximum. |
| `CircuitWindow.CheckDecides` | xgress/link_send_buffer.go:243-263 | In every run a check lets two payloads in if the buffer is closing, or no byte is outstanding, or the bytes outstanding are within the window and the size in the ack that arrived last is within the largest one; and none otherwise. |
| `CircuitWindow.WindowFills` | xgress/link_send_buffer.go:184-220 | Any number of writes that together fit the first window can be in the send buffer and on the wire at once, with no ack ever sent. |
| `CircuitWindow.SizelessAckBlocks` | xgress/messages.go:161-182 | An ack without the size header is read as the largest size, and a sender that holds anything is then blocked. |
| `CircuitTheorems.SizeIsExact` | xgress/xgress.go:453-464 | The receive size is exactly the bytes in tree, queue and the txer's hands, is bounded, and the complement subtraction never underflows. |
| `CircuitTheorems.QueueIsBounded` | xgress/link_receive_buffer.go:81-93 | In every state of every run the queue to the txer holds at most its capacity. |
| `CircuitTheorems.DrainedIsZero` | xgress/xgress.go:453-464 | With tree, queue and hands empty the receive size is zero, even if it ever wrapped. |
| `CircuitTheorems.ReleaseIsWholeUnlessComplete` | xgress/xgress.go:513-566 | The txer gives back all bytes of a payload if and only if it is not a chunk-flagged payload that holds a whole message behind its length. |
| `CircuitTheorems.OneChunkMessageLeaks` | xgress/xgress.go:525-528 | Such a payload would be delivered and leave exactly its length prefix on the counter. |
| `CircuitTheorems.NoChunkLeaks` | xgress/xgress.go:774-784 | No payload the txer ever holds is of that kind, because Write flags a message as chunked only when it does not fit. |
| `CircuitTheorems.RefusalIsTemporary` | xgress/link_receive_buffer.go:53-61 | If the payload the queue waits for is refused, the tree is empty and the txer has a step to take, so what is in the way will go. |
| `CircuitTheorems.NeverWaitsInVain` | xgress/link_receive_buffer.go:95-119 | With a queue slot, a consumer behind its own queueNext neither blocks nor returns nil while the next payload in order is in the tree. |
| `CircuitTheorems.NextIsNeverLost` | xgress/link_send_buffer.go:332-340 | The next number the receiver needs, once buffered, is in its tree or still kept for retransmission. |
| `Advertising.FreshExactly` | xgress/xgress.go:894-921 | With the reads and stores of PayloadReceived and SendEmptyAck as steps of their own and any number of ingest workers: until the send buffer is told to close, the last advertised size is fresh in every state of a run, outside the txer's own adjustment, if and only if every store of PayloadReceived was fresh when it was made. The condition is freshness itself at the stores; `Advertising.AdvertisedIsFresh` has the one a reader can check in the schedule. |
| `Advertising.AdvertisedIsFresh` | xgress/xgress.go:453-464 | If the txer releases nothing between a worker's read and its store, the last advertised size is at most 10000 or half of it is at most the real size; drained, it is at most 10000. |
| `Advertising.StaleRun` | xgress/xgress.go:900-913 | For every write above 10000 bytes, a run to a drained receiver that has advertised all of them: read on arrival, released, checked, and then stored. |
| `Advertising.AdvertisedWasSent` | xgress/xgress.go:900-921 | In every run the size recorded as advertised is the size in an ack that went out. |
| `CircuitFinish.CanAlwaysFinish` | xgress/link_send_buffer.go:243-263 | From every reachable state with no burned number, no end payload, a queue slot and a write in progress that can be cut to its end, in which the receiver holds at most its limit beyond the lowest waiting number, or no data is refused, or the buffer is open, or the last check lets in all that waits: some schedule lets the waiting numbers in, finishes the write, gives the peer exactly what was written and empties the send buffer, without giving up a number or closing. It uses that an empty buffer takes a payload even when blocked, and that the receiver takes everything below a number it once took. |
| `CircuitFinish.ClosingFinishes` | xgress/link_send_buffer.go:243-263 | Once the buffer is told to close, every such state can finish, whatever is refused. |
| `CircuitFinish.RoomIsEnough` | xgress/xgress.go:729-828 | A write can be cut to its end if the MTU holds the fixed fields, headers and prefix and there is a number for every byte left. |
| `CircuitSignals.CanFinishIfItOpens` | xgress/link_send_buffer.go:332-380 | The same holds if some sequence of acks on their way, acks for numbers the receiver does not refuse, and retransmissions opens the send buffer: the circuit can be brought to hear it, with the same effect on the window. |
| `CircuitWedge.WedgeStays` | xgress/link_send_buffer.go:184-220 | While a number waits, the receiver holds more than its limit beyond it, data is refused and nothing the sender can still hear opens the buffer: no step but giving the number up or closing ever changes that, and nothing numbered from it on is delivered. |
| `CircuitWedge.FinishExactly` | xgress/link_send_buffer.go:222-302 | Behind a check that let nothing in, a state as above can finish without giving up a number or closing if and only if it is not wedged at the lowest waiting number. |
| `CircuitWedge.WindowShuts` | xgress/link_send_buffer.go:184-220 | Nothing the sender can hear opens the buffer while the refused data exceeds the largest window. |
| `CircuitWedge.RemoteSizeShuts` | xgress/link_send_buffer.go:184-220 | Nor while any data is refused and every receive size known, on its way or still to come is above the largest window. |
| `CircuitWedge.WedgeRun` | xgress/xgress.go:834-882 | For every configuration without an MTU, a write above the receive limit and one above the largest window, made while number 0 waits, reach a wedge, with nothing burned, no end sent and no write in progress. |
| `CircuitWedge.RemoteWedgeRun` | xgress/link_send_buffer.go:184-220 | So do a write above both and a second one of at least one byte, because the size in every ack then blocks the sender and the byte keeps its buffer from being empty. |
| `CircuitProgress.BurnedBlocks` | xgress/xgress.go:734-768 | A burned number blocks delivery of itself and everything after it, in every state. |
| `CircuitFailures.FailedIsNeverDelivered` | xgress/xgress.go:734-828 | After a write failed, no later state of any run has its message, or a later one, at the peer. |
| `CircuitProofs.StepKeeps` | xgress/link_receive_buffer.go:49-119 | Every step of writer, send loop, network, receiver and txer keeps the whole invariant of numbering, accounting, order and freshness. |
| `StreamProofs.CutIsAbsorbed` | xgress/xgress.go:513-566 | A txer that has the message so far takes one more chunk without stopping, holds exactly the longer part or delivers the whole message with its headers, and gives back every byte. |
| `Bytes.ReleaseSizeSubtracts` | xgress/xgress.go:453-464 | Adding the complement of n-1 is subtraction modulo 2^32, for n = 0 too. |
| `Varint.UvarintRoundTrip` | xgress/xgress.go:757-759 | A varint followed by anything reads back as the number and its own length. |
| `Messages.FlagWordRoundTrip` | xgress/messages.go:75-83 | The seven flags are independent bits: a word read back gives the same flags, and only no flag is zero. |
| `Messages.FlagSetters` | xgress/messages.go:293-299 | Setting the chunk or the retransmit flag in the word sets that flag and no other. |
| `Messages.OriginatorSetter` | xgress/messages.go:333-345 | Setting the originator changes only its bit and is read back; inverting twice is the identity. |
| `Messages.OtherKeysKeepUserHeaders` | xgress/messages.go:30-45 | No key outside 2000 to 2255 changes what comes back as user headers. |
| `Messages.PayloadMessageRoundTrip` | xgress/messages.go:218-291 | The header-keyed form gives back circuit id, flags, sequence, headers and data; only the RTT becomes the 16-bit send time. |
| `Messages.MarshallSequence` | xgress/messages.go:119-130 | The loop writes the list encoding that the round trip is about. |
| `Messages.UnmarshallSequence` | xgress/messages.go:132-148 | The loop decodes exactly as the specification, error included. |
| `Messages.SequenceRoundTrip` | xgress/messages.go:119-148 | A list of 32-bit numbers, negative ones included, reads back as it was. |
| `Messages.AckRoundTrip` | xgress/messages.go:150-185 | An acknowledgement reads back as it was. |
| `Messages.IncompleteIsRefused` | xgress/messages.go:132-182 | A message without circuit id or sequence number, and an ack body that is not whole words, is an error. |
| `Messages.AckBytes` | xgress/messages.go:119-130 | Byte by byte, two numbers of an ack, one of them negative. |
| `HeaderMap.HeaderMapRoundTrip` | xgress/xgress.go:1082-1133 | Written in any iteration order and followed by any data, the map and the data come back. |
| `HeaderMap.WriteU8ToBytesMap` | xgress/xgress.go:1082-1106 | The encoder succeeds exactly when its space checks pass, and then the block is in the buffer and nothing before it changed. |
| `HeaderMap.ReadU8ToBytesMap` | xgress/xgress.go:1108-1133 | The decoding loop equals its specification on every input, malformed ones included. |
| `ChunkCodec.StampRttInPlace` | xgress/messages.go:219-227 | The stamp overwrites the two reserved bytes, and only when the flag is set. |
| `ChunkCodec.StampHeartbeatInPlace` | xgress/heartbeat_transformer.go:30-38 | The stamp overwrites the last eight bytes, and only when the flag is set and the body is longer than twelve. |
| `ChunkCodec.StampedImage` | xgress/heartbeat_transformer.go:30-38 | Both stamps fill exactly their reserved fields and leave every other byte of the chunk. |
| `ChunkCodec.ChunkRoundTrip` | xgress/xgress.go:1009-1080 | Encoded, stamped twice and decoded, a chunk gives the same circuit id, sequence, headers, data, chunk flag and originator, and the low 16 bits of the send time. |
| `ChunkCodec.HeartbeatArrives` | xgress/heartbeat_transformer.go:30-38 | Decoded, a chunk has a heartbeat if and only if Write kept the field for it, and it is the stamp if the body is longer than twelve bytes. |
| `ChunkCodec.CircuitIdLimit` | xgress/xgress.go:658-669 | The circuit id survives if and only if it has at most 15 bytes. |
| `ChunkCodec.SmallChunkBytes` | xgress/messages.go:219-227 | Byte by byte, a small stamped chunk: flag byte, id size, stamp low byte first, id, number, data. |
| `ChunkCodec.BeatingChunkBytes` | xgress/heartbeat_transformer.go:30-38 | Byte by byte, a chunk with a two-byte number and a heartbeat, most significant byte first. |
| `Segmentation.OpeningChunk` | xgress/xgress.go:522-547 | A first chunk that is not the whole message opens an assembly of the announced size holding exactly its part. |
| `Segmentation.FirstCut` | xgress/xgress.go:761-815 | The first chunk takes the whole message unflagged, or the length and a proper prefix flagged; headers go with it. |
| `Segmentation.FullUnlessLast` | xgress/xgress.go:774-800 | A chunk that leaves bytes for another one fills the MTU. |
| `Segmentation.ChunkTracks` | xgress/xgress.go:521-566 | Each chunk leaves the txer holding exactly what was cut off so far; the last one delivers the whole message once. |
| `Segmentation.ControlTracks` | xgress/xgress.go:513-519 | A control payload between chunks never disturbs the message being assembled, and stops the txer exactly if it ends the stream. |
| `ConcurrentWrites.WholeExactly` | xgress/xgress.go:715-832 | For any run of concurrent writes that all finish: every message is put together from the chunks of its own call, all of them and no others, if and only if no other chunk-flagged payload lies between two chunks of a message; and then the peer gets every message as it was. |
| `ConcurrentWrites.InterleavedWritesCrash` | xgress/xgress.go:542-547 | A run of two calls of Write with any four bytes each, under an MTU of six: both end without an error, their chunks interleave, the txer delivers nothing and ends in a slice panic. |
| `WritePath.SegmentationRoundTrip` | xgress/xgress.go:715-832 | Any list of writes that went through, with control payloads anywhere between, comes out of the txer as the same buffers with their headers. |
| `WritePath.SegmentationAlwaysWorks` | xgress/xgress.go:729-828 | For every MTU that holds the fixed fields, the headers and the prefix, all writes go through and come out again as they were, as long as there are numbers. |
| `WritePath.WriteNeverStuck` | xgress/xgress.go:729-828 | With such an MTU a write ends early only if the send buffer refuses it or the numbers run out; the loop terminates. |
| `WritePath.FailureTakesNumber` | xgress/xgress.go:734-828 | A write that fails has taken a number for the chunk it failed at, and it is the last one taken. |
| `WritePath.FillChunk` | xgress/xgress.go:733-807 | One pass, computing its branches and copies from the room left in the byte buffer, yields the image of exactly the chunk the specification cuts, or its error; the image fits the MTU and has a heartbeat field unless eight more bytes do not fit. |
| `WritePath.ImageDecodes` | xgress/xgress.go:1009-1080 | The image Write produced, stamped and received, is the payload that took the number. |
| `WritePath.Xgress.Write` | xgress/xgress.go:715-832 | The loop takes the numbers and emits the payloads of the specification, chunks without a data byte included, with its outcome, from any interleaving with other goroutines. |
| `WritePath.Tx` | xgress/xgress.go:439-567 | The loop with its payloadStarted and payloadWriteOffset variables delivers what replaying the payloads one by one delivers. |
| `WritePath.StoppedStays` | xgress/xgress.go:466-495 | Payloads after the one that stopped the txer change nothing. |
| `ReceiveBuffer.QueueNextKeeps` | xgress/link_receive_buffer.go:81-93 | Moving the next payload keeps order, the accepted numbers and the bytes held, and leaves no in-order payload behind an empty queue. |
| `ReceiveBuffer.ReceiveKeeps` | xgress/link_receive_buffer.go:49-79 | An arrival accepts exactly its own number unless refused, keeps the order, and adds exactly its bytes, once, to the size. |
| `ReceiveBuffer.RefusalMeansEmptyTree` | xgress/link_receive_buffer.go:53-61 | The number the queue waits for is refused only with an empty tree. |
| `ReceiveBuffer.LinkReceiveBuffer.QueueNextInOrder` | xgress/link_receive_buffer.go:81-93 | Looking only at the leftmost tree entry finds the next payload whenever it is there. |
| `ReceiveBuffer.LinkReceiveBuffer.Receive` | xgress/link_receive_buffer.go:49-79 | The method does what the specification says and acknowledges exactly the accepted numbers. |
| `ReceiveBuffer.LinkReceiveBuffer.Next` | xgress/link_receive_buffer.go:95-119 | A lone consumer gets the next payload exactly if one is queued or next in the tree, given a slot. |
| `SendBuffer.AckKeeps` | xgress/link_send_buffer.go:332-381 | An ack removes exactly its numbers from the unacked map, keeps the byte counter equal to their sum and the window at most its maximum. |
| `SendBuffer.RetransmitKeeps` | xgress/link_send_buffer.go:383-418 | Retransmissions keep the unacked map, the byte counter and the maximum. |
| `SendBuffer.IncreaseKeepsMinimum` | xgress/link_send_buffer.go:350-361 | Growing keeps the minimum if and only if it is not due, the 32-bit sum does not wrap, or it wraps to at least the minimum. |
| `SendBuffer.ScaleKeepsMinimum` | xgress/link_send_buffer.go:420-429 | Scaling keeps the window between minimum and maximum as long as scaling up does not reach 2^32. |
| `SendBuffer.ScaleWindowMeans` | xgress/link_send_buffer.go:420-430 | Scaling down gives the product rounded down unless that is below the minimum; scaling up, unless it is above the maximum. |
| `SendBuffer.RetransmissionsScale` | xgress/link_send_buffer.go:401-411 | The window is scaled at every TxPortalRetxThresh-th retransmission and not before, and the delivered bytes are then forgotten. |
| `SendBuffer.IncreaseMeans` | xgress/link_send_buffer.go:350-361 | A due increase adds the delivered bytes times the scale, rounded down, up to the maximum, and takes the retransmit scale back by a hundredth, not below the configured one. |
| `SendBuffer.DuplicatesRaiseScale` | xgress/link_send_buffer.go:362-369 | Every TxPortalDupAckThresh-th duplicate ack raises the retransmit scale by a fifth, and no earlier one does. |
| `SendBuffer.WindowStaysInRange` | xgress/link_send_buffer.go:341-418 | Over any run of admissions, acks and retransmits the window stays between minimum and maximum if and only if no increase or scaling that is due wraps to below the minimum. |
| `SendBuffer.MinimumCanBreak` | xgress/options.go:145-169 | Under the default options, 8380428 payloads of 512 bytes, each acked before the next, take the window to 6144. |
| `SendBuffer.CheckKeepsBound` | xgress/link_send_buffer.go:184-249 | A blocked check that lets payloads in leaves room for two of them within the bound. |
| `SendBuffer.AdmitKeepsBound` | xgress/link_send_buffer.go:250-285 | Each payload let in uses up one of the two. |
| `SendBuffer.LinkSendBuffer.MayAdmit` | xgress/link_send_buffer.go:184-245 | Open exactly when the buffer is closing or empty, or both the local window and the size the peer advertised are kept. |
| `SendBuffer.LinkSendBuffer.Admit` | xgress/link_send_buffer.go:250-257 | The payload enters the map and its bytes the counter; accounting is kept. |
| `SendBuffer.LinkSendBuffer.ReceiveAcknowledgement` | xgress/link_send_buffer.go:332-381 | The loop over the acked numbers does what the specification says, and hands exactly the acked payloads that were queued for retransmission to the retransmitter. |
| `SendBuffer.LinkSendBuffer.Retransmit` | xgress/link_send_buffer.go:383-418 | Hands over exactly the payloads the specification chooses, in sequence order, marks each once, counts each towards scaling the window and records when it looked; what is chosen is said by `RetransmitTiming.RetransmitsExactly`. |
| `RetransmitTiming.RetransmitsExactly` | xgress/link_send_buffer.go:383-418 | Over any run of buffering, sending, acks, retransmit calls and a clock: a call hands over exactly the payloads that no ack has listed, that the retransmitter does not hold, and that were last sent at least the threshold ago, if the buffer was last looked through more than 64 ms ago. Ages below 2^32 ms compare as they are. |
| `RetransmitTiming.LooksAreApart` | xgress/link_send_buffer.go:385-416 | Two calls that look through a buffer with something unacked are more than 64 ms apart, and only such calls hand anything over. |
| `RetransmitTiming.NeverTooEarly` | xgress/link_send_buffer.go:372-380 | With a scale of at least one and no 32-bit wrap, no payload is retransmitted before the smoothed round trip and RetxAddMs have passed since it was last sent, or RetxStartMs before the first sample. |
| `RetransmitQueue.Retransmitter.IsLinked` | xgress/retransmitter.go:73-76 | The guard without a membership flag is exact: linked or head if and only if in the queue. |
| `RetransmitQueue.Retransmitter.PushTail` | xgress/retransmitter.go:73-86 | Appends, unless already queued; links stay consistent both ways and the size equals the length. |
| `RetransmitQueue.Retransmitter.PopHead` | xgress/retransmitter.go:51-71 | Removes and returns the oldest payload, unlinked. |
| `RetransmitQueue.Retransmitter.Delete` | xgress/retransmitter.go:88-103 | Removes the payload wherever it is, keeping the order of the rest; a payload that is not queued changes nothing. |
| `RetransmitQueue.Retransmitter.AcceptRetransmit` | xgress/retransmitter.go:132-138 | Acked payloads leave the queue, others join it. |
| `RetransmitPipeline.CounterInRange` | xgress/link_send_buffer.go:76-95 | In every interleaving the counter is 0 to 3, and above one exactly for acked payloads. |
| `RetransmitPipeline.UnackedInOnePlace` | xgress/retransmitter.go:105-166 | An unacked payload is in as many places of the pipeline as its counter says: none or exactly one. |
| `RetransmitPipeline.AckedIsRemoved` | xgress/link_send_buffer.go:334-339 | An acked payload that is linked, or about to be, has its removal on the way. |
| `RetransmitPipeline.DrainedHoldsUnacked` | xgress/retransmitter.go:105-138 | Once all requests are through, the queue holds only unacked payloads. |
| `RetransmitPipeline.LinkedOnce` | xgress/retransmitter.go:73-86 | The queue never holds a payload twice. |
| `RetransmitProgress.PipelineDrains` | xgress/retransmitter.go:105-166 | From every state of every run the pipeline can go on by its own steps until nothing is under way; every unacked payload is then free to be retransmitted again. |
| `RetransmitProgress.WorkDecreases` | xgress/retransmitter.go:105-166 | Each step of the pipeline leaves it less to do, so it cannot go on for ever without new requests. |
| `CircuitClose.CloseConverges` | xgress/xgress.go:314-372 | For close calls from any threads in any interleaving: once none is in flight, the circuit is closed if and only if both halves are. |
| `CircuitClose.CallsDecide` | xgress/xgress.go:306-376 | Once no call is in flight: the tx half is closed if and only if Close, CloseXgToClient or Unrouted was called, the rx half if and only if Close, the send buffer's Close or Unrouted was, and the circuit if and only if both were asked for. |
| `CircuitClose.ClosedOnlyIfCalled` | xgress/xgress.go:306-376 | At no point of any run is a half, or the circuit, closed that no call was made for. |
| `CircuitClose.CloseInOrder` | xgress/xgress.go:331-358 | At every point of every run: the peer is closed only after the end of the circuit was sent, and handlers are called only after the peer and both halves are closed, peek handlers first. |
| `CircuitClose.CloseRunsOnce` | xgress/xgress.go:328-359 | Then the handlers, the peer close and the end-of-circuit ran exactly once if the circuit is closed and never otherwise, and each half's channel was closed once if that half is. |
| `CircuitClose.NeverTwice` | xgress/xgress.go:314-359 | At no point of any run was a channel closed or a handler called twice. |
| `CircuitClose.WorkDecreases` | xgress/link_send_buffer.go:172-178 | Every instruction of every thread leaves less work to all of them, whatever the others did. |
| `CircuitClose.CallsEnd` | xgress/xgress.go:314-372 | The mutual recursion ends: without new calls, at most as many steps as there is work can follow. |
| `WriteDeadline.WriteAdapter.SetWriteDeadline` | xgress/xgress.go:1168-1206 | The method does what the specification says to deadline, channel and timers. |
| `WriteDeadline.WriteAdapter.OnTimer` | xgress/xgress.go:1187-1197 | A firing closes the channel only for the deadline that is current. |
| `WriteDeadline.DoneIsExact` | xgress/xgress.go:1143-1206 | Over any run of sets, clears and late or stale firings: done closed means the current deadline is set and past; open with a deadline means a timer for exactly that deadline is still to fire. |
| `WriteDeadline.SettledDoneIsExact` | xgress/xgress.go:1143-1206 | With no due timer outstanding, done is closed if and only if the deadline set last is past. |
| `WriteDeadline.DeadlineIsLastSet` | xgress/xgress.go:1168-1172 | In every state of every run the deadline is the one set last, or none before the first. |
| `WriteDeadline.SetTakesEffect` | xgress/xgress.go:1168-1206 | Right after a deadline was set, done is closed if and only if it is past, whatever stale timers are still to fire. |
| `WriteDeadline.FireTakesEffect` | xgress/xgress.go:1187-1197 | A timer closes done if it was made for the deadline set last, and changes nothing otherwise. |
| `WriteDeadline.ChannelsCloseOnce` | xgress/xgress.go:1168-1206 | No channel is closed twice, and each was closed before it was replaced. |
| `RoundTrip.SampleIsExact` | xgress/link_send_buffer.go:373-375 | The 16-bit difference is the true round trip if and only if that is below 65536 ms, wherever the clock wraps. |
| `RoundTrip.EchoMeasures` | xgress/xgress.go:903-913 | Stamped into the chunk, decoded, echoed in an ack and decoded again, the stamp measures the true round trip. |
| `RoundTrip.SmoothStaysBetween` | xgress/link_send_buffer.go:375-378 | One smoothing step stays between its inputs if and only if their sum is below 65536 or there was no earlier value. |
| `RoundTrip.SmoothedStaysBetween` | xgress/link_send_buffer.go:372-380 | For any true round trips below 32768 ms the smoothed value lies between the smallest and the largest one seen. |
| `RoundTrip.LongTripsWrap` | xgress/link_send_buffer.go:375-378 | Two round trips of 32768 ms smooth to zero. |
| `EdgeRead.PartsRoundTrip` | zt/edge/network/conn.go:793-803 | A body made of length-prefixed parts splits into exactly those parts. |
| `EdgeRead.StreamSplit` | zt/edge/network/conn.go:724-824 | The stream of a run of messages is that of its first part followed by that of the rest, taken up in the state those left. |
| `EdgeRead.PlainStream` | zt/edge/network/conn.go:724-824 | Without encryption the stream is the bodies of the data messages, parts joined, up to and including the first message that ends it. |
| `EdgeRead.SealedStream` | zt/edge/network/conn.go:762-790 | With encryption the first data message is the crypto header, and the stream is what the data messages behind it open to, up to the end. |
| `EdgeRead.NothingIsSkipped` | zt/edge/network/conn.go:724-824 | The reader passes over other kinds of messages and the crypto header only: an event that adds bytes is answered with them, one that ends the stream ends it, and a timeout, a bad crypto header and a message that does not open always fail. |
| `EdgeRead.EdgeConn.Read` | zt/edge/network/conn.go:700-825 | Takes no message out of order, returns each byte once, serves buffered bytes first; passes over crypto headers and other kinds of messages only, and returns the outcome of the first other event at once, an error for a timeout, a bad crypto header or a message that does not open; reports EOF when the stream has ended and nothing is buffered, and only when every byte received was returned, unless Close or HandleMuxClose was called on this side. |
| `EdgeRead.EdgeConn.Conserved` | zt/edge/network/conn.go:700-825 | Until this side closes, bytes returned, bytes buffered and the bytes of unread messages are all bytes received, in order. |
| `ConnIds.NextIsNearer` | zt/edge/msg_mux.go:335-340 | An increment, also across the wrap, brings the counter one nearer to a free id. |
| `ConnIds.ResetIsNearer` | zt/edge/msg_mux.go:341-344 | So does starting over from an id out of range. |
| `ConnIds.ConnMux.GetNextId` | zt/edge/msg_mux.go:335-350 | Ends with an unused id in range whenever one behind the minimum is free, and passes over no free id ahead of the last one. |
| `ConnIds.ConnMux.Add` | zt/edge/msg_mux.go:466-475 | Succeeds exactly for an open mux and an unused id, and never replaces a sink. |
| `ConnIds.ConnMux.RemoveByConnId` | zt/edge/msg_mux.go:481-483 | Frees the id and touches no other. |
| `Intercepts.MatchesMeans` | zt/edge/types.go:91-137 | A target matches if and only if it is the very address or name, the network prefix followed by some tail, or some front followed by the wildcard's suffix; the score is the number of bits or characters left open. |
| `Intercepts.PortMatchMeans` | zt/edge/types.go:144-149 | A range matches exactly the ports from low to high, and of two that match the one with fewer ports scores lower. |
| `Intercepts.CaseIsIgnored` | zt/edge/types.go:108-110 | Hosts that differ only in the case of ASCII letters get the same score. |
| `Intercepts.ZeroIsExact` | zt/edge/types.go:91-149 | A score of zero means the very address, a network of that one address, the very name or suffix, or a single port, and nothing else scores zero. |
| `Intercepts.SpecificScoresLower` | zt/edge/types.go:91-137 | Of two networks or wildcards that both match, the lower score is the more specific one. |
| `Intercepts.MatchIsBestPair` | zt/edge/types.go:28-83 | The score is -1 exactly without a matching pair, and else the lexicographic minimum of address and port score over all matching pairs. |
| `Intercepts.PackedOrder` | zt/edge/types.go:82-82 | Comparing packed scores is comparing pairs. |
| `Intercepts.Match` | zt/edge/types.go:28-83 | The loops with their early breaks compute that score. |
| `Intercepts.GetServiceForAddr` | zt/zt.go:1394-1424 | In every iteration order: none if nothing matches, else a service with the least score; alphabetically first above zero, and the first in order at zero. |
| `Intercepts.BeforeMeans` | zt/zt.go:1409-1411 | The order of names is that of the first characters that differ, a proper prefix coming first. |
| `Intercepts.ScoreIsOrderFree` | zt/zt.go:1394-1424 | The score found is the same in every iteration order. |
| `Intercepts.AlphabeticalExactly` | zt/zt.go:1404-1416 | The alphabetically first service is found in every order if and only if no two exact matches have different names. |
| `Intercepts.ExactTieDependsOnOrder` | zt/zt.go:1404-1416 | Of two services that intercept the same address and port the search returns the one it meets first, also when its name comes later. |

## Left out

- Sequence numbers from 2^31 on: the original truncates its counter to 32 bits; here a run ends before that.
- `CircuitTheorems.PrefixDelivery`: one Write runs at a time, as under the lock of an encrypted connection or in the rx loop; without that it does not hold (`ConcurrentWrites.InterleavedWritesCrash`).
- `CircuitTheorems.SizeIsExact`: assumes that receive limit, window maximum and four payloads together stay below 2^32 and that the send buffer is not closing; without it the size is right modulo 2^32, which is what `DrainedIsZero` uses.
- `Advertising.AdvertisedIsFresh`: under the same assumption.
- `Advertising.FreshExactly`: under the same assumption.
- `CircuitWedge.WedgeStays`: under the same assumption on the sizes, since the receive size would wrap otherwise.
- `CircuitWedge.WedgeRun`: under the same assumption on the sizes.
- `CircuitWedge.RemoteWedgeRun`: under the same assumption on the sizes.
- `WritePath.SegmentationRoundTrip`: a write without data and headers under an MTU sends nothing, so it is not among the buffers that come out.
- `CircuitFinish.CanAlwaysFinish`: shows that a finishing schedule exists, not that a fair scheduler takes it.
- `CircuitWedge.FinishExactly`: under the same assumption on the sizes. Two cases have one direction each (`WedgeStays`, `CanFinishIfItOpens`) and no if-and-only-if: a receive limit below the largest window while what the receiver holds beyond the lowest waiting number lies between the two, where it depends on what was advertised whether an ack with a smaller size can still come; and the moment between a check and the payloads it let in, when fewer may enter than wait.
- `RetransmitTiming.NeverTooEarly`: assumes a configured retransmit scale of at least one and thresholds below 2^32 ms; a smaller scale retransmits before the round trip is over.
- `RetransmitTiming.RetransmitsExactly`: each number is buffered once, and the clock does not run backwards.
- `CircuitWindow.CheckDecides`: assumes that the largest window and two payloads together stay below 2^32, as `CircuitTheorems.OutstandingBound` does.
- `ConnIds.ConnMux.GetNextId`: one caller at a time; two callers that reset the counter together are not modelled.
- `EdgeRead.EdgeConn.Read`: assumes well-formed multipart bodies; on others the original panics. Close and HandleMuxClose give up buffered bytes.
- An MTU that never leaves room for a data byte makes Write take numbers without end; here it ends when they run out.
- PayloadReceived, SendEmptyAck and the txer's size adjustment are steps of the state machine in `Circuit`, not methods of a class.
- The close functions are instruction lists of concurrent threads in `CircuitClose`, not methods, because their interleaving is the point.
- The rx loop, CloseRxTimeout, checkForClose's empty-since timer and the idle timeouts: when they call into the modelled functions is arbitrary here.
- Payloads that come back to their own sender are dropped before the receive buffer; the model has one direction only and no such payloads.
- The retransmit flag a retransmission sets in the flag word, and the stamps of retransmitted copies, in `Circuit`; retransmitted numbers are otherwise ordinary deliveries.
- Float scales are reals with floor; rounding of 64-bit floats is not modelled.
- The typed header functions of the channel library, its message framing and the byte encoding of header-keyed messages: headers are typed values.
- Metrics, inspection, logging, control messages and trace routes.
- The connection flags STREAM and MULTIPART that Read collects, decryption and key exchange: a message carries what opening it gives.
- Parsing of IP addresses, networks and options: addresses are bits, a target is an address or a name, and names are lower-cased as ASCII.
- REST clients, enrollment, service synchronisation, the posture cache and listeners.
