# Simplified TCP server: a verified model of `tcp.py`

`tcp.py` implements the server side of a teaching TCP on top of a datagram
layer. A `Servidor` listens on one port. It keeps a dictionary of
connections keyed by (peer address, peer port, local address, local port)
and routes each inbound segment to the right connection. A SYN creates a new
`Conexao` and answers with SYN+ACK. Each `Conexao` has these parts:

- It delivers in-order payloads to the application and acknowledges them.
- It cuts outgoing data into MSS-sized segments.
- It keeps the unacknowledged segments in a queue, each with its send time.
- It pops the queue head on a new acknowledgment.
- It retransmits the head when a retransmission timer fires.
- It sends a FIN and leaves the server's table when the application closes it.

The model has three modules:

- `Segments` (`segments.dfy`) holds the wire-level values: connection ids,
  decoded segments, the control flags, and `DataSegments`, the segments the
  send loop emits for a buffer.
- `ConnectionSpec` (`connection_spec.dfy`) holds the state of one connection
  as a value, `ConnState`, with one transition function per event: a segment
  arrives, the application writes, a timer fires. It also holds the lemmas
  about these transitions: contiguity of the unacknowledged queue, in-order
  delivery, and the two findings below.
- `Tcp` (`tcp.dfy`) mirrors the source's objects. `Server` owns the
  connection table, a `map` field. `Connection` has the counters, the queue
  (a `seq` field) and the timer state, all updated in place. Each
  connection method that handles an event (`Receive`, `ProcessAck`,
  `ProcessFin`, `ProcessPayload`, `Send`, `Timer`) is proved to change the
  object exactly as the matching `ConnectionSpec` function says, and to keep
  `Valid()`. `Handshake` takes a connection in its `Initial()` state to the
  `Accepted` state. `SendAck` and `Close` state the datagram they send
  (`AckDatagram`, `FinDatagram`), and `Close` states how the server's table
  changes. `Network` is the datagram layer, reduced to a ghost log of the
  datagrams handed to it.

How the source's pieces are represented:

- **Timers.** The timer handle is a `TimerState` with three parts: whether
  the connection holds a handle, whether the callback behind that handle is
  still scheduled, and how many "stray" callbacks are still scheduled. A
  callback becomes stray when `enviar` overwrites its handle without
  cancelling it. A timer firing is an event that the caller picks:
  `Connection.Timer(fromHandle)`.
- **Application callbacks.** The accept callback is recorded in the ghost
  log `Server.accepted`. The receive callback is recorded in the ghost log
  `Connection.delivered`.
- **Sequence numbers.** They are unbounded naturals.
- **The SYN+ACK handshake.** `Servidor._rdt_rcv` writes the new connection's
  fields directly (tcp.py:41-55). The model does this work in
  `Connection.Handshake`, which `Server.Accept` calls.

The code departs from standard TCP in these ways, and the model follows the
code:

- **Cumulative ACK.** In section 3.3 of RFC 793 an acknowledgment covers
  every sequence number below it, so it removes every queued segment it
  covers. The code pops at most one segment per ACK (tcp.py:123), and
  `OnAck` pops at most one. So the queue can stay non-empty after all the
  data sent has been acknowledged (`StaleEntryAfterFullAck`).
- **One retransmission timer.** Section 5 of RFC 6298 keeps a single timer
  per connection and restarts it. `enviar` schedules a new callback per
  chunk without cancelling the previous one (tcp.py:171). The model counts
  the overwritten callbacks as stray timers.
- **Acknowledgments of unsent data.** Section 3.9 of RFC 793 drops an ACK
  beyond the next sequence number to send. The code accepts any ACK above
  the base (tcp.py:97), so the model does not claim that baseSeqNo stays at
  or below seqNo.
- **Segmentation.** The `min` bound at tcp.py:162 allows for a short last
  chunk, but the loop bound at tcp.py:160 never reaches it: see Findings.

## Model

| member | source | states |
|---|---|---|
| Segments.DataSegmentsShape | tcp.py:159-167 | the send loop emits len(data)/MSS segments. Segment i carries exactly data[i*MSS..(i+1)*MSS] with sequence number seqNo + i*MSS, the current ackNo and the ACK flag. It goes from the local port to the peer's address and port |
| Segments.DataSegmentsPrefix | tcp.py:160-164 | the first k chunks, concatenated, are exactly the first k*MSS bytes of the data, in order |
| Segments.SendCoversPrefix | tcp.py:160-173 | the bytes sent are exactly the longest prefix whose length is a multiple of MSS. Fewer than MSS bytes stay unsent |
| Segments.SendDropsTail | tcp.py:160 | as written: when len(data) is not a multiple of MSS, the bytes sent are not the data, and fewer than ceil(len(data)/MSS) segments go out |
| Segments.AllSegmentsCover | tcp.py:160-164 | with the loop bound corrected to ceil(len(data)/MSS), the payloads concatenate to exactly the data, and every chunk has between 1 and MSS bytes |
| ConnectionSpec.QueueSpan | tcp.py:170-173 | in a contiguous queue, the head's sequence number plus all queued bytes equals seqNo, so the queue covers exactly the sequence numbers from its head up to seqNo. The queue is non-empty exactly when it holds queued bytes. It does not follow that queued bytes are unacknowledged: see StaleEntryAfterFullAck |
| ConnectionSpec.StaleEntryAfterFullAck | tcp.py:105-125 | after sending two full segments, one in-order ACK that acknowledges everything sent leaves baseSeqNo equal to seqNo with one entry still queued, because only the head is popped |
| ConnectionSpec.Accepted | tcp.py:41-55 | after the handshake seqNo = baseSeqNo = isn + 1 and ackNo = peer's sequence number + 1. The queue is empty, no timer is set, and the state is well formed and contiguous |
| ConnectionSpec.NewAck | tcp.py:97-98 | the acknowledgment is processed exactly when the ACK flag is set and the acknowledgment number exceeds baseSeqNo. Otherwise the state is unchanged |
| ConnectionSpec.OnAck | tcp.py:105-125 | baseSeqNo becomes the acknowledgment number. A head with a recorded send time is popped, stray timers are untouched, and a timer is armed exactly when the queue is still non-empty. An empty queue or a retransmitted head leaves queue and timer unchanged. Well-formedness and contiguity are preserved, and the other counters are unchanged |
| ConnectionSpec.OnPayload | tcp.py:132-141 | the payload is delivered once, ackNo advances by its length, and exactly one pure ACK goes out carrying baseSeqNo and the new ackNo. Queue, timers and seqNo are unchanged |
| ConnectionSpec.OnSegment | tcp.py:93-103 | a segment whose sequence number is not ackNo changes nothing and sends nothing. A FIN advances ackNo by one, delivers an empty payload and sends one ACK. A non-empty payload is delivered and acknowledged. An empty non-FIN segment delivers and sends nothing. baseSeqNo, queue and timers change only through a new ACK. The queue either stays as it is or loses its stamped head. seqNo never changes, and well-formedness and contiguity are preserved |
| ConnectionSpec.ArmTimes | tcp.py:171 | k timer schedulings without cancellation leave a handle armed (when k > 0). Scheduled callbacks, current plus stray, grow by exactly k |
| ConnectionSpec.OnSend | tcp.py:151-173 | the segments sent are DataSegments of the data at the current seqNo and ackNo. seqNo advances by exactly the payload bytes sent (MSS per segment). Each segment is appended to the queue, stamped, in order, and the timer is scheduled once per segment. ackNo, baseSeqNo and deliveries are unchanged, and well-formedness is preserved |
| ConnectionSpec.OnSendContiguous | tcp.py:170-173 | sending keeps the unacknowledged queue a gap-free span of sequence space ending at seqNo |
| ConnectionSpec.OnTimer | tcp.py:87-91 | the callback that fires is no longer scheduled and the timer is not re-armed. With a non-empty queue the head segment is retransmitted verbatim to its destination, and its send time is cleared, with the rest of the queue unchanged. With an empty queue nothing is sent. Counters are unchanged, and well-formedness and contiguity are preserved |
| ConnectionSpec.InOrderDelivery | tcp.py:93-135 | any stream of non-empty, non-FIN segments that follow on from the expected sequence number, whatever they acknowledge, is delivered exactly once each, in order. ackNo advances by the total payload length and seqNo is unchanged |
| ConnectionSpec.OutOfOrderIgnored | tcp.py:94-95 | a segment whose sequence number is not the expected one leaves the connection state unchanged |
| ConnectionSpec.RetransmittedHeadStays | tcp.py:107-109 | as written: once the head has been retransmitted, no sequence of events removes it (arriving segments, writes, or scheduled timer callbacks firing). The old queue stays a prefix of the queue |
| ConnectionSpec.OnAckKarn | tcp.py:105-125 | corrected acknowledgment handling: baseSeqNo becomes the acknowledgment number and a non-empty queue always loses its head, retransmitted or not. A timer is armed exactly when entries remain. Well-formedness and contiguity are preserved |
| ConnectionSpec.KarnAgreesOnStampedHead | tcp.py:107-109 | the corrected and the written acknowledgment handling agree exactly when the queue is empty or its head was never retransmitted |
| Tcp.IdOf | tcp.py:33 | the connection id names the segment's source address and port as the peer and its destination as the local end |
| Tcp.Server.constructor | tcp.py:7-12 | a new server has an empty connection table, no accept callback and an empty accepted log |
| Tcp.Server.RegisterAcceptor | tcp.py:14-19 | the accept callback is registered |
| Tcp.Server.Accept | tcp.py:35-58 | a fresh connection replaces whatever the table held under the id, and nothing else in the table changes. Its state is the post-handshake state for the drawn isn. Exactly one SYN+ACK is sent. The connection is handed to the accept callback exactly when one is registered |
| Tcp.Server.Receive | tcp.py:21-64 | a segment for another port or with a bad checksum changes and sends nothing. A SYN installs a fresh connection as Accept states, and a connection it replaces keeps its state. Any other segment for a known id is handled by that connection exactly as OnSegment says, with the table unchanged. A segment for an unknown id changes and sends nothing. The table stays valid |
| Tcp.Connection.constructor | tcp.py:73-84 | a new connection has empty queue and timers and belongs to the server and id given |
| Tcp.Connection.Handshake | tcp.py:41-55 | on a connection as created, the SYN+ACK carries isn and peer's sequence number + 1. The connection ends in the Accepted state (seqNo and baseSeqNo isn + 1, ackNo peer's sequence number + 1) and is valid |
| Tcp.Connection.Receive | tcp.py:93-103 | the connection's new state and the datagrams it sends are exactly those of OnSegment, and validity is kept |
| Tcp.Connection.ProcessAck | tcp.py:105-125 | the new state is exactly OnAck of the old one, and validity is kept |
| Tcp.Connection.ProcessFin | tcp.py:127-130 | ackNo advances by one for the FIN, then the empty payload is processed as OnPayload says |
| Tcp.Connection.ProcessPayload | tcp.py:132-135 | the new state and the one ACK sent are exactly those of OnPayload |
| Tcp.Connection.SendAck | tcp.py:137-141 | exactly one pure ACK is sent, with sequence number baseSeqNo and the current ackNo, to the peer |
| Tcp.Connection.Send | tcp.py:151-173 | the loop leaves the state and the datagrams sent exactly as OnSend says, and keeps the queue valid. The loop invariant is the state after the first i chunks |
| Tcp.Connection.Timer | tcp.py:87-91 | the new state and the retransmission are exactly those of OnTimer, and validity is kept |
| Tcp.Connection.Close | tcp.py:176-187 | one FIN is sent with the current seqNo and ackNo. The server's table loses this id, if present, and nothing else, and stays valid |
| Tcp.CloseThenReceive | tcp.py:59-64 | after a close, a non-SYN segment for the closed id reaches no connection and sends nothing beyond the FIN. The closed connection's state is unchanged |

## Left out

- RTT estimation (tcp.py:111-120 and the `timeoutInterval`, `RTTestimado` and `desvioRTT` fields) is left out. It is floating-point arithmetic on wall-clock time, and it affects only *when* a timer fires. A send time is modelled as present or cleared (`Entry.stamped`).
- The asyncio event loop is left out. Scheduling, cancelling and firing callbacks are modelled as `TimerState`. The caller chooses which scheduled callback fires and when.
- The header codec, checksum computation and `fix_checksum` live in `tcputils`, which is not part of this model. Segments are already-decoded `Segment` values, and the checksum test (tcp.py:28, including `ignore_checksum`) is the boolean parameter `checksumOk`.
- The header's data-offset field and payload slicing (tcp.py:32) are left out: the payload arrives already separated from the header.
- MSS is defined in `tcputils`, which is not part of this model. It is fixed at 1460 here. The proofs do not depend on the value beyond MSS > 0.
- `randint(0, 0xffff)` (tcp.py:41) is left out: the drawn initial sequence number is the parameter `isn`, with `isn <= 0xffff`.
- The datagram layer (`rede.enviar`, `rede.registrar_recebedor` at tcp.py:12) is reduced to the ghost log `Network.sent`.
- `Conexao.registrar_recebedor` (tcp.py:144-149) is not modelled as an operation. The receive callback is taken to be registered, and deliveries go to the ghost log `Connection.delivered`. With no callback, tcp.py:133 would raise.
- ConnectionSpec.OnPayload, Tcp.Connection.ProcessPayload, Tcp.Server.Accept: the application callbacks (tcp.py:58, 133) are taken not to call back into the connection. They are logged and return. The source's own usage calls `fechar` from the receive callback (tcp.py:175), which runs before `ack_no` advances and the ACK goes out (tcp.py:134-135). The model therefore does not capture three behaviours. A FIN sent from inside the callback goes out before the payload's ACK and carries the old ackNo. An `enviar` called from inside the callback carries the old ackNo. The ACK is still sent after the connection has left the server's table. "Exactly one pure ACK" holds only for a callback that sends nothing.
- The diagnostic messages (tcp.py:29, 63-64) are left out.
- The unused field `base_seq_no` (tcp.py:80) is left out. The code reads and writes `base_sqe_no`, modelled as `baseSeqNo`. Fields the source initialises to `None` (tcp.py:76-79) start at zero or empty here, and the handshake sets them before use.
- Sequence numbers are unbounded: no 32-bit wrap-around is modelled, since the source never reduces them either. `int(len(dados)/MSS)` is computed as exact integer division, which equals the float expression for any realistic buffer size.
- Tcp.Connection.Close: says nothing about timers. `fechar` does not cancel them, so a scheduled callback may still retransmit after the connection left the table.

## Findings

| source | as written | input that shows it | evidently intended | confidence | as-written member | corrected member |
|---|---|---|---|---|---|---|
| tcp.py:160 | the send loop runs `int(len(dados)/MSS)` times, so a trailing chunk shorter than MSS is never sent, although the `min(len(dados), (i+1)*MSS)` bound at tcp.py:162 is there to shorten that last chunk | `enviar` with 3*MSS + 7 bytes sends 3 segments and never sends the last 7 bytes | ceil(len/MSS) iterations, so that every byte is sent once, in order | not executed | Segments.SendDropsTail | Segments.AllSegmentsCover |
| tcp.py:107-109 | `_process_ack` returns before popping when the head's send time was cleared by a retransmission, so a retransmitted segment is never removed from the queue, even when acknowledged | send one segment, let the timer fire, then acknowledge it: the segment stays at the head of the queue, and later acknowledgments cannot pop it either | skip only the RTT sample for a retransmitted segment (Karn's algorithm) and still pop it | not executed | ConnectionSpec.RetransmittedHeadStays | ConnectionSpec.OnAckKarn |

The `Connection` class keeps the behaviour as written. The corrected
definitions are proved alongside it: `AllSegmentsCover` for segmentation,
and `OnAckKarn` with `KarnAgreesOnStampedHead` for acknowledgments.
