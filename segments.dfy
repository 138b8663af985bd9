/** Wire-level values of the simplified TCP: connection ids, segments as the
    header codec would describe them, the control flags, and the way outbound
    application data is cut into MSS-sized segments. */
module Segments {

  newtype byte = b: int | 0 <= b < 256

  /** Network addresses are opaque strings (the network layer resolves them). */
  type Addr = string
  type Port = nat

  /** The 16-bit flags word of the header (the data offset shares its top bits). */
  type Flags = bv16

  /** Control bits, as in section 3.1 of RFC 793. */
  const FIN: Flags := 0x01
  const SYN: Flags := 0x02
  const ACK: Flags := 0x10

  /** Maximum segment size: every data segment carries at most this many bytes. */
  const MSS: nat := 1460

  predicate HasFlag(flags: Flags, f: Flags)
  {
    flags & f == f
  }

  /** The connection identity: the peer's address and port first, then ours,
      in the order the inbound segment names them. */
  datatype ConnId = ConnId(peerAddr: Addr, peerPort: Port, localAddr: Addr, localPort: Port)

  /** A decoded (or to-be-encoded) segment: header fields and payload. The
      checksum is not represented: the codec computes and checks it. */
  datatype Segment = Segment(srcPort: Port, dstPort: Port, seqNo: nat, ackNo: nat,
                             flags: Flags, payload: seq<byte>)

  /** A segment handed to the network layer together with its destination. */
  datatype Datagram = Datagram(seg: Segment, dst: Addr)

  /** A segment this side of connection `id` sends to its peer. */
  function Outbound(id: ConnId, seqNo: nat, ackNo: nat, flags: Flags, payload: seq<byte>): Datagram
  {
    Datagram(Segment(id.localPort, id.peerPort, seqNo, ackNo, flags, payload), id.peerAddr)
  }

  /** All payload bytes of `ds`, in order. */
  function Payloads(ds: seq<Datagram>): seq<byte>
  {
    if ds == [] then [] else Payloads(ds[..|ds| - 1]) + ds[|ds| - 1].seg.payload
  }

  /** The data segments `enviar` emits for `data`, as written: the loop runs
      |data| / MSS times (integer division), chunk i is
      data[i * MSS .. min(|data|, (i + 1) * MSS)] and carries sequence number
      seqNo + i * MSS, the current acknowledgment number and the ACK flag. */
  function DataSegments(id: ConnId, seqNo: nat, ackNo: nat, data: seq<byte>): seq<Datagram>
  {
    seq(|data| / MSS, i requires 0 <= i < |data| / MSS =>
      Outbound(id, seqNo + i * MSS, ackNo, ACK, data[i * MSS .. Min(|data|, (i + 1) * MSS)]))
  }

  function Min(a: int, b: int): int
  {
    if a <= b then a else b
  }

  /** Chunk i of a loop that runs len / MSS times lies wholly inside the data. */
  lemma ChunkInside(i: nat, len: nat)
    requires i < len / MSS
    ensures (i + 1) * MSS <= len && Min(len, (i + 1) * MSS) == (i + 1) * MSS
  {
  }

  lemma DataSegmentAt(id: ConnId, seqNo: nat, ackNo: nat, data: seq<byte>, i: nat)
    requires i < |data| / MSS
    ensures i < |DataSegments(id, seqNo, ackNo, data)|
    ensures DataSegments(id, seqNo, ackNo, data)[i] ==
      Outbound(id, seqNo + i * MSS, ackNo, ACK, data[i * MSS .. Min(|data|, (i + 1) * MSS)])
  {
  }

  /** Every data segment is a full MSS chunk, the sequence numbers advance by
      MSS from `seqNo`, and each goes to the peer with the ACK flag. */
  lemma DataSegmentsShape(id: ConnId, seqNo: nat, ackNo: nat, data: seq<byte>)
    ensures var ds := DataSegments(id, seqNo, ackNo, data);
      |ds| == |data| / MSS &&
      forall i :: 0 <= i < |ds| ==>
        |ds[i].seg.payload| == MSS && ds[i].seg.payload == data[i * MSS .. (i + 1) * MSS] &&
        ds[i].seg.seqNo == seqNo + i * MSS && ds[i].seg.ackNo == ackNo &&
        ds[i].seg.flags == ACK && ds[i].dst == id.peerAddr &&
        ds[i].seg.srcPort == id.localPort && ds[i].seg.dstPort == id.peerPort
  {
  }

  /** The first k data segments carry exactly the first k * MSS bytes of data. */
  lemma {:induction false} DataSegmentsPrefix(id: ConnId, seqNo: nat, ackNo: nat, data: seq<byte>, k: nat)
    requires k <= |data| / MSS
    ensures Payloads(DataSegments(id, seqNo, ackNo, data)[..k]) == data[..k * MSS]
  {
    var ds := DataSegments(id, seqNo, ackNo, data);
    if k > 0 {
      var i := k - 1;
      DataSegmentsPrefix(id, seqNo, ackNo, data, i);
      ChunkInside(i, |data|);
      DataSegmentAt(id, seqNo, ackNo, data, i);
      PayloadsStep(ds, k);
      var lo, hi := i * MSS, (i + 1) * MSS;
      assert hi == k * MSS;
      JoinSlices(data, lo, hi);
    }
  }

  /** The payloads of a prefix grow by the payload of the next datagram. */
  lemma PayloadsStep(ds: seq<Datagram>, k: nat)
    requires 0 < k <= |ds|
    ensures Payloads(ds[..k]) == Payloads(ds[..k - 1]) + ds[k - 1].seg.payload
  {
    assert ds[..k][..k - 1] == ds[..k - 1];
  }

  lemma JoinSlices(data: seq<byte>, lo: nat, hi: nat)
    requires lo <= hi <= |data|
    ensures data[..lo] + data[lo..hi] == data[..hi]
  {
  }

  /** `enviar` transmits exactly the longest prefix of `data` whose length is
      a multiple of MSS; fewer than MSS bytes are left over. */
  lemma SendCoversPrefix(id: ConnId, seqNo: nat, ackNo: nat, data: seq<byte>)
    ensures var sent := Payloads(DataSegments(id, seqNo, ackNo, data));
      sent == data[..(|data| / MSS) * MSS] && |data| - |sent| < MSS
  {
    var ds := DataSegments(id, seqNo, ackNo, data);
    DataSegmentsPrefix(id, seqNo, ackNo, data, |data| / MSS);
    assert ds[..|ds|] == ds;
  }

  /** As written, `enviar` never transmits the trailing bytes when |data| is
      not a multiple of MSS: the concatenated payloads differ from data. */
  lemma SendDropsTail(id: ConnId, seqNo: nat, ackNo: nat, data: seq<byte>)
    requires |data| % MSS != 0
    ensures Payloads(DataSegments(id, seqNo, ackNo, data)) != data
    ensures |DataSegments(id, seqNo, ackNo, data)| < (|data| + MSS - 1) / MSS
  {
    SendCoversPrefix(id, seqNo, ackNo, data);
  }

  /** The evidently intended segmentation: ceil(|data| / MSS) chunks, the last
      one possibly shorter than MSS, as the `min` in the chunk bound suggests. */
  function AllSegments(id: ConnId, seqNo: nat, ackNo: nat, data: seq<byte>): seq<Datagram>
  {
    seq((|data| + MSS - 1) / MSS, i requires 0 <= i < (|data| + MSS - 1) / MSS =>
      Outbound(id, seqNo + i * MSS, ackNo, ACK, data[i * MSS .. Min(|data|, (i + 1) * MSS)]))
  }

  lemma AllSegmentAt(id: ConnId, seqNo: nat, ackNo: nat, data: seq<byte>, i: nat)
    requires i < (|data| + MSS - 1) / MSS
    ensures i < |AllSegments(id, seqNo, ackNo, data)|
    ensures i * MSS < |data| && i * MSS + MSS == (i + 1) * MSS
    ensures AllSegments(id, seqNo, ackNo, data)[i] ==
      Outbound(id, seqNo + i * MSS, ackNo, ACK, data[i * MSS .. Min(|data|, (i + 1) * MSS)])
  {
    CeilChunkInside(i, |data|);
  }

  lemma {:induction false} AllSegmentsPrefix(id: ConnId, seqNo: nat, ackNo: nat, data: seq<byte>, k: nat)
    requires k <= (|data| + MSS - 1) / MSS
    ensures Payloads(AllSegments(id, seqNo, ackNo, data)[..k]) == data[..Min(|data|, k * MSS)]
  {
    var ds := AllSegments(id, seqNo, ackNo, data);
    if k > 0 {
      var i := k - 1;
      AllSegmentsPrefix(id, seqNo, ackNo, data, i);
      AllSegmentAt(id, seqNo, ackNo, data, i);
      PayloadsStep(ds, k);
      var lo, hi := i * MSS, Min(|data|, (i + 1) * MSS);
      assert hi == Min(|data|, k * MSS) && lo == Min(|data|, i * MSS);
      JoinSlices(data, lo, hi);
    }
  }

  /** With the corrected loop bound every byte is sent exactly once, in order,
      in non-empty chunks of at most MSS bytes. */
  lemma AllSegmentsCover(id: ConnId, seqNo: nat, ackNo: nat, data: seq<byte>)
    ensures Payloads(AllSegments(id, seqNo, ackNo, data)) == data
    ensures var ds := AllSegments(id, seqNo, ackNo, data);
      forall i :: 0 <= i < |ds| ==> 0 < |ds[i].seg.payload| <= MSS
  {
    var ds := AllSegments(id, seqNo, ackNo, data);
    AllSegmentsPrefix(id, seqNo, ackNo, data, |ds|);
    assert ds[..|ds|] == ds;
    assert Min(|data|, |ds| * MSS) == |data| by { CeilCovers(|data|); }
    forall i | 0 <= i < |ds|
      ensures 0 < |ds[i].seg.payload| <= MSS
    {
      AllSegmentAt(id, seqNo, ackNo, data, i);
    }
  }

  /** ceil(len / MSS) chunks of MSS bytes reach the end of the data. */
  lemma CeilCovers(len: nat)
    ensures len <= ((len + MSS - 1) / MSS) * MSS
  {
  }

  /** Chunk i of a loop that runs ceil(len / MSS) times starts inside the data. */
  lemma CeilChunkInside(i: nat, len: nat)
    requires i < (len + MSS - 1) / MSS
    ensures i * MSS < len
  {
  }
}
