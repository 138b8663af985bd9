/** The server side of the simplified TCP as objects: a `Server` that owns
    the table of connections and demultiplexes inbound segments, and one
    `Connection` per accepted handshake whose counters, queue and timers are
    updated in place. Each method is proved to move the abstract state
    exactly as the transition functions of module ConnectionSpec say. */
module Tcp {
  import opened Segments
  import opened ConnectionSpec

  /** The network layer, reduced to the log of datagrams handed to it. */
  class Network {
    ghost var sent: seq<Datagram>

    constructor ()
      ensures sent == []
    {
      sent := [];
    }
  }

  /** The connection id of an inbound segment: its source first, then its
      destination. */
  function IdOf(srcAddr: Addr, dstAddr: Addr, seg: Segment): (id: ConnId)
    ensures id.peerAddr == srcAddr && id.peerPort == seg.srcPort
    ensures id.localAddr == dstAddr && id.localPort == seg.dstPort
  {
    ConnId(srcAddr, seg.srcPort, dstAddr, seg.dstPort)
  }

  /** The dispatcher listening on one local port. */
  class Server {
    const net: Network
    const port: Port
    var conns: map<ConnId, Connection>
    var hasAcceptor: bool
    /** The connections handed to the accept callback, in order. */
    ghost var accepted: seq<Connection>

    /** Every table entry is a well-formed connection of this server, stored
        under its own id. */
    ghost predicate Valid()
      reads this, conns.Values
    {
      forall k | k in conns ::
        conns[k].id == k && conns[k].server == this && conns[k].net == net && conns[k].Valid()
    }

    /** The connection an inbound segment for `id` would be routed to. */
    function Routed(id: ConnId): set<Connection>
      reads this
    {
      if id in conns then {conns[id]} else {}
    }

    constructor (net: Network, port: Port)
      ensures Valid()
      ensures this.net == net && this.port == port
      ensures conns == map[] && !hasAcceptor && accepted == []
    {
      this.net := net;
      this.port := port;
      conns := map[];
      hasAcceptor := false;
      accepted := [];
    }

    /** Registers the application's accept callback. */
    method RegisterAcceptor()
      modifies this`hasAcceptor
      ensures hasAcceptor
    {
      hasAcceptor := true;
    }

    /** The SYN branch of `Servidor._rdt_rcv`: a new connection replaces
        whatever the table held under `id`, answers with SYN+ACK carrying the
        initial sequence number `isn`, and the SYN takes one sequence number
        on each side. */
    method Accept(id: ConnId, peerSeq: nat, isn: nat)
      requires Valid()
      requires isn <= 0xffff
      modifies this, net
      ensures Valid()
      ensures hasAcceptor == old(hasAcceptor)
      ensures id in conns && fresh(conns[id]) && conns == old(conns)[id := conns[id]]
      ensures conns[id].State() == Accepted(isn, peerSeq)
      ensures net.sent == old(net.sent) + [SynAck(id, isn, peerSeq)]
      ensures accepted == old(accepted) + (if hasAcceptor then [conns[id]] else [])
    {
      var c := new Connection(this, id);
      conns := conns[id := c];
      c.Handshake(isn, peerSeq);
      if hasAcceptor {
        accepted := accepted + [c];
      }
      TableWithNew(old(conns), id, c);
    }

    /** Adding a well-formed connection of this server under its own id
        keeps the table well formed. */
    lemma TableWithNew(before: map<ConnId, Connection>, id: ConnId, c: Connection)
      requires forall k | k in before ::
        before[k].id == k && before[k].server == this && before[k].net == net && before[k].Valid()
      requires conns == before[id := c]
      requires c.id == id && c.server == this && c.net == net && c.Valid()
      ensures Valid()
    {
    }

    /** `Servidor._rdt_rcv`: `checksumOk` is the codec's verdict on the
        checksum (or that checks are switched off); `isn` is the random
        initial sequence number drawn for a SYN. */
    method Receive(srcAddr: Addr, dstAddr: Addr, seg: Segment, checksumOk: bool, isn: nat)
      requires Valid()
      requires isn <= 0xffff
      modifies this, net, Routed(IdOf(srcAddr, dstAddr, seg))
      ensures Valid()
      ensures hasAcceptor == old(hasAcceptor)
      // another port or a bad checksum: nothing happens
      ensures seg.dstPort != port || !checksumOk ==>
        conns == old(conns) && net.sent == old(net.sent) && accepted == old(accepted) &&
        unchanged(Routed(IdOf(srcAddr, dstAddr, seg)))
      // a SYN: a fresh connection under the segment's id, answered by one SYN+ACK
      ensures var id := IdOf(srcAddr, dstAddr, seg);
        seg.dstPort == port && checksumOk && HasFlag(seg.flags, SYN) ==>
          id in conns && fresh(conns[id]) && conns == old(conns)[id := conns[id]] &&
          conns[id].State() == Accepted(isn, seg.seqNo) &&
          net.sent == old(net.sent) + [SynAck(id, isn, seg.seqNo)] &&
          accepted == old(accepted) + (if hasAcceptor then [conns[id]] else []) &&
          unchanged(old(Routed(id)))
      // any other segment for a known id: that connection handles it
      ensures var id := IdOf(srcAddr, dstAddr, seg);
        seg.dstPort == port && checksumOk && !HasFlag(seg.flags, SYN) && id in old(conns) ==>
          conns == old(conns) && accepted == old(accepted) &&
          var r := OnSegment(id, old(conns[id].State()), seg.seqNo, seg.ackNo, seg.flags, seg.payload);
          conns[id].State() == r.next && net.sent == old(net.sent) + r.out
      // any other segment for an unknown id: nothing happens
      ensures var id := IdOf(srcAddr, dstAddr, seg);
        !HasFlag(seg.flags, SYN) && id !in old(conns) ==>
          conns == old(conns) && net.sent == old(net.sent) && accepted == old(accepted)
    {
      if seg.dstPort != port {
        return;
      }
      if !checksumOk {
        return;
      }
      var id := IdOf(srcAddr, dstAddr, seg);
      if HasFlag(seg.flags, SYN) {
        Accept(id, seg.seqNo, isn);
      } else if id in conns {
        conns[id].Receive(seg.seqNo, seg.ackNo, seg.flags, seg.payload);
      }
    }
  }

  /** One established connection. */
  class Connection {
    const server: Server
    const net: Network
    const id: ConnId
    var seqNo: nat
    var ackNo: nat
    var baseSeqNo: nat
    var queue: seq<Entry>
    var timerSet: bool
    var timerArmed: bool
    var strayTimers: nat
    /** The payloads handed to the application's receive callback. */
    ghost var delivered: seq<seq<byte>>

    ghost function State(): ConnState
      reads this
    {
      ConnState(seqNo, ackNo, baseSeqNo, queue, TimerState(timerSet, timerArmed, strayTimers), delivered)
    }

    ghost predicate Valid()
      reads this
    {
      Wf(State()) && Contiguous(State())
    }

    /** The counters start at zero; the server sets them during the
        handshake before anything else can use them. */
    constructor (server: Server, id: ConnId)
      ensures this.server == server && net == server.net && this.id == id
      ensures State() == Initial()
      ensures Valid()
    {
      this.server := server;
      this.net := server.net;
      this.id := id;
      seqNo, ackNo, baseSeqNo := 0, 0, 0;
      queue := [];
      timerSet, timerArmed, strayTimers := false, false, 0;
      delivered := [];
    }

    /** The handshake the server performs on a new connection: take the
        initial sequence number, expect the byte after the peer's SYN, send
        SYN+ACK, and let the SYN consume one sequence number. */
    method Handshake(isn: nat, peerSeq: nat)
      requires State() == Initial()
      modifies this, net
      ensures Valid()
      ensures State() == Accepted(isn, peerSeq)
      ensures net.sent == old(net.sent) + [SynAck(id, isn, peerSeq)]
    {
      seqNo := isn;
      ackNo := peerSeq + 1;
      net.sent := net.sent + [Outbound(id, seqNo, ackNo, SYN | ACK, [])];
      seqNo := seqNo + 1;
      baseSeqNo := seqNo;
    }

    /** `Conexao._rdt_rcv`. */
    method Receive(peerSeq: nat, peerAck: nat, flags: Flags, payload: seq<byte>)
      requires Valid()
      modifies this, net
      ensures Valid()
      ensures var r := OnSegment(id, old(State()), peerSeq, peerAck, flags, payload);
        State() == r.next && net.sent == old(net.sent) + r.out
    {
      if peerSeq != ackNo {
        return;
      }
      if HasFlag(flags, ACK) && peerAck > baseSeqNo {
        ProcessAck(peerAck);
      }
      if HasFlag(flags, FIN) {
        ProcessFin();
      } else if |payload| > 0 {
        ProcessPayload(payload);
      }
    }

    /** `Conexao._process_ack`, without the RTT estimator. */
    method ProcessAck(ack: nat)
      requires Valid()
      modifies this
      ensures Valid()
      ensures State() == OnAck(old(State()), ack)
    {
      baseSeqNo := ack;
      if queue != [] {
        if queue == [] || !queue[0].stamped {
          return;
        }
        // cancel the current timer, drop the acknowledged head, re-arm
        timerArmed := false;
        queue := queue[1..];
        if queue != [] {
          timerArmed := true;
        }
      }
    }

    /** `Conexao._process_fin`. */
    method ProcessFin()
      requires Valid()
      modifies this, net
      ensures Valid()
      ensures var r := OnFin(id, old(State()));
        State() == r.next && net.sent == old(net.sent) + r.out
    {
      ackNo := ackNo + 1;
      ProcessPayload([]);
    }

    /** `Conexao._process_payload`. */
    method ProcessPayload(payload: seq<byte>)
      requires Valid()
      modifies this, net
      ensures Valid()
      ensures var r := OnPayload(id, old(State()), payload);
        State() == r.next && net.sent == old(net.sent) + r.out
    {
      delivered := delivered + [payload];
      ackNo := ackNo + |payload|;
      SendAck();
    }

    /** `Conexao._send_ack`. */
    method SendAck()
      modifies net
      ensures net.sent == old(net.sent) + [AckDatagram(id, State())]
    {
      net.sent := net.sent + [Outbound(id, baseSeqNo, ackNo, ACK, [])];
    }

    /** `Conexao.enviar`. */
    method Send(data: seq<byte>)
      requires Valid()
      modifies this, net
      ensures Valid()
      ensures var r := OnSend(id, old(State()), data);
        State() == r.next && net.sent == old(net.sent) + r.out
    {
      ghost var s0 := State();
      ghost var ds := DataSegments(id, seqNo, ackNo, data);
      var n := |data| / MSS;
      var i := 0;
      while i < n
        invariant 0 <= i <= n
        invariant State() == SendProgress(s0, ds, i)
        invariant net.sent == old(net.sent) + ds[..i]
      {
        ChunkInside(i, |data|);
        DataSegmentAt(id, s0.seqNo, s0.ackNo, data, i);
        var begin := i * MSS;
        var end := Min(|data|, (i + 1) * MSS);
        var payload := data[begin..end];
        var d := Outbound(id, seqNo, ackNo, ACK, payload);
        assert d == ds[i];
        net.sent := net.sent + [d];
        // a new timer; the previous handle is overwritten without cancelling
        if timerArmed {
          strayTimers := strayTimers + 1;
        }
        timerSet, timerArmed := true, true;
        queue := queue + [Entry(d.seg, |payload|, d.dst, true)];
        seqNo := seqNo + |payload|;
        SendProgressStep(s0, ds, i);
        i := i + 1;
      }
      assert ds[..n] == ds;
      SendFinished(id, s0, data, State());
    }

    /** `Conexao._timer`, run by one scheduled callback: the one behind the
        current handle when `fromHandle`, a stray one otherwise. */
    method Timer(fromHandle: bool)
      requires Valid()
      requires if fromHandle then timerArmed else strayTimers > 0
      modifies this, net
      ensures Valid()
      ensures var r := OnTimer(old(State()), fromHandle);
        State() == r.next && net.sent == old(net.sent) + r.out
    {
      ghost var r := OnTimer(State(), fromHandle);
      // the callback that runs is no longer scheduled
      if fromHandle {
        timerArmed := false;
      } else {
        strayTimers := strayTimers - 1;
      }
      if queue != [] {
        var head := queue[0];
        net.sent := net.sent + [Datagram(head.seg, head.dst)];
        queue := queue[0 := head.(stamped := false)];
        assert queue == r.next.queue;
      }
      assert State() == r.next;
    }

    /** `Conexao.fechar`: send a FIN and drop whatever the server's table
        holds under this id. Timers are left as they are. */
    method Close()
      modifies server`conns, net
      ensures net.sent == old(net.sent) + [FinDatagram(id, State())]
      ensures server.conns == old(server.conns) - {id}
      ensures old(server.Valid()) ==> server.Valid()
    {
      net.sent := net.sent + [Outbound(id, seqNo, ackNo, FIN, [])];
      if id in server.conns {
        server.conns := server.conns - {id};
      }
    }
  }

  /** After a connection is closed, a later segment for its id that is not
      a SYN is treated as belonging to an unknown connection: nothing is
      routed to it and nothing is sent. */
  method CloseThenReceive(s: Server, c: Connection, srcAddr: Addr, dstAddr: Addr, seg: Segment,
                          checksumOk: bool, isn: nat)
    requires s.Valid() && c.server == s && c.net == s.net
    requires IdOf(srcAddr, dstAddr, seg) == c.id && !HasFlag(seg.flags, SYN)
    requires isn <= 0xffff
    modifies s, s.net
    ensures c.id !in s.conns && s.conns == old(s.conns) - {c.id}
    ensures s.net.sent == old(s.net.sent) + [FinDatagram(c.id, c.State())]
    ensures c.State() == old(c.State())
  {
    c.Close();
    s.Receive(srcAddr, dstAddr, seg, checksumOk, isn);
  }
}
