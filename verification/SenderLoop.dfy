// Sending one batch over a socket that may refuse for now: the index is an
// unsigned machine word that is decremented before the loop increments it.
module SenderLoop {

  const WORD: nat := 0x1_0000_0000_0000_0000

  function Decrement(i: nat): nat
    requires i < WORD
  {
    if i == 0 then WORD - 1 else i - 1
  }

  function Increment(i: nat): nat {
    (i + 1) % WORD
  }

  /** sendto's answers, by attempt. */
  datatype Answer = Sent | WouldBlock | Failed

  datatype Datagram = Datagram(payload: seq<bv8>)

  const SUCCESS: int := 0
  const SEND_ERROR: int := 2819

  /** What went out, and the answers still to come. */
  class Socket {
    const answers: nat -> Answer
    var attempts: nat
    var delivered: seq<Datagram>

    constructor (answers: nat -> Answer)
      ensures this.answers == answers && attempts == 0 && delivered == []
    {
      this.answers := answers;
      attempts, delivered := 0, [];
    }

    method SendTo(packet: Datagram) returns (a: Answer)
      modifies this
      ensures a == answers(old(attempts)) && attempts == old(attempts) + 1
      ensures delivered == old(delivered) + if a == Sent then [packet] else []
    {
      a := answers(attempts);
      attempts := attempts + 1;
      if a == Sent {
        delivered := delivered + [packet];
      }
    }
  }

  class Statistics {
    var udpPacketsSent: nat
    var bitsSentCurrentSecond: nat

    constructor ()
      ensures udpPacketsSent == 0 && bitsSentCurrentSecond == 0
    {
      udpPacketsSent, bitsSentCurrentSecond := 0, 0;
    }

    method UdpPacketSent(bits: nat)
      modifies this
      ensures udpPacketsSent == old(udpPacketsSent) + 1
      ensures bitsSentCurrentSecond == old(bitsSentCurrentSecond) + bits
    {
      bitsSentCurrentSecond := bitsSentCurrentSecond + bits;
      udpPacketsSent := udpPacketsSent + 1;
    }
  }

  /** How many of the answers from `lo` up to `hi` would block. */
  function Blocks(answers: nat -> Answer, lo: nat, hi: nat): nat
    requires lo <= hi
  {
    if lo == hi then 0 else Blocks(answers, lo, hi - 1) + if answers(hi - 1) == WouldBlock then 1 else 0
  }

  /** How many of the answers from `lo` up to `hi` took the packet. */
  function Sents(answers: nat -> Answer, lo: nat, hi: nat): nat
    requires lo <= hi
  {
    if lo == hi then 0 else Sents(answers, lo, hi - 1) + if answers(hi - 1) == Sent then 1 else 0
  }

  /** The sizes of the packets tried by the attempts from `lo` up to `hi`: each is
      the first of the batch that is not out yet. */
  function SizeTried(packets: seq<Datagram>, answers: nat -> Answer, lo: nat, hi: nat): nat
    requires lo <= hi
  {
    if lo == hi then 0
    else
      var k := Sents(answers, lo, hi - 1);
      SizeTried(packets, answers, lo, hi - 1) + if k < |packets| then |packets[k].payload| else 0
  }

  /** One call of sendto and its entry in the statistics. */
  method Attempt(packet: Datagram, socket: Socket, stats: Statistics) returns (a: Answer)
    modifies socket, stats
    ensures a == socket.answers(old(socket.attempts)) && socket.attempts == old(socket.attempts) + 1
    ensures socket.delivered == old(socket.delivered) + if a == Sent then [packet] else []
    ensures stats.udpPacketsSent == old(stats.udpPacketsSent) + 1
    ensures stats.bitsSentCurrentSecond == old(stats.bitsSentCurrentSecond) + |packet.payload|
  {
    a := socket.SendTo(packet);
    stats.UdpPacketSent(|packet.payload|);
  }

  /** With only finitely many refusals the batch goes out once, whole and in
      order, unless a send fails for good; every attempt is counted as a packet
      sent, with its size, the refused and the failed ones too. */
  method SendBatch(packets: seq<Datagram>, socket: Socket, stats: Statistics, ghost lastBlock: nat)
    returns (code: int)
    requires |packets| < WORD
    requires forall k :: k >= lastBlock ==> socket.answers(k) != WouldBlock
    modifies socket, stats
    ensures code == SUCCESS || code == SEND_ERROR
    ensures code == SUCCESS ==> socket.delivered == old(socket.delivered) + packets
    ensures code == SEND_ERROR ==>
              exists n :: 0 <= n < |packets| && socket.delivered == old(socket.delivered) + packets[..n]
    ensures code == SEND_ERROR ==> socket.attempts > 0 && socket.answers(socket.attempts - 1) == Failed
    ensures socket.attempts >= old(socket.attempts)
    ensures socket.attempts - old(socket.attempts)
         == |socket.delivered| - |old(socket.delivered)|
            + Blocks(socket.answers, old(socket.attempts), socket.attempts)
            + (if code == SEND_ERROR then 1 else 0)
    ensures stats.udpPacketsSent - old(stats.udpPacketsSent) == socket.attempts - old(socket.attempts)
    ensures stats.bitsSentCurrentSecond == old(stats.bitsSentCurrentSecond)
            + SizeTried(packets, socket.answers, old(socket.attempts), socket.attempts)
  {
    var i := 0;
    while i < |packets|
      invariant 0 <= i <= |packets|
      invariant socket.delivered == old(socket.delivered) + packets[..i]
      invariant socket.attempts >= old(socket.attempts)
      invariant socket.attempts - old(socket.attempts)
             == i + Blocks(socket.answers, old(socket.attempts), socket.attempts)
      invariant stats.udpPacketsSent - old(stats.udpPacketsSent) == socket.attempts - old(socket.attempts)
      invariant i == Sents(socket.answers, old(socket.attempts), socket.attempts)
      invariant stats.bitsSentCurrentSecond == old(stats.bitsSentCurrentSecond)
                + SizeTried(packets, socket.answers, old(socket.attempts), socket.attempts)
      decreases |packets| - i, lastBlock - socket.attempts
    {
      var result := Attempt(packets[i], socket, stats);
      if result == WouldBlock {
        i := Decrement(i);
      } else if result == Failed {
        return SEND_ERROR;
      } else {
        assert packets[..i + 1] == packets[..i] + [packets[i]];
      }
      i := Increment(i);
    }
    assert packets[..i] == packets;
    code := SUCCESS;
  }
}
