/**
 * The receive side of a link (tcp.c:175-346, 688-746): segments of any length become user messages,
 * in place for frames that fit the receive buffer and through a heap block for frames that do not.
 */
module Reassembly {
  import opened Templates
  import opened Framing
  import opened ControlBlock

  ghost function ShapeOf(ncb: Ncb, packet: RecvPacket): Shape {
    Shape(ncb.tst.cb, packet.oriBuffer.Length, ncb.fullyReceive)
  }

  /** The header of s announces a frame longer than the receive buffer. */
  ghost predicate StartsLarge(t: Template, capacity: nat, s: seq<Byte>) {
    Announced(t, s).Some? && Announced(t, s).value > capacity
  }

  /** Where the bytes that belong to no delivered frame are kept. */
  ghost function Residue(ncb: Ncb, packet: RecvPacket): seq<Byte>
    requires ncb.BlockValid() && 0 <= packet.analyzedOffset <= packet.oriBuffer.Length
    reads ncb, ncb.lbData, packet`analyzedOffset, packet.oriBuffer
  {
    if ncb.lbData != null then ncb.Gathered() else packet.oriBuffer[..packet.analyzedOffset]
  }

  /** A marked large block holds the front of the one frame that its header announces. */
  ghost predicate BlockGathers(ncb: Ncb, packet: RecvPacket)
    reads ncb, ncb.lbData, packet`analyzedOffset
  {
    && ncb.BlockValid()
    && (ncb.lbData != null ==>
      && ncb.lbData != packet.oriBuffer
      && 0 < ncb.tst.cb <= ncb.lbCpyOffset < ncb.lbLength
      && packet.oriBuffer.Length < ncb.lbLength
      && Announced(ncb.tst, ncb.Gathered()) == Some(ncb.lbLength)
      && packet.analyzedOffset == 0)
  }

  /** The request that is posted covers exactly the free part of the buffer. */
  ghost predicate RequestValid(packet: RecvPacket)
    reads packet
  {
    && packet.irp == packet.analyzedOffset >= 0
    && packet.sizeForReq >= 0
    && packet.analyzedOffset + packet.sizeForReq == packet.oriBuffer.Length
  }

  /** Everything handed to the user so far is what the stream means. */
  ghost predicate Faithful(ncb: Ncb, packet: RecvPacket, stream: seq<Byte>)
    reads ncb
  {
    && ncb.HandedFits(ShapeOf(ncb, packet))
    && if ncb.tst.cb == 0 then Flatten(ncb.cut) == stream
       else ncb.cut == Parse(ncb.tst, stream).frames
  }

  /** All of the stream is accounted for: handed to the user, or kept as the remainder. */
  ghost predicate Settled(ncb: Ncb, packet: RecvPacket, stream: seq<Byte>)
    requires ncb.BlockValid() && 0 <= packet.analyzedOffset <= packet.oriBuffer.Length
    reads ncb, ncb.lbData, packet`analyzedOffset, packet.oriBuffer
  {
    && Faithful(ncb, packet, stream)
    && if ncb.tst.cb == 0 then Residue(ncb, packet) == []
    else
      var p := Parse(ncb.tst, stream);
      && !p.bad && Residue(ncb, packet) == p.rest
      && (StartsLarge(ncb.tst, packet.oriBuffer.Length, p.rest) ==> ncb.lbData != null)
  }

  /** The packet, the block and what was handed over agree with the bytes received. */
  ghost predicate InStep(ncb: Ncb, packet: RecvPacket)
    reads ncb, ncb.lbData, packet, packet.oriBuffer
  {
    && RequestValid(packet)
    && BlockGathers(ncb, packet)
    && Settled(ncb, packet, ncb.received)
  }

  /** Holds whenever a receive is posted. A whole header can only have arrived if the buffer holds one. */
  ghost predicate Posted(ncb: Ncb, packet: RecvPacket)
    reads ncb, ncb.lbData, packet, packet.oriBuffer
  {
    && !packet.freed
    && InStep(ncb, packet)
    && (ncb.tst.cb <= |ncb.received| && ncb.tst.cb > 0 ==> ncb.tst.cb <= packet.oriBuffer.Length)
  }

  /** tcp_entry and the first receive of a connected link (tcp.c:377-396, 788-808). Without memory for the packet,
      and when the post fails, the link is closed; in the second case the packet is freed. */
  method Open(tst: Template, fullyReceive: bool, capacity: nat, memoryOk: bool, postOk: bool)
    returns (ncb: Ncb, packet: RecvPacket?)
    ensures fresh(ncb) && ncb.tst == tst && ncb.fullyReceive == fullyReceive
    ensures ncb.received == [] && ncb.handed == [] && ncb.lbData == null
    ensures ncb.closed == !(memoryOk && postOk)
    ensures packet != null <==> memoryOk
    ensures packet != null ==>
              && fresh(packet) && fresh(packet.oriBuffer) && packet.oriBuffer.Length == capacity
              && if postOk then Posted(ncb, packet) else packet.freed
  {
    ncb := new Ncb(tst, fullyReceive);
    if !memoryOk {
      ncb.closed := true;
      return ncb, null;
    }
    packet := new RecvPacket(capacity);
    if !postOk {
      ncb.closed := true;
      packet.Free();
    }
  }

  lemma SplitSum(a: seq<Byte>, b: seq<Byte>, n: nat)
    requires |a| <= n <= |a| + |b|
    ensures (a + b)[..n] == a + b[..n - |a|] && (a + b)[n..] == b[n - |a|..]
  {
  }

  /** The whole segment goes into the block (tcp.c:213-219). */
  method FillBlock(ncb: Ncb, packet: RecvPacket)
    requires BlockGathers(ncb, packet) && ncb.lbData != null
    requires 0 < packet.sizeForTranslation <= packet.oriBuffer.Length
    requires packet.sizeForTranslation < ncb.lbLength - ncb.lbCpyOffset
    modifies ncb`lbCpyOffset, ncb.lbData
    ensures BlockGathers(ncb, packet) && ncb.lbData != null
    ensures ncb.Gathered() == old(ncb.Gathered() + packet.oriBuffer[..packet.sizeForTranslation])
  {
    ghost var gathered, cb := ncb.Gathered(), ncb.tst.cb;
    var useful, block, offset := packet.sizeForTranslation, ncb.lbData, ncb.lbCpyOffset;
    assert offset + useful <= ncb.lbLength;                         // tcp.c:216
    Memcpy(block, offset, packet.oriBuffer, 0, useful);
    ncb.lbCpyOffset := offset + useful;
    assert ncb.Gathered() == gathered + packet.oriBuffer[..useful];
    assert ncb.Gathered()[..cb] == gathered[..cb];
  }

  /** The block is completed and handed over, and what is left of the segment moves to the front (tcp.c:223-242). */
  method FinishBlock(ncb: Ncb, packet: RecvPacket, acquire: nat) returns (retval: int)
    requires BlockGathers(ncb, packet) && ncb.lbData != null && ncb.HandedFits(ShapeOf(ncb, packet))
    requires acquire == ncb.lbLength - ncb.lbCpyOffset <= packet.sizeForTranslation <= packet.oriBuffer.Length
    modifies ncb`lbData, ncb`lbLength, ncb`lbCpyOffset, ncb`blocks, ncb`handed, ncb`cut, ncb.lbData
    modifies packet`sizeForTranslation, packet.oriBuffer
    ensures ncb.BlockValid() && ncb.lbData == null && ncb.HandedFits(ShapeOf(ncb, packet))
    ensures var size := old(packet.sizeForTranslation);
            var whole := old(ncb.Gathered() + packet.oriBuffer[..size]);
            && retval == size - acquire
            && ncb.cut == old(ncb.cut) + [whole[..old(ncb.lbLength)]]
            && (retval > 0 ==> packet.sizeForTranslation == retval)
            && packet.oriBuffer[..retval] == whole[old(ncb.lbLength)..]
  {
    var useful, block, offset := packet.sizeForTranslation, ncb.lbData, ncb.lbCpyOffset;
    assert offset + acquire <= ncb.lbLength;                        // tcp.c:223
    SplitSum(ncb.Gathered(), packet.oriBuffer[..useful], ncb.lbLength);
    ghost var whole := ncb.Gathered() + packet.oriBuffer[..useful];
    Memcpy(block, offset, packet.oriBuffer, 0, acquire);
    assert block[..] == block[..offset + acquire] == whole[..ncb.lbLength];
    ncb.Callback(ShapeOf(ncb, packet), block[..], block[ncb.tst.cb..]);
    ncb.UnmarkLb();
    if useful != acquire {
      MemmoveToFront(packet.oriBuffer, acquire, useful - acquire);
      packet.sizeForTranslation := packet.sizeForTranslation - acquire;
    }
    return useful - acquire;
  }

  /** tcp_lb_assemble (tcp.c:175-243). */
  method LbAssemble(ncb: Ncb, packet: RecvPacket) returns (retval: int)
    requires BlockGathers(ncb, packet) && ncb.lbData != null && ncb.HandedFits(ShapeOf(ncb, packet))
    requires 0 < packet.sizeForTranslation <= packet.oriBuffer.Length
    modifies ncb`lbData, ncb`lbLength, ncb`lbCpyOffset, ncb`blocks, ncb`handed, ncb`cut, ncb.lbData
    modifies packet`sizeForTranslation, packet.oriBuffer
    ensures BlockGathers(ncb, packet) && ncb.HandedFits(ShapeOf(ncb, packet))
    ensures var size := old(packet.sizeForTranslation);
            var need := old(ncb.lbLength - ncb.lbCpyOffset);
            var whole := old(ncb.Gathered() + packet.oriBuffer[..size]);
            if size < need then
              && retval == 0
              && ncb.lbData == old(ncb.lbData) && ncb.Gathered() == whole
              && ncb.cut == old(ncb.cut)
            else
              && retval == size - need
              && ncb.lbData == null
              && ncb.cut == old(ncb.cut) + [whole[..old(ncb.lbLength)]]
              && (retval > 0 ==> packet.sizeForTranslation == retval)
              && packet.oriBuffer[..retval] == whole[old(ncb.lbLength)..]
  {
    // the parser sees the same header bytes as when the block was marked
    assert ncb.lbData[..ncb.tst.cb] == ncb.Gathered()[..ncb.tst.cb];
    var header := ncb.tst.parser(ncb.lbData[..ncb.tst.cb]);
    if header.Rejected? {
      assert false;
    }
    var acquire := header.size + ncb.tst.cb - ncb.lbCpyOffset;
    if packet.sizeForTranslation < acquire {
      FillBlock(ncb, packet);
      return 0;
    }
    retval := FinishBlock(ncb, packet, acquire);
  }

  /** How one turn of the parse loop ends: leave the loop, fail, hand over to a large block, or cut a frame. */
  datatype Turn = Short | Failed | Large | Cut(total: int)

  /** The turn is the one that the bytes `tail` at the parse position ask for. */
  ghost predicate TurnFits(ncb: Ncb, packet: RecvPacket, tail: seq<Byte>, heapOk: bool, turn: Turn)
    reads ncb, ncb.lbData
  {
    var a := Announced(ncb.tst, tail);
    var capacity := packet.oriBuffer.Length;
    match turn
    case Short => if a.None? then |tail| < ncb.tst.cb else |tail| < a.value <= capacity
    case Failed => if a.None? then |tail| >= ncb.tst.cb else a.value > capacity && !heapOk
    case Large =>
      && a == Some(ncb.lbLength) && ncb.lbLength > capacity && heapOk
      && ncb.BlockValid() && ncb.lbData != null
      && ncb.tst.cb <= ncb.lbCpyOffset == |tail| && ncb.Gathered() == tail
    case Cut(total) => a == Some(total) && total <= |tail|
  }

  /** One turn of the loop of tcp_prase_logic_packet (tcp.c:282-331), on the bytes from offset on. */
  method ParseTurn(ncb: Ncb, packet: RecvPacket, offset: nat, useful: nat, heapOk: bool) returns (turn: Turn)
    requires ncb.tst.cb > 0 && ncb.BlockValid() && ncb.lbData == null && ncb.HandedFits(ShapeOf(ncb, packet))
    requires offset + useful <= packet.oriBuffer.Length
    modifies ncb`lbData, ncb`lbLength, ncb`lbCpyOffset, ncb`blocks, ncb`handed, ncb`cut
    ensures ncb.BlockValid() && ncb.HandedFits(ShapeOf(ncb, packet))
    ensures if turn.Large? then fresh(ncb.lbData) else ncb.lbData == null
    ensures TurnFits(ncb, packet, packet.oriBuffer[offset..offset + useful], heapOk, turn)
    ensures ncb.cut == old(ncb.cut) + if turn.Cut? then [packet.oriBuffer[offset..offset + useful][..turn.total]] else []
  {
    var cb := ncb.tst.cb;
    ghost var tail := packet.oriBuffer[offset..offset + useful];
    if useful < cb {
      return Short;
    }
    assert packet.oriBuffer[offset..offset + cb] == tail[..cb];
    var header := ncb.tst.parser(packet.oriBuffer[offset..offset + cb]);
    if header.Rejected? {
      return Failed;
    }
    var userSize := header.size;
    if userSize > MAXIMUM_PACKET_SIZE || userSize < 0 {
      return Failed;
    }
    var total := userSize + cb;
    if total > packet.oriBuffer.Length {
      var marked := ncb.MarkLb(total, useful, packet.oriBuffer, offset, heapOk);
      return if marked < 0 then Failed else Large;
    }
    if useful < total {
      return Short;
    }
    ghost var frame := tail[..total];
    if ncb.fullyReceive {
      assert packet.oriBuffer[offset..offset + total] == frame;
      ncb.Callback(ShapeOf(ncb, packet), frame, packet.oriBuffer[offset..offset + total]);
    } else {
      assert packet.oriBuffer[offset..offset + total] == frame;
      assert packet.oriBuffer[offset + cb..offset + total] == frame[cb..];
      ncb.Callback(ShapeOf(ncb, packet), frame, packet.oriBuffer[offset + cb..offset + total]);
    }
    return Cut(total);
  }

  /** The bytes at the front of the buffer, `left`, are what is still to be parsed of the stream. */
  ghost predicate Leaves(t: Template, cut: seq<seq<Byte>>, left: seq<Byte>, stream: seq<Byte>)
  {
    if t.cb == 0 then Flatten(cut + [left]) == stream
    else var q := Parse(t, left); Parse(t, stream) == Parsed(cut + q.frames, q.rest, q.bad)
  }

  lemma LeavesCut(t: Template, cut: seq<seq<Byte>>, left: seq<Byte>, n: nat, stream: seq<Byte>)
    requires t.cb > 0 && Leaves(t, cut, left, stream)
    requires Announced(t, left) == Some(n) && n <= |left|
    ensures Leaves(t, cut + [left[..n]], left[n..], stream)
  {
    var q := Parse(t, left[n..]);
    assert cut + ([left[..n]] + q.frames) == (cut + [left[..n]]) + q.frames;
  }

  /** Nothing can be cut from `left` any more, so the frames cut so far are all there are. */
  lemma LeavesEnd(t: Template, cut: seq<seq<Byte>>, left: seq<Byte>, stream: seq<Byte>)
    requires t.cb > 0 && Leaves(t, cut, left, stream)
    requires Announced(t, left).None? || |left| < Announced(t, left).value
    ensures Parse(t, stream) == Parsed(cut, left, Announced(t, left).None? && |left| >= t.cb)
  {
    assert cut + [] == cut;
  }

  /** What is left after the parse loop moves to the front of the buffer (tcp.c:338-343). */
  method KeepRest(packet: RecvPacket, offset: nat, useful: nat)
    requires offset + useful <= packet.oriBuffer.Length
    modifies packet`analyzedOffset, packet.oriBuffer
    ensures packet.analyzedOffset == useful
    ensures packet.oriBuffer[..useful] == old(packet.oriBuffer[offset..offset + useful])
  {
    packet.analyzedOffset := useful;
    if useful != 0 && offset != 0 {
      MemmoveToFront(packet.oriBuffer, offset, useful);
    }
  }

  /** One turn, in terms of the stream: either what is left of it is one frame shorter, or this was the remainder. */
  method CutOne(ncb: Ncb, packet: RecvPacket, offset: nat, useful: nat, heapOk: bool, ghost tail: seq<Byte>,
                ghost stream: seq<Byte>) returns (turn: Turn, ghost left: seq<Byte>)
    requires ncb.tst.cb > 0 && ncb.BlockValid() && ncb.lbData == null && ncb.HandedFits(ShapeOf(ncb, packet))
    requires offset + useful <= packet.oriBuffer.Length && tail == packet.oriBuffer[offset..offset + useful]
    requires Leaves(ncb.tst, ncb.cut, tail, stream)
    modifies ncb`lbData, ncb`lbLength, ncb`lbCpyOffset, ncb`blocks, ncb`handed, ncb`cut
    ensures ncb.BlockValid() && ncb.HandedFits(ShapeOf(ncb, packet))
    ensures if turn.Large? then fresh(ncb.lbData) else ncb.lbData == null
    ensures if turn.Cut? then
              && 0 < turn.total <= useful && left == packet.oriBuffer[offset + turn.total..offset + useful]
              && Leaves(ncb.tst, ncb.cut, left, stream)
            else Ends(ncb, packet, tail, heapOk, turn, stream)
  {
    ghost var cut := ncb.cut;
    turn := ParseTurn(ncb, packet, offset, useful, heapOk);
    left := tail;
    if turn.Cut? {
      LeavesCut(ncb.tst, cut, tail, turn.total, stream);
      left := tail[turn.total..];
    } else {
      LeavesEnd(ncb.tst, cut, tail, stream);
    }
  }

  /** The loop has ended with a remainder, for the reason that the remainder gives. */
  ghost predicate Ends(ncb: Ncb, packet: RecvPacket, rest: seq<Byte>, heapOk: bool, turn: Turn, stream: seq<Byte>)
    requires ncb.tst.cb > 0
    reads ncb, ncb.lbData
  {
    && Parse(ncb.tst, stream) == Parsed(ncb.cut, rest, Announced(ncb.tst, rest).None? && |rest| >= ncb.tst.cb)
    && TurnFits(ncb, packet, rest, heapOk, turn)
  }

  /** The parse loop of tcp_prase_logic_packet (tcp.c:280-331): turn after turn, up to one that cuts no frame. */
  method CutFrames(ncb: Ncb, packet: RecvPacket, heapOk: bool, ghost stream: seq<Byte>)
    returns (turn: Turn, offset: nat, useful: nat)
    requires ncb.BlockValid() && ncb.lbData == null && ncb.HandedFits(ShapeOf(ncb, packet))
    requires ncb.tst.cb > 0
    requires packet.analyzedOffset >= 0 && packet.sizeForTranslation > 0
    requires packet.analyzedOffset + packet.sizeForTranslation <= packet.oriBuffer.Length
    requires Leaves(ncb.tst, ncb.cut, packet.oriBuffer[..packet.analyzedOffset + packet.sizeForTranslation], stream)
    modifies ncb`lbData, ncb`lbLength, ncb`lbCpyOffset, ncb`blocks, ncb`handed, ncb`cut
    ensures !turn.Cut? && offset + useful <= packet.oriBuffer.Length
    ensures ncb.BlockValid() && ncb.HandedFits(ShapeOf(ncb, packet))
    ensures if turn.Large? then fresh(ncb.lbData) else ncb.lbData == null
    ensures Ends(ncb, packet, packet.oriBuffer[offset..offset + useful], heapOk, turn, stream)
  {
    useful := packet.analyzedOffset + packet.sizeForTranslation;
    offset := 0;
    ghost var tail := packet.oriBuffer[..useful];
    while true
      invariant offset + useful <= packet.oriBuffer.Length && tail == packet.oriBuffer[offset..offset + useful]
      invariant ncb.BlockValid() && ncb.lbData == null && ncb.HandedFits(ShapeOf(ncb, packet))
      invariant Leaves(ncb.tst, ncb.cut, tail, stream)
      decreases useful
    {
      turn, tail := CutOne(ncb, packet, offset, useful, heapOk, tail, stream);
      if !turn.Cut? {
        return;
      }
      useful := useful - turn.total;
      offset := offset + turn.total;
    }
  }

  /** The loop and what follows it (tcp.c:280-345). */
  method ParseFrames(ncb: Ncb, packet: RecvPacket, heapOk: bool, ghost stream: seq<Byte>) returns (retval: int)
    requires ncb.BlockValid() && ncb.lbData == null && ncb.HandedFits(ShapeOf(ncb, packet))
    requires ncb.tst.cb > 0
    requires packet.analyzedOffset >= 0 && packet.sizeForTranslation > 0
    requires packet.analyzedOffset + packet.sizeForTranslation <= packet.oriBuffer.Length
    requires Leaves(ncb.tst, ncb.cut, packet.oriBuffer[..packet.analyzedOffset + packet.sizeForTranslation], stream)
    modifies ncb`lbData, ncb`lbLength, ncb`lbCpyOffset, ncb`blocks, ncb`handed, ncb`cut
    modifies packet`analyzedOffset, packet.oriBuffer
    ensures ncb.BlockValid() && Faithful(ncb, packet, stream)
    ensures ncb.lbData != null ==> fresh(ncb.lbData)
    ensures -1 <= retval <= 0 && (retval < 0 ==> ncb.lbData == null)
    ensures retval == 0 ==> 0 <= packet.analyzedOffset <= packet.oriBuffer.Length
    ensures retval == 0 ==> BlockGathers(ncb, packet) && Settled(ncb, packet, stream)
    ensures retval < 0 <==> var p := Parse(ncb.tst, stream);
                            p.bad || (StartsLarge(ncb.tst, packet.oriBuffer.Length, p.rest) && !heapOk)
  {
    var turn, offset, useful := CutFrames(ncb, packet, heapOk, stream);
    if turn.Failed? {
      return -1;
    }
    if turn.Large? {
      packet.analyzedOffset := 0;
      return 0;
    }
    KeepRest(packet, offset, useful);
    return 0;
  }

  /** tcp_prase_logic_packet (tcp.c:245-346), on the bytes at the front of the buffer. */
  method ParseLogicPacket(ncb: Ncb, packet: RecvPacket, heapOk: bool, ghost stream: seq<Byte>) returns (retval: int)
    requires ncb.BlockValid() && ncb.lbData == null && ncb.HandedFits(ShapeOf(ncb, packet))
    requires packet.analyzedOffset >= 0 && packet.sizeForTranslation > 0
    requires packet.analyzedOffset + packet.sizeForTranslation <= packet.oriBuffer.Length
    requires Leaves(ncb.tst, ncb.cut, packet.oriBuffer[..packet.analyzedOffset + packet.sizeForTranslation], stream)
    modifies ncb`lbData, ncb`lbLength, ncb`lbCpyOffset, ncb`blocks, ncb`handed, ncb`cut
    modifies packet`analyzedOffset, packet.oriBuffer
    ensures ncb.BlockValid() && Faithful(ncb, packet, stream)
    ensures ncb.lbData != null ==> fresh(ncb.lbData)
    ensures -1 <= retval <= 0 && (retval < 0 ==> ncb.lbData == null)
    ensures retval == 0 ==> 0 <= packet.analyzedOffset <= packet.oriBuffer.Length
    ensures retval == 0 ==> BlockGathers(ncb, packet) && Settled(ncb, packet, stream)
    ensures retval < 0 <==> ncb.tst.cb > 0 && var p := Parse(ncb.tst, stream);
                            p.bad || (StartsLarge(ncb.tst, packet.oriBuffer.Length, p.rest) && !heapOk)
    ensures ncb.tst.cb == 0 ==>
              ncb.handed == old(ncb.handed + [packet.oriBuffer[..packet.analyzedOffset + packet.sizeForTranslation]])
  {
    if ncb.tst.cb == 0 {
      var useful := packet.analyzedOffset + packet.sizeForTranslation;
      ncb.Callback(ShapeOf(ncb, packet), packet.oriBuffer[..useful], packet.oriBuffer[..useful]);
      packet.analyzedOffset := 0;
      return 0;
    }
    retval := ParseFrames(ncb, packet, heapOk, stream);
  }

  /** How the calls that leave the program turn out during one receive completion. */
  datatype Outcomes = Outcomes(refOk: bool, heapOk: bool, postOk: bool)

  /** The bytes that a completion has just put into the buffer. */
  ghost function Segment(packet: RecvPacket): seq<Byte>
    requires RequestValid(packet) && 0 <= packet.sizeForTranslation <= packet.sizeForReq
    reads packet, packet.oriBuffer
  {
    packet.oriBuffer[packet.irp..packet.irp + packet.sizeForTranslation]
  }

  /** A large frame is still short of bytes, or it is the first frame and parsing goes on behind it. */
  lemma LargeFrame(t: Template, gathered: seq<Byte>, segment: seq<Byte>, length: nat)
    requires 0 < t.cb <= |gathered| < length
    requires Announced(t, gathered) == Some(length)
    ensures var whole := gathered + segment;
            && Announced(t, whole) == Some(length)
            && if |whole| < length then Parse(t, whole) == Parsed([], whole, false)
               else
                 var q := Parse(t, whole[length..]);
                 Parse(t, whole) == Parsed([whole[..length]] + q.frames, q.rest, q.bad)
  {
    assert (gathered + segment)[..t.cb] == gathered[..t.cb];
  }

  /** When a large frame is being gathered, a segment either leaves it short of bytes, or ends it as the
      next frame of the stream and leaves the rest of the segment to be parsed. */
  lemma GatherMore(t: Template, before: seq<Byte>, segment: seq<Byte>, length: nat)
    requires 0 < t.cb <= |Parse(t, before).rest| < length && !Parse(t, before).bad
    requires Announced(t, Parse(t, before).rest) == Some(length)
    ensures var whole := Parse(t, before).rest + segment; var p := Parse(t, before + segment);
            if |whole| < length then
              p == Parsed(Parse(t, before).frames, whole, false) && Announced(t, whole) == Some(length)
            else
              var q := Parse(t, whole[length..]);
              && p == Parsed((Parse(t, before).frames + [whole[..length]]) + q.frames, q.rest, q.bad)
              && (|whole| == length ==> q == Parsed([], [], false))
  {
    var fs, whole := Parse(t, before).frames, Parse(t, before).rest + segment;
    ParseResume(t, before, segment);
    LargeFrame(t, Parse(t, before).rest, segment, length);
    if |whole| < length {
      assert fs + [] == fs;
    } else {
      var q := Parse(t, whole[length..]);
      assert fs + ([whole[..length]] + q.frames) == (fs + [whole[..length]]) + q.frames;
    }
  }

  /** A segment arrives behind the remainder of a good stream. */
  lemma LeavesSegment(t: Template, cut: seq<seq<Byte>>, before: seq<Byte>, residue: seq<Byte>, segment: seq<Byte>)
    requires if t.cb == 0 then Flatten(cut) == before && residue == []
             else Parse(t, before) == Parsed(cut, residue, false)
    ensures Leaves(t, cut, residue + segment, before + segment)
  {
    if t.cb == 0 {
      FlattenSnoc(cut, segment);
      assert residue + segment == segment;
    } else {
      ParseResume(t, before, segment);
    }
  }

  /** The step of tcp_dispatch_io_recv that fills a marked large block (tcp.c:716-721). */
  method FillMarked(ncb: Ncb, packet: RecvPacket, ghost stream: seq<Byte>) returns (retval: int)
    requires InStep(ncb, packet) && ncb.lbData != null
    requires 0 < packet.sizeForTranslation <= packet.sizeForReq
    requires stream == ncb.received + Segment(packet)
    modifies ncb`lbData, ncb`lbLength, ncb`lbCpyOffset, ncb`blocks, ncb`handed, ncb`cut, ncb.lbData
    modifies packet`sizeForTranslation, packet.oriBuffer
    ensures BlockGathers(ncb, packet) && retval >= 0
    ensures ncb.lbData == null || ncb.lbData == old(ncb.lbData)
    ensures retval == 0 ==> Settled(ncb, packet, stream)
    ensures retval > 0 ==> ncb.lbData == null && retval == packet.sizeForTranslation <= packet.oriBuffer.Length
    ensures ncb.HandedFits(ShapeOf(ncb, packet))
    ensures retval > 0 ==> Leaves(ncb.tst, ncb.cut, packet.oriBuffer[..retval], stream)
    ensures if retval > 0 then |ncb.cut| > |old(ncb.cut)|
            else StartsLarge(ncb.tst, packet.oriBuffer.Length, Parse(ncb.tst, stream).rest) ==> ncb.cut == old(ncb.cut)
  {
    ghost var segment := Segment(packet);
    assert packet.oriBuffer[..packet.sizeForTranslation] == segment;
    GatherMore(ncb.tst, ncb.received, segment, ncb.lbLength);
    retval := LbAssemble(ncb, packet);
    assert packet.oriBuffer[..0] == [];
  }

  /** Parse, then aim the next request behind what was kept (tcp.c:724-732). */
  method ParseAndRewind(ncb: Ncb, packet: RecvPacket, heapOk: bool, ghost stream: seq<Byte>) returns (retval: int)
    requires ncb.BlockValid() && ncb.lbData == null && ncb.HandedFits(ShapeOf(ncb, packet))
    requires packet.analyzedOffset >= 0 && packet.sizeForTranslation > 0
    requires packet.analyzedOffset + packet.sizeForTranslation <= packet.oriBuffer.Length
    requires Leaves(ncb.tst, ncb.cut, packet.oriBuffer[..packet.analyzedOffset + packet.sizeForTranslation], stream)
    modifies ncb`lbData, ncb`lbLength, ncb`lbCpyOffset, ncb`blocks, ncb`handed, ncb`cut
    modifies packet`analyzedOffset, packet`irp, packet`sizeForReq, packet.oriBuffer
    ensures ncb.BlockValid() && Faithful(ncb, packet, stream)
    ensures ncb.lbData != null ==> fresh(ncb.lbData)
    ensures -1 <= retval <= 0 && (retval < 0 ==> ncb.lbData == null)
    ensures retval == 0 ==> RequestValid(packet)
    ensures retval == 0 ==> BlockGathers(ncb, packet) && Settled(ncb, packet, stream)
    ensures retval < 0 <==> ncb.tst.cb > 0 && var p := Parse(ncb.tst, stream);
                            p.bad || (StartsLarge(ncb.tst, packet.oriBuffer.Length, p.rest) && !heapOk)
    ensures ncb.tst.cb == 0 ==>
              ncb.handed == old(ncb.handed + [packet.oriBuffer[..packet.analyzedOffset + packet.sizeForTranslation]])
  {
    retval := ParseLogicPacket(ncb, packet, heapOk, stream);
    if retval < 0 {
      return;
    }
    packet.irp := packet.analyzedOffset;
    packet.sizeForReq := packet.oriBuffer.Length - packet.analyzedOffset;
  }

  /** The stream has a bad header, or its remainder starts a large frame that was not being gathered before, and there
      is no memory for it. */
  ghost predicate Fails(ncb: Ncb, packet: RecvPacket, gathering: bool, cut: seq<seq<Byte>>, heapOk: bool,
                        stream: seq<Byte>)
  {
    && ncb.tst.cb > 0
    && var p := Parse(ncb.tst, stream);
       || p.bad
       || (StartsLarge(ncb.tst, packet.oriBuffer.Length, p.rest) && !(gathering && p.frames == cut) && !heapOk)
  }

  /** The body of tcp_dispatch_io_recv between taking the reference and posting again (tcp.c:711-734). */
  method Reassemble(ncb: Ncb, packet: RecvPacket, heapOk: bool, ghost stream: seq<Byte>) returns (retval: int)
    requires InStep(ncb, packet) && 0 < packet.sizeForTranslation <= packet.sizeForReq
    requires stream == ncb.received + Segment(packet)
    modifies ncb`lbData, ncb`lbLength, ncb`lbCpyOffset, ncb`blocks, ncb`handed, ncb`cut, ncb.lbData
    modifies packet`analyzedOffset, packet`sizeForTranslation, packet`irp, packet`sizeForReq, packet.oriBuffer
    ensures ncb.BlockValid() && Faithful(ncb, packet, stream)
    ensures ncb.lbData != null && ncb.lbData != old(ncb.lbData) ==> fresh(ncb.lbData)
    ensures retval >= 0 ==> RequestValid(packet) && BlockGathers(ncb, packet) && Settled(ncb, packet, stream)
    ensures retval < 0 <==> Fails(ncb, packet, old(ncb.lbData) != null, old(ncb.cut), heapOk, stream)
    ensures ncb.tst.cb == 0 ==> ncb.handed == old(ncb.handed) + [old(Segment(packet))]
  {
    if ncb.Marked() {
      retval := FillMarked(ncb, packet, stream);
      if retval <= 0 {
        return;
      }
    } else {
      ghost var residue, segment := Residue(ncb, packet), Segment(packet);
      assert packet.oriBuffer[..packet.analyzedOffset + packet.sizeForTranslation] == residue + segment;
      LeavesSegment(ncb.tst, ncb.cut, ncb.received, residue, segment);
    }
    retval := ParseAndRewind(ncb, packet, heapOk, stream);
  }

  /**
   * tcp_dispatch_io_recv (tcp.c:688-746). `posted` tells whether the packet is with the kernel again;
   * if it is not, it has been freed, once.
   */
  method DispatchIoRecv(ncb: Ncb, packet: RecvPacket, outcomes: Outcomes) returns (posted: bool)
    requires Posted(ncb, packet) && 0 <= packet.sizeForTranslation <= packet.sizeForReq
    modifies ncb, ncb.lbData, packet, packet.oriBuffer
    ensures posted ==> Posted(ncb, packet)
    ensures posted == !packet.freed
    ensures ncb.BlockValid() && Faithful(ncb, packet, ncb.received)
    ensures ncb.lbData != null && ncb.lbData != old(ncb.lbData) ==> fresh(ncb.lbData)
    ensures var taken := old(packet.sizeForTranslation) > 0 && outcomes.refOk;
            if !taken then
              && !posted && ncb.received == old(ncb.received) && ncb.handed == old(ncb.handed)
              && ncb.closed == (old(ncb.closed) || old(packet.sizeForTranslation) == 0)
            else
              && ncb.received == old(ncb.received) + old(Segment(packet))
              && (ncb.tst.cb == 0 ==> ncb.handed == old(ncb.handed) + [old(Segment(packet))])
              && ncb.closed == (old(ncb.closed) || !posted)
              && (posted <==>
                    && outcomes.postOk
                    && !Fails(ncb, packet, old(ncb.lbData) != null, old(ncb.cut), outcomes.heapOk, ncb.received))
  {
    if packet.sizeForTranslation <= 0 {
      ncb.closed := true;
      packet.Free();
      return false;
    }
    if !outcomes.refOk {
      packet.Free();
      return false;
    }

    ghost var stream := ncb.received + Segment(packet);
    var retval := Reassemble(ncb, packet, outcomes.heapOk, stream);
    ncb.received := stream;
    if retval >= 0 {
      retval := if outcomes.postOk then 0 else -1;
    }
    if retval < 0 {
      ncb.closed := true;
      packet.Free();
      return false;
    }
    return true;
  }

  /** tcp_dispatch_io_exception for a receive (tcp.c:810-833): the link ends and the packet is freed. */
  method DispatchRecvException(ncb: Ncb, packet: RecvPacket, refOk: bool)
    requires Posted(ncb, packet)
    modifies ncb`closed, packet`freed
    ensures packet.freed && ncb.closed == (old(ncb.closed) || refOk)
    ensures ncb.BlockValid() && Faithful(ncb, packet, ncb.received)
  {
    if !refOk {
      packet.Free();
      return;
    }
    ncb.closed := true;
    packet.Free();
  }

  /** What the user has been handed, in terms of the bytes received alone: no segment boundary, no
      buffer position and no large block shows. Without a header the chunks add up to the stream. */
  lemma HandedIsDelivered(ncb: Ncb, packet: RecvPacket)
    requires Faithful(ncb, packet, ncb.received)
    ensures ncb.tst.cb > 0 ==> ncb.handed == Delivered(ncb.tst, ShapeOf(ncb, packet), ncb.received)
    ensures ncb.tst.cb == 0 ==> Flatten(ncb.handed) == ncb.received
  {
    if ncb.tst.cb == 0 {
      HandsWithoutHeader(ShapeOf(ncb, packet), ncb.cut);
    }
  }

  /**
   * What each callback got, in terms of the stream: with LINKATTR_TCP_FULLY_RECEIVE a frame that fits the buffer as it
   * came, header and user data; any other frame without the cb bytes of its header. So when no header is taken
   * off, what was handed over and what is kept make up the stream again.
   */
  lemma WhatIsHanded(ncb: Ncb, packet: RecvPacket)
    requires Posted(ncb, packet) && ncb.tst.cb > 0
    ensures |ncb.handed| == |ncb.cut| && Flatten(ncb.cut) + Residue(ncb, packet) == ncb.received
    ensures forall i :: 0 <= i < |ncb.cut| ==>
              && ncb.tst.cb <= |ncb.cut[i]|
              && if ncb.fullyReceive && |ncb.cut[i]| <= packet.oriBuffer.Length then ncb.handed[i] == ncb.cut[i]
                 else ncb.cut[i] == ncb.cut[i][..ncb.tst.cb] + ncb.handed[i]
    ensures ncb.fullyReceive && (forall f :: f in ncb.cut ==> |f| <= packet.oriBuffer.Length) ==>
              Flatten(ncb.handed) + Residue(ncb, packet) == ncb.received
  {
    ParseIsFraming(ncb.tst, ncb.received);
    assert forall i :: 0 <= i < |ncb.cut| ==> WellFramed(ncb.tst, ncb.cut[i]);
    HandsShow(ShapeOf(ncb, packet), ncb.cut);
  }

  /** Delivery is eager: when a receive is posted, what is kept is neither a whole frame nor a bad header. */
  lemma EagerDelivery(ncb: Ncb, packet: RecvPacket)
    requires Posted(ncb, packet) && ncb.tst.cb > 0
    ensures var kept := Residue(ncb, packet);
            && IsFraming(ncb.tst, ncb.received, ncb.cut, kept)
            && !BadHeader(ncb.tst, kept)
            && (|kept| < ncb.tst.cb || (Announced(ncb.tst, kept).Some? && |kept| < Announced(ncb.tst, kept).value))
  {
    ParseIsFraming(ncb.tst, ncb.received);
    RestIsShort(ncb.tst, ncb.received);
  }

  /** No byte is lost or doubled: the frames handed over and the bytes kept add up to the bytes received. */
  lemma ReceivedConserved(ncb: Ncb, packet: RecvPacket)
    requires Posted(ncb, packet)
    ensures |ncb.received| == TotalLength(ncb.cut) + |Residue(ncb, packet)|
  {
    if ncb.tst.cb == 0 {
      FlattenLength(ncb.cut);
    } else {
      ByteConservation(ncb.tst, ncb.received);
    }
  }

  /** A posted request has room exactly when the header fits the buffer or the buffer is not full yet:
      with a template longer than the buffer, which tcp_settst lets through, the link ends up asking
      for zero bytes. */
  lemma RequestHasRoom(ncb: Ncb, packet: RecvPacket)
    requires Posted(ncb, packet) && packet.oriBuffer.Length > 0
    ensures packet.sizeForReq > 0
       <==> ncb.tst.cb <= packet.oriBuffer.Length || |ncb.received| < packet.oriBuffer.Length
  {
    if ncb.tst.cb == 0 || ncb.lbData != null {
    } else if ncb.tst.cb > packet.oriBuffer.Length {
      assert Parse(ncb.tst, ncb.received).rest == ncb.received;
    } else {
      EagerDelivery(ncb, packet);
    }
  }

  // ----- runs

  /** The kernel completes the posted receive: the segment is behind what is kept, and nothing else has changed. */
  method Arrive(ncb: Ncb, packet: RecvPacket, segment: seq<Byte>)
    requires Posted(ncb, packet) && |segment| <= packet.sizeForReq
    modifies packet`sizeForTranslation, packet.oriBuffer
    ensures Posted(ncb, packet) && packet.sizeForTranslation == |segment| && Segment(packet) == segment
  {
    ghost var residue := Residue(ncb, packet);
    packet.Fill(segment);
    assert Residue(ncb, packet) == residue;
  }

  /** How a receive ends: bytes arrive, and the outside calls of its handler turn out so or so; or it fails with
      an error status, and the link can be referenced or not. */
  datatype Completion = Arrives(outcomes: Outcomes) | Breaks(refOk: bool)

  /** The handler can reference the link. */
  predicate Refers(completion: Completion) {
    match completion
    case Arrives(outcomes) => outcomes.refOk
    case Breaks(refOk) => refOk
  }

  const ALL_WELL := Arrives(Outcomes(true, true, true))

  /** One completion of the run: the segment arrives and is dispatched, or the receive has failed. A link whose packet
      is posted again stays as it was; otherwise it is closed if it can be referenced, or nothing has arrived. */
  method Complete(ncb: Ncb, packet: RecvPacket, segment: seq<Byte>, completion: Completion) returns (posted: bool)
    requires Posted(ncb, packet) && |segment| <= packet.sizeForReq
    modifies ncb, ncb.lbData, packet, packet.oriBuffer
    ensures posted ==> Posted(ncb, packet)
    ensures posted == !packet.freed
    ensures ncb.BlockValid() && Faithful(ncb, packet, ncb.received)
    ensures ncb.lbData != null && ncb.lbData != old(ncb.lbData) ==> fresh(ncb.lbData)
    ensures if segment != [] && completion.Arrives? && Refers(completion)
            then ncb.received == old(ncb.received) + segment
            else !posted && ncb.received == old(ncb.received)
    ensures segment != [] && completion.Arrives? && Refers(completion) && ncb.tst.cb == 0 ==>
              ncb.handed == old(ncb.handed) + [segment]
    ensures segment != [] && completion.Arrives? && Refers(completion) ==>
              (posted <==> completion.outcomes.postOk && !Fails(ncb, packet, old(ncb.lbData) != null, old(ncb.cut),
                                                               completion.outcomes.heapOk, ncb.received))
    ensures ncb.closed
         == (old(ncb.closed) || (!posted && (Refers(completion) || (completion.Arrives? && segment == []))))
  {
    match completion
    case Arrives(outcomes) =>
      Arrive(ncb, packet, segment);
      posted := DispatchIoRecv(ncb, packet, outcomes);
    case Breaks(refOk) =>
      DispatchRecvException(ncb, packet, refOk);
      posted := false;
  }

  /** Every completion brings something, and every outside call succeeds. */
  ghost predicate RunsWell(wants: nat -> nat, completions: nat -> Completion) {
    forall i: nat :: wants(i) > 0 && completions(i) == ALL_WELL
  }

  /** The request always has room for the stream: the buffer holds a header, or all that ever comes. */
  ghost predicate Roomy(ncb: Ncb, packet: RecvPacket, stream: seq<Byte>) {
    0 < packet.oriBuffer.Length && (ncb.tst.cb <= packet.oriBuffer.Length || |stream| <= packet.oriBuffer.Length)
  }

  lemma AsksForSome(ncb: Ncb, packet: RecvPacket, rest: seq<Byte>)
    requires Posted(ncb, packet) && rest != []
    ensures Roomy(ncb, packet, ncb.received + rest) ==> packet.sizeForReq > 0
  {
    if 0 < packet.oriBuffer.Length {
      RequestHasRoom(ncb, packet);
    }
  }

  lemma Regroup(a: seq<Byte>, b: seq<Byte>, n: nat)
    requires n <= |b|
    ensures (a + b[..n]) + b[n..] == a + b
  {
  }

  /** The kernel brings `want` bytes, or as many as were asked for or are left, or reports an error. */
  method ReceiveSome(ncb: Ncb, packet: RecvPacket, rest: seq<Byte>, want: nat, completion: Completion)
    returns (posted: bool, left: seq<Byte>)
    requires Posted(ncb, packet) && rest != []
    modifies ncb, ncb.lbData, packet, packet.oriBuffer
    ensures posted ==> Posted(ncb, packet) && ncb.closed == old(ncb.closed)
    ensures posted == !packet.freed
    ensures ncb.BlockValid() && Faithful(ncb, packet, ncb.received)
    ensures ncb.lbData != null && ncb.lbData != old(ncb.lbData) ==> fresh(ncb.lbData)
    ensures ncb.received + left == old(ncb.received) + rest
    ensures |left| < |rest| || (!posted && left == rest)
    ensures !posted && want > 0 && completion == ALL_WELL && Roomy(ncb, packet, old(ncb.received) + rest) ==>
              ncb.tst.cb > 0 && Parse(ncb.tst, ncb.received).bad
    ensures Refers(completion) ==> ncb.closed == (old(ncb.closed) || !posted)
  {
    AsksForSome(ncb, packet, rest);
    var n := if want <= packet.sizeForReq then want else packet.sizeForReq;
    n := if n <= |rest| then n else |rest|;
    var segment := rest[..n];
    left := if n > 0 && completion.Arrives? && Refers(completion) then rest[n..] else rest;
    Regroup(ncb.received, rest, n);
    posted := Complete(ncb, packet, segment, completion);
  }

  /** At the end of a run: the rest of the stream that was not taken follows a bad header, or there is none. */
  lemma StreamTaken(ncb: Ncb, packet: RecvPacket, whole: seq<Byte>, rest: seq<Byte>)
    requires Faithful(ncb, packet, ncb.received) && whole == ncb.received + rest
    requires rest == [] || (ncb.tst.cb > 0 && Parse(ncb.tst, ncb.received).bad)
    ensures ncb.tst.cb == 0 ==> Flatten(ncb.handed) == whole
    ensures ncb.tst.cb > 0 ==>
              && ncb.handed == Delivered(ncb.tst, ShapeOf(ncb, packet), whole) && ncb.cut == Parse(ncb.tst, whole).frames
              && Parse(ncb.tst, whole).bad == Parse(ncb.tst, ncb.received).bad
  {
    HandedIsDelivered(ncb, packet);
    if rest == [] {
      assert whole == ncb.received;
    } else {
      BadHeaderIsFinal(ncb.tst, ncb.received, rest);
    }
  }

  /** What a run leads to when all goes well: the link ends, and is closed, exactly for a bad header, and in either case
      the user has been handed exactly what the whole stream means. */
  ghost predicate EndsWell(ncb: Ncb, packet: RecvPacket, wasClosed: bool, posted: bool, whole: seq<Byte>)
    reads ncb
  {
    && ncb.closed == (wasClosed || !posted)
    && (posted <==> ncb.tst.cb == 0 || !Parse(ncb.tst, whole).bad)
    && (ncb.tst.cb == 0 ==> Flatten(ncb.handed) == whole)
    && (ncb.tst.cb > 0 ==>
         && ncb.handed == Delivered(ncb.tst, ShapeOf(ncb, packet), whole) && ncb.cut == Parse(ncb.tst, whole).frames
         && Parse(ncb.tst, whole).bad == Parse(ncb.tst, ncb.received).bad)
  }

  /**
   * A link receives a stream, completion after completion: the i-th brings wants(i) bytes, or as many as were
   * asked for or are left, or fails. The run ends when the stream has been taken or the link has ended. Whatever
   * the segments, and wherever it ends, what was handed over is what the bytes taken mean; and as long as the link
   * can be referenced, it is closed exactly when it has ended.
   */
  method Receive(ncb: Ncb, packet: RecvPacket, stream: seq<Byte>, wants: nat -> nat, completions: nat -> Completion)
    returns (posted: bool, left: seq<Byte>)
    requires Posted(ncb, packet)
    modifies ncb, ncb.lbData, packet, packet.oriBuffer
    ensures ncb.received + left == old(ncb.received) + stream
    ensures ncb.BlockValid() && Faithful(ncb, packet, ncb.received)
    ensures posted ==> Posted(ncb, packet) && left == [] && ncb.closed == old(ncb.closed)
    ensures posted == !packet.freed
    ensures (forall i: nat :: Refers(completions(i))) ==> ncb.closed == (old(ncb.closed) || !posted)
    ensures RunsWell(wants, completions) && Roomy(ncb, packet, old(ncb.received) + stream) ==>
              EndsWell(ncb, packet, old(ncb.closed), posted, old(ncb.received) + stream)
  {
    ghost var whole := ncb.received + stream;
    ghost var well := RunsWell(wants, completions) && Roomy(ncb, packet, whole);
    ghost var refers := forall i: nat :: Refers(completions(i));
    assert well ==> refers;
    posted, left := true, stream;
    var i := 0;
    while posted && left != []
      invariant i >= 0 && ncb.received + left == whole && posted == !packet.freed
      invariant ncb.BlockValid() && Faithful(ncb, packet, ncb.received)
      invariant posted ==> Posted(ncb, packet) && ncb.closed == old(ncb.closed)
      invariant ncb.lbData == null || ncb.lbData == old(ncb.lbData) || fresh(ncb.lbData)
      invariant well && !posted ==> ncb.tst.cb > 0 && Parse(ncb.tst, ncb.received).bad
      invariant refers ==> ncb.closed == (old(ncb.closed) || !posted)
      decreases |left|, posted
    {
      posted, left := ReceiveSome(ncb, packet, left, wants(i), completions(i));
      i := i + 1;
    }
    if well {
      StreamTaken(ncb, packet, whole, left);
    }
  }

  /** A header longer than the buffer, which tcp_settst lets through: once the buffer is full the link asks for
      zero bytes, and the completion of that request ends it, with nothing handed over. */
  method HeaderTooLong(tst: Template, fullyReceive: bool, stream: seq<Byte>, wants: nat -> nat)
    returns (ncb: Ncb, asked: int)
    requires tst.cb > |stream| > 0 && forall i: nat :: wants(i) > 0
    ensures asked == 0 && ncb.closed && ncb.received == stream && ncb.handed == []
  {
    var packet;
    ncb, packet := Open(tst, fullyReceive, |stream|, true, true);
    var posted, left := Receive(ncb, packet, stream, wants, _ => ALL_WELL);
    assert ncb.received + [] == ncb.received == stream by { assert [] + stream == stream; }
    RequestHasRoom(ncb, packet);
    asked := packet.sizeForReq;
    posted := Complete(ncb, packet, [], ALL_WELL);
    HandedIsDelivered(ncb, packet);
  }

  /** Two links with the same template that have received the same bytes have handed over the same data
      and kept the same bytes, however the bytes were cut into segments. Different buffer sizes can be
      told apart exactly as BufferSizeTransparency says. */
  lemma SegmentationInvariance(a: Ncb, p: RecvPacket, b: Ncb, q: RecvPacket)
    requires Posted(a, p) && Posted(b, q)
    requires a.tst == b.tst && a.tst.cb > 0 && a.fullyReceive == b.fullyReceive && a.received == b.received
    ensures a.cut == b.cut && Residue(a, p) == Residue(b, q)
    ensures a.handed == b.handed
       <==> !a.fullyReceive || forall f :: f in a.cut ==> !Separates(p.oriBuffer.Length, q.oriBuffer.Length, f)
  {
    HandedIsDelivered(a, p);
    HandedIsDelivered(b, q);
    BufferSizeTransparency(a.tst, a.fullyReceive, p.oriBuffer.Length, q.oriBuffer.Length, a.received);
  }

  /**
   * A stream with a bad header in it, whatever the segments, on a link that awaits a receive or has been closed,
   * as every run leaves it while the link can be referenced: the link is closed once the whole of the bad header
   * has arrived, and then the user has been handed exactly the frames in front of it.
   */
  lemma MalformedDeterminism(ncb: Ncb, packet: RecvPacket, stream: seq<Byte>)
    requires ncb.tst.cb > 0 && ncb.received <= stream && Parse(ncb.tst, stream).bad
    requires Faithful(ncb, packet, ncb.received) && (Posted(ncb, packet) || ncb.closed)
    ensures var front := Parse(ncb.tst, stream).frames;
            && ncb.cut <= front
            && (TotalLength(front) + ncb.tst.cb <= |ncb.received| <==> Parse(ncb.tst, ncb.received).bad)
            && (Parse(ncb.tst, ncb.received).bad ==> ncb.cut == front && ncb.closed && !Posted(ncb, packet))
  {
    var t, received := ncb.tst, ncb.received;
    var tail := stream[|received|..];
    assert stream == received + tail && stream[..|received|] == received;
    FramesOnlyGrow(t, received, tail);
    if Parse(t, received).bad {
      BadHeaderIsFinal(t, received, tail);
      ByteConservation(t, received);
      RestIsShort(t, received);
    } else if TotalLength(Parse(t, stream).frames) + t.cb <= |received| {
      BadHeaderArrives(t, stream, |received|);
    }
  }

  /** The same over a whole run: a link is opened and receives such a stream. While it can be referenced, it is closed
      once the bad header has arrived, with exactly the frames in front of it cut; and when all goes well it
      does arrive. */
  method ReceiveMalformed(tst: Template, fullyReceive: bool, capacity: nat, stream: seq<Byte>, wants: nat -> nat,
                          completions: nat -> Completion) returns (ncb: Ncb)
    requires 0 < tst.cb <= capacity && Parse(tst, stream).bad && forall i: nat :: Refers(completions(i))
    ensures ncb.tst == tst && ncb.received <= stream && ncb.cut <= Parse(tst, stream).frames
    ensures TotalLength(Parse(tst, stream).frames) + tst.cb <= |ncb.received| ==>
              ncb.closed && ncb.cut == Parse(tst, stream).frames
    ensures RunsWell(wants, completions) ==>
              && TotalLength(Parse(tst, stream).frames) + tst.cb <= |ncb.received|
              && ncb.handed == Delivered(tst, Shape(tst.cb, capacity, fullyReceive), stream)
  {
    var packet;
    ncb, packet := Open(tst, fullyReceive, capacity, true, true);
    assert [] + stream == stream;
    var posted, left := Receive(ncb, packet, stream, wants, completions);
    MalformedDeterminism(ncb, packet, stream);
  }
}
