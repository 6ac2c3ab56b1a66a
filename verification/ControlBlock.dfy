/** The control block of a link (ncb.c) and the receive packet (packet.c). */
module ControlBlock {
  import opened Templates
  import opened Framing

  /** memcpy between two different blocks. */
  method Memcpy(dst: array<Byte>, at: nat, src: array<Byte>, from: nat, n: nat)
    requires dst != src && at + n <= dst.Length && from + n <= src.Length
    modifies dst
    ensures dst[..at + n] == old(dst[..at]) + src[from..from + n]
  {
    forall i | 0 <= i < n {
      dst[at + i] := src[from + i];
    }
  }

  /** memmove to the front of a block. */
  method MemmoveToFront(block: array<Byte>, from: nat, n: nat)
    requires from + n <= block.Length
    modifies block
    ensures block[..n] == old(block[from..from + n])
  {
    forall i | 0 <= i < n {
      block[i] := block[from + i];
    }
  }

  /**
   * The part of ncb_t that receiving uses. Three history fields record the run: `received`, the bytes
   * that completions brought in; `handed`, the data of every EVT_RECEIVEDATA callback; and `cut`, the
   * stretch of the stream that each of those callbacks was made for.
   */
  class Ncb {
    const tst: Template
    const fullyReceive: bool          // LINKATTR_TCP_FULLY_RECEIVE
    var closed: bool                  // objclos was called on the link
    var lbData: array?<Byte>          // large block data
    var lbCpyOffset: int              // bytes of the large block already copied
    var lbLength: int                 // length of the large block
    ghost var blocks: nat             // large blocks allocated and not yet freed
    ghost var received: seq<Byte>
    ghost var handed: seq<seq<Byte>>
    ghost var cut: seq<seq<Byte>>

    constructor (tst: Template, fullyReceive: bool)
      ensures this.tst == tst && this.fullyReceive == fullyReceive
      ensures !closed && lbData == null && lbCpyOffset == 0 && lbLength == 0 && blocks == 0
      ensures received == [] && handed == [] && cut == []
    {
      this.tst, this.fullyReceive := tst, fullyReceive;
      closed := false;
      lbData, lbCpyOffset, lbLength := null, 0, 0;
      blocks, received, handed, cut := 0, [], [], [];
    }

    /** The macro ncb_lb_marked (ncb.h:64). */
    predicate Marked()
      reads this
    {
      lbData != null && lbLength > 0
    }

    /** The large block's fields agree, and no block has been lost. */
    ghost predicate BlockValid()
      reads this
    {
      && blocks == (if lbData == null then 0 else 1)
      && (lbData != null ==> 0 <= lbCpyOffset <= lbLength == lbData.Length && lbLength > 0)
    }

    /** What has been gathered of a large frame. */
    ghost function Gathered(): seq<Byte>
      requires BlockValid()
      reads this, lbData
    {
      if lbData == null then [] else lbData[..lbCpyOffset]
    }

    /**
     * ncb_mark_lb (ncb.c:43-64): allocate a block of cb bytes and copy source[from..from+currentSize] into it.
     * When the allocation fails the length has been written already and lbData is null.
     */
    method MarkLb(cb: int, currentSize: nat, source: array<Byte>, from: nat, heapOk: bool) returns (retval: int)
      requires from + currentSize <= source.Length
      modifies this`lbData, this`lbLength, this`lbCpyOffset, this`blocks
      ensures retval == 0 || retval == -1
      ensures retval == 0 <==> currentSize <= cb && heapOk
      ensures retval == 0 ==> fresh(lbData) && lbData.Length == lbLength == cb && lbCpyOffset == currentSize
      ensures retval == 0 ==> lbData[..currentSize] == source[from..from + currentSize]
      ensures blocks == old(blocks) + (if retval == 0 then 1 else 0)
      ensures retval < 0 && currentSize > cb ==>
                lbData == old(lbData) && lbLength == old(lbLength) && lbCpyOffset == old(lbCpyOffset)
      ensures retval < 0 && currentSize <= cb ==>
                lbData == null && lbLength == cb && lbCpyOffset == old(lbCpyOffset)
    {
      if cb < currentSize {
        return -1;
      }
      lbLength := cb;
      if !heapOk {
        lbData := null;
        return -1;
      }
      var block := new Byte[cb];
      lbData := block;
      blocks := blocks + 1;
      lbCpyOffset := currentSize;
      if currentSize == 0 {
        return 0;
      }
      Memcpy(block, 0, source, from, currentSize);
      return 0;
    }

    /** ncb_unmark_lb (ncb.c:66-80): free the block if there is one, and clear the fields. */
    method UnmarkLb()
      requires BlockValid()
      modifies this`lbData, this`lbLength, this`lbCpyOffset, this`blocks
      ensures lbData == null && lbLength == 0 && blocks == 0
      ensures old(lbData) != null ==> lbCpyOffset == 0
      ensures old(lbData) == null ==> lbCpyOffset == old(lbCpyOffset)
    {
      if lbData != null {
        assert lbLength > 0;                 // ncb.c:70
        if lbLength > 0 {
          blocks := blocks - 1;
          lbData := null;
        }
        lbCpyOffset := 0;
      }
      lbLength := 0;
    }

    /** Each callback got what the shape prescribes for its stretch of the stream. */
    ghost predicate HandedFits(v: Shape)
      reads this
    {
      handed == Hands(v, cut)
    }

    /** The user callback for EVT_RECEIVEDATA. */
    ghost method Callback(v: Shape, frame: seq<Byte>, data: seq<Byte>)
      requires HandedFits(v) && data == Hand(v, frame)
      modifies this`handed, this`cut
      ensures HandedFits(v)
      ensures handed == old(handed) + [data] && cut == old(cut) + [frame]
    {
      handed := handed + [data];
      cut := cut + [frame];
    }
  }

  /** The kRecv packet of a link, as allocate_packet lays it out (packet.c:65-72). Offsets stand for pointers. */
  class RecvPacket {
    const oriBuffer: array<Byte>
    var irp: int                      // irp_ - ori_buffer_
    var sizeForReq: int
    var sizeForTranslation: int
    var analyzedOffset: int
    var freed: bool

    constructor (cbSize: nat)
      ensures oriBuffer.Length == cbSize && fresh(oriBuffer)
      ensures irp == 0 && sizeForReq == cbSize && sizeForTranslation == 0 && analyzedOffset == 0 && !freed
    {
      oriBuffer := new Byte[cbSize];
      irp, sizeForReq, sizeForTranslation, analyzedOffset, freed := 0, cbSize, 0, 0, false;
    }

    /** freepkt (packet.c:83-110). Calling it on a freed packet would be a double free. */
    method Free()
      requires !freed
      modifies this`freed
      ensures freed
    {
      freed := true;
    }

    /** The kernel's side of WSARecv: put the segment at irp and report its length. */
    method Fill(segment: seq<Byte>)
      requires !freed && 0 <= irp && |segment| <= sizeForReq && irp + sizeForReq <= oriBuffer.Length
      modifies this`sizeForTranslation, oriBuffer
      ensures sizeForTranslation == |segment|
      ensures oriBuffer[..irp] == old(oriBuffer[..irp])
      ensures oriBuffer[irp..irp + |segment|] == segment
    {
      forall i | 0 <= i < |segment| {
        oriBuffer[irp + i] := segment[i];
      }
      sizeForTranslation := |segment|;
    }
  }
}
