/** Reassembly of the name of a device found by a Bolt receiver
    (src/logid/backend/hidpp10/Receiver.cpp, fillDeviceDiscoveryEvent). */
module Discovery {
  import opened HidppReport

  /** Name bytes in one report: the 16 parameters of a long report less three. */
  const BLOCK_SIZE := 13
  const SPACE: Byte := 32

  /** The parameters of a long report. */
  type Params = s: seq<Byte> | |s| == 16 witness seq(16, _ => 0)

  /** A discovery report: `address` carries the sequence number, data[1] the number of the block. */
  datatype Block = Block(address: Byte, data: Params)

  datatype Found = Found(
    deviceType: Byte, seqNum: Byte, address: seq<Byte>, pid: int, authentication: Byte, name: seq<Byte>)

  function ResizeName(name: seq<Byte>, size: nat): (r: seq<Byte>)
    ensures |r| == size
    ensures forall j :: 0 <= j < size ==> r[j] == if j < |name| then name[j] else SPACE
  {
    if size <= |name| then name[..size] else name + seq(size - |name|, _ => SPACE)
  }

  /** Whether byte j of a name travels in block k, counted from 1. */
  predicate InBlock(j: int, k: int) {
    (k - 1) * BLOCK_SIZE <= j < k * BLOCK_SIZE
  }

  /** The name after the bytes of block k (counted from 1) have been written over it. */
  function Overlay(name: seq<Byte>, k: nat, bytes: seq<Byte>): (r: seq<Byte>)
    requires k >= 1 && |bytes| == BLOCK_SIZE
    ensures |r| == |name|
    ensures forall j :: 0 <= j < |name| ==>
              r[j] == if InBlock(j, k) then bytes[j - (k - 1) * BLOCK_SIZE] else name[j]
  {
    seq(|name|, j requires 0 <= j < |name| =>
      if InBlock(j, k) then bytes[j - (k - 1) * BLOCK_SIZE] else name[j])
  }

  function NextFound(e: Found, b: Block): Found
  {
    var k := b.data[1];
    if k == 0 then
      Found(b.data[3], b.address, b.data[6..12], (b.data[5] as int) * 256 + b.data[4], b.data[14], [])
    else if e.seqNum != b.address then e
    else
      var name := if k == 1 then ResizeName(e.name, b.data[2]) else e.name;
      e.(name := Overlay(name, k, b.data[3..]))
  }

  /** Whether the report completes the event. */
  predicate Completes(e: Found, b: Block)
  {
    b.data[1] != 0 && e.seqNum == b.address && b.data[1] * BLOCK_SIZE > |NextFound(e, b).name|
  }

  /** The event that is filled in place. */
  class DiscoveryEvent {
    var deviceType: Byte
    var seqNum: Byte
    var address: seq<Byte>
    var pid: int
    var authentication: Byte
    var name: seq<Byte>

    ghost function View(): Found
      reads this
    {
      Found(deviceType, seqNum, address, pid, authentication, name)
    }

    constructor ()
      ensures View() == Found(0, 0, [0, 0, 0, 0, 0, 0], 0, 0, [])
    {
      deviceType, seqNum, address, pid, authentication, name := 0, 0, [0, 0, 0, 0, 0, 0], 0, 0, [];
    }

    method Fill(b: Block) returns (filled: bool)
      modifies this
      ensures View() == NextFound(old(View()), b)
      ensures filled == Completes(old(View()), b)
    {
      var k := b.data[1];
      if k == 0 {
        address := b.data[6..12];
        deviceType := b.data[3];
        pid := (b.data[5] as int) * 256 + b.data[4];
        authentication := b.data[14];
        seqNum := b.address;
        name := [];
        return false;
      }
      if seqNum != b.address {
        return false;
      }
      if k == 1 {
        name := ResizeName(name, b.data[2]);
      }
      ghost var before := name;
      ghost var bytes := b.data[3..];
      var i := 0;
      while i < BLOCK_SIZE
        invariant 0 <= i <= BLOCK_SIZE
        invariant |name| == |before| && (i > 0 ==> (k - 1) * BLOCK_SIZE + i <= |name|)
        invariant forall j :: 0 <= j < |name| ==>
          name[j] == if (k - 1) * BLOCK_SIZE <= j < (k - 1) * BLOCK_SIZE + i then bytes[j - (k - 1) * BLOCK_SIZE] else before[j]
        invariant View() == old(View()).(name := name)
      {
        var j := (k - 1) * BLOCK_SIZE + i;
        if j < |name| {
          name := name[j := b.data[i + 3]];
        } else {
          assert name == Overlay(before, k, bytes);
          return true;
        }
        i := i + 1;
      }
      assert name == Overlay(before, k, bytes);
      return false;
    }
  }

  // ---------------------------------------------------------------------------------------------
  // One sender, any interleaving
  // ---------------------------------------------------------------------------------------------

  /** Whether a report is block number data[1] of this name; what pads the last block is not fixed. */
  predicate Carries(b: Block, sent: seq<Byte>) {
    && b.data[1] >= 1
    && (b.data[1] == 1 ==> b.data[2] == |sent|)
    && forall j :: 0 <= j < |sent| && InBlock(j, b.data[1]) ==>
         b.data[3 + j - (b.data[1] - 1) * BLOCK_SIZE] == sent[j]
  }

  /** Reports after a header with sequence number s: those with that number carry the sent name, those
      with another number are anything but a header. */
  predicate Traffic(run: seq<Block>, s: Byte, sent: seq<Byte>) {
    forall b :: b in run ==> b.data[1] != 0 && (b.address == s ==> Carries(b, sent))
  }

  /** The block numbers received, in order. */
  function Numbers(run: seq<Block>, s: Byte): seq<int>
  {
    if run == [] then []
    else
      var front, last := run[..|run| - 1], run[|run| - 1];
      if last.address == s then Numbers(front, s) + [last.data[1]] else Numbers(front, s)
  }

  function After(e: Found, run: seq<Block>): Found
  {
    if run == [] then e
    else
      var front, last := run[..|run| - 1], run[|run| - 1];
      NextFound(After(e, front), last)
  }

  /** What the name must be when these blocks have arrived: the sent byte wherever its block has, a space
      elsewhere; nothing before the first block. */
  predicate Assembled(name: seq<Byte>, sent: seq<Byte>, got: seq<int>) {
    if got == [] then name == []
    else
      && |name| == |sent|
      && forall j :: 0 <= j < |sent| ==> name[j] == if j / BLOCK_SIZE + 1 in got then sent[j] else SPACE
  }

  lemma BlockRange(j: nat, k: nat)
    requires k >= 1
    ensures InBlock(j, k) <==> j / BLOCK_SIZE + 1 == k
  {
  }

  lemma BlockAssembles(e: Found, b: Block, sent: seq<Byte>, got: seq<int>)
    requires Assembled(e.name, sent, got) && Carries(b, sent) && e.seqNum == b.address
    requires got == [] ==> b.data[1] == 1
    ensures var t := NextFound(e, b);
            && t == e.(name := t.name)
            && Assembled(t.name, sent, got + [b.data[1]])
    ensures Completes(e, b) <==> b.data[1] * BLOCK_SIZE > |sent|
  {
    var k := b.data[1];
    var name := if k == 1 then ResizeName(e.name, b.data[2]) else e.name;
    var t := NextFound(e, b);
    var bytes := b.data[3..];
    forall j | 0 <= j < |sent|
      ensures t.name[j] == if j / BLOCK_SIZE + 1 in got + [k] then sent[j] else SPACE
    {
      BlockRange(j, k);
      if j / BLOCK_SIZE + 1 == k {
        assert bytes[j - (k - 1) * BLOCK_SIZE] == b.data[3 + (j - (k - 1) * BLOCK_SIZE)];
      } else {
        assert t.name[j] == name[j];
      }
    }
  }

  /** Whether the blocks of this sequence number begin with block 1. */
  predicate BeginsWithFirst(got: seq<int>) {
    got != [] ==> got[0] == 1
  }

  /** After a header, and whatever non-header reports of other numbers come between, the name is assembled
      from the blocks of its own number; these may come in any order and more than once after block 1. */
  lemma {:induction false} NameAssembles(e: Found, run: seq<Block>, s: Byte, sent: seq<Byte>)
    requires e.name == [] && e.seqNum == s && Traffic(run, s, sent)
    requires BeginsWithFirst(Numbers(run, s))
    ensures After(e, run) == e.(name := After(e, run).name)
    ensures Assembled(After(e, run).name, sent, Numbers(run, s))
    decreases |run|
  {
    if run == [] {
    } else {
      var front, last := run[..|run| - 1], run[|run| - 1];
      assert last in run && forall b :: b in front ==> b in run;
      assert Numbers(front, s) <= Numbers(run, s);
      NameAssembles(e, front, s, sent);
      if last.address == s {
        BlockAssembles(After(e, front), last, sent, Numbers(front, s));
      }
    }
  }

  /** What a header says of the device stays in the event until the next header, byte for byte. */
  lemma {:induction false} HeaderStays(e: Found, header: Block, run: seq<Block>)
    requires header.data[1] == 0 && forall b :: b in run ==> b.data[1] != 0
    ensures var found := After(NextFound(e, header), run);
            && found.deviceType == header.data[3]
            && found.seqNum == header.address
            && found.pid == (header.data[5] as int) * 0x100 + header.data[4]
            && (|found.address| == 6 && forall i :: 0 <= i < 6 ==> found.address[i] == header.data[6 + i])
            && found.authentication == header.data[14]
    ensures run == [] ==> NextFound(e, header).name == [] && !Completes(e, header)
    decreases |run|
  {
    if run == [] {
    } else {
      var front, last := run[..|run| - 1], run[|run| - 1];
      assert last in run && forall b :: b in front ==> b in run;
      HeaderStays(e, header, front);
    }
  }

  /** The numbers 1 to k. */
  function UpTo(k: nat): (r: seq<int>)
    ensures |r| == k && forall i :: 0 <= i < k ==> r[i] == i + 1
  {
    seq(k, i => i + 1)
  }

  /** A header followed by blocks 1 to k in order, interleaved with other traffic, gives the first
      min(13k, n) bytes of the name. */
  lemma {:induction false} InOrderPrefix(e: Found, header: Block, run: seq<Block>, sent: seq<Byte>, k: nat)
    requires header.data[1] == 0
    requires Traffic(run, header.address, sent) && Numbers(run, header.address) == UpTo(k) && k >= 1
    ensures var name := After(NextFound(e, header), run).name;
            && |name| == |sent|
            && forall j :: 0 <= j < |sent| && j < k * BLOCK_SIZE ==> name[j] == sent[j]
  {
    var start := NextFound(e, header);
    NameAssembles(start, run, header.address, sent);
    var name := After(start, run).name;
    forall j | 0 <= j < |sent| && j < k * BLOCK_SIZE
      ensures name[j] == sent[j]
    {
      assert UpTo(k)[j / BLOCK_SIZE] == j / BLOCK_SIZE + 1;
    }
  }

  /** With blocks 1 to k received and 13k > n the name is whole. */
  lemma WholeName(name: seq<Byte>, sent: seq<Byte>, k: nat)
    requires k >= 1 && k * BLOCK_SIZE > |sent| && Assembled(name, sent, UpTo(k))
    ensures name == sent
  {
    forall j | 0 <= j < |sent|
      ensures name[j] == sent[j]
    {
      assert UpTo(k)[j / BLOCK_SIZE] == j / BLOCK_SIZE + 1;
    }
  }

  /** When the k-th block arrives after 1 to k - 1, completion is reported if and only if 13k > n: so it
      is first reported by block n / 13 + 1, and then the whole name is there. */
  lemma {:induction false} CompletionPoint(
    e: Found, header: Block, run: seq<Block>, last: Block, sent: seq<Byte>, k: nat)
    requires header.data[1] == 0 && k >= 1
    requires Traffic(run + [last], header.address, sent)
    requires Numbers(run, header.address) == UpTo(k - 1) && last.address == header.address && last.data[1] == k
    ensures var before := After(NextFound(e, header), run);
            && (Completes(before, last) <==> k * BLOCK_SIZE > |sent|)
            && (Completes(before, last) <==> k >= |sent| / BLOCK_SIZE + 1)
            && (Completes(before, last) ==> NextFound(before, last).name == sent)
  {
    var start := NextFound(e, header);
    assert last in run + [last] && forall b :: b in run ==> b in run + [last];
    NameAssembles(start, run, header.address, sent);
    var before := After(start, run);
    BlockAssembles(before, last, sent, UpTo(k - 1));
    assert UpTo(k - 1) + [last.data[1]] == UpTo(k);
    if k * BLOCK_SIZE > |sent| {
      WholeName(NextFound(before, last).name, sent, k);
    }
  }

  /** The blocks that a name needs: as many as it takes to hold its bytes. */
  function BlocksNeeded(n: nat): nat {
    (n + BLOCK_SIZE - 1) / BLOCK_SIZE
  }

  /** A sender that stops with the last byte is reported complete if and only if the length of the name is
      not a multiple of 13: after an exact number of full blocks completion is never reported. */
  lemma {:induction false} ExactMultipleNeverCompletes(
    e: Found, header: Block, run: seq<Block>, last: Block, sent: seq<Byte>)
    requires header.data[1] == 0 && sent != []
    requires Traffic(run + [last], header.address, sent)
    requires Numbers(run, header.address) == UpTo(BlocksNeeded(|sent|) - 1)
    requires last.address == header.address && last.data[1] == BlocksNeeded(|sent|)
    ensures Completes(After(NextFound(e, header), run), last) <==> |sent| % BLOCK_SIZE != 0
  {
    CompletionPoint(e, header, run, last, sent, BlocksNeeded(|sent|));
  }

  /** Whether no report of the run completes the event. */
  predicate NothingCompletes(e: Found, run: seq<Block>) {
    run == [] ||
    (NothingCompletes(e, run[..|run| - 1]) && !Completes(After(e, run[..|run| - 1]), run[|run| - 1]))
  }

  /** A block that arrives before block 1 completes the event at once, with an empty name. */
  lemma LostFirstBlock(e: Found, b: Block)
    requires e.name == [] && b.data[1] >= 2 && b.address == e.seqNum
    ensures Completes(e, b) && NextFound(e, b).name == []
  {
  }

  /** So as long as nothing has completed, the blocks received begin with block 1. */
  lemma {:induction false} OpenBeginsWithFirst(e: Found, run: seq<Block>, s: Byte, sent: seq<Byte>)
    requires e.name == [] && e.seqNum == s && Traffic(run, s, sent) && NothingCompletes(e, run)
    ensures BeginsWithFirst(Numbers(run, s))
    decreases |run|
  {
    if run == [] {
    } else {
      var front, last := run[..|run| - 1], run[|run| - 1];
      assert last in run && forall b :: b in front ==> b in run;
      OpenBeginsWithFirst(e, front, s, sent);
      NameAssembles(e, front, s, sent);
      if Numbers(front, s) == [] && last.address == s && last.data[1] >= 2 {
        LostFirstBlock(After(e, front), last);
        assert false;
      }
    }
  }

  lemma AssembledIsSent(name: seq<Byte>, sent: seq<Byte>, got: seq<int>)
    requires got != [] && Assembled(name, sent, got)
    ensures name == sent <==> forall j :: 0 <= j < |sent| ==> j / BLOCK_SIZE + 1 in got || sent[j] == SPACE
  {
    if name == sent {
      assert forall j :: 0 <= j < |sent| ==> name[j] == sent[j];
    }
  }

  /** Exact condition: at its first completion the name is the one sent if and only if the blocks received
      begin with block 1 and each byte has come in its block or is a space.  Without a promise of order
      completion says nothing more. */
  lemma {:induction false} FirstCompletionIsWhole(
    e: Found, header: Block, run: seq<Block>, last: Block, sent: seq<Byte>)
    requires header.data[1] == 0 && sent != []
    requires Traffic(run + [last], header.address, sent)
    requires NothingCompletes(NextFound(e, header), run)
    requires Completes(After(NextFound(e, header), run), last)
    ensures var got := Numbers(run, header.address) + [last.data[1]];
            NextFound(After(NextFound(e, header), run), last).name == sent <==>
            got[0] == 1 && forall j :: 0 <= j < |sent| ==> j / BLOCK_SIZE + 1 in got || sent[j] == SPACE
  {
    var start := NextFound(e, header);
    var s := header.address;
    assert last in run + [last] && forall b :: b in run ==> b in run + [last];
    OpenBeginsWithFirst(start, run, s, sent);
    NameAssembles(start, run, s, sent);
    var before, got0 := After(start, run), Numbers(run, s);
    if got0 == [] && last.data[1] != 1 {
      LostFirstBlock(before, last);
    } else {
      BlockAssembles(before, last, sent, got0);
      AssembledIsSent(NextFound(before, last).name, sent, got0 + [last.data[1]]);
    }
  }

  // ---------------------------------------------------------------------------------------------
  // Examples
  // ---------------------------------------------------------------------------------------------

  /** A name of n times the letter A, and its block k. */
  function NameOfA(n: Byte): seq<Byte> {
    seq(n, _ => 65)
  }

  function BlockOfA(k: Byte, n: Byte): Block {
    Block(0, [0, k, n] + seq(BLOCK_SIZE, _ => 65))
  }

  lemma BlockOfACarries(k: Byte, n: Byte)
    requires k >= 1
    ensures Carries(BlockOfA(k, n), NameOfA(n))
  {
  }

  lemma OneFullBlock(start: Found, b: Block, sent: seq<Byte>)
    requires start.name == [] && Carries(b, sent) && b.address == start.seqNum && b.data[1] == 1
    requires |sent| == BLOCK_SIZE
    ensures NextFound(start, b).name == sent && !Completes(start, b)
  {
    BlockAssembles(start, b, sent, []);
    assert [] + [b.data[1]] == [1];
    AssembledIsSent(NextFound(start, b).name, sent, [1]);
  }

  /** A name of 13 bytes is whole after its only block, and completion is not reported. */
  lemma ThirteenBytes(e: Found) returns (start: Found, b: Block, sent: seq<Byte>)
    ensures start == NextFound(e, BlockOfA(0, 0)) && Carries(b, sent) && |sent| == 13
    ensures NextFound(start, b).name == sent && !Completes(start, b)
  {
    start, b, sent := NextFound(e, BlockOfA(0, 0)), BlockOfA(1, 13), NameOfA(13);
    BlockOfACarries(1, 13);
    OneFullBlock(start, b, sent);
  }

  /** Block 1, then a block past the end of the name: complete, with byte j missing. */
  lemma SkippedBlock(start: Found, b: Block, c: Block, sent: seq<Byte>, j: nat)
    requires start.name == [] && Carries(b, sent) && b.address == start.seqNum && b.data[1] == 1
    requires Carries(c, sent) && c.address == start.seqNum && c.data[1] * BLOCK_SIZE > |sent| >= BLOCK_SIZE
    requires j < |sent| && sent[j] != SPACE && j / BLOCK_SIZE != 0 && j / BLOCK_SIZE + 1 != c.data[1]
    ensures !Completes(start, b) && Completes(NextFound(start, b), c)
    ensures NextFound(NextFound(start, b), c).name != sent
  {
    BlockAssembles(start, b, sent, []);
    assert [] + [b.data[1]] == [1];
    var before := NextFound(start, b);
    BlockAssembles(before, c, sent, [1]);
    AssembledIsSent(NextFound(before, c).name, sent, [1] + [c.data[1]]);
  }

  /** A name of 40 bytes is reported complete by its fourth block although two are missing. */
  lemma FortyBytes(e: Found) returns (start: Found, b: Block, c: Block, sent: seq<Byte>)
    ensures start == NextFound(e, BlockOfA(0, 0)) && Carries(b, sent) && Carries(c, sent) && |sent| == 40
    ensures b.data[1] == 1 && c.data[1] == 4
    ensures !Completes(start, b) && Completes(NextFound(start, b), c)
    ensures NextFound(NextFound(start, b), c).name != sent
  {
    start, b, c, sent := NextFound(e, BlockOfA(0, 0)), BlockOfA(1, 40), BlockOfA(4, 40), NameOfA(40);
    BlockOfACarries(1, 40);
    BlockOfACarries(4, 40);
    SkippedBlock(start, b, c, sent, 13);
  }
}
