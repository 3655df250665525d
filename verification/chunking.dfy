/** Per-LED colour data split into packets of at most 14 LEDs
    (`sendPerLEDData`): the chunks, the packets built from them, and the
    loop that writes them. */
module Chunking {
  import opened Protocol
  import opened Codec
  import opened Sampler
  import opened Transport

  /** ceil(n / 14): the number of packets for n colours. */
  function ChunkCount(n: nat): (c: nat)
    ensures MaxLedsPerPacket * c >= n
    ensures c == 0 || MaxLedsPerPacket * (c - 1) < n
    ensures c == 0 <==> n == 0
  {
    (n + MaxLedsPerPacket - 1) / MaxLedsPerPacket
  }

  /** Chunk j exists exactly when it starts inside the colour list. */
  lemma ChunkStarts(n: nat, j: nat)
    ensures j < ChunkCount(n) <==> MaxLedsPerPacket * j < n
  {
  }

  /** colors.slice(14 j, 14 j + 14) */
  function Chunk(colors: seq<LedColor>, j: nat): (c: seq<LedColor>)
    requires j < ChunkCount(|colors|)
    ensures 1 <= |c| <= MaxLedsPerPacket
  {
    colors[MaxLedsPerPacket * j..Min(MaxLedsPerPacket * j + MaxLedsPerPacket, |colors|)]
  }

  function Chunks(colors: seq<LedColor>): (cs: seq<seq<LedColor>>)
    ensures |cs| == ChunkCount(|colors|)
  {
    seq(ChunkCount(|colors|), j requires 0 <= j < ChunkCount(|colors|) => Chunk(colors, j))
  }

  function Concat(cs: seq<seq<LedColor>>): seq<LedColor>
    decreases |cs|
  {
    if |cs| == 0 then [] else Concat(cs[..|cs| - 1]) + cs[|cs| - 1]
  }

  /** The individual-colour packet of chunk `j`: zone byte from the ring mode,
      then [index, r, g, b] per LED. */
  function ChunkPacket(headers: HeaderPair, mode: RingMode, colors: seq<LedColor>, j: nat): Packet
    requires j < ChunkCount(|colors|)
  {
    Frame(headers, CmdSetRgbIndividual, EnhancedZone(mode, CmdSetRgbIndividual), Flatten(Chunk(colors, j)))
  }

  /** Every packet sendPerLEDData writes, in order. */
  function ChunkPackets(headers: HeaderPair, mode: RingMode, colors: seq<LedColor>): (ps: seq<Packet>)
    ensures |ps| == ChunkCount(|colors|)
  {
    seq(ChunkCount(|colors|), j requires 0 <= j < ChunkCount(|colors|) => ChunkPacket(headers, mode, colors, j))
  }

  /** The first m chunks, put back together, are the first 14 m colours. */
  lemma {:induction false} ConcatPrefix(colors: seq<LedColor>, m: nat)
    requires m <= ChunkCount(|colors|)
    ensures Concat(Chunks(colors)[..m]) == colors[..Min(MaxLedsPerPacket * m, |colors|)]
    decreases m
  {
    if m > 0 {
      var cs := Chunks(colors);
      ConcatPrefix(colors, m - 1);
      assert cs[..m][..m - 1] == cs[..m - 1];
      assert cs[..m][m - 1] == Chunk(colors, m - 1);
      var lo := MaxLedsPerPacket * (m - 1);
      assert colors[..Min(MaxLedsPerPacket * m, |colors|)] == colors[..lo] + Chunk(colors, m - 1);
    }
  }

  /** The chunks cover the colour list exactly, in order; each holds 1 to 14
      colours, and there are ceil(n / 14) of them. */
  lemma ChunksCover(colors: seq<LedColor>)
    ensures Concat(Chunks(colors)) == colors
    ensures forall j :: 0 <= j < |Chunks(colors)| ==> 1 <= |Chunks(colors)[j]| <= MaxLedsPerPacket
    ensures |Chunks(colors)| == ChunkCount(|colors|)
  {
    ConcatPrefix(colors, ChunkCount(|colors|));
    assert Chunks(colors)[..ChunkCount(|colors|)] == Chunks(colors);
  }

  /** Every chunk packet carries its whole chunk: a 64-byte frame whose
      length byte is 4 k for k <= 14 LEDs, whose zone byte is the ring-mode
      zone, and whose payload decodes back to the flattened chunk. */
  lemma ChunkPacketCarries(headers: HeaderPair, mode: RingMode, colors: seq<LedColor>, j: nat)
    requires j < ChunkCount(|colors|)
    ensures var p := ChunkPacket(headers, mode, colors, j);
            var c := Chunk(colors, j);
            && |p| == PacketSize
            && p[4] == BytesPerLed * |c| <= BytesPerLed * MaxLedsPerPacket
            && DecodeFrame(p, true) == Some(Fields(headers, CmdSetRgbIndividual, Some(ZoneForRingMode(mode)),
                                                   BytesPerLed * |c|, Flatten(c)))
  {
    var c := Chunk(colors, j);
    FlattenLayout(c);
    DecodeEncode(headers, CmdSetRgbIndividual, Some(ZoneForRingMode(mode)), Flatten(c));
    assert Flatten(c)[..Copied(true, Flatten(c))] == Flatten(c);
  }

  /** The default 24-LED layout in per-LED mode goes out as two packets of
      14 and 10 LEDs (56 and 40 payload bytes). */
  lemma DefaultLayoutChunks(colors: seq<LedColor>)
    requires |colors| == 24
    ensures ChunkCount(|colors|) == 2
    ensures Chunk(colors, 0) == colors[..14] && Chunk(colors, 1) == colors[14..]
    ensures |Flatten(Chunk(colors, 0))| == 56 && |Flatten(Chunk(colors, 1))| == 40
  {
    FlattenLayout(Chunk(colors, 0));
    FlattenLayout(Chunk(colors, 1));
  }

  /** One pass of sendPerLEDData's loop: the chunk starting at colour `i`
      (chunk `j`), flattened, framed and written. */
  method WriteChunk(dev: HidDevice, headers: HeaderPair, mode: RingMode, colors: seq<LedColor>, i: nat, ghost j: nat)
    returns (written: bool)
    requires i == MaxLedsPerPacket * j && i < |colors|
    modifies dev
    ensures j < ChunkCount(|colors|)
    ensures dev.attempts == old(dev.attempts) + 1
    ensures written == !dev.fails(old(dev.attempts))
    ensures dev.sent == old(dev.sent) + (if written then [ChunkPacket(headers, mode, colors, j)] else [])
  {
    ChunkStarts(|colors|, j);
    var chunk := colors[i..Min(i + MaxLedsPerPacket, |colors|)];
    var ledData := FlattenLedColors(chunk);
    var packet := CreateProtocolPacket(headers, mode, CmdSetRgbIndividual, ledData);
    written := dev.Write(packet);
  }

  /** Sending the next packet of a plan extends the sent prefix by one. */
  lemma SentOneMore(before: seq<Packet>, plan: seq<Packet>, j: nat)
    requires j < |plan|
    ensures before + plan[..j] + [plan[j]] == before + plan[..j + 1]
  {
    assert plan[..j + 1] == plan[..j] + [plan[j]];
  }

  /** sendPerLEDData: one packet per chunk, in order; the first write that
      throws ends the loop and the call (`ok` false). */
  method SendPerLedData(dev: HidDevice, headers: HeaderPair, mode: RingMode, colors: seq<LedColor>)
    returns (ok: bool)
    modifies dev
    ensures var plan := ChunkPackets(headers, mode, colors);
            var k := Run(dev.fails, old(dev.attempts), |plan|);
            && ok == (k == |plan|)
            && dev.sent == old(dev.sent) + plan[..k]
            && dev.attempts == old(dev.attempts) + Spent(dev.fails, old(dev.attempts), |plan|)
  {
    ghost var plan := ChunkPackets(headers, mode, colors);
    ghost var start, before := dev.attempts, dev.sent;
    var i := 0;
    ghost var j := 0;
    ChunkStarts(|colors|, 0);
    while i < |colors|
      invariant i == MaxLedsPerPacket * j
      invariant j <= |plan|
      invariant i < |colors| <==> j < |plan|
      invariant dev.attempts == start + j
      invariant Run(dev.fails, start, j) == j
      invariant dev.sent == before + plan[..j]
    {
      RunStep(dev.fails, start, j, |plan|);
      var written := WriteChunk(dev, headers, mode, colors, i, j);
      if !written {
        return false;
      }
      SentOneMore(before, plan, j);
      ChunkStarts(|colors|, j + 1);
      i := i + MaxLedsPerPacket;
      j := j + 1;
    }
    assert plan[..j] == plan;
    ok := true;
  }
}
