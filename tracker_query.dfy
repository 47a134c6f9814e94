/**
 * The tracker announce response record and the decoder that turns its
 * compact `peers` blob into the list of "a.b.c.d:port" strings
 * (`TrackerResponse.GetIpPortListFromPeers`).
 */
module TrackerQuery {
  import opened Wrappers
  import opened Decimal
  import opened CompactPeers

  /** Go's `int64`; Go's `int` is also 64 bits wide on the platforms the client targets. */
  type Int64 = x: int | -0x8000_0000_0000_0000 <= x < 0x8000_0000_0000_0000

  /**
   * A tracker's announce response. Each field is filled from the bencoded
   * dictionary key named beside it; `peers` holds the raw bytes of the
   * compact peer list.
   */
  datatype TrackerResponse = TrackerResponse(
    failureReason: string,   // "failure reason"
    warningMessage: string,  // "warning message"
    interval: Int64,         // "interval"
    minInterval: Int64,      // "min interval"
    trackerId: string,       // "tracker id"
    complete: Int64,         // "complete"
    incomplete: Int64,       // "incomplete"
    peers: seq<bv8>)         // "peers"

  /** A Go run-time panic: a slice index at or past the slice's length. */
  datatype Panic = IndexOutOfRange(index: nat, length: nat)

  /** A blob that splits exactly into six-byte records. */
  predicate IsCompact(peers: seq<bv8>) {
    |peers| % ChunkSize == 0
  }

  /** The `k`-th six-byte record of a blob. */
  function Chunk(peers: seq<bv8>, k: nat): seq<bv8>
    requires ChunkSize * k + ChunkSize <= |peers|
  {
    peers[ChunkSize * k .. ChunkSize * k + ChunkSize]
  }

  /** The endpoints of a compact blob, in blob order. */
  function Endpoints(peers: seq<bv8>): (es: seq<PeerEndpoint>)
    requires IsCompact(peers)
    ensures |es| == |peers| / ChunkSize
    decreases |peers|
  {
    if peers == [] then [] else [DecodeChunk(peers[..ChunkSize])] + Endpoints(peers[ChunkSize..])
  }

  /** The strings `GetIpPortListFromPeers` returns for a compact blob. */
  function IpPortList(peers: seq<bv8>): (lines: seq<string>)
    requires IsCompact(peers)
    ensures |lines| == |peers| / ChunkSize
  {
    var es := Endpoints(peers);
    seq(|es|, k requires 0 <= k < |es| => FormatEndpoint(es[k]))
  }

  /** The loop starts an iteration at byte `i` of an `n`-byte blob. */
  predicate IterationStart(n: nat, i: nat) {
    i < n && i % ChunkSize == 0
  }

  /** Every index an iteration reads, `i` through `i + 5`, lies inside the blob. */
  ghost predicate AllReadsInBounds(n: nat) {
    forall i: nat :: IterationStart(n, i) ==> i + ChunkSize - 1 < n
  }

  lemma ReadsInBoundsIff(n: nat)
    ensures AllReadsInBounds(n) <==> n % ChunkSize == 0
  {
    if n % ChunkSize != 0 {
      var last := n - n % ChunkSize;
      assert IterationStart(n, last);
    }
  }

  /**
   * What `GetIpPortListFromPeers` does with a blob: the list of endpoint
   * strings, or the panic raised by the first read past the end.
   */
  function IpPortListOutcome(peers: seq<bv8>): (r: Result<seq<string>, Panic>)
    ensures r.Success? <==> AllReadsInBounds(|peers|)
    ensures r.Failure? ==> r.error.index >= r.error.length == |peers|
  {
    ReadsInBoundsIff(|peers|);
    if IsCompact(peers) then Success(IpPortList(peers))
    else Failure(IndexOutOfRange(|peers|, |peers|))
  }

  /** Compact peer decoding as the source's loop does it, two counters and an appended slice. */
  method GetIpPortListFromPeers(resp: TrackerResponse) returns (r: Result<seq<string>, Panic>)
    ensures r == IpPortListOutcome(resp.peers)
    ensures resp.peers == [] ==> r == Success([])
  {
    var peers := resp.peers;
    var peerIpPortList: seq<string> := [];
    var peersLen := |peers|;
    var i, j := 0, 0;
    while i < peersLen
      invariant i <= peersLen && i % ChunkSize == 0 && j == i / ChunkSize
      invariant peerIpPortList == IpPortList(peers[..i])
    {
      // The six reads go in order; the first index past the end is `peersLen` itself.
      if i + ChunkSize - 1 >= peersLen {
        assert !IsCompact(peers) by {
          assert peersLen == i + peersLen % ChunkSize;
        }
        return Failure(IndexOutOfRange(peersLen, peersLen));
      }
      ghost var chunk := peers[i..i + ChunkSize];
      ChunkFields(peers, i);
      var endpoint := PeerEndpoint(peers[i] as nat, peers[i + 1] as nat, peers[i + 2] as nat, peers[i + 3] as nat,
                     Port(peers[i + 4], peers[i + 5]) as nat);
      assert endpoint == DecodeChunk(chunk);
      var peerIpPort := FormatEndpoint(endpoint);
      assert peers[..i + ChunkSize] == peers[..i] + chunk;
      IpPortListAppend(peers[..i], chunk);
      IpPortListSingle(chunk);
      peerIpPortList := peerIpPortList + [peerIpPort];
      i, j := i + ChunkSize, j + 1;
    }
    assert peers[..i] == peers;
    return Success(peerIpPortList);
  }

  /** The record starting at byte `i`, read byte by byte as the loop body does. */
  lemma ChunkFields(peers: seq<bv8>, i: nat)
    requires i + ChunkSize <= |peers|
    ensures DecodeChunk(peers[i..i + ChunkSize]) ==
      PeerEndpoint(peers[i] as nat, peers[i + 1] as nat, peers[i + 2] as nat, peers[i + 3] as nat,
                   Port(peers[i + 4], peers[i + 5]) as nat)
  {
    var chunk := peers[i..i + ChunkSize];
    assert chunk[0] == peers[i] && chunk[1] == peers[i + 1] && chunk[2] == peers[i + 2];
    assert chunk[3] == peers[i + 3] && chunk[4] == peers[i + 4] && chunk[5] == peers[i + 5];
  }

  lemma {:induction false} EndpointsAt(peers: seq<bv8>, k: nat)
    requires IsCompact(peers) && k < |peers| / ChunkSize
    ensures Endpoints(peers)[k] == DecodeChunk(Chunk(peers, k))
    decreases k
  {
    if k > 0 {
      var rest := peers[ChunkSize..];
      EndpointsAt(rest, k - 1);
      assert Chunk(rest, k - 1) == Chunk(peers, k);
    }
  }

  lemma {:induction false} EndpointsAppend(p: seq<bv8>, q: seq<bv8>)
    requires IsCompact(p) && IsCompact(q)
    ensures IsCompact(p + q) && Endpoints(p + q) == Endpoints(p) + Endpoints(q)
    decreases |p|
  {
    if p == [] {
      assert p + q == q;
    } else {
      assert (p + q)[..ChunkSize] == p[..ChunkSize];
      assert (p + q)[ChunkSize..] == p[ChunkSize..] + q;
      EndpointsAppend(p[ChunkSize..], q);
    }
  }

  /** Decoding a concatenation of blobs concatenates their lists, in the same order. */
  lemma IpPortListAppend(p: seq<bv8>, q: seq<bv8>)
    requires IsCompact(p) && IsCompact(q)
    ensures IsCompact(p + q) && IpPortList(p + q) == IpPortList(p) + IpPortList(q)
  {
    EndpointsAppend(p, q);
  }

  lemma IpPortListSingle(chunk: seq<bv8>)
    requires |chunk| == ChunkSize
    ensures IsCompact(chunk) && IpPortList(chunk) == [FormatEndpoint(DecodeChunk(chunk))]
  {
    assert chunk[..ChunkSize] == chunk;
    assert chunk[ChunkSize..] == [];
  }

  /** Entry `k` is the text of record `k`. */
  lemma IpPortListAt(peers: seq<bv8>, k: nat)
    requires IsCompact(peers) && k < |peers| / ChunkSize
    ensures IpPortList(peers)[k] == FormatEndpoint(DecodeChunk(Chunk(peers, k)))
  {
    EndpointsAt(peers, k);
  }

  /** The exact shape of entry `k`: four octets in decimal joined by '.', then ':' and the big-endian port. */
  lemma EntryShape(peers: seq<bv8>, k: nat)
    requires IsCompact(peers) && k < |peers| / ChunkSize
    ensures var i := ChunkSize * k;
      IpPortList(peers)[k] ==
        NatToDecimal(peers[i] as nat) + "." + NatToDecimal(peers[i + 1] as nat) + "." +
        NatToDecimal(peers[i + 2] as nat) + "." + NatToDecimal(peers[i + 3] as nat) + ":" +
        NatToDecimal(peers[i + 4] as nat * 256 + peers[i + 5] as nat)
  {
    IpPortListAt(peers, k);
  }

  /** Entry `k` depends on record `k` alone. */
  lemma EntryDependsOnlyOnChunk(p: seq<bv8>, q: seq<bv8>, k: nat)
    requires IsCompact(p) && IsCompact(q)
    requires k < |p| / ChunkSize && k < |q| / ChunkSize
    requires Chunk(p, k) == Chunk(q, k)
    ensures IpPortList(p)[k] == IpPortList(q)[k]
  {
    IpPortListAt(p, k);
    IpPortListAt(q, k);
  }

  /** Reading entry `k` back gives the endpoint of record `k`, whose bytes are record `k`. */
  lemma EntryRoundTrip(peers: seq<bv8>, k: nat)
    requires IsCompact(peers) && k < |peers| / ChunkSize
    ensures ParseEndpoint(IpPortList(peers)[k]) == Some(DecodeChunk(Chunk(peers, k)))
    ensures EncodeEndpoint(ParseEndpoint(IpPortList(peers)[k]).value) == Chunk(peers, k)
  {
    IpPortListAt(peers, k);
    ParseFormat(DecodeChunk(Chunk(peers, k)));
    EncodeDecode(Chunk(peers, k));
  }

  /** Different records give different strings, wherever they sit. */
  lemma DistinctChunksDistinctEntries(p: seq<bv8>, k: nat, q: seq<bv8>, l: nat)
    requires IsCompact(p) && IsCompact(q)
    requires k < |p| / ChunkSize && l < |q| / ChunkSize
    ensures Chunk(p, k) != Chunk(q, l) ==> IpPortList(p)[k] != IpPortList(q)[l]
  {
    EntryRoundTrip(p, k);
    EntryRoundTrip(q, l);
  }

  /** The inverse of the decoder: read every entry back and re-encode it. */
  function ParseIpPortList(lines: seq<string>): Option<seq<bv8>>
    decreases |lines|
  {
    if lines == [] then Some([])
    else match ParseEndpoint(lines[0])
      case None => None
      case Some(e) =>
        match ParseIpPortList(lines[1..])
        case None => None
        case Some(rest) => Some(EncodeEndpoint(e) + rest)
  }

  lemma {:induction false} IpPortListRoundTrip(peers: seq<bv8>)
    requires IsCompact(peers)
    ensures ParseIpPortList(IpPortList(peers)) == Some(peers)
    decreases |peers|
  {
    if peers != [] {
      var head, tail := peers[..ChunkSize], peers[ChunkSize..];
      assert peers == head + tail;
      IpPortListAppend(head, tail);
      IpPortListSingle(head);
      var lines := IpPortList(peers);
      assert lines[0] == FormatEndpoint(DecodeChunk(head));
      assert lines[1..] == IpPortList(tail);
      ParseFormat(DecodeChunk(head));
      EncodeDecode(head);
      IpPortListRoundTrip(tail);
    }
  }

  /** Two compact blobs with the same list are the same blob. */
  lemma IpPortListInjective(p: seq<bv8>, q: seq<bv8>)
    requires IsCompact(p) && IsCompact(q)
    ensures IpPortList(p) == IpPortList(q) ==> p == q
  {
    IpPortListRoundTrip(p);
    IpPortListRoundTrip(q);
  }

  /** A one-peer blob: 192.168.0.1 on port 0x1AE1. */
  lemma SinglePeerExample()
    ensures IpPortListOutcome([192, 168, 0, 1, 0x1A, 0xE1]) == Success(["192.168.0.1:6881"])
  {
    var peers: seq<bv8> := [192, 168, 0, 1, 0x1A, 0xE1];
    IpPortListSingle(peers);
    assert DecodeChunk(peers) == PeerEndpoint(192, 168, 0, 1, 6881);
    assert NatToDecimal(192) == "192";
    assert NatToDecimal(168) == "168";
    assert NatToDecimal(6881) == "6881";
    assert NatToDecimal(0) == "0" && NatToDecimal(1) == "1";
    assert FormatEndpoint(PeerEndpoint(192, 168, 0, 1, 6881)) == "192.168.0.1:6881";
  }

  /** A seven-byte blob: the second iteration reads index 7 of a 7-byte slice. */
  lemma TruncatedBlobPanics()
    ensures IpPortListOutcome([1, 2, 3, 4, 5, 6, 7]) == Failure(IndexOutOfRange(7, 7))
  {
  }
}
