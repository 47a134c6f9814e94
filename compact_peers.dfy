/**
 * One record of a compact peer list (BitTorrent BEP 23, "Tracker Returns
 * Compact Peer Lists"): six bytes, the four octets of an IPv4 address
 * followed by a big-endian 16-bit port; and its text form "a.b.c.d:port".
 */
module CompactPeers {
  import opened Wrappers
  import opened Decimal

  /** Bytes per peer record. */
  const ChunkSize: nat := 6

  type Octet = x: nat | x < 256

  type PortNumber = x: nat | x < 65536

  /** An IPv4 address, most significant octet first, and a port. */
  datatype PeerEndpoint = PeerEndpoint(a: Octet, b: Octet, c: Octet, d: Octet, port: PortNumber)

  /** The value of a 16-bit word from its high and low bytes. */
  lemma Bv16Value(w: bv16)
    ensures w as nat == (w >> 8) as nat * 256 + (w & 0xFF) as nat
  {
  }

  lemma Widen(x: bv8)
    ensures (x as bv16) as nat == x as nat
  {
  }

  lemma ByteRoundTrip(x: bv8)
    ensures (x as nat) as bv8 == x
  {
  }

  lemma NatByteRoundTrip(n: nat)
    requires n < 256
    ensures (n as bv8) as nat == n
  {
    // a case split keeps the solver's bit-vector search small
    if n < 128 {
      if n < 64 {} else {}
    } else {
      if n < 192 {} else {}
    }
  }

  lemma PortBytes(hi: bv8, lo: bv8)
    ensures (((hi as bv16) << 8) | (lo as bv16)) >> 8 == hi as bv16
    ensures (((hi as bv16) << 8) | (lo as bv16)) & 0xFF == lo as bv16
  {
  }

  /** The port as the source computes it: `uint16(hi)<<8 | uint16(lo)`. */
  function Port(hi: bv8, lo: bv8): (p: bv16)
    ensures p as nat == hi as nat * 256 + lo as nat
  {
    var p := ((hi as bv16) << 8) | (lo as bv16);
    PortBytes(hi, lo);
    Bv16Value(p);
    Widen(hi);
    Widen(lo);
    p
  }

  /** The endpoint held in one six-byte record. */
  function DecodeChunk(chunk: seq<bv8>): (e: PeerEndpoint)
    requires |chunk| == ChunkSize
    ensures e.port == chunk[4] as nat * 256 + chunk[5] as nat
  {
    PeerEndpoint(chunk[0] as nat, chunk[1] as nat, chunk[2] as nat, chunk[3] as nat, Port(chunk[4], chunk[5]) as nat)
  }

  /** The six-byte record a tracker sends for an endpoint. */
  function EncodeEndpoint(e: PeerEndpoint): (chunk: seq<bv8>)
    ensures |chunk| == ChunkSize
    ensures chunk[4] as nat * 256 + chunk[5] as nat == e.port
  {
    NatByteRoundTrip(e.port / 256);
    NatByteRoundTrip(e.port % 256);
    [e.a as bv8, e.b as bv8, e.c as bv8, e.d as bv8, (e.port / 256) as bv8, (e.port % 256) as bv8]
  }

  lemma DecodeEncode(e: PeerEndpoint)
    ensures DecodeChunk(EncodeEndpoint(e)) == e
  {
    NatByteRoundTrip(e.a);
    NatByteRoundTrip(e.b);
    NatByteRoundTrip(e.c);
    NatByteRoundTrip(e.d);
  }

  lemma EncodeDecode(chunk: seq<bv8>)
    requires |chunk| == ChunkSize
    ensures EncodeEndpoint(DecodeChunk(chunk)) == chunk
  {
    var e := DecodeChunk(chunk);
    assert e.port / 256 == chunk[4] as nat && e.port % 256 == chunk[5] as nat;
    forall i | 0 <= i < ChunkSize
      ensures EncodeEndpoint(e)[i] == chunk[i]
    {
      ByteRoundTrip(chunk[i]);
    }
  }

  /** The text `fmt.Sprintf("%d.%d.%d.%d:%d", ...)` produces for an endpoint. */
  function FormatEndpoint(e: PeerEndpoint): string {
    NatToDecimal(e.a) + "." + NatToDecimal(e.b) + "." + NatToDecimal(e.c) + "." + NatToDecimal(e.d) + ":" +
    NatToDecimal(e.port)
  }

  /** The part of `s` before the first `sep` and the part after it. */
  function SplitAt(s: string, sep: char): (r: Option<(string, string)>)
    ensures r.Some? ==> sep !in r.value.0 && s == r.value.0 + [sep] + r.value.1
    ensures r.None? ==> sep !in s
    decreases |s|
  {
    if s == [] then None
    else if s[0] == sep then Some(([], s[1..]))
    else match SplitAt(s[1..], sep)
      case None => None
      case Some(parts) => Some(([s[0]] + parts.0, parts.1))
  }

  lemma {:induction false} SplitAtFirst(head: string, sep: char, tail: string)
    requires sep !in head
    ensures SplitAt(head + [sep] + tail, sep) == Some((head, tail))
    decreases |head|
  {
    var s := head + [sep] + tail;
    if head != [] {
      assert s[1..] == head[1..] + [sep] + tail;
      SplitAtFirst(head[1..], sep, tail);
      assert [s[0]] + head[1..] == head;
    }
  }

  /** A field of the text form read as a number below `bound`. */
  function ParseNumber(s: string, bound: nat): (r: Option<nat>)
    ensures r.Some? ==> r.value < bound && NatToDecimal(r.value) == s
  {
    if IsCanonical(s) && DecimalToNat(s) < bound then
      CanonicalRoundTrip(s);
      Some(DecimalToNat(s))
    else
      None
  }

  lemma ParseNumberIff(s: string, bound: nat, n: nat)
    ensures ParseNumber(s, bound) == Some(n) <==> n < bound && s == NatToDecimal(n)
  {
    if n < bound && s == NatToDecimal(n) {
      DecimalRoundTrip(n);
    }
  }

  function EndpointFromFields(a: string, b: string, c: string, d: string, port: string): Option<PeerEndpoint> {
    var na, nb, nc, nd := ParseNumber(a, 256), ParseNumber(b, 256), ParseNumber(c, 256), ParseNumber(d, 256);
    var np := ParseNumber(port, 65536);
    if na.Some? && nb.Some? && nc.Some? && nd.Some? && np.Some? then
      Some(PeerEndpoint(na.value, nb.value, nc.value, nd.value, np.value))
    else
      None
  }

  /** Reads the text form back: split on '.', '.', '.', ':' and read five decimals. */
  function ParseEndpoint(s: string): Option<PeerEndpoint> {
    match SplitAt(s, '.')
    case None => None
    case Some((a, rest0)) =>
      match SplitAt(rest0, '.')
      case None => None
      case Some((b, rest1)) =>
        match SplitAt(rest1, '.')
        case None => None
        case Some((c, rest2)) =>
          match SplitAt(rest2, ':')
          case None => None
          case Some((d, port)) => EndpointFromFields(a, b, c, d, port)
  }

  /** The five fields of the text form are the five decimals of the endpoint. */
  lemma SplitFormat(e: PeerEndpoint)
    ensures ParseEndpoint(FormatEndpoint(e)) ==
            EndpointFromFields(NatToDecimal(e.a), NatToDecimal(e.b), NatToDecimal(e.c),
                               NatToDecimal(e.d), NatToDecimal(e.port))
  {
    var da, db, dc, dd := NatToDecimal(e.a), NatToDecimal(e.b), NatToDecimal(e.c), NatToDecimal(e.d);
    var dp := NatToDecimal(e.port);
    DigitsHaveNoSeparators(da);
    DigitsHaveNoSeparators(db);
    DigitsHaveNoSeparators(dc);
    DigitsHaveNoSeparators(dd);
    var rest2 := dd + [':'] + dp;
    var rest1 := dc + ['.'] + rest2;
    var rest0 := db + ['.'] + rest1;
    assert FormatEndpoint(e) == da + ['.'] + rest0;
    SplitAtFirst(da, '.', rest0);
    SplitAtFirst(db, '.', rest1);
    SplitAtFirst(dc, '.', rest2);
    SplitAtFirst(dd, ':', dp);
  }

  lemma FieldsOfDecimals(e: PeerEndpoint)
    ensures EndpointFromFields(NatToDecimal(e.a), NatToDecimal(e.b), NatToDecimal(e.c),
                               NatToDecimal(e.d), NatToDecimal(e.port)) == Some(e)
  {
    ParseNumberIff(NatToDecimal(e.a), 256, e.a);
    ParseNumberIff(NatToDecimal(e.b), 256, e.b);
    ParseNumberIff(NatToDecimal(e.c), 256, e.c);
    ParseNumberIff(NatToDecimal(e.d), 256, e.d);
    ParseNumberIff(NatToDecimal(e.port), 65536, e.port);
  }

  lemma ParseFormat(e: PeerEndpoint)
    ensures ParseEndpoint(FormatEndpoint(e)) == Some(e)
  {
    SplitFormat(e);
    FieldsOfDecimals(e);
  }

  lemma FieldsAreDecimals(a: string, b: string, c: string, d: string, port: string, e: PeerEndpoint)
    requires EndpointFromFields(a, b, c, d, port) == Some(e)
    ensures a == NatToDecimal(e.a) && b == NatToDecimal(e.b)
    ensures c == NatToDecimal(e.c) && d == NatToDecimal(e.d)
    ensures port == NatToDecimal(e.port)
  {
  }

  lemma FormatParse(s: string, e: PeerEndpoint)
    requires ParseEndpoint(s) == Some(e)
    ensures s == FormatEndpoint(e)
  {
    var (a, rest0) := SplitAt(s, '.').value;
    var (b, rest1) := SplitAt(rest0, '.').value;
    var (c, rest2) := SplitAt(rest1, '.').value;
    var (d, port) := SplitAt(rest2, ':').value;
    FieldsAreDecimals(a, b, c, d, port, e);
    JoinSplits(s, a, rest0, b, rest1, c, rest2, d, port);
  }

  lemma JoinSplits(s: string, a: string, rest0: string, b: string, rest1: string, c: string, rest2: string,
                   d: string, port: string)
    requires s == a + ['.'] + rest0 && rest0 == b + ['.'] + rest1
    requires rest1 == c + ['.'] + rest2 && rest2 == d + [':'] + port
    ensures s == a + "." + b + "." + c + "." + d + ":" + port
  {
  }

  /** The text form determines the endpoint and is the only text that reads back to it. */
  lemma TextRoundTrip(s: string, e: PeerEndpoint)
    ensures ParseEndpoint(s) == Some(e) <==> s == FormatEndpoint(e)
  {
    if ParseEndpoint(s) == Some(e) {
      FormatParse(s, e);
    }
    if s == FormatEndpoint(e) {
      ParseFormat(e);
    }
  }

  lemma FormatEndpointInjective(e1: PeerEndpoint, e2: PeerEndpoint)
    ensures FormatEndpoint(e1) == FormatEndpoint(e2) ==> e1 == e2
  {
    ParseFormat(e1);
    ParseFormat(e2);
  }
}
