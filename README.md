# Compact peer-list decoding of a BitTorrent tracker response

This project models the core of `gotrnttrackerquery`, a small Go client for the
HTTP announce protocol of BitTorrent trackers (BEP 3). A tracker answers an
announce with a bencoded dictionary. The client binds that dictionary to a
`TrackerResponse` record, and its `peers` entry is a byte string in the compact
form of BEP 23 ("Tracker Returns Compact Peer Lists"): six bytes per peer, the four
octets of an IPv4 address followed by a big-endian 16-bit port.
`TrackerResponse.GetIpPortListFromPeers` walks that blob in six-byte strides and
renders each record as `"a.b.c.d:port"`. That decoder is what the project models
and proves things about.

Layout, one module per concern:

- `wrappers.dfy` — `Wrappers`: `Option` and `Result`.
- `decimal.dfy` — `Decimal`: `NatToDecimal`, the decimal rendering that the `%d`
  verb of `fmt.Sprintf` produces, and `DecimalToNat`, the reader that undoes it.
- `compact_peers.dfy` — `CompactPeers`: one six-byte record. It covers the port
  arithmetic `uint16(b4)<<8 | uint16(b5)` on `bv16`, the record's `PeerEndpoint`,
  the record's bytes (`EncodeEndpoint`), its text form (`FormatEndpoint`) and the
  parser of that text form (`ParseEndpoint`).
- `tracker_query.dfy` — `TrackerQuery`: the `TrackerResponse` record
  (gotrnttrackerquery.go:11-20) as a datatype whose `peers` field is `seq<bv8>`.
  It also holds the specification functions `Endpoints`, `IpPortList` and
  `IpPortListOutcome`, the imperative method `GetIpPortListFromPeers`, and the lemmas.

The method keeps the source's loop: two counters `i += 6`, `j += 1`, and a list
grown by appending. Its loop invariant says that the list built so far is
`IpPortList` of the prefix already consumed.

The source's loop guard is only `i < len(Peers)`. A blob whose length is not a
multiple of six therefore makes the last iteration index past the end, and Go
panics. The model does not forbid such blobs with a precondition. Instead it
returns `Failure(IndexOutOfRange(len, len))` for them. The reads go in order
`i, i+1, …, i+5` with `i < len`, so the first one off the end is at index `len`.
Rejecting such blobs with a typed length error would need a length check. The
code has none, and the model follows the code.

`GetIpPortListFromPeers` has a pointer receiver but only reads the record. The
model passes the record as an immutable value, so "the fields are unchanged
afterwards" holds by construction.

## Model

| member | source | states |
|---|---|---|
| `TrackerQuery.GetIpPortListFromPeers` | gotrnttrackerquery.go:51-62 | The loop returns exactly `IpPortListOutcome(peers)`: the list of entry strings when the blob splits into six-byte records, and the out-of-range panic at index `len` otherwise. An empty blob yields the empty list, not an error. |
| `TrackerQuery.IpPortListOutcome` | gotrnttrackerquery.go:54-58 | The decoder succeeds exactly when every index an iteration reads (`i` to `i+5`) lies inside the blob. A failure names an index at or past the blob's length, which equals the blob's length. |
| `TrackerQuery.ReadsInBoundsIff` | gotrnttrackerquery.go:54-58 | Every read of every iteration is in bounds if and only if `len(Peers) % 6 == 0`. |
| `TrackerQuery.TruncatedBlobPanics` | gotrnttrackerquery.go:54-58 | A seven-byte blob panics, reading index 7 of a 7-byte slice. |
| `TrackerQuery.Endpoints` | gotrnttrackerquery.go:54-58 | A compact blob of length `n` holds exactly `n / 6` endpoints. |
| `TrackerQuery.IpPortList` | gotrnttrackerquery.go:53-60 | The decoded list has exactly `len(Peers) / 6` entries. |
| `TrackerQuery.EndpointsAt` | gotrnttrackerquery.go:54-58 | Endpoint `k` is decoded from bytes `6k .. 6k+5` and from no other bytes. |
| `TrackerQuery.EndpointsAppend` | gotrnttrackerquery.go:54-60 | Decoding a concatenation of two compact blobs yields the first blob's endpoints followed by the second's. |
| `TrackerQuery.IpPortListAt` | gotrnttrackerquery.go:54-59 | Entry `k` of the list is the text of record `k`, so entries keep the order of their records in the blob. |
| `TrackerQuery.IpPortListAppend` | gotrnttrackerquery.go:54-60 | The list of a concatenation is the concatenation of the two lists, in the same order. |
| `TrackerQuery.IpPortListSingle` | gotrnttrackerquery.go:55-59 | A single six-byte record gives a one-entry list holding that record's text. |
| `TrackerQuery.ChunkFields` | gotrnttrackerquery.go:55-58 | Reading bytes `i .. i+5` one by one, as the `Sprintf` arguments do, gives the endpoint of the record at `i`. |
| `TrackerQuery.EntryShape` | gotrnttrackerquery.go:55-58 | Entry `k` is `d0 "." d1 "." d2 "." d3 ":" dp`. Here `d0..d3` are the decimals of bytes `6k..6k+3` and `dp` is the decimal of `Peers[6k+4]*256 + Peers[6k+5]`. |
| `TrackerQuery.EntryDependsOnlyOnChunk` | gotrnttrackerquery.go:54-58 | Two blobs that agree on record `k` have the same entry `k`. |
| `TrackerQuery.EntryRoundTrip` | gotrnttrackerquery.go:55-58 | Parsing entry `k` back gives the endpoint of record `k`, and re-encoding that endpoint gives exactly the six bytes of record `k`. |
| `TrackerQuery.DistinctChunksDistinctEntries` | gotrnttrackerquery.go:55-58 | Different records give different entry strings, whichever blobs and positions they come from. |
| `TrackerQuery.IpPortListRoundTrip` | gotrnttrackerquery.go:51-62 | Parsing every entry back and re-encoding it recovers the whole blob. |
| `TrackerQuery.IpPortListInjective` | gotrnttrackerquery.go:51-62 | Two compact blobs with the same decoded list are the same blob. |
| `TrackerQuery.SinglePeerExample` | gotrnttrackerquery.go:55-58 | The blob `192,168,0,1,0x1A,0xE1` decodes to `["192.168.0.1:6881"]`. |
| `CompactPeers.Port` | gotrnttrackerquery.go:58 | `uint16(hi)<<8` OR-ed with `uint16(lo)` has the value `hi*256 + lo`. The big-endian port is computed in 16 bits and cannot overflow. |
| `CompactPeers.DecodeChunk` | gotrnttrackerquery.go:55-58 | The port of a record is `byte4*256 + byte5`. |
| `CompactPeers.EncodeEndpoint` | gotrnttrackerquery.go:55-58 | The inverse of the record decoding: an endpoint's record has six bytes, with the port split big-endian over the last two. |
| `CompactPeers.DecodeEncode` | gotrnttrackerquery.go:55-58 | Decoding the record of an endpoint gives back that endpoint. |
| `CompactPeers.EncodeDecode` | gotrnttrackerquery.go:55-58 | Re-encoding the endpoint decoded from a record gives back the record's six bytes. |
| `CompactPeers.ParseFormat` | gotrnttrackerquery.go:55-58 | Parsing the `"%d.%d.%d.%d:%d"` text of an endpoint gives back that endpoint. |
| `CompactPeers.FormatParse` | gotrnttrackerquery.go:55-58 | Any text that parses to an endpoint is exactly that endpoint's formatted text. |
| `CompactPeers.TextRoundTrip` | gotrnttrackerquery.go:55-58 | A string parses to endpoint `e` if and only if it is `e`'s formatted text. |
| `CompactPeers.FormatEndpointInjective` | gotrnttrackerquery.go:55-58 | Different endpoints are formatted differently. |
| `CompactPeers.ParseNumberIff` | gotrnttrackerquery.go:55-58 | A field reads as `n` below the bound exactly when it is the `%d` rendering of `n`. |
| `Decimal.NatToDecimal` | gotrnttrackerquery.go:55-58 | The `%d` rendering is non-empty, all digits, and has no leading zero except for `"0"` itself. It is one digit exactly for values below 10. |
| `Decimal.DecimalRoundTrip` | gotrnttrackerquery.go:55-58 | Reading the `%d` rendering of `n` gives back `n`. |
| `Decimal.CanonicalRoundTrip` | gotrnttrackerquery.go:55-58 | Every canonical numeral is the `%d` rendering of its own value. |
| `Decimal.NatToDecimalInjective` | gotrnttrackerquery.go:55-58 | Different numbers have different `%d` renderings. |

## Left out

- `GetTrackerInfo` (gotrnttrackerquery.go:23-48) is left out. It is HTTP I/O: an HTTP GET, closing the body and checking the status code. It also makes the bencode unmarshalling call into the external `bencode-go` library, whose source is not part of this model, and that call binds fields through Go's struct tags by reflection. The model starts from an already-filled `TrackerResponse`.
- `BuildTrackerRequestUrl` (gotrnttrackerquery.go:76-92) is left out. It is a thin wrapper over Go's `net/url` package, and its parsing, percent-encoding and key ordering all live in that standard library.
- `DumpTrackerResponse` (gotrnttrackerquery.go:64-74) is left out because it only prints to the console.
- The repository contains no bencode decoder of its own, so none is modelled.
- The model returns a `Failure` value for a panic. Go's panic instead unwinds the call stack, and the partial list is lost. The Go specification does not fix the order in which the six index expressions are checked, so only "a panic" is certain. The index `len` is the model's choice: it is the first index off the end in reading order.
- For an empty blob Go returns a nil slice and the model returns `[]`. The two behave the same under `len`, `range`, `append` and printing.
- The text fields `FailureReason`, `WarningMessage` and `TrackerId` are Dafny `string`s, while Go strings are byte strings. The core never reads these fields.
- Go's `int` fields `Complete` and `Incomplete` are taken to be 64 bits wide, as on 64-bit platforms.
