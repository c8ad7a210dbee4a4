/**
 The bounded decoder of concatenated gzip members (RFC 1952, sections 2.2 and 2.3).

 The decoder keeps every byte that is not compressed payload: padding between members, headers and
 trailers.  zlib is a parameter: given the bytes from a member's start and an output limit it reports an
 error, or the output, whether the member ended, and how many bytes it left unused.
 */
module Gzip {
  import opened Basics

  type Byte = b: int | 0 <= b < 256

  type Bytes = seq<Byte>

  /** decompressobj(wbits=31).decompress and the attributes read after it. */
  datatype Inflated = Bad | Out(payload: Bytes, ended: bool, pending: bool, unused: nat)

  type Inflate = (Bytes, nat) -> Inflated

  /** Assumed of zlib: it leaves over at most what it was given. */
  ghost predicate Sane(inflate: Inflate) {
    forall s, limit :: inflate(s, limit).Out? ==> inflate(s, limit).unused <= |s|
  }

  datatype Bounds = Bounds(output: int, metadata: int, members: int)

  /** What the decoder has so far. */
  datatype State = State(output: Bytes, metadata: Bytes, members: nat)

  // ---------------------------------------------------------------- header, section 2.3

  predicate HasFlag(flags: Byte, bit: nat)
    requires bit in {2, 4, 8, 16}
  {
    (flags / bit) % 2 == 1
  }

  /** data.find(b"\0", from, limit) */
  function FindNul(s: Bytes, from: nat, limit: int): (r: Option<nat>)
    ensures r.Some? ==> from <= r.value < |s| && r.value < limit && s[r.value] == 0 && forall k :: from <= k < r.value ==> s[k] != 0
    ensures r.None? ==> forall k :: from <= k < limit && k < |s| ==> s[k] != 0
    decreases limit - from
  {
    if from >= limit || from >= |s| then None
    else if s[from] == 0 then Some(from)
    else FindNul(s, from + 1, limit)
  }

  function AfterText(s: Bytes, at: nat, present: bool, room: int): (r: Option<nat>)
    ensures r.Some? ==> at <= r.value
  {
    if !present then Some(at)
    else
      var end := FindNul(s, at, if |s| <= room + 1 then |s| else room + 1);
      if end.None? then None else Some(end.value + 1)
  }

  /** int.from_bytes(..., "little") of two bytes */
  function Little(low: Byte, high: Byte): nat {
    (low as int) + 256 * (high as int)
  }

  function AfterExtra(s: Bytes, at: nat, present: bool): (r: Option<nat>)
    ensures r.Some? ==> at <= r.value
  {
    if !present then Some(at)
    else if at + 2 > |s| then None
    else Some(at + 2 + Little(s[at], s[at + 1]))
  }

  /** The length of the header at the start of s; room is what the metadata bound still allows. */
  function HeaderLength(s: Bytes, room: int): (r: Option<nat>)
    ensures r.Some? ==> 10 <= r.value <= |s|
  {
    if |s| < 10 || s[..3] != [0x1f, 0x8b, 8] || s[3] >= 32 then None
    else
      var flags := s[3];
      var extra := AfterExtra(s, 10, HasFlag(flags, 4));
      if extra.None? || extra.value > |s| then None
      else
        var name := AfterText(s, extra.value, HasFlag(flags, 8), room);
        if name.None? then None
        else
          var comment := AfterText(s, name.value, HasFlag(flags, 16), room);
          if comment.None? then None
          else
            var end := comment.value + if HasFlag(flags, 2) then 2 else 0;
            if end > |s| then None else Some(end)
  }

  // ---------------------------------------------------------------- members, section 2.2

  function Zeros(s: Bytes): (n: nat)
    ensures n <= |s| && (forall k :: 0 <= k < n ==> s[k] == 0) && (n < |s| ==> s[n] != 0)
  {
    if s == [] || s[0] != 0 then 0 else 1 + Zeros(s[1..])
  }

  /** Padding, header, body and trailer of one round of the loop; the member is absent if only padding was left. */
  datatype Piece = Piece(padding: Bytes, member: Option<Member>)

  datatype Member = Member(header: Bytes, body: Bytes, trailer: Bytes, payload: Bytes)

  lemma ThreeParts(s: Bytes, i: nat, j: nat, n: nat)
    requires i <= j <= n <= |s|
    ensures s[..i] + s[i..j] + s[j..n] == s[..n] <= s
  {
    assert s[..i] + s[i..j] == s[..j];
    assert s[..j] + s[j..n] == s[..n];
  }

  function MemberAt(b: Bounds, inflate: Inflate, s: Bytes, st: State): (r: Option<Member>)
    ensures r.Some? ==> |r.value.header| >= 10 && |r.value.trailer| == 8 && r.value.header + r.value.body + r.value.trailer <= s
  {
    var h := HeaderLength(s, b.metadata - |st.metadata|);
    if st.members + 1 > b.members || h.None? || |st.metadata| + h.value > b.metadata || b.output < |st.output| then None
    else
      var z := inflate(s, (b.output - |st.output|) + 1);
      if z.Bad? || |st.output| + |z.payload| > b.output || !z.ended || z.pending || z.unused > |s| then None
      else
        var n := |s| - z.unused;
        if n < h.value + 8 || |st.metadata| + h.value + 8 > b.metadata then None
        else
          ThreeParts(s, h.value, n - 8, n);
          Some(Member(s[..h.value], s[h.value..n - 8], s[n - 8..n], z.payload))
  }

  /** One round: padding first, then a member unless the input ends. */
  function PieceAt(b: Bounds, inflate: Inflate, s: Bytes, st: State): (r: Option<Piece>)
    requires s != []
    ensures r.Some? ==> BytesOf(r.value) <= s && BytesOf(r.value) != []
  {
    var n := Zeros(s);
    if n > 0 && (st.members == 0 || |st.metadata| + n > b.metadata) then None
    else if n == |s| then Some(Piece(s, None))
    else
      var m := MemberAt(b, inflate, s[n..], st.(metadata := st.metadata + s[..n]));
      if m.None? then None
      else
        assert s == s[..n] + s[n..];
        Some(Piece(s[..n], Some(m.value)))
  }

  function BytesOf(p: Piece): Bytes {
    p.padding + if p.member.None? then [] else p.member.value.header + p.member.value.body + p.member.value.trailer
  }

  /** Everything of a piece but the compressed body. */
  function MetadataOf(p: Piece): Bytes {
    p.padding + if p.member.None? then [] else p.member.value.header + p.member.value.trailer
  }

  function PayloadOf(p: Piece): Bytes {
    if p.member.None? then [] else p.member.value.payload
  }

  function Added(st: State, p: Piece): State {
    State(st.output + PayloadOf(p), st.metadata + MetadataOf(p), st.members + if p.member.None? then 0 else 1)
  }

  /** The pieces of the whole input, or None if the decoder raises an error. */
  function Pieces(b: Bounds, inflate: Inflate, s: Bytes, st: State): Option<seq<Piece>>
    decreases |s|
  {
    if s == [] then Some([])
    else
      var p := PieceAt(b, inflate, s, st);
      if p.None? then None
      else
        var rest := Pieces(b, inflate, s[|BytesOf(p.value)|..], Added(st, p.value));
        if rest.None? then None else Some([p.value] + rest.value)
  }

  function AllBytes(ps: seq<Piece>): Bytes {
    if ps == [] then [] else BytesOf(ps[0]) + AllBytes(ps[1..])
  }

  function AllMetadata(ps: seq<Piece>): Bytes {
    if ps == [] then [] else MetadataOf(ps[0]) + AllMetadata(ps[1..])
  }

  function AllPayload(ps: seq<Piece>): Bytes {
    if ps == [] then [] else PayloadOf(ps[0]) + AllPayload(ps[1..])
  }

  function CountMembers(ps: seq<Piece>): nat {
    if ps == [] then 0 else (if ps[0].member.None? then 0 else 1) + CountMembers(ps[1..])
  }

  const Start := State([], [], 0)

  predicate ValidBounds(b: Bounds) {
    b.output >= 1 && b.metadata >= 1 && b.members >= 1
  }

  /** decode_gzip_members: payload and metadata, or an error. */
  function Decoded(b: Bounds, inflate: Inflate, data: Bytes): Option<(Bytes, Bytes)> {
    if !ValidBounds(b) then None
    else
      var ps := Pieces(b, inflate, data, Start);
      if ps.None? || CountMembers(ps.value) == 0 then None else Some((AllPayload(ps.value), AllMetadata(ps.value)))
  }

  // ---------------------------------------------------------------- the loops

  method FindNulFrom(data: Bytes, from: nat, limit: int) returns (end: int)
    ensures end >= 0 <==> FindNul(data, from, limit).Some?
    ensures end >= 0 ==> FindNul(data, from, limit) == Some(end)
  {
    end := from;
    while end < limit && end < |data|
      invariant from <= end
      invariant FindNul(data, from, limit) == FindNul(data, end, limit)
      decreases limit - end
    {
      if data[end] == 0 { return; }
      end := end + 1;
    }
    end := -1;
  }

  /** The header part of the loop body, relative to the member's offset. */
  method ParseHeader(s: Bytes, room: int) returns (r: Option<nat>)
    ensures r == HeaderLength(s, room)
  {
    hide HasFlag, FindNul;
    if |s| < 3 || s[..3] != [0x1f, 0x8b, 8] || 10 > |s| { return None; }
    var flags, headerEnd := s[3], 10;
    if flags >= 32 { return None; }
    if HasFlag(flags, 4) {
      if headerEnd + 2 > |s| { return None; }
      var size := Little(s[headerEnd], s[headerEnd + 1]);
      headerEnd := headerEnd + 2 + size;
    }
    if headerEnd > |s| { return None; }
    var bits := [8, 16];
    var k := 0;
    ghost var start := headerEnd;
    while k < 2
      invariant 0 <= k <= 2 && bits == [8, 16] && headerEnd >= 10
      invariant k == 0 ==> headerEnd == start
      invariant k == 1 ==> AfterText(s, start, HasFlag(flags, 8), room) == Some(headerEnd)
      invariant k == 2 ==> AfterText(s, start, HasFlag(flags, 8), room).Some?
                           && AfterText(s, AfterText(s, start, HasFlag(flags, 8), room).value, HasFlag(flags, 16), room) == Some(headerEnd)
    {
      if HasFlag(flags, bits[k]) {
        var end := FindNulFrom(s, headerEnd, if |s| <= room + 1 then |s| else room + 1);
        if end < 0 { return None; }
        headerEnd := end + 1;
      }
      k := k + 1;
    }
    if HasFlag(flags, 2) { headerEnd := headerEnd + 2; }
    if headerEnd > |s| { return None; }
    return Some(headerEnd);
  }

  /** The member part of the loop body: every check in the order of the code. */
  method NextMember(b: Bounds, inflate: Inflate, m: Bytes, st: State) returns (r: Option<Member>)
    requires Sane(inflate) && |st.output| <= b.output
    ensures r == MemberAt(b, inflate, m, st)
    ensures r.Some? ==> r.value.header + r.value.body + r.value.trailer <= m && |r.value.trailer| == 8 && m[..3] == [0x1f, 0x8b, 8]
    ensures r.Some? ==> st.members + 1 <= b.members && |st.output| + |r.value.payload| <= b.output
                        && |st.metadata| + |r.value.header| + |r.value.trailer| <= b.metadata
  {
    hide HeaderLength, Sane;
    var metadataSize := |st.metadata|;
    if st.members + 1 > b.members { return None; }
    var header := ParseHeader(m, b.metadata - metadataSize);
    if header.None? { return None; }
    HeaderStarts(m, b.metadata - metadataSize);
    metadataSize := metadataSize + header.value;
    if metadataSize > b.metadata { return None; }
    var z := inflate(m, (b.output - |st.output|) + 1);
    SaneHere(inflate, m, (b.output - |st.output|) + 1);
    if z.Bad? { return None; }
    if |st.output| + |z.payload| > b.output { return None; }
    if !z.ended || z.pending { return None; }
    var memberEnd := |m| - z.unused;
    if memberEnd < header.value + 8 { return None; }
    if metadataSize + 8 > b.metadata { return None; }
    return Some(Member(m[..header.value], m[header.value..memberEnd - 8], m[memberEnd - 8..memberEnd], z.payload));
  }

  lemma HeaderStarts(s: Bytes, room: int)
    requires HeaderLength(s, room).Some?
    ensures |s| >= 10 && s[..3] == [0x1f, 0x8b, 8]
  {
  }

  lemma SaneHere(inflate: Inflate, s: Bytes, limit: nat)
    requires Sane(inflate)
    ensures inflate(s, limit).Out? ==> inflate(s, limit).unused <= |s|
  {
  }

  /** One round of the loop: skip padding, then a member unless the input ends. */
  method NextPiece(b: Bounds, inflate: Inflate, s: Bytes, st: State) returns (r: Option<Piece>)
    requires Sane(inflate) && s != [] && |st.output| <= b.output
    ensures r == PieceAt(b, inflate, s, st)
  {
    hide MemberAt;
    var paddingEnd := 0;
    while paddingEnd < |s| && s[paddingEnd] == 0
      invariant 0 <= paddingEnd <= |s| && forall k :: 0 <= k < paddingEnd ==> s[k] == 0
    {
      paddingEnd := paddingEnd + 1;
    }
    assert Zeros(s) == paddingEnd;
    if paddingEnd != 0 {
      if st.members == 0 { return None; }
      if |st.metadata| + paddingEnd > b.metadata { return None; }
    }
    if paddingEnd == |s| { return Some(Piece(s, None)); }
    var m := NextMember(b, inflate, s[paddingEnd..], st.(metadata := st.metadata + s[..paddingEnd]));
    if m.None? { return None; }
    return Some(Piece(s[..paddingEnd], Some(m.value)));
  }

  /** The decoder as written; the loop ends because every round consumes bytes. */
  method DecodeMembers(b: Bounds, inflate: Inflate, data: Bytes) returns (r: Option<(Bytes, Bytes)>)
    requires Sane(inflate)
    ensures r == Decoded(b, inflate, data)
  {
    if !ValidBounds(b) { return None; }
    hide Pieces, PieceAt, BytesOf, Added, Follow, Sane, CountMembers, AllPayload, AllMetadata;
    var st, offset := Start, 0;
    ghost var done: seq<Piece> := [];
    assert data[0..] == data;
    FollowIs([], [], Pieces(b, inflate, data, Start));
    assert Summary([]) == Start by { EmptySummary(); }
    while offset < |data|
      invariant 0 <= offset <= |data| && |st.output| <= b.output && |st.metadata| <= b.metadata
      invariant Pieces(b, inflate, data, Start) == Follow(done, Pieces(b, inflate, data[offset..], st))
      invariant st == Summary(done)
      decreases |data| - offset
    {
      PiecesStep(b, inflate, data[offset..], st);
      var piece := NextPiece(b, inflate, data[offset..], st);
      if piece.None? {
        FollowAll(done);
        return None;
      }
      var p := piece.value;
      assert data[offset..][|BytesOf(p)|..] == data[offset + |BytesOf(p)|..];
      FollowIs(done, [p], Pieces(b, inflate, data[offset + |BytesOf(p)|..], Added(st, p)));
      OutputInBounds(b, inflate, data[offset..], st);
      SummaryGrows(done, p);
      offset := offset + |BytesOf(p)|;
      st := Added(st, p);
      done := done + [p];
    }
    assert data[offset..] == [];
    NoPieces(b, inflate, st);
    FollowAll(done);
    if st.members == 0 { return None; }
    return Some((st.output, st.metadata));
  }

  function Follow(done: seq<Piece>, r: Option<seq<Piece>>): Option<seq<Piece>> {
    if r.None? then None else Some(done + r.value)
  }

  function Summary(done: seq<Piece>): State {
    State(AllPayload(done), AllMetadata(done), CountMembers(done))
  }

  lemma FollowAll(done: seq<Piece>)
    ensures Follow(done, Some([])) == Some(done) && Follow(done, None) == None
  {
    assert done + [] == done;
  }

  lemma EmptySummary()
    ensures Summary([]) == Start
  {
  }

  lemma SummaryGrows(done: seq<Piece>, p: Piece)
    ensures Summary(done + [p]) == Added(Summary(done), p)
  {
    hide PayloadOf, MetadataOf, BytesOf;
    AddPiece(done, p);
  }

  lemma FollowIs(a: seq<Piece>, b: seq<Piece>, r: Option<seq<Piece>>)
    ensures Follow(a, Follow(b, r)) == Follow(a + b, r) && Follow([], r) == r
  {
    if r.Some? { assert a + (b + r.value) == a + b + r.value && [] + r.value == r.value; }
  }

  lemma NoPieces(b: Bounds, inflate: Inflate, st: State)
    ensures Pieces(b, inflate, [], st) == Some([])
  {
  }

  lemma PiecesStep(b: Bounds, inflate: Inflate, s: Bytes, st: State)
    requires s != []
    ensures var p := PieceAt(b, inflate, s, st);
            && (p.None? ==> Pieces(b, inflate, s, st) == None)
            && (p.Some? ==> 0 < |BytesOf(p.value)| <= |s|
                            && Pieces(b, inflate, s, st) == Follow([p.value], Pieces(b, inflate, s[|BytesOf(p.value)|..], Added(st, p.value))))
  {
    hide PieceAt, BytesOf, Added;
  }

  lemma OutputInBounds(b: Bounds, inflate: Inflate, s: Bytes, st: State)
    requires s != [] && PieceAt(b, inflate, s, st).Some? && |st.output| <= b.output && |st.metadata| <= b.metadata
    ensures var st' := Added(st, PieceAt(b, inflate, s, st).value);
            |st'.output| <= b.output && |st'.metadata| <= b.metadata && (st.members <= b.members ==> st'.members <= b.members)
  {
    hide HeaderLength;
  }

  lemma {:induction false} AddPiece(done: seq<Piece>, p: Piece)
    ensures AllPayload(done + [p]) == AllPayload(done) + PayloadOf(p)
    ensures AllMetadata(done + [p]) == AllMetadata(done) + MetadataOf(p)
    ensures AllBytes(done + [p]) == AllBytes(done) + BytesOf(p)
    ensures CountMembers(done + [p]) == CountMembers(done) + if p.member.None? then 0 else 1
    decreases |done|
  {
    hide PayloadOf, MetadataOf, BytesOf;
    if done == [] {
      assert done + [p] == [p] && [p][1..] == [];
      assert AllPayload([p]) == PayloadOf(p) + [] && AllMetadata([p]) == MetadataOf(p) + [] && AllBytes([p]) == BytesOf(p) + [];
    } else {
      var d, rest := done[0], done[1..];
      assert (done + [p])[1..] == rest + [p] && (done + [p])[0] == d;
      AddPiece(rest, p);
      Associate(PayloadOf(d), AllPayload(rest), PayloadOf(p));
      Associate(MetadataOf(d), AllMetadata(rest), MetadataOf(p));
      Associate(BytesOf(d), AllBytes(rest), BytesOf(p));
    }
  }

  lemma Associate(x: Bytes, y: Bytes, z: Bytes)
    ensures x + (y + z) == (x + y) + z
  {
  }

  // ---------------------------------------------------------------- decoding conserves bytes

  function AllBodies(ps: seq<Piece>): nat {
    if ps == [] then 0 else (if ps[0].member.None? then 0 else |ps[0].member.value.body|) + AllBodies(ps[1..])
  }

  predicate Within(b: Bounds, st: State) {
    |st.output| <= b.output && |st.metadata| <= b.metadata && st.members <= b.members
  }

  lemma {:induction false} PiecesTile(b: Bounds, inflate: Inflate, s: Bytes, st: State)
    requires Within(b, st) && Pieces(b, inflate, s, st).Some?
    ensures var ps := Pieces(b, inflate, s, st).value;
            && AllBytes(ps) == s
            && |s| == |AllMetadata(ps)| + AllBodies(ps)
            && |st.output| + |AllPayload(ps)| <= b.output && |st.metadata| + |AllMetadata(ps)| <= b.metadata
            && st.members + CountMembers(ps) <= b.members
    decreases |s|
  {
    if s != [] {
      hide Pieces, PieceAt, BytesOf, MetadataOf, PayloadOf, AllBytes, AllMetadata, AllPayload, AllBodies, CountMembers;
      PiecesStep(b, inflate, s, st);
      OutputInBounds(b, inflate, s, st);
      var p := PieceAt(b, inflate, s, st).value;
      var n := |BytesOf(p)|;
      assert BytesOf(p) <= s && s == s[..n] + s[n..];
      PiecesTile(b, inflate, s[n..], Added(st, p));
      FirstPiece(p, Pieces(b, inflate, s[n..], Added(st, p)).value);
    } else {
      hide PieceAt;
    }
  }

  lemma FirstPiece(p: Piece, rest: seq<Piece>)
    ensures var ps := [p] + rest;
            && AllBytes(ps) == BytesOf(p) + AllBytes(rest) && AllMetadata(ps) == MetadataOf(p) + AllMetadata(rest)
            && AllPayload(ps) == PayloadOf(p) + AllPayload(rest)
            && CountMembers(ps) == (if p.member.None? then 0 else 1) + CountMembers(rest)
            && AllBodies(ps) == |BytesOf(p)| - |MetadataOf(p)| + AllBodies(rest)
  {
    assert ([p] + rest)[0] == p && ([p] + rest)[1..] == rest;
  }

  /**
   Decoding conserves bytes: on success padding, headers, bodies and trailers tile the input, the metadata is all of it except the
   bodies, the output is the members' payloads in order, all three bounds hold and there is at least one member.
   */
  lemma DecodingConservesBytes(b: Bounds, inflate: Inflate, data: Bytes)
    requires Decoded(b, inflate, data).Some?
    ensures var r := Decoded(b, inflate, data).value;
            exists ps ::
              && AllBytes(ps) == data && AllPayload(ps) == r.0 && AllMetadata(ps) == r.1
              && |data| == |r.1| + AllBodies(ps)
              && |r.0| <= b.output && |r.1| <= b.metadata && 1 <= CountMembers(ps) <= b.members
  {
    PiecesTile(b, inflate, data, Start);
    hide Pieces, AllBytes, AllPayload, AllMetadata, AllBodies, CountMembers;
    var ps := Pieces(b, inflate, data, Start).value;
    assert AllBytes(ps) == data;
  }

  // ---------------------------------------------------------------- decoding inverts encoding

  /** A header by its fields; rest is modification time, extra flags and operating system. */
  datatype Head = Head(text: bool, rest: Bytes, extra: Option<Bytes>, name: Option<Bytes>, comment: Option<Bytes>, checksum: Option<Bytes>)

  predicate WellFormed(h: Head) {
    && |h.rest| == 6
    && (h.extra.Some? ==> |h.extra.value| < 65536)
    && (h.name.Some? ==> 0 !in h.name.value) && (h.comment.Some? ==> 0 !in h.comment.value)
    && (h.checksum.Some? ==> |h.checksum.value| == 2)
  }

  function Bit(present: bool, value: nat): nat {
    if present then value else 0
  }

  function FlagsOf(h: Head): Byte {
    Bit(h.text, 1) + Bit(h.checksum.Some?, 2) + Bit(h.extra.Some?, 4) + Bit(h.name.Some?, 8) + Bit(h.comment.Some?, 16)
  }

  lemma FlagsAre(h: Head)
    ensures FlagsOf(h) < 32
    ensures HasFlag(FlagsOf(h), 2) == h.checksum.Some? && HasFlag(FlagsOf(h), 4) == h.extra.Some?
    ensures HasFlag(FlagsOf(h), 8) == h.name.Some? && HasFlag(FlagsOf(h), 16) == h.comment.Some?
  {
  }

  function ExtraBytes(extra: Option<Bytes>): Bytes
    requires extra.Some? ==> |extra.value| < 65536
  {
    if extra.None? then [] else [|extra.value| % 256, |extra.value| / 256] + extra.value
  }

  function TextBytes(text: Option<Bytes>): Bytes {
    if text.None? then [] else text.value + [0]
  }

  function ChecksumBytes(checksum: Option<Bytes>): Bytes {
    if checksum.None? then [] else checksum.value
  }

  function FixedBytes(h: Head): Bytes
  {
    [0x1f, 0x8b, 8, FlagsOf(h)] + h.rest
  }

  function HeadBytes(h: Head): Bytes
    requires WellFormed(h)
  {
    FixedBytes(h) + ExtraBytes(h.extra) + TextBytes(h.name) + TextBytes(h.comment) + ChecksumBytes(h.checksum)
  }

  lemma ExtraParses(before: Bytes, extra: Option<Bytes>, after: Bytes)
    requires extra.Some? ==> |extra.value| < 65536
    ensures AfterExtra(before + ExtraBytes(extra) + after, |before|, extra.Some?) == Some(|before| + |ExtraBytes(extra)|)
  {
    if extra.Some? {
      var s, n := before + ExtraBytes(extra) + after, |extra.value|;
      assert s[|before|] == n % 256 && s[|before| + 1] == n / 256;
      assert Little(s[|before|], s[|before| + 1]) == n;
    }
  }

  lemma TextParses(before: Bytes, text: Option<Bytes>, after: Bytes, room: int)
    requires text.Some? ==> 0 !in text.value
    requires |before| + |TextBytes(text)| <= room
    ensures AfterText(before + TextBytes(text) + after, |before|, text.Some?, room) == Some(|before| + |TextBytes(text)|)
  {
    if text.Some? {
      var s, at := before + TextBytes(text) + after, |before|;
      var limit := if |s| <= room + 1 then |s| else room + 1;
      var end := at + |text.value|;
      assert s[end] == 0;
      assert forall k :: at <= k < end ==> s[k] == text.value[k - at];
      var found := FindNul(s, at, limit);
      assert found == Some(end);
    }
  }

  /** Parsing a well-formed header that fits the bound finds exactly its end. */
  lemma HeadParses(h: Head, after: Bytes, room: int)
    requires WellFormed(h) && |HeadBytes(h)| <= room
    ensures HeaderLength(HeadBytes(h) + after, room) == Some(|HeadBytes(h)|)
  {
    hide HasFlag, FlagsOf, AfterExtra, AfterText, ExtraBytes, TextBytes, ChecksumBytes, FixedBytes;
    var s := HeadBytes(h) + after;
    var e, n, c, k := ExtraBytes(h.extra), TextBytes(h.name), TextBytes(h.comment), ChecksumBytes(h.checksum);
    var fixed := FixedBytes(h);
    FlagsAre(h);
    FixedIs(h);
    ChecksumIs(h.checksum);
    Regroup(fixed, e, n, c, k, after);
    ExtraParses(fixed, h.extra, n + c + k + after);
    TextParses(fixed + e, h.name, c + k + after, room);
    TextParses(fixed + e + n, h.comment, k + after, room);
    assert s[..10] == fixed && s[..3] == fixed[..3] && s[3] == fixed[3];
  }

  lemma FixedIs(h: Head)
    requires |h.rest| == 6
    ensures var f := FixedBytes(h); |f| == 10 && f[..3] == [0x1f, 0x8b, 8] && f[3] == FlagsOf(h)
  {
    hide FlagsOf;
  }

  lemma ChecksumIs(checksum: Option<Bytes>)
    requires checksum.Some? ==> |checksum.value| == 2
    ensures |ChecksumBytes(checksum)| == if checksum.Some? then 2 else 0
  {
  }

  lemma Regroup(f: Bytes, e: Bytes, n: Bytes, c: Bytes, k: Bytes, after: Bytes)
    ensures f + e + n + c + k + after == f + e + (n + c + k + after)
    ensures f + e + n + c + k + after == (f + e) + n + (c + k + after)
    ensures f + e + n + c + k + after == (f + e + n) + c + (k + after)
  {
  }

  /** A member of the archive: padding before it, header, compressed body, trailer, and the payload they stand for. */
  datatype Item = Item(padding: nat, head: Head, body: Bytes, trailer: Bytes, payload: Bytes)

  function MemberBytes(i: Item): Bytes
    requires WellFormed(i.head)
  {
    HeadBytes(i.head) + i.body + i.trailer
  }

  /** zlib decodes the member to its payload whatever follows, once the limit exceeds the payload. */
  ghost predicate Inflates(inflate: Inflate, i: Item)
    requires WellFormed(i.head)
  {
    forall after: Bytes, limit: nat :: limit > |i.payload| ==> inflate(MemberBytes(i) + after, limit) == Out(i.payload, true, false, |after|)
  }

  ghost predicate ItemOk(inflate: Inflate, i: Item) {
    WellFormed(i.head) && |i.trailer| == 8 && Inflates(inflate, i)
  }

  function ZeroBytes(n: nat): Bytes {
    seq(n, _ => 0)
  }

  predicate Encodable(items: seq<Item>) {
    forall i :: i in items ==> WellFormed(i.head)
  }

  function Encode(items: seq<Item>, finalPadding: nat): Bytes
    requires Encodable(items)
  {
    if items == [] then ZeroBytes(finalPadding)
    else ZeroBytes(items[0].padding) + MemberBytes(items[0]) + Encode(items[1..], finalPadding)
  }

  function PayloadsOf(items: seq<Item>): Bytes {
    if items == [] then [] else items[0].payload + PayloadsOf(items[1..])
  }

  /** What is kept of the encoding: everything but the bodies. */
  function MetadataBytes(items: seq<Item>, finalPadding: nat): Bytes
    requires Encodable(items)
  {
    if items == [] then ZeroBytes(finalPadding)
    else ZeroBytes(items[0].padding) + (HeadBytes(items[0].head) + items[0].trailer) + MetadataBytes(items[1..], finalPadding)
  }

  lemma ZerosOf(n: nat, rest: Bytes)
    requires rest == [] || rest[0] != 0
    ensures Zeros(ZeroBytes(n) + rest) == n
  {
    var s := ZeroBytes(n) + rest;
    assert forall k :: 0 <= k < n ==> s[k] == 0;
    assert rest != [] ==> s[n] == rest[0];
  }

  /** One well-formed member that fits the bounds is decoded exactly. */
  lemma MemberDecodes(b: Bounds, inflate: Inflate, i: Item, after: Bytes, st: State)
    requires ItemOk(inflate, i)
    requires st.members + 1 <= b.members && |st.output| + |i.payload| <= b.output
    requires |st.metadata| + |HeadBytes(i.head)| + 8 <= b.metadata
    ensures MemberAt(b, inflate, MemberBytes(i) + after, st) == Some(Member(HeadBytes(i.head), i.body, i.trailer, i.payload))
  {
    hide HeadBytes, HeaderLength, WellFormed, Inflates;
    var s, h := MemberBytes(i) + after, HeadBytes(i.head);
    assert s == h + (i.body + i.trailer + after);
    HeadParses(i.head, i.body + i.trailer + after, b.metadata - |st.metadata|);
    InflatesHere(inflate, i, after, (b.output - |st.output|) + 1);
    var n := |s| - |after|;
    assert s[..|h|] == h && s[|h|..n - 8] == i.body && s[n - 8..n] == i.trailer;
  }

  lemma InflatesHere(inflate: Inflate, i: Item, after: Bytes, limit: nat)
    requires WellFormed(i.head) && Inflates(inflate, i) && limit > |i.payload|
    ensures inflate(MemberBytes(i) + after, limit) == Out(i.payload, true, false, |after|)
  {
    hide MemberBytes;
  }

  function PieceOf(i: Item): Piece
    requires WellFormed(i.head)
  {
    Piece(ZeroBytes(i.padding), Some(Member(HeadBytes(i.head), i.body, i.trailer, i.payload)))
  }

  lemma ItemDecodes(b: Bounds, inflate: Inflate, i: Item, after: Bytes, st: State)
    requires ItemOk(inflate, i) && (st.members == 0 ==> i.padding == 0)
    requires st.members + 1 <= b.members && |st.output| + |i.payload| <= b.output
    requires |st.metadata| + i.padding + |HeadBytes(i.head)| + 8 <= b.metadata
    ensures var s := ZeroBytes(i.padding) + MemberBytes(i) + after;
            s != [] && PieceAt(b, inflate, s, st) == Some(PieceOf(i)) && s[|BytesOf(PieceOf(i))|..] == after
  {
    var rest := MemberBytes(i) + after;
    var s := ZeroBytes(i.padding) + MemberBytes(i) + after;
    assert s == ZeroBytes(i.padding) + rest;
    assert rest[0] == 0x1f by { HeadStarts(i.head); }
    ZerosOf(i.padding, rest);
    MemberDecodes(b, inflate, i, after, st.(metadata := st.metadata + ZeroBytes(i.padding)));
    assert s[..i.padding] == ZeroBytes(i.padding) && s[i.padding..] == rest;
    hide MemberAt, Zeros, Inflates, HeadBytes;
    assert BytesOf(PieceOf(i)) == ZeroBytes(i.padding) + MemberBytes(i);
  }

  lemma HeadStarts(h: Head)
    requires WellFormed(h)
    ensures |HeadBytes(h)| >= 10 && HeadBytes(h)[0] == 0x1f
  {
  }

  lemma {:induction false} ItemsDecode(b: Bounds, inflate: Inflate, items: seq<Item>, finalPadding: nat, st: State)
    requires Encodable(items) && (forall i :: i in items ==> ItemOk(inflate, i))
    requires st.members == 0 ==> if items == [] then finalPadding == 0 else items[0].padding == 0
    requires st.members + |items| <= b.members && |st.output| + |PayloadsOf(items)| <= b.output
    requires |st.metadata| + |MetadataBytes(items, finalPadding)| <= b.metadata
    ensures var ps := Pieces(b, inflate, Encode(items, finalPadding), st);
            ps.Some? && AllPayload(ps.value) == PayloadsOf(items) && CountMembers(ps.value) == |items| && AllMetadata(ps.value) == MetadataBytes(items, finalPadding)
    decreases |items|
  {
    hide Pieces, PieceAt, ItemOk, HeadBytes;
    var s := Encode(items, finalPadding);
    if items == [] {
      OnlyPadding(b, inflate, finalPadding, st);
    } else {
      var i, more := items[0], items[1..];
      var rest := Encode(more, finalPadding);
      assert items == [i] + more;
      ItemParts(inflate, i);
      PieceSizes(i);
      ItemDecodes(b, inflate, i, rest, st);
      PiecesStep(b, inflate, s, st);
      ItemsDecode(b, inflate, more, finalPadding, Added(st, PieceOf(i)));
      FirstPiece(PieceOf(i), Pieces(b, inflate, rest, Added(st, PieceOf(i))).value);
    }
  }

  lemma ItemParts(inflate: Inflate, i: Item)
    requires ItemOk(inflate, i)
    ensures WellFormed(i.head) && |i.trailer| == 8
  {
  }

  lemma PieceSizes(i: Item)
    requires WellFormed(i.head) && |i.trailer| == 8
    ensures MetadataOf(PieceOf(i)) == ZeroBytes(i.padding) + (HeadBytes(i.head) + i.trailer) && PayloadOf(PieceOf(i)) == i.payload
  {
    hide HeadBytes;
  }

  lemma OnlyPadding(b: Bounds, inflate: Inflate, n: nat, st: State)
    requires (st.members == 0 ==> n == 0) && |st.metadata| + n <= b.metadata
    ensures var ps := Pieces(b, inflate, ZeroBytes(n), st);
            ps.Some? && AllPayload(ps.value) == [] && CountMembers(ps.value) == 0 && AllMetadata(ps.value) == ZeroBytes(n)
  {
    var s := ZeroBytes(n);
    if n > 0 {
      ZerosOf(n, []);
      assert s + [] == s;
      PiecesStep(b, inflate, s, st);
      var p := Piece(s, None);
      assert PieceAt(b, inflate, s, st) == Some(p);
      assert BytesOf(p) == s && s[|s|..] == [];
      FirstPiece(p, []);
    }
  }

  /**
   Decoding inverts encoding: any non-empty sequence of well-formed members, with any padding after each, that fits the three bounds
   decodes to the concatenation of its payloads, and keeps the rest.
   */
  lemma DecodingInvertsEncoding(b: Bounds, inflate: Inflate, items: seq<Item>, finalPadding: nat)
    requires ValidBounds(b) && items != [] && Encodable(items) && (forall i :: i in items ==> ItemOk(inflate, i)) && items[0].padding == 0
    requires |items| <= b.members && |PayloadsOf(items)| <= b.output && |MetadataBytes(items, finalPadding)| <= b.metadata
    ensures var r := Decoded(b, inflate, Encode(items, finalPadding)); r == Some((PayloadsOf(items), MetadataBytes(items, finalPadding)))
  {
    ItemsDecode(b, inflate, items, finalPadding, Start);
  }
}
