/** The binary container that keeps an RA save state behind an ordinary state body. */
module StateStore {
  import opened Crc32

  type Bytes = seq<bv8>

  datatype Option<T> = None | Some(value: T)

  const FIXED_CHUNK_SIZE: nat := 108
  const FOOTER_SIZE: nat := 8
  const CHUNK_VERSION: nat := 2
  const MAX_PROGRESS_SIZE: nat := 16 * 1024 * 1024
  const MAX_FILE_SIZE: nat := 256 * 1024 * 1024
  const CHUNK_MAGIC: Bytes := [0x58, 0x4d, 0x52, 0x41]   // "XMRA"
  const FOOTER_MAGIC: Bytes := [0x58, 0x4d, 0x52, 0x46]  // "XMRF"

  const CASUAL: bv8 := 1
  const HARDCORE_DEBUG: bv8 := 2
  const OFFLINE: bv8 := 3

  /** mode is any byte: the source casts a byte to its enumeration without checking it first. */
  datatype StateRecord = StateRecord(
    mode: bv8,
    gameId: u32,
    anchorMd5: Bytes,
    activeMediaHash: Bytes,
    rcheevosVersion: u32,
    body: Bytes,
    progress: Bytes)

  predicate IsMd5(text: Bytes) {
    && |text| == 32
    && forall k :: 0 <= k < |text| ==> 0x30 <= text[k] <= 0x39 || 0x61 <= text[k] <= 0x66
  }

  function Zeros(count: nat): Bytes {
    seq(count, i => 0)
  }

  // ---- little-endian numbers ----

  lemma NextByte(b: bv8)
    requires b != 255
    ensures (b + 1) as int == b as int + 1
  {
  }

  /** The byte with this value, counted up so that the solver never converts a number to bits. */
  function ByteOf(n: nat): (b: bv8)
    requires n < 0x100
    ensures b as int == n
  {
    if n == 0 then 0
    else
      var previous := ByteOf(n - 1);
      NextByte(previous);
      previous + 1
  }

  function Octet(n: nat): (b: bv8) {
    ByteOf(n % 0x100)
  }

  /** The low `width` bytes of n, least significant first. */
  function Little(n: nat, width: nat): (bytes: Bytes)
    ensures |bytes| == width
  {
    if width == 0 then [] else [Octet(n)] + Little(n / 0x100, width - 1)
  }

  function FromLittle(bytes: Bytes): nat {
    if bytes == [] then 0 else bytes[0] as int + 0x100 * FromLittle(bytes[1..])
  }

  function Pow256(width: nat): (p: nat)
    ensures p >= 1
  {
    if width == 0 then 1 else 0x100 * Pow256(width - 1)
  }

  lemma DivideByByte(n: nat, p: nat)
    requires n < 0x100 * p
    ensures n / 0x100 < p
  {
  }

  lemma {:induction false} LittleDecodes(n: nat, width: nat)
    requires n < Pow256(width)
    ensures FromLittle(Little(n, width)) == n
  {
    if width > 0 {
      DivideByByte(n, Pow256(width - 1));
      LittleDecodes(n / 0x100, width - 1);
      assert Little(n, width)[1..] == Little(n / 0x100, width - 1);
    }
  }

  lemma LowDigit(b: nat, rest: nat)
    requires b < 0x100
    ensures (b + 0x100 * rest) % 0x100 == b && (b + 0x100 * rest) / 0x100 == rest
  {
  }

  lemma FirstOctet(b: bv8, rest: nat)
    ensures Octet(b as int + 0x100 * rest) == b
    ensures (b as int + 0x100 * rest) / 0x100 == rest
  {
    LowDigit(b as int, rest);
    OctetNumberInjective(ByteOf(b as int), b);
  }

  lemma {:induction false} LittleEncodes(bytes: Bytes)
    ensures FromLittle(bytes) < Pow256(|bytes|)
    ensures Little(FromLittle(bytes), |bytes|) == bytes
  {
    hide Octet;
    if bytes != [] {
      LittleEncodes(bytes[1..]);
      FirstOctet(bytes[0], FromLittle(bytes[1..]));
    }
  }

  /** Append32 and Append64: the loop shifts the value down one byte a turn. */
  method Append(bytes: Bytes, value: nat, width: nat) returns (longer: Bytes)
    ensures longer == bytes + Little(value, width)
  {
    longer := bytes;
    var left := value;
    for shift := 0 to width
      invariant longer + Little(left, width - shift) == bytes + Little(value, width)
    {
      ghost var was := longer;
      longer := longer + [Octet(left)];
      assert was + ([Octet(left)] + Little(left / 0x100, width - shift - 1))
          == longer + Little(left / 0x100, width - shift - 1);
      left := left / 0x100;
    }
  }

  /** Read32 and Read64: None when the field does not fit in the bytes. */
  method Read(bytes: Bytes, offset: nat, width: nat) returns (value: Option<nat>)
    ensures value == ReadAt(bytes, offset, width)
  {
    if offset > |bytes| || |bytes| - offset < width {
      return None;
    }
    var n := 0;
    var index := width;
    while index > 0
      invariant 0 <= index <= width
      invariant n == FromLittle(bytes[offset + index..offset + width])
    {
      index := index - 1;
      assert bytes[offset + index..offset + width][1..] == bytes[offset + index + 1..offset + width];
      n := n * 0x100 + bytes[offset + index] as int;
    }
    return Some(n);
  }

  function ReadAt(bytes: Bytes, offset: nat, width: nat): Option<nat> {
    if offset + width > |bytes| then None else Some(FromLittle(bytes[offset..offset + width]))
  }

  // ---- building ----

  predicate Buildable(r: StateRecord) {
    && IsMd5(r.anchorMd5)
    && |r.progress| <= MAX_PROGRESS_SIZE
    && |r.body| <= MAX_FILE_SIZE - FIXED_CHUNK_SIZE - FOOTER_SIZE - |r.progress|
    && ModePayloadValid(r)
  }

  /** Online states name a game, its media and some progress; Offline ones name none of them. */
  predicate ModePayloadValid(r: StateRecord) {
    || ((r.mode == CASUAL || r.mode == HARDCORE_DEBUG)
        && r.gameId != 0 && r.progress != [] && IsMd5(r.activeMediaHash))
    || (r.mode == OFFLINE && r.gameId == 0 && r.progress == [] && r.activeMediaHash == [])
  }

  function HashField(hash: Bytes): Bytes {
    if hash == [] then Zeros(32) else hash
  }

  /** Bytes 0 to 23 of the chunk. */
  function SizeFields(r: StateRecord): Bytes {
    CHUNK_MAGIC + Little(CHUNK_VERSION, 4) + Little(FIXED_CHUNK_SIZE + |r.progress|, 4)
    + Little(|r.body|, 8) + Little(Checksum(r.body), 4)
  }

  /** Bytes 24 to 63. */
  function IdentityFields(r: StateRecord): Bytes {
    Little(r.gameId, 4) + [r.mode] + Zeros(3) + r.anchorMd5
  }

  /** Bytes 64 to 103. */
  function MediaFields(r: StateRecord): Bytes {
    Little(r.rcheevosVersion, 4) + HashField(r.activeMediaHash) + Little(|r.progress|, 4)
  }

  /** The chunk before its own checksum. */
  function ChunkHead(r: StateRecord): Bytes {
    SizeFields(r) + IdentityFields(r) + MediaFields(r) + r.progress
  }

  function Footer(chunkSize: nat): Bytes {
    FOOTER_MAGIC + Little(chunkSize, 4)
  }

  function Layout(r: StateRecord): Bytes {
    var head := ChunkHead(r);
    r.body + head + Little(Checksum(head), 4) + Footer(FIXED_CHUNK_SIZE + |r.progress|)
  }

  method BuildRaState(r: StateRecord) returns (result: Option<Bytes>)
    ensures result == if Buildable(r) then Some(Layout(r)) else None
  {
    hide Checksum, Register, NumberOf, Little, SizeFields, IdentityFields, MediaFields, Layout;
    if !IsMd5(r.anchorMd5) || |r.progress| > MAX_PROGRESS_SIZE
      || |r.body| > MAX_FILE_SIZE - FIXED_CHUNK_SIZE - FOOTER_SIZE - |r.progress| {
      return None;
    }
    if r.mode == CASUAL || r.mode == HARDCORE_DEBUG {
      if r.gameId == 0 || r.progress == [] || !IsMd5(r.activeMediaHash) {
        return None;
      }
    } else if r.mode == OFFLINE {
      if r.gameId != 0 || r.progress != [] || r.activeMediaHash != [] {
        return None;
      }
    } else {
      return None;
    }
    var bytes := AppendSizeFields(r);
    bytes := AppendIdentityFields(bytes, r);
    bytes := AppendMediaFields(bytes, r);
    bytes := bytes + r.progress;
    bytes := SealChunk(r, bytes);
    return Some(bytes);
  }

  method AppendSizeFields(r: StateRecord) returns (bytes: Bytes)
    ensures bytes == r.body + SizeFields(r)
  {
    hide Checksum, Register, NumberOf, Little;
    var bodyCrc := ComputeCrc32(r.body);
    bytes := r.body + CHUNK_MAGIC;
    bytes := Append(bytes, CHUNK_VERSION, 4);
    bytes := Append(bytes, FIXED_CHUNK_SIZE + |r.progress|, 4);
    bytes := Append(bytes, |r.body|, 8);
    bytes := Append(bytes, bodyCrc, 4);
  }

  method AppendIdentityFields(before: Bytes, r: StateRecord) returns (bytes: Bytes)
    ensures bytes == before + IdentityFields(r)
  {
    hide Little, Zeros;
    bytes := Append(before, r.gameId, 4);
    bytes := bytes + [r.mode] + Zeros(3) + r.anchorMd5;
  }

  method AppendMediaFields(before: Bytes, r: StateRecord) returns (bytes: Bytes)
    ensures bytes == before + MediaFields(r)
  {
    hide Little, Zeros;
    bytes := Append(before, r.rcheevosVersion, 4);
    bytes := bytes + (if r.activeMediaHash == [] then Zeros(32) else r.activeMediaHash);
    bytes := Append(bytes, |r.progress|, 4);
  }

  /** The checksum of the chunk, then the footer that repeats its size. */
  method SealChunk(r: StateRecord, unsealed: Bytes) returns (bytes: Bytes)
    requires unsealed == r.body + SizeFields(r) + IdentityFields(r) + MediaFields(r) + r.progress
    ensures bytes == Layout(r)
  {
    hide Checksum, Register, NumberOf, Little, SizeFields, IdentityFields, MediaFields;
    assert unsealed == r.body + ChunkHead(r);
    assert unsealed[|r.body|..] == ChunkHead(r);
    var chunkCrc := ComputeCrc32(unsealed[|r.body|..]);
    bytes := Append(unsealed, chunkCrc, 4);
    bytes := Append(bytes + FOOTER_MAGIC, FIXED_CHUNK_SIZE + |r.progress|, 4);
  }

  // ---- parsing ----

  function Number(bytes: Bytes, offset: nat, width: nat): nat
    requires offset + width <= |bytes|
  {
    FromLittle(bytes[offset..offset + width])
  }

  /** Where the chunk starts, when the footer is there and its size fits. */
  function ChunkStart(bytes: Bytes): (start: Option<nat>)
    ensures start.Some? ==> start.value + FIXED_CHUNK_SIZE + FOOTER_SIZE <= |bytes| <= MAX_FILE_SIZE
  {
    if |bytes| > MAX_FILE_SIZE || |bytes| < FIXED_CHUNK_SIZE + FOOTER_SIZE then None
    else
      var footer := |bytes| - FOOTER_SIZE;
      if bytes[footer..footer + 4] != FOOTER_MAGIC then None
      else
        var size := Number(bytes, footer + 4, 4);
        if size < FIXED_CHUNK_SIZE || size > footer then None else Some(footer - size)
  }

  /** The checks that compare the sizes and the two checksums. */
  predicate ChunkConsistent(bytes: Bytes, start: nat)
    requires start + FIXED_CHUNK_SIZE + FOOTER_SIZE <= |bytes|
  {
    var footer := |bytes| - FOOTER_SIZE;
    var progressSize := Number(bytes, start + 100, 4);
    && bytes[start..start + 4] == CHUNK_MAGIC
    && Number(bytes, start + 4, 4) == CHUNK_VERSION
    && Number(bytes, start + 8, 4) == footer - start
    && Number(bytes, start + 12, 8) == start
    && progressSize <= MAX_PROGRESS_SIZE
    && FIXED_CHUNK_SIZE + progressSize == footer - start
    && bytes[start + 29..start + 32] == [0, 0, 0]
    && Checksum(bytes[start..footer - 4]) == Number(bytes, footer - 4, 4)
    && Checksum(bytes[..start]) == Number(bytes, start + 20, 4)
  }

  function HashOfField(field: Bytes): Bytes {
    if field == Zeros(32) then [] else field
  }

  function ChunkRecord(bytes: Bytes, start: nat): (r: StateRecord)
    requires start + FIXED_CHUNK_SIZE + FOOTER_SIZE <= |bytes|
    requires start + 104 + Number(bytes, start + 100, 4) <= |bytes|
  {
    LittleBounded(bytes[start + 24..start + 28]);
    LittleBounded(bytes[start + 64..start + 68]);
    StateRecord(
      bytes[start + 28],
      Number(bytes, start + 24, 4),
      bytes[start + 32..start + 64],
      HashOfField(bytes[start + 68..start + 100]),
      Number(bytes, start + 64, 4),
      bytes[..start],
      bytes[start + 104..start + 104 + Number(bytes, start + 100, 4)])
  }

  lemma LittleBounded(bytes: Bytes)
    requires |bytes| == 4
    ensures FromLittle(bytes) < 0x1_0000_0000
  {
    LittleEncodes(bytes);
    assert Pow256(4) == 0x1_0000_0000;
  }

  function Parsed(bytes: Bytes): Option<StateRecord> {
    match ChunkStart(bytes)
    case None => None
    case Some(start) =>
      if !ChunkConsistent(bytes, start) then None
      else
        var r := ChunkRecord(bytes, start);
        if IsMd5(r.anchorMd5) && ModePayloadValid(r) then Some(r) else None
  }

  method ParseRaState(bytes: Bytes) returns (result: Option<StateRecord>)
    ensures result == Parsed(bytes)
  {
    hide Checksum, Register, NumberOf, FromLittle, Little, Zeros;
    if |bytes| > MAX_FILE_SIZE || |bytes| < FIXED_CHUNK_SIZE + FOOTER_SIZE {
      return None;
    }
    var footer := |bytes| - FOOTER_SIZE;
    if bytes[footer..footer + 4] != FOOTER_MAGIC {
      return None;
    }
    var footerSize := Read(bytes, footer + 4, 4);
    if footerSize.None? || footerSize.value < FIXED_CHUNK_SIZE || footerSize.value > footer {
      return None;
    }
    var start := footer - footerSize.value;
    assert ChunkStart(bytes) == Some(start);
    var consistent := CheckChunk(bytes, start);
    if !consistent {
      return None;
    }
    var r := ChunkRecord(bytes, start);
    if !IsMd5(r.anchorMd5) {
      return None;
    }
    if (r.mode == CASUAL || r.mode == HARDCORE_DEBUG)
       && (r.gameId == 0 || r.progress == [] || !IsMd5(r.activeMediaHash)) {
      return None;
    }
    if r.mode == OFFLINE && (r.gameId != 0 || r.progress != [] || r.activeMediaHash != []) {
      return None;
    }
    if r.mode != CASUAL && r.mode != HARDCORE_DEBUG && r.mode != OFFLINE {
      return None;
    }
    return Some(r);
  }

  /** The magic, version, size, reserved-byte and checksum tests, in the source's order. */
  method CheckChunk(bytes: Bytes, start: nat) returns (consistent: bool)
    requires start + FIXED_CHUNK_SIZE + FOOTER_SIZE <= |bytes|
    ensures consistent == ChunkConsistent(bytes, start)
  {
    hide Checksum, Register, NumberOf, FromLittle, Little;
    var footer := |bytes| - FOOTER_SIZE;
    if bytes[start..start + 4] != CHUNK_MAGIC {
      return false;
    }
    var version := Read(bytes, start + 4, 4);
    var headerSize := Read(bytes, start + 8, 4);
    var bodySize := Read(bytes, start + 12, 8);
    var bodyCrc := Read(bytes, start + 20, 4);
    var progressSize := Read(bytes, start + 100, 4);
    if version.value != CHUNK_VERSION {
      return false;
    }
    if headerSize.value != footer - start || bodySize.value != start
      || progressSize.value > MAX_PROGRESS_SIZE
      || FIXED_CHUNK_SIZE + progressSize.value != headerSize.value {
      return false;
    }
    if bytes[start + 29] != 0 || bytes[start + 30] != 0 || bytes[start + 31] != 0 {
      return false;
    }
    var storedCrc := Read(bytes, footer - 4, 4);
    var chunkCrc := ComputeCrc32(bytes[start..footer - 4]);
    if chunkCrc != storedCrc.value {
      return false;
    }
    var actualBodyCrc := ComputeCrc32(bytes[..start]);
    return actualBodyCrc == bodyCrc.value;
  }
}
