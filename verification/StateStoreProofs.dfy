/** Round trips of the RA state container, and what a changed byte does to it. */
module StateStoreProofs {
  import opened Crc32
  import opened StateStore

  // ---- slices ----

  lemma SubSlice(bytes: Bytes, part: Bytes, at: nat, lo: nat, hi: nat)
    requires at + |part| <= |bytes| && bytes[at..at + |part|] == part
    requires lo <= hi <= |part|
    ensures bytes[at + lo..at + hi] == part[lo..hi]
  {
    forall k | 0 <= k < hi - lo
      ensures bytes[at + lo..at + hi][k] == part[lo..hi][k]
    {
      assert bytes[at..at + |part|][lo + k] == part[lo + k];
    }
  }

  lemma Cut(bytes: Bytes, lo: nat, mid: nat, hi: nat)
    requires lo <= mid <= hi <= |bytes|
    ensures bytes[lo..hi] == bytes[lo..mid] + bytes[mid..hi]
  {
  }

  lemma FieldSizes(r: StateRecord)
    requires Buildable(r)
    ensures |SizeFields(r)| == 24 && |IdentityFields(r)| == 40 && |MediaFields(r)| == 40
    ensures |ChunkHead(r)| == 104 + |r.progress|
    ensures |Layout(r)| == |r.body| + 116 + |r.progress|
  {
  }

  lemma SizeFieldSlices(r: StateRecord)
    ensures |SizeFields(r)| == 24
    ensures SizeFields(r)[0..4] == CHUNK_MAGIC
    ensures SizeFields(r)[4..8] == Little(CHUNK_VERSION, 4)
    ensures SizeFields(r)[8..12] == Little(FIXED_CHUNK_SIZE + |r.progress|, 4)
    ensures SizeFields(r)[12..20] == Little(|r.body|, 8)
    ensures SizeFields(r)[20..24] == Little(Checksum(r.body), 4)
  {
    hide Little, Checksum;
  }

  lemma IdentityFieldSlices(r: StateRecord)
    requires |r.anchorMd5| == 32
    ensures |IdentityFields(r)| == 40
    ensures IdentityFields(r)[0..4] == Little(r.gameId, 4)
    ensures IdentityFields(r)[4] == r.mode
    ensures IdentityFields(r)[5..8] == [0, 0, 0]
    ensures IdentityFields(r)[8..40] == r.anchorMd5
  {
    hide Little;
  }

  lemma MediaFieldSlices(r: StateRecord)
    requires |r.activeMediaHash| == 0 || |r.activeMediaHash| == 32
    ensures |MediaFields(r)| == 40
    ensures MediaFields(r)[0..4] == Little(r.rcheevosVersion, 4)
    ensures MediaFields(r)[4..36] == HashField(r.activeMediaHash)
    ensures MediaFields(r)[36..40] == Little(|r.progress|, 4)
  {
    hide Little;
  }

  /** Where the three field groups, the progress and the footer sit in a built file. */
  lemma LayoutSections(r: StateRecord)
    requires Buildable(r)
    ensures var b, c := Layout(r), |r.body|;
      && |b| == c + 116 + |r.progress|
      && b[..c] == r.body
      && b[c..c + 24] == SizeFields(r)
      && b[c + 24..c + 64] == IdentityFields(r)
      && b[c + 64..c + 104] == MediaFields(r)
      && b[c + 104..c + 104 + |r.progress|] == r.progress
      && b[c..c + 104 + |r.progress|] == ChunkHead(r)
      && b[|b| - 12..|b| - 8] == Little(Checksum(ChunkHead(r)), 4)
      && b[|b| - 8..|b| - 4] == FOOTER_MAGIC
      && b[|b| - 4..] == Little(FIXED_CHUNK_SIZE + |r.progress|, 4)
  {
    hide Little, Checksum, SizeFields, IdentityFields, MediaFields, IsMd5;
    FieldSizes(r);
    SectionSlices(r.body, SizeFields(r), IdentityFields(r), MediaFields(r), r.progress,
      Little(Checksum(ChunkHead(r)), 4), Little(FIXED_CHUNK_SIZE + |r.progress|, 4));
  }

  lemma SectionSlices(body: Bytes, s: Bytes, i: Bytes, m: Bytes, p: Bytes, crc: Bytes, size: Bytes)
    requires |s| == 24 && |i| == 40 && |m| == 40 && |crc| == 4 && |size| == 4
    ensures var b, c := body + (s + i + m + p) + crc + (FOOTER_MAGIC + size), |body|;
      && |b| == c + 116 + |p|
      && b[..c] == body
      && b[c..c + 24] == s
      && b[c + 24..c + 64] == i
      && b[c + 64..c + 104] == m
      && b[c + 104..c + 104 + |p|] == p
      && b[c..c + 104 + |p|] == s + i + m + p
      && b[|b| - 12..|b| - 8] == crc
      && b[|b| - 8..|b| - 4] == FOOTER_MAGIC
      && b[|b| - 4..] == size
  {
  }

  lemma FitsFour(n: nat)
    requires n < 0x1_0000_0000
    ensures FromLittle(Little(n, 4)) == n
  {
    assert Pow256(4) == 0x1_0000_0000;
    LittleDecodes(n, 4);
  }

  lemma FitsEight(n: nat)
    requires n < 0x1_0000_0000
    ensures FromLittle(Little(n, 8)) == n
  {
    assert Pow256(8) == 0x1_0000_0000 * Pow256(4);
    LittleDecodes(n, 8);
  }

  // ---- building then parsing ----

  lemma BuiltChunkStart(r: StateRecord)
    requires Buildable(r)
    ensures ChunkStart(Layout(r)) == Some(|r.body|)
  {
    hide Layout, Little, FromLittle, SizeFields, IdentityFields, MediaFields, Checksum;
    LayoutSections(r);
    FitsFour(FIXED_CHUNK_SIZE + |r.progress|);
    assert Layout(r)[|Layout(r)| - 4..] == Layout(r)[|Layout(r)| - 4..|Layout(r)|];
  }

  lemma BuiltSizes(r: StateRecord)
    requires Buildable(r)
    ensures var b, c := Layout(r), |r.body|;
      && |b| == c + 116 + |r.progress|
      && b[c..c + 4] == CHUNK_MAGIC
      && Number(b, c + 4, 4) == CHUNK_VERSION
      && Number(b, c + 8, 4) == FIXED_CHUNK_SIZE + |r.progress|
      && Number(b, c + 12, 8) == c
      && Number(b, c + 20, 4) == Checksum(r.body)
  {
    hide Layout, Little, FromLittle, SizeFields, IdentityFields, MediaFields, Checksum;
    var b, c := Layout(r), |r.body|;
    LayoutSections(r);
    SizeFieldSlices(r);
    SubSlice(b, SizeFields(r), c, 0, 4);
    SubSlice(b, SizeFields(r), c, 4, 8);
    SubSlice(b, SizeFields(r), c, 8, 12);
    SubSlice(b, SizeFields(r), c, 12, 20);
    SubSlice(b, SizeFields(r), c, 20, 24);
    FitsFour(CHUNK_VERSION);
    FitsFour(FIXED_CHUNK_SIZE + |r.progress|);
    FitsEight(|r.body|);
    FitsFour(Checksum(r.body));
  }

  lemma BuiltIdentity(r: StateRecord)
    requires Buildable(r)
    ensures var b, c := Layout(r), |r.body|;
      && |b| == c + 116 + |r.progress|
      && Number(b, c + 24, 4) == r.gameId
      && b[c + 28] == r.mode
      && b[c + 29..c + 32] == [0, 0, 0]
      && b[c + 32..c + 64] == r.anchorMd5
  {
    hide Layout, Little, FromLittle, SizeFields, IdentityFields, MediaFields, Checksum;
    var b, c := Layout(r), |r.body|;
    LayoutSections(r);
    IdentityFieldSlices(r);
    SubSlice(b, IdentityFields(r), c + 24, 0, 4);
    SubSlice(b, IdentityFields(r), c + 24, 5, 8);
    SubSlice(b, IdentityFields(r), c + 24, 8, 40);
    assert b[c + 28] == b[c + 24..c + 64][4];
    FitsFour(r.gameId);
  }

  lemma BuiltMedia(r: StateRecord)
    requires Buildable(r)
    ensures var b, c := Layout(r), |r.body|;
      && |b| == c + 116 + |r.progress|
      && Number(b, c + 64, 4) == r.rcheevosVersion
      && b[c + 68..c + 100] == HashField(r.activeMediaHash)
      && Number(b, c + 100, 4) == |r.progress|
  {
    hide Layout, Little, FromLittle, SizeFields, IdentityFields, MediaFields, Checksum;
    var b, c := Layout(r), |r.body|;
    LayoutSections(r);
    MediaFieldSlices(r);
    SubSlice(b, MediaFields(r), c + 64, 0, 4);
    SubSlice(b, MediaFields(r), c + 64, 4, 36);
    SubSlice(b, MediaFields(r), c + 64, 36, 40);
    FitsFour(r.rcheevosVersion);
    FitsFour(|r.progress|);
  }

  lemma HashFieldInverse(hash: Bytes)
    requires hash == [] || IsMd5(hash)
    ensures HashOfField(HashField(hash)) == hash
  {
    if hash != [] {
      assert hash[0] != Zeros(32)[0];
    }
  }

  /** Every state that can be built is read back as itself. */
  lemma ParseInvertsBuild(r: StateRecord)
    requires Buildable(r)
    ensures Parsed(Layout(r)) == Some(r)
  {
    hide Layout, Little, FromLittle, SizeFields, IdentityFields, MediaFields, Checksum, ChunkHead, Number;
    var b, c := Layout(r), |r.body|;
    BuiltChunkStart(r);
    BuiltSizes(r);
    BuiltIdentity(r);
    BuiltMedia(r);
    LayoutSections(r);
    ChunkChecksumStored(r);
    assert ChunkConsistent(b, c);
    HashFieldInverse(r.activeMediaHash);
    assert ChunkRecord(b, c) == r;
  }

  lemma ChunkChecksumStored(r: StateRecord)
    requires Buildable(r)
    ensures var b := Layout(r);
      |b| == |r.body| + 116 + |r.progress|
      && Checksum(b[|r.body|..|b| - 12]) == Number(b, |b| - 12, 4)
  {
    hide Layout, Little, FromLittle, SizeFields, IdentityFields, MediaFields, Checksum, ChunkHead;
    LayoutSections(r);
    FitsFour(Checksum(ChunkHead(r)));
  }

  // ---- parsing then building ----

  lemma NumberRewrites(bytes: Bytes, offset: nat, width: nat)
    requires offset + width <= |bytes|
    ensures Little(Number(bytes, offset, width), width) == bytes[offset..offset + width]
  {
    LittleEncodes(bytes[offset..offset + width]);
  }

  /** What an accepted file says about itself, with every number replaced by its field. */
  lemma AcceptedFields(b: Bytes, r: StateRecord)
    requires Parsed(b) == Some(r)
    ensures |b| == |r.body| + 116 + |r.progress| && |b| <= MAX_FILE_SIZE && |r.progress| <= MAX_PROGRESS_SIZE
    ensures ChunkStart(b) == Some(|r.body|) && ChunkConsistent(b, |r.body|) && r == ChunkRecord(b, |r.body|)
    ensures Number(b, |r.body| + 100, 4) == |r.progress|
    ensures IsMd5(r.anchorMd5) && ModePayloadValid(r)
  {
    hide FromLittle, Checksum, IsMd5;
  }

  lemma RebuiltSizes(b: Bytes, r: StateRecord)
    requires Parsed(b) == Some(r)
    ensures |b| >= |r.body| + 116
    ensures SizeFields(r) == b[|r.body|..|r.body| + 24]
  {
    hide FromLittle, Little, Checksum, Parsed, ChunkStart;
    AcceptedFields(b, r);
    var c := |r.body|;
    NumberRewrites(b, c + 4, 4);
    NumberRewrites(b, c + 8, 4);
    NumberRewrites(b, c + 12, 8);
    NumberRewrites(b, c + 20, 4);
    Cut(b, c, c + 20, c + 24);
    Cut(b, c, c + 12, c + 20);
    Cut(b, c, c + 8, c + 12);
    Cut(b, c, c + 4, c + 8);
  }

  lemma RebuiltIdentity(b: Bytes, r: StateRecord)
    requires Parsed(b) == Some(r)
    ensures |b| >= |r.body| + 116
    ensures IdentityFields(r) == b[|r.body| + 24..|r.body| + 64]
  {
    hide FromLittle, Little, Checksum, Parsed, ChunkStart, IsMd5;
    AcceptedFields(b, r);
    var c := |r.body|;
    NumberRewrites(b, c + 24, 4);
    Cut(b, c + 24, c + 32, c + 64);
    Cut(b, c + 24, c + 29, c + 32);
    Cut(b, c + 24, c + 28, c + 29);
    assert Zeros(3) == [0, 0, 0];
  }

  lemma HashFieldRestores(field: Bytes)
    requires |field| == 32
    ensures HashField(HashOfField(field)) == field
  {
  }

  lemma RebuiltMedia(b: Bytes, r: StateRecord)
    requires Parsed(b) == Some(r)
    ensures |b| >= |r.body| + 116
    ensures MediaFields(r) == b[|r.body| + 64..|r.body| + 104]
  {
    hide FromLittle, Little, Checksum, Parsed, ChunkStart, IsMd5;
    AcceptedFields(b, r);
    var c := |r.body|;
    NumberRewrites(b, c + 64, 4);
    NumberRewrites(b, c + 100, 4);
    HashFieldRestores(b[c + 68..c + 100]);
    Cut(b, c + 64, c + 100, c + 104);
    Cut(b, c + 64, c + 68, c + 100);
  }

  /** Every accepted file is what building its record gives, byte for byte: the encoding is canonical. */
  lemma BuildInvertsParse(b: Bytes, r: StateRecord)
    requires Parsed(b) == Some(r)
    ensures Buildable(r) && Layout(r) == b
  {
    hide FromLittle, Little, Checksum, ChunkHead, ChunkRecord, ChunkStart, ChunkConsistent, Parsed, IsMd5, Footer;
    AcceptedFields(b, r);
    RecordBody(b, r);
    RebuiltHead(b, r);
    RebuiltTail(b, r);
    WholeFile(b, |r.body|, |b|);
  }

  lemma RecordBody(b: Bytes, r: StateRecord)
    requires Parsed(b) == Some(r)
    ensures |r.body| <= |b| && r.body == b[..|r.body|]
  {
    hide FromLittle, Checksum, IsMd5, ModePayloadValid;
    AcceptedFields(b, r);
  }

  lemma RebuiltTail(b: Bytes, r: StateRecord)
    requires Parsed(b) == Some(r)
    ensures |b| >= |r.body| + 116
    ensures Little(Checksum(ChunkHead(r)), 4) == b[|b| - 12..|b| - 8]
    ensures Footer(FIXED_CHUNK_SIZE + |r.progress|) == b[|b| - 8..|b| - 4] + b[|b| - 4..|b|]
  {
    hide FromLittle, Little, Checksum, ChunkHead, ChunkRecord, IsMd5, ModePayloadValid;
    AcceptedFields(b, r);
    RebuiltHead(b, r);
    NumberRewrites(b, |b| - 12, 4);
    NumberRewrites(b, |b| - 4, 4);
  }

  lemma RebuiltHead(b: Bytes, r: StateRecord)
    requires Parsed(b) == Some(r)
    ensures |b| >= |r.body| + 116
    ensures ChunkHead(r) == b[|r.body|..|b| - 12]
  {
    hide FromLittle, Little, Checksum, SizeFields, IdentityFields, MediaFields, Parsed, ChunkStart, IsMd5;
    AcceptedFields(b, r);
    RebuiltSizes(b, r);
    RebuiltIdentity(b, r);
    RebuiltMedia(b, r);
    var c := |r.body|;
    Cut(b, c, c + 104, |b| - 12);
    Cut(b, c, c + 64, c + 104);
    Cut(b, c, c + 24, c + 64);
  }

  lemma WholeFile(b: Bytes, c: nat, n: nat)
    requires n == |b| && c + 116 <= n
    ensures b == b[..c] + b[c..n - 12] + b[n - 12..n - 8] + (b[n - 8..n - 4] + b[n - 4..n])
  {
  }

  // ---- damage ----

  /** A file with exactly one byte changed, anywhere but in the trailing size, is refused. */
  lemma ChangedByteIsRefused(b: Bytes, damaged: Bytes, index: nat)
    requires Parsed(b).Some?
    requires DifferOnlyAt(b, damaged, index) && index + 4 < |b|
    ensures Parsed(damaged).None?
  {
    hide FromLittle, Checksum, IsMd5, ModePayloadValid;
    var n := |b|;
    var start := ChunkStart(b).value;
    assert damaged[n - 4..n] == b[n - 4..n];
    if damaged[n - 8..n - 4] == FOOTER_MAGIC {
      assert ChunkStart(damaged) == Some(start);
      DamageInsideFrame(b, damaged, index, start);
    }
  }

  lemma SameSliceAway(b: Bytes, damaged: Bytes, index: nat, lo: nat, hi: nat)
    requires DifferOnlyAt(b, damaged, index) && lo <= hi <= |b|
    ensures lo <= index < hi ==> damaged[lo..hi] != b[lo..hi]
  {
    if lo <= index < hi {
      assert damaged[lo..hi][index - lo] != b[lo..hi][index - lo];
    }
  }

  lemma DamageInsideFrame(b: Bytes, damaged: Bytes, index: nat, start: nat)
    requires start + 116 <= |b| && ChunkConsistent(b, start)
    requires DifferOnlyAt(b, damaged, index) && index + 4 < |b|
    requires damaged[|b| - 8..|b| - 4] == b[|b| - 8..|b| - 4]
    ensures !ChunkConsistent(damaged, start)
  {
    hide FromLittle, Checksum, IsMd5;
    var n := |b|;
    SameSliceAway(b, damaged, index, n - 8, n - 4);
    if index < start {
      assert DifferOnlyAt(b[..start], damaged[..start], index);
      ChecksumDetectsOneByte(b[..start], damaged[..start], index);
      assert damaged[start + 20..start + 24] == b[start + 20..start + 24];
    } else if index < n - 12 {
      assert DifferOnlyAt(b[start..n - 12], damaged[start..n - 12], index - start);
      ChecksumDetectsOneByte(b[start..n - 12], damaged[start..n - 12], index - start);
      assert damaged[n - 12..n - 8] == b[n - 12..n - 8];
    } else {
      assert damaged[start..n - 12] == b[start..n - 12];
      assert damaged[n - 12..n - 8][index - (n - 12)] != b[n - 12..n - 8][index - (n - 12)];
      if Number(damaged, n - 12, 4) == Number(b, n - 12, 4) {
        NumberRewrites(damaged, n - 12, 4);
        NumberRewrites(b, n - 12, 4);
      }
    }
  }

  /** A file is accepted exactly when it is the image of some buildable record, and then of only one. */
  lemma AcceptedExactlyTheBuilt(b: Bytes)
    ensures Parsed(b).Some? <==> exists r :: Buildable(r) && Layout(r) == b
    ensures forall r, s :: Buildable(r) && Buildable(s) && Layout(r) == b && Layout(s) == b ==> r == s
  {
    hide Layout, Parsed, Buildable;
    if Parsed(b).Some? {
      BuildInvertsParse(b, Parsed(b).value);
    }
    forall r | Buildable(r) && Layout(r) == b
      ensures Parsed(b) == Some(r)
    {
      ParseInvertsBuild(r);
    }
  }

  // ---- which records are valid ----

  const HEX_DIGITS: set<bv8> := {
    0x30, 0x31, 0x32, 0x33, 0x34, 0x35, 0x36, 0x37, 0x38, 0x39, 0x61, 0x62, 0x63, 0x64, 0x65, 0x66}

  /** An MD5 is 32 hexadecimal digits with small letters. */
  lemma Md5Digits(text: Bytes)
    ensures IsMd5(text) <==> |text| == 32 && forall k :: 0 <= k < |text| ==> text[k] in HEX_DIGITS
  {
    forall k | 0 <= k < |text|
      ensures (0x30 <= text[k] <= 0x39 || 0x61 <= text[k] <= 0x66) <==> text[k] in HEX_DIGITS
    {
      HexDigit(text[k]);
    }
  }

  lemma HexDigit(b: bv8)
    ensures (0x30 <= b <= 0x39 || 0x61 <= b <= 0x66) <==> b in HEX_DIGITS
  {
  }

  /** Modes 1 and 2 name a game and its media and carry progress, mode 3 does none of it, and there is no other mode. */
  lemma ModesExactly(r: StateRecord)
    requires IsMd5(r.anchorMd5) && |r.progress| <= 0x100_0000 && |r.body| + |r.progress| + 116 <= 0x1000_0000
    ensures Buildable(r) <==>
      && r.mode in {1, 2, 3}
      && (r.mode != 3 <==> r.gameId != 0) && (r.mode != 3 <==> r.progress != [])
      && (if r.mode == 3 then r.activeMediaHash == [] else IsMd5(r.activeMediaHash))
  {
    hide IsMd5;
  }

  /** Larger records are refused: 16 MiB of progress, and 256 MiB of file. */
  lemma LimitsExactly(r: StateRecord)
    requires Buildable(r)
    ensures |r.progress| <= 0x100_0000 && |Layout(r)| <= 0x1000_0000
  {
    hide IsMd5, SizeFields, IdentityFields, MediaFields, Little, Checksum;
    FieldSizes(r);
  }
}
