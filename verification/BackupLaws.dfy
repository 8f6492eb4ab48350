/** The reader accepts exactly what the writer writes, however it is cut. */
module BackupLaws {
  import opened Backup

  lemma BigEndianRoundTrip(n: nat)
    requires n < 0x1_0000_0000
    ensures ReadBigEndian32(BigEndian32(n)) == n
  {
    var a, b, c := n / 0x1000000, n / 0x10000, n / 0x100;
    assert b / 0x100 == a && c / 0x100 == b;
    assert n == c * 0x100 + n % 0x100 && c == b * 0x100 + c % 0x100 && b == a * 0x100 + b % 0x100;
  }

  lemma BigEndianUnique(b: Bytes)
    requires |b| == 4
    ensures ReadBigEndian32(b) < 0x1_0000_0000 && BigEndian32(ReadBigEndian32(b)) == b
  {
    var n := ReadBigEndian32(b);
    assert n / 0x1000000 == b[0] as nat;
    assert n / 0x10000 == b[0] as nat * 0x100 + b[1] as nat;
    assert n / 0x100 == b[0] as nat * 0x10000 + b[1] as nat * 0x100 + b[2] as nat;
  }

  // ---------------------------------------------------------------- whole streams

  lemma EncodedParts(c: Content)
    requires WellFormed(c)
    ensures var e, n := Encode(c), |c.header|;
            && |e| == PrefixLength + n + |c.ciphertext| + TagLength
            && e[..5] == Magic && e[5..9] == BigEndian32(n) && e[PrefixLength..PrefixLength + n] == c.header
            && e[PrefixLength + n..PrefixLength + n + |c.ciphertext|] == c.ciphertext
            && e[PrefixLength + n + |c.ciphertext|..] == c.tag
  {}

  /** Reading what was written gives it back, with the right checksum or without one. */
  lemma DecodeEncode(c: Content, expected: Reading<Bytes>)
    requires WellFormed(c) && (expected.Good? ==> expected.value == Encode(c))
    ensures Decode(Encode(c), Good(|Encode(c)|), expected) == Good(c)
  {
    EncodedParts(c);
    BigEndianRoundTrip(|c.header|);
    var e, end := Encode(c), PrefixLength + |c.header| + |c.ciphertext|;
    assert HeaderOf(e) == Good(c.header);
    assert e[end..end + TagLength] == e[end..];
  }

  lemma DecodedIsEncoded(stream: Bytes, length: Reading<int>, expected: Reading<Bytes>)
    requires Decode(stream, length, expected).Good?
    ensures var c := Decode(stream, length, expected).value;
            && WellFormed(c) && stream == Encode(c) && length == Good(|stream|)
            && (expected.Good? ==> expected.value == stream)
  {
    var c := Decode(stream, length, expected).value;
    BigEndianUnique(stream[5..9]);
    var n := |c.header|;
    var end := PrefixLength + n + |c.ciphertext|;
    assert stream == stream[..5] + stream[5..9] + stream[9..9 + n] + stream[9 + n..end] + stream[end..end + TagLength];
  }

  /** The format, byte by byte: QSBK1, the header's length in four bytes, most significant
      first, the header, the ciphertext and a tag of sixteen bytes. */
  predicate LaidOut(stream: Bytes, c: Content) {
    var n, m := |c.header|, |c.ciphertext|;
    && 1 <= n <= 65536 && 1 <= m <= 9007199254740975 && |c.tag| == 16 && |stream| == 9 + n + m + 16
    && stream[0] == 81 && stream[1] == 83 && stream[2] == 66 && stream[3] == 75 && stream[4] == 49
    && stream[5] as int * 16777216 + stream[6] as int * 65536 + stream[7] as int * 256 + stream[8] as int == n
    && stream[9..9 + n] == c.header && stream[9 + n..9 + n + m] == c.ciphertext && stream[9 + n + m..] == c.tag
  }

  lemma EncodingIsLaidOut(c: Content)
    requires WellFormed(c)
    ensures LaidOut(Encode(c), c)
  {
    EncodedParts(c);
    BigEndianRoundTrip(|c.header|);
    var e := Encode(c);
    assert forall k | 0 <= k < 5 :: e[k] == e[..5][k];
    assert forall k | 0 <= k < 4 :: e[5 + k] == e[5..9][k];
  }

  lemma LaidOutIsEncoding(stream: Bytes, c: Content)
    requires LaidOut(stream, c)
    ensures WellFormed(c) && stream == Encode(c)
  {
    var n, m := |c.header|, |c.ciphertext|;
    BigEndianUnique(stream[5..9]);
    assert stream[..5] == Magic && ReadBigEndian32(stream[5..9]) == n;
    assert stream == stream[..5] + stream[5..9] + stream[9..9 + n] + stream[9 + n..9 + n + m] + stream[9 + n + m..];
  }

  /** A stream is accepted if and only if it is laid out for the content, at its own
      length, with its own checksum when one is expected. */
  lemma AcceptedIff(stream: Bytes, length: Reading<int>, expected: Reading<Bytes>, c: Content)
    ensures Decode(stream, length, expected) == Good(c) <==>
              LaidOut(stream, c) && length == Good(|stream|) && (expected.Good? ==> expected.value == stream)
  {
    if Decode(stream, length, expected) == Good(c) {
      DecodedIsEncoded(stream, length, expected);
      EncodingIsLaidOut(c);
    }
    if LaidOut(stream, c) && length == Good(|stream|) && (expected.Good? ==> expected.value == stream) {
      LaidOutIsEncoding(stream, c);
      DecodeEncode(c, expected);
    }
  }

  // ---------------------------------------------------------------- any cut into chunks

  /** Every cut of an encoding is read back, unless it ends in an empty chunk: then it
      is refused as having trailing bytes. */
  lemma {:induction false} RoundTripInChunks(c: Content, chunks: seq<Bytes>, expected: Reading<Bytes>)
    requires WellFormed(c) && Flatten(chunks) == Encode(c) && (expected.Good? ==> expected.value == Encode(c))
    ensures DecodeChunks(chunks, Good(|Encode(c)|), expected)
            == if EndsEmpty(chunks) then Bad(TrailingBytes) else Good(c)
  {
    DecodeEncode(c, expected);
  }

  /** Two cuts of the same bytes, neither ending in an empty chunk, are read alike:
      faults included. */
  lemma {:induction false} ChunkingDoesNotMatter(a: seq<Bytes>, b: seq<Bytes>, length: Reading<int>, expected: Reading<Bytes>)
    requires Flatten(a) == Flatten(b) && !EndsEmpty(a) && !EndsEmpty(b)
    ensures DecodeChunks(a, length, expected) == DecodeChunks(b, length, expected)
  {}

  /** No other stream passes for a backup: a truncation, an extension or any change is
      refused whenever the content length or the checksum is the backup's. */
  lemma {:induction false} OtherStreamsRefused(c: Content, chunks: seq<Bytes>, length: Reading<int>, expected: Reading<Bytes>)
    requires WellFormed(c) && Flatten(chunks) != Encode(c)
    requires expected == Good(Encode(c)) || (length == Good(|Encode(c)|) && |Flatten(chunks)| != |Encode(c)|)
    ensures DecodeChunks(chunks, length, expected).Bad?
  {
    if DecodeChunks(chunks, length, expected).Good? { DecodedIsEncoded(Flatten(chunks), length, expected); }
  }

  /** Writer and reader together: what the writer yields, cut anew in any way without
      empty chunks, comes back, and the reader's hash has covered the writer's bytes. */
  method WriteThenRead(header: Bytes, cipher: seq<Bytes>, tag: Bytes, cut: seq<Bytes>) returns (r: Reading<Content>)
    requires WellFormed(Content(header, Flatten(cipher), tag))
    requires Flatten(cut) == Encode(Content(header, Flatten(cipher), tag)) && forall k | 0 <= k < |cut| :: cut[k] != []
    ensures r == Good(Content(header, Flatten(cipher), tag))
  {
    var writer := new Writer();
    writer.EncryptedBody(header, cipher, tag);
    var reader := new Reader(cut);
    RoundTripInChunks(Content(header, Flatten(cipher), tag), cut, Good(writer.hashed));
    r := reader.Download(Good(writer.size), Good(writer.hashed));
    assert reader.hashed == writer.hashed;
  }
}
