/** The QSBK1 backup format: the writer's byte stream and the streaming reader, which
    must not care how the stream is cut into chunks. */
module Backup {

  newtype Byte = x: int | 0 <= x < 256

  type Bytes = seq<Byte>

  datatype Fault =
    | Truncated | TruncatedCiphertext | BadMagic | BadHeaderLength | BadContentLength | TrailingBytes | ChecksumMismatch

  datatype Reading<+T> = Good(value: T) | Bad(fault: Fault)

  /** The authenticated header, the ciphertext and its authentication tag. */
  datatype Content = Content(header: Bytes, ciphertext: Bytes, tag: Bytes)

  const Magic: Bytes := [81, 83, 66, 75, 49]
  const PrefixLength := 9
  const MaxHeader := 65536
  const TagLength := 16
  const MaxSafeInteger := 9007199254740991

  // ---------------------------------------------------------------- the format

  function BigEndian32(n: nat): (b: Bytes)
    requires n < 0x1_0000_0000
    ensures |b| == 4
  {
    [(n / 0x1000000) as Byte, (n / 0x10000 % 0x100) as Byte, (n / 0x100 % 0x100) as Byte, (n % 0x100) as Byte]
  }

  function ReadBigEndian32(b: Bytes): nat
    requires |b| == 4
  {
    b[0] as nat * 0x1000000 + b[1] as nat * 0x10000 + b[2] as nat * 0x100 + b[3] as nat
  }

  predicate WellFormed(c: Content) {
    0 < |c.header| <= MaxHeader && 0 < |c.ciphertext| <= MaxSafeInteger - TagLength && |c.tag| == TagLength
  }

  function Encode(c: Content): Bytes
    requires |c.header| < 0x1_0000_0000
  {
    Magic + BigEndian32(|c.header|) + c.header + c.ciphertext + c.tag
  }

  function Flatten(chunks: seq<Bytes>): Bytes {
    if chunks == [] then [] else chunks[0] + Flatten(chunks[1..])
  }

  /** The header of a whole stream. */
  function HeaderOf(stream: Bytes): Reading<Bytes> {
    if |stream| < PrefixLength then Bad(Truncated)
    else if stream[..5] != Magic then Bad(BadMagic)
    else
      var n := ReadBigEndian32(stream[5..9]);
      if n == 0 || n > MaxHeader then Bad(BadHeaderLength)
      else if |stream| < PrefixLength + n then Bad(Truncated)
      else Good(stream[PrefixLength..PrefixLength + n])
  }

  /** What the reader must make of a whole stream. `length` is the announced content
      length, `Bad` when it is missing; a checksum, taken as free of collisions, is the
      bytes it was computed over. */
  function Decode(stream: Bytes, length: Reading<int>, expected: Reading<Bytes>): Reading<Content> {
    var header := HeaderOf(stream);
    if header.Bad? then Bad(header.fault)
    else if length.Bad? || length.value - PrefixLength - |header.value| > MaxSafeInteger
            || length.value - PrefixLength - |header.value| <= TagLength
    then Bad(BadContentLength)
    else BodyOf(stream, header.value, length.value - TagLength, expected)
  }

  /** The rest of a stream whose ciphertext ends at `end`. */
  function BodyOf(stream: Bytes, header: Bytes, end: nat, expected: Reading<Bytes>): Reading<Content>
    requires PrefixLength + |header| <= end
  {
    if |stream| < end then Bad(TruncatedCiphertext)
    else if |stream| < end + TagLength then Bad(Truncated)
    else if |stream| > end + TagLength then Bad(TrailingBytes)
    else if expected.Good? && expected.value != stream then Bad(ChecksumMismatch)
    else Good(Content(header, stream[PrefixLength + |header|..end], stream[end..end + TagLength]))
  }

  /** Chunks may be empty; one after the last byte makes the stream look longer. */
  predicate EndsEmpty(chunks: seq<Bytes>) {
    chunks != [] && chunks[|chunks| - 1] == []
  }

  // ---------------------------------------------------------------- the writer

  class Writer {
    var hashed: Bytes
    var size: nat
    var pieces: seq<Bytes>

    constructor ()
      ensures hashed == [] && size == 0 && pieces == []
    {
      hashed, size, pieces := [], 0, [];
    }

    method Yield(piece: Bytes)
      modifies this
      ensures hashed == old(hashed) + piece && size == old(size) + |piece| && pieces == old(pieces) + [piece]
    {
      hashed, size, pieces := hashed + piece, size + |piece|, pieces + [piece];
    }

    /** `encryptedBody`: prefix, every ciphertext chunk, tag; the hash and the size run
        over exactly what is yielded. */
    method EncryptedBody(header: Bytes, cipher: seq<Bytes>, tag: Bytes)
      requires hashed == [] && size == 0 && pieces == [] && |header| < 0x1_0000_0000
      modifies this
      ensures Flatten(pieces) == hashed == Encode(Content(header, Flatten(cipher), tag)) && size == |hashed|
    {
      Yield(Magic + BigEndian32(|header|) + header);
      FlattenSnoc([], hashed);
      ghost var prefix := hashed;
      var i := 0;
      while i < |cipher|
        invariant 0 <= i <= |cipher|
        invariant Flatten(pieces) == hashed == prefix + Flatten(cipher[..i]) && size == |hashed|
      {
        FlattenSnoc(pieces, cipher[i]);
        FlattenSnoc(cipher[..i], cipher[i]);
        assert cipher[..i + 1] == cipher[..i] + [cipher[i]];
        Yield(cipher[i]);
        i := i + 1;
      }
      assert cipher[..i] == cipher;
      FlattenSnoc(pieces, tag);
      Yield(tag);
    }
  }

  lemma {:induction false} FlattenSnoc(chunks: seq<Bytes>, last: Bytes)
    ensures Flatten(chunks + [last]) == Flatten(chunks) + last
  {
    if chunks == [] {
      assert [] + [last] == [last] && [last][1..] == [];
    } else {
      assert (chunks + [last])[1..] == chunks[1..] + [last];
      FlattenSnoc(chunks[1..], last);
    }
  }

  // ---------------------------------------------------------------- the reader

  /** What the streaming reader makes of chunks: the whole stream's decoding, except
      that it takes an empty last chunk for trailing bytes. */
  function DecodeChunks(chunks: seq<Bytes>, length: Reading<int>, expected: Reading<Bytes>): Reading<Content> {
    AtEnd(chunks, Decode(Flatten(chunks), length, expected))
  }

  function AtEnd(chunks: seq<Bytes>, d: Reading<Content>): Reading<Content> {
    if EndsEmpty(chunks) && (d.Good? || d.fault == ChecksumMismatch) then Bad(TrailingBytes) else d
  }

  lemma Join(all: Bytes, a: nat, b: nat, c: nat)
    requires a <= b <= c <= |all|
    ensures all[a..b] + all[b..c] == all[a..c]
  {}

  class Reader {
    ghost const stream: seq<Bytes>
    ghost const all: Bytes
    ghost var position: nat
    var chunks: seq<Bytes>
    var buffered: Bytes
    var hashed: Bytes

    constructor (body: seq<Bytes>)
      ensures stream == body && all == Flatten(body) && position == 0 && hashed == [] && Valid() && Tight()
    {
      stream, all, position, chunks, buffered, hashed := body, Flatten(body), 0, body, [], [];
    }

    /** The chunks not asked for yet end the stream, and the bytes not handed out yet are
        what follows the position. */
    ghost predicate Valid()
      reads this
    {
      && |chunks| <= |stream| && chunks == stream[|stream| - |chunks|..]
      && position <= |all| && buffered + Flatten(chunks) == all[position..]
    }

    /** The last chunk asked for was not an empty one. */
    ghost predicate Tight()
      requires Valid()
      reads this
    {
      |chunks| < |stream| ==> stream[|stream| - |chunks| - 1] != []
    }

    /** `iterator.next()`, appended to what is buffered. */
    method Pull()
      requires Valid() && chunks != []
      modifies this
      ensures Valid() && position == old(position) && hashed == old(hashed)
      ensures chunks == old(chunks)[1..] && buffered == old(buffered) + old(chunks)[0]
      ensures Tight() <==> old(chunks)[0] != []
    {
      ghost var n := |stream| - |chunks|;
      assert stream[n..][0] == stream[n] && stream[n..][1..] == stream[n + 1..];
      assert buffered + (chunks[0] + Flatten(chunks[1..])) == (buffered + chunks[0]) + Flatten(chunks[1..]);
      buffered, chunks := buffered + chunks[0], chunks[1..];
    }

    /** `buffered.subarray`: the next bytes leave the buffer. */
    method Take(length: nat) returns (bytes: Bytes)
      requires Valid() && length <= |buffered|
      modifies this`buffered, this`position
      ensures Valid() && position == old(position) + length && bytes == all[old(position)..position]
      ensures buffered == old(buffered)[length..]
    {
      ghost var rest := all[position..];
      assert position + length <= |all| by { assert |rest| == |buffered| + |Flatten(chunks)|; }
      assert rest[..length] == buffered[..length] && rest[length..] == buffered[length..] + Flatten(chunks);
      assert all[position..][length..] == all[position + length..];
      bytes := buffered[..length];
      buffered, position := buffered[length..], position + length;
    }

    /** `readExact` */
    method ReadExact(length: nat) returns (r: Reading<Bytes>)
      requires Valid() && Tight()
      modifies this
      ensures Valid() && hashed == old(hashed)
      ensures if old(position) + length > |all| then r == Bad(Truncated)
              else r == Good(all[old(position)..old(position) + length]) && position == old(position) + length && Tight()
    {
      while |buffered| < length
        invariant Valid() && position == old(position) && hashed == old(hashed)
        invariant Tight() || |buffered| < length
        decreases |chunks|
      {
        if chunks == [] { return Bad(Truncated); }
        Pull();
      }
      var bytes := Take(length);
      r := Good(bytes);
    }

    /** One turn of the ciphertext loop of `plaintext`: a chunk is asked for when nothing
        is buffered, and what is buffered goes to the decipher and to the hash, never
        more than remains. */
    method FeedNext(limit: nat) returns (r: Reading<Bytes>)
      requires Valid() && (Tight() || buffered == []) && limit > 0 && hashed == all[..position]
      modifies this
      ensures Valid()
      ensures r.Bad? ==> r == Bad(TruncatedCiphertext) && old(position) == |all|
      ensures r.Good? ==> |r.value| <= limit && position == old(position) + |r.value| && r.value == all[old(position)..position]
      ensures r.Good? ==> hashed == all[..position] && (Tight() || (buffered == [] && r.value == []))
      ensures r.Good? ==> |r.value| > 0 || |chunks| < |old(chunks)|
    {
      if buffered == [] {
        if chunks == [] { return Bad(TruncatedCiphertext); }
        Pull();
      }
      ghost var from := position;
      var encrypted := Take(if |buffered| < limit then |buffered| else limit);
      Join(all, 0, from, position);
      hashed := hashed + encrypted;
      r := Good(encrypted);
    }

    /** The ciphertext loop. */
    method ReadCiphertext(total: nat) returns (r: Reading<Bytes>)
      requires Valid() && Tight() && hashed == all[..position]
      modifies this
      ensures Valid()
      ensures if old(position) + total > |all| then r == Bad(TruncatedCiphertext)
              else r == Good(all[old(position)..old(position) + total]) && position == old(position) + total && Tight()
                   && hashed == all[..position]
    {
      ghost var start := position;
      var fed: Bytes := [];
      while |fed| < total
        invariant Valid() && |fed| <= total && position == start + |fed|
        invariant fed == all[start..position] && hashed == all[..position]
        invariant Tight() || (buffered == [] && |fed| < total)
        decreases total - |fed|, |chunks|
      {
        ghost var from := position;
        r := FeedNext(total - |fed|);
        if r.Bad? { return; }
        Join(all, start, from, position);
        fed := fed + r.value;
      }
      r := Good(fed);
    }

    /** Magic, header length and header. */
    method ReadHeader() returns (r: Reading<Bytes>)
      requires Valid() && Tight() && position == 0 && hashed == []
      modifies this
      ensures Valid() && r == HeaderOf(all)
      ensures r.Good? ==> Tight() && position == PrefixLength + |r.value| && hashed == all[..position]
    {
      var prefix := ReadExact(PrefixLength);
      if prefix.Bad? { return Bad(prefix.fault); }
      assert prefix.value[..5] == all[..5] && prefix.value[5..9] == all[5..9];
      if prefix.value[..5] != Magic { return Bad(BadMagic); }
      var headerLength := ReadBigEndian32(prefix.value[5..9]);
      if headerLength == 0 || headerLength > MaxHeader { return Bad(BadHeaderLength); }
      r := ReadExact(headerLength);
      if r.Good? {
        Join(all, 0, PrefixLength, position);
        hashed := prefix.value + r.value;
      }
    }

    /** Ciphertext and tag. */
    method ReadSealed(total: nat) returns (r: Reading<(Bytes, Bytes)>)
      requires Valid() && Tight() && hashed == all[..position]
      modifies this
      ensures Valid()
      ensures var begin, end := old(position), old(position) + total;
              r == if |all| < end then Bad(TruncatedCiphertext)
                   else if |all| < end + TagLength then Bad(Truncated)
                   else Good((all[begin..end], all[end..end + TagLength]))
      ensures r.Good? ==> Tight() && hashed == all[..position] && position == old(position) + total + TagLength
    {
      var ciphertext := ReadCiphertext(total);
      if ciphertext.Bad? { return Bad(ciphertext.fault); }
      ghost var end := position;
      var tag := ReadExact(TagLength);
      if tag.Bad? { return Bad(tag.fault); }
      Join(all, 0, end, position);
      hashed := hashed + tag.value;
      r := Good((ciphertext.value, tag.value));
    }

    /** The whole of `downloadAndDecryptBackup` short of key lookup and decryption. */
    method Download(length: Reading<int>, expected: Reading<Bytes>) returns (r: Reading<Content>)
      requires Valid() && Tight() && position == 0 && hashed == [] && all == Flatten(stream)
      modifies this
      ensures r == DecodeChunks(stream, length, expected)
      ensures r.Good? ==> hashed == all
    {
      var header := ReadHeader();
      if header.Bad? { return Bad(header.fault); }
      if length.Bad? { return Bad(BadContentLength); }
      var encryptedLength := length.value - PrefixLength - |header.value|;
      if encryptedLength > MaxSafeInteger || encryptedLength <= TagLength { return Bad(BadContentLength); }
      var sealed := ReadSealed(encryptedLength - TagLength);
      if sealed.Bad? { return Bad(sealed.fault); }
      var trailing := HasTrailing();
      if trailing { return Bad(TrailingBytes); }
      assert position == |all| && all[..position] == all;
      if expected.Good? && expected.value != hashed { return Bad(ChecksumMismatch); }
      r := Good(Content(header.value, sealed.value.0, sealed.value.1));
    }

    /** `buffered.length || !(await iterator.next()).done` */
    method HasTrailing() returns (trailing: bool)
      requires Valid() && Tight()
      ensures trailing <==> position < |all| || EndsEmpty(stream)
    {
      EmptyChunksLeft();
      trailing := buffered != [] || chunks != [];
    }

    /** When no byte is left, the reader sees the end unless the stream's last chunk is
        an empty one. */
    lemma EmptyChunksLeft()
      requires Valid() && Tight()
      ensures (buffered == [] && chunks == []) <==> (position == |all| && !EndsEmpty(stream))
    {
      if position == |all| {
        assert buffered == [] && Flatten(chunks) == [];
        FlattenEmpty(chunks);
        if chunks != [] { assert chunks[|chunks| - 1] == stream[|stream| - 1]; }
      }
    }
  }

  lemma {:induction false} FlattenEmpty(chunks: seq<Bytes>)
    requires Flatten(chunks) == []
    ensures forall k | 0 <= k < |chunks| :: chunks[k] == []
  {
    if chunks != [] {
      assert |chunks[0]| <= |Flatten(chunks)| && |Flatten(chunks[1..])| <= |Flatten(chunks)|;
      FlattenEmpty(chunks[1..]);
      forall k | 0 < k < |chunks| ensures chunks[k] == [] { assert chunks[k] == chunks[1..][k - 1]; }
    }
  }
}
