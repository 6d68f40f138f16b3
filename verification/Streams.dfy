/** Byte streams stacked on one connection: the transport, the peeking reader used for
    version detection, and the framed AEAD reader and writer of wire v2. */
module Streams {
  import opened Wrappers
  import opened Bytes
  import opened Aead
  import opened Cfb

  datatype ReadError = EOF | UnexpectedEOF | Broken | Unsealable

  /** What a reader still has to give: these bytes, then this error for ever. */
  datatype Stream = Stream(data: bytes, end: ReadError)

  /** The outcome of reading exactly `size` bytes from a stream, as io.ReadFull reports it. */
  function FullRead(s: Stream, size: nat): (r: (bytes, Option<ReadError>)) {
    if size <= |s.data| then (s.data[..size], None)
    else (s.data, Some(if s.data != [] && s.end == EOF then UnexpectedEOF else s.end))
  }

  /** The connection. A read hands over any positive number of the bytes that remain. */
  class Transport {
    var rest: bytes
    const end: ReadError

    constructor (rest: bytes, end: ReadError)
      ensures this.rest == rest && this.end == end
    {
      this.rest, this.end := rest, end;
    }

    method Read(size: nat) returns (chunk: bytes, err: Option<ReadError>)
      modifies this
      ensures |chunk| <= size && old(rest) == chunk + rest
      ensures err.Some? ==> rest == [] && err.value == end
      ensures size > 0 && chunk == [] ==> err.Some?
    {
      chunk, err := [], None;
      if size > 0 && rest == [] {
        err := Some(end);
      } else if size > 0 {
        var most := if size < |rest| then size else |rest|;
        var count: nat :| 1 <= count <= most;
        var together: bool := *;
        chunk, rest := rest[..count], rest[count..];
        err := if rest == [] && together then Some(end) else None;
      }
    }
  }

  /** A reader that can look ahead and give the bytes it looked at again. */
  class PeekReader {
    const source: Transport
    var peeked: bytes
    var offset: nat

    ghost predicate Valid() reads this {
      offset <= |peeked|
    }

    ghost function Rest(): Stream
      reads this, source
      requires Valid()
    {
      Stream(peeked[offset..] + source.rest, source.end)
    }

    constructor (source: Transport)
      ensures Valid() && this.source == source && offset == 0 && peeked == []
    {
      this.source, peeked, offset := source, [], 0;
    }

    /** Looks at the next `size` unread bytes, or all there are. Nothing is consumed. */
    method Peek(size: nat) returns (view: bytes, err: Option<ReadError>)
      requires Valid()
      modifies this, source
      ensures Valid() && Rest() == old(Rest())
      ensures view == FullRead(old(Rest()), size).0
      ensures err.None? <==> size <= |old(Rest()).data|
      ensures err.Some? && source.end == EOF ==> err.value == EOF || err.value == UnexpectedEOF
      ensures err.Some? && source.end != EOF ==> err.value == source.end
      ensures old(offset) == 0 ==> offset == 0
      ensures |view| <= |peeked| - offset
      decreases 12
    {
      if |peeked| - offset < size {
        Compact();
        var missing := size - (|peeked| - offset);
        ghost var before := peeked[offset..];
        var buffer, e := ReadFull(Conn(source), missing);
        peeked := peeked + buffer;
        assert peeked[offset..] == before + buffer;
        if e.Some? {
          assert peeked[offset..] == old(Rest()).data;
          return peeked[offset..], e;
        }
      }
      assert peeked[offset..offset + size] == peeked[offset..][..size];
      return peeked[offset..offset + size], None;
    }

    /** Gives the peeked bytes first, then reads on. */
    method Read(size: nat) returns (chunk: bytes, err: Option<ReadError>)
      requires Valid()
      modifies this, source
      ensures Valid() && |chunk| <= size && old(Rest()) == Stream(chunk + Rest().data, Rest().end)
      ensures err.Some? ==> Rest().data == [] && err.value == source.end
      ensures size > 0 && chunk == [] ==> err.Some?
    {
      if offset < |peeked| {
        var count := if size < |peeked| - offset then size else |peeked| - offset;
        chunk := peeked[offset..offset + count];
        assert peeked[offset..] == chunk + peeked[offset + count..];
        offset := offset + count;
        if count == size {
          return chunk, None;
        }
        Compact();
        var more, e := source.Read(size - count);
        return chunk + more, e;
      }
      chunk, err := source.Read(size);
    }

    /** Puts the cursor back on the first peeked byte. */
    method Replay()
      requires Valid()
      modifies this`offset
      ensures Valid() && offset == 0
    {
      offset := 0;
    }

    /** Moves the cursor to `size` peeked bytes, or past all of them. */
    method Consume(size: int)
      requires Valid()
      modifies this`offset
      ensures Valid()
      ensures offset == if size <= 0 then old(offset) else if size > |peeked| then |peeked| else size
    {
      if size <= 0 {
        return;
      }
      offset := if size > |peeked| then |peeked| else size;
    }

    method Compact()
      requires Valid()
      modifies this
      ensures Valid() && peeked[offset..] == old(peeked[offset..])
      ensures old(offset) == 0 ==> offset == 0
    {
      if offset >= |peeked| {
        peeked, offset := [], 0;
      }
    }
  }

  /** The decrypting reader: authenticates one frame at a time and serves its plaintext. */
  class AeadReader {
    const source: PeekReader
    const cipher: Cipher
    var streamNonce: bytes
    var nonce: array?<byte>
    var pending: bytes
    var frameCount: nat

    ghost predicate Valid()
      reads this, source, nonce
    {
      && source.Valid()
      && (nonce == null ==> pending == [] && frameCount == 0)
      && (nonce != null ==> |streamNonce| == NONCE_SIZE && nonce[..] == NonceAt(streamNonce, frameCount))
    }

    ghost function Repr(): set<object>
      reads this
    {
      {this, source, source.source} + if nonce == null then {} else {nonce}
    }

    ghost function Rest(): Stream
      reads this, source, source.source, nonce
      requires Valid()
    {
      var input := source.Rest().data;
      Stream(if nonce == null then OpenChannel(cipher, input)
             else pending + OpenFrames(cipher, streamNonce, frameCount, input), Unsealable)
    }

    constructor (source: PeekReader, cipher: Cipher)
      requires source.Valid()
      ensures Valid() && this.source == source && this.cipher == cipher && nonce == null
    {
      this.source, this.cipher := source, cipher;
      streamNonce, nonce, pending, frameCount := [], null, [], 0;
    }

    /** Serves pending plaintext, reading frames until there is some. Terminates because each
        frame uses up at least twenty bytes of the source. */
    method Read(size: nat) returns (chunk: bytes, err: Option<ReadError>)
      requires Valid()
      modifies Repr()
      ensures Valid() && fresh(Repr() - old(Repr()))
      ensures err.None? ==> |chunk| <= size && old(Rest()) == Stream(chunk + Rest().data, Unsealable)
      ensures err.None? && size > 0 ==> chunk != []
      ensures err.Some? ==> chunk == [] && err.value == Unsealable && old(Rest()).data == []
      decreases 27
    {
      hide NonceAt, OpenFrames, OpenChannel;
      while |pending| == 0
        invariant Valid() && fresh(Repr() - old(Repr()))
        invariant Rest() == old(Rest())
        invariant |pending| > 0 ==> nonce != null
        decreases |source.Rest().data|, |pending| == 0
      {
        var e := ReadFrame();
        if e.Some? {
          return [], e;
        }
      }
      var count := if size < |pending| then size else |pending|;
      chunk := pending[..count];
      ghost var later := OpenFrames(cipher, streamNonce, frameCount, source.Rest().data);
      assert old(Rest()).data == chunk + (pending[count..] + later) by {
        assert pending == chunk + pending[count..];
        Assoc(chunk, pending[count..], later);
      }
      pending := pending[count..];
      assert Rest().data == pending + later;
      return chunk, None;
    }

    /** Takes the peer's stream nonce off the front of the source, once. */
    method ReadStreamNonce() returns (err: Option<ReadError>)
      requires Valid() && nonce == null
      modifies Repr()
      ensures Valid() && fresh(Repr() - old(Repr()))
      ensures err.None? ==> nonce != null && pending == [] && frameCount == 0 && Rest() == old(Rest())
      ensures err.None? ==> |source.Rest().data| <= |old(source.Rest()).data|
      ensures err.Some? ==> old(Rest()).data == []
      decreases 20
    {
      var first, e := ReadFull(Peeked(source), NONCE_SIZE);
      if e.Some? {
        return e;
      }
      streamNonce := first;
      nonce := new byte[NONCE_SIZE](i requires 0 <= i < |first| => first[i]);
      assert nonce[..] == first;
      return None;
    }

    /** Reads and authenticates one frame; its plaintext becomes the pending bytes. */
    method ReadFrame() returns (err: Option<ReadError>)
      requires Valid() && pending == []
      modifies Repr()
      ensures Valid() && fresh(Repr() - old(Repr()))
      ensures err.None? ==> Rest() == old(Rest()) && nonce != null
      ensures err.None? ==> |source.Rest().data| + LENGTH_SIZE + OVERHEAD <= |old(source.Rest()).data|
      ensures err.Some? ==> err.value == Unsealable && old(Rest()).data == []
      decreases 26
    {
      if nonce == null {
        var e := ReadStreamNonce();
        if e.Some? {
          return Some(Unsealable);
        }
      }
      err := OpenNext();
    }

    /** Makes the plaintext of the next frame the pending bytes and moves the nonce on. */
    method OpenNext() returns (err: Option<ReadError>)
      requires Valid() && pending == [] && nonce != null
      modifies this, source, source.source, nonce
      ensures Valid() && nonce == old(nonce)
      ensures err.None? ==> Rest() == old(Rest())
      ensures err.None? ==> |source.Rest().data| + LENGTH_SIZE + OVERHEAD <= |old(source.Rest()).data|
      ensures err.Some? ==> err.value == Unsealable && old(Rest()).data == []
      decreases 24
    {
      hide NonceAt, Value;
      ghost var body := source.Rest().data;
      assert Rest().data == OpenFrames(cipher, streamNonce, frameCount, body);
      var frame := ReadSealed();
      if frame.None? {
        return Some(Unsealable);
      }
      ghost var others := OpenFrames(cipher, streamNonce, frameCount + 1, source.Rest().data);
      assert old(Rest()).data == frame.value.plain + others;
      Advance(frame.value.plain);
      assert Rest().data == frame.value.plain + others;
      return None;
    }

    /** The next frame has been opened. */
    method Advance(plain: bytes)
      requires Valid() && nonce != null
      modifies this`frameCount, this`pending, nonce
      ensures Valid() && frameCount == old(frameCount) + 1 && pending == plain
    {
      hide Next;
      Increment(nonce);
      frameCount, pending := frameCount + 1, plain;
    }

    /** Takes one frame off the source and opens it with the current nonce. */
    method ReadSealed() returns (frame: Option<Opened>)
      requires Valid() && nonce != null
      modifies source, source.source
      ensures source.Valid()
      ensures frame == OpenFrame(cipher, streamNonce, frameCount, old(source.Rest()).data)
      ensures frame.Some? ==> source.Rest().data == old(source.Rest()).data[frame.value.used..]
      decreases 20
    {
      ghost var body := source.Rest().data;
      var header, e := ReadFull(Peeked(source), LENGTH_SIZE);
      if e.Some? {
        return None;
      }
      var declared := Value(header);
      if declared < OVERHEAD || declared > MAX_PLAINTEXT + OVERHEAD {
        return None;
      }
      assert source.Rest().data == body[LENGTH_SIZE..];
      var box, e' := ReadFull(Peeked(source), declared);
      if e'.Some? {
        return None;
      }
      assert box == body[LENGTH_SIZE..LENGTH_SIZE + declared];
      var plain := cipher.open(nonce[..], box, streamNonce + header);
      if plain.None? {
        return None;
      }
      assert source.Rest().data == body[LENGTH_SIZE + declared..];
      return Some(Opened(plain.value, LENGTH_SIZE + declared));
    }
  }

  /** The outbound side of a connection: everything handed to it so far. A write that fails
      may have sent part of its bytes. */
  class Sink {
    var sent: bytes
    /** How often it was written to, and which of the writes fail. */
    var writes: nat
    const fails: nat -> bool

    /** One of the writes from the first number up to the second failed. */
    ghost predicate Failed(from: nat, to: nat) { exists k :: from <= k < to && fails(k) }

    constructor (fails: nat -> bool)
      ensures sent == [] && writes == 0 && this.fails == fails
    {
      sent, writes, this.fails := [], 0, fails;
    }

    method Write(data: bytes) returns (ok: bool)
      modifies this
      ensures writes == old(writes) + 1 && (ok <==> !fails(old(writes)))
      ensures ok ==> sent == old(sent) + data
      ensures !ok ==> old(sent) <= sent <= old(sent) + data
    {
      ok, writes := !fails(writes), writes + 1;
      var part: nat :| part <= |data|;
      sent := sent + if ok then data else data[..part];
    }
  }

  /** The encrypting writer. `chunks` is the plaintext of the frames it has sealed and `base`
      what the connection had already sent when encryption was switched on. */
  class AeadWriter {
    const target: Sink
    const cipher: Cipher
    const streamNonce: bytes
    const nonce: array<byte>
    var headerSent: bool
    ghost const base: bytes
    ghost var chunks: seq<bytes>

    ghost function Wire(): bytes
      reads this
    {
      streamNonce + SealFrames(cipher, streamNonce, 0, chunks)
    }

    ghost predicate Valid()
      reads this, target, nonce
    {
      && |streamNonce| == NONCE_SIZE && nonce[..] == NonceAt(streamNonce, |chunks|)
      && Fits(chunks)
      && (!headerSent ==> chunks == [])
      && target.sent == base + if headerSent then Wire() else []
    }

    constructor (target: Sink, cipher: Cipher, random: bytes)
      requires |random| == NONCE_SIZE
      ensures Valid() && fresh(nonce) && !headerSent && chunks == []
      ensures this.target == target && this.cipher == cipher && streamNonce == random && base == target.sent
    {
      this.target, this.cipher, streamNonce := target, cipher, random;
      nonce := new byte[NONCE_SIZE](i requires 0 <= i < |random| => random[i]);
      headerSent, base, chunks := false, target.sent, [];
      new;
      assert nonce[..] == random;
    }

    /** Cuts the payload into frames and sends them. Success sends exactly the payload after
        what went before; a failure leaves a part of a correctly sealed stream on the wire. */
    method Write(payload: bytes) returns (written: nat, ok: bool)
      requires Valid()
      modifies this, target, nonce
      ensures ok ==> Valid() && written == |payload| && Flatten(chunks) == old(Flatten(chunks)) + payload
      ensures !ok ==> written < |payload| && old(Flatten(chunks)) + payload[..written] <= Flatten(chunks)
      ensures !ok ==> Flatten(chunks) <= old(Flatten(chunks)) + payload
      ensures Fits(chunks) && base <= target.sent <= base + Wire()
      ensures target.writes >= old(target.writes) && (ok <==> !target.Failed(old(target.writes), target.writes))
      ensures ok ==> |payload| <= (|chunks| - |old(chunks)|) * MAX_PLAINTEXT < |payload| + MAX_PLAINTEXT
    {
      hide NonceAt, SealFrames, Flatten;
      written, ok := 0, true;
      var left := payload;
      ghost var before := Flatten(chunks);
      while |left| > 0
        invariant Valid() && written + |left| == |payload| && left == payload[written..]
        invariant Flatten(chunks) == before + payload[..written]
        invariant target.writes >= old(target.writes) && !target.Failed(old(target.writes), target.writes)
        invariant left != [] ==> (|chunks| - |old(chunks)|) * MAX_PLAINTEXT == written
        invariant written <= (|chunks| - |old(chunks)|) * MAX_PLAINTEXT < written + MAX_PLAINTEXT
      {
        var chunk := if |left| > MAX_PLAINTEXT then left[..MAX_PLAINTEXT] else left;
        Pieces(before, payload, written, chunk);
        ok := WriteFrame(chunk);
        if !ok {
          return;
        }
        written, left := written + |chunk|, left[|chunk|..];
      }
      assert payload[..written] == payload;
    }

    method WriteFrame(plain: bytes) returns (ok: bool)
      requires Valid() && |plain| <= MAX_PLAINTEXT
      modifies this, target, nonce
      ensures chunks == old(chunks) + [plain] && Fits(chunks)
      ensures Flatten(chunks) == old(Flatten(chunks)) + plain
      ensures ok ==> Valid()
      ensures base <= target.sent <= base + Wire()
      ensures target.writes >= old(target.writes) && (ok <==> !target.Failed(old(target.writes), target.writes))
    {
      WireGrows(cipher, streamNonce, chunks, plain);
      ghost var frame := SealFrame(cipher, streamNonce, |chunks|, plain);
      ok := SendStreamNonce();
      if ok {
        ok := SealAndSend(plain);
      } else {
        Within(base, target.sent, streamNonce, frame);
        chunks := chunks + [plain];
      }
    }

    method SealAndSend(plain: bytes) returns (ok: bool)
      requires Valid() && headerSent && |plain| <= MAX_PLAINTEXT
      modifies this`chunks, target, nonce
      ensures chunks == old(chunks) + [plain] && Fits(chunks)
      ensures ok ==> Valid() && headerSent
      ensures base <= target.sent <= base + Wire()
      ensures target.writes >= old(target.writes) && (ok <==> !target.Failed(old(target.writes), target.writes))
    {
      hide NonceAt, SealFrame, SealFrames, Flatten;
      ghost var wire, frame := Wire(), SealFrame(cipher, streamNonce, |chunks|, plain);
      WireGrows(cipher, streamNonce, chunks, plain);
      Grown(base, wire, frame);
      var sealing := Seal(plain);
      ok := target.Write(sealing);
      chunks := chunks + [plain];
      assert Wire() == wire + frame;
      if ok {
        assert target.sent == base + Wire();
        assert Valid();
      }
    }

    /** Seals the next frame and moves the nonce on. */
    method Seal(plain: bytes) returns (frame: bytes)
      requires nonce[..] == NonceAt(streamNonce, |chunks|)
      modifies nonce
      ensures frame == SealFrame(cipher, streamNonce, |chunks|, plain)
      ensures nonce[..] == NonceAt(streamNonce, |chunks| + 1)
    {
      var header := BigEndian(|plain| + OVERHEAD, LENGTH_SIZE);
      frame := header + cipher.seal(nonce[..], plain, streamNonce + header);
      Increment(nonce);
    }

    /** Sends the stream nonce ahead of the first frame. */
    method SendStreamNonce() returns (ok: bool)
      requires Valid()
      modifies this`headerSent, target
      ensures ok ==> Valid() && headerSent
      ensures !ok ==> chunks == [] && base <= target.sent <= base + streamNonce
      ensures target.writes >= old(target.writes) && (ok <==> !target.Failed(old(target.writes), target.writes))
    {
      ok := true;
      if !headerSent {
        ok := target.Write(streamNonce);
        headerSent := ok;
        assert streamNonce + [] == streamNonce;
      }
    }
  }

  lemma Pieces(before: bytes, payload: bytes, at: nat, chunk: bytes)
    requires at + |chunk| <= |payload| && chunk == payload[at..at + |chunk|]
    ensures before + payload[..at] + chunk == before + payload[..at + |chunk|]
    ensures before + payload[..at] <= before + payload[..at + |chunk|] <= before + payload
  {
    assert payload[..at] + chunk == payload[..at + |chunk|];
    assert before + payload == before + payload[..at + |chunk|] + payload[at + |chunk|..];
  }

  lemma WireGrows(c: Cipher, start: bytes, chunks: seq<bytes>, plain: bytes)
    ensures start + SealFrames(c, start, 0, chunks + [plain])
         == start + SealFrames(c, start, 0, chunks) + SealFrame(c, start, |chunks|, plain)
    ensures Flatten(chunks + [plain]) == Flatten(chunks) + plain
    ensures chunks == [] ==> start + SealFrames(c, start, 0, chunks) == start
  {
    FlattenAppend(chunks, plain);
    SealFramesAppend(c, start, 0, chunks, plain);
  }

  lemma Grown(base: bytes, wire: bytes, frame: bytes)
    ensures base + wire + frame == base + (wire + frame) && base <= base + wire
  {}

  lemma Within(base: bytes, got: bytes, some: bytes, more: bytes)
    requires base <= got <= base + some
    ensures base <= got <= base + (some + more)
  {
    assert base + (some + more) == base + some + more;
  }

  /** The reader of the v1 cipher: the IV comes first, then every octet read is unmasked. */
  class MaskReader {
    const source: PeekReader
    const cipher: Feedback
    var iv: Option<bytes>
    var past: bytes

    ghost predicate Valid()
      reads this, source
    {
      source.Valid() && (iv.None? ==> past == [])
    }

    ghost function Rest(): Stream
      reads this, source, source.source
      requires Valid()
    {
      Behind(cipher, iv, past, source.Rest())
    }

    constructor (source: PeekReader, cipher: Feedback)
      requires source.Valid()
      ensures Valid() && this.source == source && this.cipher == cipher && iv == None
    {
      this.source, this.cipher, iv, past := source, cipher, None, [];
    }

    /** Takes the peer's IV off the front, once. */
    method Initialize() returns (err: Option<ReadError>)
      requires Valid() && iv == None
      modifies this`iv, source, source.source
      ensures Valid() && Rest() == old(Rest())
      ensures err.None? ==> iv.Some?
      ensures err.Some? ==> err.value == Unsealable && Rest() == Stream([], Unsealable)
      decreases 20
    {
      ghost var all := source.Rest();
      var first, e := ReadFull(Peeked(source), IV_SIZE);
      if e.Some? {
        assert source.Rest().data == [];
        return Some(Unsealable);
      }
      assert source.Rest().data == all.data[IV_SIZE..];
      iv := Some(first);
      return None;
    }

    method Read(size: nat) returns (chunk: bytes, err: Option<ReadError>)
      requires Valid()
      modifies this, source, source.source
      ensures Valid() && |chunk| <= size && old(Rest()) == Stream(chunk + Rest().data, Rest().end)
      ensures err.Some? ==> Rest() == Stream([], err.value)
      ensures size > 0 && chunk == [] ==> err.Some?
      decreases 27
    {
      if iv.None? {
        var e := Initialize();
        if e.Some? {
          return [], e;
        }
      }
      var raw;
      raw, err := source.Read(size);
      UnmaskedInPieces(cipher, iv.value, past, raw, source.Rest().data);
      chunk := Unmasked(cipher, iv.value, past, raw);
      past := past + raw;
    }
  }

  /** What a masking reader gives of the stream it reads from. */
  function Behind(c: Feedback, iv: Option<bytes>, past: bytes, s: Stream): Stream {
    if iv.Some? then Stream(Unmasked(c, iv.value, past, s.data), s.end)
    else if |s.data| < IV_SIZE then Stream([], Unsealable)
    else Stream(OpenMasked(c, s.data), s.end)
  }

  /** Any of the stacked readers. */
  datatype Reader =
    | Conn(conn: Transport)
    | Peeked(peeker: PeekReader)
    | Sealed(box: AeadReader)
    | Masking(mask: MaskReader)
  {
    ghost predicate Valid()
      reads Objects(), if Sealed? then {box.source} else {}
    {
      match this
      case Conn(_) => true
      case Peeked(p) => p.Valid()
      case Sealed(b) => b.Valid()
      case Masking(m) => m.Valid()
    }

    ghost function Objects(): set<object>
      reads if Sealed? then {box} else {}
    {
      match this
      case Conn(t) => {t}
      case Peeked(p) => {p, p.source}
      case Sealed(b) => b.Repr()
      case Masking(m) => {m, m.source, m.source.source}
    }

    ghost function Rest(): Stream
      reads Objects()
      requires Valid()
    {
      match this
      case Conn(t) => Stream(t.rest, t.end)
      case Peeked(p) => p.Rest()
      case Sealed(b) => b.Rest()
      case Masking(m) => m.Rest()
    }

    ghost function Layer(): nat {
      match this
      case Conn(_) => 0
      case Peeked(_) => 1
      case Sealed(_) => 2
      case Masking(_) => 2
    }

    method Read(size: nat) returns (chunk: bytes, err: Option<ReadError>)
      requires Valid()
      modifies Objects()
      ensures Valid() && fresh(Objects() - old(Objects()))
      ensures |chunk| <= size
      ensures err.None? || !Sealed? ==> old(Rest()) == Stream(chunk + Rest().data, Rest().end)
      ensures err.Some? ==> old(Rest()) == Stream(chunk, err.value) && (Sealed? ==> chunk == [])
      ensures size > 0 && chunk == [] ==> err.Some?
      decreases Layer() * 10 + 8
    {
      match this {
        case Conn(t) => chunk, err := t.Read(size);
        case Peeked(p) => chunk, err := p.Read(size);
        case Sealed(b) => chunk, err := b.Read(size);
        case Masking(m) => chunk, err := m.Read(size);
      }
    }
  }

  /** Reads until `size` bytes are there or the reader reports an error. Whatever the chunks it
      gets, the result is a function of the stream alone. */
  method ReadFull(reader: Reader, size: nat) returns (data: bytes, err: Option<ReadError>)
    requires reader.Valid()
    modifies reader.Objects()
    ensures reader.Valid() && fresh(reader.Objects() - old(reader.Objects()))
    ensures (data, err) == FullRead(old(reader.Rest()), size)
    ensures err.None? || !reader.Sealed? ==> old(reader.Rest()) == Stream(data + reader.Rest().data, reader.Rest().end)
    decreases reader.Layer() * 10 + 9
  {
    data, err := [], None;
    ghost var all := reader.Rest();
    while |data| < size && err.None?
      invariant reader.Valid() && fresh(reader.Objects() - old(reader.Objects()))
      invariant |data| <= size
      invariant err.None? || !reader.Sealed? ==> all.data == data + reader.Rest().data && all.end == reader.Rest().end
      invariant err.Some? ==> all == Stream(data, err.value) && (reader.Sealed? ==> |data| < size)
      decreases size - |data|, err.None?
    {
      var chunk, e := reader.Read(size - |data|);
      Assoc(data, chunk, reader.Rest().data);
      data, err := data + chunk, e;
    }
    if |data| >= size {
      err := None;
    } else if data != [] && err == Some(EOF) {
      err := Some(UnexpectedEOF);
    }
  }
}
