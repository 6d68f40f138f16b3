/** The framed AEAD channel of wire v2, as bytes: frame layout, nonces, and what a stream
    of such frames opens to. The cipher itself is a pair of functions (section 2 of
    RFC 5116 gives the law they obey). */
module Aead {
  import opened Wrappers
  import opened Bytes

  const NONCE_SIZE: nat := 12
  const OVERHEAD: nat := 16
  const LENGTH_SIZE: nat := 4
  const MAX_PLAINTEXT: nat := 65536

  /** `seal(nonce, plaintext, aad)` and `open(nonce, ciphertext, aad)`. */
  datatype Cipher = Cipher(seal: (bytes, bytes, bytes) -> bytes, open: (bytes, bytes, bytes) -> Option<bytes>)

  ghost predicate Lawful(c: Cipher) {
    forall nonce: bytes, plain: bytes, aad: bytes {:trigger c.seal(nonce, plain, aad)} ::
      |c.seal(nonce, plain, aad)| == |plain| + OVERHEAD
      && c.open(nonce, c.seal(nonce, plain, aad), aad) == Some(plain)
  }

  /** One more, as a number of the same width, wrapping at the top. */
  function Next(nonce: bytes): (n: bytes)
    ensures |n| == |nonce|
  {
    BigEndian(Value(nonce) + 1, |nonce|)
  }

  /** The nonce of frame number `count` in a stream started with `start`. */
  function NonceAt(start: bytes, count: nat): (n: bytes)
    ensures |n| == |start|
  {
    if count == 0 then start else Next(NonceAt(start, count - 1))
  }

  /** Adds one in place, carrying towards the front and wrapping at the top. */
  method Increment(nonce: array<byte>)
    modifies nonce
    ensures nonce[..] == Next(old(nonce[..]))
  {
    var index := nonce.Length;
    ghost var was := nonce[..];
    while index > 0
      invariant 0 <= index <= nonce.Length
      invariant nonce[..index] == was[..index]
      invariant forall k :: index <= k < nonce.Length ==> nonce[k] == 0 && was[k] == 255
    {
      index := index - 1;
      nonce[index] := (nonce[index] as int + 1) % 256;
      if nonce[index] != 0 {
        assert nonce[..index] == was[..index];
        Carry(was, nonce[..], index);
        BigEndianOfValue(nonce[..]);
        return;
      }
    }
    Wrapped(was);
    assert nonce[..] == seq(nonce.Length, _ => 0);
  }

  lemma {:induction false} Carry(was: bytes, now: bytes, at: nat)
    requires |was| == |now| && at < |was|
    requires was[..at] == now[..at] && now[at] as int == was[at] as int + 1
    requires forall k :: at < k < |was| ==> now[k] == 0 && was[k] == 255
    ensures Value(now) == Value(was) + 1
  {
    var n := |was| - 1;
    if at < n {
      assert was[..n][..at] == was[..at] && now[..n][..at] == now[..at];
      Carry(was[..n], now[..n], at);
    } else {
      assert was[..n] == now[..n];
    }
  }

  lemma {:induction false} Wrapped(was: bytes)
    requires forall k :: 0 <= k < |was| ==> was[k] == 255
    ensures BigEndian(Value(was) + 1, |was|) == seq(|was|, _ => 0)
  {
    if was != [] {
      var high := was[..|was| - 1];
      Wrapped(high);
      assert (Value(was) + 1) / 256 == Value(high) + 1 && (Value(was) + 1) % 256 == 0;
    }
  }

  /** Adding to a number cut to `width` octets and cutting again is adding to the number. */
  lemma {:induction false} AddAfterCut(v: nat, k: nat, width: nat)
    ensures BigEndian(Value(BigEndian(v, width)) + k, width) == BigEndian(v + k, width)
    decreases width
  {
    if width == 0 {
      assert BigEndian(Value(BigEndian(v, width)) + k, width) == [];
    } else {
      hide BigEndian, Value;
      var q, r := Split(v);
      AddAfterCut(q, (r + k) / 256, width - 1);
      AddDigit(v, q, r, k, width);
    }
  }

  lemma Split(v: nat) returns (q: nat, r: byte)
    ensures v == q * 256 + r
  {
    q, r := v / 256, v % 256;
  }

  lemma AddDigit(v: nat, q: nat, r: byte, k: nat, width: nat)
    requires width > 0 && v == q * 256 + r
    requires BigEndian(Value(BigEndian(q, width - 1)) + (r + k) / 256, width - 1) ==
             BigEndian(q + (r + k) / 256, width - 1)
    ensures BigEndian(Value(BigEndian(v, width)) + k, width) == BigEndian(v + k, width)
  {
    hide BigEndian, Value;
    var high := BigEndian(q, width - 1);
    assert Value(BigEndian(q * 256 + r, width)) == Value(high) * 256 + r by {
      LastDigit(q, r, width);
      ValueOfLast(high, r);
    }
    SumOfDigits(Value(high), r, k, width);
    SumOfDigits(q, r, k, width);
  }

  lemma SumOfDigits(q: nat, r: byte, k: nat, width: nat)
    requires width > 0
    ensures BigEndian(q * 256 + r + k, width) == BigEndian(q + (r + k) / 256, width - 1) + [(r + k) % 256]
  {
    LastDigit(q + (r + k) / 256, (r + k) % 256, width);
    assert q * 256 + r + k == (q + (r + k) / 256) * 256 + (r + k) % 256;
  }

  lemma LastDigit(q: nat, digit: byte, width: nat)
    requires width > 0
    ensures BigEndian(q * 256 + digit, width) == BigEndian(q, width - 1) + [digit]
  {
    assert (q * 256 + digit) / 256 == q && (q * 256 + digit) % 256 == digit;
  }

  lemma ValueOfLast(s: bytes, digit: byte)
    ensures Value(s + [digit]) == Value(s) * 256 + digit
  {
    assert (s + [digit])[..|s|] == s;
  }

  lemma {:induction false} NonceNumber(start: bytes, count: nat)
    ensures NonceAt(start, count) == BigEndian(Value(start) + count, |start|)
  {
    if count == 0 {
      BigEndianOfValue(start);
    } else {
      NonceNumber(start, count - 1);
      AddAfterCut(Value(start) + count - 1, 1, |start|);
    }
  }

  /** Two frames of one stream share a nonce exactly when their numbers differ by a multiple
      of 256^12; so none repeats within 256^12 frames. */
  lemma NonceRepeats(start: bytes, i: nat, j: nat)
    requires i < j
    ensures NonceAt(start, i) == NonceAt(start, j) <==> (j - i) % Pow256(|start|) == 0
    ensures j - i < Pow256(|start|) ==> NonceAt(start, i) != NonceAt(start, j)
  {
    NonceNumber(start, i);
    NonceNumber(start, j);
    AgreeWhenDivides(Value(start) + i, Value(start) + j, |start|);
    SmallDifference(j - i, Pow256(|start|));
  }

  lemma {:induction false} AgreeWhenDivides(a: nat, b: nat, width: nat)
    requires a <= b
    ensures BigEndian(a, width) == BigEndian(b, width) <==> (b - a) % Pow256(width) == 0
    decreases width
  {
    if width > 0 {
      var x, y := BigEndian(a, width), BigEndian(b, width);
      assert x == BigEndian(a / 256, width - 1) + [a % 256] && y == BigEndian(b / 256, width - 1) + [b % 256];
      assert x == y <==> x[..width - 1] == y[..width - 1] && x[width - 1] == y[width - 1];
      assert x[..width - 1] == BigEndian(a / 256, width - 1) && y[..width - 1] == BigEndian(b / 256, width - 1);
      AgreeWhenDivides(a / 256, b / 256, width - 1);
      DividesStep(a, b, Pow256(width - 1));
    }
  }

  lemma DividesStep(a: nat, b: nat, m: nat)
    requires a <= b && m > 0
    ensures (b - a) % (256 * m) == 0 <==> a % 256 == b % 256 && (b / 256 - a / 256) % m == 0
  {
    DivModStep(b - a, m);
    if a % 256 == b % 256 { assert (b - a) / 256 == b / 256 - a / 256 && (b - a) % 256 == 0; }
  }

  lemma SmallDifference(d: nat, m: nat)
    requires d > 0 && m > 0
    ensures d < m ==> d % m != 0
  {
    if d < m { SmallMod(d, m); }
  }

  /** One frame: length of the sealed text, then the sealed text. The stream nonce and the
      length are authenticated with it. */
  function SealFrame(c: Cipher, start: bytes, count: nat, plain: bytes): bytes {
    var header := BigEndian(|plain| + OVERHEAD, LENGTH_SIZE);
    header + c.seal(NonceAt(start, count), plain, start + header)
  }

  function SealFrames(c: Cipher, start: bytes, count: nat, chunks: seq<bytes>): bytes
    decreases |chunks|
  {
    if chunks == [] then []
    else SealFrame(c, start, count, chunks[0]) + SealFrames(c, start, count + 1, chunks[1..])
  }

  function Flatten(chunks: seq<bytes>): bytes {
    if chunks == [] then [] else chunks[0] + Flatten(chunks[1..])
  }

  datatype Opened = Opened(plain: bytes, used: nat)

  /** The frame at the front of `input`, if it is complete, of legal length and authentic. */
  function OpenFrame(c: Cipher, start: bytes, count: nat, input: bytes): (f: Option<Opened>)
    ensures f.Some? ==> LENGTH_SIZE + OVERHEAD <= f.value.used <= |input|
  {
    if |input| < LENGTH_SIZE then None else
    var declared := Value(input[..LENGTH_SIZE]);
    if declared < OVERHEAD || declared > MAX_PLAINTEXT + OVERHEAD || |input| < LENGTH_SIZE + declared then None else
    var box := input[LENGTH_SIZE..LENGTH_SIZE + declared];
    match c.open(NonceAt(start, count), box, start + input[..LENGTH_SIZE])
    case None => None
    case Some(plain) => Some(Opened(plain, LENGTH_SIZE + declared))
  }

  /** All the plaintext that can be read from `input`. Every frame takes at least
      twenty octets, so this terminates. */
  function OpenFrames(c: Cipher, start: bytes, count: nat, input: bytes): bytes
    decreases |input|
  {
    match OpenFrame(c, start, count, input)
    case None => []
    case Some(f) => f.plain + OpenFrames(c, start, count + 1, input[f.used..])
  }

  /** What a reader can get from the bytes of a whole channel, stream nonce included. */
  function OpenChannel(c: Cipher, input: bytes): bytes {
    if |input| < NONCE_SIZE then [] else OpenFrames(c, input[..NONCE_SIZE], 0, input[NONCE_SIZE..])
  }

  predicate Fits(chunks: seq<bytes>) {
    forall k :: 0 <= k < |chunks| ==> |chunks[k]| <= MAX_PLAINTEXT
  }

  lemma OpenSealedFrame(c: Cipher, start: bytes, count: nat, plain: bytes, rest: bytes)
    requires Lawful(c) && |plain| <= MAX_PLAINTEXT
    ensures OpenFrame(c, start, count, SealFrame(c, start, count, plain) + rest)
         == Some(Opened(plain, |SealFrame(c, start, count, plain)|))
  {
    var header := BigEndian(|plain| + OVERHEAD, LENGTH_SIZE);
    var box := c.seal(NonceAt(start, count), plain, start + header);
    var input := SealFrame(c, start, count, plain) + rest;
    assert input[..LENGTH_SIZE] == header;
    assert input[LENGTH_SIZE..LENGTH_SIZE + |box|] == box;
    Widths();
    ValueOfBigEndianFits(|plain| + OVERHEAD, LENGTH_SIZE);
  }

  /** A cipher that opens only what was sealed. */
  ghost predicate Authentic(c: Cipher) {
    forall nonce: bytes, box: bytes, aad: bytes {:trigger c.open(nonce, box, aad)} ::
      c.open(nonce, box, aad).Some? ==> box == c.seal(nonce, c.open(nonce, box, aad).value, aad)
  }

  /** With such a cipher the reader takes just what the writer sends: a frame of at most the permitted
      plaintext, sealed for its place in the stream. */
  lemma OpensExactly(c: Cipher, start: bytes, count: nat, input: bytes, plain: bytes, used: nat)
    requires Lawful(c) && Authentic(c)
    ensures OpenFrame(c, start, count, input) == Some(Opened(plain, used)) <==>
            && |plain| <= MAX_PLAINTEXT && SealFrame(c, start, count, plain) <= input
            && used == |SealFrame(c, start, count, plain)|
  {
    var frame := SealFrame(c, start, count, plain);
    if |plain| <= MAX_PLAINTEXT && frame <= input {
      OpenSealedFrame(c, start, count, plain, input[|frame|..]);
      assert frame + input[|frame|..] == input;
    }
    if OpenFrame(c, start, count, input) == Some(Opened(plain, used)) {
      BigEndianOfValue(input[..LENGTH_SIZE]);
      assert frame == input[..LENGTH_SIZE] + input[LENGTH_SIZE..used] == input[..used];
    }
  }

  /** A cipher whose sealed text opens under its own nonce and associated data only. */
  ghost predicate Binding(c: Cipher) {
    forall nonce: bytes, plain: bytes, aad: bytes, nonce': bytes, aad': bytes
      {:trigger c.open(nonce', c.seal(nonce, plain, aad), aad')} ::
      c.open(nonce', c.seal(nonce, plain, aad), aad').Some? ==> nonce == nonce' && aad == aad'
  }

  /** A frame is accepted at its own place of its own stream and at no other: one repeated, left out,
      moved, or taken from another stream is not. */
  lemma FrameKeepsItsPlace(c: Cipher, start: bytes, count: nat, plain: bytes, rest: bytes, start': bytes, count': nat)
    requires Lawful(c) && Binding(c) && |plain| <= MAX_PLAINTEXT && |start| == |start'| == NONCE_SIZE
    ensures OpenFrame(c, start', count', SealFrame(c, start, count, plain) + rest).Some? <==>
            start == start' && (count - count') % Pow256(NONCE_SIZE) == 0
  {
    var header := BigEndian(|plain| + OVERHEAD, LENGTH_SIZE);
    var box := c.seal(NonceAt(start, count), plain, start + header);
    Widths();
    ValueOfBigEndianFits(|plain| + OVERHEAD, LENGTH_SIZE);
    SameNonce(start, count, count');
    hide BigEndian, Value, NonceAt, Pow256, OpenFrame;
    BoxOpens(c, start', count', header, box, rest);
    assert (start + header)[..NONCE_SIZE] == start && (start' + header)[..NONCE_SIZE] == start';
  }

  lemma BoxOpens(c: Cipher, start: bytes, count: nat, header: bytes, box: bytes, rest: bytes)
    requires |header| == LENGTH_SIZE && Value(header) == |box| && OVERHEAD <= |box| <= MAX_PLAINTEXT + OVERHEAD
    ensures OpenFrame(c, start, count, header + box + rest).Some? <==>
            c.open(NonceAt(start, count), box, start + header).Some?
  {
    var input := header + box + rest;
    assert input[..LENGTH_SIZE] == header && input[LENGTH_SIZE..LENGTH_SIZE + |box|] == box;
  }

  lemma SameNonce(start: bytes, i: nat, j: nat)
    ensures NonceAt(start, i) == NonceAt(start, j) <==> (i - j) % Pow256(|start|) == 0
  {
    var m := Pow256(|start|);
    if i < j {
      NonceRepeats(start, i, j);
      Negated(j - i, m);
    } else if j < i {
      NonceRepeats(start, j, i);
    } else {
      assert (i - j) % m == 0;
    }
  }

  lemma Negated(d: int, m: nat)
    requires m > 0
    ensures -d % m == 0 <==> d % m == 0
  {
    if d % m == 0 { ModUnique(-d, m, -(d / m), 0); }
    if -d % m == 0 { ModUnique(d, m, -(-d / m), 0); }
  }

  lemma {:induction false} SealFramesAppend(c: Cipher, start: bytes, count: nat, chunks: seq<bytes>, plain: bytes)
    ensures SealFrames(c, start, count, chunks + [plain])
         == SealFrames(c, start, count, chunks) + SealFrame(c, start, count + |chunks|, plain)
    decreases |chunks|
  {
    hide SealFrame;
    if chunks == [] {
      assert [] + [plain] == [plain];
    } else {
      SealFramesAppend(c, start, count + 1, chunks[1..], plain);
      assert (chunks + [plain])[1..] == chunks[1..] + [plain];
      Assoc(SealFrame(c, start, count, chunks[0]), SealFrames(c, start, count + 1, chunks[1..]),
            SealFrame(c, start, count + |chunks|, plain));
    }
  }

  lemma {:induction false} FlattenAppend(chunks: seq<bytes>, plain: bytes)
    ensures Flatten(chunks + [plain]) == Flatten(chunks) + plain
  {
    if chunks == [] {
      assert [] + [plain] == [plain];
    } else {
      FlattenAppend(chunks[1..], plain);
      assert (chunks + [plain])[1..] == chunks[1..] + [plain];
      Assoc(chunks[0], Flatten(chunks[1..]), plain);
    }
  }

  lemma Assoc(a: bytes, b: bytes, c: bytes)
    ensures a + b + c == a + (b + c)
  {}

  lemma OpenOne(c: Cipher, start: bytes, count: nat, plain: bytes, others: bytes, rest: bytes)
    requires Lawful(c) && |plain| <= MAX_PLAINTEXT
    ensures OpenFrames(c, start, count, SealFrame(c, start, count, plain) + others + rest)
         == plain + OpenFrames(c, start, count + 1, others + rest)
  {
    var frame := SealFrame(c, start, count, plain);
    Assoc(frame, others, rest);
    OpenSealedFrame(c, start, count, plain, others + rest);
    assert (frame + (others + rest))[|frame|..] == others + rest;
  }

  /** Opening a sealed channel gives back the plaintext, whatever follows it that is not a
      further authentic frame. */
  lemma {:induction false} OpenSealed(c: Cipher, start: bytes, count: nat, chunks: seq<bytes>, rest: bytes)
    requires Lawful(c) && Fits(chunks)
    ensures OpenFrames(c, start, count, SealFrames(c, start, count, chunks) + rest)
         == Flatten(chunks) + OpenFrames(c, start, count + |chunks|, rest)
    decreases |chunks|
  {
    if chunks == [] {
      assert [] + rest == rest;
    } else {
      OpenSealed(c, start, count + 1, chunks[1..], rest);
      OpenOneMore(c, start, count, chunks, rest, OpenFrames(c, start, count + |chunks|, rest));
    }
  }

  lemma OpenOneMore(c: Cipher, start: bytes, count: nat, chunks: seq<bytes>, rest: bytes, last: bytes)
    requires Lawful(c) && chunks != [] && |chunks[0]| <= MAX_PLAINTEXT
    requires OpenFrames(c, start, count + 1, SealFrames(c, start, count + 1, chunks[1..]) + rest) ==
             Flatten(chunks[1..]) + last
    ensures OpenFrames(c, start, count, SealFrames(c, start, count, chunks) + rest) == Flatten(chunks) + last
  {
    var others := SealFrames(c, start, count + 1, chunks[1..]);
    OpenOne(c, start, count, chunks[0], others, rest);
    assert SealFrames(c, start, count, chunks) + rest == SealFrame(c, start, count, chunks[0]) + others + rest;
    Assoc(chunks[0], Flatten(chunks[1..]), last);
  }

  /** Bytes that arrive later never change what was already readable: every prefix of the
      bytes in transit opens to a prefix of the plaintext. */
  lemma {:induction false} OpenPrefix(c: Cipher, start: bytes, count: nat, part: bytes, more: bytes)
    ensures OpenFrames(c, start, count, part) <= OpenFrames(c, start, count, part + more)
    decreases |part|
  {
    match OpenFrame(c, start, count, part)
    case None =>
    case Some(f) =>
      var rest := part[f.used..];
      OpenPrefix(c, start, count + 1, rest, more);
      PrefixUnder(f.plain, OpenFrames(c, start, count + 1, rest), OpenFrames(c, start, count + 1, rest + more));
      OpenFramePrefix(c, start, count, part, more);
  }

  lemma OpenFramePrefix(c: Cipher, start: bytes, count: nat, part: bytes, more: bytes)
    requires OpenFrame(c, start, count, part).Some?
    ensures OpenFrame(c, start, count, part + more) == OpenFrame(c, start, count, part)
    ensures OpenFrames(c, start, count, part + more) == OpenFrame(c, start, count, part).value.plain
            + OpenFrames(c, start, count + 1, part[OpenFrame(c, start, count, part).value.used..] + more)
  {
    var whole, used := part + more, OpenFrame(c, start, count, part).value.used;
    assert whole[..LENGTH_SIZE] == part[..LENGTH_SIZE] && whole[LENGTH_SIZE..used] == part[LENGTH_SIZE..used];
    assert whole[used..] == part[used..] + more;
  }

  lemma PrefixUnder(p: bytes, a: bytes, b: bytes)
    requires a <= b
    ensures p + a <= p + b
  {}

  /** The channel law: from any part of the bytes a writer produced a reader gets a prefix of
      the plaintext written, and from all of them exactly the plaintext. */
  lemma ChannelDelivers(c: Cipher, start: bytes, chunks: seq<bytes>, arrived: bytes)
    requires Lawful(c) && |start| == NONCE_SIZE && Fits(chunks)
    requires arrived <= start + SealFrames(c, start, 0, chunks)
    ensures OpenChannel(c, arrived) <= Flatten(chunks)
    ensures arrived == start + SealFrames(c, start, 0, chunks) ==> OpenChannel(c, arrived) == Flatten(chunks)
  {
    hide SealFrames, OpenFrames, Flatten;
    if |arrived| >= NONCE_SIZE {
      var all, body := SealFrames(c, start, 0, chunks), arrived[NONCE_SIZE..];
      assert arrived[..NONCE_SIZE] == start && (start + all)[NONCE_SIZE..] == all;
      AllOpened(c, start, chunks);
      assert body + all[|body|..] == all;
      OpenPrefix(c, start, 0, body, all[|body|..]);
    }
  }

  lemma AllOpened(c: Cipher, start: bytes, chunks: seq<bytes>)
    requires Lawful(c) && Fits(chunks)
    ensures OpenFrames(c, start, 0, SealFrames(c, start, 0, chunks)) == Flatten(chunks)
  {
    hide SealFrames, Flatten;
    OpenSealed(c, start, 0, chunks, []);
    assert SealFrames(c, start, 0, chunks) + [] == SealFrames(c, start, 0, chunks);
    assert OpenFrames(c, start, |chunks|, []) == [];
  }
}
