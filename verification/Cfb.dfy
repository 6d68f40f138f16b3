/** The stream cipher of the v1 control channel: each octet is masked with something that depends
    on the IV and the ciphertext before it. */
module Cfb {
  import opened Bytes

  const IV_SIZE: nat := 16

  /** `mask(iv, past, plain)` and `unmask(iv, past, masked)`, where `past` is the ciphertext so far. */
  datatype Feedback = Feedback(mask: (bytes, bytes, byte) -> byte, unmask: (bytes, bytes, byte) -> byte)

  ghost predicate Reversible(c: Feedback) {
    forall iv: bytes, past: bytes, b: byte {:trigger c.mask(iv, past, b)} ::
      c.unmask(iv, past, c.mask(iv, past, b)) == b
  }

  function Masked(c: Feedback, iv: bytes, past: bytes, plain: bytes): (r: bytes)
    ensures |r| == |plain|
    decreases |plain|
  {
    if plain == [] then []
    else var b := c.mask(iv, past, plain[0]); [b] + Masked(c, iv, past + [b], plain[1..])
  }

  function Unmasked(c: Feedback, iv: bytes, past: bytes, data: bytes): (r: bytes)
    ensures |r| == |data|
    decreases |data|
  {
    if data == [] then [] else [c.unmask(iv, past, data[0])] + Unmasked(c, iv, past + [data[0]], data[1..])
  }

  /** Every octet is masked with the IV and all the ciphertext before it. */
  lemma {:induction false} MaskedAt(c: Feedback, iv: bytes, past: bytes, plain: bytes, k: nat)
    requires k < |plain|
    ensures var masked := Masked(c, iv, past, plain); masked[k] == c.mask(iv, past + masked[..k], plain[k])
    decreases k
  {
    var masked := Masked(c, iv, past, plain);
    if k == 0 {
      assert past + masked[..0] == past;
    } else {
      MaskedAt(c, iv, past + [masked[0]], plain[1..], k - 1);
      assert past + [masked[0]] + masked[1..][..k - 1] == past + masked[..k];
    }
  }

  lemma {:induction false} UnmaskedMasked(c: Feedback, iv: bytes, past: bytes, plain: bytes)
    requires Reversible(c)
    ensures Unmasked(c, iv, past, Masked(c, iv, past, plain)) == plain
    decreases |plain|
  {
    if plain != [] {
      var b := c.mask(iv, past, plain[0]);
      var all := Masked(c, iv, past, plain);
      assert all[0] == b && all[1..] == Masked(c, iv, past + [b], plain[1..]);
      UnmaskedMasked(c, iv, past + [b], plain[1..]);
    }
  }

  /** Bytes may be unmasked in pieces, in order. */
  lemma {:induction false} UnmaskedInPieces(c: Feedback, iv: bytes, past: bytes, a: bytes, b: bytes)
    ensures Unmasked(c, iv, past, a + b) == Unmasked(c, iv, past, a) + Unmasked(c, iv, past + a, b)
    decreases |a|
  {
    if a == [] {
      assert [] + b == b && past + [] == past;
    } else {
      UnmaskedInPieces(c, iv, past + [a[0]], a[1..], b);
      assert (a + b)[1..] == a[1..] + b && past + [a[0]] + a[1..] == past + a;
    }
  }

  /** What the bytes of a channel, IV first, unmask to; nothing before the IV is complete. */
  function OpenMasked(c: Feedback, input: bytes): bytes {
    if |input| < IV_SIZE then [] else Unmasked(c, input[..IV_SIZE], [], input[IV_SIZE..])
  }

  /** From any part of a masked channel a first part of the text can be read, and all of it from all. */
  lemma MaskedDelivers(c: Feedback, iv: bytes, plain: bytes, arrived: bytes)
    requires Reversible(c) && |iv| == IV_SIZE && arrived <= iv + Masked(c, iv, [], plain)
    ensures OpenMasked(c, arrived) <= plain
    ensures arrived == iv + Masked(c, iv, [], plain) ==> OpenMasked(c, arrived) == plain
  {
    var sent := Masked(c, iv, [], plain);
    UnmaskedMasked(c, iv, [], plain);
    if |arrived| >= IV_SIZE {
      var part := arrived[IV_SIZE..];
      assert arrived[..IV_SIZE] == iv && part == sent[..|part|];
      assert sent == part + sent[|part|..];
      UnmaskedInPieces(c, iv, [], part, sent[|part|..]);
    }
  }
}
