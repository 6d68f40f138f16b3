/** The head of an HTTP request, read so that the target still gets every byte. */
module RequestHead {
  import opened Wrappers
  import opened Bytes
  import opened Streams

  const CR: byte := 13
  const LF: byte := 10
  const REQUEST_LINE_LIMIT := 8192

  /** The last line is empty; a line ends in LF or CR LF. */
  predicate EndsBlank(b: bytes) {
    |b| >= 2 && b[|b| - 1] == LF && (b[|b| - 2] == LF || (|b| >= 3 && b[|b| - 2] == CR && b[|b| - 3] == LF))
  }

  /** The four endings the scan looks for. */
  function HeaderBlockComplete(b: bytes): (r: bool)
    ensures r <==> EndsBlank(b)
  {
    var n := |b|;
    || (n >= 4 && b[n - 4] == CR && b[n - 3] == LF && b[n - 2] == CR && b[n - 1] == LF)
    || (n >= 2 && b[n - 2] == LF && b[n - 1] == LF)
    || (n >= 3 && b[n - 3] == LF && b[n - 2] == CR && b[n - 1] == LF)
    || (n >= 3 && b[n - 3] == CR && b[n - 2] == LF && b[n - 1] == LF)
  }

  datatype HeadError = ConnectionEnded(cause: ReadError) | TooLong

  /** No prefix of `s` of at most `n` bytes is a head. */
  predicate NoHeadWithin(s: bytes, n: int) {
    forall k :: 0 <= k <= n && k <= |s| ==> !EndsBlank(s[..k])
  }

  /** Reads the shortest prefix of the request that ends in a blank line, a byte at a time and no
      byte more. There is one exactly if the result is a head; otherwise the connection has ended
      or more bytes than allowed have gone by. */
  method ReadHeaderBlock(guest: Transport) returns (head: Option<bytes>, err: Option<HeadError>)
    modifies guest
    ensures head.Some? <==> err.None?
    ensures head.Some? ==> EndsBlank(head.value) && 2 <= |head.value| <= REQUEST_LINE_LIMIT + 1
    ensures head.Some? ==> old(guest.rest) == head.value + guest.rest
    ensures head.Some? ==> NoHeadWithin(old(guest.rest), |head.value| - 1)
    ensures head.None? ==> NoHeadWithin(old(guest.rest), REQUEST_LINE_LIMIT + 1)
    ensures err == Some(TooLong) ==>
              |old(guest.rest)| > REQUEST_LINE_LIMIT && guest.rest == old(guest.rest)[REQUEST_LINE_LIMIT + 1..]
    ensures err.Some? && err.value.ConnectionEnded? ==>
              |old(guest.rest)| <= REQUEST_LINE_LIMIT && guest.rest == [] && err.value.cause == guest.end
  {
    var block: bytes := [];
    ghost var all := guest.rest;
    while |block| <= REQUEST_LINE_LIMIT
      invariant |block| <= REQUEST_LINE_LIMIT + 1 && all == block + guest.rest
      invariant NoHeadWithin(all, |block|)
      decreases REQUEST_LINE_LIMIT + 1 - |block|
    {
      var buffer, e := ReadFull(Conn(guest), 1);
      if e.Some? {
        assert all == block;
        return None, Some(ConnectionEnded(e.value));
      }
      ghost var before := block;
      block := block + buffer;
      NextPrefix(all, before, buffer, guest.rest);
      if HeaderBlockComplete(block) {
        return Some(block), None;
      }
      NoHeadMore(all, |before|);
    }
    assert guest.rest == all[|block|..];
    return None, Some(TooLong);
  }

  lemma NextPrefix(all: bytes, before: bytes, buffer: bytes, rest: bytes)
    requires all == before + (buffer + rest)
    ensures all == before + buffer + rest && all[..|before + buffer|] == before + buffer
  {
    assert before + (buffer + rest) == before + buffer + rest;
  }

  lemma NoHeadMore(all: bytes, n: nat)
    requires n < |all| && NoHeadWithin(all, n) && !EndsBlank(all[..n + 1])
    ensures NoHeadWithin(all, n + 1)
  {}
}
