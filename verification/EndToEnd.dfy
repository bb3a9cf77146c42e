/** From the emulator's payload to the service's decoded text. */
module EndToEnd {
  import opened Cobs
  import opened CobsCodec
  import opened FrameReader

  /**
   The port delivers the wire frame, then anything: turn `k` brings its last byte, no turn up to
   there fails or is cancelled, and the budget is not spent before it.
   */
  ghost predicate Arrives(wire: seq<byte>, script: seq<Pass>, timeoutMs: int, k: nat) {
    && k < |script|
    && wire <= Stream(script)
    && |Stream(script[..k])| < |wire| <= |Stream(script[..k + 1])|
    && (forall j :: 0 <= j <= k ==> Smooth(script[j]))
    && 50 * Charged(script[..k]) < timeoutMs
  }

  /** Where the first zero of a stream that starts with a zero-free frame and a delimiter falls. */
  lemma FirstZero(e: seq<byte>, s: seq<byte>, a: seq<byte>, c: seq<byte>)
    requires ZeroFree(e) && e + [0] <= s && a + c <= s && |a| <= |e| < |a + c|
    ensures BeforeZero(s) == e && BeforeZero(a + c) == e
    ensures ZeroFree(a) && !ZeroFree(c)
  {
    hide BeforeZero;
    var n := |e|;
    assert forall i :: 0 <= i < n ==> (e + [0])[i] == s[i] == e[i];
    assert forall i :: 0 <= i < |a + c| ==> (a + c)[i] == s[i];
    assert s[n] == (e + [0])[n] == 0;
    BeforeZeroIs(s, e);
    BeforeZeroIs(a + c, e);
    assert forall i :: 0 <= i < |a| ==> a[i] == (a + c)[i] == e[i];
    assert c[n - |a|] == (a + c)[n];
  }

  lemma WireDelivers(payload: seq<byte>, script: seq<Pass>, timeoutMs: int, k: nat)
    requires |Encode(payload)| <= 4096 && Arrives(Encode(payload) + [0], script, timeoutMs, k)
    ensures Delivers(script, timeoutMs)
    ensures BeforeZero(Stream(script)) == Encode(payload)
  {
    hide Encode, BeforeZero, Stream, Charged, Smooth, Chunk;
    EncodeZeroFree(payload);
    EncodeNonEmpty(payload);
    StreamPrefix(script, k + 1);
    assert script[..k + 1][..k] == script[..k] && script[..k + 1][k..] == [script[k]];
    StreamPrefix(script[..k + 1], k);
    OneTurn(script[k]);
    FirstZero(Encode(payload), Stream(script), Stream(script[..k]), Chunk(script[k].poll));
    assert [] + Stream(script[..k]) == Stream(script[..k]) && [] + Stream(script[..k + 1]) == Stream(script[..k + 1]);
    assert DeliversAt(script, Reader(timeoutMs, []), k);
  }

  /**
   Emulator, reader and decoder in a row: every payload the emulator agrees to send comes out
   unchanged, however the port cuts its wire frame into chunks and whatever follows it.
   */
  method Deliver(payload: seq<byte>, script: seq<Pass>, timeoutMs: int, ghost k: nat)
    returns (received: Option<seq<byte>>)
    requires |payload| <= 1018
    requires Arrives(Encode(payload) + [0], script, timeoutMs, k)
    ensures received == Some(payload)
  {
    hide Encode, Decode, Read, Stream, BeforeZero, Arrives;
    GuardSuffices(payload);
    var wire := BuildFrame(payload);
    assert Arrives(wire.value, script, timeoutMs, k);
    WireDelivers(payload, script, timeoutMs, k);
    var end, frame, polls, left := ReadFrame(script, timeoutMs);
    var ok, decoded := DecodeFrame(frame);
    RoundTrip(payload);
    received := if end.Got? && ok then Some(decoded) else None;
  }
}
