/**
 The loops that encode and decode frames: the serial emulator's encoder, which writes into a
 bounded buffer and patches code bytes behind itself, the growing encoder of the unit tests,
 the emulator's frame builder, and the service's decoder.
 */
module CobsCodec {
  import opened Cobs

  /** Size of the emulator's frame buffer. */
  const BUFFER: nat := 1024

  /**
   When the bounded encoder succeeds: the encoding is shorter than the buffer, or fills it and
   the last input byte did not open a new block (the encoder wants a spare byte after that).
   */
  predicate Fits(s: seq<byte>, cap: nat) {
    |Encode(s)| < cap || (|Encode(s)| == cap && (s == [] || Open(s) != []))
  }

  /** The emulator's own check that a payload is small enough to send. */
  predicate PassesGuard(payload: seq<byte>) {
    |payload| + |payload| / 254 + 2 <= BUFFER
  }

  // ---------- capacity ----------

  /** What reading byte `x` after `p` does to an encoder. */
  lemma Grow(p: seq<byte>, x: byte)
    ensures |Encode(p)| == |Closed(p)| + 1 + |Open(p)|
    ensures |Encode(p + [x])| == |Closed(p + [x])| + 1 + |Open(p + [x])|
    ensures |Encode(p + [x])| == |Encode(p)| + if x != 0 && |Open(p)| + 1 == FULL then 2 else 1
    ensures |Open(p)| + 1 < FULL && x != 0 ==> Open(p + [x]) == Open(p) + [x] && Closed(p + [x]) == Closed(p)
    ensures x == 0 || |Open(p)| + 1 == FULL ==> Open(p + [x]) == []
    ensures x == 0 ==> Closed(p + [x]) == Closed(p) + [(|Open(p)| + 1) as byte] + Open(p)
    ensures x != 0 && |Open(p)| + 1 == FULL ==> Closed(p + [x]) == Closed(p) + [255] + Open(p) + [x]
  {
    hide Encode, Open, Closed;
    EncodeParts(p);
    EncodeParts(p + [x]);
    if x == 0 { AppendZero(p); } else { AppendData(p, x); }
  }

  lemma MisfitStays(p: seq<byte>, x: byte, cap: nat)
    requires !Fits(p, cap)
    ensures !Fits(p + [x], cap)
  {
    hide Encode, Open, Closed;
    Grow(p, x);
  }

  /** An encoder that ran out of room on a prefix cannot fit the whole input. */
  lemma {:induction false} MisfitGrows(s: seq<byte>, r: nat, cap: nat)
    requires r <= |s| && !Fits(s[..r], cap)
    ensures !Fits(s, cap)
    decreases |s| - r
  {
    hide Encode, Open, Closed, Fits;
    if r < |s| {
      assert s[..r + 1] == s[..r] + [s[r]];
      MisfitStays(s[..r], s[r], cap);
      MisfitGrows(s, r + 1, cap);
    } else {
      assert s[..r] == s;
    }
  }

  /** The emulator's guard always leaves room for the encoding and the delimiter. */
  lemma GuardSuffices(payload: seq<byte>)
    requires PassesGuard(payload)
    ensures Fits(payload, 1024) && |Encode(payload)| < 1024 && |payload| <= 1018
  {
    hide Encode;
    EncodeLength(payload);
  }

  /** When the bounded encoder succeeds, in numbers. */
  lemma FitsExactly(s: seq<byte>, cap: nat)
    ensures var n := |s| + 1 + FullBlocks(s);
            Fits(s, cap) <==> n < cap || (n == cap && (s == [] || TrailingRun(s) % 254 != 0))
  {
    hide Encode, Open, TrailingRun, FullBlocks;
    EncodeLength(s);
    OpenLength(s);
  }

  /**
   The comment above the encoder promises success with one byte less than the guard asks for.
   That holds unless the input ends by opening a block and every 254 bytes filled one.
   */
  lemma CommentedCapacity(s: seq<byte>)
    ensures Fits(s, |s| + |s| / 254 + 1) <==>
            s == [] || TrailingRun(s) % 254 != 0 || FullBlocks(s) < |s| / 254
  {
    hide Encode, Fits, TrailingRun, FullBlocks;
    EncodeLength(s);
    FitsExactly(s, |s| + |s| / 254 + 1);
  }

  /** A single zero byte is enough to break the commented promise. */
  lemma CommentedCapacityFails()
    ensures !Fits([0], 1 + 1 / 254 + 1)
  {
    AppendZero([]);
    assert [] + [0] == [0 as byte];
    CommentedCapacity([0]);
  }

  // ---------- encoders ----------

  /**
   An encoder has read `p` and written `b`: the closed blocks, a code byte at `ci` that is yet to
   be patched, and the data of the open block, whose code byte will be `code`.
   */
  ghost predicate EncoderAt(p: seq<byte>, b: seq<byte>, ci: nat, code: byte) {
    && ci < |b|
    && b[..ci] == Closed(p)
    && b[ci + 1..] == Open(p)
    && code as int == |Open(p)| + 1
  }

  lemma EncoderStarts(y: byte)
    ensures EncoderAt([], [y], 0, 1) && |Encode([])| == 1
  {
  }

  /** A zero closes the block: its code is patched and a new code byte is reserved. */
  lemma ZeroStep(p: seq<byte>, b: seq<byte>, ci: nat, code: byte, y: byte)
    requires EncoderAt(p, b, ci, code)
    ensures EncoderAt(p + [0], b[ci := code] + [y], |b|, 1)
  {
    hide Open, Closed, Encode;
    Grow(p, 0);
    assert b == b[..ci] + [b[ci]] + b[ci + 1..];
  }

  lemma DataStep(p: seq<byte>, b: seq<byte>, ci: nat, code: byte, x: byte)
    requires EncoderAt(p, b, ci, code) && x != 0 && code < 254
    ensures EncoderAt(p + [x], b + [x], ci, code + 1)
  {
    hide Open, Closed, Encode;
    Grow(p, x);
  }

  /** The 254th data byte closes the block with code 0xFF. */
  lemma FullStep(p: seq<byte>, b: seq<byte>, ci: nat, code: byte, x: byte, y: byte)
    requires EncoderAt(p, b, ci, code) && x != 0 && code == 254
    ensures EncoderAt(p + [x], (b + [x])[ci := 255] + [y], |b| + 1, 1)
  {
    hide Open, Closed, Encode;
    Grow(p, x);
    assert b == b[..ci] + [b[ci]] + b[ci + 1..];
  }

  /** Patching the last code byte completes the encoding. */
  lemma EncoderEnds(p: seq<byte>, b: seq<byte>, ci: nat, code: byte)
    requires EncoderAt(p, b, ci, code)
    ensures |b| == |Encode(p)| && b[ci := code] == Encode(p)
  {
    hide Open, Closed, Encode;
    EncodeParts(p);
    assert b == b[..ci] + [b[ci]] + b[ci + 1..];
  }

  /** The emulator's encoder.  `input` is only read; `out` may be null, and longer than `cap`. */
  method EncodeBounded(input: seq<byte>, out: array?<byte>, cap: nat) returns (n: nat)
    requires out != null ==> cap <= out.Length
    modifies out
    ensures n == if out != null && Fits(input, cap) then |Encode(input)| else 0
    ensures n > 0 ==> out != null && n <= cap && out[..n] == Encode(input)
    ensures n > 0 ==> forall i :: n <= i < out.Length ==> out[i] == old(out[i])
    ensures out != null ==> forall i :: cap <= i < out.Length ==> out[i] == old(out[i])
  {
    hide Encode, Open, Closed;
    EncoderStarts(0);
    if out == null || cap == 0 {
      return 0;
    }
    var readIndex, writeIndex, codeIndex := 0, 1, 0;
    var code: byte := 1;
    if cap < 2 && |input| > 0 {
      assert input[..1] == [] + [input[0]];
      Grow([], input[0]);
      MisfitGrows(input, 1, cap);
      return 0;
    }
    EncoderStarts(out[0]);
    assert out[..1] == [out[0]] && input[..0] == [];
    while readIndex < |input|
      invariant 0 <= readIndex <= |input| && writeIndex <= cap
      invariant EncoderAt(input[..readIndex], out[..writeIndex], codeIndex, code)
      invariant Fits(input[..readIndex], cap)
      invariant forall i :: writeIndex <= i < out.Length ==> out[i] == old(out[i])
    {
      ghost var p, b, x, ci, c := input[..readIndex], out[..writeIndex], input[readIndex], codeIndex, code;
      assert input[..readIndex + 1] == p + [x];
      Grow(p, x);
      EncoderEnds(p, b, ci, c);
      if input[readIndex] == 0 {
        out[codeIndex] := code;
        code := 1;
        codeIndex := writeIndex;
        writeIndex := writeIndex + 1;
        readIndex := readIndex + 1;
        if writeIndex >= cap {
          MisfitGrows(input, readIndex, cap);
          return 0;
        }
        ZeroStep(p, b, ci, c, out[codeIndex]);
        assert out[..writeIndex] == b[ci := c] + [out[codeIndex]];
      } else {
        if writeIndex >= cap {
          MisfitGrows(input, readIndex + 1, cap);
          return 0;
        }
        out[writeIndex] := input[readIndex];
        writeIndex := writeIndex + 1;
        readIndex := readIndex + 1;
        code := code + 1;
        assert out[..writeIndex] == b + [x];
        if code == 0xFF {
          out[codeIndex] := code;
          code := 1;
          codeIndex := writeIndex;
          writeIndex := writeIndex + 1;
          if writeIndex >= cap {
            MisfitGrows(input, readIndex, cap);
            return 0;
          }
          FullStep(p, b, ci, c, x, out[codeIndex]);
          assert out[..writeIndex] == (b + [x])[ci := 255] + [out[codeIndex]];
        } else {
          DataStep(p, b, ci, c, x);
        }
      }
    }
    assert input[..readIndex] == input;
    EncoderEnds(input, out[..writeIndex], codeIndex, code);
    ghost var b := out[..writeIndex];
    out[codeIndex] := code;
    assert out[..writeIndex] == b[codeIndex := code];
    n := writeIndex;
  }

  /** The growing encoder the unit tests compare with. */
  method EncodeGrowing(input: seq<byte>) returns (out: seq<byte>)
    ensures out == Encode(input)
  {
    hide Encode, Open, Closed;
    EncoderStarts(0);
    var codeIndex: nat := 0;
    var code: byte := 1;
    out := [0];
    assert input[..0] == [];
    for i := 0 to |input|
      invariant EncoderAt(input[..i], out, codeIndex, code)
    {
      ghost var p := input[..i];
      assert input[..i + 1] == p + [input[i]];
      var b := input[i];
      if b == 0 {
        ZeroStep(p, out, codeIndex, code, 0);
        out := out[codeIndex := code];
        codeIndex := |out|;
        out := out + [0];
        code := 1;
      } else {
        if code == 254 {
          FullStep(p, out, codeIndex, code, b, 0);
        } else {
          DataStep(p, out, codeIndex, code, b);
        }
        out := out + [b];
        code := code + 1;
        if code == 0xFF {
          out := out[codeIndex := code];
          codeIndex := |out|;
          out := out + [0];
          code := 1;
        }
      }
    }
    assert input[..|input|] == input;
    EncoderEnds(input, out, codeIndex, code);
    out := out[codeIndex := code];
  }

  /**
   One frame as the emulator sends it, or none if the payload is longer than 1018 bytes.  A payload that
   passes the guard is always encoded: the error exit after the encoder is never taken.
   */
  method BuildFrame(payload: seq<byte>) returns (frame: Option<seq<byte>>)
    ensures frame == if |payload| <= 1018 then Some(Encode(payload) + [0]) else None
  {
    var enc := new byte[BUFFER];
    if |payload| + |payload| / 254 + 2 > enc.Length {
      return None;
    }
    GuardSuffices(payload);
    var n := EncodeBounded(payload, enc, enc.Length);
    EncodeNonEmpty(payload);
    if n == 0 {
      return None;
    }
    enc[n] := 0;
    n := n + 1;
    assert enc[..n] == enc[..n - 1] + [0];
    frame := Some(enc[..n]);
  }

  // ---------- decoder ----------

  /** What decoding the rest adds to the bytes already produced. */
  ghost function Resume(done: seq<byte>, rest: seq<byte>): Option<seq<byte>> {
    match Decode(rest)
    case None => None
    case Some(d) => Some(done + d)
  }

  lemma ResumeBlock(done: seq<byte>, c: byte, b: seq<byte>, g: seq<byte>)
    requires 0 < c && |b| == c as int - 1
    ensures Resume(done, [c] + b + g) == Resume(done + b + (if c != 255 && g != [] then [0] else []), g)
  {
    hide Decode;
    DecodeOneBlock(c, b, g);
    if Decode(g).Some? {
      var z: seq<byte>, d := if c != 255 && g != [] then [0] else [], Decode(g).value;
      assert done + (b + z + d) == done + b + z + d;
    }
  }

  lemma ResumeEnds(done: seq<byte>, f: seq<byte>)
    ensures f == [] ==> Resume(done, f) == Some(done)
    ensures f != [] && (f[0] == 0 || f[0] as int > |f|) ==> Resume(done, f) == None
    ensures done == [] ==> Resume(done, f) == Decode(f)
  {
    assert done + [] == done;
    assert Decode(f).Some? ==> [] + Decode(f).value == Decode(f).value;
  }

  method DecodeFrame(input: seq<byte>) returns (ok: bool, output: seq<byte>)
    ensures ok <==> Decode(input).Some?
    ensures ok ==> Decode(input) == Some(output)
  {
    hide Decode, Resume;
    output := [];
    var i := 0;
    assert input[0..] == input;
    ResumeEnds([], input);
    while i < |input|
      invariant 0 <= i <= |input|
      invariant Decode(input) == Resume(output, input[i..])
    {
      ghost var from, rest, before := i, input[i..], output;
      ResumeEnds(output, rest);
      var code := input[i];
      if code == 0 {
        return false, output;
      }
      i := i + 1;
      var copyLen := code as int - 1;
      if i + copyLen > |input| {
        return false, output;
      }
      for j := 0 to copyLen
        invariant output == before + input[i..i + j]
      {
        output := output + [input[i + j]];
      }
      i := i + copyLen;
      assert rest == [code] + input[from + 1..i] + input[i..];
      ResumeBlock(before, code, input[from + 1..i], input[i..]);
      assert output + [] == output;
      if code != 0xFF && i < |input| {
        output := output + [0x00];
      }
    }
    ResumeEnds(output, input[i..]);
    ok := true;
  }
}
