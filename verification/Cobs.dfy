/**
 Consistent Overhead Byte Stuffing as the service and the serial emulator use it
 (Cheshire and Baker, IEEE/ACM Transactions on Networking, 1999).

 `Encode` and `Decode` are written block by block, from the front, and share no state
 with the loops of the C and C++ code; the loops are proved equal to them elsewhere.
 */
module Cobs {
  datatype Option<+T> = None | Some(value: T)

  /** An 8-bit octet. */
  newtype byte = x: int | 0 <= x < 256

  /** The number of data bytes of a full block; its code byte is 0xFF. */
  const FULL: nat := 254

  ghost predicate ZeroFree(s: seq<byte>) {
    forall i :: 0 <= i < |s| ==> s[i] != 0
  }

  /** Length of the leading run of non-zero bytes of `s`, cut off at `cap`. */
  function Run(s: seq<byte>, cap: nat): (k: nat)
    ensures k <= |s| && k <= cap
    ensures ZeroFree(s[..k])
    ensures k < |s| && k < cap ==> s[k] == 0
    decreases cap
  {
    if cap == 0 || s == [] || s[0] == 0 then 0
    else
      var k := 1 + Run(s[1..], cap - 1);
      assert forall i :: 1 <= i < k ==> s[i] == s[1..][i - 1];
      k
  }

  /**
   A block is a code byte c followed by c - 1 data bytes; a block of fewer than 254 data
   bytes stands for them and a zero, except that the last block's zero is implied.  A run
   that fills its block opens another one, empty if nothing follows.
   */
  function Encode(s: seq<byte>): seq<byte>
    decreases |s|
  {
    var k := Run(s, FULL);
    if k == FULL then [255] + s[..k] + Encode(s[k..])
    else if k == |s| then [(k + 1) as byte] + s
    else [(k + 1) as byte] + s[..k] + Encode(s[k + 1..])
  }

  function Decode(f: seq<byte>): Option<seq<byte>>
    decreases |f|
  {
    if f == [] then Some([])
    else if f[0] == 0 || f[0] as int > |f| then None
    else
      var c, rest := f[0], f[f[0] as int..];
      match Decode(rest)
      case None => None
      case Some(d) => Some(f[1..c as int] + (if c != 255 && rest != [] then [0] else []) + d)
  }

  /** The data of the block an encoder has open after reading all of `s`. */
  function Open(s: seq<byte>): (o: seq<byte>)
    ensures |o| < FULL
    decreases |s|
  {
    var k := Run(s, FULL);
    if k == FULL then Open(s[k..])
    else if k == |s| then s
    else Open(s[k + 1..])
  }

  /** The blocks an encoder has closed after reading all of `s`. */
  function Closed(s: seq<byte>): seq<byte>
    decreases |s|
  {
    var k := Run(s, FULL);
    if k == FULL then [255] + s[..k] + Closed(s[k..])
    else if k == |s| then []
    else [(k + 1) as byte] + s[..k] + Closed(s[k + 1..])
  }

  /** How many runs of `s` filled a 254-byte block. */
  function FullBlocks(s: seq<byte>): nat
    decreases |s|
  {
    var k := Run(s, FULL);
    if k == FULL then 1 + FullBlocks(s[k..])
    else if k == |s| then 0
    else FullBlocks(s[k + 1..])
  }

  /** Length of the run of non-zero bytes that `s` ends with. */
  function TrailingRun(s: seq<byte>): nat {
    if s == [] || s[|s| - 1] == 0 then 0 else 1 + TrailingRun(s[..|s| - 1])
  }

  /** Code byte of the last block of a frame the decoder accepts. */
  function LastCode(f: seq<byte>): byte
    requires f != []
    decreases |f|
  {
    if 0 < f[0] as int < |f| then LastCode(f[f[0] as int..]) else f[0]
  }

  // ---------- how the codec unfolds over one block ----------

  lemma RunIs(b: seq<byte>, t: seq<byte>, cap: nat)
    requires ZeroFree(b) && |b| <= cap
    requires |b| == cap || t == [] || t[0] == 0
    ensures Run(b + t, cap) == |b|
  {
    var s := b + t;
    assert forall i :: 0 <= i < |b| ==> s[i] == b[i];
    assert |b| < |s| ==> s[|b|] == t[0];
    assert forall i :: 0 <= i < Run(s, cap) ==> s[..Run(s, cap)][i] == s[i];
  }

  lemma EncodeFullBlock(b: seq<byte>, t: seq<byte>)
    requires ZeroFree(b) && |b| == FULL
    ensures Encode(b + t) == [255] + b + Encode(t)
    ensures Open(b + t) == Open(t)
    ensures Closed(b + t) == [255] + b + Closed(t)
    ensures FullBlocks(b + t) == 1 + FullBlocks(t)
  {
    RunIs(b, t, FULL);
    assert (b + t)[..FULL] == b && (b + t)[FULL..] == t;
  }

  lemma EncodeShortBlock(b: seq<byte>, t: seq<byte>)
    requires ZeroFree(b) && |b| < FULL
    ensures Encode(b + [0] + t) == [(|b| + 1) as byte] + b + Encode(t)
    ensures Open(b + [0] + t) == Open(t)
    ensures Closed(b + [0] + t) == [(|b| + 1) as byte] + b + Closed(t)
    ensures FullBlocks(b + [0] + t) == FullBlocks(t)
  {
    assert b + [0] + t == b + ([0] + t);
    RunIs(b, [0] + t, FULL);
    assert (b + [0] + t)[..|b|] == b && (b + [0] + t)[|b| + 1..] == t;
  }

  lemma EncodeLastBlock(b: seq<byte>)
    requires ZeroFree(b) && |b| < FULL
    ensures Encode(b) == [(|b| + 1) as byte] + b
    ensures Open(b) == b && Closed(b) == [] && FullBlocks(b) == 0
  {
    assert b + [] == b;
    RunIs(b, [], FULL);
  }

  /** Every input is one of the three shapes above. */
  lemma Shapes(s: seq<byte>) returns (b: seq<byte>, t: seq<byte>)
    ensures ZeroFree(b) && |b| <= FULL && |b| <= |s|
    ensures |b| == FULL ==> s == b + t
    ensures |b| < FULL && |b| == |s| ==> s == b
    ensures |b| < FULL && |b| < |s| ==> s == b + [0] + t
    ensures s == b || |t| < |s|
  {
    var k := Run(s, FULL);
    b := s[..k];
    t := s[if k == FULL || k == |s| then k else k + 1..];
  }

  lemma DecodeOneBlock(c: byte, b: seq<byte>, g: seq<byte>)
    requires 0 < c && |b| == c as int - 1
    ensures Decode([c] + b + g) ==
            match Decode(g)
            case None => None
            case Some(d) => Some(b + (if c != 255 && g != [] then [0] else []) + d)
  {
    var f := [c] + b + g;
    assert f[0] == c && f[c as int..] == g && f[1..c as int] == b;
  }

  lemma DecodeEmpty()
    ensures Decode([]) == Some([])
  {
  }

  /** The first block of an accepted zero-free frame, the rest, and what the rest decodes to. */
  lemma DecodeSplit(f: seq<byte>) returns (b: seq<byte>, rest: seq<byte>, t: seq<byte>)
    requires f != [] && ZeroFree(f) && Decode(f).Some?
    ensures f == [f[0]] + b + rest && |b| + 1 == f[0] as int
    ensures ZeroFree(b) && ZeroFree(rest)
    ensures Decode(rest) == Some(t)
    ensures Decode(f) == Some(b + (if f[0] != 255 && rest != [] then [0] else []) + t)
    ensures LastCode(f) == if rest == [] then f[0] else LastCode(rest)
  {
    var n := f[0] as int;
    b, rest := f[1..n], f[n..];
    t := Decode(rest).value;
    assert forall i :: 0 <= i < |b| ==> b[i] == f[i + 1];
    assert forall i :: 0 <= i < |rest| ==> rest[i] == f[i + n];
  }

  lemma EncodeNonEmpty(s: seq<byte>)
    ensures Encode(s) != []
  {
  }

  // ---------- the codec laws ----------

  /** Decoding an encoding returns the original, for every byte sequence. */
  lemma {:induction false} RoundTrip(s: seq<byte>)
    ensures Decode(Encode(s)) == Some(s)
    decreases |s|
  {
    hide Encode, Decode, Open, Closed, FullBlocks, Run;
    var b, t := Shapes(s);
    if |b| == FULL {
      EncodeFullBlock(b, t);
      RoundTrip(t);
      DecodeOneBlock(255, b, Encode(t));
      assert b + [] + t == b + t;
    } else if |b| == |s| {
      EncodeLastBlock(b);
      DecodeEmpty();
      DecodeOneBlock((|b| + 1) as byte, b, []);
      assert [(|b| + 1) as byte] + b + [] == [(|b| + 1) as byte] + b;
      assert b + [] + [] == b;
    } else {
      EncodeShortBlock(b, t);
      RoundTrip(t);
      EncodeNonEmpty(t);
      DecodeOneBlock((|b| + 1) as byte, b, Encode(t));
    }
  }

  lemma EncodeInjective(s: seq<byte>, t: seq<byte>)
    ensures Encode(s) == Encode(t) ==> s == t
  {
    RoundTrip(s);
    RoundTrip(t);
  }

  /** A delimiter never occurs inside an encoded frame. */
  lemma {:induction false} EncodeZeroFree(s: seq<byte>)
    ensures ZeroFree(Encode(s))
    decreases |s|
  {
    hide Encode, Decode, Open, Closed, FullBlocks, Run;
    var b, t := Shapes(s);
    if |b| == FULL {
      EncodeFullBlock(b, t);
      EncodeZeroFree(t);
    } else if |b| == |s| {
      EncodeLastBlock(b);
    } else {
      EncodeShortBlock(b, t);
      EncodeZeroFree(t);
    }
  }

  /** The exact length of an encoding and its worst case. */
  lemma {:induction false} EncodeLength(s: seq<byte>)
    ensures |Encode(s)| == |s| + 1 + FullBlocks(s)
    ensures FullBlocks(s) <= |s| / 254
    ensures ZeroFree(s) ==> FullBlocks(s) == |s| / 254
    decreases |s|
  {
    hide Encode, Decode, Open, Closed, FullBlocks, Run;
    var b, t := Shapes(s);
    if |b| == FULL {
      EncodeFullBlock(b, t);
      EncodeLength(t);
      assert ZeroFree(s) ==> ZeroFree(t) by {
        assert forall i :: 0 <= i < |t| ==> t[i] == s[i + FULL];
      }
    } else if |b| == |s| {
      EncodeLastBlock(b);
    } else {
      EncodeShortBlock(b, t);
      EncodeLength(t);
      assert s[|b|] == 0;
    }
  }

  /**
   Re-encoding what the decoder made of a zero-free frame gives the frame back, or the frame
   and one empty block, the latter exactly when the frame is empty or ends in a full block.
   */
  lemma {:induction false} Reencode(f: seq<byte>, s: seq<byte>)
    requires ZeroFree(f) && Decode(f) == Some(s)
    ensures Encode(s) == if f == [] || LastCode(f) == 255 then f + [1] else f
    decreases |f|
  {
    hide Encode, Decode, Open, Closed, FullBlocks, Run, LastCode;
    if f == [] {
      EncodeLastBlock([]);
      DecodeEmpty();
    } else {
      var b, rest, t := DecodeSplit(f);
      Reencode(rest, t);
      if f[0] == 255 {
        assert s == b + t;
        EncodeFullBlock(b, t);
      } else if rest == [] {
        DecodeEmpty();
        assert s == b;
        EncodeLastBlock(b);
      } else {
        EncodeShortBlock(b, t);
      }
    }
  }

  /** So `Encode(s)` is the one canonical frame among the zero-free frames that decode to `s`. */
  lemma EncodeIsCanonical(s: seq<byte>, f: seq<byte>)
    requires ZeroFree(f)
    ensures f == Encode(s) <==> f != [] && LastCode(f) != 255 && Decode(f) == Some(s)
  {
    RoundTrip(s);
    EncodeNonEmpty(s);
    if f == Encode(s) {
      Reencode(f, s);
      assert |f + [1]| == |f| + 1;
    }
    if f != [] && LastCode(f) != 255 && Decode(f) == Some(s) {
      Reencode(f, s);
    }
  }

  /** From `i` on, `f` falls into blocks that begin at `cuts`, each as long as its non-zero code byte says. */
  ghost predicate Cuts(f: seq<byte>, i: nat, cuts: seq<nat>) {
    && cuts != [] && cuts[0] == i && cuts[|cuts| - 1] == |f|
    && forall k :: 0 <= k < |cuts| - 1 ==>
         cuts[k] < |f| && f[cuts[k]] != 0 && cuts[k + 1] == cuts[k] + f[cuts[k]] as int
  }

  lemma {:induction false} AcceptedHasCuts(f: seq<byte>, i: nat) returns (cuts: seq<nat>)
    requires i <= |f| && Decode(f[i..]).Some?
    ensures Cuts(f, i, cuts)
    decreases |f| - i
  {
    if i == |f| {
      cuts := [i];
    } else {
      var c := f[i] as int;
      assert f[i..][c..] == f[i + c..];
      var rest := AcceptedHasCuts(f, i + c);
      cuts := [i] + rest;
    }
  }

  lemma {:induction false} CutsAreAccepted(f: seq<byte>, i: nat, cuts: seq<nat>)
    requires i <= |f| && Cuts(f, i, cuts)
    ensures Decode(f[i..]).Some?
    decreases |cuts|
  {
    if |cuts| == 1 {
    } else {
      var c := f[i] as int;
      assert cuts[0] == i && cuts[1] == i + c;
      assert f[i..][c..] == f[i + c..];
      CutsAreAccepted(f, i + c, cuts[1..]);
    }
  }

  /** The decoder accepts exactly the frames that fall into whole blocks. */
  lemma AcceptsExactly(f: seq<byte>)
    ensures Decode(f).Some? <==> exists cuts: seq<nat> :: Cuts(f, 0, cuts)
  {
    hide Decode, Cuts;
    assert f[0..] == f;
    if Decode(f).Some? {
      var cuts := AcceptedHasCuts(f, 0);
    }
    if cuts: seq<nat> :| Cuts(f, 0, cuts) {
      CutsAreAccepted(f, 0, cuts);
    }
  }

  // ---------- one more byte: what an incremental encoder needs ----------

  lemma {:induction false} EncodeParts(s: seq<byte>)
    ensures Encode(s) == Closed(s) + [(|Open(s)| + 1) as byte] + Open(s)
    decreases |s|
  {
    hide Encode, Decode, Open, Closed, FullBlocks, Run;
    var b, t := Shapes(s);
    if |b| == FULL {
      EncodeFullBlock(b, t);
      EncodeParts(t);
    } else if |b| == |s| {
      EncodeLastBlock(b);
    } else {
      EncodeShortBlock(b, t);
      EncodeParts(t);
    }
  }

  lemma {:induction false} AppendZero(s: seq<byte>)
    ensures Open(s + [0]) == [] && Closed(s + [0]) == Encode(s)
    decreases |s|
  {
    hide Encode, Decode, Open, Closed, FullBlocks, Run;
    var b, t := Shapes(s);
    EncodeLastBlock([]);
    if |b| == FULL {
      EncodeFullBlock(b, t);
      AppendZero(t);
      EncodeFullBlock(b, t + [0]);
      assert s + [0] == b + (t + [0]);
    } else if |b| == |s| {
      EncodeLastBlock(b);
      EncodeShortBlock(b, []);
      assert s + [0] == b + [0] + [];
    } else {
      EncodeShortBlock(b, t);
      AppendZero(t);
      EncodeShortBlock(b, t + [0]);
      assert s + [0] == b + [0] + (t + [0]);
    }
  }

  lemma {:induction false} AppendData(s: seq<byte>, x: byte)
    requires x != 0
    ensures |Open(s)| + 1 < FULL ==> Open(s + [x]) == Open(s) + [x] && Closed(s + [x]) == Closed(s)
    ensures |Open(s)| + 1 == FULL ==> Open(s + [x]) == [] && Closed(s + [x]) == Closed(s) + [255] + Open(s) + [x]
    decreases |s|
  {
    hide Encode, Decode, Open, Closed, FullBlocks, Run;
    var b, t := Shapes(s);
    if |b| == FULL {
      EncodeFullBlock(b, t);
      AppendData(t, x);
      EncodeFullBlock(b, t + [x]);
      assert s + [x] == b + (t + [x]);
    } else if |b| == |s| {
      EncodeLastBlock(b);
      if |b| + 1 < FULL {
        EncodeLastBlock(b + [x]);
      } else {
        EncodeFullBlock(b + [x], []);
        EncodeLastBlock([]);
        assert s + [x] == (b + [x]) + [];
      }
    } else {
      EncodeShortBlock(b, t);
      AppendData(t, x);
      EncodeShortBlock(b, t + [x]);
      assert s + [x] == b + [0] + (t + [x]);
    }
  }

  lemma NextRemainder(n: nat)
    ensures (n + 1) % FULL == if n % FULL + 1 == FULL then 0 else n % FULL + 1
  {
  }

  lemma RunExtends(p: seq<byte>, x: byte)
    ensures TrailingRun([]) == 0
    ensures TrailingRun(p + [x]) == if x == 0 then 0 else 1 + TrailingRun(p)
  {
    assert (p + [x])[..|p|] == p;
  }

  /** The open block holds what is left of the trailing run after its full blocks. */
  lemma {:induction false} OpenLength(s: seq<byte>)
    ensures |Open(s)| == TrailingRun(s) % 254
    decreases |s|
  {
    hide Encode, Decode, Open, Closed, FullBlocks, Run, TrailingRun;
    if s == [] {
      EncodeLastBlock([]);
      RunExtends([], 0);
    } else {
      var p, x := s[..|s| - 1], s[|s| - 1];
      assert s == p + [x];
      RunExtends(p, x);
      if x == 0 {
        AppendZero(p);
      } else {
        OpenLength(p);
        AppendData(p, x);
        NextRemainder(TrailingRun(p));
      }
    }
  }
}
