/**
 Key derivation of the samplers: six fields are rotated and xor-ed with a stream
 constant, and the result passes through the splitmix64 finaliser.
 */
module SampleKeys {

  datatype FsOp =
    | Lookup | GetAttr | Open | Read | Write | Flush | Release | Fsync | Readdir | Statfs | Access

  const LATENCY_STREAM: bv64 := 0xA5A5_A5A5_A5A5_A5A5
  const FAULT_STREAM: bv64 := 0x5A5A_5A5A_5A5A_5A5A

  datatype SampleKey = SampleKey(seed: bv64, op: FsOp, ino: bv64, offset: bv64, len: bv32, seqNo: bv64)

  /** The position of an operation in its enumeration. */
  function Discriminant(op: FsOp): (n: nat)
    ensures n < 11
  {
    match op
    case Lookup => 0
    case GetAttr => 1
    case Open => 2
    case Read => 3
    case Write => 4
    case Flush => 5
    case Release => 6
    case Fsync => 7
    case Readdir => 8
    case Statfs => 9
    case Access => 10
  }

  function OpCode(op: FsOp): bv64 {
    var words: seq<bv64> := [0, 1, 2, 3, 4, 5, 6, 7, 8, 9, 10];
    words[Discriminant(op)]
  }

  function Xor(a: bv64, b: bv64): bv64 { a ^ b }
  function Widen(x: bv32): bv64 { x as bv64 }
  function Rot11(x: bv64): bv64 { x.RotateLeft(11) }
  function Rot23(x: bv64): bv64 { x.RotateLeft(23) }
  function Rot37(x: bv64): bv64 { x.RotateLeft(37) }
  function Rot47(x: bv64): bv64 { x.RotateLeft(47) }
  function Rot53(x: bv64): bv64 { x.RotateLeft(53) }

  /** The xor of a list of words onto a first one. */
  function XorAll(first: bv64, words: seq<bv64>): bv64
    decreases |words|
  {
    if words == [] then first else XorAll(Xor(first, words[0]), words[1..])
  }

  /** The rotated fields behind the seed. */
  function Words(key: SampleKey): seq<bv64> {
    [Rot11(OpCode(key.op)), Rot23(key.ino), Rot37(key.offset), Rot47(Widen(key.len)), Rot53(key.seqNo)]
  }

  /** The xor of all rotated fields, before the stream constant. */
  function Combine(key: SampleKey): bv64 {
    XorAll(key.seed, Words(key))
  }

  function Shift30(z: bv64): bv64 { z ^ (z >> 30) }
  function Times1(z: bv64): bv64 { z * 0xbf58_476d_1ce4_e5b9 }
  function Shift27(z: bv64): bv64 { z ^ (z >> 27) }
  function Times2(z: bv64): bv64 { z * 0x94d0_49bb_1331_11eb }
  function Shift31(z: bv64): bv64 { z ^ (z >> 31) }

  /** The finaliser: three xor-shifts around two wrapping multiplications. */
  function Finalize(z: bv64): bv64 {
    Shift31(Times2(Shift27(Times1(Shift30(z)))))
  }

  function Mix(key: SampleKey, stream: bv64): bv64 {
    Finalize(Xor(Combine(key), stream))
  }

  // ---------------------------------------------------------------- the inverse of the finaliser

  function Unshift30(z: bv64): bv64 { z ^ (z >> 30) ^ (z >> 60) }
  function Untimes1(z: bv64): bv64 { z * 0x96de_1b17_3f11_9089 }
  function Unshift27(z: bv64): bv64 { z ^ (z >> 27) ^ (z >> 54) }
  function Untimes2(z: bv64): bv64 { z * 0x3196_42b2_d24d_8ec3 }
  function Unshift31(z: bv64): bv64 { z ^ (z >> 31) ^ (z >> 62) }

  /** Every stage undone, last one first. */
  function Unfinalize(z: bv64): bv64 {
    Unshift30(Untimes1(Unshift27(Untimes2(Unshift31(z)))))
  }

  // The stages are undone on spelled-out words, which the solver simplifies by itself.

  lemma UndoShifts(z: bv64)
    ensures Unshift30(z ^ (z >> 30)) == z && Shift30(z ^ (z >> 30) ^ (z >> 60)) == z
    ensures Unshift27(z ^ (z >> 27)) == z && Shift27(z ^ (z >> 27) ^ (z >> 54)) == z
    ensures Unshift31(z ^ (z >> 31)) == z && Shift31(z ^ (z >> 31) ^ (z >> 62)) == z
  {
  }

  /** Odd multipliers are invertible modulo 2^64. */
  lemma UndoTimes(z: bv64)
    ensures Untimes1(z * 0xbf58_476d_1ce4_e5b9) == z && Times1(z * 0x96de_1b17_3f11_9089) == z
    ensures Untimes2(z * 0x94d0_49bb_1331_11eb) == z && Times2(z * 0x3196_42b2_d24d_8ec3) == z
  {
  }

  lemma StagesInvert(z: bv64)
    ensures Unshift30(Shift30(z)) == z && Shift30(Unshift30(z)) == z
    ensures Unshift27(Shift27(z)) == z && Shift27(Unshift27(z)) == z
    ensures Unshift31(Shift31(z)) == z && Shift31(Unshift31(z)) == z
    ensures Untimes1(Times1(z)) == z && Times1(Untimes1(z)) == z
    ensures Untimes2(Times2(z)) == z && Times2(Untimes2(z)) == z
  {
    UndoShifts(z);
    UndoTimes(z);
  }

  /** The finaliser is a bijection of the 64-bit words. */
  lemma FinalizeBijective(z: bv64)
    ensures Unfinalize(Finalize(z)) == z
    ensures Finalize(Unfinalize(z)) == z
  {
    StagesInvert(z);
    StagesInvert(Shift30(z));
    StagesInvert(Times1(Shift30(z)));
    StagesInvert(Shift27(Times1(Shift30(z))));
    StagesInvert(Times2(Shift27(Times1(Shift30(z)))));
    StagesInvert(Unshift31(z));
    StagesInvert(Untimes2(Unshift31(z)));
    StagesInvert(Unshift27(Untimes2(Unshift31(z))));
    StagesInvert(Untimes1(Unshift27(Untimes2(Unshift31(z)))));
  }

  // ---------------------------------------------------------------- when seeds coincide

  lemma FinalizeInjective(x: bv64, y: bv64)
    ensures Finalize(x) == Finalize(y) <==> x == y
  {
    FinalizeBijective(x);
    FinalizeBijective(y);
  }

  lemma UndoXorRight(a: bv64, b: bv64)
    ensures Xor(a ^ b, b) == a
  {
  }

  lemma UndoXorLeft(a: bv64, b: bv64)
    ensures Xor(a, a ^ b) == b
  {
  }

  lemma XorTwice(a: bv64, b: bv64)
    ensures Xor(Xor(a, b), b) == a && Xor(a, Xor(a, b)) == b
  {
    UndoXorRight(a, b);
    UndoXorLeft(a, b);
  }

  lemma XorInjectiveLeft(x: bv64, y: bv64, a: bv64)
    ensures Xor(x, a) == Xor(y, a) <==> x == y
  {
    XorTwice(x, a);
    XorTwice(y, a);
  }

  lemma XorInjectiveRight(a: bv64, x: bv64, y: bv64)
    ensures Xor(a, x) == Xor(a, y) <==> x == y
  {
    XorTwice(a, x);
    XorTwice(a, y);
  }

  /** Two seeds coincide exactly when the xor-ed inputs do: the finaliser adds no collision. */
  lemma SeedsCollideIff(k1: SampleKey, s1: bv64, k2: SampleKey, s2: bv64)
    ensures Mix(k1, s1) == Mix(k2, s2) <==> Xor(Combine(k1), s1) == Xor(Combine(k2), s2)
  {
    FinalizeInjective(Xor(Combine(k1), s1), Xor(Combine(k2), s2));
  }

  /** For every key the latency stream and the fault stream start from different seeds. */
  lemma StreamsDiffer(key: SampleKey)
    ensures Mix(key, LATENCY_STREAM) != Mix(key, FAULT_STREAM)
  {
    SeedsCollideIff(key, LATENCY_STREAM, key, FAULT_STREAM);
    XorInjectiveRight(Combine(key), LATENCY_STREAM, FAULT_STREAM);
  }

  function Back11(x: bv64): bv64 { x.RotateRight(11) }
  function Back23(x: bv64): bv64 { x.RotateRight(23) }
  function Back37(x: bv64): bv64 { x.RotateRight(37) }
  function Back47(x: bv64): bv64 { x.RotateRight(47) }
  function Back53(x: bv64): bv64 { x.RotateRight(53) }

  lemma UndoRotations(x: bv64)
    ensures Back11(x.RotateLeft(11)) == x && Back23(x.RotateLeft(23)) == x && Back37(x.RotateLeft(37)) == x
    ensures Back47(x.RotateLeft(47)) == x && Back53(x.RotateLeft(53)) == x
  {
  }

  lemma RotationsInjective(x: bv64, y: bv64)
    requires x != y
    ensures Rot11(x) != Rot11(y) && Rot23(x) != Rot23(y) && Rot37(x) != Rot37(y)
    ensures Rot47(x) != Rot47(y) && Rot53(x) != Rot53(y)
  {
    UndoRotations(x);
    UndoRotations(y);
  }

  lemma DiscriminantsDiffer(a: FsOp, b: FsOp)
    ensures Discriminant(a) == Discriminant(b) <==> a == b
  {
  }

  lemma CodesDiffer(a: FsOp, b: FsOp)
    ensures OpCode(a) == OpCode(b) <==> a == b
  {
    DiscriminantsDiffer(a, b);
  }

  lemma WideningKeeps(a: bv32, b: bv32)
    ensures Widen(a) == Widen(b) <==> a == b
  {
  }

  /** The keys differ in exactly one field. */
  predicate OneFieldDiffers(k1: SampleKey, k2: SampleKey) {
    && k1 != k2
    && (|| k2.(seed := k1.seed) == k1 || k2.(op := k1.op) == k1 || k2.(ino := k1.ino) == k1
        || k2.(offset := k1.offset) == k1 || k2.(len := k1.len) == k1 || k2.(seqNo := k1.seqNo) == k1)
  }

  lemma {:induction false} FirstWordMatters(x: bv64, y: bv64, words: seq<bv64>)
    ensures XorAll(x, words) == XorAll(y, words) <==> x == y
    decreases |words|
  {
    if words != [] {
      XorInjectiveLeft(x, y, words[0]);
      FirstWordMatters(Xor(x, words[0]), Xor(y, words[0]), words[1..]);
    }
  }

  /** Replacing one word by another changes the xor. */
  lemma {:induction false} EachWordMatters(first: bv64, words: seq<bv64>, i: nat, w: bv64)
    requires i < |words|
    ensures XorAll(first, words[i := w]) == XorAll(first, words) <==> w == words[i]
    decreases |words|
  {
    if i == 0 {
      XorInjectiveRight(first, w, words[0]);
      FirstWordMatters(Xor(first, w), Xor(first, words[0]), words[1..]);
      assert words[0 := w][1..] == words[1..];
    } else {
      EachWordMatters(Xor(first, words[0]), words[1..], i - 1, w);
      assert words[i := w][1..] == words[1..][i - 1 := w];
    }
  }

  lemma OpChangesInput(k1: SampleKey, k2: SampleKey)
    requires k1.op != k2.op && k2.(op := k1.op) == k1
    ensures Combine(k1) != Combine(k2)
  {
    CodesDiffer(k1.op, k2.op);
    RotationsInjective(OpCode(k1.op), OpCode(k2.op));
    EachWordMatters(k1.seed, Words(k1), 0, Words(k2)[0]);
    assert Words(k1)[0 := Words(k2)[0]] == Words(k2);
  }

  lemma InoChangesInput(k1: SampleKey, k2: SampleKey)
    requires k1.ino != k2.ino && k2.(ino := k1.ino) == k1
    ensures Combine(k1) != Combine(k2)
  {
    RotationsInjective(k1.ino, k2.ino);
    EachWordMatters(k1.seed, Words(k1), 1, Words(k2)[1]);
    assert Words(k1)[1 := Words(k2)[1]] == Words(k2);
  }

  lemma OffsetChangesInput(k1: SampleKey, k2: SampleKey)
    requires k1.offset != k2.offset && k2.(offset := k1.offset) == k1
    ensures Combine(k1) != Combine(k2)
  {
    RotationsInjective(k1.offset, k2.offset);
    EachWordMatters(k1.seed, Words(k1), 2, Words(k2)[2]);
    assert Words(k1)[2 := Words(k2)[2]] == Words(k2);
  }

  lemma LenChangesInput(k1: SampleKey, k2: SampleKey)
    requires k1.len != k2.len && k2.(len := k1.len) == k1
    ensures Combine(k1) != Combine(k2)
  {
    WideningKeeps(k1.len, k2.len);
    RotationsInjective(Widen(k1.len), Widen(k2.len));
    EachWordMatters(k1.seed, Words(k1), 3, Words(k2)[3]);
    assert Words(k1)[3 := Words(k2)[3]] == Words(k2);
  }

  lemma SeqChangesInput(k1: SampleKey, k2: SampleKey)
    requires k1.seqNo != k2.seqNo && k2.(seqNo := k1.seqNo) == k1
    ensures Combine(k1) != Combine(k2)
  {
    RotationsInjective(k1.seqNo, k2.seqNo);
    EachWordMatters(k1.seed, Words(k1), 4, Words(k2)[4]);
    assert Words(k1)[4 := Words(k2)[4]] == Words(k2);
  }

  lemma SingleFieldChangesInput(k1: SampleKey, k2: SampleKey)
    requires OneFieldDiffers(k1, k2)
    ensures Combine(k1) != Combine(k2)
  {
    if k2.(seed := k1.seed) == k1 {
      FirstWordMatters(k1.seed, k2.seed, Words(k1));
    } else if k2.(op := k1.op) == k1 {
      OpChangesInput(k1, k2);
    } else if k2.(ino := k1.ino) == k1 {
      InoChangesInput(k1, k2);
    } else if k2.(offset := k1.offset) == k1 {
      OffsetChangesInput(k1, k2);
    } else if k2.(len := k1.len) == k1 {
      LenChangesInput(k1, k2);
    } else {
      SeqChangesInput(k1, k2);
    }
  }

  /** Changing exactly one field of a key changes the seed of either stream. */
  lemma SingleFieldChangesSeed(k1: SampleKey, k2: SampleKey, stream: bv64)
    requires OneFieldDiffers(k1, k2)
    ensures Mix(k1, stream) != Mix(k2, stream)
  {
    SeedsCollideIff(k1, stream, k2, stream);
    SingleFieldChangesInput(k1, k2);
    XorInjectiveLeft(Combine(k1), Combine(k2), stream);
  }

  lemma XorAssocFlat(a: bv64, b: bv64, c: bv64)
    ensures Xor(a ^ b, c) == Xor(a, b ^ c)
  {
  }

  lemma XorAssoc(a: bv64, b: bv64, c: bv64)
    ensures Xor(Xor(a, b), c) == Xor(a, Xor(b, c))
  {
    XorAssocFlat(a, b, c);
  }

  lemma XorSwap(a: bv64, b: bv64)
    ensures Xor(a, b) == Xor(b, a)
  {
  }

  lemma Regroup(p: bv64, d: bv64, e: bv64, f: bv64)
    ensures Xor(Xor(Xor(p, d), e), f) == Xor(Xor(p, e), Xor(d, f))
  {
    XorAssoc(p, d, e);
    XorSwap(d, e);
    XorAssoc(p, e, d);
    XorAssoc(Xor(p, e), d, f);
  }

  function Rot16(x: bv64): bv64 { x.RotateLeft(16) }

  lemma RotateTogetherFlat(o: bv64, s: bv64)
    ensures Xor(o.RotateLeft(37), s.RotateLeft(53)) == Rot37(o ^ s.RotateLeft(16))
  {
  }

  lemma RotateTogether(o: bv64, s: bv64)
    ensures Xor(Rot37(o), Rot53(s)) == Rot37(Xor(o, Rot16(s)))
  {
    RotateTogetherFlat(o, s);
  }

  /** What the fields other than offset and sequence number contribute. */
  function Rest(k: SampleKey): bv64 {
    Xor(Xor(Xor(k.seed, Rot11(OpCode(k.op))), Rot23(k.ino)), Rot47(Widen(k.len)))
  }

  lemma XorAllCons(x: bv64, a: bv64, words: seq<bv64>)
    ensures XorAll(x, [a] + words) == XorAll(Xor(x, a), words)
  {
    assert ([a] + words)[1..] == words;
  }

  lemma XorOfThree(x: bv64, a: bv64, b: bv64, c: bv64, words: seq<bv64>)
    ensures XorAll(x, [a] + ([b] + ([c] + words))) == XorAll(Xor(Xor(Xor(x, a), b), c), words)
  {
    XorAllCons(x, a, [b] + ([c] + words));
    XorAllCons(Xor(x, a), b, [c] + words);
    XorAllCons(Xor(Xor(x, a), b), c, words);
  }

  lemma XorOfFive(x: bv64, a: bv64, b: bv64, c: bv64, d: bv64, e: bv64)
    ensures XorAll(x, [a, b, c, d, e]) == Xor(Xor(Xor(Xor(Xor(x, a), b), c), d), e)
  {
    var p := Xor(Xor(x, a), b);
    assert [a] + ([b] + [c, d, e]) == [a, b, c, d, e] && [c] + ([d] + ([e] + [])) == [c, d, e];
    XorAllCons(x, a, [b] + [c, d, e]);
    XorAllCons(Xor(x, a), b, [c, d, e]);
    XorOfThree(p, c, d, e, []);
  }

  lemma CombineFactors(k: SampleKey)
    ensures Combine(k) == Xor(Rest(k), Rot37(Xor(k.offset, Rot16(k.seqNo))))
  {
    var p := Xor(Xor(k.seed, Rot11(OpCode(k.op))), Rot23(k.ino));
    XorOfFive(k.seed, Rot11(OpCode(k.op)), Rot23(k.ino), Rot37(k.offset), Rot47(Widen(k.len)), Rot53(k.seqNo));
    Regroup(p, Rot37(k.offset), Rot47(Widen(k.len)), Rot53(k.seqNo));
    RotateTogether(k.offset, k.seqNo);
  }

  /** Several fields together can collide. Two calls that differ in offset and sequence number
      share their seeds exactly when offset xor-ed with the rotated sequence number is the same. */
  lemma OffsetSeqCollision(k1: SampleKey, k2: SampleKey, stream: bv64)
    requires k2.(offset := k1.offset, seqNo := k1.seqNo) == k1
    ensures Mix(k1, stream) == Mix(k2, stream) <==> Xor(k1.offset, Rot16(k1.seqNo)) == Xor(k2.offset, Rot16(k2.seqNo))
  {
    var x1, x2 := Xor(k1.offset, Rot16(k1.seqNo)), Xor(k2.offset, Rot16(k2.seqNo));
    SeedsCollideIff(k1, stream, k2, stream);
    XorInjectiveLeft(Combine(k1), Combine(k2), stream);
    CombineFactors(k1);
    CombineFactors(k2);
    XorInjectiveRight(Rest(k1), Rot37(x1), Rot37(x2));
    if x1 != x2 {
      RotationsInjective(x1, x2);
    }
  }

  /** For instance call 0 at offset 65536 and call 1 at offset 0 of the same file. */
  lemma SeedsNotUnique(seed: bv64, op: FsOp, ino: bv64, len: bv32, stream: bv64)
    ensures Mix(SampleKey(seed, op, ino, 65536, len, 0), stream) == Mix(SampleKey(seed, op, ino, 0, len, 1), stream)
  {
    OffsetSeqCollision(SampleKey(seed, op, ino, 65536, len, 0), SampleKey(seed, op, ino, 0, len, 1), stream);
  }

  // ---------------------------------------------------------------- known values

  lemma KnownFinalized()
    ensures Finalize(0xa465_a5a5_97a5_f58f) == 0xd731_5393_bd39_0731
    ensures Finalize(0x5b9a_5a5a_685a_0a70) == 0xd738_b0f7_8a0c_9a79
  {
    assert Shift30(0xa465_a5a5_97a5_f58f) == 0xa465_a5a7_0633_6319;
    assert Times1(0xa465_a5a7_0633_6319) == 0x2407_637f_710b_fa11;
    assert Shift27(0x2407_637f_710b_fa11) == 0x2407_637b_f1e7_95ff;
    assert Times2(0x2407_637b_f1e7_95ff) == 0xd731_5392_135b_a015;
    assert Shift31(0xd731_5392_135b_a015) == 0xd731_5393_bd39_0731;
    assert Shift30(0x5b9a_5a5a_685a_0a70) == 0x5b9a_5a5b_0633_6319;
    assert Times1(0x5b9a_5a5b_0633_6319) == 0x4f12_fd93_710b_fa11;
    assert Shift27(0x4f12_fd93_710b_fa11) == 0x4f12_fd9a_9354_487f;
    assert Times2(0x4f12_fd9a_9354_487f) == 0xd738_b0f6_247d_fb95;
    assert Shift31(0xd738_b0f6_247d_fb95) == 0xd738_b0f7_8a0c_9a79;
  }

  lemma KnownInput()
    ensures Combine(SampleKey(42, Access, 100, 65536, 512, 7)) == 0x01c0_0000_3200_502a
  {
    assert OpCode(Access) == 10 && Widen(512) == 512;
    assert Rot11(10) == 0x0000_0000_0000_5000 && Rot23(100) == 0x0000_0000_3200_0000;
    assert Rot37(65536) == 0x0020_0000_0000_0000 && Rot47(512) == 0x0100_0000_0000_0000;
    assert Rot53(7) == 0x00e0_0000_0000_0000;
    XorOfFive(42, 0x0000_0000_0000_5000, 0x0000_0000_3200_0000, 0x0020_0000_0000_0000,
              0x0100_0000_0000_0000, 0x00e0_0000_0000_0000);
  }

  /** Rotations, stream constants, shifts and multipliers are those of the format: the seeds of one key. */
  lemma KnownSeeds()
    ensures Mix(SampleKey(42, Access, 100, 65536, 512, 7), LATENCY_STREAM) == 0xd731_5393_bd39_0731
    ensures Mix(SampleKey(42, Access, 100, 65536, 512, 7), FAULT_STREAM) == 0xd738_b0f7_8a0c_9a79
  {
    KnownInput();
    KnownFinalized();
    assert Xor(0x01c0_0000_3200_502a, LATENCY_STREAM) == 0xa465_a5a5_97a5_f58f;
    assert Xor(0x01c0_0000_3200_502a, FAULT_STREAM) == 0x5b9a_5a5a_685a_0a70;
  }
}
