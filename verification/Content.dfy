/** Synthetic file content, and the adapter's reads and writes. */
module Content {
  import opened MachineWords
  import opened SampleKeys

  /** What the engine is told about a call. `len` is the effective byte count, `requestedLen`
      the one that the caller asked for. */
  datatype OpContext = OpContext(op: FsOp, ino: U64, offset: U64, len: nat, requestedLen: nat)

  function Spread(ino: bv64, offset: bv64, seed: bv64): bv64 {
    seed ^ ino.RotateLeft(17) ^ offset.RotateLeft(31)
  }

  function Fold33(x: bv64): bv64 { x ^ (x >> 33) }
  function TimesA(x: bv64): bv64 { x * 0xff51_afd7_ed55_8ccd }
  function TimesB(x: bv64): bv64 { x * 0xc4ce_b9fe_1a85_ec53 }

  function LowByte(x: bv64): bv8 {
    (x & 0xff) as bv8
  }

  function SynthByte(ino: bv64, offset: bv64, seed: bv64): bv8 {
    LowByte(Fold33(TimesB(Fold33(TimesA(Fold33(Spread(ino, offset, seed)))))))
  }

  /** The multipliers, shifts and rotations are those of the format: two known bytes. */
  lemma KnownBytes()
    ensures SynthByte(100, 0, 42) == 0x5e
    ensures SynthByte(7, 0x1_2345_6789, 1) == 0x86
  {
    assert Spread(0x0000_0000_0000_0064, 0x0000_0000_0000_0000, 0x0000_0000_0000_002a) == 0x0000_0000_00c8_002a;
    assert Fold33(0x0000_0000_00c8_002a) == 0x0000_0000_00c8_002a;
    assert TimesA(0x0000_0000_00c8_002a) == 0x4418_4442_f031_19a2;
    assert Fold33(0x4418_4442_f031_19a2) == 0x4418_4442_d23d_3b83;
    assert TimesB(0x4418_4442_d23d_3b83) == 0xbb09_e44f_d5c6_0f79;
    assert Fold33(0xbb09_e44f_d5c6_0f79) == 0xbb09_e44f_8842_fd5e;
    assert LowByte(0xbb09_e44f_8842_fd5e) == 0x5e;
    assert Spread(0x0000_0000_0000_0007, 0x0000_0001_2345_6789, 0x0000_0000_0000_0001) == 0x91a2_b3c4_800e_0001;
    assert Fold33(0x91a2_b3c4_800e_0001) == 0x91a2_b3c4_c8df_59e3;
    assert TimesA(0x91a2_b3c4_c8df_59e3) == 0x67c0_b573_ff62_1ec7;
    assert Fold33(0x67c0_b573_ff62_1ec7) == 0x67c0_b573_cc82_447e;
    assert TimesB(0x67c0_b573_cc82_447e) == 0xf4d3_12b9_c6d6_5cda;
    assert Fold33(0xf4d3_12b9_c6d6_5cda) == 0xf4d3_12b9_bcbf_d586;
    assert LowByte(0xf4d3_12b9_bcbf_d586) == 0x86;
  }

  function UntimesA(x: bv64): bv64 { x * 0x4f74_430c_22a5_4005 }
  function UntimesB(x: bv64): bv64 { x * 0x9cb4_b2f8_1293_37db }

  lemma UndoSteps(x: bv64)
    ensures Fold33(x ^ (x >> 33)) == x
    ensures TimesA(x * 0x4f74_430c_22a5_4005) == x && TimesB(x * 0x9cb4_b2f8_1293_37db) == x
  {
  }

  lemma StepsInvert(x: bv64)
    ensures Fold33(Fold33(x)) == x && TimesA(UntimesA(x)) == x && TimesB(UntimesB(x)) == x
  {
    UndoSteps(x);
  }

  /** The offset whose fields spread to `x`. */
  function Unspread(ino: bv64, x: bv64, seed: bv64): bv64 {
    (x ^ seed ^ ino.RotateLeft(17)).RotateRight(31)
  }

  lemma UndoSpread(ino: bv64, x: bv64, seed: bv64)
    ensures Spread(ino, (x ^ seed ^ ino.RotateLeft(17)).RotateRight(31), seed) == x
  {
  }

  lemma SpreadInverts(ino: bv64, x: bv64, seed: bv64)
    ensures Spread(ino, Unspread(ino, x, seed), seed) == x
  {
    UndoSpread(ino, x, seed);
  }

  function Wide(b: bv8): bv64 { b as bv64 }

  lemma LowByteOf(b: bv8)
    ensures LowByte(b as bv64) == b
  {
  }

  lemma StirInverts(e: bv64)
    ensures Fold33(TimesB(Fold33(TimesA(Fold33(Fold33(UntimesA(Fold33(UntimesB(Fold33(e)))))))))) == e
  {
    var d := Fold33(e);
    var c := UntimesB(d);
    var b := Fold33(c);
    StepsInvert(e);
    StepsInvert(d);
    StepsInvert(c);
    StepsInvert(b);
    StepsInvert(UntimesA(b));
  }

  /** No byte is left out: in every file, under every seed, each byte value stands at some offset. */
  lemma EveryByteOccurs(ino: bv64, seed: bv64, b: bv8) returns (offset: bv64)
    ensures SynthByte(ino, offset, seed) == b
  {
    var x := Fold33(UntimesA(Fold33(UntimesB(Fold33(Wide(b))))));
    offset := Unspread(ino, x, seed);
    SpreadInverts(ino, x, seed);
    StirInverts(Wide(b));
    LowByteOf(b);
  }

  function WrappingAdd(a: U64, b: U64): U64 {
    (a + b) % TWO_64
  }

  /** The byte generator of one seed. */
  function Generator(seed: bv64): (U64, U64) -> bv8 {
    (ino: U64, position: U64) => SynthByte(Word64(ino), Word64(position), seed)
  }

  /** Which argument goes where: file number 100, position 0, seed 42. */
  lemma KnownGenerator()
    ensures Generator(42)(100, 0) == 0x5e
  {
    SmallWords();
    KnownBytes();
  }

  /** `byteAt` is the generator of the configured seed; nothing below depends on which one. */
  class DeterministicContent {
    var byteAt: (U64, U64) -> bv8
    var fileLen: U64

    constructor (seed: bv64, fileLen: U64)
      ensures byteAt == Generator(seed) && this.fileLen == fileLen
    {
      this.byteAt, this.fileLen := Generator(seed), fileLen;
    }

    /** The file as a sequence. */
    function File(ino: U64): (file: seq<bv8>)
      reads this
      ensures |file| == fileLen
    {
      seq(fileLen, (i: nat) requires i < fileLen reads this => byteAt(ino, i))
    }

    /** Fills the buffer without looking at the file length. */
    method ReadAt(ino: U64, offset: U64, dst: array<bv8>)
      requires dst.Length < TWO_64
      modifies dst
      ensures forall i | 0 <= i < dst.Length :: dst[i] == byteAt(ino, (offset + i) % 0x1_0000_0000_0000_0000)
    {
      for i := 0 to dst.Length
        invariant forall k | 0 <= k < i :: dst[k] == byteAt(ino, WrappingAdd(offset, k))
      {
        dst[i] := byteAt(ino, WrappingAdd(offset, i));
      }
    }

    /** Writes are acknowledged in full and dropped: by its frame the method may change nothing. */
    method WriteAt(ino: U64, offset: U64, data: seq<bv8>) returns (written: nat)
      ensures written == |data|
    {
      written := |data|;
    }
  }

  /** The part of a file that a request may see. */
  function Window(file: seq<bv8>, offset: nat, size: nat): seq<bv8> {
    if offset >= |file| then [] else if offset + size <= |file| then file[offset..offset + size] else file[offset..]
  }

  /** The adapter's `read`: what it tells the engine, and what its body replies. */
  method Read(content: DeterministicContent, ino: U64, offset: U64, size: U32) returns (ctx: OpContext, data: seq<bv8>)
    ensures |data| == if offset >= content.fileLen then 0
                      else if size <= content.fileLen - offset then size else content.fileLen - offset
    ensures forall i | 0 <= i < |data| :: data[i] == content.byteAt(ino, offset + i)
    ensures data == Window(content.File(ino), offset, size)
    ensures ctx == OpContext(FsOp.Read, ino, offset, |data|, size)
  {
    var requested := size;
    var fileLen := content.fileLen;
    var readable: nat :=
      if offset >= fileLen then 0 else if fileLen - offset < requested then fileLen - offset else requested;
    ctx := OpContext(FsOp.Read, ino, offset, readable, requested);
    if readable == 0 {
      return ctx, [];
    }
    var buf := new bv8[readable];
    content.ReadAt(ino, offset, buf);
    data := buf[..];
    forall i | 0 <= i < readable ensures data[i] == content.File(ino)[offset + i] {
      assert WrappingAdd(offset, i) == offset + i;
    }
  }

  /** The adapter's `write`; the reply's count has 32 bits. */
  method Write(content: DeterministicContent, ino: U64, offset: U64, data: seq<bv8>)
    returns (ctx: OpContext, written: U32)
    ensures ctx == OpContext(FsOp.Write, ino, offset, |data|, |data|)
    ensures written == |data| % 0x1_0000_0000
  {
    ctx := OpContext(FsOp.Write, ino, offset, |data|, |data|);
    var count := content.WriteAt(ino, offset, data);
    written := count % TWO_32;
  }

  // ---------------------------------------------------------------- whole-file readers

  /** What a client does between opening a file and finishing with it. */
  datatype Access = ReadNext(size: U32) | WriteSome(offset: U64, data: seq<bv8>)

  /** The bytes that one access of a client yields; writes change nothing. */
  function Gets(file: seq<bv8>, position: nat, access: Access): seq<bv8> {
    match access
    case ReadNext(size) => Window(file, position, size)
    case WriteSome(_, _) => []
  }

  /** Where a client stands that started at `position`. */
  function Stands(file: seq<bv8>, position: nat, client: seq<Access>): nat {
    if client == [] then position
    else
      var before := Stands(file, position, client[..|client| - 1]);
      before + |Gets(file, before, client[|client| - 1])|
  }

  /** The bytes that it has received. */
  function Received(file: seq<bv8>, position: nat, client: seq<Access>): seq<bv8> {
    if client == [] then []
    else
      var before, last := client[..|client| - 1], client[|client| - 1];
      Received(file, position, before) + Gets(file, Stands(file, position, before), last)
  }

  /** The bytes that the engine has charged for its reads. */
  function Charged(file: seq<bv8>, position: nat, client: seq<Access>): nat {
    if client == [] then 0
    else
      var before, last := client[..|client| - 1], client[|client| - 1];
      Charged(file, position, before) + |Gets(file, Stands(file, position, before), last)|
  }

  /** The bytes that a client asks for. */
  function Requested(client: seq<Access>): nat {
    if client == [] then 0
    else
      var last := client[|client| - 1];
      Requested(client[..|client| - 1]) + if last.ReadNext? then last.size else 0
  }

  lemma WindowIsSlice(file: seq<bv8>, at: nat, access: Access)
    requires at <= |file|
    ensures
      var next := at + |Gets(file, at, access)|;
      && next <= |file| && Gets(file, at, access) == file[at..next]
      && (access.ReadNext? ==> next == if access.size <= |file| - at then at + access.size else |file|)
  {
  }

  lemma StaysInside(file: seq<bv8>, at: nat, access: Access)
    ensures at <= |file| ==> at + |Gets(file, at, access)| <= |file|
    ensures at > |file| ==> Gets(file, at, access) == []
  {
  }

  lemma SlicesJoin(file: seq<bv8>, a: nat, b: nat, c: nat)
    requires a <= b <= c <= |file|
    ensures file[a..b] + file[b..c] == file[a..c]
  {
  }

  /** A client stands where its requests have brought it, or at the end. */
  lemma {:induction false} ReadersAdvance(file: seq<bv8>, position: nat, client: seq<Access>)
    requires position <= |file|
    ensures Stands(file, position, client) ==
            if Requested(client) <= |file| - position then position + Requested(client) else |file|
  {
    if client != [] {
      var before, last := client[..|client| - 1], client[|client| - 1];
      ReadersAdvance(file, position, before);
      WindowIsSlice(file, Stands(file, position, before), last);
    }
  }

  /** A client has received the file from its first position to where it stands, without gap and with
      every byte charged once, whatever it writes in between. */
  lemma {:induction false} ReadersReassemble(file: seq<bv8>, position: nat, client: seq<Access>)
    requires position <= |file|
    ensures position <= Stands(file, position, client) <= |file|
    ensures Received(file, position, client) == file[position..Stands(file, position, client)]
    ensures Charged(file, position, client) == Stands(file, position, client) - position
  {
    ReadersAdvance(file, position, client);
    if client != [] {
      var before, last := client[..|client| - 1], client[|client| - 1];
      var at := Stands(file, position, before);
      ReadersAdvance(file, position, before);
      ReadersReassemble(file, position, before);
      WindowIsSlice(file, at, last);
      SlicesJoin(file, position, at, Stands(file, position, client));
    }
  }

  /** The file from a position on. */
  function Rest(file: seq<bv8>, position: nat): seq<bv8> {
    if position <= |file| then file[position..] else []
  }

  /** The same, told from what the client has received. */
  lemma ReceivedIsSlice(file: seq<bv8>, position: nat, client: seq<Access>)
    requires position <= |file|
    ensures
      var data := Received(file, position, client);
      && Charged(file, position, client) == |data|
      && |data| == (if Requested(client) <= |file| - position then Requested(client) else |file| - position)
      && data == file[position..position + |data|]
  {
    ReadersReassemble(file, position, client);
    ReadersAdvance(file, position, client);
  }

  /** A client at work on the store: its reads and writes go through the adapter, on any files. It gets
      as many bytes of the one fixed file as it asks for and the file has, and is charged for them. */
  method RunClient(content: DeterministicContent, ino: U64, position: U64, client: seq<Access>)
    returns (data: seq<bv8>, charged: nat)
    ensures data == Received(content.File(ino), position, client)
    ensures charged == Charged(content.File(ino), position, client)
    ensures position <= content.fileLen ==>
      && charged == |data|
      && |data| == (if Requested(client) <= content.fileLen - position then Requested(client)
                    else content.fileLen - position)
      && data == content.File(ino)[position..position + |data|]
  {
    ghost var file := content.File(ino);
    var at := position;
    data, charged := [], 0;
    for i := 0 to |client|
      invariant content.File(ino) == file && (at <= |file| || at == position)
      invariant at == Stands(file, position, client[..i]) && data == Received(file, position, client[..i])
      invariant charged == Charged(file, position, client[..i])
    {
      assert client[..i + 1][..i] == client[..i];
      StaysInside(file, at, client[i]);
      match client[i]
      case ReadNext(size) =>
        var ctx, got := Read(content, ino, at, size);
        data, charged, at := data + got, charged + ctx.len, at + |got|;
      case WriteSome(offset, bytes) =>
        var ctx, written := Write(content, ino, offset, bytes);
    }
    assert client[..|client|] == client;
    if position <= |file| {
      ReceivedIsSlice(file, position, client);
    }
  }

  datatype WriteRequest = WriteRequest(ino: U64, offset: U64, data: seq<bv8>)

  /** The bytes that the first `k` reads ask for. */
  function Asked(sizes: nat -> U32, k: nat): nat {
    if k == 0 then 0 else Asked(sizes, k - 1) + sizes(k - 1)
  }

  /** Reads a file from `position` until a read is empty, with sizes of its own choice and with any
      writes before each read: it terminates, with the rest of the file, charged byte by byte, and
      with the first read after those that ask for all of it. */
  method ReadToEnd(content: DeterministicContent, ino: U64, position: U64,
                   sizes: nat -> U32, writes: nat -> seq<WriteRequest>)
    returns (data: seq<bv8>, charged: nat, turns: nat)
    requires forall i :: sizes(i) > 0
    ensures data == Rest(content.File(ino), position) && charged == |data|
    ensures turns > 0 && Asked(sizes, turns - 1) >= |data|
    ensures forall k | 0 <= k < turns - 1 :: Asked(sizes, k) < |data|
  {
    ghost var file := content.File(ino);
    ghost var left := |Rest(file, position)|;
    var at := position;
    data, charged, turns := [], 0, 0;
    while true
      invariant content.File(ino) == file
      invariant at == position + |data| && charged == |data| <= left
      invariant if position <= |file| then at <= |file| && data == file[position..at] else data == []
      invariant |data| == if Asked(sizes, turns) <= left then Asked(sizes, turns) else left
      invariant forall k | 0 <= k < turns :: Asked(sizes, k) < left
      decreases left - |data|
    {
      var size := sizes(turns);
      WriteAll(content, writes(turns));
      var ctx, got := Read(content, ino, at, size);
      turns := turns + 1;
      if got == [] {
        return;
      }
      WindowIsSlice(file, at, ReadNext(size));
      SlicesJoin(file, position, at, at + |got|);
      data, charged, at := data + got, charged + ctx.len, at + |got|;
    }
  }

  method WriteAll(content: DeterministicContent, requests: seq<WriteRequest>) {
    for i := 0 to |requests| {
      var ctx, written := Write(content, requests[i].ino, requests[i].offset, requests[i].data);
    }
  }
}
