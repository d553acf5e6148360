/** The two byte formats of the Host protocol: bootstrap material and frames.
 *
 * The encoders append to a buffer as the code does.  Each is proved against a decoder that reads big-endian 32-bit
 * lengths, so what they produce can be read back in exactly one way.
 */
module Wire {
  import opened Domain

  type Byte = b: nat | b < 256

  const MAX_FIELD := 65_536
  const MAX_PAYLOAD := 384 * 1024
  const MAX_HEADER := 16 * 1024

  /** The bytes of "DTXBMT01". */
  const MATERIAL_MAGIC: seq<Byte> := [68, 84, 88, 66, 77, 84, 48, 49]

  // ----- lengths -----

  function LowByte(n: nat): Byte {
    var low: nat := n % 0x100;
    low
  }

  function BigEndian(n: nat): (bytes: seq<Byte>)
    requires n < 0x1_0000_0000
    ensures |bytes| == 4
  {
    var q1: nat := n / 0x100;
    var q2: nat := q1 / 0x100;
    var q3: nat := q2 / 0x100;
    [q3, LowByte(q2), LowByte(q1), LowByte(n)]
  }

  function FromBigEndian(bytes: seq<Byte>): nat
    requires |bytes| == 4
  {
    var b0: nat, b1: nat, b2: nat, b3: nat := bytes[0], bytes[1], bytes[2], bytes[3];
    ((b0 * 0x100 + b1) * 0x100 + b2) * 0x100 + b3
  }

  /** A number stands here in four bytes, the most significant first. */
  predicate NumberAt(bytes: seq<Byte>, at: nat, n: nat) {
    && at + 4 <= |bytes|
    && var b0: nat, b1: nat, b2: nat, b3: nat := bytes[at], bytes[at + 1], bytes[at + 2], bytes[at + 3];
    b0 * 0x100_0000 + b1 * 0x1_0000 + b2 * 0x100 + b3 == n
  }

  lemma BigEndianStands(before: seq<Byte>, n: nat, rest: seq<Byte>)
    requires n < 0x1_0000_0000
    ensures NumberAt(before + BigEndian(n) + rest, |before|, n)
  {
    var bytes, at := before + BigEndian(n) + rest, |before|;
    assert bytes[at] == BigEndian(n)[0] && bytes[at + 1] == BigEndian(n)[1];
    assert bytes[at + 2] == BigEndian(n)[2] && bytes[at + 3] == BigEndian(n)[3];
    LengthReadsBack(n);
  }

  lemma LengthReadsBack(n: nat)
    requires n < 0x1_0000_0000
    ensures FromBigEndian(BigEndian(n)) == n
  {
  }

  lemma LengthWritesBack(bytes: seq<Byte>)
    requires |bytes| == 4
    ensures FromBigEndian(bytes) < 0x1_0000_0000 && BigEndian(FromBigEndian(bytes)) == bytes
  {
    var b0: nat, b1: nat := bytes[0], bytes[1];
    var q2 := b0 * 0x100 + b1;
    var q1: nat := q2 * 0x100 + bytes[2];
    var n: nat := q1 * 0x100 + bytes[3];
    assert n / 0x100 == q1 && n % 0x100 == bytes[3];
    assert q1 / 0x100 == q2 && q1 % 0x100 == bytes[2];
    assert q2 / 0x100 == bytes[0] && q2 % 0x100 == bytes[1];
  }

  // ----- specifications -----

  ghost predicate Short(fields: seq<seq<Byte>>) {
    forall k :: 0 <= k < |fields| ==> |fields[k]| <= MAX_FIELD
  }

  ghost function Lengths(fields: seq<seq<Byte>>): (bytes: seq<Byte>)
    requires Short(fields)
    ensures |bytes| == 4 * |fields|
  {
    if fields == [] then [] else Lengths(fields[..|fields| - 1]) + BigEndian(|fields[|fields| - 1]|)
  }

  ghost function Bodies(fields: seq<seq<Byte>>): seq<Byte> {
    if fields == [] then [] else Bodies(fields[..|fields| - 1]) + fields[|fields| - 1]
  }

  ghost function Total(fields: seq<seq<Byte>>): nat {
    if fields == [] then 0 else Total(fields[..|fields| - 1]) + |fields[|fields| - 1]|
  }

  /** The layout of bootstrap material: the magic, the six lengths, the six fields. */
  ghost function Layout(fields: seq<seq<Byte>>): seq<Byte>
    requires Short(fields)
  {
    MATERIAL_MAGIC + Lengths(fields) + Bodies(fields)
  }

  /** What may be sent: the plan and the handoff are there, no field is oversized, and the whole fits a frame. */
  ghost predicate Sendable(fields: seq<seq<Byte>>) {
    && |fields| == 6 && fields[4] != [] && fields[5] != []
    && Short(fields)
    && 32 + Total(fields) <= MAX_PAYLOAD
  }

  // ----- decoding -----

  /** The lengths written in the first `4 * n` bytes. */
  ghost function ReadLengths(bytes: seq<Byte>, n: nat): (lengths: seq<nat>)
    requires |bytes| >= 4 * n
    ensures |lengths| == n
  {
    if n == 0 then [] else ReadLengths(bytes, n - 1) + [FromBigEndian(bytes[4 * n - 4..4 * n])]
  }

  ghost function Sum(lengths: seq<nat>): nat {
    if lengths == [] then 0 else Sum(lengths[..|lengths| - 1]) + lengths[|lengths| - 1]
  }

  /** Cuts the bytes into pieces of the given lengths, from the back. */
  ghost function Cut(bytes: seq<Byte>, lengths: seq<nat>): (fields: seq<seq<Byte>>)
    requires |bytes| == Sum(lengths)
    ensures |fields| == |lengths|
    decreases |lengths|
  {
    if lengths == [] then []
    else
      var last := lengths[|lengths| - 1];
      Cut(bytes[..|bytes| - last], lengths[..|lengths| - 1]) + [bytes[|bytes| - last..]]
  }

  /** Reads material back: the magic, six lengths, and exactly as many bytes as they announce. */
  ghost function DecodeMaterial(bytes: seq<Byte>): Option<seq<seq<Byte>>> {
    if |bytes| < 32 || bytes[..8] != MATERIAL_MAGIC then None
    else
      var lengths := ReadLengths(bytes[8..32], 6);
      if |bytes| - 32 != Sum(lengths) then None else Some(Cut(bytes[32..], lengths))
  }

  // ----- reading back -----

  ghost function Sizes(fields: seq<seq<Byte>>): (sizes: seq<nat>)
    ensures |sizes| == |fields|
  {
    if fields == [] then [] else Sizes(fields[..|fields| - 1]) + [|fields[|fields| - 1]|]
  }

  lemma {:induction false} SizesSum(fields: seq<seq<Byte>>)
    ensures Sum(Sizes(fields)) == Total(fields) == |Bodies(fields)|
  {
    if fields != [] {
      SizesSum(fields[..|fields| - 1]);
      assert Sizes(fields)[..|fields| - 1] == Sizes(fields[..|fields| - 1]);
    }
  }

  lemma {:induction false} LengthsReadBack(fields: seq<seq<Byte>>, rest: seq<Byte>)
    requires Short(fields)
    ensures ReadLengths(Lengths(fields) + rest, |fields|) == Sizes(fields)
  {
    if fields != [] {
      var init, last := fields[..|fields| - 1], |fields[|fields| - 1]|;
      var bytes := Lengths(fields) + rest;
      assert bytes == Lengths(init) + (BigEndian(last) + rest);
      LengthsReadBack(init, BigEndian(last) + rest);
      assert bytes[4 * |fields| - 4..4 * |fields|] == BigEndian(last);
      LengthReadsBack(last);
    }
  }

  lemma {:induction false} BodiesCutBack(fields: seq<seq<Byte>>)
    ensures Sum(Sizes(fields)) == |Bodies(fields)|
    ensures Cut(Bodies(fields), Sizes(fields)) == fields
  {
    SizesSum(fields);
    if fields != [] {
      var init, last := fields[..|fields| - 1], fields[|fields| - 1];
      SizesSum(init);
      BodiesCutBack(init);
      assert Sizes(fields)[..|fields| - 1] == Sizes(init);
      assert Bodies(fields)[..|Bodies(fields)| - |last|] == Bodies(init);
      assert Bodies(fields)[|Bodies(fields)| - |last|..] == last;
      assert init + [last] == fields;
    }
  }

  /** Decoding an accepted output returns the exact six fields. */
  lemma MaterialRoundTrip(fields: seq<seq<Byte>>)
    requires Short(fields) && |fields| == 6
    ensures DecodeMaterial(Layout(fields)) == Some(fields)
  {
    var bytes := Layout(fields);
    assert bytes[..8] == MATERIAL_MAGIC;
    assert bytes[8..32] == Lengths(fields);
    assert bytes[32..] == Bodies(fields);
    LengthsReadBack(fields, []);
    assert Lengths(fields) + [] == Lengths(fields);
    SizesSum(fields);
    BodiesCutBack(fields);
  }

  lemma {:induction false} LengthsWriteBack(bytes: seq<Byte>, fields: seq<seq<Byte>>)
    requires |bytes| == 4 * |fields| && Short(fields) && Sizes(fields) == ReadLengths(bytes, |fields|)
    ensures Lengths(fields) == bytes
    decreases |fields|
  {
    hide FromBigEndian, BigEndian;
    if fields != [] {
      var n := |fields|;
      var init := fields[..n - 1];
      ReadPrefix(bytes, n - 1);
      assert Sizes(init) == Sizes(fields)[..n - 1] == ReadLengths(bytes, n - 1);
      LengthsWriteBack(bytes[..4 * n - 4], init);
      assert Sizes(fields)[n - 1] == FromBigEndian(bytes[4 * n - 4..4 * n]);
      LengthWritesBack(bytes[4 * n - 4..4 * n]);
      assert bytes == bytes[..4 * n - 4] + bytes[4 * n - 4..4 * n];
    }
  }

  lemma {:induction false} ReadPrefix(bytes: seq<Byte>, n: nat)
    requires |bytes| >= 4 * n
    ensures ReadLengths(bytes[..4 * n], n) == ReadLengths(bytes, n)
    decreases n
  {
    if n > 0 {
      ReadPrefix(bytes, n - 1);
      ReadPrefix(bytes[..4 * n], n - 1);
      assert bytes[..4 * n][..4 * (n - 1)] == bytes[..4 * (n - 1)];
      assert bytes[..4 * n][4 * n - 4..4 * n] == bytes[4 * n - 4..4 * n];
    }
  }

  lemma {:induction false} CutPasteBack(bytes: seq<Byte>, lengths: seq<nat>)
    requires |bytes| == Sum(lengths)
    ensures Bodies(Cut(bytes, lengths)) == bytes && Sizes(Cut(bytes, lengths)) == lengths
    decreases |lengths|
  {
    if lengths != [] {
      var last := lengths[|lengths| - 1];
      CutPasteBack(bytes[..|bytes| - last], lengths[..|lengths| - 1]);
      var fields := Cut(bytes, lengths);
      assert fields[..|fields| - 1] == Cut(bytes[..|bytes| - last], lengths[..|lengths| - 1]);
      assert bytes == bytes[..|bytes| - last] + bytes[|bytes| - last..];
    }
  }

  /** The other direction: whatever decodes to fields within bounds is their one encoding. */
  lemma MaterialUnique(bytes: seq<Byte>, fields: seq<seq<Byte>>)
    requires DecodeMaterial(bytes) == Some(fields) && Short(fields)
    ensures |fields| == 6 && bytes == Layout(fields)
  {
    var lengths := ReadLengths(bytes[8..32], 6);
    CutPasteBack(bytes[32..], lengths);
    LengthsWriteBack(bytes[8..32], fields);
    assert bytes == bytes[..8] + bytes[8..32] + bytes[32..];
  }

  // ----- the encoders -----

  lemma SixTotal(fields: seq<seq<Byte>>)
    requires |fields| == 6
    ensures Total(fields) == |fields[0]| + |fields[1]| + |fields[2]| + |fields[3]| + |fields[4]| + |fields[5]|
  {
    OneMore(fields, 0);
    OneMore(fields, 1);
    OneMore(fields, 2);
    OneMore(fields, 3);
    OneMore(fields, 4);
    OneMore(fields, 5);
    assert fields[..6] == fields && fields[..0] == [];
    assert Total(fields[..0]) == 0;
    hide Total, Bodies;
  }

  lemma SixBodies(fields: seq<seq<Byte>>)
    requires |fields| == 6
    ensures Bodies(fields) == fields[0] + fields[1] + fields[2] + fields[3] + fields[4] + fields[5]
  {
    assert Bodies(fields[..1]) == fields[0] by { OneMore(fields, 0); }
    hide Total, Bodies;
    OneMore(fields, 1);
    OneMore(fields, 2);
    OneMore(fields, 3);
    OneMore(fields, 4);
    OneMore(fields, 5);
    assert fields[..6] == fields;
  }

  /** What may be sent, in plain numbers. */
  lemma SendableIs(fields: seq<seq<Byte>>)
    requires |fields| == 6
    ensures Sendable(fields) <==>
      && fields[4] != [] && fields[5] != [] && (forall k :: 0 <= k < 6 ==> |fields[k]| <= 65_536)
      && 32 + |fields[0]| + |fields[1]| + |fields[2]| + |fields[3]| + |fields[4]| + |fields[5]| <= 393_216
  {
    SixTotal(fields);
  }

  lemma OneMore(fields: seq<seq<Byte>>, k: nat)
    requires k < |fields|
    ensures Total(fields[..k + 1]) == Total(fields[..k]) + |fields[k]|
    ensures Bodies(fields[..k + 1]) == Bodies(fields[..k]) + fields[k]
  {
    assert fields[..k + 1][..k] == fields[..k];
  }

  lemma {:induction false} LengthStands(before: seq<Byte>, fields: seq<seq<Byte>>, k: nat, rest: seq<Byte>)
    requires Short(fields) && k < |fields|
    ensures NumberAt(before + Lengths(fields) + rest, |before| + 4 * k, |fields[k]|)
    decreases |fields|
  {
    var init, last := fields[..|fields| - 1], |fields[|fields| - 1]|;
    if k == |fields| - 1 {
      assert before + Lengths(fields) + rest == (before + Lengths(init)) + BigEndian(last) + rest;
      BigEndianStands(before + Lengths(init), last, rest);
    } else {
      assert before + Lengths(fields) + rest == before + Lengths(init) + (BigEndian(last) + rest);
      LengthStands(before, init, k, BigEndian(last) + rest);
    }
  }

  /** What the material looks like byte by byte: the letters DTXBMT01, the six lengths, the six fields. */
  lemma LayoutIs(fields: seq<seq<Byte>>)
    requires |fields| == 6 && Short(fields)
    ensures var bytes := Layout(fields);
      && |bytes| == 32 + Total(fields)
      && bytes[..8] == [68, 84, 88, 66, 77, 84, 48, 49]
      && (forall k :: 0 <= k < 6 ==> NumberAt(bytes, 8 + 4 * k, |fields[k]|))
      && bytes[32..] == fields[0] + fields[1] + fields[2] + fields[3] + fields[4] + fields[5]
  {
    SixBodies(fields);
    SizesSum(fields);
    forall k | 0 <= k < 6 ensures NumberAt(Layout(fields), 8 + 4 * k, |fields[k]|) {
      LengthStands(MATERIAL_MAGIC, fields, k, Bodies(fields));
    }
  }

  method EncodeMaterial(fields: seq<seq<Byte>>) returns (r: Result<seq<Byte>>)
    requires |fields| == 6
    ensures r.Ok? <==> Sendable(fields)
    ensures r.Ok? <==>
      && fields[4] != [] && fields[5] != [] && (forall k :: 0 <= k < 6 ==> |fields[k]| <= 65_536)
      && 32 + |fields[0]| + |fields[1]| + |fields[2]| + |fields[3]| + |fields[4]| + |fields[5]| <= 393_216
    ensures r.Ok? ==> DecodeMaterial(r.value) == Some(fields)
    ensures r.Ok? ==>
      && r.value[..8] == [68, 84, 88, 66, 77, 84, 48, 49]
      && (forall k :: 0 <= k < 6 ==> NumberAt(r.value, 8 + 4 * k, |fields[k]|))
      && r.value[32..] == fields[0] + fields[1] + fields[2] + fields[3] + fields[4] + fields[5]
    ensures r.Err? ==> r.error == Contract
  {
    SendableIs(fields);
    var oversized := false;
    for k := 0 to |fields|
      invariant oversized <==> !Short(fields[..k])
    {
      assert fields[..k + 1][..k] == fields[..k];
      assert fields[..k + 1][k] == fields[k];
      oversized := oversized || |fields[k]| > MAX_FIELD;
    }
    assert fields[..|fields|] == fields;
    if fields[4] == [] || fields[5] == [] || oversized {
      return Err(Contract);
    }
    var output: seq<Byte> := MATERIAL_MAGIC;
    for k := 0 to |fields|
      invariant Short(fields[..k]) && output == MATERIAL_MAGIC + Lengths(fields[..k])
    {
      assert fields[..k + 1][..k] == fields[..k];
      output := output + BigEndian(|fields[k]|);
    }
    for k := 0 to |fields|
      invariant output == MATERIAL_MAGIC + Lengths(fields) + Bodies(fields[..k])
    {
      assert fields[..k + 1][..k] == fields[..k];
      output := output + fields[k];
    }
    SizesSum(fields);
    if |output| > MAX_PAYLOAD {
      return Err(Contract);
    }
    hide Bodies, Lengths, Total, NumberAt, DecodeMaterial;
    MaterialRoundTrip(fields);
    LayoutIs(fields);
    return Ok(output);
  }

  /** Reads a frame back: magic, length and header, length and payload, and nothing after it. */
  ghost function DecodeFrame(bytes: seq<Byte>): Option<(seq<Byte>, seq<Byte>, seq<Byte>)> {
    if |bytes| < 12 then None
    else
      var h := FromBigEndian(bytes[8..12]);
      if |bytes| < 16 + h then None
      else
        var p := FromBigEndian(bytes[12 + h..16 + h]);
        if |bytes| != 16 + h + p then None
        else Some((bytes[..8], bytes[12..12 + h], bytes[16 + h..]))
  }

  method EncodeFrame(magic: seq<Byte>, header: seq<Byte>, payload: seq<Byte>) returns (r: Result<seq<Byte>>)
    requires |magic| == 8
    ensures r.Ok? <==> 0 < |header| <= 16_384 && |payload| <= 393_216
    ensures r.Ok? ==> DecodeFrame(r.value) == Some((magic, header, payload))
    ensures r.Ok? ==>
      && |r.value| == 16 + |header| + |payload|
      && r.value[..8] == magic
      && NumberAt(r.value, 8, |header|) && r.value[12..12 + |header|] == header
      && NumberAt(r.value, 12 + |header|, |payload|) && r.value[16 + |header|..] == payload
    ensures r.Err? ==> r.error == Contract
  {
    if header == [] || |header| > MAX_HEADER || |payload| > MAX_PAYLOAD {
      return Err(Contract);
    }
    var frame := magic;
    frame := frame + BigEndian(|header|);
    frame := frame + header;
    frame := frame + BigEndian(|payload|);
    frame := frame + payload;
    LengthReadsBack(|header|);
    LengthReadsBack(|payload|);
    BigEndianStands(magic, |header|, header + BigEndian(|payload|) + payload);
    assert frame == magic + BigEndian(|header|) + (header + BigEndian(|payload|) + payload);
    BigEndianStands(magic + BigEndian(|header|) + header, |payload|, payload);
    assert frame[8..12] == BigEndian(|header|);
    assert frame[12 + |header|..16 + |header|] == BigEndian(|payload|);
    assert frame[..8] == magic && frame[12..12 + |header|] == header && frame[16 + |header|..] == payload;
    return Ok(frame);
  }

  /** A frame determines what was framed: two frames that decode alike are alike. */
  lemma FrameUnique(bytes: seq<Byte>, other: seq<Byte>)
    requires DecodeFrame(bytes).Some? && DecodeFrame(bytes) == DecodeFrame(other)
    ensures bytes == other
  {
    hide FromBigEndian, BigEndian;
    var h, g := FromBigEndian(bytes[8..12]), FromBigEndian(other[8..12]);
    LengthWritesBack(bytes[8..12]);
    LengthWritesBack(other[8..12]);
    assert |bytes[12..12 + h]| == h && |other[12..12 + g]| == g;
    assert h == g;
    LengthWritesBack(bytes[12 + h..16 + h]);
    LengthWritesBack(other[12 + h..16 + h]);
    assert bytes == bytes[..8] + bytes[8..12] + bytes[12..12 + h] + bytes[12 + h..16 + h] + bytes[16 + h..];
    assert other == other[..8] + other[8..12] + other[12..12 + h] + other[12 + h..16 + h] + other[16 + h..];
  }

  // ----- sizes -----

  /** Whatever the material encoder accepts can be framed, with any header the frame allows. */
  lemma AcceptedMaterialFits(fields: seq<seq<Byte>>)
    requires Sendable(fields)
    ensures |Layout(fields)| <= 393_216
  {
    SizesSum(fields);
  }

  lemma {:induction false} FullTotal(fields: seq<seq<Byte>>)
    requires forall k :: 0 <= k < |fields| ==> |fields[k]| == MAX_FIELD
    ensures Total(fields) == |fields| * MAX_FIELD
  {
    if fields != [] {
      FullTotal(fields[..|fields| - 1]);
    }
  }

  /** Six fields of the largest size each are refused together: 32 bytes too many. */
  lemma SixFullFieldsRefused(fields: seq<seq<Byte>>)
    requires |fields| == 6 && forall k :: 0 <= k < 6 ==> |fields[k]| == 65_536
    ensures Short(fields) && !Sendable(fields) && |Layout(fields)| == 393_216 + 32
  {
    FullTotal(fields);
    SizesSum(fields);
  }
}
