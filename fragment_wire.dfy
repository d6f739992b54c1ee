/**
 * The binary framing of a plan fragment: the recursive node framing
 * (payload, 4-byte child count, children in order), its templated variant
 * that stops after an aligned-scan payload, and the fragment layouts of the
 * stream and buffer serializers.
 *
 * The payload encodings of plan nodes, fragment ids and type providers
 * belong to classes outside this model. They are parameters here
 * (`WireCodecs`, a record of encode/decode functions); what the framing
 * relies on is stated as a hypothesis (`CodecsRoundTrip`) of the lemmas.
 */
module FragmentWire {
  import opened Results
  import opened BigEndian
  import opened PlanNodes

  datatype FragmentId = FragmentId(queryId: string, id: int)

  datatype DataType = Boolean | Int32Type | Int64Type | FloatType | DoubleType | Text

  /** The templated-query information that switches on the template encoders. */
  datatype TemplatedInfo = TemplatedInfo(measurements: seq<string>)

  /** Output column name to data type, and the optional templated information. */
  datatype TypeProvider = TypeProvider(columnTypes: map<string, DataType>, templatedInfo: Option<TemplatedInfo>)

  /** An encoder and a decoder; the decoder reports the value and how many bytes it consumed. */
  datatype PayloadCodec<!T> = PayloadCodec(encode: T -> seq<Byte>, decode: seq<Byte> -> Option<(T, nat)>)

  datatype WireCodecs = WireCodecs(
    fragmentId: PayloadCodec<FragmentId>,
    typeProvider: PayloadCodec<TypeProvider>,
    node: PayloadCodec<PlanNode>,
    templatedNode: TypeProvider -> PayloadCodec<PlanNode>)

  datatype DecodeError = BufferUnderflow | MalformedPayload

  /** A node as its payload carries it: children are framed separately. */
  function Childless(n: PlanNode): PlanNode
  {
    n.(children := [])
  }

  /** Decoding what was encoded, followed by anything, gives the value back and consumes exactly the encoding. */
  ghost predicate ValueRoundTrips<T(!new)>(c: PayloadCodec<T>)
  {
    && (forall x :: |c.encode(x)| > 0)
    && (forall x, rest :: c.decode(c.encode(x) + rest) == Some((x, |c.encode(x)|)))
  }

  /** The same for node payloads, which give back the node without its children. */
  ghost predicate NodeRoundTrips(c: PayloadCodec<PlanNode>)
  {
    && (forall n :: |c.encode(n)| > 0)
    && (forall n, rest :: c.decode(c.encode(n) + rest) == Some((Childless(n), |c.encode(n)|)))
  }

  ghost predicate CodecsRoundTrip(c: WireCodecs)
  {
    && ValueRoundTrips(c.fragmentId)
    && ValueRoundTrips(c.typeProvider)
    && NodeRoundTrips(c.node)
    && forall tp :: NodeRoundTrips(c.templatedNode(tp))
  }

  predicate IsTemplated(typeProvider: Option<TypeProvider>)
  {
    typeProvider.Some? && typeProvider.value.templatedInfo.Some?
  }

  predicate IsAlignedScan(n: PlanNode)
  {
    n.kind.AlignedSeriesScan? || n.kind.AlignedSeriesAggregationScan?
  }

  /** The template-aware payload codec when the type provider carries templated information. */
  function NodeCodecFor(c: WireCodecs, typeProvider: Option<TypeProvider>): PayloadCodec<PlanNode>
  {
    if IsTemplated(typeProvider) then c.templatedNode(typeProvider.value) else c.node
  }

  // ---------------------------------------------------------------------
  // Reading from a byte sequence at a cursor
  // ---------------------------------------------------------------------

  /** A payload read at `pos`; a decoder that makes no progress or overruns is malformed input. */
  function ReadPayload<T>(c: PayloadCodec<T>, data: seq<Byte>, pos: nat): (r: Result<(T, nat), DecodeError>)
    requires pos <= |data|
    ensures r.Success? ==> pos < r.value.1 <= |data|
  {
    match c.decode(data[pos..])
    case None => Failure(MalformedPayload)
    case Some((x, k)) => if 0 < k <= |data| - pos then Success((x, pos + k)) else Failure(MalformedPayload)
  }

  function ReadByte(data: seq<Byte>, pos: nat): (r: Result<(Byte, nat), DecodeError>)
    requires pos <= |data|
    ensures r.Success? <==> pos < |data|
    ensures r.Success? ==> r.value == (data[pos], pos + 1)
  {
    if pos < |data| then Success((data[pos], pos + 1)) else Failure(BufferUnderflow)
  }

  function ReadInt32(data: seq<Byte>, pos: nat): (r: Result<(int, nat), DecodeError>)
    requires pos <= |data|
    ensures r.Success? <==> pos + INT_BYTES <= |data|
    ensures r.Success? ==> r.value.1 == pos + INT_BYTES && IsInt32(r.value.0)
  {
    if pos + INT_BYTES <= |data| then Success((Int32(data[pos..pos + INT_BYTES]), pos + INT_BYTES))
    else Failure(BufferUnderflow)
  }

  // ---------------------------------------------------------------------
  // The node framing (deserializeHelper)
  // ---------------------------------------------------------------------

  /** The node framed at `pos`, and the position after it. */
  function DecodeNode(c: WireCodecs, typeProvider: Option<TypeProvider>, data: seq<Byte>, pos: nat)
    : (r: Result<(PlanNode, nat), DecodeError>)
    requires pos <= |data|
    ensures r.Success? ==> pos < r.value.1 <= |data|
    decreases |data| - pos, 0
  {
    match ReadPayload(NodeCodecFor(c, typeProvider), data, pos)
    case Failure(e) => Failure(e)
    case Success((root, afterPayload)) =>
      if IsTemplated(typeProvider) && IsAlignedScan(root) then Success((root, afterPayload))
      else
        match ReadInt32(data, afterPayload)
        case Failure(e) => Failure(e)
        case Success((count, afterCount)) => DecodeChildren(c, typeProvider, data, afterCount, root, count, 0)
  }

  /** Children `i` up to `count` framed from `pos` on, appended to `root` in read order. */
  function DecodeChildren(
    c: WireCodecs, typeProvider: Option<TypeProvider>, data: seq<Byte>, pos: nat,
    root: PlanNode, count: int, i: nat)
    : (r: Result<(PlanNode, nat), DecodeError>)
    requires pos <= |data|
    ensures r.Success? ==> pos <= r.value.1 <= |data|
    decreases |data| - pos, 1, count - i
  {
    if i >= count then Success((root, pos))
    else
      match DecodeNode(c, typeProvider, data, pos)
      case Failure(e) => Failure(e)
      case Success((child, next)) =>
        DecodeChildren(c, typeProvider, data, next, root.(children := root.children + [child]), count, i + 1)
  }

  // ---------------------------------------------------------------------
  // The matching encoder (PlanNode.serialize and serializeUseTemplate)
  // ---------------------------------------------------------------------

  /** Every child count of the tree fits the 4-byte count field. */
  ghost predicate Framable(n: PlanNode)
    decreases n
  {
    && IsInt32(|n.children|)
    && forall i :: 0 <= i < |n.children| ==> Framable(n.children[i])
  }

  /** In the templated layout an aligned scan carries no child count, so it must be a leaf to survive. */
  ghost predicate AlignedScansAreLeaves(n: PlanNode)
    decreases n
  {
    && (IsAlignedScan(n) ==> n.children == [])
    && forall i :: 0 <= i < |n.children| ==> AlignedScansAreLeaves(n.children[i])
  }

  /** Payload, then (unless a templated aligned scan) the child count and the children in order. */
  function EncodeTree(c: WireCodecs, typeProvider: Option<TypeProvider>, n: PlanNode): seq<Byte>
    requires Framable(n)
    decreases n, 1
  {
    NodeCodecFor(c, typeProvider).encode(n)
    + if IsTemplated(typeProvider) && IsAlignedScan(n) then []
      else EncodeInt32(|n.children|) + EncodeChildren(c, typeProvider, n, 0)
  }

  function EncodeChildren(c: WireCodecs, typeProvider: Option<TypeProvider>, n: PlanNode, i: nat): seq<Byte>
    requires Framable(n) && i <= |n.children|
    decreases n, 0, |n.children| - i
  {
    if i == |n.children| then []
    else EncodeTree(c, typeProvider, n.children[i]) + EncodeChildren(c, typeProvider, n, i + 1)
  }

  /**
   * The bytes of a node start with its payload; a templated aligned scan is
   * that payload alone, any other node continues with its child count.
   */
  lemma EncodeTreeLayout(c: WireCodecs, typeProvider: Option<TypeProvider>, n: PlanNode)
    requires Framable(n)
    ensures var s := EncodeTree(c, typeProvider, n);
            var payload := NodeCodecFor(c, typeProvider).encode(n);
            && |payload| <= |s| && s[..|payload|] == payload
            && (IsTemplated(typeProvider) && IsAlignedScan(n) ==> s == payload)
            && (!(IsTemplated(typeProvider) && IsAlignedScan(n)) ==>
                  |payload| + INT_BYTES <= |s| && Int32(s[|payload|..|payload| + INT_BYTES]) == |n.children|)
  {
    var payload := NodeCodecFor(c, typeProvider).encode(n);
    if !(IsTemplated(typeProvider) && IsAlignedScan(n)) {
      var s := EncodeTree(c, typeProvider, n);
      var count := EncodeInt32(|n.children|);
      assert s == payload + count + EncodeChildren(c, typeProvider, n, 0);
      assert s[|payload|..|payload| + INT_BYTES] == count;
    }
  }

  /** Without templated information the type provider does not affect the tree's bytes. */
  lemma {:induction false} EncodeTreeUntemplated(c: WireCodecs, typeProvider: Option<TypeProvider>, n: PlanNode)
    requires Framable(n) && !IsTemplated(typeProvider)
    ensures EncodeTree(c, typeProvider, n) == EncodeTree(c, None, n)
    decreases n, 1
  {
    EncodeChildrenUntemplated(c, typeProvider, n, 0);
  }

  lemma {:induction false} EncodeChildrenUntemplated(
    c: WireCodecs, typeProvider: Option<TypeProvider>, n: PlanNode, i: nat)
    requires Framable(n) && !IsTemplated(typeProvider) && i <= |n.children|
    ensures EncodeChildren(c, typeProvider, n, i) == EncodeChildren(c, None, n, i)
    decreases n, 0, |n.children| - i
  {
    if i < |n.children| {
      EncodeTreeUntemplated(c, typeProvider, n.children[i]);
      EncodeChildrenUntemplated(c, typeProvider, n, i + 1);
    }
  }

  /** `s` occurs in `data` at `pos`. */
  predicate At(data: seq<Byte>, pos: nat, s: seq<Byte>)
  {
    pos + |s| <= |data| && data[pos..pos + |s|] == s
  }

  lemma AtSplit(data: seq<Byte>, pos: nat, a: seq<Byte>, b: seq<Byte>)
    requires At(data, pos, a + b)
    ensures At(data, pos, a) && At(data, pos + |a|, b)
  {
    assert data[pos..pos + |a|] == (a + b)[..|a|];
    assert data[pos + |a|..pos + |a| + |b|] == (a + b)[|a|..];
  }

  lemma AtSuffix(data: seq<Byte>, pos: nat, s: seq<Byte>)
    requires At(data, pos, s)
    ensures data[pos..] == s + data[pos + |s|..]
  {
    assert data[pos..] == data[pos..pos + |s|] + data[pos + |s|..];
  }

  lemma ReadPayloadAt<T(!new)>(c: PayloadCodec<T>, data: seq<Byte>, pos: nat, x: T)
    requires ValueRoundTrips(c) && At(data, pos, c.encode(x))
    ensures ReadPayload(c, data, pos) == Success((x, pos + |c.encode(x)|))
  {
    AtSuffix(data, pos, c.encode(x));
    assert c.decode(c.encode(x) + data[pos + |c.encode(x)|..]) == Some((x, |c.encode(x)|));
  }

  lemma ReadNodePayloadAt(c: PayloadCodec<PlanNode>, data: seq<Byte>, pos: nat, n: PlanNode)
    requires NodeRoundTrips(c) && At(data, pos, c.encode(n))
    ensures ReadPayload(c, data, pos) == Success((Childless(n), pos + |c.encode(n)|))
  {
    AtSuffix(data, pos, c.encode(n));
    assert c.decode(c.encode(n) + data[pos + |c.encode(n)|..]) == Some((Childless(n), |c.encode(n)|));
  }

  lemma ReadInt32At(data: seq<Byte>, pos: nat, v: int)
    requires IsInt32(v) && At(data, pos, EncodeInt32(v))
    ensures ReadInt32(data, pos) == Success((v, pos + INT_BYTES))
  {
  }

  lemma NodeCodecForRoundTrips(c: WireCodecs, typeProvider: Option<TypeProvider>)
    requires CodecsRoundTrip(c)
    ensures NodeRoundTrips(NodeCodecFor(c, typeProvider))
  {
    if IsTemplated(typeProvider) {
      assert NodeRoundTrips(c.templatedNode(typeProvider.value));
    }
  }

  lemma {:induction false} DecodeEncodedNode(
    c: WireCodecs, typeProvider: Option<TypeProvider>, n: PlanNode, data: seq<Byte>, pos: nat)
    requires NodeRoundTrips(NodeCodecFor(c, typeProvider)) && Framable(n)
    requires IsTemplated(typeProvider) ==> AlignedScansAreLeaves(n)
    requires At(data, pos, EncodeTree(c, typeProvider, n))
    ensures DecodeNode(c, typeProvider, data, pos) == Success((n, pos + |EncodeTree(c, typeProvider, n)|))
    decreases n, 5
  {
    if IsTemplated(typeProvider) && IsAlignedScan(n) {
      DecodeEncodedAlignedScan(c, typeProvider, n, data, pos);
    } else {
      DecodeEncodedFramedNode(c, typeProvider, n, data, pos);
    }
  }

  lemma DecodeEncodedAlignedScan(
    c: WireCodecs, typeProvider: Option<TypeProvider>, n: PlanNode, data: seq<Byte>, pos: nat)
    requires NodeRoundTrips(NodeCodecFor(c, typeProvider)) && Framable(n)
    requires IsTemplated(typeProvider) && IsAlignedScan(n) && n.children == []
    requires At(data, pos, EncodeTree(c, typeProvider, n))
    ensures DecodeNode(c, typeProvider, data, pos) == Success((n, pos + |EncodeTree(c, typeProvider, n)|))
  {
    var codec := NodeCodecFor(c, typeProvider);
    var payload := codec.encode(n);
    assert EncodeTree(c, typeProvider, n) == payload + [];
    assert payload + [] == payload;
    ReadNodePayloadAt(codec, data, pos, n);
    assert Childless(n) == n;
  }

  lemma {:induction false} DecodeEncodedFramedNode(
    c: WireCodecs, typeProvider: Option<TypeProvider>, n: PlanNode, data: seq<Byte>, pos: nat)
    requires NodeRoundTrips(NodeCodecFor(c, typeProvider)) && Framable(n)
    requires IsTemplated(typeProvider) ==> AlignedScansAreLeaves(n)
    requires !(IsTemplated(typeProvider) && IsAlignedScan(n))
    requires At(data, pos, EncodeTree(c, typeProvider, n))
    ensures DecodeNode(c, typeProvider, data, pos) == Success((n, pos + |EncodeTree(c, typeProvider, n)|))
    decreases n, 4
  {
    var afterPayload := pos + |NodeCodecFor(c, typeProvider).encode(n)|;
    DecodeFramedHeader(c, typeProvider, n, data, pos, afterPayload);
    DecodeEncodedChildren(c, typeProvider, n, data, afterPayload + INT_BYTES, 0);
  }

  /** Past the payload and the child count of a framed node, decoding continues with its children. */
  lemma DecodeFramedHeader(
    c: WireCodecs, typeProvider: Option<TypeProvider>, n: PlanNode, data: seq<Byte>, pos: nat,
    afterPayload: nat)
    requires NodeRoundTrips(NodeCodecFor(c, typeProvider)) && Framable(n)
    requires !(IsTemplated(typeProvider) && IsAlignedScan(n))
    requires At(data, pos, EncodeTree(c, typeProvider, n))
    requires afterPayload == pos + |NodeCodecFor(c, typeProvider).encode(n)|
    ensures afterPayload + INT_BYTES <= |data|
    ensures At(data, afterPayload + INT_BYTES, EncodeChildren(c, typeProvider, n, 0))
    ensures pos + |EncodeTree(c, typeProvider, n)| == afterPayload + INT_BYTES + |EncodeChildren(c, typeProvider, n, 0)|
    ensures DecodeNode(c, typeProvider, data, pos)
         == DecodeChildren(
              c, typeProvider, data, afterPayload + INT_BYTES, n.(children := n.children[..0]), |n.children|, 0)
  {
    EncodeFramedTree(c, typeProvider, n);
    HeaderAt(NodeCodecFor(c, typeProvider), data, pos, n, EncodeChildren(c, typeProvider, n, 0), afterPayload);
    DecodeFramedNodeStep(c, typeProvider, data, pos, n, afterPayload);
  }

  /** A payload and a child count written at `pos`, followed by `kids`, read back. */
  lemma HeaderAt(
    codec: PayloadCodec<PlanNode>, data: seq<Byte>, pos: nat, n: PlanNode, kids: seq<Byte>, afterPayload: nat)
    requires NodeRoundTrips(codec) && IsInt32(|n.children|)
    requires At(data, pos, codec.encode(n) + (EncodeInt32(|n.children|) + kids))
    requires afterPayload == pos + |codec.encode(n)|
    ensures ReadPayload(codec, data, pos) == Success((Childless(n), afterPayload))
    ensures ReadInt32(data, afterPayload) == Success((|n.children|, afterPayload + INT_BYTES))
    ensures At(data, afterPayload + INT_BYTES, kids)
  {
    var payload := codec.encode(n);
    var count := EncodeInt32(|n.children|);
    AtSplit(data, pos, payload, count + kids);
    AtSplit(data, pos + |payload|, count, kids);
    ReadNodePayloadAt(codec, data, pos, n);
    ReadInt32At(data, pos + |payload|, |n.children|);
  }

  /** A node that is not a templated aligned scan is its payload, its child count and its children. */
  lemma EncodeFramedTree(c: WireCodecs, typeProvider: Option<TypeProvider>, n: PlanNode)
    requires Framable(n) && !(IsTemplated(typeProvider) && IsAlignedScan(n))
    ensures EncodeTree(c, typeProvider, n)
         == NodeCodecFor(c, typeProvider).encode(n) + (EncodeInt32(|n.children|) + EncodeChildren(c, typeProvider, n, 0))
  {
  }

  /** deserializeHelper, step by step, on a node that carries a child count. */
  lemma DecodeFramedNodeStep(
    c: WireCodecs, typeProvider: Option<TypeProvider>, data: seq<Byte>, pos: nat, n: PlanNode, afterPayload: nat)
    requires pos <= |data| && afterPayload + INT_BYTES <= |data|
    requires ReadPayload(NodeCodecFor(c, typeProvider), data, pos) == Success((Childless(n), afterPayload))
    requires !(IsTemplated(typeProvider) && IsAlignedScan(n))
    requires ReadInt32(data, afterPayload) == Success((|n.children|, afterPayload + INT_BYTES))
    ensures DecodeNode(c, typeProvider, data, pos)
         == DecodeChildren(
              c, typeProvider, data, afterPayload + INT_BYTES, n.(children := n.children[..0]), |n.children|, 0)
  {
    assert Childless(n) == n.(children := n.children[..0]);
  }

  /** The encoded children from `i` on are child `i` followed by the children after it. */
  lemma ChildrenSplit(c: WireCodecs, typeProvider: Option<TypeProvider>, n: PlanNode, data: seq<Byte>, pos: nat, i: nat)
    requires Framable(n) && i < |n.children|
    requires At(data, pos, EncodeChildren(c, typeProvider, n, i))
    ensures At(data, pos, EncodeTree(c, typeProvider, n.children[i]))
    ensures At(data, pos + |EncodeTree(c, typeProvider, n.children[i])|, EncodeChildren(c, typeProvider, n, i + 1))
    ensures |EncodeChildren(c, typeProvider, n, i)|
         == |EncodeTree(c, typeProvider, n.children[i])| + |EncodeChildren(c, typeProvider, n, i + 1)|
  {
    AtSplit(data, pos, EncodeTree(c, typeProvider, n.children[i]), EncodeChildren(c, typeProvider, n, i + 1));
  }

  /** Child `i` of `n` encoded at `pos` decodes, and the children after it follow. */
  lemma DecodeChildThenRest(
    c: WireCodecs, typeProvider: Option<TypeProvider>, n: PlanNode, data: seq<Byte>, pos: nat, i: nat,
    next: nat)
    requires NodeRoundTrips(NodeCodecFor(c, typeProvider)) && Framable(n) && i < |n.children|
    requires IsTemplated(typeProvider) ==> AlignedScansAreLeaves(n)
    requires At(data, pos, EncodeChildren(c, typeProvider, n, i))
    requires next == pos + |EncodeTree(c, typeProvider, n.children[i])|
    requires next <= |data|
    requires DecodeChildren(c, typeProvider, data, next, n.(children := n.children[..i + 1]), |n.children|, i + 1)
          == Success((n, next + |EncodeChildren(c, typeProvider, n, i + 1)|))
    ensures DecodeChildren(c, typeProvider, data, pos, n.(children := n.children[..i]), |n.children|, i)
         == Success((n, pos + |EncodeChildren(c, typeProvider, n, i)|))
    decreases n, 2, |n.children| - i
  {
    DecodeChildAt(c, typeProvider, n, data, pos, i, next);
    DecodeNextChild(
      c, typeProvider, n, data, pos, i, next, next + |EncodeChildren(c, typeProvider, n, i + 1)|,
      pos + |EncodeChildren(c, typeProvider, n, i)|);
  }

  /** Child `i` of `n`, encoded at the head of the children from `i` on, decodes to itself. */
  lemma DecodeChildAt(
    c: WireCodecs, typeProvider: Option<TypeProvider>, n: PlanNode, data: seq<Byte>, pos: nat, i: nat,
    next: nat)
    requires NodeRoundTrips(NodeCodecFor(c, typeProvider)) && Framable(n) && i < |n.children|
    requires IsTemplated(typeProvider) ==> AlignedScansAreLeaves(n)
    requires At(data, pos, EncodeChildren(c, typeProvider, n, i))
    requires next == pos + |EncodeTree(c, typeProvider, n.children[i])|
    ensures next <= |data|
    ensures DecodeNode(c, typeProvider, data, pos) == Success((n.children[i], next))
    ensures |EncodeChildren(c, typeProvider, n, i)| == next - pos + |EncodeChildren(c, typeProvider, n, i + 1)|
    decreases n, 1, |n.children| - i
  {
    ChildrenSplit(c, typeProvider, n, data, pos, i);
    DecodeEncodedNode(c, typeProvider, n.children[i], data, pos);
  }

  /** Reading child `i` of `n` and then the rest gives `n` back if the rest does. */
  lemma DecodeNextChild(
    c: WireCodecs, typeProvider: Option<TypeProvider>, n: PlanNode, data: seq<Byte>, pos: nat, i: nat,
    next: nat, restEnd: nat, end: nat)
    requires pos <= next <= |data|
    requires i < |n.children|
    requires restEnd == end
    requires DecodeNode(c, typeProvider, data, pos) == Success((n.children[i], next))
    requires DecodeChildren(c, typeProvider, data, next, n.(children := n.children[..i + 1]), |n.children|, i + 1)
          == Success((n, restEnd))
    ensures DecodeChildren(c, typeProvider, data, pos, n.(children := n.children[..i]), |n.children|, i)
         == Success((n, end))
  {
    assert n.children[..i] + [n.children[i]] == n.children[..i + 1];
  }

  lemma {:induction false} DecodeEncodedChildren(
    c: WireCodecs, typeProvider: Option<TypeProvider>, n: PlanNode, data: seq<Byte>, pos: nat, i: nat)
    requires NodeRoundTrips(NodeCodecFor(c, typeProvider)) && Framable(n) && i <= |n.children|
    requires IsTemplated(typeProvider) ==> AlignedScansAreLeaves(n)
    requires At(data, pos, EncodeChildren(c, typeProvider, n, i))
    ensures DecodeChildren(c, typeProvider, data, pos, n.(children := n.children[..i]), |n.children|, i)
         == Success((n, pos + |EncodeChildren(c, typeProvider, n, i)|))
    decreases n, 3, |n.children| - i
  {
    if i == |n.children| {
      assert n.children[..i] == n.children;
    } else {
      ChildrenSplit(c, typeProvider, n, data, pos, i);
      var next := pos + |EncodeTree(c, typeProvider, n.children[i])|;
      DecodeEncodedChildren(c, typeProvider, n, data, next, i + 1);
      DecodeChildThenRest(c, typeProvider, n, data, pos, i, next);
    }
  }

  /**
   * Node round trip: a framed tree decodes to itself and the cursor lands
   * just after it, whatever follows; in the templated layout this needs
   * every aligned scan to be a leaf.
   */
  lemma NodeRoundTrip(c: WireCodecs, typeProvider: Option<TypeProvider>, n: PlanNode, rest: seq<Byte>)
    requires CodecsRoundTrip(c) && Framable(n)
    requires IsTemplated(typeProvider) ==> AlignedScansAreLeaves(n)
    ensures DecodeNode(c, typeProvider, EncodeTree(c, typeProvider, n) + rest, 0)
         == Success((n, |EncodeTree(c, typeProvider, n)|))
  {
    var e := EncodeTree(c, typeProvider, n);
    assert (e + rest)[0..|e|] == e;
    NodeCodecForRoundTrips(c, typeProvider);
    DecodeEncodedNode(c, typeProvider, n, e + rest, 0);
  }

  /**
   * Templated early return: an aligned-scan root is encoded as its payload
   * alone, and the decoder stops right after that payload without reading a
   * child count, so any children the root had are not carried.
   */
  lemma TemplatedAlignedScanStopsAfterPayload(
    c: WireCodecs, typeProvider: Option<TypeProvider>, n: PlanNode, rest: seq<Byte>)
    requires CodecsRoundTrip(c) && Framable(n)
    requires IsTemplated(typeProvider) && IsAlignedScan(n)
    ensures EncodeTree(c, typeProvider, n) == c.templatedNode(typeProvider.value).encode(n)
    ensures DecodeNode(c, typeProvider, EncodeTree(c, typeProvider, n) + rest, 0)
         == Success((Childless(n), |EncodeTree(c, typeProvider, n)|))
  {
    var codec := c.templatedNode(typeProvider.value);
    assert NodeRoundTrips(codec);
    var e := EncodeTree(c, typeProvider, n);
    assert e == codec.encode(n) + [];
    assert codec.encode(n) + [] == codec.encode(n);
    assert (e + rest)[0..|e|] == e;
    ReadNodePayloadAt(codec, e + rest, 0, n);
  }

  // ---------------------------------------------------------------------
  // Fragment layouts (serialize / deserialize)
  // ---------------------------------------------------------------------

  /** serialize(DataOutputStream): id, presence byte, type provider if present, then the tree. */
  function StreamLayout(c: WireCodecs, id: FragmentId, typeProvider: Option<TypeProvider>, tree: PlanNode): seq<Byte>
    requires Framable(tree)
  {
    c.fragmentId.encode(id)
    + match typeProvider
      case None => [0 as Byte] + EncodeTree(c, None, tree)
      case Some(tp) => [1 as Byte] + c.typeProvider.encode(tp) + EncodeTree(c, typeProvider, tree)
  }

  /** serialize(ByteBuffer): id, then the (never templated) tree, then the presence byte and type provider. */
  function BufferLayout(c: WireCodecs, id: FragmentId, typeProvider: Option<TypeProvider>, tree: PlanNode): seq<Byte>
    requires Framable(tree)
  {
    c.fragmentId.encode(id) + EncodeTree(c, None, tree)
    + match typeProvider
      case None => [0 as Byte]
      case Some(tp) => [1 as Byte] + c.typeProvider.encode(tp)
  }

  /** The stream layout: the id, then the flag byte 1 or 0 for the type provider, and the tree last. */
  lemma {:induction false} StreamLayoutShape(c: WireCodecs, id: FragmentId, typeProvider: Option<TypeProvider>, tree: PlanNode)
    requires Framable(tree)
    ensures var s := StreamLayout(c, id, typeProvider, tree);
            var idBytes := c.fragmentId.encode(id);
            var treeBytes := EncodeTree(c, typeProvider, tree);
            && |idBytes| + |treeBytes| < |s| && s[..|idBytes|] == idBytes
            && s[|idBytes|] == (if typeProvider.Some? then 1 else 0)
            && s[|s| - |treeBytes|..] == treeBytes
  {
    var idBytes := c.fragmentId.encode(id);
    var treeBytes := EncodeTree(c, typeProvider, tree);
    var middle := if typeProvider.Some? then [1 as Byte] + c.typeProvider.encode(typeProvider.value) else [0 as Byte];
    assert typeProvider.None? ==> EncodeTree(c, None, tree) == treeBytes;
    assert StreamLayout(c, id, typeProvider, tree) == idBytes + middle + treeBytes;
  }

  /** The buffer layout: the id, then the untemplated tree, then the flag byte 1 or 0 for the type provider. */
  lemma {:induction false} BufferLayoutShape(c: WireCodecs, id: FragmentId, typeProvider: Option<TypeProvider>, tree: PlanNode)
    requires Framable(tree)
    ensures var s := BufferLayout(c, id, typeProvider, tree);
            var idBytes := c.fragmentId.encode(id);
            var treeBytes := EncodeTree(c, None, tree);
            && |idBytes| + |treeBytes| < |s|
            && s[..|idBytes|] == idBytes
            && s[|idBytes|..|idBytes| + |treeBytes|] == treeBytes
            && s[|idBytes| + |treeBytes|] == (if typeProvider.Some? then 1 else 0)
  {
    var idBytes := c.fragmentId.encode(id);
    var treeBytes := EncodeTree(c, None, tree);
    var tail := if typeProvider.Some? then [1 as Byte] + c.typeProvider.encode(typeProvider.value) else [0 as Byte];
    assert BufferLayout(c, id, typeProvider, tree) == idBytes + treeBytes + tail;
  }

  datatype DecodedFragment = DecodedFragment(
    id: FragmentId, typeProvider: Option<TypeProvider>, tree: PlanNode, end: nat)

  /** deserialize from `pos`: id, presence byte, the type provider when that byte is 1, then the tree. */
  function DecodeFragment(c: WireCodecs, data: seq<Byte>, pos: nat): (r: Result<DecodedFragment, DecodeError>)
    requires pos <= |data|
    ensures r.Success? ==> pos < r.value.end <= |data|
  {
    match ReadPayload(c.fragmentId, data, pos)
    case Failure(e) => Failure(e)
    case Success((id, afterId)) =>
      match ReadByte(data, afterId)
      case Failure(e) => Failure(e)
      case Success((hasTypeProvider, afterFlag)) =>
        var typeProvider: Result<(Option<TypeProvider>, nat), DecodeError> :=
          if hasTypeProvider == 1 then
            match ReadPayload(c.typeProvider, data, afterFlag)
            case Failure(e) => Failure(e)
            case Success((tp, next)) => Success((Some(tp), next))
          else Success((None, afterFlag));
        match typeProvider
        case Failure(e) => Failure(e)
        case Success((provided, afterTypeProvider)) =>
          match DecodeNode(c, provided, data, afterTypeProvider)
          case Failure(e) => Failure(e)
          case Success((tree, end)) => Success(DecodedFragment(id, provided, tree, end))
  }

  /**
   * Fragment round trip for the stream layout: deserialize gives back the
   * id, the type provider and the tree, and consumes exactly the layout.
   */
  lemma StreamLayoutRoundTrip(
    c: WireCodecs, id: FragmentId, typeProvider: Option<TypeProvider>, tree: PlanNode, rest: seq<Byte>)
    requires CodecsRoundTrip(c) && Framable(tree)
    requires IsTemplated(typeProvider) ==> AlignedScansAreLeaves(tree)
    ensures DecodeFragment(c, StreamLayout(c, id, typeProvider, tree) + rest, 0)
         == Success(DecodedFragment(id, typeProvider, tree, |StreamLayout(c, id, typeProvider, tree)|))
  {
    var layout := StreamLayout(c, id, typeProvider, tree);
    var data := layout + rest;
    assert data[0..|layout|] == layout;
    ReadPayloadAtStart(c, id, typeProvider, tree, data);
    if typeProvider.None? {
      StreamRoundTripWithoutTypeProvider(c, id, tree, data);
    } else {
      StreamRoundTripWithTypeProvider(c, id, typeProvider.value, tree, data);
    }
  }

  lemma ReadPayloadAtStart(
    c: WireCodecs, id: FragmentId, typeProvider: Option<TypeProvider>, tree: PlanNode, data: seq<Byte>)
    requires CodecsRoundTrip(c) && Framable(tree)
    requires At(data, 0, StreamLayout(c, id, typeProvider, tree))
    ensures ReadPayload(c.fragmentId, data, 0) == Success((id, |c.fragmentId.encode(id)|))
  {
    var idBytes := c.fragmentId.encode(id);
    var layout := StreamLayout(c, id, typeProvider, tree);
    AtSplit(data, 0, idBytes, layout[|idBytes|..]);
    ReadPayloadAt(c.fragmentId, data, 0, id);
  }

  lemma {:induction false} StreamRoundTripWithoutTypeProvider(c: WireCodecs, id: FragmentId, tree: PlanNode, data: seq<Byte>)
    requires CodecsRoundTrip(c) && Framable(tree)
    requires At(data, 0, StreamLayout(c, id, None, tree))
    requires ReadPayload(c.fragmentId, data, 0) == Success((id, |c.fragmentId.encode(id)|))
    ensures DecodeFragment(c, data, 0) == Success(DecodedFragment(id, None, tree, |StreamLayout(c, id, None, tree)|))
  {
    var idBytes := c.fragmentId.encode(id);
    var treeBytes := EncodeTree(c, None, tree);
    assert StreamLayout(c, id, None, tree) == idBytes + ([0 as Byte] + treeBytes);
    AtSplit(data, 0, idBytes, [0 as Byte] + treeBytes);
    AtSplit(data, |idBytes|, [0 as Byte], treeBytes);
    assert ReadByte(data, |idBytes|) == Success((0 as Byte, |idBytes| + 1));
    DecodeEncodedNode(c, None, tree, data, |idBytes| + 1);
  }

  lemma {:induction false} StreamRoundTripWithTypeProvider(
    c: WireCodecs, id: FragmentId, tp: TypeProvider, tree: PlanNode, data: seq<Byte>)
    requires CodecsRoundTrip(c) && Framable(tree)
    requires IsTemplated(Some(tp)) ==> AlignedScansAreLeaves(tree)
    requires At(data, 0, StreamLayout(c, id, Some(tp), tree))
    requires ReadPayload(c.fragmentId, data, 0) == Success((id, |c.fragmentId.encode(id)|))
    ensures DecodeFragment(c, data, 0) == Success(DecodedFragment(id, Some(tp), tree, |StreamLayout(c, id, Some(tp), tree)|))
  {
    var afterId := |c.fragmentId.encode(id)|;
    var afterTypeProvider := afterId + 1 + |c.typeProvider.encode(tp)|;
    StreamTypeProviderPrefix(c, id, tp, tree, data);
    DecodeEncodedNode(c, Some(tp), tree, data, afterTypeProvider);
    DecodeFragmentWithTypeProvider(c, data, id, afterId, tp, afterTypeProvider, tree,
                                   |StreamLayout(c, id, Some(tp), tree)|);
  }

  /** In the stream layout with a type provider, the flag and the type provider read back, and the tree follows. */
  lemma {:induction false} StreamTypeProviderPrefix(
    c: WireCodecs, id: FragmentId, tp: TypeProvider, tree: PlanNode, data: seq<Byte>)
    requires CodecsRoundTrip(c) && Framable(tree)
    requires At(data, 0, StreamLayout(c, id, Some(tp), tree))
    ensures var afterId := |c.fragmentId.encode(id)|;
            var afterTypeProvider := afterId + 1 + |c.typeProvider.encode(tp)|;
            && afterId < |data|
            && ReadByte(data, afterId) == Success((1 as Byte, afterId + 1))
            && ReadPayload(c.typeProvider, data, afterId + 1) == Success((tp, afterTypeProvider))
            && At(data, afterTypeProvider, EncodeTree(c, Some(tp), tree))
            && |StreamLayout(c, id, Some(tp), tree)| == afterTypeProvider + |EncodeTree(c, Some(tp), tree)|
  {
    var idBytes := c.fragmentId.encode(id);
    var tpBytes := c.typeProvider.encode(tp);
    var treeBytes := EncodeTree(c, Some(tp), tree);
    assert StreamLayout(c, id, Some(tp), tree) == idBytes + ([1 as Byte] + (tpBytes + treeBytes));
    AtSplit(data, 0, idBytes, [1 as Byte] + (tpBytes + treeBytes));
    AtSplit(data, |idBytes|, [1 as Byte], tpBytes + treeBytes);
    AtSplit(data, |idBytes| + 1, tpBytes, treeBytes);
    assert ReadByte(data, |idBytes|) == Success((1 as Byte, |idBytes| + 1));
    ReadPayloadAt(c.typeProvider, data, |idBytes| + 1, tp);
  }

  /** deserialize, step by step, when the presence flag is 1. */
  lemma DecodeFragmentWithTypeProvider(
    c: WireCodecs, data: seq<Byte>, id: FragmentId, afterId: nat, tp: TypeProvider, afterTypeProvider: nat,
    tree: PlanNode, end: nat)
    requires afterId < |data| && afterTypeProvider <= |data|
    requires ReadPayload(c.fragmentId, data, 0) == Success((id, afterId))
    requires ReadByte(data, afterId) == Success((1 as Byte, afterId + 1))
    requires ReadPayload(c.typeProvider, data, afterId + 1) == Success((tp, afterTypeProvider))
    requires DecodeNode(c, Some(tp), data, afterTypeProvider) == Success((tree, end))
    ensures DecodeFragment(c, data, 0) == Success(DecodedFragment(id, Some(tp), tree, end))
  {
  }

  /**
   * The buffer layout is not the layout deserialize reads: the byte that
   * deserialize takes as the type-provider presence flag is the first byte
   * of the tree's payload, not the flag the buffer serializer wrote.
   */
  lemma BufferLayoutFlagIsTreeByte(
    c: WireCodecs, id: FragmentId, typeProvider: Option<TypeProvider>, tree: PlanNode)
    requires CodecsRoundTrip(c) && Framable(tree)
    ensures var layout := BufferLayout(c, id, typeProvider, tree);
            var flagAt := |c.fragmentId.encode(id)|;
            && ReadPayload(c.fragmentId, layout, 0) == Success((id, flagAt))
            && ReadByte(layout, flagAt) == Success((c.node.encode(tree)[0], flagAt + 1))
  {
    var layout := BufferLayout(c, id, typeProvider, tree);
    var idBytes := c.fragmentId.encode(id);
    var treeBytes := EncodeTree(c, None, tree);
    var tail := match typeProvider case None => [0 as Byte] case Some(tp) => [1 as Byte] + c.typeProvider.encode(tp);
    assert layout == idBytes + (treeBytes + tail);
    assert layout[0..|layout|] == layout;
    AtSplit(layout, 0, idBytes, treeBytes + tail);
    ReadPayloadAt(c.fragmentId, layout, 0, id);
    assert |c.node.encode(tree)| > 0;
    assert treeBytes[0] == c.node.encode(tree)[0];
    assert layout[|idBytes|] == (treeBytes + tail)[0];
  }

  // ---------------------------------------------------------------------
  // The imperative reader and writer
  // ---------------------------------------------------------------------

  function ValueOf<T>(r: Result<(T, nat), DecodeError>): Result<T, DecodeError>
  {
    match r
    case Success((x, _)) => Success(x)
    case Failure(e) => Failure(e)
  }

  function PositionAfter<T>(r: Result<(T, nat), DecodeError>, pos: nat): nat
  {
    if r.Success? then r.value.1 else pos
  }

  /** A read cursor over a byte array (java.nio.ByteBuffer). */
  class ByteBuffer {
    const data: seq<Byte>
    var position: nat

    ghost predicate Valid()
      reads this
    {
      position <= |data|
    }

    constructor Wrap(bytes: seq<Byte>)
      ensures Valid() && data == bytes && position == 0
    {
      data := bytes;
      position := 0;
    }

    method Get() returns (r: Result<Byte, DecodeError>)
      requires Valid()
      modifies this
      ensures Valid()
      ensures r == ValueOf(ReadByte(data, old(position)))
      ensures position == PositionAfter(ReadByte(data, old(position)), old(position))
    {
      if position < |data| {
        r := Success(data[position]);
        position := position + 1;
      } else {
        r := Failure(BufferUnderflow);
      }
    }

    method GetInt() returns (r: Result<int, DecodeError>)
      requires Valid()
      modifies this
      ensures Valid()
      ensures r == ValueOf(ReadInt32(data, old(position)))
      ensures position == PositionAfter(ReadInt32(data, old(position)), old(position))
    {
      if position + INT_BYTES <= |data| {
        r := Success(Int32(data[position..position + INT_BYTES]));
        position := position + INT_BYTES;
      } else {
        r := Failure(BufferUnderflow);
      }
    }

    method GetPayload<T>(codec: PayloadCodec<T>) returns (r: Result<T, DecodeError>)
      requires Valid()
      modifies this
      ensures Valid()
      ensures r == ValueOf(ReadPayload(codec, data, old(position)))
      ensures position == PositionAfter(ReadPayload(codec, data, old(position)), old(position))
    {
      var decoded := ReadPayload(codec, data, position);
      r := ValueOf(decoded);
      position := PositionAfter(decoded, position);
    }
  }

  /** A growing output (java.io.DataOutputStream over a byte array). */
  class OutputStream {
    var written: seq<Byte>

    constructor ()
      ensures written == []
    {
      written := [];
    }

    method Write(bytes: seq<Byte>)
      modifies this
      ensures written == old(written) + bytes
    {
      written := written + bytes;
    }
  }

  /**
   * deserializeHelper: reads one node, then (unless it is a templated
   * aligned scan) a child count and that many subtrees, adding each as a
   * child in read order.
   */
  method DeserializeHelper(c: WireCodecs, buffer: ByteBuffer, typeProvider: Option<TypeProvider>)
    returns (r: Result<PlanNode, DecodeError>)
    requires buffer.Valid()
    modifies buffer
    ensures buffer.Valid()
    ensures r == ValueOf(DecodeNode(c, typeProvider, buffer.data, old(buffer.position)))
    ensures r.Success? ==> buffer.position == DecodeNode(c, typeProvider, buffer.data, old(buffer.position)).value.1
    decreases |buffer.data| - buffer.position
  {
    ghost var start := buffer.position;
    var payload := buffer.GetPayload(NodeCodecFor(c, typeProvider));
    if payload.Failure? {
      return Failure(payload.error);
    }
    var root := payload.value;
    if IsTemplated(typeProvider) && IsAlignedScan(root) {
      return Success(root);
    }
    var count := buffer.GetInt();
    if count.Failure? {
      return Failure(count.error);
    }
    var childrenCount := count.value;
    ghost var whole := DecodeChildren(c, typeProvider, buffer.data, buffer.position, root, childrenCount, 0);
    assert whole == DecodeNode(c, typeProvider, buffer.data, start);
    var i: nat := 0;
    while i < childrenCount
      invariant buffer.Valid() && start < buffer.position
      invariant DecodeChildren(c, typeProvider, buffer.data, buffer.position, root, childrenCount, i) == whole
      decreases childrenCount - i
    {
      var child := DeserializeHelper(c, buffer, typeProvider);
      if child.Failure? {
        return Failure(child.error);
      }
      root := root.(children := root.children + [child.value]);
      i := i + 1;
    }
    return Success(root);
  }
}
