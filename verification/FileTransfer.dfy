/**
 * Binary file transfers: the frames an upload is cut into, and the reassembly of such frames
 * into the result of a pending read, whatever frames of other requests come in between.
 */
module FileTransfer {
  import opened Wrappers
  import opened Sequences

  newtype byte = x: int | 0 <= x < 256

  datatype Metadata = Metadata(mime: string, size: nat, encoding: string, modifiedAt: string, revision: Option<string>)

  datatype Frame =
    | Begin(requestId: string, metadata: Metadata)
    | Chunk(requestId: string, payload: seq<byte>)
    | End(requestId: string)

  datatype FileKind = Image | Text | Binary

  datatype PendingRead = PendingRead(cwd: string, path: string, maxBytes: Option<nat>)

  datatype Transfer = Transfer(read: PendingRead, metadata: Metadata, chunks: seq<seq<byte>>)

  datatype FileRead = FileRead(bytes: seq<byte>, metadata: Metadata, path: string, kind: FileKind)

  /** The message that completes a read's request. */
  datatype Response = Response(requestId: string, cwd: string, path: string, error: Option<string>)

  const TOO_LARGE: string := "File is too large to display"

  predicate StartsWith(s: string, prefix: string) { |prefix| <= |s| && s[..|prefix|] == prefix }

  function KindOf(mime: string, encoding: string): FileKind {
    if StartsWith(mime, "image/") then Image
    else if encoding == "utf-8" || StartsWith(mime, "text/") || mime == "application/json" then Text
    else Binary
  }

  /** A limit of zero is no limit. */
  predicate TooLarge(t: Transfer) {
    t.read.maxBytes.Some? && t.read.maxBytes.value != 0 && t.metadata.size > t.read.maxBytes.value
  }

  function Zeros(n: nat): seq<byte> {
    seq(n, _ => 0)
  }

  /** The kind of a file: images by type, text by encoding or type, everything else binary. */
  lemma KindExactly(subtype: string, mime: string, encoding: string)
    ensures KindOf("image/" + subtype, encoding) == Image
    ensures KindOf("text/" + subtype, encoding) == Text && KindOf("application/json", encoding) == Text
    ensures KindOf(mime, encoding) == Image ==> |mime| >= 6 && mime[..6] == "image/"
    ensures KindOf(mime, encoding) != Image ==>
              (KindOf(mime, encoding) == Text <==>
                 encoding == "utf-8" || mime == "application/json" || (|mime| >= 5 && mime[..5] == "text/"))
  {
    assert ("image/" + subtype)[..6] == "image/" && ("text/" + subtype)[..5] == "text/";
    assert ("text/" + subtype)[0] == 't' && "application/json"[0] == 'a' && "image/"[0] == 'i';
    assert |"text/" + subtype| >= 6 ==> ("text/" + subtype)[..6][0] == 't';
    assert "application/json"[..6][0] == 'a';
  }

  // ---------------------------------------------------------------------------
  // One read
  // ---------------------------------------------------------------------------

  /** What the client keeps about one request id. */
  datatype Read = Read(
    pending: Option<PendingRead>,
    active: Option<Transfer>,
    completed: Option<FileRead>,
    responses: seq<Response>)

  datatype Handled = Handled(read: Read, rangeError: bool)

  function Assemble(t: Transfer): Option<FileRead> {
    var bytes := Flatten(t.chunks);
    if |bytes| > t.metadata.size then None
    else Some(FileRead(bytes + Zeros(t.metadata.size - |bytes|), t.metadata, t.read.path,
                       KindOf(t.metadata.mime, t.metadata.encoding)))
  }

  function EndTransfer(r: Read, id: string, t: Transfer): Handled {
    if TooLarge(t) then
      Handled(r.(active := None, responses := r.responses + [Response(id, t.read.cwd, t.read.path, Some(TOO_LARGE))]),
              false)
    else
      match Assemble(t)
      case None => Handled(r, true)
      case Some(file) =>
        Handled(r.(active := None, completed := Some(file),
                   responses := r.responses + [Response(id, t.read.cwd, t.read.path, None)]), false)
  }

  function HandleOwn(r: Read, f: Frame): Handled {
    match f
    case Begin(_, metadata) =>
      if r.pending.None? then Handled(r, false)
      else Handled(r.(active := Some(Transfer(r.pending.value, metadata, []))), false)
    case Chunk(_, payload) =>
      if r.active.None? || TooLarge(r.active.value) then Handled(r, false)
      else
        var t := r.active.value;
        Handled(r.(active := Some(t.(chunks := t.chunks + [payload]))), false)
    case End(id) =>
      if r.active.None? then Handled(r, false) else EndTransfer(r, id, r.active.value)
  }

  // ---------------------------------------------------------------------------
  // All reads
  // ---------------------------------------------------------------------------

  datatype Reads = Reads(
    pending: map<string, PendingRead>,
    active: map<string, Transfer>,
    completed: map<string, FileRead>,
    responses: seq<Response>)

  function Get<V>(m: map<string, V>, id: string): Option<V> {
    if id in m then Some(m[id]) else None
  }

  /** `m.set(id, v)`, or `m.delete(id)` when there is no value. */
  function Set<V>(m: map<string, V>, id: string, v: Option<V>): map<string, V> {
    if v.Some? then m[id := v.value] else m - {id}
  }

  function ResponsesTo(responses: seq<Response>, id: string): seq<Response> {
    if responses == [] then []
    else if responses[0].requestId == id then [responses[0]] + ResponsesTo(responses[1..], id)
    else ResponsesTo(responses[1..], id)
  }

  /** The part of the client's state that concerns one request. */
  function View(s: Reads, id: string): Read {
    Read(Get(s.pending, id), Get(s.active, id), Get(s.completed, id), ResponsesTo(s.responses, id))
  }

  /** A frame acts on the entries of its own request. */
  function Handle(s: Reads, f: Frame): Reads {
    var id := f.requestId;
    var r := HandleOwn(Read(Get(s.pending, id), Get(s.active, id), Get(s.completed, id), []), f).read;
    Reads(s.pending, Set(s.active, id, r.active), Set(s.completed, id, r.completed), s.responses + r.responses)
  }

  function HandleAll(s: Reads, fs: seq<Frame>): Reads
    decreases |fs|
  {
    if fs == [] then s else HandleAll(Handle(s, fs[0]), fs[1..])
  }

  function HandleOwnAll(r: Read, fs: seq<Frame>): Read
    decreases |fs|
  {
    if fs == [] then r else HandleOwnAll(HandleOwn(r, fs[0]).read, fs[1..])
  }

  /** The frames of one request, in order. */
  function Of(fs: seq<Frame>, id: string): seq<Frame> {
    if fs == [] then []
    else if fs[0].requestId == id then [fs[0]] + Of(fs[1..], id)
    else Of(fs[1..], id)
  }

  lemma {:induction false} ResponsesAppend(a: seq<Response>, b: seq<Response>, id: string)
    ensures ResponsesTo(a + b, id) == ResponsesTo(a, id) + ResponsesTo(b, id)
  {
    if a == [] {
      assert a + b == b;
    } else {
      assert (a + b)[0] == a[0] && (a + b)[1..] == a[1..] + b;
      ResponsesAppend(a[1..], b, id);
      Assoc([a[0]], ResponsesTo(a[1..], id), ResponsesTo(b, id));
    }
  }

  /** Frames add to the responses, whatever was there before. */
  lemma HandleOwnResponses(r: Read, f: Frame)
    ensures var bare := HandleOwn(r.(responses := []), f);
            HandleOwn(r, f) == Handled(bare.read.(responses := r.responses + bare.read.responses), bare.rangeError)
    ensures |HandleOwn(r.(responses := []), f).read.responses| <= 1
    ensures forall e :: e in HandleOwn(r.(responses := []), f).read.responses ==> e.requestId == f.requestId
  {
    hide Assemble, TooLarge;
  }

  lemma ResponsesOfOne(responses: seq<Response>, owner: string, id: string)
    requires |responses| <= 1 && forall e :: e in responses ==> e.requestId == owner
    ensures ResponsesTo(responses, id) == if owner == id then responses else []
  {
    if responses != [] {
      assert responses[0] in responses && responses[1..] == [];
    }
  }

  lemma HandleOwnKeepsPending(r: Read, f: Frame)
    ensures HandleOwn(r, f).read.pending == r.pending
  {
  }

  /** A frame touches only what concerns its own request. */
  lemma FrameIsLocal(s: Reads, f: Frame, id: string)
    ensures View(Handle(s, f), id) == if f.requestId == id then HandleOwn(View(s, id), f).read else View(s, id)
  {
    hide HandleOwn, ResponsesTo;
    var own := View(s, f.requestId);
    HandleOwnResponses(own, f);
    var bare := HandleOwn(own.(responses := []), f).read;
    assert Handle(s, f) == Reads(s.pending, Set(s.active, f.requestId, bare.active),
                                 Set(s.completed, f.requestId, bare.completed), s.responses + bare.responses);
    ResponsesAppend(s.responses, bare.responses, id);
    ResponsesOfOne(bare.responses, f.requestId, id);
    HandleOwnKeepsPending(own, f);
  }

  /** A request sees only its own frames, however they are interleaved with others. */
  lemma {:induction false} InterleavingIsInvisible(s: Reads, fs: seq<Frame>, id: string)
    ensures View(HandleAll(s, fs), id) == HandleOwnAll(View(s, id), Of(fs, id))
    decreases fs
  {
    if fs != [] {
      hide View, Handle, HandleOwn;
      FrameIsLocal(s, fs[0], id);
      InterleavingIsInvisible(Handle(s, fs[0]), fs[1..], id);
      if fs[0].requestId == id {
        assert ([fs[0]] + Of(fs[1..], id))[1..] == Of(fs[1..], id);
      }
    }
  }

  // ---------------------------------------------------------------------------
  // Reassembly
  // ---------------------------------------------------------------------------

  function Chunks(id: string, payloads: seq<seq<byte>>): seq<Frame> {
    if payloads == [] then [] else [Chunk(id, payloads[0])] + Chunks(id, payloads[1..])
  }

  /** The frames of one transfer: its announcement, its chunks and its end. */
  function TransferFrames(id: string, metadata: Metadata, payloads: seq<seq<byte>>): seq<Frame> {
    [Begin(id, metadata)] + Chunks(id, payloads) + [End(id)]
  }

  lemma {:induction false} OwnAppend(r: Read, a: seq<Frame>, b: seq<Frame>)
    ensures HandleOwnAll(r, a + b) == HandleOwnAll(HandleOwnAll(r, a), b)
    decreases a
  {
    if a == [] {
      assert a + b == b;
    } else {
      hide HandleOwn;
      assert (a + b)[0] == a[0] && (a + b)[1..] == a[1..] + b;
      OwnAppend(HandleOwn(r, a[0]).read, a[1..], b);
    }
  }

  lemma OwnOne(r: Read, f: Frame)
    ensures HandleOwnAll(r, [f]) == HandleOwn(r, f).read
  {
    hide HandleOwn;
    assert [f][1..] == [];
  }

  lemma LimitIgnoresChunks(t: Transfer, chunks: seq<seq<byte>>)
    ensures TooLarge(t.(chunks := chunks)) == TooLarge(t)
  {
  }

  lemma OneChunk(r: Read, id: string, payload: seq<byte>)
    requires r.active.Some?
    ensures var t := r.active.value;
            HandleOwn(r, Chunk(id, payload)).read
              == if TooLarge(t) then r else r.(active := Some(t.(chunks := t.chunks + [payload])))
  {
    hide TooLarge;
  }

  /** Chunks pile up in order; those of a transfer over its limit are dropped. */
  lemma {:induction false} ChunksPileUp(r: Read, id: string, payloads: seq<seq<byte>>)
    requires r.active.Some?
    ensures var t := r.active.value;
            HandleOwnAll(r, Chunks(id, payloads))
              == if TooLarge(t) then r else r.(active := Some(t.(chunks := t.chunks + payloads)))
    decreases payloads
  {
    hide TooLarge, HandleOwn;
    var t := r.active.value;
    if payloads == [] {
      assert t.chunks + payloads == t.chunks;
    } else {
      assert Chunks(id, payloads)[1..] == Chunks(id, payloads[1..]);
      OneChunk(r, id, payloads[0]);
      LimitIgnoresChunks(t, t.chunks + [payloads[0]]);
      ChunksPileUp(HandleOwn(r, Chunk(id, payloads[0])).read, id, payloads[1..]);
      Assoc(t.chunks, [payloads[0]], payloads[1..]);
      assert [payloads[0]] + payloads[1..] == payloads;
    }
  }

  /** The outcome of a transfer whose frames arrive in order. */
  function Outcome(r: Read, id: string, metadata: Metadata, payloads: seq<seq<byte>>): Read
    requires r.pending.Some?
  {
    var t := Transfer(r.pending.value, metadata, payloads);
    if TooLarge(t) then
      r.(active := None, responses := r.responses + [Response(id, t.read.cwd, t.read.path, Some(TOO_LARGE))])
    else match Assemble(t)
      case None => r.(active := Some(t))
      case Some(file) =>
        r.(active := None, completed := Some(file),
           responses := r.responses + [Response(id, t.read.cwd, t.read.path, None)])
  }

  lemma TransferOutcome(r: Read, id: string, metadata: Metadata, payloads: seq<seq<byte>>)
    requires r.pending.Some?
    ensures HandleOwnAll(r, TransferFrames(id, metadata, payloads)) == Outcome(r, id, metadata, payloads)
  {
    hide Assemble, TooLarge, Chunks, HandleOwnAll;
    var begun := HandleOwn(r, Begin(id, metadata)).read;
    OwnOne(r, Begin(id, metadata));
    OwnAppend(r, [Begin(id, metadata)], Chunks(id, payloads));
    ChunksPileUp(begun, id, payloads);
    assert [] + payloads == payloads;
    var filled := HandleOwnAll(begun, Chunks(id, payloads));
    OwnAppend(r, [Begin(id, metadata)] + Chunks(id, payloads), [End(id)]);
    OwnOne(filled, End(id));
    assert TooLarge(Transfer(r.pending.value, metadata, payloads)) == TooLarge(begun.active.value) by {
      LimitIgnoresChunks(begun.active.value, payloads);
    }
  }

  /**
   * For a pending read whose frames arrive, in their order and interleaved with any frames of
   * other requests: it completes with exactly the bytes sent, padded with zeros to the announced
   * size, if that is within its limit and not exceeded by the chunks; over its limit it is
   * refused; and chunks exceeding the announced size leave it stuck without a response.
   */
  lemma Reassembly(s: Reads, fs: seq<Frame>, id: string, metadata: Metadata, payloads: seq<seq<byte>>)
    requires id in s.pending && Of(fs, id) == TransferFrames(id, metadata, payloads)
    ensures View(HandleAll(s, fs), id) == Outcome(View(s, id), id, metadata, payloads)
  {
    InterleavingIsInvisible(s, fs, id);
    TransferOutcome(View(s, id), id, metadata, payloads);
  }

  /** A read of an empty file that is sent one byte after all: it gets no response. */
  lemma ExcessChunkGetsNoResponse(id: string, read: PendingRead, metadata: Metadata)
    requires metadata.size == 0
    ensures var after := HandleAll(Reads(map[id := read], map[], map[], []),
                                   [Begin(id, metadata), Chunk(id, [0]), End(id)]);
            id in after.active && id !in after.completed && ResponsesTo(after.responses, id) == []
  {
    var s, fs := Reads(map[id := read], map[], map[], []), [Begin(id, metadata), Chunk(id, [0]), End(id)];
    var payloads: seq<seq<byte>> := [[0]];
    assert payloads[1..] == [] && Chunks(id, []) == [];
    assert Chunks(id, payloads) == [Chunk(id, [0])] + Chunks(id, payloads[1..]);
    assert fs == TransferFrames(id, metadata, payloads);
    OwnFrames(fs, id);
    hide Of, HandleAll, TransferFrames;
    Reassembly(s, fs, id, metadata, payloads);
    FlattenOne([0 as byte]);
    assert View(s, id) == Read(Some(read), None, None, []);
  }

  lemma {:induction false} OwnFrames(fs: seq<Frame>, id: string)
    requires forall i :: 0 <= i < |fs| ==> fs[i].requestId == id
    ensures Of(fs, id) == fs
    decreases fs
  {
    if fs != [] {
      OwnFrames(fs[1..], id);
    }
  }

  // ---------------------------------------------------------------------------
  // Uploads
  // ---------------------------------------------------------------------------

  function Min(a: nat, b: nat): nat { if a < b then a else b }

  /** The payloads of an upload from an offset on. */
  function Pieces(bytes: seq<byte>, offset: nat, chunkSize: nat): seq<seq<byte>>
    requires chunkSize >= 1
    decreases |bytes| - offset
  {
    if offset >= |bytes| then []
    else [bytes[offset..Min(offset + chunkSize, |bytes|)]] + Pieces(bytes, offset + chunkSize, chunkSize)
  }

  lemma PiecesUnfold(bytes: seq<byte>, offset: nat, chunkSize: nat)
    requires chunkSize >= 1 && offset < |bytes|
    ensures Pieces(bytes, offset, chunkSize)
         == [bytes[offset..Min(offset + chunkSize, |bytes|)]] + Pieces(bytes, offset + chunkSize, chunkSize)
  {
  }

  lemma {:induction false} PiecesCover(bytes: seq<byte>, offset: nat, chunkSize: nat)
    requires chunkSize >= 1
    ensures Flatten(Pieces(bytes, offset, chunkSize)) == bytes[Min(offset, |bytes|)..]
    decreases |bytes| - offset
  {
    if offset < |bytes| {
      var end := Min(offset + chunkSize, |bytes|);
      var piece, rest := bytes[offset..end], Pieces(bytes, offset + chunkSize, chunkSize);
      PiecesCover(bytes, offset + chunkSize, chunkSize);
      hide Pieces, Flatten;
      PiecesUnfold(bytes, offset, chunkSize);
      FlattenCons(piece, rest);
      assert bytes[offset..] == piece + bytes[end..];
    }
  }

  /** No piece is empty or longer than the chunk size. */
  lemma {:induction false} PiecesBounded(bytes: seq<byte>, offset: nat, chunkSize: nat)
    requires chunkSize >= 1
    ensures forall p :: p in Pieces(bytes, offset, chunkSize) ==> 1 <= |p| <= chunkSize
    decreases |bytes| - offset
  {
    if offset < |bytes| {
      PiecesBounded(bytes, offset + chunkSize, chunkSize);
    }
  }

  /** The upload loop: it terminates, and sends the bytes piece by piece. */
  method UploadFile(id: string, metadata: Metadata, bytes: seq<byte>, chunkSize: nat) returns (sent: seq<Frame>)
    requires chunkSize >= 1
    ensures sent == TransferFrames(id, metadata.(size := |bytes|), Pieces(bytes, 0, chunkSize))
  {
    sent := [Begin(id, metadata.(size := |bytes|))];
    var offset := 0;
    while offset < |bytes|
      invariant sent + Chunks(id, Pieces(bytes, offset, chunkSize))
             == [Begin(id, metadata.(size := |bytes|))] + Chunks(id, Pieces(bytes, 0, chunkSize))
    {
      var piece := bytes[offset..Min(offset + chunkSize, |bytes|)];
      ghost var rest := Pieces(bytes, offset + chunkSize, chunkSize);
      assert ([piece] + rest)[1..] == rest;
      assert sent + ([Chunk(id, piece)] + Chunks(id, rest)) == (sent + [Chunk(id, piece)]) + Chunks(id, rest);
      sent := sent + [Chunk(id, piece)];
      offset := offset + chunkSize;
    }
    sent := sent + [End(id)];
  }

  lemma PendingView(s: Reads, id: string)
    requires id in s.pending
    ensures View(s, id).pending == Some(s.pending[id])
  {
  }

  /** A transfer that brings fewer bytes than announced is filled up with zeros. */
  lemma ShortTransferIsPadded(r: Read, id: string, metadata: Metadata, payloads: seq<seq<byte>>)
    requires r.pending.Some? && r.pending.value.maxBytes.GetOr(0) == 0 && |Flatten(payloads)| <= metadata.size
    ensures var file := Outcome(r, id, metadata, payloads).completed;
            && file.Some? && |file.value.bytes| == metadata.size
            && forall k :: 0 <= k < metadata.size ==>
                 file.value.bytes[k] == if k < |Flatten(payloads)| then Flatten(payloads)[k] else 0
  {
    hide Flatten, KindOf;
  }

  /** The range error comes at the end of a transfer that is within the limit but exceeds its announced size. */
  lemma RangeErrorExactly(r: Read, f: Frame)
    ensures HandleOwn(r, f).rangeError
       <==> && f.End? && r.active.Some?
            && (r.active.value.read.maxBytes.GetOr(0) == 0
                || r.active.value.metadata.size <= r.active.value.read.maxBytes.GetOr(0))
            && |Flatten(r.active.value.chunks)| > r.active.value.metadata.size
  {
  }

  /** The outcome of a transfer whose chunks have the announced size. */
  lemma WholeOutcome(r: Read, id: string, metadata: Metadata, payloads: seq<seq<byte>>)
    requires r.pending.Some? && |Flatten(payloads)| == metadata.size
    ensures var read, limit, bytes := r.pending.value, r.pending.value.maxBytes.GetOr(0), Flatten(payloads);
            var error := if limit == 0 || |bytes| <= limit then None else Some("File is too large to display");
            var file := FileRead(bytes, metadata, read.path, KindOf(metadata.mime, metadata.encoding));
            Outcome(r, id, metadata, payloads)
            == r.(active := None,
                  completed := if error.Some? then r.completed else Some(file),
                  responses := r.responses + [Response(id, read.cwd, read.path, error)])
  {
    hide Flatten, KindOf;
    assert Flatten(payloads) + Zeros(0) == Flatten(payloads);
  }

  /** What one client's upload loop sends, another client's read of it gets back, byte for byte. */
  lemma UploadRoundTrip(s: Reads, fs: seq<Frame>, id: string, metadata: Metadata, bytes: seq<byte>, chunkSize: nat)
    requires chunkSize >= 1 && id in s.pending && metadata.size == |bytes|
    requires Of(fs, id) == TransferFrames(id, metadata, Pieces(bytes, 0, chunkSize))
    ensures var limit := s.pending[id].maxBytes.GetOr(0);
            var after := View(HandleAll(s, fs), id);
            var read := s.pending[id];
            var file := FileRead(bytes, metadata, read.path, KindOf(metadata.mime, metadata.encoding));
            && after.active.None? && |after.responses| == |View(s, id).responses| + 1
            && after.responses[..|View(s, id).responses|] == View(s, id).responses
            && if limit == 0 || |bytes| <= limit
               then after.completed == Some(file)
                    && after.responses[|after.responses| - 1] == Response(id, read.cwd, read.path, None)
               else after.completed == View(s, id).completed
                    && after.responses[|after.responses| - 1]
                       == Response(id, read.cwd, read.path, Some("File is too large to display"))
  {
    var payloads := Pieces(bytes, 0, chunkSize);
    hide HandleAll, Of, Flatten, Pieces, ResponsesTo, TransferFrames, Chunks, KindOf, Outcome, View;
    Reassembly(s, fs, id, metadata, payloads);
    PiecesCover(bytes, 0, chunkSize);
    assert bytes[0..] == bytes;
    PendingView(s, id);
    WholeOutcome(View(s, id), id, metadata, payloads);
  }

  // ---------------------------------------------------------------------------
  // The client's tables
  // ---------------------------------------------------------------------------

  /** Once a read has finished, frames that come late change nothing. */
  lemma {:induction false} LateFramesAreIgnored(r: Read, fs: seq<Frame>)
    requires r.pending.None? && r.active.None?
    ensures HandleOwnAll(r, fs) == r
    decreases |fs|
  {
    if fs != [] {
      assert HandleOwn(r, fs[0]).read == r;
      LateFramesAreIgnored(r, fs[1..]);
    }
  }

  /** Copies the chunks one after another into a fresh buffer; fails where one would not fit. */
  method ConcatByteChunks(chunks: seq<seq<byte>>, size: nat) returns (bytes: Option<array<byte>>)
    ensures bytes.Some? <==> |Flatten(chunks)| <= size
    ensures bytes.Some? ==> bytes.value[..] == Flatten(chunks) + Zeros(size - |Flatten(chunks)|)
  {
    var buffer := new byte[size](_ => 0);
    var offset, i := 0, 0;
    while i < |chunks|
      invariant 0 <= i <= |chunks| && 0 <= offset <= size
      invariant Flatten(chunks[..i]) == buffer[..offset]
      invariant forall k :: offset <= k < size ==> buffer[k] == 0
    {
      FlattenStep(chunks, i);
      if offset + |chunks[i]| > size {
        assert |Flatten(chunks)| > size;
        return None;
      }
      ghost var before := buffer[..offset];
      forall k | 0 <= k < |chunks[i]| {
        buffer[offset + k] := chunks[i][k];
      }
      assert buffer[..offset] == before;
      assert buffer[..offset + |chunks[i]|] == before + chunks[i];
      offset := offset + |chunks[i]|;
      i := i + 1;
    }
    assert chunks[..i] == chunks;
    assert buffer[..] == buffer[..offset] + Zeros(size - offset);
    return Some(buffer);
  }

  lemma FlattenStep(chunks: seq<seq<byte>>, i: nat)
    requires i < |chunks|
    ensures Flatten(chunks[..i + 1]) == Flatten(chunks[..i]) + chunks[i]
    ensures |Flatten(chunks)| >= |Flatten(chunks[..i])| + |chunks[i]|
  {
    assert chunks[..i + 1] == chunks[..i] + [chunks[i]];
    FlattenAppend(chunks[..i], [chunks[i]]);
    FlattenOne(chunks[i]);
    assert chunks == chunks[..i + 1] + chunks[i + 1..];
    FlattenAppend(chunks[..i + 1], chunks[i + 1..]);
  }

  class FileReads {
    var pendingBinaryFileReads: map<string, PendingRead>
    var activeBinaryFileTransfers: map<string, Transfer>
    var completedBinaryFileReads: map<string, FileRead>

    /** The responses handed to the session, in order. */
    var responses: seq<Response>

    function State(): Reads
      reads this
    {
      Reads(pendingBinaryFileReads, activeBinaryFileTransfers, completedBinaryFileReads, responses)
    }

    constructor ()
      ensures State() == Reads(map[], map[], map[], [])
    {
      pendingBinaryFileReads, activeBinaryFileTransfers, completedBinaryFileReads := map[], map[], map[];
      responses := [];
    }

    method StartRead(id: string, read: PendingRead)
      modifies this
      ensures State() == old(State()).(pending := old(pendingBinaryFileReads)[id := read])
    {
      pendingBinaryFileReads := pendingBinaryFileReads[id := read];
    }

    /** The end of a read: its result, unless the response was an error, and its entries removed. */
    method FinishRead(id: string, failed: bool) returns (file: Option<FileRead>)
      modifies this
      ensures file == if failed then None else old(View(State(), id).completed)
      ensures View(State(), id)
           == old(View(State(), id)).(pending := None, active := None,
                                      completed := if failed then old(View(State(), id).completed) else None)
      ensures forall other :: other != id ==> View(State(), other) == old(View(State(), other))
    {
      file := None;
      if !failed && id in completedBinaryFileReads {
        file := Some(completedBinaryFileReads[id]);
        completedBinaryFileReads := completedBinaryFileReads - {id};
      }
      pendingBinaryFileReads := pendingBinaryFileReads - {id};
      activeBinaryFileTransfers := activeBinaryFileTransfers - {id};
    }

    method HandleFrame(f: Frame) returns (rangeError: bool)
      modifies this
      ensures State() == Handle(old(State()), f)
      ensures rangeError <==> HandleOwn(old(View(State(), f.requestId)), f).rangeError
    {
      rangeError := false;
      var id := f.requestId;
      if f.Begin? {
        if id in pendingBinaryFileReads {
          activeBinaryFileTransfers :=
            activeBinaryFileTransfers[id := Transfer(pendingBinaryFileReads[id], f.metadata, [])];
        }
        HandleUnchanged(old(State()), f);
        return;
      }
      if id !in activeBinaryFileTransfers {
        HandleUnchanged(old(State()), f);
        return;
      }
      var t := activeBinaryFileTransfers[id];
      if f.Chunk? {
        if !TooLarge(t) {
          activeBinaryFileTransfers := activeBinaryFileTransfers[id := t.(chunks := t.chunks + [f.payload])];
        }
        HandleUnchanged(old(State()), f);
        return;
      }
      rangeError := EndTransfer(id, t);
    }

    method EndTransfer(id: string, t: Transfer) returns (rangeError: bool)
      requires id in activeBinaryFileTransfers && activeBinaryFileTransfers[id] == t
      modifies this
      ensures State() == Handle(old(State()), End(id))
      ensures rangeError <==> HandleOwn(old(View(State(), id)), End(id)).rangeError
    {
      HandleUnchanged(old(State()), End(id));
      if TooLarge(t) {
        activeBinaryFileTransfers := activeBinaryFileTransfers - {id};
        responses := responses + [Response(id, t.read.cwd, t.read.path, Some(TOO_LARGE))];
        return false;
      }
      var bytes := ConcatByteChunks(t.chunks, t.metadata.size);
      if bytes.None? {
        return true;
      }
      var file := FileRead(bytes.value[..], t.metadata, t.read.path, KindOf(t.metadata.mime, t.metadata.encoding));
      activeBinaryFileTransfers := activeBinaryFileTransfers - {id};
      completedBinaryFileReads := completedBinaryFileReads[id := file];
      responses := responses + [Response(id, t.read.cwd, t.read.path, None)];
      return false;
    }
  }

  /** Writing an entry back, or deleting an absent one, leaves a table as it was. */
  lemma HandleUnchanged(s: Reads, f: Frame)
    ensures Set(s.active, f.requestId, Get(s.active, f.requestId)) == s.active
    ensures Set(s.completed, f.requestId, Get(s.completed, f.requestId)) == s.completed
    ensures s.responses + [] == s.responses
  {
  }
}
