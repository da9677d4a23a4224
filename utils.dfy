/**
 * `Utils.decode_base64_data` and `Utils.format_agent_messages` (helpers/utils.py):
 * the chat messages of a request, as the request model validated them, turned into
 * the message dictionaries the model client takes. Base64 decoding itself is a
 * library call and stays a parameter.
 */
module Utils {
  import opened Wrappers
  import opened Values
  import opened PyText

  // ---------------------------------------------------------------------------
  // The request's message shapes (helpers/datamodel.py)

  /** `ImageSource`: `type` is always "base64". */
  datatype ImageSource = ImageSource(kind: string, mediaType: string, data: string)

  /** `DocumentSource`: the base64 text of the document, if any. */
  datatype DocumentSource = DocumentSource(bytes: Option<string>)

  datatype DocumentContent = DocumentContent(format: string, name: string, source: DocumentSource)

  /** `ContentBlock`: every field is optional; `type` is "text" or "image" when set. */
  datatype ContentBlock = ContentBlock(
    kind: Option<string>, text: Option<string>, source: Option<ImageSource>, document: Option<DocumentContent>)

  /** A message's content: a plain string or a list of content blocks. */
  datatype Content = Text(s: string) | Blocks(blocks: seq<ContentBlock>)

  /** `ChatAgentMessage` (and the identically shaped `ChatLLMMessage`). */
  datatype ChatMessage = ChatMessage(role: string, content: Content)

  /** A message as `format_agent_messages` returns it: `{"role": ..., "content": [...]}`. */
  datatype Formatted = Formatted(role: string, content: seq<Row>)

  /** `base64.b64decode`, with `None` for the exception it raises on bad input. */
  type Base64Decoder = string -> Option<seq<bv8>>

  // ---------------------------------------------------------------------------
  // model_dump(exclude_none=True)

  /** A dictionary with `key` set to `v` when `v` is present. */
  function PutIf(m: Row, key: string, v: Option<Value>): Row {
    if v.Some? then m[key := v.value] else m
  }

  function StrIf(s: Option<string>): Option<Value> {
    if s.Some? then Some(Str(s.value)) else None
  }

  function DumpImageSource(src: ImageSource): Value {
    Dict(map["type" := Str(src.kind), "media_type" := Str(src.mediaType), "data" := Str(src.data)])
  }

  function DumpDocument(doc: DocumentContent): Value {
    Dict(map["format" := Str(doc.format), "name" := Str(doc.name),
             "source" := Dict(PutIf(map[], "bytes", StrIf(doc.source.bytes)))])
  }

  /** `block.model_dump(exclude_none=True)`: the fields that are set, nested models
      as dictionaries. */
  function BlockDict(b: ContentBlock): (d: Row)
    ensures ("type" in d <==> b.kind.Some?) && (b.kind.Some? ==> d["type"] == Str(b.kind.value))
    ensures ("text" in d <==> b.text.Some?) && (b.text.Some? ==> d["text"] == Str(b.text.value))
    ensures ("source" in d <==> b.source.Some?) && (b.source.Some? ==> d["source"] == DumpImageSource(b.source.value))
    ensures ("document" in d <==> b.document.Some?) && (b.document.Some? ==> d["document"] == DumpDocument(b.document.value))
    ensures d.Keys <= {"type", "text", "source", "document"}
  {
    var m0: Row := map[];
    var m1 := PutIf(m0, "type", StrIf(b.kind));
    var m2 := PutIf(m1, "text", StrIf(b.text));
    var m3 := PutIf(m2, "source", if b.source.Some? then Some(DumpImageSource(b.source.value)) else None);
    PutIf(m3, "document", if b.document.Some? then Some(DumpDocument(b.document.value)) else None)
  }

  // ---------------------------------------------------------------------------
  // decode_base64_data

  /** `decode_base64_data`: nothing for a missing or empty text or one the decoder
      rejects, otherwise the decoded bytes. */
  function DecodeBase64Data(encoded: Option<string>, b64: Base64Decoder): (r: Option<seq<bv8>>)
    ensures (encoded.None? || encoded.value == "") ==> r.None?
    ensures encoded.Some? && encoded.value != "" ==> r == b64(encoded.value)
  {
    match encoded
    case None => None
    case Some(s) => if s == "" then None else b64(s)
  }

  /** The Python value `decode_base64_data` returns: bytes or `None`. */
  function DecodedValue(r: Option<seq<bv8>>): Value {
    if r.Some? then Bytes(r.value) else Null
  }

  // ---------------------------------------------------------------------------
  // format_agent_messages

  /** The single text block a string content becomes. */
  function TextBlock(s: string): Row {
    map["type" := Str("text"), "text" := Str(s)]
  }

  /** `doc["source"]["bytes"] = decode_base64_data(doc["source"]["bytes"])` when the
      document's source has bytes; the document as it was otherwise. */
  function RewriteDocument(doc: Value, b64: Base64Decoder): Value {
    if doc.Dict? && "source" in doc.entries && doc.entries["source"].Dict?
       && "bytes" in doc.entries["source"].entries
    then
      var src := doc.entries["source"].entries;
      var encoded := if src["bytes"].Str? then Some(src["bytes"].s) else None;
      Dict(doc.entries["source" := Dict(src["bytes" := DecodedValue(DecodeBase64Data(encoded, b64))])])
    else doc
  }

  /** What one content block becomes, checked in the order image, document, text:
      the block itself, `{"document": doc}` with its bytes decoded, the block
      itself, or nothing. */
  function FormatBlock(b: ContentBlock, b64: Base64Decoder): Option<Row> {
    var d := BlockDict(b);
    if Attr(d, "type") == Str("image") && "source" in d then Some(d)
    else if "document" in d then Some(map["document" := RewriteDocument(d["document"], b64)])
    else if Attr(d, "type") == Str("text") then Some(d)
    else None
  }

  /** The blocks that survive, in input order. */
  function KeptBlocks(bs: seq<ContentBlock>, b64: Base64Decoder): seq<Row> {
    if bs == [] then []
    else
      var init := KeptBlocks(bs[..|bs| - 1], b64);
      var last := FormatBlock(bs[|bs| - 1], b64);
      if last.Some? then init + [last.value] else init
  }

  /** What one message becomes. */
  function FormatMessage(m: ChatMessage, b64: Base64Decoder): Formatted {
    match m.content
    case Text(s) => Formatted(m.role, [TextBlock(Strip(s))])
    case Blocks(bs) => Formatted(m.role, KeptBlocks(bs, b64))
  }

  function FormatAll(ms: seq<ChatMessage>, b64: Base64Decoder): (out: seq<Formatted>)
    ensures |out| == |ms|
  {
    seq(|ms|, i requires 0 <= i < |ms| => FormatMessage(ms[i], b64))
  }

  /** `format_agent_messages`. */
  method FormatAgentMessages(messages: seq<ChatMessage>, b64: Base64Decoder) returns (formatted: seq<Formatted>)
    ensures formatted == FormatAll(messages, b64)
  {
    formatted := [];
    for i := 0 to |messages|
      invariant formatted == FormatAll(messages[..i], b64)
    {
      var msg := messages[i];
      if msg.content.Text? {
        formatted := formatted + [Formatted(msg.role, [TextBlock(Strip(msg.content.s))])];
      } else {
        var blocks := msg.content.blocks;
        var contentBlocks: seq<Row> := [];
        for j := 0 to |blocks|
          invariant contentBlocks == KeptBlocks(blocks[..j], b64)
        {
          assert blocks[..j + 1][..j] == blocks[..j];
          var blockDict := BlockDict(blocks[j]);
          if Attr(blockDict, "type") == Str("image") && "source" in blockDict {
            contentBlocks := contentBlocks + [blockDict];
          } else if "document" in blockDict {
            var doc := RewriteDocument(blockDict["document"], b64);
            contentBlocks := contentBlocks + [map["document" := doc]];
          } else if Attr(blockDict, "type") == Str("text") {
            contentBlocks := contentBlocks + [blockDict];
          }
        }
        assert blocks[..|blocks|] == blocks;
        formatted := formatted + [Formatted(msg.role, contentBlocks)];
      }
      assert messages[..i + 1] == messages[..i] + [messages[i]];
    }
    assert messages[..|messages|] == messages;
  }

  // ---------------------------------------------------------------------------
  // Properties

  /** One output message per input message, in order, with its role. */
  lemma FormatKeepsMessages(ms: seq<ChatMessage>, b64: Base64Decoder)
    ensures |FormatAll(ms, b64)| == |ms|
    ensures forall i | 0 <= i < |ms| :: FormatAll(ms, b64)[i].role == ms[i].role
    ensures FormatAll(ms, b64) == [] <==> ms == []
  {
  }

  /** A string content becomes exactly one text block holding the stripped string. */
  lemma StringContentWrapped(role: string, s: string, b64: Base64Decoder)
    ensures var f := FormatMessage(ChatMessage(role, Text(s)), b64);
      && f.role == role && |f.content| == 1
      && Attr(f.content[0], "type") == Str("text") && Attr(f.content[0], "text") == Str(Strip(s))
      && f.content[0].Keys == {"type", "text"}
  {
    var block := TextBlock(Strip(s));
    assert FormatMessage(ChatMessage(role, Text(s)), b64) == Formatted(role, [block]);
    assert block.Keys == {"type", "text"};
  }

  /** The branches in priority order: an image block with a source is kept whole
      even when it also has a document; any other block with a document becomes
      just the rewritten document; a text block without a document is kept whole;
      everything else is dropped. */
  lemma FormatBlockCases(b: ContentBlock, b64: Base64Decoder)
    ensures b.kind == Some("image") && b.source.Some? ==> FormatBlock(b, b64) == Some(BlockDict(b))
    ensures !(b.kind == Some("image") && b.source.Some?) && b.document.Some? ==>
      FormatBlock(b, b64) == Some(map["document" := RewriteDocument(DumpDocument(b.document.value), b64)])
    ensures !(b.kind == Some("image") && b.source.Some?) && b.document.None? && b.kind == Some("text") ==>
      FormatBlock(b, b64) == Some(BlockDict(b))
    ensures FormatBlock(b, b64).None? <==>
      !(b.kind == Some("image") && b.source.Some?) && b.document.None? && b.kind != Some("text")
  {
  }

  /** A document block's bytes are replaced by their decoding, or by `None` when there
      is nothing to decode or the decoder rejects them; its other fields stay. */
  lemma DocumentBytesDecoded(doc: DocumentContent, b64: Base64Decoder)
    ensures var out := RewriteDocument(DumpDocument(doc), b64);
      && out.Dict? && out.entries["format"] == Str(doc.format) && out.entries["name"] == Str(doc.name)
      && (doc.source.bytes.None? ==> out == DumpDocument(doc))
      && (doc.source.bytes.Some? ==>
            && out.entries["source"] == Dict(map["bytes" := DecodedValue(DecodeBase64Data(doc.source.bytes, b64))])
            && (out.entries["source"].entries["bytes"] == Null <==>
                  doc.source.bytes.value == "" || b64(doc.source.bytes.value).None?))
  {
    var d := DumpDocument(doc);
    if doc.source.bytes.Some? {
      assert d.entries["source"] == Dict(map["bytes" := Str(doc.source.bytes.value)]);
    }
  }

  /** Surviving blocks keep their input order: formatting distributes over
      concatenation. */
  lemma {:induction false} KeptBlocksAppend(a: seq<ContentBlock>, b: seq<ContentBlock>, b64: Base64Decoder)
    ensures KeptBlocks(a + b, b64) == KeptBlocks(a, b64) + KeptBlocks(b, b64)
    decreases |b|
  {
    if b == [] {
      assert a + b == a;
    } else {
      var b' := b[..|b| - 1];
      assert (a + b)[..|a + b| - 1] == a + b';
      KeptBlocksAppend(a, b', b64);
    }
  }

  /** A block's output is in the message iff some input block formats to it. */
  lemma {:induction false} KeptBlocksMembers(bs: seq<ContentBlock>, b64: Base64Decoder, r: Row)
    ensures r in KeptBlocks(bs, b64) <==> exists i | 0 <= i < |bs| :: FormatBlock(bs[i], b64) == Some(r)
  {
    if bs != [] {
      var init := bs[..|bs| - 1];
      KeptBlocksMembers(init, b64, r);
      if exists i | 0 <= i < |bs| :: FormatBlock(bs[i], b64) == Some(r) {
        var i :| 0 <= i < |bs| && FormatBlock(bs[i], b64) == Some(r);
        if i < |bs| - 1 {
          assert init[i] == bs[i];
        }
      }
      if exists i | 0 <= i < |init| :: FormatBlock(init[i], b64) == Some(r) {
        var i :| 0 <= i < |init| && FormatBlock(init[i], b64) == Some(r);
        assert bs[i] == init[i];
      }
    }
  }

  /** `decode_base64_data` gives nothing for `None`, for "" and for text the decoder
      rejects, and the decoding otherwise. */
  lemma DecodeCases(encoded: Option<string>, b64: Base64Decoder)
    ensures DecodeBase64Data(encoded, b64).None? <==>
      encoded.None? || encoded.value == "" || b64(encoded.value).None?
  {
  }
}
