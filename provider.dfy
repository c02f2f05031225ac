/** The remote completion service as the core sees it: the request it is
    sent and the chunks of a streamed answer. Its client objects are not
    modelled; a chunk is only what `chunk.choices[0].delta.content` gives. */
module Provider {
  import opened Wrappers
  import opened Text

  datatype Message = Message(role: string, content: string)

  /** The arguments of `chat.completions.create` (the temperature, always
      0.2, is not recorded). */
  datatype Request = Request(model: string, messages: seq<Message>, maxTokens: int, stream: bool)

  /** A streamed chunk: the delta's `content` (`None` for a null content),
      or `Unreadable` where reading it raises. */
  datatype Chunk = Delta(content: Option<string>) | Unreadable

  /** A created stream: the chunks it delivers, and whether iterating it
      raises after them. */
  datatype ChunkStream = ChunkStream(chunks: seq<Chunk>, failsAfter: bool)

  /** `chunk.choices[0].delta.content or ""`, and `""` when that raises. */
  function DeltaText(c: Chunk): string
  {
    match c
    case Delta(Some(s)) => s
    case _ => ""
  }

  /** The non-empty deltas, in order: what the document streams yield. */
  function Deltas(chunks: seq<Chunk>): (r: seq<string>)
    ensures |r| <= |chunks|
  {
    if chunks == [] then []
    else Deltas(chunks[..|chunks| - 1]) + (if DeltaText(chunks[|chunks| - 1]) != "" then [DeltaText(chunks[|chunks| - 1])] else [])
  }

  function AllDeltaText(chunks: seq<Chunk>): string
  {
    if chunks == [] then "" else AllDeltaText(chunks[..|chunks| - 1]) + DeltaText(chunks[|chunks| - 1])
  }

  /** Every yielded delta is non-empty, and skipping the empty and unreadable
      ones loses no text: the yielded deltas spell out all the content the
      chunks carry, in order. */
  lemma {:induction false} DeltasSpellContent(chunks: seq<Chunk>)
    ensures forall i :: 0 <= i < |Deltas(chunks)| ==> Deltas(chunks)[i] != ""
    ensures Concat(Deltas(chunks)) == AllDeltaText(chunks)
  {
    if chunks != [] {
      var init := chunks[..|chunks| - 1];
      var d := DeltaText(chunks[|chunks| - 1]);
      DeltasSpellContent(init);
      if d != "" {
        assert (Deltas(init) + [d])[..|Deltas(init)|] == Deltas(init);
      } else {
        assert Deltas(init) + [] == Deltas(init);
      }
    }
  }
}
