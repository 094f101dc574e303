/** The chat-completion request both synchronous clients send: a list of turns,
    the user turn carrying one file block per uploaded document and then the
    prompt text. */
module Chat {
  import opened Common

  /** One element of a user turn's `content` list. */
  datatype ContentBlock =
    | FileBlock(fileId: string)   // {"type": "file", "file": {"file_id": fileId}}
    | TextBlock(text: string)     // {"type": "text", "text": text}

  /** A turn's `content`: a plain string, or a list of blocks. */
  datatype Content = PlainText(text: string) | Blocks(blocks: seq<ContentBlock>)

  /** One element of `messages`. */
  datatype Message = Message(role: string, content: Content)

  /** The arguments of one `chat.completions.create` call that the model
      tracks; `functionCall` is the name of a function the reply is forced
      through, if any. */
  datatype ChatRequest = ChatRequest(model: string, messages: seq<Message>, functionCall: Option<string>)

  /** One file block per id, in the order of the ids. */
  function FileBlocks(ids: seq<string>): seq<ContentBlock> {
    if ids == [] then [] else FileBlocks(ids[..|ids| - 1]) + [FileBlock(ids[|ids| - 1])]
  }

  /** The content of the user turn: the file blocks, then the prompt text. */
  function UserContent(ids: seq<string>, text: string): seq<ContentBlock> {
    FileBlocks(ids) + [TextBlock(text)]
  }

  /** The file ids that a list of blocks refers to, in order. */
  function FileIdsOf(blocks: seq<ContentBlock>): seq<string> {
    if blocks == [] then [] else
    var last := match blocks[|blocks| - 1] case FileBlock(id) => [id] case TextBlock(_) => [];
    FileIdsOf(blocks[..|blocks| - 1]) + last
  }

  lemma {:induction false} FileBlocksAt(ids: seq<string>)
    ensures |FileBlocks(ids)| == |ids|
    ensures forall i :: 0 <= i < |ids| ==> FileBlocks(ids)[i] == FileBlock(ids[i])
  {
    if ids != [] {
      FileBlocksAt(ids[..|ids| - 1]);
    }
  }

  /** The user content has one block more than there are ids: block `i` refers
      to the `i`-th id and the last block holds the text. */
  lemma UserContentShape(ids: seq<string>, text: string)
    ensures |UserContent(ids, text)| == |ids| + 1
    ensures forall i :: 0 <= i < |ids| ==> UserContent(ids, text)[i] == FileBlock(ids[i])
    ensures UserContent(ids, text)[|ids|] == TextBlock(text)
  {
    FileBlocksAt(ids);
  }

  lemma {:induction false} FileBlocksRoundTrip(ids: seq<string>)
    ensures FileIdsOf(FileBlocks(ids)) == ids
  {
    if ids != [] {
      var init := ids[..|ids| - 1];
      var blocks := FileBlocks(ids);
      assert blocks[..|blocks| - 1] == FileBlocks(init);
      FileBlocksRoundTrip(init);
      assert init + [ids[|ids| - 1]] == ids;
    }
  }

  /** Reading the file ids back from the user content gives exactly the ids,
      in order: no id is dropped, repeated or reordered. */
  lemma UserContentRoundTrip(ids: seq<string>, text: string)
    ensures FileIdsOf(UserContent(ids, text)) == ids
  {
    var c := UserContent(ids, text);
    assert c[..|c| - 1] == FileBlocks(ids);
    FileBlocksRoundTrip(ids);
  }

  /** The loop in `generate`: start from an empty content list, append one
      file block per accumulated id, then append the text block. */
  method BuildUserContent(ids: seq<string>, text: string) returns (content: seq<ContentBlock>)
    ensures content == UserContent(ids, text)
    ensures |content| == |ids| + 1 && content[|ids|] == TextBlock(text)
    ensures forall i :: 0 <= i < |ids| ==> content[i] == FileBlock(ids[i])
  {
    content := [];
    for i := 0 to |ids|
      invariant content == FileBlocks(ids[..i])
    {
      assert ids[..i + 1][..i] == ids[..i];
      content := content + [FileBlock(ids[i])];
    }
    assert ids[..|ids|] == ids;
    content := content + [TextBlock(text)];
    UserContentShape(ids, text);
  }
}
