/** The 99-block request ceiling: the cut syncMarkdownToNotion makes before the
    create call, and the slices appendBlocks sends for the rest. */
module Chunking {
  import opened Json

  /** Most top-level blocks the engine puts in one request. */
  const MaxBlocksPerRequest: nat := 99

  /** syncMarkdownToNotion's cut of the top-level list: the head goes with the
      create call, the rest is overflow. */
  function SplitTop(blocks: seq<Value>): (r: (seq<Value>, seq<Value>))
    ensures r.0 + r.1 == blocks
    ensures |r.0| == if |blocks| > MaxBlocksPerRequest then MaxBlocksPerRequest else |blocks|
    ensures r.1 != [] <==> |blocks| > MaxBlocksPerRequest
  {
    if |blocks| > MaxBlocksPerRequest then (blocks[..MaxBlocksPerRequest], blocks[MaxBlocksPerRequest..])
    else (blocks, [])
  }

  /** The children lists appendBlocks sends, in order, when every request
      succeeds: 99 at a time, the last one holding what is left. */
  function Chunks(content: seq<Value>): (cs: seq<seq<Value>>)
    ensures |cs| > 0
    decreases |content|
  {
    if |content| > MaxBlocksPerRequest then [content[..MaxBlocksPerRequest]] + Chunks(content[MaxBlocksPerRequest..])
    else [content]
  }

  function Flatten(cs: seq<seq<Value>>): seq<Value> {
    if cs == [] then [] else cs[0] + Flatten(cs[1..])
  }

  /** The slices put back together are the content: nothing dropped, nothing
      repeated, order kept. */
  lemma {:induction false} ChunksFlatten(content: seq<Value>)
    ensures Flatten(Chunks(content)) == content
    decreases |content|
  {
    if |content| > MaxBlocksPerRequest {
      ChunksFlatten(content[MaxBlocksPerRequest..]);
      assert Chunks(content)[1..] == Chunks(content[MaxBlocksPerRequest..]);
      assert content[..MaxBlocksPerRequest] + content[MaxBlocksPerRequest..] == content;
    }
  }

  /** Every slice respects the ceiling; all but the last are full; for
      non-empty content no slice is empty. */
  lemma {:induction false} ChunkSizes(content: seq<Value>)
    ensures forall i :: 0 <= i < |Chunks(content)| ==> |Chunks(content)[i]| <= MaxBlocksPerRequest
    ensures forall i :: 0 <= i < |Chunks(content)| - 1 ==> |Chunks(content)[i]| == MaxBlocksPerRequest
    ensures content != [] ==> forall i :: 0 <= i < |Chunks(content)| ==> Chunks(content)[i] != []
    decreases |content|
  {
    if |content| > MaxBlocksPerRequest {
      var rest := content[MaxBlocksPerRequest..];
      ChunkSizes(rest);
      assert Chunks(content) == [content[..MaxBlocksPerRequest]] + Chunks(rest);
    }
  }

  /** The number of slices: one per started group of 99 (one for empty content). */
  lemma {:induction false} ChunkCount(content: seq<Value>)
    ensures |Chunks(content)| == if content == [] then 1 else (|content| + MaxBlocksPerRequest - 1) / MaxBlocksPerRequest
    decreases |content|
  {
    if |content| > MaxBlocksPerRequest {
      ChunkCount(content[MaxBlocksPerRequest..]);
    }
  }
}
