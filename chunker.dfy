/**
 * Splitting an outbound text into consecutive slices that fit one Telegram
 * message: `[s[i:i+4096] for i in range(0, len(s), 4096)]`.
 */
module Chunker {
  import opened Seqs

  /** Longest text sent as one message. */
  const ChunkLimit: nat := 4096

  /** `len(range(0, n, ChunkLimit))`: how many slices the comprehension produces. */
  function ChunkCount(n: nat): nat
  {
    (n + ChunkLimit - 1) / ChunkLimit
  }

  /** Every slice the comprehension produces starts inside the text. */
  lemma ChunkStartsInside(n: nat, k: nat)
    requires k < ChunkCount(n)
    ensures k * ChunkLimit < n
  {
  }

  /** The `k`-th slice `s[k*4096 : k*4096+4096]`. */
  function Chunk(s: string, k: nat): (part: string)
    requires k < ChunkCount(|s|)
    ensures 0 < |part| <= ChunkLimit
  {
    ChunkStartsInside(|s|, k);
    s[k * ChunkLimit .. Min((k + 1) * ChunkLimit, |s|)]
  }

  /** The slices of `s`, in order. */
  function Chunks(s: string): (parts: seq<string>)
    ensures forall k :: 0 <= k < |parts| ==> 0 < |parts[k]| <= ChunkLimit
  {
    seq(ChunkCount(|s|), k requires 0 <= k < ChunkCount(|s|) => Chunk(s, k))
  }

  /** The first `k` slices joined are the first `k * 4096` characters (or all of them). */
  lemma {:induction false} ChunksPrefix(s: string, k: nat)
    requires k <= ChunkCount(|s|)
    ensures Concat(Chunks(s)[..k]) == s[..Min(k * ChunkLimit, |s|)]
  {
    if k > 0 {
      ChunksPrefix(s, k - 1);
      ConcatSnoc(Chunks(s), k - 1);
      ChunkStartsInside(|s|, k - 1);
      assert s[..(k - 1) * ChunkLimit] + Chunk(s, k - 1) == s[..Min(k * ChunkLimit, |s|)];
    }
  }

  /** Splitting loses nothing and adds nothing: the slices joined are the text. */
  lemma ConcatChunks(s: string)
    ensures Concat(Chunks(s)) == s
  {
    ChunksPrefix(s, |Chunks(s)|);
    assert Chunks(s)[..|Chunks(s)|] == Chunks(s);
  }

  /**
   * The number of slices is the ceiling of `|s| / 4096`, stated without
   * division, and every slice but the last is full.
   */
  lemma ChunksCount(s: string)
    ensures s == "" <==> Chunks(s) == []
    ensures s != "" ==> (|Chunks(s)| - 1) * ChunkLimit < |s| <= |Chunks(s)| * ChunkLimit
    ensures forall k :: 0 <= k < |Chunks(s)| - 1 ==> |Chunks(s)[k]| == ChunkLimit
  {
    var c := |Chunks(s)|;
    if s != "" {
      ChunkStartsInside(|s|, c - 1);
    }
  }

  /**
   * What the handlers send for a text: the slices when it is longer than one
   * message, otherwise the text itself.
   */
  function Outbound(text: string): (parts: seq<string>)
    ensures Concat(parts) == text
    ensures forall k :: 0 <= k < |parts| ==> |parts[k]| <= ChunkLimit
    ensures text != "" ==> forall k :: 0 <= k < |parts| ==> parts[k] != ""
  {
    if |text| > ChunkLimit then ConcatChunks(text); Chunks(text)
    else assert Concat([text]) == Concat([]) + text; [text]
  }

  /** For non-empty text the `len > 4096` test only short-cuts the split: one slice is the text. */
  lemma OutboundIsChunks(text: string)
    requires text != ""
    ensures Outbound(text) == Chunks(text)
  {
    if |text| <= ChunkLimit {
      assert ChunkCount(|text|) == 1;
      assert Chunk(text, 0) == text;
    }
  }
}
