/** How the agent cogs fit a long reply into Discord's message and embed
    limits: fixed-size slices sent one after another, and a plain cut. */
module Chunking {
  import opened Wrappers
  import opened Text

  /** `[s[i:i+n] for i in range(0, len(s), n)]` */
  function Chunks(s: string, n: nat): (r: seq<string>)
    requires n >= 1
    ensures (r == []) <==> (s == [])
    ensures forall k :: 0 <= k < |r| ==> 1 <= |r[k]| <= n
    ensures forall k :: 0 <= k < |r| - 1 ==> |r[k]| == n
    decreases |s|
  {
    if s == [] then []
    else if |s| <= n then [s]
    else [s[..n]] + Chunks(s[n..], n)
  }

  /** Sending the slices in order sends the whole text, nothing more. */
  lemma {:induction false} ChunksConcat(s: string, n: nat)
    requires n >= 1
    ensures Concat(Chunks(s, n)) == s
    decreases |s|
  {
    if s != [] && |s| > n {
      var rest := Chunks(s[n..], n);
      ChunksConcat(s[n..], n);
      assert ([s[..n]] + rest)[1..] == rest;
      assert s[..n] + s[n..] == s;
    } else if s != [] {
      assert [s][1..] == [];
      assert s + [] == s;
    }
  }

  /** A non-empty text gives as few slices as hold it: all but the last
      are full. */
  lemma {:induction false} ChunkCount(s: string, n: nat)
    requires n >= 1 && s != []
    ensures n * (|Chunks(s, n)| - 1) < |s| <= n * |Chunks(s, n)|
    decreases |s|
  {
    if |s| > n {
      var m := |Chunks(s[n..], n)|;
      ChunkCount(s[n..], n);
      assert |Chunks(s, n)| == m + 1;
      assert n * (m + 1) == n * m + n;
    }
  }

  /** `s[:n]`: the first `n` characters, or all of a shorter text. */
  function Truncate(s: string, n: nat): (r: string)
    ensures |r| == Min(|s|, n)
    ensures r == s[..|r|]
    ensures (r == s) <==> (|s| <= n)
  {
    if |s| <= n then s else s[..n]
  }
}
