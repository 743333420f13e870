/** The chat transcript of the message page and the pure updaters the page
    applies to it: the history expansion and the `slice(0, -1)` rewrites of the
    last entry made while an assistant reply streams in. */
module Transcript {

  datatype Option<T> = None | Some(value: T)

  /** One chat bubble: the text shown, whether the user wrote it, and whether
      the streaming cursor is drawn after it.  Entries built without an
      `isLoading` field carry `false`, which is how the bubble renders them. */
  datatype Entry = Entry(text: string, own: bool, isLoading: bool)

  /** One earlier exchange, as the server sends it in a history snapshot. */
  datatype Pair = Pair(prompt: string, response: string)

  /** The entry that reserves the place of an assistant reply that is still to come. */
  function Placeholder(): Entry { Entry("", false, true) }

  function Last(t: seq<Entry>): Entry
    requires t != []
  {
    t[|t| - 1]
  }

  /** The history snapshot flattened into alternating own / other entries,
      pair by pair in the order received. */
  function Expand(pairs: seq<Pair>): (r: seq<Entry>)
    ensures |r| == 2 * |pairs|
    ensures forall i :: 0 <= i < |pairs| ==>
      r[2 * i] == Entry(pairs[i].prompt, true, false) &&
      r[2 * i + 1] == Entry(pairs[i].response, false, false)
  {
    if pairs == [] then []
    else
      var rest := Expand(pairs[1..]);
      assert forall i :: 1 <= i < |pairs| ==> pairs[1..][i - 1] == pairs[i];
      [Entry(pairs[0].prompt, true, false), Entry(pairs[0].response, false, false)] + rest
  }

  /** The chunk updater: the last entry becomes a loading assistant entry whose
      text is the old text followed by the chunk.  On an empty transcript the
      source reads a property of `undefined` and throws; that is `None` here. */
  function AppendChunk(t: seq<Entry>, chunk: string): (r: Option<seq<Entry>>)
    ensures r.Some? <==> t != []
    ensures r.Some? ==>
      |r.value| == |t| &&
      r.value[..|t| - 1] == t[..|t| - 1] &&
      Last(r.value) == Entry(Last(t).text + chunk, false, true)
  {
    if t == [] then None
    else Some(t[..|t| - 1] + [Entry(t[|t| - 1].text + chunk, false, true)])
  }

  /** The end-of-reply updater: the last entry keeps its text, is marked as not
      the user's and stops loading.  Throws (is `None`) on an empty transcript. */
  function Finalize(t: seq<Entry>): (r: Option<seq<Entry>>)
    ensures r.Some? <==> t != []
    ensures r.Some? ==>
      |r.value| == |t| &&
      r.value[..|t| - 1] == t[..|t| - 1] &&
      (forall i :: 0 <= i < |t| ==> r.value[i].text == t[i].text) &&
      !Last(r.value).own && !Last(r.value).isLoading
  {
    if t == [] then None
    else Some(t[..|t| - 1] + [Entry(t[|t| - 1].text, false, false)])
  }

  /** The chunks of one reply, applied one after another in delivery order. */
  function AppendChunks(t: seq<Entry>, chunks: seq<string>): Option<seq<Entry>>
    decreases |chunks|
  {
    if chunks == [] then Some(t)
    else
      match AppendChunk(t, chunks[0])
      case None => None
      case Some(t') => AppendChunks(t', chunks[1..])
  }

  /** The chunks joined in delivery order. */
  function Concat(chunks: seq<string>): string
    decreases |chunks|
  {
    if chunks == [] then "" else chunks[0] + Concat(chunks[1..])
  }

  /** Chunks arriving on a non-empty transcript accumulate, in delivery order,
      behind the text the last entry had. */
  lemma {:induction false} ChunksAccumulate(t: seq<Entry>, chunks: seq<string>)
    requires t != [] && chunks != []
    ensures AppendChunks(t, chunks) ==
      Some(t[..|t| - 1] + [Entry(Last(t).text + Concat(chunks), false, true)])
    decreases |chunks|
  {
    var t' := AppendChunk(t, chunks[0]).value;
    if |chunks| == 1 {
      assert chunks[1..] == [];
      assert Concat(chunks) == chunks[0] + "" == chunks[0];
      assert t' == t[..|t| - 1] + [Last(t')];
    } else {
      ChunksAccumulate(t', chunks[1..]);
      assert t'[..|t'| - 1] == t[..|t| - 1];
      assert Last(t').text + Concat(chunks[1..]) == Last(t).text + Concat(chunks);
    }
  }

  /** Behind an empty loading placeholder, the streamed reply reads exactly as
      the chunks joined in delivery order, whatever came before it. */
  lemma PlaceholderCollectsChunks(t: seq<Entry>, chunks: seq<string>)
    ensures AppendChunks(t + [Placeholder()], chunks) ==
      Some(t + [Entry(Concat(chunks), false, true)])
  {
    var s := t + [Placeholder()];
    assert s[..|s| - 1] == t;
    if chunks != [] {
      ChunksAccumulate(s, chunks);
      assert Last(s).text + Concat(chunks) == Concat(chunks);
    }
  }

  /** No entry is loading. */
  predicate Settled(t: seq<Entry>)
  {
    forall i :: 0 <= i < |t| ==> !t[i].isLoading
  }

  /** Only the last entry may be loading: the streaming target is always last. */
  predicate LoadingOnlyLast(t: seq<Entry>)
  {
    forall i :: 0 <= i < |t| - 1 ==> !t[i].isLoading
  }

  /** A history snapshot yields a transcript with nothing loading. */
  lemma ExpandSettled(pairs: seq<Pair>)
    ensures Settled(Expand(pairs))
  {
  }

  /** A chunk keeps the streaming target last. */
  lemma AppendChunkKeepsLoadingLast(t: seq<Entry>, chunk: string)
    requires LoadingOnlyLast(t) && t != []
    ensures LoadingOnlyLast(AppendChunk(t, chunk).value)
  {
  }

  /** Ending the reply that streams into the last entry leaves nothing loading. */
  lemma FinalizeSettles(t: seq<Entry>)
    requires LoadingOnlyLast(t) && t != []
    ensures Settled(Finalize(t).value)
  {
  }
}
