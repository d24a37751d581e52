/**
 * The binary glTF assembly of the model build: a buffer that hands out 4-byte-aligned views, and
 * the container around it, against a reader written from section 4.4 of glTF 2.0.
 */
module Glb {
  import opened Wrappers
  import opened Binary

  // ---- padding ------------------------------------------------------------------------------

  /** `r` is the shortest continuation of `b` by `fill` whose length is a multiple of four. */
  ghost predicate IsPadded(b: Bytes, r: Bytes, fill: u8) {
    && |b| <= |r| < |b| + 4
    && |r| % 4 == 0
    && r[..|b|] == b
    && forall k :: |b| <= k < |r| ==> r[k] == fill
  }

  /** The least multiple of four from `n` on. */
  function PaddedLength(n: nat): nat {
    (n + 3) / 4 * 4
  }

  method Pad(b: Bytes, fill: u8) returns (r: Bytes)
    ensures IsPadded(b, r, fill) && |r| == PaddedLength(|b|)
  {
    r := b;
    while |r| % 4 != 0
      invariant |b| <= |r| <= PaddedLength(|b|)
      invariant r[..|b|] == b
      invariant forall k :: |b| <= k < |r| ==> r[k] == fill
      decreases PaddedLength(|b|) - |r|
    {
      r := r + [fill];
    }
  }

  // ---- the view allocator -------------------------------------------------------------------

  datatype View = View(offset: nat, length: nat)

  /** A view is aligned and reads back exactly `bytes`. */
  predicate Reads(bin: Bytes, view: View, bytes: Bytes) {
    && view.offset % 4 == 0
    && view.offset + view.length <= |bin|
    && bin[view.offset..view.offset + view.length] == bytes
  }

  /** Where the first `k` views end. */
  function End(views: seq<View>, k: nat): nat
    requires k <= |views|
  {
    if k == 0 then 0 else views[k - 1].offset + views[k - 1].length
  }

  predicate Follows(views: seq<View>, i: nat)
    requires i < |views|
  {
    End(views, i) <= views[i].offset < End(views, i) + 4
  }

  /** Every content is where its view says, and no view starts more than the padding after the previous one. */
  ghost predicate LaidOut(bin: Bytes, views: seq<View>, contents: seq<Bytes>) {
    && |views| == |contents|
    && |bin| == End(views, |views|)
    && (forall i :: 0 <= i < |views| ==> Reads(bin, views[i], contents[i]))
    && (forall i :: 0 <= i < |views| ==> Follows(views, i))
  }

  /** Views are disjoint and increasing. */
  lemma {:induction false} ViewsAreOrdered(bin: Bytes, views: seq<View>, contents: seq<Bytes>, i: nat, j: nat)
    requires LaidOut(bin, views, contents) && i < j < |views|
    ensures views[i].offset + views[i].length <= views[j].offset
  {
    assert Follows(views, j);
    if i + 1 < j {
      ViewsAreOrdered(bin, views, contents, i, j - 1);
    }
  }

  /** What a view reads does not change when the buffer grows. */
  lemma ReadsOfPrefix(bin: Bytes, longer: Bytes, view: View, bytes: Bytes)
    requires Reads(bin, view, bytes) && bin <= longer
    ensures Reads(longer, view, bytes)
  {
    assert longer[view.offset..view.offset + view.length] == bin[view.offset..view.offset + view.length];
  }

  lemma OneMoreView(bin: Bytes, padded: Bytes, views: seq<View>, contents: seq<Bytes>, bytes: Bytes)
    requires LaidOut(bin, views, contents) && IsPadded(bin, padded, 0)
    ensures LaidOut(padded + bytes, views + [View(|padded|, |bytes|)], contents + [bytes])
  {
    hide Reads, Follows, End, IsPadded;
    var n, longer := |views|, padded + bytes;
    var more, all := views + [View(|padded|, |bytes|)], contents + [bytes];
    NewView(bin, padded, views, bytes);
    forall i | 0 <= i < n
      ensures Reads(longer, more[i], all[i]) && Follows(more, i)
    {
      ReadsOfPrefix(bin, longer, views[i], contents[i]);
      FollowsOfPrefix(views, more[n], i);
    }
  }

  lemma NewView(bin: Bytes, padded: Bytes, views: seq<View>, bytes: Bytes)
    requires |bin| == End(views, |views|) && IsPadded(bin, padded, 0)
    ensures var view := View(|padded|, |bytes|);
      bin <= padded + bytes && Reads(padded + bytes, view, bytes)
      && Follows(views + [view], |views|) && End(views + [view], |views| + 1) == |padded + bytes|
  {
    assert padded == bin + padded[|bin|..];
    EndOfPrefix(views, View(|padded|, |bytes|));
  }

  lemma EndOfPrefix(views: seq<View>, view: View)
    ensures End(views + [view], |views|) == End(views, |views|)
  {
  }

  lemma FollowsOfPrefix(views: seq<View>, view: View, i: nat)
    requires i < |views| && Follows(views, i)
    ensures Follows(views + [view], i)
  {
    assert End(views + [view], i) == End(views, i);
  }

  class Builder {
    var bin: Bytes
    var views: seq<View>
    ghost var contents: seq<Bytes>

    ghost predicate Valid()
      reads this
    {
      LaidOut(bin, views, contents)
    }

    constructor ()
      ensures Valid() && contents == [] && bin == []
    {
      bin := [];
      views := [];
      contents := [];
    }

    method PushView(bytes: Bytes) returns (index: nat)
      requires Valid()
      modifies this
      ensures Valid()
      ensures index == |old(views)| && contents == old(contents) + [bytes]
      ensures old(bin) <= bin && views[..index] == old(views)
    {
      var padded := Pad(bin, 0);
      OneMoreView(bin, padded, views, contents, bytes);
      var offset := |padded|;
      bin := padded + bytes;
      views := views + [View(offset, |bytes|)];
      contents := contents + [bytes];
      index := |views| - 1;
    }
  }

  // ---- the container ------------------------------------------------------------------------

  const MAGIC: Bytes := [0x67, 0x6C, 0x54, 0x46]
  const JSON: Bytes := [0x4A, 0x53, 0x4F, 0x4E]
  const BIN: Bytes := [0x42, 0x49, 0x4E, 0x00]

  datatype Container = Container(json: Bytes, bin: Bytes)

  /** One chunk of section 4.4.3: length, type, data, with its end on a 4-byte boundary. */
  function ReadChunk(b: Bytes, kind: Bytes): Option<(Bytes, Bytes)> {
    if |b| < 8 || b[4..8] != kind then None
    else
      var length := FromLe32(b[..4]);
      if length % 4 != 0 || |b| < 8 + length then None
      else Some((b[8..8 + length], b[8 + length..]))
  }

  /** Section 4.4: magic, version 2, the length of the whole file, a JSON chunk and a BIN chunk. */
  function ReadContainer(file: Bytes): Option<Container> {
    if |file| < 12 || file[..4] != MAGIC || FromLe32(file[4..8]) != 2 || FromLe32(file[8..12]) != |file| then None
    else
      match ReadChunk(file[12..], JSON)
      case None => None
      case Some(json) =>
        match ReadChunk(json.1, BIN)
        case None => None
        case Some(bin) => if bin.1 == [] then Some(Container(json.0, bin.0)) else None
  }

  function Chunk(kind: Bytes, data: Bytes): Bytes
    requires |kind| == 4 && |data| < 0x1_0000_0000
  {
    Le32(|data|) + kind + data
  }

  function File(json: Bytes, bin: Bytes): Bytes
    requires 28 + |json| + |bin| < 0x1_0000_0000
  {
    MAGIC + Le32(2) + Le32(28 + |json| + |bin|) + (Chunk(JSON, json) + Chunk(BIN, bin))
  }

  lemma ChunkIsRead(kind: Bytes, data: Bytes, tail: Bytes)
    requires |kind| == 4 && |data| < 0x1_0000_0000
    ensures ReadChunk(Chunk(kind, data) + tail, kind) == if |data| % 4 == 0 then Some((data, tail)) else None
  {
    hide Le32, FromLe32;
    Le32RoundTrip(|data|);
    var b := Chunk(kind, data) + tail;
    assert b[..4] == Le32(|data|) && b[4..8] == kind;
    assert b[8..8 + |data|] == data && b[8 + |data|..] == tail;
  }

  lemma FileHeader(json: Bytes, bin: Bytes)
    requires 28 + |json| + |bin| < 0x1_0000_0000
    ensures var file := File(json, bin);
      |file| == 28 + |json| + |bin| && file[..4] == MAGIC
      && FromLe32(file[4..8]) == 2 && FromLe32(file[8..12]) == |file|
      && file[12..] == Chunk(JSON, json) + Chunk(BIN, bin)
  {
    hide Le32, FromLe32;
    var file := File(json, bin);
    Le32RoundTrip(2);
    Le32RoundTrip(28 + |json| + |bin|);
    assert file[4..8] == Le32(2) && file[8..12] == Le32(28 + |json| + |bin|);
  }

  /** Both payloads come back if and only if both were padded first. */
  lemma ContainerRoundTrip(json: Bytes, bin: Bytes)
    requires 28 + |json| + |bin| < 0x1_0000_0000
    ensures ReadContainer(File(json, bin)) ==
      if |json| % 4 == 0 && |bin| % 4 == 0 then Some(Container(json, bin)) else None
  {
    hide File, Chunk, ReadChunk, FromLe32;
    FileHeader(json, bin);
    ChunkIsRead(JSON, json, Chunk(BIN, bin));
    ChunkIsRead(BIN, bin, []);
    assert Chunk(BIN, bin) + [] == Chunk(BIN, bin);
  }

  /**
   * The container of a document and a finished buffer: the reader gets the document up to
   * trailing spaces, and through the views every byte string that was ever pushed.
   */
  method Assemble(glb: Builder, document: Bytes) returns (out: Bytes, json: Bytes, bin: Bytes)
    requires glb.Valid()
    requires 28 + PaddedLength(|document|) + PaddedLength(|glb.bin|) < 0x1_0000_0000
    ensures ReadContainer(out) == Some(Container(json, bin))
    ensures IsPadded(document, json, ' ' as int) && IsPadded(glb.bin, bin, 0)
    ensures forall i :: 0 <= i < |glb.views| ==> Reads(bin, glb.views[i], glb.contents[i])
  {
    hide Le32, ReadContainer;
    json := Pad(document, ' ' as int);
    bin := Pad(glb.bin, 0);
    var total := 12 + 8 + |json| + 8 + |bin|;
    out := MAGIC;
    out := out + Le32(2);
    out := out + Le32(total);
    out := out + Le32(|json|);
    out := out + JSON;
    out := out + json;
    out := out + Le32(|bin|);
    out := out + BIN;
    out := out + bin;
    assert out == File(json, bin);
    ContainerRoundTrip(json, bin);
    forall i | 0 <= i < |glb.views|
      ensures Reads(bin, glb.views[i], glb.contents[i])
    {
      ReadsOfPrefix(glb.bin, bin, glb.views[i], glb.contents[i]);
    }
  }
}
