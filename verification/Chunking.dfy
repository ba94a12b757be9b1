/** Cutting text into chunks (nexus/rag/chunking.py). */
module Chunking {
  import opened Numbers

  lemma Assoc<T>(a: seq<T>, b: seq<T>, c: seq<T>)
    ensures (a + b) + c == a + (b + c)
  {
  }

  lemma TakeDrop<T>(s: seq<T>, n: nat)
    requires n <= |s|
    ensures s[..n] + s[n..] == s
  {
  }

  lemma TakeOfTake<T>(s: seq<T>, m: nat, n: nat)
    requires m <= n <= |s|
    ensures s[..n][..m] == s[..m]
  {
  }

  lemma AppendTakeDrop<T>(a: seq<T>, b: seq<T>)
    ensures (a + b)[..|a|] == a && (a + b)[|a|..] == b
  {
  }

  lemma EmptyUnits<T>(s: seq<T>)
    ensures s + [] == s && [] + s == s
  {
  }

  // ---------- chunk_text ----------

  /** The windows from `start` on. */
  function Chunks(text: string, start: nat, chunkSize: int, overlap: int): seq<string>
    requires chunkSize >= 1
    decreases |text| - start
  {
    if start >= |text| then []
    else
      var end := Min(start + chunkSize, |text|);
      [text[start..end]] + if end >= |text| then [] else Chunks(text, Max(end - overlap, start + 1), chunkSize, overlap)
  }

  lemma ChunksStep(text: string, start: nat, chunkSize: int, overlap: int)
    requires chunkSize >= 1 && start < |text|
    ensures
      var end := Min(start + chunkSize, |text|);
      Chunks(text, start, chunkSize, overlap)
      == [text[start..end]] + if end >= |text| then [] else Chunks(text, Max(end - overlap, start + 1), chunkSize, overlap)
  {
  }

  method ChunkText(text: string, chunkSize: int, overlap: int) returns (chunks: seq<string>)
    requires chunkSize >= 1
    ensures chunks == Chunks(text, 0, chunkSize, overlap)
  {
    chunks := [];
    if text == "" {
      return;
    }
    var start := 0;
    hide Chunks;
    EmptyUnits(Chunks(text, 0, chunkSize, overlap));
    while start < |text|
      invariant start >= 0
      invariant chunks + Chunks(text, start, chunkSize, overlap) == Chunks(text, 0, chunkSize, overlap)
      invariant start >= |text| ==> chunks == Chunks(text, 0, chunkSize, overlap)
      decreases |text| - start
    {
      var end := Min(start + chunkSize, |text|);
      ChunksStep(text, start, chunkSize, overlap);
      EmptyUnits([text[start..end]]);
      if end >= |text| {
        chunks := chunks + [text[start..end]];
        return;
      }
      var next := Max(end - overlap, start + 1);
      Assoc(chunks, [text[start..end]], Chunks(text, next, chunkSize, overlap));
      ghost var rest := Chunks(text, next, chunkSize, overlap);
      assert chunks + ([text[start..end]] + rest) == chunks + [text[start..end]] + rest;
      chunks := chunks + [text[start..end]];
      start := next;
      if start >= |text| { NoChunks(text, start, chunkSize, overlap); EmptyUnits(chunks); }
    }
  }

  lemma NoChunks(text: string, start: nat, chunkSize: int, overlap: int)
    requires chunkSize >= 1 && start >= |text|
    ensures Chunks(text, start, chunkSize, overlap) == []
  {
  }

  /** How many characters two neighbouring chunks share. */
  function Shared(chunkSize: int, overlap: int): int {
    Min(overlap, chunkSize - 1)
  }

  ghost predicate AllAtLeast(pieces: seq<string>, n: nat) {
    forall i :: 0 <= i < |pieces| ==> |pieces[i]| >= n
  }

  /** Each piece without its first `shared` characters. */
  function Tails(pieces: seq<string>, shared: nat): string
    requires AllAtLeast(pieces, shared)
  {
    if pieces == [] then "" else pieces[0][shared..] + Tails(pieces[1..], shared)
  }

  /** The first piece whole, each later one without what it shares with the one before. */
  function Rebuilt(pieces: seq<string>, shared: nat): string
    requires AllAtLeast(pieces, shared + 1)
  {
    if pieces == [] then "" else pieces[0] + Tails(pieces[1..], shared)
  }

  ghost predicate Fitting(pieces: seq<string>, chunkSize: int) {
    forall i :: 0 <= i < |pieces| ==> 1 <= |pieces[i]| <= chunkSize
  }

  /** Neighbours overlap in the last `shared` characters of the one and the first of the other. */
  ghost predicate Overlapping(pieces: seq<string>, shared: nat)
    requires AllAtLeast(pieces, shared + 1)
  {
    forall i :: 0 <= i < |pieces| - 1 ==> pieces[i][|pieces[i]| - shared..] == pieces[i + 1][..shared]
  }

  lemma {:induction false} ChunksFit(text: string, start: nat, chunkSize: int, overlap: int)
    requires chunkSize >= 1
    ensures Fitting(Chunks(text, start, chunkSize, overlap), chunkSize)
    decreases |text| - start
  {
    var end := Min(start + chunkSize, |text|);
    if end < |text| {
      ChunksFit(text, Max(end - overlap, start + 1), chunkSize, overlap);
    }
  }

  lemma ChunkStep(text: string, start: nat, chunkSize: int, overlap: int)
    requires chunkSize >= 1 && overlap >= 0 && start + chunkSize < |text|
    ensures
      var next := start + chunkSize - Shared(chunkSize, overlap);
      Chunks(text, start, chunkSize, overlap)
      == [text[start..start + chunkSize]] + Chunks(text, next, chunkSize, overlap)
  {
  }

  lemma PrependPiece(piece: string, rest: seq<string>, shared: nat)
    requires AllAtLeast(rest, shared + 1) && Overlapping(rest, shared) && rest != [] && |piece| >= shared + 1
    requires piece[|piece| - shared..] == rest[0][..shared]
    ensures AllAtLeast([piece] + rest, shared + 1) && Overlapping([piece] + rest, shared)
    ensures Tails([piece] + rest, shared) == piece[shared..] + Tails(rest, shared)
  {
    var pieces := [piece] + rest;
    assert pieces[1..] == rest;
    assert forall i :: 0 <= i < |pieces| ==> pieces[i] == if i == 0 then piece else rest[i - 1];
  }

  lemma WindowOverlap(text: string, start: nat, end: nat, next: nat, nextEnd: nat)
    requires start <= next <= end <= nextEnd <= |text|
    ensures text[start..end][end - start - (end - next)..] == text[next..nextEnd][..end - next]
  {
  }

  lemma WindowDrop(text: string, start: nat, end: nat, n: nat)
    requires start + n <= end <= |text|
    ensures text[start..end][n..] + text[end..] == text[start + n..]
  {
  }

  lemma WindowTake(text: string, end: nat, n: nat)
    requires n <= end <= |text|
    ensures text[0..end][..n] == text[..n]
  {
  }

  /** `pieces` are windows on the text from `start`, each overlapping the next, that reach to its end. */
  ghost predicate Covers(text: string, start: nat, chunkSize: int, shared: nat, pieces: seq<string>)
    requires start + shared < |text|
  {
    && pieces != [] && start < Min(start + chunkSize, |text|)
    && pieces[0] == text[start..Min(start + chunkSize, |text|)]
    && AllAtLeast(pieces, shared + 1)
    && Overlapping(pieces, shared)
    && Tails(pieces, shared) == text[start + shared..]
  }

  lemma LastWindow(text: string, start: nat, chunkSize: int, shared: nat)
    requires start + shared < |text| <= start + chunkSize
    ensures Covers(text, start, chunkSize, shared, [text[start..|text|]])
  {
    assert Tails([text[start..|text|]][1..], shared) == "";
  }

  lemma NextWindow(text: string, start: nat, chunkSize: int, shared: nat, rest: seq<string>)
    requires shared < chunkSize && start + chunkSize < |text|
    requires Covers(text, start + chunkSize - shared, chunkSize, shared, rest)
    ensures Covers(text, start, chunkSize, shared, [text[start..start + chunkSize]] + rest)
  {
    hide AllAtLeast, Overlapping, Tails;
    var end := start + chunkSize;
    var next := end - shared;
    var piece := text[start..end];
    WindowOverlap(text, start, end, next, Min(next + chunkSize, |text|));
    PrependPiece(piece, rest, shared);
    WindowDrop(text, start, end, shared);
  }

  lemma {:induction false} ChunksCover(text: string, start: nat, chunkSize: int, overlap: int)
    requires chunkSize >= 1 && overlap >= 0 && start + Shared(chunkSize, overlap) < |text|
    ensures Covers(text, start, chunkSize, Shared(chunkSize, overlap), Chunks(text, start, chunkSize, overlap))
    decreases |text| - start
  {
    hide Covers;
    var shared := Shared(chunkSize, overlap);
    if start + chunkSize < |text| {
      hide Chunks;
      ChunkStep(text, start, chunkSize, overlap);
      ChunksCover(text, start + chunkSize - shared, chunkSize, overlap);
      NextWindow(text, start, chunkSize, shared, Chunks(text, start + chunkSize - shared, chunkSize, overlap));
    } else {
      LastWindow(text, start, chunkSize, shared);
      assert Chunks(text, start, chunkSize, overlap) == [text[start..|text|]];
    }
  }

  /**
   With the overlaps taken off again the chunks are the text, for every overlap, those of `chunkSize` and more
   included; neighbours share min(overlap, chunkSize - 1) characters and every chunk has 1 to `chunkSize` of them.
   */
  lemma ChunksAreTheText(text: string, chunkSize: int, overlap: int)
    requires chunkSize >= 1 && overlap >= 0
    ensures
      var pieces := Chunks(text, 0, chunkSize, overlap);
      var shared := Shared(chunkSize, overlap);
      && Fitting(pieces, chunkSize)
      && if |text| <= shared then pieces == if text == "" then [] else [text]
         else AllAtLeast(pieces, shared + 1) && Overlapping(pieces, shared) && Rebuilt(pieces, shared) == text
  {
    var shared := Shared(chunkSize, overlap);
    ChunksFit(text, 0, chunkSize, overlap);
    if |text| > shared {
      hide Chunks, AllAtLeast, Overlapping, Fitting;
      ChunksCover(text, 0, chunkSize, overlap);
      var pieces := Chunks(text, 0, chunkSize, overlap);
      TailsAndRebuilt(pieces, shared);
      WindowTake(text, Min(chunkSize, |text|), shared);
      TakeDrop(text, shared);
    } else {
      assert text[0..|text|] == text;
    }
  }

  lemma TailsAndRebuilt(pieces: seq<string>, shared: nat)
    requires pieces != [] && AllAtLeast(pieces, shared + 1)
    ensures Rebuilt(pieces, shared) == pieces[0][..shared] + Tails(pieces, shared)
  {
    TakeDrop(pieces[0], shared);
    Assoc(pieces[0][..shared], pieces[0][shared..], Tails(pieces[1..], shared));
  }

  function TotalLength(pieces: seq<string>): nat {
    if pieces == [] then 0 else |pieces[0]| + TotalLength(pieces[1..])
  }

  /** A negative overlap, which nothing rejects, leaves characters out as soon as there are two windows. */
  lemma {:induction false} NegativeOverlapLoses(text: string, start: nat, chunkSize: int, overlap: int)
    requires chunkSize >= 1 && overlap < 0
    ensures
      var kept := TotalLength(Chunks(text, start, chunkSize, overlap));
      if |text| > start + chunkSize then kept < |text| - start else kept == Max(|text| - start, 0)
    decreases |text| - start
  {
    var end := Min(start + chunkSize, |text|);
    if end < |text| {
      var next := Max(end - overlap, start + 1);
      NegativeOverlapLoses(text, next, chunkSize, overlap);
      assert Chunks(text, start, chunkSize, overlap)[1..] == Chunks(text, next, chunkSize, overlap);
    }
  }

  // ---------- Separators ----------

  predicate OccursAt(text: string, sep: string, i: nat) {
    i + |sep| <= |text| && text[i..i + |sep|] == sep
  }

  /** The first occurrence at `from` or later, or -1. */
  function Find(text: string, sep: string, from: nat): (i: int)
    ensures i == -1 || (from <= i && OccursAt(text, sep, i))
    decreases |text| - from
  {
    if OccursAt(text, sep, from) then from
    else if from >= |text| then -1
    else Find(text, sep, from + 1)
  }

  /** There is none before the one found, and none at all if nothing is found. */
  lemma {:induction false} FindMeans(text: string, sep: string, from: nat)
    requires sep != ""
    ensures
      var i := Find(text, sep, from);
      && (i >= 0 ==> from <= i && OccursAt(text, sep, i) && forall k :: from <= k < i ==> !OccursAt(text, sep, k))
      && (i < 0 ==> forall k :: from <= k ==> !OccursAt(text, sep, k))
    decreases |text| - from
  {
    hide OccursAt;
    if !OccursAt(text, sep, from) && from < |text| {
      FindMeans(text, sep, from + 1);
    } else if from >= |text| {
      NoneBeyond(text, sep, from);
    }
  }

  lemma NoneBeyond(text: string, sep: string, from: nat)
    requires sep != "" && from >= |text|
    ensures forall k :: from <= k ==> !OccursAt(text, sep, k)
  {
  }

  /** `text.split(sep)`. */
  function Split(text: string, sep: string): (parts: seq<string>)
    requires sep != ""
    ensures parts != []
    decreases |text|
  {
    var i := Find(text, sep, 0);
    if i < 0 then [text] else [text[..i]] + Split(text[i + |sep|..], sep)
  }

  function Join(parts: seq<string>, sep: string): string
    requires parts != []
  {
    if |parts| == 1 then parts[0] else parts[0] + sep + Join(parts[1..], sep)
  }

  lemma {:induction false} SplitJoins(text: string, sep: string)
    requires sep != ""
    ensures Join(Split(text, sep), sep) == text
    decreases |text|
  {
    hide *;
    var i := Find(text, sep, 0);
    if i < 0 {
      SplitNowhere(text, sep);
    } else {
      SplitFirst(text, sep);
      SplitJoins(text[i + |sep|..], sep);
    }
  }

  /** No part contains the separator. */
  lemma {:induction false} PartsAreFree(text: string, sep: string, k: nat, i: nat)
    requires sep != "" && k < |Split(text, sep)|
    ensures !OccursAt(Split(text, sep)[k], sep, i)
    decreases |text|
  {
    hide Split, OccursAt;
    var j := Find(text, sep, 0);
    FindMeans(text, sep, 0);
    if j < 0 {
      assert Split(text, sep) == [text] by { SplitsNot(text, sep); }
    } else {
      SplitCons(text, sep);
      if k == 0 {
        OccursEarlier(text, sep, j, i);
      } else {
        PartsAreFree(text[j + |sep|..], sep, k - 1, i);
      }
    }
  }

  lemma SplitsNot(text: string, sep: string)
    requires sep != "" && Find(text, sep, 0) < 0
    ensures Split(text, sep) == [text]
  {
    hide Find;
  }

  lemma OccursEarlier(text: string, sep: string, j: nat, i: nat)
    requires sep != "" && j <= |text|
    ensures OccursAt(text[..j], sep, i) ==> i < j && OccursAt(text, sep, i)
  {
    if i + |sep| <= j {
      assert text[..j][i..i + |sep|] == text[i..i + |sep|];
    }
  }

  lemma SplitNowhere(text: string, sep: string)
    requires sep != "" && Find(text, sep, 0) < 0
    ensures Join(Split(text, sep), sep) == text
  {
    hide Find;
  }

  lemma SplitFirst(text: string, sep: string)
    requires sep != "" && Find(text, sep, 0) >= 0
    ensures
      var i := Find(text, sep, 0);
      && i + |sep| <= |text| && text == text[..i] + sep + text[i + |sep|..]
      && Join(Split(text, sep), sep) == text[..i] + sep + Join(Split(text[i + |sep|..], sep), sep)
  {
    hide *;
    var i := Find(text, sep, 0);
    FoundParts(text, sep, i);
    SplitCons(text, sep);
    JoinCons(text[..i], Split(text[i + |sep|..], sep), sep);
  }

  lemma FoundParts(text: string, sep: string, i: nat)
    requires Find(text, sep, 0) == i
    ensures i + |sep| <= |text| && text == text[..i] + sep + text[i + |sep|..]
  {
    hide Find;
    assert OccursAt(text, sep, i);
    ThreeParts(text, i, i + |sep|);
  }

  lemma ThreeParts<T>(s: seq<T>, i: nat, j: nat)
    requires i <= j <= |s|
    ensures s == s[..i] + s[i..j] + s[j..]
  {
  }

  lemma SplitCons(text: string, sep: string)
    requires sep != "" && Find(text, sep, 0) >= 0
    ensures
      var i := Find(text, sep, 0);
      && i + |sep| <= |text| && Split(text[i + |sep|..], sep) != []
      && Split(text, sep) == [text[..i]] + Split(text[i + |sep|..], sep)
  {
    hide Find, Join;
  }

  lemma JoinCons(part: string, parts: seq<string>, sep: string)
    requires parts != []
    ensures Join([part] + parts, sep) == part + sep + Join(parts, sep)
  {
    assert ([part] + parts)[1..] == parts;
  }

  /** When the separator occurs, every part is shorter than the text. */
  lemma {:induction false} PartsShorter(text: string, sep: string)
    requires sep != ""
    ensures forall k :: 0 <= k < |Split(text, sep)| ==>
              |Split(text, sep)[k]| <= |text| - if Find(text, sep, 0) >= 0 then |sep| else 0
    decreases |text|
  {
    var i := Find(text, sep, 0);
    if i >= 0 {
      PartsShorter(text[i + |sep|..], sep);
    }
  }

  // ---------- _recursive_split ----------

  predicate IsSeparatorChar(c: char) {
    c == '\n' || c == '.' || c == ' '
  }

  /** The characters that are not part of any separator. */
  function Solid(s: string): string {
    if s == "" then ""
    else Solid(s[..|s| - 1]) + if IsSeparatorChar(s[|s| - 1]) then "" else [s[|s| - 1]]
  }

  function SolidAll(pieces: seq<string>): string {
    if pieces == [] then "" else SolidAll(pieces[..|pieces| - 1]) + Solid(pieces[|pieces| - 1])
  }

  lemma {:induction false} SolidConcat(a: string, b: string)
    ensures Solid(a + b) == Solid(a) + Solid(b)
    decreases |b|
  {
    if b == "" {
      assert a + b == a;
    } else {
      assert (a + b)[..|a + b| - 1] == a + b[..|b| - 1];
      SolidConcat(a, b[..|b| - 1]);
    }
  }

  lemma {:induction false} SolidAllConcat(a: seq<string>, b: seq<string>)
    ensures SolidAll(a + b) == SolidAll(a) + SolidAll(b)
    decreases |b|
  {
    hide Solid;
    if b == [] {
      assert a + b == a;
    } else {
      assert (a + b)[..|a + b| - 1] == a + b[..|b| - 1];
      SolidAllConcat(a, b[..|b| - 1]);
    }
  }

  predicate IsSeparator(sep: string) {
    sep == "\n\n" || sep == "\n" || sep == ". " || sep == " "
  }

  lemma SeparatorIsNotSolid(sep: string)
    requires IsSeparator(sep)
    ensures Solid(sep) == "" && sep != ""
  {
    if |sep| == 1 {
      assert Solid(sep[..0]) == "";
    } else {
      assert |sep| == 2 && sep[..1][..0] == "";
      assert Solid(sep[..1]) == "";
    }
  }

  lemma {:induction false} SolidOfJoin(parts: seq<string>, sep: string)
    requires parts != [] && IsSeparator(sep)
    ensures Solid(Join(parts, sep)) == SolidAll(parts)
    decreases |parts|
  {
    hide *;
    SolidAllCons(parts);
    if |parts| == 1 {
      JoinOne(parts, sep);
      SolidOfNothing(1);
      EmptyUnits(Solid(parts[0]));
    } else {
      assert parts == [parts[0]] + parts[1..];
      JoinCons(parts[0], parts[1..], sep);
      SolidOfCandidate(parts[0], sep, Join(parts[1..], sep), parts[0] + sep + Join(parts[1..], sep));
      SolidOfJoin(parts[1..], sep);
    }
  }

  lemma JoinOne(parts: seq<string>, sep: string)
    requires |parts| == 1
    ensures Join(parts, sep) == parts[0] && parts[1..] == []
  {
  }

  lemma SolidAllCons(pieces: seq<string>)
    requires pieces != []
    ensures SolidAll(pieces) == Solid(pieces[0]) + SolidAll(pieces[1..])
  {
    hide Solid;
    assert pieces == pieces[..1] + pieces[1..];
    SolidAllConcat(pieces[..1], pieces[1..]);
    assert pieces[..1][..0] == [] && SolidAll(pieces[..1]) == Solid(pieces[0]);
  }

  /** The first separator that occurs. */
  function FirstSeparator(text: string): (sep: string)
    ensures sep == "" || (IsSeparator(sep) && Find(text, sep, 0) >= 0)
  {
    if Find(text, "\n\n", 0) >= 0 then "\n\n"
    else if Find(text, "\n", 0) >= 0 then "\n"
    else if Find(text, ". ", 0) >= 0 then ". "
    else if Find(text, " ", 0) >= 0 then " "
    else ""
  }

  /** The separators, in the order they are tried. */
  const SEPARATORS: seq<string> := ["\n\n", "\n", ". ", " "]

  ghost predicate Occurs(text: string, sep: string) {
    exists i :: OccursAt(text, sep, i)
  }

  /** A text is split at the first of these that occurs anywhere in it. */
  lemma FirstSeparatorMeans(text: string)
    ensures forall k :: 0 <= k < |SEPARATORS| && Occurs(text, SEPARATORS[k])
                        && (forall l :: 0 <= l < k ==> !Occurs(text, SEPARATORS[l])) ==>
                          FirstSeparator(text) == SEPARATORS[k]
    ensures (forall k :: 0 <= k < |SEPARATORS| ==> !Occurs(text, SEPARATORS[k])) ==> FirstSeparator(text) == ""
  {
    forall k | 0 <= k < |SEPARATORS|
      ensures Occurs(text, SEPARATORS[k]) <==> Find(text, SEPARATORS[k], 0) >= 0
    {
      FindMeans(text, SEPARATORS[k], 0);
    }
    hide Find, Occurs;
    assert SEPARATORS[0] == "\n\n" && SEPARATORS[1] == "\n" && SEPARATORS[2] == ". " && SEPARATORS[3] == " ";
  }

  lemma SolidOfWindow(text: string, start: nat, end: nat)
    requires start <= end <= |text|
    ensures Solid(text[start..end]) + Solid(text[end..]) == Solid(text[start..])
  {
    hide Solid;
    SolidConcat(text[start..end], text[end..]);
    assert text[start..end] + text[end..] == text[start..];
  }

  lemma {:induction false} SolidOfChunks(text: string, start: nat, chunkSize: int)
    requires chunkSize >= 1 && start <= |text|
    ensures SolidAll(Chunks(text, start, chunkSize, 0)) == Solid(text[start..])
    decreases |text| - start
  {
    hide Solid, SolidAll;
    SolidOfNothing(chunkSize);
    if start < |text| {
      var end := Min(start + chunkSize, |text|);
      var pieces := Chunks(text, start, chunkSize, 0);
      assert pieces[0] == text[start..end] && pieces[1..] == if end < |text| then Chunks(text, end, chunkSize, 0) else [];
      hide Chunks;
      SolidAllCons(pieces);
      SolidOfWindow(text, start, end);
      if end < |text| {
        SolidOfChunks(text, end, chunkSize);
      } else {
        assert text[end..] == "";
      }
    } else {
      assert text[start..] == "";
    }
  }

  /** Pieces of 1 to `chunkSize` characters that keep, in order and once, every character that is no separator's. */
  ghost predicate SplitsInto(text: string, chunkSize: int, pieces: seq<string>) {
    Fitting(pieces, chunkSize) && SolidAll(pieces) == Solid(text)
  }

  lemma WholeText(text: string, chunkSize: int)
    requires |text| <= chunkSize
    ensures SplitsInto(text, chunkSize, if text == "" then [] else [text])
  {
    SolidOfNothing(chunkSize);
    SolidAllCons([text]);
    hide Solid, SolidAll;
    assert [text][1..] == [] && Solid(text) + "" == Solid(text);
  }

  lemma ChunksSplit(text: string, chunkSize: int)
    requires chunkSize >= 1
    ensures SplitsInto(text, chunkSize, Chunks(text, 0, chunkSize, 0))
  {
    hide Chunks, Solid, SolidAll, Fitting;
    ChunksFit(text, 0, chunkSize, 0);
    SolidOfChunks(text, 0, chunkSize);
    assert text[0..] == text;
  }

  lemma SplitFacts(text: string, sep: string)
    requires IsSeparator(sep) && Find(text, sep, 0) >= 0
    ensures
      var parts := Split(text, sep);
      SolidAll(parts) == Solid(text) && forall k :: 0 <= k < |parts| ==> |parts[k]| < |text|
  {
    SeparatorIsNotSolid(sep);
    hide Solid, SolidAll, Join, Split, Find;
    PartsShorter(text, sep);
    SplitJoins(text, sep);
    SolidOfJoin(Split(text, sep), sep);
  }

  // ---------- Which pieces come out ----------

  /** The blocks filled so far, and the one being filled. */
  datatype Packing = Packing(blocks: seq<string>, buf: string)

  function Candidate(buf: string, sep: string, part: string): string {
    if buf == "" then part else buf + sep + part
  }

  function Closed(p: Packing): seq<string> {
    if p.buf != "" then p.blocks + [p.buf] else p.blocks
  }

  /** The first `n` parts, packed greedily: a block is closed by the first part that no longer fits. */
  function Packed(parts: seq<string>, n: nat, sep: string, chunkSize: int): Packing
    requires n <= |parts|
  {
    if n == 0 then Packing([], "")
    else
      var p := Packed(parts, n - 1, sep, chunkSize);
      var candidate := Candidate(p.buf, sep, parts[n - 1]);
      if |candidate| <= chunkSize then p.(buf := candidate) else Packing(Closed(p), parts[n - 1])
  }

  function Blocks(text: string, sep: string, chunkSize: int): seq<string>
    requires sep != ""
  {
    Closed(Packed(Split(text, sep), |Split(text, sep)|, sep, chunkSize))
  }

  ghost predicate AllShorter(pieces: seq<string>, bound: nat) {
    forall k :: 0 <= k < |pieces| ==> |pieces[k]| < bound
  }

  lemma {:induction false} PackedShorter(parts: seq<string>, n: nat, sep: string, chunkSize: int, bound: nat)
    requires n <= |parts| && AllShorter(parts, bound) && 1 <= chunkSize < bound
    ensures AllShorter(Packed(parts, n, sep, chunkSize).blocks, bound)
    ensures |Packed(parts, n, sep, chunkSize).buf| < bound
  {
    if n > 0 {
      PackedShorter(parts, n - 1, sep, chunkSize, bound);
      ClosedShorter(Packed(parts, n - 1, sep, chunkSize), bound);
      assert |parts[n - 1]| < bound;
      hide AllShorter, Candidate, Closed;
    } else {
      assert AllShorter([], bound);
    }
  }

  lemma ClosedShorter(p: Packing, bound: nat)
    requires AllShorter(p.blocks, bound) && |p.buf| < bound
    ensures AllShorter(Closed(p), bound)
  {
  }

  lemma BlocksShorter(text: string, sep: string, chunkSize: int)
    requires IsSeparator(sep) && Find(text, sep, 0) >= 0 && 1 <= chunkSize < |text|
    ensures AllShorter(Blocks(text, sep, chunkSize), |text|)
  {
    SplitFacts(text, sep);
    hide Split, Find, IsSeparator, Packed;
    PackedShorter(Split(text, sep), |Split(text, sep)|, sep, chunkSize, |text|);
  }

  /** No two neighbouring blocks would fit together. */
  ghost predicate Greedy(blocks: seq<string>, sep: string, chunkSize: int) {
    forall k :: 0 <= k < |blocks| - 1 ==> |blocks[k]| + |sep| + |blocks[k + 1]| > chunkSize
  }

  lemma GreedyNext(blocks: seq<string>, block: string, sep: string, chunkSize: int)
    requires Greedy(blocks, sep, chunkSize)
    requires blocks != [] ==> |blocks[|blocks| - 1]| + |sep| + |block| > chunkSize
    ensures Greedy(blocks + [block], sep, chunkSize)
  {
  }

  lemma {:induction false} PackedGreedily(parts: seq<string>, n: nat, sep: string, chunkSize: int)
    requires n <= |parts|
    ensures
      var p := Packed(parts, n, sep, chunkSize);
      && Greedy(p.blocks, sep, chunkSize)
      && (p.blocks != [] ==> |p.blocks[|p.blocks| - 1]| + |sep| + |p.buf| > chunkSize)
  {
    hide Greedy;
    if n == 0 {
      NoBlocks(sep, chunkSize);
    } else {
      PackedGreedily(parts, n - 1, sep, chunkSize);
      var p := Packed(parts, n - 1, sep, chunkSize);
      GreedyNext(p.blocks, p.buf, sep, chunkSize);
      CandidateLength(p.buf, sep, parts[n - 1]);
      hide Candidate;
    }
  }

  lemma NoBlocks(sep: string, chunkSize: int)
    ensures Greedy([], sep, chunkSize)
  {
  }

  lemma CandidateLength(buf: string, sep: string, part: string)
    ensures |Candidate(buf, sep, part)| >= |buf|
    ensures |Candidate(buf, sep, part)| <= |buf| + |sep| + |part|
  {
  }

  /** The blocks of one separator are as few as their order allows: none could have taken in the next. */
  lemma BlocksAreGreedy(text: string, sep: string, chunkSize: int)
    requires sep != ""
    ensures Greedy(Blocks(text, sep, chunkSize), sep, chunkSize)
  {
    hide Split, Packed, Greedy;
    var p := Packed(Split(text, sep), |Split(text, sep)|, sep, chunkSize);
    PackedGreedily(Split(text, sep), |Split(text, sep)|, sep, chunkSize);
    GreedyNext(p.blocks, p.buf, sep, chunkSize);
  }

  /** The pieces of a text: whole if it fits, else those of its blocks at the first separator, else plain windows. */
  function Pieces(text: string, chunkSize: int): seq<string>
    requires chunkSize >= 1
    decreases |text|, 1, 0
  {
    var sep := FirstSeparator(text);
    if |text| <= chunkSize then if text == "" then [] else [text]
    else if sep == "" then Chunks(text, 0, chunkSize, 0)
    else
      BlocksShorter(text, sep, chunkSize);
      AllPieces(Blocks(text, sep, chunkSize), chunkSize, |text|)
  }

  function AllPieces(blocks: seq<string>, chunkSize: int, bound: nat): seq<string>
    requires chunkSize >= 1 && AllShorter(blocks, bound)
    decreases bound, 0, |blocks|
  {
    if blocks == [] then []
    else AllPieces(blocks[..|blocks| - 1], chunkSize, bound) + Pieces(blocks[|blocks| - 1], chunkSize)
  }

  // ---------- Where the pieces come from ----------

  ghost predicate Separating(s: string) {
    forall c :: c in s ==> IsSeparatorChar(c)
  }

  /** The text is these pieces in order, with nothing but separator characters before, between and after them. */
  ghost predicate Cuts(text: string, pieces: seq<string>)
    decreases |pieces|
  {
    if pieces == [] then Separating(text)
    else exists i :: 0 <= i <= |text| && CutAt(text, pieces[|pieces| - 1], i) && Cuts(text[..i], pieces[..|pieces| - 1])
  }

  ghost predicate CutAt(text: string, piece: string, i: int) {
    0 <= i && OccursAt(text, piece, i) && Separating(text[i + |piece|..])
  }

  lemma SeparatingConcat(a: string, b: string)
    requires Separating(a) && Separating(b)
    ensures Separating(a + b)
  {
  }

  lemma CutAtLater(text: string, piece: string, i: int, more: string)
    requires CutAt(text, piece, i) && Separating(more)
    ensures CutAt(text + more, piece, i) && (text + more)[..i] == text[..i]
  {
    hide IsSeparatorChar;
    assert (text + more)[i..i + |piece|] == text[i..i + |piece|];
    assert (text + more)[i + |piece|..] == text[i + |piece|..] + more;
  }

  /** More separator characters at the end change nothing. */
  lemma CutsTrailing(text: string, pieces: seq<string>, more: string)
    requires Cuts(text, pieces) && Separating(more)
    ensures Cuts(text + more, pieces)
  {
    hide IsSeparatorChar, CutAt;
    if pieces != [] {
      var i :| 0 <= i <= |text| && CutAt(text, pieces[|pieces| - 1], i) && Cuts(text[..i], pieces[..|pieces| - 1]);
      CutAtLater(text, pieces[|pieces| - 1], i, more);
    }
  }

  lemma CutAtBehind(before: string, text: string, piece: string, i: int)
    requires CutAt(text, piece, i)
    ensures CutAt(before + text, piece, |before| + i) && (before + text)[..|before| + i] == before + text[..i]
  {
    hide IsSeparatorChar;
    var all, k := before + text, |before| + i;
    assert all[k..k + |piece|] == text[i..i + |piece|] && all[k + |piece|..] == text[i + |piece|..];
  }

  lemma {:induction false} CutsConcat(a: string, ps: seq<string>, b: string, qs: seq<string>)
    requires Cuts(a, ps) && Cuts(b, qs)
    ensures Cuts(a + b, ps + qs)
    decreases |qs|
  {
    hide IsSeparatorChar, CutAt;
    if qs == [] {
      CutsTrailing(a, ps, b);
      assert ps + qs == ps;
    } else {
      var n := |qs| - 1;
      var i :| 0 <= i <= |b| && CutAt(b, qs[n], i) && Cuts(b[..i], qs[..n]);
      CutsConcat(a, ps, b[..i], qs[..n]);
      CutAtBehind(a, b, qs[n], i);
      var all := ps + qs;
      assert all[|all| - 1] == qs[n] && all[..|all| - 1] == ps + qs[..n];
    }
  }

  lemma WholeCuts(text: string)
    ensures Cuts(text, [text]) && Cuts("", [])
  {
    assert text[0..0 + |text|] == text && text[0 + |text|..] == "" && text[..0] == "" && [text][..0] == [];
    assert CutAt(text, text, 0);
    assert Cuts(text[..0], [text][..0]);
  }

  lemma {:induction false} ChunksCut(text: string, start: nat, chunkSize: int)
    requires chunkSize >= 1 && start <= |text|
    ensures Cuts(text[start..], Chunks(text, start, chunkSize, 0))
    decreases |text| - start
  {
    hide Cuts;
    WholeCuts("");
    if start < |text| {
      var end := Min(start + chunkSize, |text|);
      WholeCuts(text[start..end]);
      ChunksStep(text, start, chunkSize, 0);
      hide Chunks;
      EmptyUnits([text[start..end]]);
      assert text[start..] == text[start..end] + text[end..];
      if end < |text| {
        ChunksCut(text, end, chunkSize);
        CutsConcat(text[start..end], [text[start..end]], text[end..], Chunks(text, end, chunkSize, 0));
      } else {
        assert text[end..] == "";
        EmptyUnits(text[start..end]);
      }
    } else {
      NoChunks(text, start, chunkSize, 0);
      assert text[start..] == "";
    }
  }

  lemma {:induction false} JoinLast(parts: seq<string>, last: string, sep: string)
    requires parts != []
    ensures Join(parts + [last], sep) == Join(parts, sep) + sep + last
    decreases |parts|
  {
    if |parts| == 1 {
      assert parts + [last] == [parts[0]] + [last];
      JoinCons(parts[0], [last], sep);
    } else {
      var rest := parts[1..];
      assert parts + [last] == [parts[0]] + (rest + [last]) && parts == [parts[0]] + rest;
      JoinLast(rest, last, sep);
      JoinCons(parts[0], rest + [last], sep);
      JoinCons(parts[0], rest, sep);
      hide Join;
      assert parts[0] + sep + (Join(rest, sep) + sep + last) == parts[0] + sep + Join(rest, sep) + sep + last;
    }
  }

  lemma SeparatorSeparates(sep: string)
    requires IsSeparator(sep)
    ensures Separating(sep)
  {
  }

  /** What the first parts joined come to: text that the closed blocks cut, then the block being filled. */
  ghost predicate CutSoFar(joined: string, p: Packing) {
    exists before :: joined == before + p.buf && Cuts(before, p.blocks)
  }

  lemma CloseCut(joined: string, p: Packing)
    requires CutSoFar(joined, p)
    ensures Cuts(joined, Closed(p))
  {
    var before :| joined == before + p.buf && Cuts(before, p.blocks);
    hide Cuts;
    if p.buf != "" {
      WholeCuts(p.buf);
      CutsConcat(before, p.blocks, p.buf, [p.buf]);
    } else {
      assert joined == before;
    }
  }

  lemma CutNextClosed(joined: string, p: Packing, sep: string, part: string)
    requires CutSoFar(joined, p) && IsSeparator(sep)
    ensures CutSoFar(joined + sep + part, Packing(Closed(p), part))
  {
    hide Cuts, IsSeparator, Closed;
    SeparatorSeparates(sep);
    CloseCut(joined, p);
    CutsTrailing(joined, Closed(p), sep);
  }

  lemma CutNextFilled(joined: string, p: Packing, sep: string, part: string)
    requires CutSoFar(joined, p) && p.buf != ""
    ensures CutSoFar(joined + sep + part, p.(buf := p.buf + sep + part))
  {
    hide Cuts;
    var before :| joined == before + p.buf && Cuts(before, p.blocks);
    assert joined + sep + part == before + (p.buf + sep + part);
  }

  lemma CutNext(joined: string, p: Packing, sep: string, part: string, chunkSize: int)
    requires CutSoFar(joined, p) && IsSeparator(sep)
    ensures
      var candidate := Candidate(p.buf, sep, part);
      CutSoFar(joined + sep + part, if |candidate| <= chunkSize then p.(buf := candidate) else Packing(Closed(p), part))
  {
    hide CutSoFar, IsSeparator;
    CutNextClosed(joined, p, sep, part);
    if p.buf != "" {
      CutNextFilled(joined, p, sep, part);
    } else {
      assert p.(buf := part) == Packing(Closed(p), part);
    }
  }

  lemma PackedFirst(parts: seq<string>, sep: string, chunkSize: int)
    requires parts != []
    ensures Packed(parts, 1, sep, chunkSize) == Packing([], parts[0])
    ensures Join(parts[..1], sep) == parts[0]
  {
    assert Packed(parts, 0, sep, chunkSize) == Packing([], "");
  }

  lemma PackedNext(parts: seq<string>, n: nat, sep: string, chunkSize: int)
    requires 1 < n <= |parts|
    ensures
      var p := Packed(parts, n - 1, sep, chunkSize);
      var candidate := Candidate(p.buf, sep, parts[n - 1]);
      && Packed(parts, n, sep, chunkSize)
         == (if |candidate| <= chunkSize then p.(buf := candidate) else Packing(Closed(p), parts[n - 1]))
      && Join(parts[..n], sep) == Join(parts[..n - 1], sep) + sep + parts[n - 1]
  {
    hide Join, Candidate, Closed;
    assert parts[..n] == parts[..n - 1] + [parts[n - 1]];
    JoinLast(parts[..n - 1], parts[n - 1], sep);
  }

  lemma {:induction false} PackedCuts(parts: seq<string>, n: nat, sep: string, chunkSize: int)
    requires 1 <= n <= |parts| && IsSeparator(sep)
    ensures CutSoFar(Join(parts[..n], sep), Packed(parts, n, sep, chunkSize))
    decreases n
  {
    hide *;
    if n == 1 {
      PackedFirst(parts, sep, chunkSize);
      FirstCut(parts[0]);
    } else {
      PackedCuts(parts, n - 1, sep, chunkSize);
      PackedNext(parts, n, sep, chunkSize);
      CutNext(Join(parts[..n - 1], sep), Packed(parts, n - 1, sep, chunkSize), sep, parts[n - 1], chunkSize);
    }
  }

  lemma FirstCut(part: string)
    ensures CutSoFar(part, Packing([], part))
  {
    WholeCuts("");
    assert part == "" + part;
  }

  lemma BlocksCut(text: string, sep: string, chunkSize: int)
    requires IsSeparator(sep)
    ensures sep != "" && Cuts(text, Blocks(text, sep, chunkSize))
  {
    SeparatorIsNotSolid(sep);
    hide Cuts, IsSeparator, Split, Packed, Join, Closed;
    var parts := Split(text, sep);
    SplitJoins(text, sep);
    PackedCuts(parts, |parts|, sep, chunkSize);
    assert parts[..|parts|] == parts;
    CloseCut(text, Packed(parts, |parts|, sep, chunkSize));
  }

  lemma {:induction false} AllPiecesCut(text: string, blocks: seq<string>, chunkSize: int, bound: nat)
    requires chunkSize >= 1 && AllShorter(blocks, bound) && Cuts(text, blocks)
    ensures Cuts(text, AllPieces(blocks, chunkSize, bound))
    decreases bound, 0, |blocks|
  {
    hide Pieces, CutAt, IsSeparatorChar;
    if blocks != [] {
      var n := |blocks| - 1;
      var i :| 0 <= i <= |text| && CutAt(text, blocks[n], i) && Cuts(text[..i], blocks[..n]);
      CutAtParts(text, blocks[n], i);
      hide Cuts;
      AllPiecesCut(text[..i], blocks[..n], chunkSize, bound);
      PiecesCut(blocks[n], chunkSize);
      CutsConcat(text[..i], AllPieces(blocks[..n], chunkSize, bound), blocks[n], Pieces(blocks[n], chunkSize));
      CutsTrailing(text[..i] + blocks[n], AllPieces(blocks, chunkSize, bound), text[i + |blocks[n]|..]);
    }
  }

  lemma CutAtParts(text: string, piece: string, i: int)
    requires CutAt(text, piece, i)
    ensures 0 <= i && i + |piece| <= |text| && Separating(text[i + |piece|..])
    ensures text == text[..i] + piece + text[i + |piece|..]
  {
    ThreeParts(text, i, i + |piece|);
  }

  /** Every piece is a stretch of the text, in order, and only separator characters are left out. */
  lemma {:induction false} PiecesCut(text: string, chunkSize: int)
    requires chunkSize >= 1
    ensures Cuts(text, Pieces(text, chunkSize))
    decreases |text|, 1, 0
  {
    hide Cuts, AllPieces, Chunks, Blocks, IsSeparator, Find;
    var sep := FirstSeparator(text);
    WholeCuts(text);
    if |text| > chunkSize {
      hide FirstSeparator;
      if sep == "" {
        ChunksCut(text, 0, chunkSize);
        assert text[0..] == text;
      } else {
        BlocksShorter(text, sep, chunkSize);
        BlocksCut(text, sep, chunkSize);
        AllPiecesCut(text, Blocks(text, sep, chunkSize), chunkSize, |text|);
      }
    }
  }

  lemma NextPart(parts: seq<string>, i: nat, sep: string, chunkSize: int, bound: nat)
    requires i < |parts| && AllShorter(parts, bound) && 1 <= chunkSize < bound
    ensures
      var p, q := Packed(parts, i, sep, chunkSize), Packed(parts, i + 1, sep, chunkSize);
      var candidate := if p.buf == "" then parts[i] else p.buf + sep + parts[i];
      && AllShorter(p.blocks, bound) && AllShorter(q.blocks, bound) && |p.buf| < bound && |parts[i]| < bound
      && if |candidate| <= chunkSize then q == p.(buf := candidate)
         else && q.buf == parts[i]
              && AllPieces(q.blocks, chunkSize, bound)
                 == AllPieces(p.blocks, chunkSize, bound) + if p.buf != "" then Pieces(p.buf, chunkSize) else []
  {
    PackedShorter(parts, i, sep, chunkSize, bound);
    PackedShorter(parts, i + 1, sep, chunkSize, bound);
    var p := Packed(parts, i, sep, chunkSize);
    assert (p.blocks + [p.buf])[..|p.blocks|] == p.blocks;
    hide Pieces;
  }

  method RecursiveSplit(text: string, chunkSize: int) returns (acc: seq<string>)
    requires chunkSize >= 1
    ensures acc == Pieces(text, chunkSize) && Cuts(text, acc)
    ensures SplitsInto(text, chunkSize, acc)
    decreases |text|, 1
  {
    PiecesCut(text, chunkSize);
    hide Cuts, Chunks, Solid, SolidAll, Join, Split, Find, FirstSeparator, Fitting, IsSeparator, Packed, AllPieces;
    if |text| <= chunkSize {
      WholeText(text, chunkSize);
      return if text == "" then [] else [text];
    }
    var sep := FirstSeparator(text);
    if sep == "" {
      acc := ChunkText(text, chunkSize, 0);
      ChunksSplit(text, chunkSize);
    } else {
      acc := SplitAt(text, sep, chunkSize);
    }
  }

  /** The loop over the parts at one separator. */
  method SplitAt(text: string, sep: string, chunkSize: int) returns (acc: seq<string>)
    requires 1 <= chunkSize < |text| && sep == FirstSeparator(text) && sep != ""
    ensures acc == Pieces(text, chunkSize)
    ensures SplitsInto(text, chunkSize, acc)
    decreases |text|, 0
  {
    hide Chunks, Solid, SolidAll, Join, Split, Find, FirstSeparator, Fitting, IsSeparator;
    hide Pieces, Packed, AllPieces, Blocks, AllShorter, Closed;
    var parts := Split(text, sep);
    SplitFacts(text, sep);
    PiecesMean(text, sep, chunkSize);
    acc := [];
    var buf := "";
    SolidOfNothing(chunkSize);
    NothingPacked(parts, sep, chunkSize, |text|);
    for i := 0 to |parts|
      invariant Packed(parts, i, sep, chunkSize).buf == buf && |buf| < |text|
      invariant AllShorter(Packed(parts, i, sep, chunkSize).blocks, |text|)
      invariant acc == AllPieces(Packed(parts, i, sep, chunkSize).blocks, chunkSize, |text|)
      invariant Fitting(acc, chunkSize) && SolidAll(acc) + Solid(buf) == SolidAll(parts[..i])
    {
      var part := parts[i];
      SolidNext(parts, i);
      NextPart(parts, i, sep, chunkSize, |text|);
      var candidate := if buf == "" then part else buf + sep + part;
      SolidOfCandidate(buf, sep, part, candidate);
      if |candidate| <= chunkSize {
        Assoc(SolidAll(acc), Solid(buf), Solid(part));
        buf := candidate;
      } else {
        if buf != "" {
          acc := Flush(acc, buf, chunkSize);
        }
        buf := part;
      }
    }
    assert parts[..|parts|] == parts;
    LastBlock(parts, sep, chunkSize, |text|);
    if buf != "" {
      acc := Flush(acc, buf, chunkSize);
    }
  }

  lemma NothingPacked(parts: seq<string>, sep: string, chunkSize: int, bound: nat)
    requires chunkSize >= 1
    ensures Packed(parts, 0, sep, chunkSize) == Packing([], "") && AllShorter([], bound)
    ensures AllPieces([], chunkSize, bound) == []
  {
  }

  lemma PiecesMean(text: string, sep: string, chunkSize: int)
    requires 1 <= chunkSize < |text| && sep == FirstSeparator(text) && sep != ""
    ensures AllShorter(Blocks(text, sep, chunkSize), |text|)
    ensures Pieces(text, chunkSize) == AllPieces(Blocks(text, sep, chunkSize), chunkSize, |text|)
    ensures Blocks(text, sep, chunkSize) == Closed(Packed(Split(text, sep), |Split(text, sep)|, sep, chunkSize))
    ensures AllShorter(Split(text, sep), |text|)
  {
    BlocksShorter(text, sep, chunkSize);
    SplitFacts(text, sep);
    hide Packed, Split, Find, IsSeparator;
  }

  lemma LastBlock(parts: seq<string>, sep: string, chunkSize: int, bound: nat)
    requires AllShorter(parts, bound) && 1 <= chunkSize < bound
    ensures
      var p := Packed(parts, |parts|, sep, chunkSize);
      && AllShorter(p.blocks, bound) && AllShorter(Closed(p), bound) && |p.buf| < bound
      && AllPieces(Closed(p), chunkSize, bound)
         == AllPieces(p.blocks, chunkSize, bound) + if p.buf != "" then Pieces(p.buf, chunkSize) else []
  {
    PackedShorter(parts, |parts|, sep, chunkSize, bound);
    var p := Packed(parts, |parts|, sep, chunkSize);
    assert (p.blocks + [p.buf])[..|p.blocks|] == p.blocks;
    hide Pieces, Packed;
  }

  lemma SolidNext(parts: seq<string>, i: nat)
    requires i < |parts|
    ensures SolidAll(parts[..i + 1]) == SolidAll(parts[..i]) + Solid(parts[i])
  {
    assert parts[..i + 1][..i] == parts[..i];
  }

  lemma SolidOfNothing(chunkSize: int)
    ensures Solid("") == "" && SolidAll([]) == "" && Fitting([], chunkSize)
  {
  }

  lemma SolidOfCandidate(buf: string, sep: string, part: string, candidate: string)
    requires IsSeparator(sep)
    requires candidate == buf + sep + part || (buf == "" && candidate == part)
    ensures Solid(candidate) == Solid(buf) + Solid(part)
  {
    hide *;
    if candidate == buf + sep + part {
      SeparatorIsNotSolid(sep);
      SolidConcat(buf + sep, part);
      SolidConcat(buf, sep);
      EmptyUnits(Solid(buf));
    } else {
      SolidOfNothing(1);
      EmptyUnits(Solid(part));
    }
  }

  lemma FittingConcat(a: seq<string>, b: seq<string>, chunkSize: int)
    requires Fitting(a, chunkSize) && Fitting(b, chunkSize)
    ensures Fitting(a + b, chunkSize)
  {
  }

  method Flush(before: seq<string>, buf: string, chunkSize: int) returns (acc: seq<string>)
    requires chunkSize >= 1 && Fitting(before, chunkSize)
    ensures acc == before + Pieces(buf, chunkSize)
    ensures Fitting(acc, chunkSize) && SolidAll(acc) == SolidAll(before) + Solid(buf)
    decreases |buf|, 2
  {
    hide Pieces, SolidAll, Solid, Fitting;
    var more := RecursiveSplit(buf, chunkSize);
    FittingConcat(before, more, chunkSize);
    SolidAllConcat(before, more);
    acc := before + more;
  }

  // ---------- _apply_overlap ----------

  function Suffix(s: string, n: nat): (r: string)
    ensures |r| == Min(n, |s|) && r == s[|s| - |r|..]
  {
    if |s| > n then s[|s| - n..] else s
  }

  /** Every piece but the first, with the end of its predecessor in front. */
  function Overlapped(pieces: seq<string>, overlap: nat): (r: seq<string>)
    ensures |r| == |pieces|
  {
    if |pieces| <= 1 then pieces
    else
      var n := |pieces| - 1;
      Overlapped(pieces[..n], overlap) + [Suffix(pieces[n - 1], overlap) + pieces[n]]
  }

  lemma OverlappedNext(pieces: seq<string>, overlap: nat, i: nat)
    requires 1 <= i < |pieces|
    ensures Overlapped(pieces[..i + 1], overlap)
            == Overlapped(pieces[..i], overlap) + [Suffix(pieces[i - 1], overlap) + pieces[i]]
  {
    hide Suffix;
    var p := pieces[..i + 1];
    assert p[i - 1] == pieces[i - 1] && p[i] == pieces[i];
    TakeOfTake(pieces, i, i + 1);
  }

  lemma OverlappedShort(pieces: seq<string>, overlap: int)
    ensures overlap > 0 && |pieces| < 2 ==> Overlapped(pieces, overlap) == pieces
    ensures overlap > 0 && pieces != [] ==> Overlapped(pieces[..1], overlap) == [pieces[0]]
  {
    assert pieces != [] ==> pieces[..1] == [pieces[0]];
  }

  method ApplyOverlap(pieces: seq<string>, overlap: int) returns (out: seq<string>)
    ensures out == if overlap <= 0 then pieces else Overlapped(pieces, overlap)
  {
    hide Overlapped, Suffix;
    OverlappedShort(pieces, overlap);
    if overlap <= 0 || |pieces| < 2 {
      return pieces;
    }
    out := [pieces[0]];
    for i := 1 to |pieces|
      invariant out == Overlapped(pieces[..i], overlap)
    {
      OverlappedNext(pieces, overlap, i);
      out := out + [Suffix(pieces[i - 1], overlap) + pieces[i]];
    }
    assert pieces[..|pieces|] == pieces;
  }

  /** The first piece stays; each other one follows the end of its predecessor, `overlap` characters if it has so many. */
  lemma {:induction false} OverlappedMeans(pieces: seq<string>, overlap: nat, i: nat)
    requires i < |pieces|
    ensures i == 0 ==> Overlapped(pieces, overlap)[i] == pieces[i]
    ensures i > 0 ==>
              var n := Min(overlap, |pieces[i - 1]|);
              Overlapped(pieces, overlap)[i] == pieces[i - 1][|pieces[i - 1]| - n..] + pieces[i]
  {
    hide Suffix;
    var n := |pieces| - 1;
    if |pieces| > 1 && i < n {
      OverlappedMeans(pieces[..n], overlap, i);
    }
  }

  /** Reading the overlapped pieces from the left, each one's own text can be recovered from the one before. */
  function Recovered(out: seq<string>, overlap: nat): (r: seq<string>)
    ensures |r| == |out|
  {
    if |out| <= 1 then out
    else
      var front := Recovered(out[..|out| - 1], overlap);
      var last := out[|out| - 1];
      front + [last[Min(Min(overlap, |front[|front| - 1]|), |last|)..]]
  }

  /** The overlap can be taken off again. */
  lemma {:induction false} OverlapRoundTrip(pieces: seq<string>, overlap: nat)
    ensures Recovered(Overlapped(pieces, overlap), overlap) == pieces
  {
    hide *;
    if |pieces| <= 1 {
      ShortRoundTrip(pieces, overlap);
    } else {
      var n := |pieces| - 1;
      var suffix := Suffix(pieces[n - 1], overlap);
      OverlapRoundTrip(pieces[..n], overlap);
      SuffixLength(pieces[n - 1], overlap);
      OverlappedLast(pieces, overlap);
      LastRecovered(Overlapped(pieces[..n], overlap), suffix, pieces[n], pieces[..n], overlap);
      assert pieces == pieces[..n] + [pieces[n]];
    }
  }

  lemma ShortRoundTrip(pieces: seq<string>, overlap: nat)
    requires |pieces| <= 1
    ensures Recovered(Overlapped(pieces, overlap), overlap) == pieces
  {
  }

  lemma SuffixLength(s: string, n: nat)
    ensures |Suffix(s, n)| == Min(n, |s|)
  {
  }

  lemma OverlappedLast(pieces: seq<string>, overlap: nat)
    requires |pieces| > 1
    ensures
      var n := |pieces| - 1;
      && |Overlapped(pieces[..n], overlap)| == n
      && Overlapped(pieces, overlap) == Overlapped(pieces[..n], overlap) + [Suffix(pieces[n - 1], overlap) + pieces[n]]
  {
    hide Suffix;
  }

  /** The last piece comes back, given the ones before. */
  lemma LastRecovered(out: seq<string>, suffix: string, piece: string, front: seq<string>, overlap: nat)
    requires out != [] && front == Recovered(out, overlap) && front != []
    requires |suffix| == Min(overlap, |front[|front| - 1]|)
    ensures Recovered(out + [suffix + piece], overlap) == front + [piece]
  {
    var all := out + [suffix + piece];
    assert all[..|all| - 1] == out && all[|all| - 1] == suffix + piece;
    AppendTakeDrop(suffix, piece);
  }
}
