/** The greedy splitter of `chunked-storage.ts`: chunks within a byte budget, cut between symbols. */
module Utf8Chunks {
  import opened Prelude

  /** What iterating a JavaScript string yields: a code point, or an unpaired surrogate. */
  newtype Symbol = c: int | 0 <= c < 0x11_0000

  type Text = seq<Symbol>

  /** UTF-8 lengths, section 3 of RFC 3629. An unpaired surrogate is encoded as U+FFFD, three bytes. */
  function Width(c: Symbol): (w: nat)
    ensures 1 <= w <= 4
  {
    if c < 0x80 then 1 else if c < 0x800 then 2 else if c < 0x1_0000 then 3 else 4
  }

  // ----- the encoding itself -----

  /** An encoded byte. */
  newtype Octet = b: int | 0 <= b < 0x100

  predicate Unpaired(c: Symbol) { 0xD800 <= c < 0xE000 }

  /** Section 3 of RFC 3629; an unpaired surrogate is replaced by U+FFFD first. */
  function Encode(c: Symbol): seq<Octet> {
    var n := if Unpaired(c) then 0xFFFD else c as int;
    if n < 0x80 then [n as Octet]
    else if n < 0x800 then [(0xC0 + n / 0x40) as Octet, (0x80 + n % 0x40) as Octet]
    else if n < 0x1_0000 then
      [(0xE0 + n / 0x1000) as Octet, (0x80 + n / 0x40 % 0x40) as Octet, (0x80 + n % 0x40) as Octet]
    else
      [(0xF0 + n / 0x4_0000) as Octet, (0x80 + n / 0x1000 % 0x40) as Octet, (0x80 + n / 0x40 % 0x40) as Octet,
       (0x80 + n % 0x40) as Octet]
  }

  function Decode(s: seq<Octet>): int {
    if |s| == 1 then s[0] as int
    else if |s| == 2 then (s[0] as int - 0xC0) * 0x40 + (s[1] as int - 0x80)
    else if |s| == 3 then (s[0] as int - 0xE0) * 0x1000 + (s[1] as int - 0x80) * 0x40 + (s[2] as int - 0x80)
    else if |s| == 4 then
      (s[0] as int - 0xF0) * 0x4_0000 + (s[1] as int - 0x80) * 0x1000 + (s[2] as int - 0x80) * 0x40 + (s[3] as int - 0x80)
    else 0
  }

  /** A number is its digits to the base 64. */
  lemma Digits64(n: nat)
    ensures n / 0x40 * 0x40 + n % 0x40 == n && n / 0x40 / 0x40 == n / 0x1000 && n / 0x1000 / 0x40 == n / 0x4_0000
  {}

  lemma EncodedLength(c: Symbol)
    ensures |Encode(c)| == Width(c)
  {}

  lemma EncodedValue(n: nat)
    requires n < 0x11_0000
    ensures n == n / 0x40 * 0x40 + n % 0x40
    ensures n == n / 0x1000 * 0x1000 + n / 0x40 % 0x40 * 0x40 + n % 0x40
    ensures n == n / 0x4_0000 * 0x4_0000 + n / 0x1000 % 0x40 * 0x1000 + n / 0x40 % 0x40 * 0x40 + n % 0x40
  {
    Digits64(n);
    Digits64(n / 0x40);
    Digits64(n / 0x1000);
  }

  /** The width of a symbol is the length of its encoding, from which the symbol can be read back. */
  lemma WidthIsEncodedLength(c: Symbol)
    ensures |Encode(c)| == Width(c)
    ensures Decode(Encode(c)) == if Unpaired(c) then 0xFFFD else c as int
  {
    EncodedLength(c);
    EncodedValue(if Unpaired(c) then 0xFFFD else c as int);
  }

  function Bytes(t: Text): nat {
    if t == [] then 0 else Bytes(t[..|t| - 1]) + Width(t[|t| - 1])
  }

  function Join(parts: seq<Text>): Text {
    if parts == [] then [] else Join(parts[..|parts| - 1]) + parts[|parts| - 1]
  }

  /** A cut of a text at symbol boundaries whose pieces all fit the budget. */
  ghost predicate Cut(parts: seq<Text>, value: Text, max: int) {
    && Join(parts) == value
    && forall i :: 0 <= i < |parts| ==> Bytes(parts[i]) <= max
  }

  /** No chunk is empty, and none had room for the first symbol of the next. */
  ghost predicate Greedy(chunks: seq<Text>, max: int) {
    && (forall i :: 0 <= i < |chunks| ==> chunks[i] != [])
    && (forall i, j :: 0 <= i < |chunks| - 1 && j == i + 1 ==> NoRoom(chunks[i], chunks[j], max))
  }

  predicate NoRoom(chunk: Text, next: Text, max: int) {
    next != [] && Bytes(chunk) + Width(next[0]) > max
  }

  /** The loop's state: full chunks, and an open one that starts where the last had no room. */
  ghost predicate Progress(chunks: seq<Text>, chunk: Text, read: Text, max: int) {
    && Cut(chunks, Join(chunks), max) && Greedy(chunks, max)
    && Join(chunks) + chunk == read && Bytes(chunk) <= max
    && (chunk != [] && chunks != [] ==> NoRoom(chunks[|chunks| - 1], chunk, max))
  }

  lemma Close(chunks: seq<Text>, chunk: Text, read: Text, max: int)
    requires Progress(chunks, chunk, read, max) && chunk != []
    ensures Cut(chunks + [chunk], read, max) && Greedy(chunks + [chunk], max)
  {
    assert (chunks + [chunk])[..|chunks|] == chunks;
  }

  lemma Extend(chunks: seq<Text>, chunk: Text, read: Text, max: int, symbol: Symbol)
    requires Progress(chunks, chunk, read, max) && Bytes(chunk) + Width(symbol) <= max
    requires chunk == [] ==> chunks == []
    ensures Progress(chunks, chunk + [symbol], read + [symbol], max)
    ensures Bytes(chunk + [symbol]) == Bytes(chunk) + Width(symbol)
  {
    assert (chunk + [symbol])[..|chunk|] == chunk;
    assert Join(chunks) + (chunk + [symbol]) == read + [symbol];
  }

  lemma StartNext(chunks: seq<Text>, chunk: Text, read: Text, max: int, symbol: Symbol)
    requires Progress(chunks, chunk, read, max) && chunk != [] && Bytes(chunk) + Width(symbol) > max && max >= 4
    ensures Progress(chunks + [chunk], [symbol], read + [symbol], max)
    ensures Bytes([symbol]) == Width(symbol)
  {
    Close(chunks, chunk, read, max);
    assert [symbol][..0] == [];
  }

  /** The closed chunks and the open one, after reading a text greedily. */
  function Reading(read: Text, max: int): (seq<Text>, Text) {
    if read == [] then ([], [])
    else
      var (chunks, chunk) := Reading(read[..|read| - 1], max);
      var symbol := read[|read| - 1];
      if chunk != [] && Bytes(chunk) + Width(symbol) > max then (chunks + [chunk], [symbol]) else (chunks, chunk + [symbol])
  }

  lemma {:induction false} ReadingProgresses(read: Text, max: int)
    requires max >= 4
    ensures var (chunks, chunk) := Reading(read, max);
            Progress(chunks, chunk, read, max) && (chunk == [] <==> read == []) && (read == [] ==> chunks == [])
  {
    if read != [] {
      var front, symbol := read[..|read| - 1], read[|read| - 1];
      ReadingProgresses(front, max);
      var (chunks, chunk) := Reading(front, max);
      assert front + [symbol] == read;
      if chunk != [] && Bytes(chunk) + Width(symbol) > max {
        StartNext(chunks, chunk, front, max, symbol);
      } else {
        Extend(chunks, chunk, front, max, symbol);
      }
    }
  }

  lemma SplitMeans(value: Text, max: int)
    requires max >= 4 && value != []
    ensures var (chunks, chunk) := Reading(value, max);
            Cut(chunks + [chunk], value, max) && Greedy(chunks + [chunk], max)
  {
    ReadingProgresses(value, max);
    var (chunks, chunk) := Reading(value, max);
    Close(chunks, chunk, value, max);
  }

  /** `splitUtf8Chunks`: None is the error for a budget below four bytes. */
  method Split(value: Text, max: int) returns (result: Option<seq<Text>>)
    ensures result.None? <==> max < 4
    ensures max >= 4 && value == [] ==> result == Some([[]])
    ensures max >= 4 && value != [] ==> Cut(result.value, value, max) && Greedy(result.value, max)
  {
    if max < 4 { return None; }
    if |value| == 0 { return Some([[]]); }
    var chunks: seq<Text> := [];
    var chunk: Text := [];
    var chunkBytes := 0;
    for i := 0 to |value|
      invariant (chunks, chunk) == Reading(value[..i], max)
      invariant chunkBytes == Bytes(chunk)
    {
      var symbol := value[i];
      var symbolBytes := Width(symbol);
      assert value[..i + 1][..i] == value[..i];
      if chunk != [] && chunkBytes + symbolBytes > max {
        chunks := chunks + [chunk];
        chunk := [];
        chunkBytes := 0;
      }
      assert (chunk + [symbol])[..|chunk|] == chunk;
      chunk := chunk + [symbol];
      chunkBytes := chunkBytes + symbolBytes;
    }
    assert value[..|value|] == value;
    SplitMeans(value, max);
    return Some(chunks + [chunk]);
  }

  // ----- no cut has fewer chunks -----

  lemma {:induction false} BytesAppend(a: Text, b: Text)
    ensures Bytes(a + b) == Bytes(a) + Bytes(b)
  {
    if b == [] {
      assert a + b == a;
    } else {
      assert (a + b)[..|a + b| - 1] == a + b[..|b| - 1];
      BytesAppend(a, b[..|b| - 1]);
    }
  }

  lemma SliceBytes(t: Text, lo: nat, lo': nat, hi': nat, hi: nat)
    requires lo <= lo' <= hi' <= hi <= |t|
    ensures Bytes(t[lo'..hi']) <= Bytes(t[lo..hi])
  {
    assert t[lo..hi] == t[lo..lo'] + t[lo'..hi'] + t[hi'..hi];
    BytesAppend(t[lo..lo'] + t[lo'..hi'], t[hi'..hi]);
    BytesAppend(t[lo..lo'], t[lo'..hi']);
  }

  /** Where the first `k` pieces of a cut end. */
  function End(parts: seq<Text>, k: nat): nat
    requires k <= |parts|
  {
    |Join(parts[..k])|
  }

  lemma {:induction false} Piece(parts: seq<Text>, k: nat)
    requires k < |parts|
    ensures End(parts, k) <= End(parts, k + 1) <= |Join(parts)|
    ensures parts[k] == Join(parts)[End(parts, k)..End(parts, k + 1)]
    decreases |parts|
  {
    assert parts[..k + 1][..k] == parts[..k];
    if k == |parts| - 1 {
      assert parts[..k + 1] == parts;
    } else {
      var front := parts[..|parts| - 1];
      assert front[..k] == parts[..k] && front[..k + 1] == parts[..k + 1];
      Piece(front, k);
    }
  }

  /** A piece that starts no later and ends beyond a chunk holds the chunk and the symbol after it. */
  lemma Overreach(value: Text, p: nat, c: nat, c': nat, p': nat)
    requires p <= c <= c' < p' <= |value|
    ensures Bytes(value[p..p']) >= Bytes(value[c..c']) + Width(value[c'])
  {
    assert value[c..c' + 1] == value[c..c'] + [value[c']];
    BytesAppend(value[c..c'], [value[c']]);
    assert [value[c']][..0] == [];
    SliceBytes(value, p, c, c' + 1, p');
  }

  lemma NextStarts(chunks: seq<Text>, value: Text, max: int, k: nat)
    requires Cut(chunks, value, max) && Greedy(chunks, max) && 0 < k < |chunks|
    ensures End(chunks, k) < |value| && chunks[k][0] == value[End(chunks, k)]
    ensures Bytes(chunks[k - 1]) + Width(value[End(chunks, k)]) > max
  {
    Piece(chunks, k);
    assert NoRoom(chunks[k - 1], chunks[k], max);
  }

  /** The greedy cut stays ahead: its first `k` chunks reach at least as far as any cut's first `k` pieces. */
  lemma {:induction false} GreedyStaysAhead(chunks: seq<Text>, parts: seq<Text>, value: Text, max: int, k: nat)
    requires Cut(chunks, value, max) && Greedy(chunks, max) && Cut(parts, value, max)
    requires k <= |parts| && k <= |chunks|
    ensures End(parts, k) <= End(chunks, k)
  {
    if k > 0 {
      GreedyStaysAhead(chunks, parts, value, max, k - 1);
      Piece(parts, k - 1);
      Piece(chunks, k - 1);
      if k == |chunks| {
        assert chunks[..k] == chunks;
      } else {
        NextStarts(chunks, value, max, k);
        if End(parts, k) > End(chunks, k) {
          Overreach(value, End(parts, k - 1), End(chunks, k - 1), End(chunks, k), End(parts, k));
        }
      }
    }
  }

  /** No cut at symbol boundaries within the budget uses fewer pieces than the splitter's. */
  lemma GreedyIsShortest(chunks: seq<Text>, parts: seq<Text>, value: Text, max: int)
    requires Cut(chunks, value, max) && Greedy(chunks, max) && Cut(parts, value, max)
    ensures |chunks| <= |parts|
  {
    assert parts[..|parts|] == parts;
    if |parts| < |chunks| {
      GreedyStaysAhead(chunks, parts, value, max, |parts|);
      Piece(chunks, |parts|);
    }
  }

  // ----- how full the chunks are -----

  /** Every chunk but the last holds at least `max - 3` bytes. */
  lemma AllButLastAreFull(chunks: seq<Text>, max: int, i: nat)
    requires Greedy(chunks, max) && i < |chunks| - 1
    ensures Bytes(chunks[i]) >= max - 3
  {
    assert NoRoom(chunks[i], chunks[i + 1], max);
  }

  lemma {:induction false} FullChunksAddUp(chunks: seq<Text>, max: int)
    requires Greedy(chunks, max) && max >= 4 && chunks != []
    ensures Bytes(Join(chunks)) >= (|chunks| - 1) * (max - 3) + 1
  {
    var n := |chunks| - 1;
    BytesAppend(Join(chunks[..n]), chunks[n]);
    assert Bytes(chunks[n]) >= Width(chunks[n][|chunks[n]| - 1]);
    if n == 0 {
      assert chunks[..0] == [];
    } else {
      FullButLast(chunks, max, n);
    }
  }

  lemma {:induction false} FullButLast(chunks: seq<Text>, max: int, n: nat)
    requires Greedy(chunks, max) && max >= 4 && n < |chunks|
    ensures Bytes(Join(chunks[..n])) >= n * (max - 3)
  {
    if n > 0 {
      FullButLast(chunks, max, n - 1);
      assert chunks[..n][..n - 1] == chunks[..n - 1];
      BytesAppend(Join(chunks[..n - 1]), chunks[n - 1]);
      AllButLastAreFull(chunks, max, n - 1);
      NextMultiple(n, max - 3);
    }
  }

  lemma NextMultiple(n: nat, step: nat)
    ensures n * step == (n - 1) * step + step
  {}

  lemma MultiplesGrow(a: nat, b: nat, step: nat)
    requires a <= b
    ensures a * step <= b * step
  {}

  /** A text of at most `limit * (max - 3)` bytes is split into at most `limit` chunks. */
  lemma SmallTextsFit(chunks: seq<Text>, value: Text, max: int, limit: nat)
    requires Cut(chunks, value, max) && Greedy(chunks, max) && max >= 4
    requires Bytes(value) <= limit * (max - 3)
    ensures |chunks| <= limit
  {
    if |chunks| > limit {
      FullChunksAddUp(chunks, max);
      MultiplesGrow(limit, |chunks| - 1, max - 3);
    }
  }
}
