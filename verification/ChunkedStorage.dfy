/** The chunked session store as one caller sees it: `getItem`, `setItem`, `removeItem`. */
module ChunkedStorage {
  import opened Prelude
  import opened Utf8Chunks
  import opened StoreKeys

  type Store = map<string, Text>

  datatype Manifest = Manifest(version: string, count: int)

  /** JSON text of manifests: `decode` is None when parsing fails. */
  datatype Codec = Codec(encode: Manifest -> Text, decode: Text -> Option<Manifest>)

  const MAX_CHUNKS := 512
  const DEFAULT_CHUNK_BYTES := 1024

  predicate ValidManifest(m: Manifest) { ValidVersion(m.version) && 0 < m.count <= MAX_CHUNKS }

  /** What is written is read back, and its text is not empty. */
  ghost predicate Faithful(codec: Codec) {
    forall m :: ValidManifest(m) ==> codec.encode(m) != [] && codec.decode(codec.encode(m)) == Some(m)
  }

  /** `readManifest`: missing, empty, unreadable and out-of-range manifests all count as none. */
  function ReadManifest(codec: Codec, store: Store, key: string): Option<Manifest> {
    if ManifestKey(key) !in store || store[ManifestKey(key)] == [] then None
    else
      match codec.decode(store[ManifestKey(key)])
      case None => None
      case Some(m) => if ValidManifest(m) then Some(m) else None
  }

  function ChunkAt(store: Store, key: string, version: string, i: nat): Option<Text> {
    if ChunkKey(key, version, i) in store then Some(store[ChunkKey(key, version, i)]) else None
  }

  function Snapshot(store: Store, key: string, m: Manifest): (s: seq<Option<Text>>)
    requires m.count > 0
    ensures |s| == m.count
  {
    seq(m.count, i requires 0 <= i < m.count => ChunkAt(store, key, m.version, i))
  }

  predicate Complete(chunks: seq<Option<Text>>) {
    forall i :: 0 <= i < |chunks| ==> chunks[i].Some?
  }

  /** `chunks.join('')` if every chunk is there, else null. */
  function Assemble(chunks: seq<Option<Text>>): Option<Text> {
    if Complete(chunks) then Some(Join(seq(|chunks|, i requires 0 <= i < |chunks| => Coalesce(chunks[i], [])))) else None
  }

  /** What a read that nothing interleaves with returns. */
  function Lookup(codec: Codec, store: Store, key: string): Option<Text> {
    match ReadManifest(codec, store, key)
    case None => None
    case Some(m) => Assemble(Snapshot(store, key, m))
  }

  /** The store holds a readable manifest of the key, and all of its chunks. */
  ghost predicate HoldsAll(codec: Codec, store: Store, key: string, m: Manifest, chunks: seq<Text>) {
    && key + ".manifest" in store && store[key + ".manifest"] != [] && codec.decode(store[key + ".manifest"]) == Some(m)
    && ValidVersion(m.version) && 0 < m.count <= 512 && |chunks| == m.count
    && forall i :: 0 <= i < |chunks| ==> ChunkKey(key, m.version, i) in store && store[ChunkKey(key, m.version, i)] == chunks[i]
  }

  /** A key reads as a value exactly when the store holds a manifest whose chunks, all there, join to it. */
  lemma ReadsWhatIsHeld(codec: Codec, store: Store, key: string, value: Text)
    ensures Lookup(codec, store, key) == Some(value) <==>
            exists m, chunks :: HoldsAll(codec, store, key, m, chunks) && Join(chunks) == value
  {
    assert ManifestKey(key) == key + ".manifest";
    if Lookup(codec, store, key) == Some(value) {
      var m := ReadManifest(codec, store, key).value;
      var found := Snapshot(store, key, m);
      var chunks := seq(|found|, i requires 0 <= i < |found| => Coalesce(found[i], []));
      forall i | 0 <= i < |chunks|
        ensures ChunkKey(key, m.version, i) in store && store[ChunkKey(key, m.version, i)] == chunks[i]
      {
        assert found[i] == ChunkAt(store, key, m.version, i) && found[i].Some?;
      }
      assert HoldsAll(codec, store, key, m, chunks);
    }
    if m, chunks :| HoldsAll(codec, store, key, m, chunks) && Join(chunks) == value {
      AssembleAll(Snapshot(store, key, m), chunks);
    }
  }

  // ----- frames -----

  predicate SameAt(store: Store, store': Store, k: string) {
    (k in store <==> k in store') && (k in store ==> store[k] == store'[k])
  }

  ghost predicate IsChunk(key: string, version: string, k: string) {
    exists i: nat :: k == ChunkKey(key, version, i)
  }

  /** The stores differ at most in chunks of one version of one session key. */
  ghost predicate OnlyChunks(store: Store, store': Store, key: string, version: string) {
    forall k :: !IsChunk(key, version, k) ==> SameAt(store, store', k)
  }

  lemma OtherChunks(store: Store, store': Store, key: string, version: string, k: string, v: string, i: nat)
    requires OnlyChunks(store, store', key, version) && ValidVersion(version) && ValidVersion(v)
    requires k != key || v != version
    ensures ChunkAt(store', k, v, i) == ChunkAt(store, k, v, i)
  {
    var c := ChunkKey(k, v, i);
    if IsChunk(key, version, c) {
      var j: nat :| c == ChunkKey(key, version, j);
      ChunkKeyInjective(k, v, i, key, version, j);
    }
    assert SameAt(store, store', c);
  }

  lemma ManifestKeysKept(store: Store, store': Store, key: string, version: string, k: string)
    requires OnlyChunks(store, store', key, version)
    ensures SameAt(store, store', ManifestKey(k))
  {
    var c := ManifestKey(k);
    if IsChunk(key, version, c) {
      var j: nat :| c == ChunkKey(key, version, j);
      ManifestIsNoChunk(k, key, version, j);
    }
  }

  lemma ManifestsKept(codec: Codec, store: Store, store': Store, key: string, version: string, k: string)
    requires OnlyChunks(store, store', key, version)
    ensures ReadManifest(codec, store', k) == ReadManifest(codec, store, k)
  {
    ManifestKeysKept(store, store', key, version, k);
  }

  lemma SameChunksSameSnapshot(store: Store, store': Store, key: string, m: Manifest)
    requires m.count > 0
    requires forall i :: 0 <= i < m.count ==> ChunkAt(store', key, m.version, i) == ChunkAt(store, key, m.version, i)
    ensures Snapshot(store', key, m) == Snapshot(store, key, m)
  {}

  /** Chunks of a version that no manifest names can come and go unnoticed. */
  lemma UnnamedChunksUnseen(codec: Codec, store: Store, store': Store, key: string, version: string, k: string)
    requires OnlyChunks(store, store', key, version) && ValidVersion(version)
    requires k == key ==> match ReadManifest(codec, store, key) case None => true case Some(m) => m.version != version
    ensures Lookup(codec, store', k) == Lookup(codec, store, k)
  {
    ManifestsKept(codec, store, store', key, version, k);
    match ReadManifest(codec, store, k)
    case None =>
    case Some(m) =>
      forall i | 0 <= i < m.count ensures ChunkAt(store', k, m.version, i) == ChunkAt(store, k, m.version, i) {
        OtherChunks(store, store', key, version, k, m.version, i);
      }
      SameChunksSameSnapshot(store, store', k, m);
  }

  lemma AssembleAll(found: seq<Option<Text>>, chunks: seq<Text>)
    requires |found| == |chunks| && forall i :: 0 <= i < |chunks| ==> found[i] == Some(chunks[i])
    ensures Assemble(found) == Some(Join(chunks))
  {
    assert seq(|found|, i requires 0 <= i < |found| => Coalesce(found[i], [])) == chunks;
  }

  /** Writing or deleting one key's manifest. */
  ghost predicate OnlyManifest(store: Store, store': Store, key: string) {
    forall k :: k != ManifestKey(key) ==> SameAt(store, store', k)
  }

  lemma ChunksKept(store: Store, store': Store, key: string, k: string, v: string, i: nat)
    requires OnlyManifest(store, store', key)
    ensures ChunkAt(store', k, v, i) == ChunkAt(store, k, v, i)
  {
    var c := ChunkKey(k, v, i);
    ManifestIsNoChunk(key, k, v, i);
    assert SameAt(store, store', c);
  }

  lemma KeepsOtherKey(codec: Codec, store: Store, store': Store, key: string, k: string)
    requires k != key && OnlyManifest(store, store', key)
    ensures Lookup(codec, store', k) == Lookup(codec, store, k)
    ensures ReadManifest(codec, store', k) == ReadManifest(codec, store, k)
  {
    var c := ManifestKey(k);
    if c == ManifestKey(key) { ManifestKeyInjective(k, key); }
    assert SameAt(store, store', c);
    match ReadManifest(codec, store, k)
    case None =>
    case Some(m) =>
      forall i | 0 <= i < m.count ensures ChunkAt(store', k, m.version, i) == ChunkAt(store, k, m.version, i) {
        ChunksKept(store, store', key, k, m.version, i);
      }
      SameChunksSameSnapshot(store, store', k, m);
  }

  lemma ManifestWritten(store: Store, key: string, text: Text)
    ensures OnlyManifest(store, store[ManifestKey(key) := text], key)
    ensures OnlyManifest(store, store - {ManifestKey(key)}, key)
  {}

  function Published(codec: Codec, store: Store, key: string, m: Manifest): Store {
    store[ManifestKey(key) := codec.encode(m)]
  }

  lemma PublishedManifest(codec: Codec, store: Store, key: string, m: Manifest)
    requires Faithful(codec) && ValidManifest(m)
    ensures ReadManifest(codec, Published(codec, store, key, m), key) == Some(m)
  {}

  /** The manifest write publishes a value whose chunks are all there, and nothing else. */
  lemma ManifestPublishes(codec: Codec, store: Store, key: string, m: Manifest, chunks: seq<Text>, k: string)
    requires Faithful(codec) && ValidManifest(m) && m.count == |chunks|
    requires forall i :: 0 <= i < |chunks| ==> ChunkAt(store, key, m.version, i) == Some(chunks[i])
    ensures Lookup(codec, Published(codec, store, key, m), k) == if k == key then Some(Join(chunks)) else Lookup(codec, store, k)
  {
    var store' := Published(codec, store, key, m);
    ManifestWritten(store, key, codec.encode(m));
    if k == key {
      PublishedManifest(codec, store, key, m);
      forall i | 0 <= i < m.count ensures Snapshot(store', key, m)[i] == Some(chunks[i]) {
        ChunksKept(store, store', key, key, m.version, i);
      }
      AssembleAll(Snapshot(store', key, m), chunks);
    } else {
      KeepsOtherKey(codec, store, store', key, k);
    }
  }

  // ----- the operations -----

  function PutChunks(store: Store, key: string, version: string, chunks: seq<Text>, n: nat): Store
    requires n <= |chunks|
  {
    if n == 0 then store else PutChunks(store, key, version, chunks, n - 1)[ChunkKey(key, version, n - 1) := chunks[n - 1]]
  }

  function DropChunks(store: Store, key: string, version: string, n: nat): Store {
    if n == 0 then store else DropChunks(store, key, version, n - 1) - {ChunkKey(key, version, n - 1)}
  }

  function Drop(store: Store, key: string, m: Option<Manifest>): Store {
    if m.None? || m.value.count < 0 then store else DropChunks(store, key, m.value.version, m.value.count)
  }

  lemma {:induction false} PutsChunks(store: Store, key: string, version: string, chunks: seq<Text>, n: nat)
    requires n <= |chunks| && ValidVersion(version)
    ensures OnlyChunks(store, PutChunks(store, key, version, chunks, n), key, version)
    ensures forall i :: 0 <= i < n ==> ChunkAt(PutChunks(store, key, version, chunks, n), key, version, i) == Some(chunks[i])
  {
    if n > 0 {
      PutsChunks(store, key, version, chunks, n - 1);
      PutStep(store, PutChunks(store, key, version, chunks, n - 1), key, version, n - 1, chunks[n - 1]);
    }
  }

  lemma PutStep(store: Store, store': Store, key: string, version: string, n: nat, text: Text)
    requires OnlyChunks(store, store', key, version) && ValidVersion(version)
    ensures var put := store'[ChunkKey(key, version, n) := text];
            OnlyChunks(store, put, key, version) && ChunkAt(put, key, version, n) == Some(text) &&
            (forall i: nat :: i != n ==> ChunkAt(put, key, version, i) == ChunkAt(store', key, version, i))
  {
    var c := ChunkKey(key, version, n);
    assert IsChunk(key, version, c);
    var put := store'[c := text];
    forall k | !IsChunk(key, version, k) ensures SameAt(store, put, k) { assert SameAt(store, store', k); }
    forall i: nat | i != n ensures ChunkAt(put, key, version, i) == ChunkAt(store', key, version, i) {
      if ChunkKey(key, version, i) == c { ChunkKeyInjective(key, version, i, key, version, n); }
    }
  }

  lemma DropStep(store: Store, store': Store, key: string, version: string, n: nat)
    requires OnlyChunks(store, store', key, version)
    ensures var cut := store' - {ChunkKey(key, version, n)};
            OnlyChunks(store, cut, key, version) && ChunkAt(cut, key, version, n) == None &&
            (forall i: nat :: ChunkAt(cut, key, version, i) == None || ChunkAt(cut, key, version, i) == ChunkAt(store', key, version, i))
  {
    var c := ChunkKey(key, version, n);
    assert IsChunk(key, version, c);
    forall k | !IsChunk(key, version, k) ensures SameAt(store, store' - {c}, k) { assert SameAt(store, store', k); }
  }

  lemma {:induction false} DropsChunks(store: Store, key: string, version: string, n: nat)
    ensures OnlyChunks(store, DropChunks(store, key, version, n), key, version)
    ensures forall i :: 0 <= i < n ==> ChunkAt(DropChunks(store, key, version, n), key, version, i) == None
  {
    if n > 0 {
      DropsChunks(store, key, version, n - 1);
      DropStep(store, DropChunks(store, key, version, n - 1), key, version, n - 1);
    }
  }

  datatype SetResult = Stored(chunks: seq<Text>) | BadVersion | SameVersion | BadBudget | TooLarge

  /** What the splitter may return. */
  ghost predicate SplitsTo(value: Text, max: int, chunks: seq<Text>) {
    && max >= 4
    && if value == [] then chunks == [[]] else Cut(chunks, value, max) && Greedy(chunks, max)
  }

  lemma SplitJoins(value: Text, max: int, chunks: seq<Text>)
    requires SplitsTo(value, max, chunks)
    ensures Join(chunks) == value && |chunks| > 0
  {
    if value == [] { assert chunks[..0] == []; }
  }

  class Storage {
    const codec: Codec
    const maxChunkBytes: int
    var store: Store

    constructor (codec: Codec, maxChunkBytes: int, store: Store)
      ensures this.codec == codec && this.maxChunkBytes == maxChunkBytes && this.store == store
    {
      this.codec, this.maxChunkBytes, this.store := codec, maxChunkBytes, store;
    }

    method GetItem(key: string) returns (value: Option<Text>)
      ensures value == Lookup(codec, store, key)
    {
      var manifest := ReadManifest(codec, store, key);
      if manifest.None? { return None; }
      var m := manifest.value;
      var chunks: seq<Option<Text>> := [];
      for i := 0 to m.count
        invariant chunks == Snapshot(store, key, m)[..i]
      {
        chunks := chunks + [ChunkAt(store, key, m.version, i)];
      }
      assert chunks == Snapshot(store, key, m);
      return Assemble(chunks);
    }

    method RemoveChunks(key: string, manifest: Option<Manifest>)
      modifies this`store
      ensures store == Drop(old(store), key, manifest)
    {
      if manifest.None? || manifest.value.count < 0 { return; }
      for i := 0 to manifest.value.count
        invariant store == DropChunks(old(store), key, manifest.value.version, i)
      {
        store := store - {ChunkKey(key, manifest.value.version, i)};
      }
    }

    /** On success the value can be read back, no other key changes, and the chunks of the previous
        manifest are gone. A value is too large exactly when no cut of it into at most 512 pieces
        within the budget exists. A refused call changes nothing. */
    method SetItem(key: string, value: Text, version: string) returns (result: SetResult)
      requires Faithful(codec)
      modifies this`store
      ensures result.BadVersion? <==> !ValidVersion(version)
      ensures result.SameVersion? <==>
                ValidVersion(version) && exists m :: ReadManifest(codec, old(store), key) == Some(m) && m.version == version
      ensures result.TooLarge? ==> forall parts :: Cut(parts, value, maxChunkBytes) ==> |parts| > MAX_CHUNKS
      ensures result.Stored? ==> exists parts :: Cut(parts, value, maxChunkBytes) && |parts| <= MAX_CHUNKS
      ensures !result.BadVersion? && !result.SameVersion? ==> (result.BadBudget? <==> maxChunkBytes < 4)
      ensures !result.Stored? ==> store == old(store)
      ensures result.Stored? ==>
                Lookup(codec, store, key) == Some(value) &&
                (forall k :: k != key ==> Lookup(codec, store, k) == Lookup(codec, old(store), k)) &&
                SplitsTo(value, maxChunkBytes, result.chunks) &&
                store == Drop(Published(codec, PutChunks(old(store), key, version, result.chunks, |result.chunks|),
                                        key, Manifest(version, |result.chunks|)),
                              key, ReadManifest(codec, old(store), key))
    {
      var previous := ReadManifest(codec, store, key);
      if !ValidVersion(version) { return BadVersion; }
      if previous.Some? && previous.value.version == version { return SameVersion; }
      var split := Split(value, maxChunkBytes);
      if split.None? { return BadBudget; }
      var chunks := split.value;
      if |chunks| > MAX_CHUNKS {
        TooLargeForAnyCut(value, maxChunkBytes, chunks);
        return TooLarge;
      }
      for i := 0 to |chunks|
        invariant store == PutChunks(old(store), key, version, chunks, i)
      {
        store := store[ChunkKey(key, version, i) := chunks[i]];
      }
      ghost var staged := store;
      store := store[ManifestKey(key) := codec.encode(Manifest(version, |chunks|))];
      ghost var switched := store;
      RemoveChunks(key, previous);
      SplitJoins(value, maxChunkBytes, chunks);
      FitsSomeCut(value, maxChunkBytes, chunks);
      PublishedManifest(codec, staged, key, Manifest(version, |chunks|));
      forall k ensures Lookup(codec, store, k) == if k == key then Some(value) else Lookup(codec, old(store), k) {
        PutsChunks(old(store), key, version, chunks, |chunks|);
        UnnamedChunksUnseen(codec, old(store), staged, key, version, k);
        ManifestPublishes(codec, staged, key, Manifest(version, |chunks|), chunks, k);
        SweepUnseen(codec, switched, key, previous, k);
      }
      return Stored(chunks);
    }

    /** Afterwards the key reads as absent, its manifest and active chunks are gone, and no other key changes. */
    method RemoveItem(key: string)
      modifies this`store
      ensures Lookup(codec, store, key) == None && ManifestKey(key) !in store
      ensures forall k :: k != key ==> Lookup(codec, store, k) == Lookup(codec, old(store), k)
      ensures store == Drop(old(store) - {ManifestKey(key)}, key, ReadManifest(codec, old(store), key))
      ensures forall m, i :: ReadManifest(codec, old(store), key) == Some(m) && 0 <= i < m.count ==>
                ChunkAt(store, key, m.version, i) == None
    {
      var manifest := ReadManifest(codec, store, key);
      store := store - {ManifestKey(key)};
      ghost var cleared := store;
      RemoveChunks(key, manifest);
      if manifest.Some? {
        DropsChunks(cleared, key, manifest.value.version, manifest.value.count);
        ManifestKeysKept(cleared, store, key, manifest.value.version, key);
      }
      forall k ensures Lookup(codec, store, k) == if k == key then None else Lookup(codec, old(store), k) {
        ManifestWritten(old(store), key, []);
        if k != key { KeepsOtherKey(codec, old(store), cleared, key, k); }
        SweepUnseen(codec, cleared, key, manifest, k);
      }
    }
  }

  /** Deleting the chunks of a superseded manifest goes unnoticed. */
  lemma SweepUnseen(codec: Codec, store: Store, key: string, manifest: Option<Manifest>, k: string)
    requires manifest.Some? ==> ValidManifest(manifest.value)
    requires manifest.Some? ==> match ReadManifest(codec, store, key) case None => true case Some(m) => m.version != manifest.value.version
    ensures Lookup(codec, Drop(store, key, manifest), k) == Lookup(codec, store, k)
  {
    if manifest.Some? {
      DropsChunks(store, key, manifest.value.version, manifest.value.count);
      UnnamedChunksUnseen(codec, store, Drop(store, key, manifest), key, manifest.value.version, k);
    }
  }

  lemma TooLargeForAnyCut(value: Text, max: int, chunks: seq<Text>)
    requires SplitsTo(value, max, chunks) && |chunks| > MAX_CHUNKS
    ensures forall parts :: Cut(parts, value, max) ==> |parts| > MAX_CHUNKS
  {
    forall parts | Cut(parts, value, max) ensures |parts| > MAX_CHUNKS {
      GreedyIsShortest(chunks, parts, value, max);
    }
  }

  lemma FitsSomeCut(value: Text, max: int, chunks: seq<Text>)
    requires SplitsTo(value, max, chunks) && |chunks| <= MAX_CHUNKS
    ensures exists parts :: Cut(parts, value, max) && |parts| <= MAX_CHUNKS
  {
    SplitJoins(value, max, chunks);
    assert Cut(chunks, value, max);
  }

  /** At the default budget nothing of at most 512 * 1021 bytes is too large. */
  lemma DefaultCapacity(value: Text, chunks: seq<Text>)
    requires SplitsTo(value, DEFAULT_CHUNK_BYTES, chunks) && Bytes(value) <= MAX_CHUNKS * 1021
    ensures |chunks| <= MAX_CHUNKS
  {
    if value != [] { SmallTextsFit(chunks, value, DEFAULT_CHUNK_BYTES, MAX_CHUNKS); }
  }
}
