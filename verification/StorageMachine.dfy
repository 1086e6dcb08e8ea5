/** Storage operations one key access at a time: crashes, reordered chunk writes, concurrent readers. */
module StorageMachine {
  import opened Prelude
  import opened Utf8Chunks
  import opened StoreKeys
  import opened ChunkedStorage

  datatype Op =
    | Set(key: string, value: Text, version: string)
    | Remove(key: string)
    | Get(key: string)

  /** A crash is an operation that takes no further step. A reader carries, as history, what each
      chunk was when it read the manifest, and the value a read at that instant would have given. */
  datatype Phase =
    | Start
    | Staging(previous: Option<Manifest>, chunks: seq<Text>, pending: set<nat>)
    | Clearing(manifest: Option<Manifest>)
    | Sweeping(stale: Manifest, pending: set<nat>)
    | Collecting(m: Manifest, got: map<nat, Option<Text>>, snap: seq<Option<Text>>)
    | Answered(result: Option<Text>, expected: Option<Text>)
    | Over
    | Refused

  /** `committed` and `seen` are history: the last published value of each key that an operation
      switched, and the versions published so far. */
  datatype State = State(
    store: Store,
    phases: seq<Phase>,
    committed: map<string, Option<Text>>,
    seen: set<(string, string)>)

  datatype Config = Config(codec: Codec, max: int, store: Store, ops: seq<Op>)

  /** The accesses of an operation. `At` picks the chunk of a write, a delete or a read: any order will do. */
  datatype Action =
    | Begin(i: nat, chunks: seq<Text>)
    | At(i: nat, n: nat)
    | Switch(i: nat)
    | Finish(i: nat)

  function Init(c: Config): State {
    State(c.store, seq(|c.ops|, _ => Start), map[], {})
  }

  predicate InRange(c: Config, s: State, i: nat) { i < |s.phases| == |c.ops| }

  function Indexes(n: int): (s: set<nat>)
    ensures forall i: nat :: i in s <==> i < n
    decreases if n < 0 then 0 else n
  {
    if n <= 0 then {} else Indexes(n - 1) + {n - 1}
  }

  ghost predicate Enabled(c: Config, s: State, a: Action) {
    match a
    case Begin(i, chunks) =>
      InRange(c, s, i) && s.phases[i].Start? && (c.ops[i].Set? && c.max >= 4 ==> SplitsTo(c.ops[i].value, c.max, chunks))
    case At(i, n) =>
      InRange(c, s, i) &&
      (match s.phases[i]
       case Staging(_, chunks, pending) => n in pending && n < |chunks|
       case Sweeping(_, pending) => n in pending
       case Collecting(m, got, snap) => n < |snap| && n !in got
       case _ => false)
    case Switch(i) =>
      InRange(c, s, i) && ((s.phases[i].Staging? && s.phases[i].pending == {}) || s.phases[i].Clearing?)
    case Finish(i) =>
      InRange(c, s, i) &&
      (match s.phases[i]
       case Sweeping(_, pending) => pending == {}
       case Collecting(m, got, snap) => forall n: nat :: n < |snap| ==> n in got
       case _ => false)
  }

  /** After the manifest moved on: delete the previous version's chunks, if there was one. */
  function Sweep(previous: Option<Manifest>): Phase {
    match previous
    case None => Over
    case Some(m) => Sweeping(m, Indexes(m.count))
  }

  function Gathered(got: map<nat, Option<Text>>, n: nat): seq<Option<Text>> {
    seq(n, i requires 0 <= i < n => if i in got then got[i] else None)
  }

  /** The first access of an operation is the read of its manifest; `setItem` then makes its checks. */
  function Opened(c: Config, s: State, i: nat, chunks: seq<Text>): Phase
    requires InRange(c, s, i)
  {
    var op := c.ops[i];
    var m := ReadManifest(c.codec, s.store, op.key);
    match op
    case Set(key, value, version) =>
      if !ValidVersion(version) || (m.Some? && m.value.version == version) || c.max < 4 || |chunks| > MAX_CHUNKS
      then Refused else Staging(m, chunks, Indexes(|chunks|))
    case Remove(key) => Clearing(m)
    case Get(key) =>
      if m.None? then Answered(None, None)
      else Collecting(m.value, map[], Snapshot(s.store, key, m.value))
  }

  ghost function Next(c: Config, s: State, a: Action): State
    requires Enabled(c, s, a)
  {
    var op, p := c.ops[a.i], s.phases[a.i];
    match a
    case Begin(i, chunks) => s.(phases := s.phases[i := Opened(c, s, i, chunks)])
    case At(i, n) =>
      (match p
       case Staging(previous, chunks, pending) =>
         s.(store := if op.Set? then s.store[ChunkKey(op.key, op.version, n) := chunks[n]] else s.store,
            phases := s.phases[i := Staging(previous, chunks, pending - {n})])
       case Sweeping(stale, pending) =>
         s.(store := s.store - {ChunkKey(op.key, stale.version, n)},
            phases := s.phases[i := Sweeping(stale, pending - {n})])
       case Collecting(m, got, snap) =>
         s.(phases := s.phases[i := Collecting(m, got[n := ChunkAt(s.store, op.key, m.version, n)], snap)])
       case _ => s)
    case Switch(i) =>
      if op.Set? && p.Staging? then
        State(Published(c.codec, s.store, op.key, Manifest(op.version, |p.chunks|)),
              s.phases[i := Sweep(p.previous)],
              s.committed[op.key := Some(op.value)],
              s.seen + {(op.key, op.version)})
      else if p.Clearing? then
        s.(store := s.store - {ManifestKey(op.key)},
           phases := s.phases[i := Sweep(p.manifest)],
           committed := s.committed[op.key := None])
      else s
    case Finish(i) =>
      (match p
       case Sweeping(_, _) => s.(phases := s.phases[i := Over])
       case Collecting(m, got, snap) =>
         s.(phases := s.phases[i := Answered(Assemble(Gathered(got, |snap|)), Assemble(snap))])
       case _ => s)
  }

  // ----- runs -----

  ghost predicate CanRun(c: Config, actions: seq<Action>)
    decreases |actions|, 0
  {
    actions == [] ||
    (CanRun(c, actions[..|actions| - 1]) && Enabled(c, Reached(c, actions[..|actions| - 1]), actions[|actions| - 1]))
  }

  ghost function Reached(c: Config, actions: seq<Action>): State
    requires CanRun(c, actions)
    decreases |actions|, 1
  {
    if actions == [] then Init(c) else Next(c, Reached(c, actions[..|actions| - 1]), actions[|actions| - 1])
  }

  // ----- versions -----

  /** A version that the key's manifest has named at some time in the run. */
  predicate Seen(c: Config, s: State, key: string, version: string) {
    (key, version) in s.seen || Names(c.codec, c.store, key, version)
  }

  predicate Names(codec: Codec, store: Store, key: string, version: string) {
    match ReadManifest(codec, store, key)
    case None => false
    case Some(m) => m.version == version
  }

  /** Versions are never reused. One operation alone needs no assumption: `setItem` checks the current version. */
  ghost predicate Admissible(c: Config) {
    && Faithful(c.codec)
    && (|c.ops| > 1 ==>
          (forall i :: 0 <= i < |c.ops| && c.ops[i].Set? ==> !Names(c.codec, c.store, c.ops[i].key, c.ops[i].version)) &&
          (forall i, j :: 0 <= i < j < |c.ops| && c.ops[i].Set? && c.ops[j].Set? ==> Distinct(c.ops[i], c.ops[j])))
  }

  predicate Distinct(a: Op, b: Op)
    requires a.Set? && b.Set?
  {
    a.key != b.key || a.version != b.version
  }

  // ----- the invariant -----

  /** The value a key is committed to: the last one switched in, or what the store held at the start. */
  function Committed(c: Config, s: State, key: string): Option<Text> {
    if key in s.committed then s.committed[key] else Lookup(c.codec, c.store, key)
  }

  ghost predicate OpInv(c: Config, s: State, op: Op, p: Phase) {
    match p
    case Start => if |c.ops| <= 1 then s.store == c.store && s.seen == {} else op.Set? ==> !Seen(c, s, op.key, op.version)
    case Staging(previous, chunks, pending) =>
      && op.Set? && ValidVersion(op.version) && !Seen(c, s, op.key, op.version)
      && (previous.Some? ==> ValidManifest(previous.value) && Seen(c, s, op.key, previous.value.version))
      && SplitsTo(op.value, c.max, chunks) && |chunks| <= MAX_CHUNKS
      && (forall n: nat :: n < |chunks| && n !in pending ==> ChunkAt(s.store, op.key, op.version, n) == Some(chunks[n]))
    case Clearing(manifest) => op.Remove? && (manifest.Some? ==> ValidManifest(manifest.value) && Seen(c, s, op.key, manifest.value.version))
    case Sweeping(m, pending) =>
      ValidManifest(m) && Seen(c, s, op.key, m.version) && !Names(c.codec, s.store, op.key, m.version)
    case Collecting(m, got, snap) =>
      && op.Get? && ValidManifest(m) && Seen(c, s, op.key, m.version) && |snap| == m.count
      && (forall n: nat :: n < |snap| ==> Fades(ChunkAt(s.store, op.key, m.version, n), snap[n]))
      && (forall n: nat :: n < |snap| && n in got ==> Fades(got[n], snap[n]))
    case Answered(result, expected) => op.Get? && (result == None || result == expected)
    case _ => true
  }

  /** A chunk is what it was, or has been deleted since. */
  predicate Fades(now: Option<Text>, then_: Option<Text>) { now == None || now == then_ }

  ghost predicate Inv(c: Config, s: State) {
    && |s.phases| == |c.ops|
    && (forall k :: Lookup(c.codec, s.store, k) == Committed(c, s, k))
    && (forall k, v :: Names(c.codec, s.store, k, v) ==> Seen(c, s, k, v))
    && (forall i :: 0 <= i < |c.ops| ==> OpInv(c, s, c.ops[i], s.phases[i]))
  }
}
