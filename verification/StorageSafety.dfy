/** Crash safety and reader atomicity of the chunked session store. */
module StorageSafety {
  import opened Prelude
  import opened Utf8Chunks
  import opened StoreKeys
  import opened ChunkedStorage
  import opened StorageMachine

  /** A step that only moves operation `i` along. */
  lemma PhaseStep(c: Config, s: State, i: nat, p: Phase)
    requires Inv(c, s) && i < |c.ops| && OpInv(c, s, c.ops[i], p)
    ensures Inv(c, s.(phases := s.phases[i := p]))
  {
    var s' := s.(phases := s.phases[i := p]);
    forall j | 0 <= j < |c.ops| ensures OpInv(c, s', c.ops[j], s'.phases[j]) {
      assert OpInv(c, s, c.ops[j], s'.phases[j]);
    }
  }

  lemma BeginStep(c: Config, s: State, i: nat, chunks: seq<Text>)
    requires Inv(c, s) && Enabled(c, s, Begin(i, chunks))
    ensures Inv(c, Next(c, s, Begin(i, chunks)))
  {
    var op := c.ops[i];
    assert OpInv(c, s, op, s.phases[i]);
    var m := ReadManifest(c.codec, s.store, op.key);
    if m.Some? { assert Names(c.codec, s.store, op.key, m.value.version); }
    PhaseStep(c, s, i, Opened(c, s, i, chunks));
  }

  /** What one chunk key's change does to the other operations: it touches neither a staged chunk of
      theirs nor, unless it deletes, a chunk a reader is after. */
  lemma OthersKept(c: Config, s: State, s': State, i: nat, j: nat, key: string, version: string)
    requires Inv(c, s) && i < |c.ops| && j < |c.ops| && i != j && ValidVersion(version)
    requires OnlyChunks(s.store, s'.store, key, version) && s'.seen == s.seen
    requires s.phases[j].Staging? ==> key != c.ops[j].key || version != c.ops[j].version
    requires s.phases[j].Collecting? && key == c.ops[j].key && version == s.phases[j].m.version ==>
               forall n: nat :: Fades(ChunkAt(s'.store, key, version, n), ChunkAt(s.store, key, version, n))
    ensures OpInv(c, s', c.ops[j], s.phases[j])
  {
    var op, p := c.ops[j], s.phases[j];
    assert OpInv(c, s, op, p);
    match p
    case Staging(_, chunks, pending) =>
      forall n: nat | n < |chunks| && n !in pending ensures ChunkAt(s'.store, op.key, op.version, n) == Some(chunks[n]) {
        OtherChunks(s.store, s'.store, key, version, op.key, op.version, n);
      }
    case Sweeping(m, _) => ManifestsKept(c.codec, s.store, s'.store, key, version, op.key);
    case Collecting(m, got, snap) =>
      forall n: nat | n < |snap| ensures Fades(ChunkAt(s'.store, op.key, m.version, n), snap[n]) {
        if key != op.key || version != m.version {
          OtherChunks(s.store, s'.store, key, version, op.key, m.version, n);
        }
      }
    case _ =>
  }

  /** A chunk of a version that no manifest names changes no committed value. */
  lemma ChunkChange(c: Config, s: State, s': State, key: string, version: string)
    requires Inv(c, s) && ValidVersion(version) && !Names(c.codec, s.store, key, version)
    requires OnlyChunks(s.store, s'.store, key, version) && s'.seen == s.seen && s'.committed == s.committed
    ensures forall k :: Lookup(c.codec, s'.store, k) == Committed(c, s', k)
    ensures forall k, v :: Names(c.codec, s'.store, k, v) ==> Seen(c, s', k, v)
  {
    forall k ensures Lookup(c.codec, s'.store, k) == Committed(c, s', k) {
      UnnamedChunksUnseen(c.codec, s.store, s'.store, key, version, k);
    }
    forall k, v | Names(c.codec, s'.store, k, v) ensures Seen(c, s', k, v) {
      ManifestsKept(c.codec, s.store, s'.store, key, version, k);
      assert Names(c.codec, s.store, k, v);
    }
  }

  lemma StageStep(c: Config, s: State, i: nat, n: nat)
    requires Admissible(c) && Inv(c, s) && Enabled(c, s, At(i, n)) && s.phases[i].Staging?
    ensures Inv(c, Next(c, s, At(i, n)))
  {
    var op, p := c.ops[i], s.phases[i];
    var s' := Next(c, s, At(i, n));
    assert OpInv(c, s, op, p);
    PutStep(s.store, s.store, op.key, op.version, n, p.chunks[n]);
    ChunkChange(c, s, s', op.key, op.version);
    forall j | 0 <= j < |c.ops| && j != i ensures OpInv(c, s', c.ops[j], s'.phases[j]) {
      assert OpInv(c, s, c.ops[j], s.phases[j]);
      if c.ops[j].Set? { assert if i < j then Distinct(c.ops[i], c.ops[j]) else Distinct(c.ops[j], c.ops[i]); }
      OthersKept(c, s, s', i, j, op.key, op.version);
    }
    assert OpInv(c, s', op, s'.phases[i]);
  }

  lemma SweepStep(c: Config, s: State, i: nat, n: nat)
    requires Admissible(c) && Inv(c, s) && Enabled(c, s, At(i, n)) && s.phases[i].Sweeping?
    ensures Inv(c, Next(c, s, At(i, n)))
  {
    var op, p := c.ops[i], s.phases[i];
    var s' := Next(c, s, At(i, n));
    assert OpInv(c, s, op, p);
    DropStep(s.store, s.store, op.key, p.stale.version, n);
    ChunkChange(c, s, s', op.key, p.stale.version);
    forall j | 0 <= j < |c.ops| && j != i ensures OpInv(c, s', c.ops[j], s'.phases[j]) {
      assert OpInv(c, s, c.ops[j], s.phases[j]);
      OthersKept(c, s, s', i, j, op.key, p.stale.version);
    }
    ManifestsKept(c.codec, s.store, s'.store, op.key, p.stale.version, op.key);
    assert OpInv(c, s', op, s'.phases[i]);
  }

  lemma CollectStep(c: Config, s: State, i: nat, n: nat)
    requires Inv(c, s) && Enabled(c, s, At(i, n)) && s.phases[i].Collecting?
    ensures Inv(c, Next(c, s, At(i, n)))
  {
    var op, p := c.ops[i], s.phases[i];
    assert OpInv(c, s, op, p);
    PhaseStep(c, s, i, Collecting(p.m, p.got[n := ChunkAt(s.store, op.key, p.m.version, n)], p.snap));
  }

  /** A manifest's write or delete touches no chunk, and moves its key off every earlier version. */
  lemma OthersKeptAtSwitch(c: Config, s: State, s': State, i: nat, j: nat, key: string)
    requires Inv(c, s) && i < |c.ops| && j < |c.ops| && i != j
    requires OnlyManifest(s.store, s'.store, key) && s.seen <= s'.seen
    requires forall k, v :: Seen(c, s', k, v) && !Seen(c, s, k, v) ==> k == key && Names(c.codec, s'.store, key, v)
    requires forall v :: Names(c.codec, s'.store, key, v) ==> !Seen(c, s, key, v)
    requires c.ops[j].Set? && (s.phases[j].Start? || s.phases[j].Staging?) && c.ops[j].key == key ==>
               !Names(c.codec, s'.store, key, c.ops[j].version)
    ensures OpInv(c, s', c.ops[j], s.phases[j])
  {
    var op, p := c.ops[j], s.phases[j];
    assert OpInv(c, s, op, p);
    match p
    case Staging(_, chunks, pending) =>
      forall n: nat | n < |chunks| && n !in pending ensures ChunkAt(s'.store, op.key, op.version, n) == Some(chunks[n]) {
        ChunksKept(s.store, s'.store, key, op.key, op.version, n);
      }
    case Sweeping(m, _) =>
      if op.key != key { KeepsOtherKey(c.codec, s.store, s'.store, key, op.key); }
    case Collecting(m, got, snap) =>
      forall n: nat | n < |snap| ensures Fades(ChunkAt(s'.store, op.key, m.version, n), snap[n]) {
        ChunksKept(s.store, s'.store, key, op.key, m.version, n);
      }
    case _ =>
  }

  lemma PublishStep(c: Config, s: State, i: nat)
    requires Admissible(c) && Inv(c, s) && Enabled(c, s, Switch(i)) && s.phases[i].Staging?
    ensures Inv(c, Next(c, s, Switch(i)))
  {
    var op, p := c.ops[i], s.phases[i];
    var s' := Next(c, s, Switch(i));
    var m := Manifest(op.version, |p.chunks|);
    assert OpInv(c, s, op, p);
    SplitJoins(op.value, c.max, p.chunks);
    PublishedManifest(c.codec, s.store, op.key, m);
    ManifestWritten(s.store, op.key, c.codec.encode(m));
    forall k ensures Lookup(c.codec, s'.store, k) == Committed(c, s', k) {
      ManifestPublishes(c.codec, s.store, op.key, m, p.chunks, k);
    }
    forall k, v | Names(c.codec, s'.store, k, v) ensures Seen(c, s', k, v) {
      if k != op.key {
        KeepsOtherKey(c.codec, s.store, s'.store, op.key, k);
        assert Names(c.codec, s.store, k, v);
      }
    }
    forall j | 0 <= j < |c.ops| && j != i ensures OpInv(c, s', c.ops[j], s'.phases[j]) {
      if c.ops[j].Set? { assert if i < j then Distinct(c.ops[i], c.ops[j]) else Distinct(c.ops[j], c.ops[i]); }
      OthersKeptAtSwitch(c, s, s', i, j, op.key);
    }
    assert OpInv(c, s', op, s'.phases[i]);
  }

  lemma ClearStep(c: Config, s: State, i: nat)
    requires Admissible(c) && Inv(c, s) && Enabled(c, s, Switch(i)) && s.phases[i].Clearing?
    ensures Inv(c, Next(c, s, Switch(i)))
  {
    var op, p := c.ops[i], s.phases[i];
    var s' := Next(c, s, Switch(i));
    assert OpInv(c, s, op, p);
    ManifestWritten(s.store, op.key, []);
    forall k ensures Lookup(c.codec, s'.store, k) == Committed(c, s', k) {
      if k != op.key { KeepsOtherKey(c.codec, s.store, s'.store, op.key, k); }
    }
    forall k, v | Names(c.codec, s'.store, k, v) ensures Seen(c, s', k, v) {
      if k != op.key {
        KeepsOtherKey(c.codec, s.store, s'.store, op.key, k);
        assert Names(c.codec, s.store, k, v);
      }
    }
    forall j | 0 <= j < |c.ops| && j != i ensures OpInv(c, s', c.ops[j], s'.phases[j]) {
      OthersKeptAtSwitch(c, s, s', i, j, op.key);
    }
    assert OpInv(c, s', op, s'.phases[i]);
  }

  /** What a reader assembles from chunks that only fade is nothing, or the value at its manifest read. */
  lemma FadedAssembly(found: seq<Option<Text>>, snap: seq<Option<Text>>)
    requires |found| == |snap| && forall n :: 0 <= n < |snap| ==> Fades(found[n], snap[n])
    ensures Assemble(found) == None || Assemble(found) == Assemble(snap)
  {
    if Complete(found) { assert found == snap; }
  }

  lemma FinishStep(c: Config, s: State, i: nat)
    requires Inv(c, s) && Enabled(c, s, Finish(i))
    ensures Inv(c, Next(c, s, Finish(i)))
  {
    var op, p := c.ops[i], s.phases[i];
    assert OpInv(c, s, op, p);
    match p
    case Sweeping(_, _) => PhaseStep(c, s, i, Over);
    case Collecting(m, got, snap) =>
      FadedAssembly(Gathered(got, |snap|), snap);
      PhaseStep(c, s, i, Answered(Assemble(Gathered(got, |snap|)), Assemble(snap)));
    case _ =>
  }

  lemma StepKeepsInv(c: Config, s: State, a: Action)
    requires Admissible(c) && Inv(c, s) && Enabled(c, s, a)
    ensures Inv(c, Next(c, s, a))
  {
    match a
    case Begin(i, chunks) => BeginStep(c, s, i, chunks);
    case At(i, n) =>
      if s.phases[i].Staging? { StageStep(c, s, i, n); }
      else if s.phases[i].Sweeping? { SweepStep(c, s, i, n); }
      else { CollectStep(c, s, i, n); }
    case Switch(i) => if s.phases[i].Staging? { PublishStep(c, s, i); } else { ClearStep(c, s, i); }
    case Finish(i) => FinishStep(c, s, i);
  }

  lemma InitInv(c: Config)
    requires Admissible(c)
    ensures Inv(c, Init(c))
  {
    var s := Init(c);
    forall i | 0 <= i < |c.ops| ensures OpInv(c, s, c.ops[i], s.phases[i]) {}
  }

  lemma {:induction false} RunKeepsInv(c: Config, actions: seq<Action>)
    requires Admissible(c) && CanRun(c, actions)
    ensures Inv(c, Reached(c, actions))
  {
    if actions == [] {
      InitInv(c);
    } else {
      RunKeepsInv(c, actions[..|actions| - 1]);
      StepKeepsInv(c, Reached(c, actions[..|actions| - 1]), actions[|actions| - 1]);
    }
  }
}
