/** When a `getItem` that interleaves with other operations may answer null. */
module StorageReaders {
  import opened Prelude
  import opened ChunkedStorage
  import opened StorageMachine
  import opened StorageSafety
  import opened StorageTheorems

  /** The action deletes a chunk of one version of one session key. */
  ghost predicate Deletes(c: Config, s: State, a: Action, key: string, version: string) {
    && a.At? && InRange(c, s, a.i) && s.phases[a.i].Sweeping?
    && c.ops[a.i].key == key && s.phases[a.i].stale.version == version
  }

  ghost predicate DeletesAt(c: Config, actions: seq<Action>, m: nat, key: string, version: string)
    requires m < |actions|
  {
    CanRun(c, actions[..m]) && Deletes(c, Reached(c, actions[..m]), actions[m], key, version)
  }

  ghost predicate DeletedSince(c: Config, actions: seq<Action>, n: nat, key: string, version: string) {
    exists m :: n < m < |actions| && DeletesAt(c, actions, m, key, version)
  }

  /** All that a reader is after is still there, and what it has read is what was there. */
  ghost predicate Intact(s: State, key: string, p: Phase)
    requires p.Collecting?
  {
    forall n: nat :: n < |p.snap| ==>
      ChunkAt(s.store, key, p.m.version, n) == p.snap[n] && (n in p.got ==> p.got[n] == p.snap[n])
  }

  lemma SwitchKeepsChunks(c: Config, s: State, i: nat)
    requires Enabled(c, s, Switch(i))
    ensures OnlyManifest(s.store, Next(c, s, Switch(i)).store, c.ops[i].key)
  {
    if c.ops[i].Set? && s.phases[i].Staging? {
      ManifestWritten(s.store, c.ops[i].key, c.codec.encode(Manifest(c.ops[i].version, |s.phases[i].chunks|)));
    } else {
      ManifestWritten(s.store, c.ops[i].key, []);
    }
  }

  lemma OtherStepIntact(c: Config, s: State, a: Action, i: nat)
    requires Admissible(c) && Inv(c, s) && Enabled(c, s, a) && i < |c.ops| && a.i != i && c.ops[i].Get?
    requires s.phases[i].Collecting? && Intact(s, c.ops[i].key, s.phases[i])
    requires !Deletes(c, s, a, c.ops[i].key, s.phases[i].m.version)
    ensures Next(c, s, a).phases[i] == s.phases[i] && Intact(Next(c, s, a), c.ops[i].key, s.phases[i])
  {
    var op, p, q, s' := c.ops[a.i], s.phases[i], s.phases[a.i], Next(c, s, a);
    assert OpInv(c, s, c.ops[i], p) && OpInv(c, s, op, q);
    if a.At? && q.Staging? {
      PutStep(s.store, s.store, op.key, op.version, a.n, q.chunks[a.n]);
      StillThere(s.store, s'.store, op.key, op.version, c.ops[i].key, p.m.version);
    } else if a.At? && q.Sweeping? {
      DropStep(s.store, s.store, op.key, q.stale.version, a.n);
      StillThere(s.store, s'.store, op.key, q.stale.version, c.ops[i].key, p.m.version);
    } else if a.Switch? {
      SwitchKeepsChunks(c, s, a.i);
      forall n: nat ensures ChunkAt(s'.store, c.ops[i].key, p.m.version, n) == ChunkAt(s.store, c.ops[i].key, p.m.version, n) {
        ChunksKept(s.store, s'.store, op.key, c.ops[i].key, p.m.version, n);
      }
    }
  }

  lemma StillThere(store: Store, store': Store, key: string, version: string, k: string, v: string)
    requires OnlyChunks(store, store', key, version) && StoreKeys.ValidVersion(version) && StoreKeys.ValidVersion(v)
    requires k != key || v != version
    ensures forall n: nat :: ChunkAt(store', k, v, n) == ChunkAt(store, k, v, n)
  {
    forall n: nat ensures ChunkAt(store', k, v, n) == ChunkAt(store, k, v, n) {
      OtherChunks(store, store', key, version, k, v, n);
    }
  }

  lemma OwnStepIntact(c: Config, s: State, a: Action)
    requires Enabled(c, s, a) && InRange(c, s, a.i) && c.ops[a.i].Get?
    requires s.phases[a.i].Collecting? && Intact(s, c.ops[a.i].key, s.phases[a.i])
    ensures var p, p' := s.phases[a.i], Next(c, s, a).phases[a.i];
            || (p'.Collecting? && p'.m == p.m && p'.snap == p.snap && Intact(Next(c, s, a), c.ops[a.i].key, p'))
            || p' == Answered(Assemble(p.snap), Assemble(p.snap))
  {
    if a.Finish? {
      var p := s.phases[a.i];
      assert Gathered(p.got, |p.snap|) == p.snap;
    }
  }

  /** How a reader stands that read the manifest in `store`: nothing of its version was deleted since
      (`clean`), or something was. */
  ghost predicate Stands(c: Config, store: Store, s: State, i: nat, clean: bool)
    requires InRange(c, s, i)
  {
    var key, p := c.ops[i].key, s.phases[i];
    var m := ReadManifest(c.codec, store, key);
    match p
    case Collecting(_, _, snap) => m == Some(p.m) && snap == Snapshot(store, key, p.m) && (clean ==> Intact(s, key, p))
    case Answered(result, _) =>
      && (result == None || result == Lookup(c.codec, store, key))
      && (clean ==> result == Lookup(c.codec, store, key))
    case _ => false
  }

  lemma BeginStands(c: Config, s: State, a: Action)
    requires Enabled(c, s, a) && InRange(c, s, a.i) && c.ops[a.i].Get? && s.phases[a.i].Start? && a.Begin?
    ensures InRange(c, Next(c, s, a), a.i) && Stands(c, s.store, Next(c, s, a), a.i, true)
  {}

  lemma StepStands(c: Config, store: Store, s: State, a: Action, i: nat, clean: bool)
    requires Admissible(c) && Inv(c, s) && Enabled(c, s, a) && i < |c.ops| && c.ops[i].Get?
    requires Stands(c, store, s, i, clean)
    requires clean && s.phases[i].Collecting? ==> !Deletes(c, s, a, c.ops[i].key, s.phases[i].m.version)
    ensures InRange(c, Next(c, s, a), i) && Stands(c, store, Next(c, s, a), i, clean)
  {
    var p := s.phases[i];
    if a == Finish(i) && p.Collecting? {
      assert OpInv(c, s, c.ops[i], p);
      FadedAssembly(Gathered(p.got, |p.snap|), p.snap);
    }
    if clean && p.Collecting? {
      if a.i == i { OwnStepIntact(c, s, a); } else { OtherStepIntact(c, s, a, i); }
    }
  }

  lemma NotDeleting(c: Config, actions: seq<Action>, n: nat, key: string, version: string)
    requires n < |actions| - 1 && CanRun(c, actions) && !DeletedSince(c, actions, n, key, version)
    ensures !Deletes(c, Reached(c, actions[..|actions| - 1]), actions[|actions| - 1], key, version)
  {
    assert !DeletesAt(c, actions, |actions| - 1, key, version);
  }

  ghost predicate Clean(c: Config, actions: seq<Action>, n: nat, store: Store, key: string) {
    var m := ReadManifest(c.codec, store, key);
    m.Some? ==> !DeletedSince(c, actions, n, key, m.value.version)
  }

  lemma {:induction false} ReaderStands(c: Config, actions: seq<Action>, i: nat, n: nat, store: Store, clean: bool)
    requires Admissible(c) && CanRun(c, actions) && i < |c.ops| && c.ops[i].Get?
    requires n < |actions| && CanRun(c, actions[..n]) && actions[n].Begin? && actions[n].i == i
    requires store == Reached(c, actions[..n]).store && (clean ==> Clean(c, actions, n, store, c.ops[i].key))
    ensures InRange(c, Reached(c, actions), i) && Stands(c, store, Reached(c, actions), i, clean)
  {
    var front := actions[..|actions| - 1];
    if n == |front| {
      BeginStands(c, Reached(c, front), actions[n]);
    } else {
      assert front[..n] == actions[..n];
      if clean { ShorterClean(c, actions, n, store, c.ops[i].key); }
      ReaderStands(c, front, i, n, store, clean);
      StandsOn(c, front, actions, i, n, store, clean);
    }
  }

  lemma StandsOn(c: Config, front: seq<Action>, actions: seq<Action>, i: nat, n: nat, store: Store, clean: bool)
    requires Admissible(c) && CanRun(c, actions) && i < |c.ops| && c.ops[i].Get?
    requires actions != [] && front == actions[..|actions| - 1] && n < |front|
    requires InRange(c, Reached(c, front), i) && Stands(c, store, Reached(c, front), i, clean)
    requires clean ==> Clean(c, actions, n, store, c.ops[i].key)
    ensures InRange(c, Reached(c, actions), i) && Stands(c, store, Reached(c, actions), i, clean)
  {
    var p := Reached(c, front).phases[i];
    if clean && p.Collecting? { NotDeleting(c, actions, n, c.ops[i].key, p.m.version); }
    RunKeepsInv(c, front);
    StepStands(c, store, Reached(c, front), actions[|front|], i, clean);
  }

  lemma ShorterClean(c: Config, actions: seq<Action>, n: nat, store: Store, key: string)
    requires actions != [] && Clean(c, actions, n, store, key)
    ensures Clean(c, actions[..|actions| - 1], n, store, key)
  {
    var front, m := actions[..|actions| - 1], ReadManifest(c.codec, store, key);
    if m.Some? && DeletedSince(c, front, n, key, m.value.version) {
      var k :| n < k < |front| && DeletesAt(c, front, k, key, m.value.version);
      assert front[..k] == actions[..k];
      assert DeletesAt(c, actions, k, key, m.value.version);
    }
  }

  lemma JustAnswered(c: Config, actions: seq<Action>, i: nat) returns (n: nat)
    requires Admissible(c) && CanRun(c, actions) && i < |c.ops| && c.ops[i].Get?
    requires InRange(c, Reached(c, actions), i) && Reached(c, actions).phases[i].Answered?
    ensures n < |actions| && CanRun(c, actions[..n]) && actions[n].Begin? && actions[n].i == i
    ensures var key, store, result := c.ops[i].key, Reached(c, actions[..n]).store, Reached(c, actions).phases[i].result;
            || result == LastSwitched(c, actions[..n], key)
            || (result == None && !Clean(c, actions, n, store, key))
  {
    n := ReaderStarted(c, actions, i);
    var store := Reached(c, actions[..n]).store;
    if Clean(c, actions, n, store, c.ops[i].key) {
      ReaderStands(c, actions, i, n, store, true);
    } else {
      ReaderStands(c, actions, i, n, store, false);
    }
    EveryPointReadsLastSwitch(c, actions[..n], c.ops[i].key);
  }

  lemma OthersLeaveAnswers(c: Config, s: State, a: Action, i: nat)
    requires Enabled(c, s, a) && InRange(c, s, a.i) && a.i != i
    ensures InRange(c, Next(c, s, a), i) ==> InRange(c, s, i) && s.phases[i] == Next(c, s, a).phases[i]
  {}

  /** `f` is the step at which reader `i` answered; the answer has not changed since. */
  ghost predicate AnsweredAt(c: Config, actions: seq<Action>, i: nat, f: nat, answer: Phase) {
    && f < |actions| && actions[f].i == i && CanRun(c, actions[..f + 1])
    && InRange(c, Reached(c, actions[..f + 1]), i) && Reached(c, actions[..f + 1]).phases[i] == answer
  }

  lemma {:induction false} AnsweredBy(c: Config, actions: seq<Action>, i: nat, answer: Phase) returns (f: nat)
    requires CanRun(c, actions) && i < |c.ops| && answer.Answered?
    requires InRange(c, Reached(c, actions), i) && Reached(c, actions).phases[i] == answer
    ensures AnsweredAt(c, actions, i, f, answer)
  {
    f := |actions| - 1;
    assert actions[..f + 1] == actions;
    if actions[f].i != i {
      var front := actions[..f];
      OthersLeaveAnswers(c, Reached(c, front), actions[f], i);
      f := AnsweredBy(c, front, i, answer);
      assert front[..f + 1] == actions[..f + 1];
    }
  }

  /** A `getItem` whose accesses interleave with any writers, on its key or others, reads the manifest as action
      `n` and answers as action `f`. It answers exactly the value its key was committed to at `n`, never a
      splice of two values, unless a chunk of the version it was after was deleted between `n` and `f`; then,
      and only then, it may answer null instead. */
  lemma ReadsAreAtomic(c: Config, actions: seq<Action>, i: nat) returns (n: nat, f: nat)
    requires Admissible(c) && CanRun(c, actions) && i < |c.ops| && c.ops[i].Get?
    requires InRange(c, Reached(c, actions), i) && Reached(c, actions).phases[i].Answered?
    ensures n <= f < |actions| && CanRun(c, actions[..n]) && actions[n].Begin? && actions[n].i == actions[f].i == i
    ensures var key, result := c.ops[i].key, Reached(c, actions).phases[i].result;
            var m := ReadManifest(c.codec, Reached(c, actions[..n]).store, key);
            || result == LastSwitched(c, actions[..n], key)
            || (result == None && m.Some? && DeletedSince(c, actions[..f + 1], n, key, m.value.version))
  {
    f := AnsweredBy(c, actions, i, Reached(c, actions).phases[i]);
    n := JustAnswered(c, actions[..f + 1], i);
    assert actions[..f + 1][..n] == actions[..n];
  }
}
