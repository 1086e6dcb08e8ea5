/** Operations of the session store that nothing interleaves with, access by access. */
module StorageAlone {
  import opened Prelude
  import opened Utf8Chunks
  import opened StoreKeys
  import opened ChunkedStorage
  import opened StorageMachine

  lemma Extend(c: Config, front: seq<Action>, a: Action) returns (actions: seq<Action>)
    requires CanRun(c, front) && Enabled(c, Reached(c, front), a)
    ensures CanRun(c, actions) && Reached(c, actions) == Next(c, Reached(c, front), a)
  {
    actions := front + [a];
    assert actions[..|actions| - 1] == front;
  }

  // ----- getItem -----

  /** How a lone reader of `store` stands. */
  ghost predicate ReadsFrom(c: Config, s: State)
    requires |c.ops| == 1
  {
    && s.store == c.store && |s.phases| == 1
    && match s.phases[0]
       case Start => true
       case Collecting(m, got, snap) =>
         && ReadManifest(c.codec, c.store, c.ops[0].key) == Some(m) && snap == Snapshot(c.store, c.ops[0].key, m)
         && (forall n :: n in got && n < |snap| ==> got[n] == snap[n])
       case Answered(result, _) => result == Lookup(c.codec, c.store, c.ops[0].key)
       case _ => false
  }

  lemma StepReads(c: Config, s: State, a: Action)
    requires |c.ops| == 1 && c.ops[0].Get? && ReadsFrom(c, s) && Enabled(c, s, a)
    ensures ReadsFrom(c, Next(c, s, a))
  {
    if a.Finish? && s.phases[0].Collecting? {
      assert Gathered(s.phases[0].got, |s.phases[0].snap|) == s.phases[0].snap;
    }
  }

  /** A reader that nothing interleaves with, of any store, answers exactly what the procedure returns,
      whatever the order of its chunk reads. */
  lemma {:induction false} LoneReaderAnswers(c: Config, actions: seq<Action>)
    requires |c.ops| == 1 && c.ops[0].Get? && CanRun(c, actions)
    ensures ReadsFrom(c, Reached(c, actions))
  {
    if actions != [] {
      LoneReaderAnswers(c, actions[..|actions| - 1]);
      StepReads(c, Reached(c, actions[..|actions| - 1]), actions[|actions| - 1]);
    }
  }

  /** A lone reader that has read its first `n` chunks. */
  ghost predicate HasRead(c: Config, s: State, n: nat) {
    && |s.phases| == 1 && s.phases[0].Collecting? && (forall k: nat :: k in s.phases[0].got <==> k < n)
  }

  lemma LoneReads(c: Config, s: State, n: nat)
    requires |c.ops| == 1 && c.ops[0].Get? && HasRead(c, s, n) && n < |s.phases[0].snap|
    ensures Enabled(c, s, At(0, n)) && HasRead(c, Next(c, s, At(0, n)), n + 1)
    ensures Next(c, s, At(0, n)).phases[0].snap == s.phases[0].snap
  {}

  lemma LoneOpens(c: Config, m: Manifest)
    requires |c.ops| == 1 && c.ops[0].Get? && ReadManifest(c.codec, c.store, c.ops[0].key) == Some(m)
    ensures Enabled(c, Init(c), Begin(0, [])) && HasRead(c, Next(c, Init(c), Begin(0, [])), 0)
    ensures |Next(c, Init(c), Begin(0, [])).phases[0].snap| == m.count
  {}

  lemma {:induction false} LoneCollects(c: Config, m: Manifest, n: nat) returns (actions: seq<Action>, s: State)
    requires |c.ops| == 1 && c.ops[0].Get? && ReadManifest(c.codec, c.store, c.ops[0].key) == Some(m) && n <= m.count
    ensures CanRun(c, actions) && s == Reached(c, actions) && HasRead(c, s, n) && |s.phases[0].snap| == m.count
  {
    if n == 0 {
      LoneOpens(c, m);
      actions := Extend(c, [], Begin(0, []));
      s := Next(c, Init(c), Begin(0, []));
    } else {
      var front, t := LoneCollects(c, m, n - 1);
      LoneReads(c, t, n - 1);
      actions := Extend(c, front, At(0, n - 1));
      s := Next(c, t, At(0, n - 1));
    }
  }

  /** `getItem` alone: there is such a run, and it answers what the procedure returns. */
  lemma AloneIsGetItem(codec: Codec, max: int, store: Store, key: string) returns (actions: seq<Action>)
    ensures var c := Config(codec, max, store, [Get(key)]);
            && CanRun(c, actions) && |Reached(c, actions).phases| == 1 && Reached(c, actions).store == store
            && Reached(c, actions).phases[0].Answered? && Reached(c, actions).phases[0].result == Lookup(codec, store, key)
  {
    var c := Config(codec, max, store, [Get(key)]);
    var manifest := ReadManifest(codec, store, key);
    if manifest.Some? {
      var front, s := LoneCollects(c, manifest.value, manifest.value.count);
      actions := Extend(c, front, Finish(0));
    } else {
      actions := Extend(c, [], Begin(0, []));
    }
    LoneReaderAnswers(c, actions);
  }

  // ----- setItem and removeItem -----

  lemma {:induction false} LoneSweeps(c: Config, front: seq<Action>, stale: Manifest, n: nat) returns (actions: seq<Action>)
    requires |c.ops| == 1 && CanRun(c, front) && Reached(c, front).phases == [Sweeping(stale, Indexes(stale.count))]
    requires n <= stale.count
    ensures CanRun(c, actions)
    ensures Reached(c, actions).phases == [Sweeping(stale, Indexes(stale.count) - Indexes(n))]
    ensures Reached(c, actions).store == DropChunks(Reached(c, front).store, c.ops[0].key, stale.version, n)
  {
    if n == 0 {
      actions := front;
      assert Indexes(stale.count) - Indexes(0) == Indexes(stale.count);
    } else {
      var before := LoneSweeps(c, front, stale, n - 1);
      actions := Extend(c, before, At(0, n - 1));
      assert Indexes(stale.count) - Indexes(n - 1) - {n - 1} == Indexes(stale.count) - Indexes(n);
    }
  }

  /** After its manifest access an operation deletes the chunks of the previous version and ends. */
  lemma LoneEnds(c: Config, front: seq<Action>, previous: Option<Manifest>) returns (actions: seq<Action>)
    requires |c.ops| == 1 && CanRun(c, front) && Reached(c, front).phases == [Sweep(previous)]
    requires previous.Some? ==> ValidManifest(previous.value)
    ensures CanRun(c, actions) && Reached(c, actions).phases == [Over]
    ensures Reached(c, actions).store == Drop(Reached(c, front).store, c.ops[0].key, previous)
  {
    if previous.None? {
      actions := front;
    } else {
      var before := LoneSweeps(c, front, previous.value, previous.value.count);
      actions := Extend(c, before, Finish(0));
    }
  }

  /** `setItem` refuses: a bad version, a version in use, a budget below four bytes, or too many chunks. */
  predicate RefusesSet(codec: Codec, max: int, store: Store, key: string, version: string, chunks: seq<Text>) {
    || !ValidVersion(version)
    || (ReadManifest(codec, store, key).Some? && ReadManifest(codec, store, key).value.version == version)
    || max < 4 || |chunks| > MAX_CHUNKS
  }

  lemma {:induction false} LoneStages(c: Config, chunks: seq<Text>, n: nat) returns (actions: seq<Action>)
    requires |c.ops| == 1 && c.ops[0].Set? && n <= |chunks| && SplitsTo(c.ops[0].value, c.max, chunks)
    requires !RefusesSet(c.codec, c.max, c.store, c.ops[0].key, c.ops[0].version, chunks)
    ensures CanRun(c, actions)
    ensures Reached(c, actions).phases ==
            [Staging(ReadManifest(c.codec, c.store, c.ops[0].key), chunks, Indexes(|chunks|) - Indexes(n))]
    ensures Reached(c, actions).store == PutChunks(c.store, c.ops[0].key, c.ops[0].version, chunks, n)
  {
    if n == 0 {
      actions := Extend(c, [], Begin(0, chunks));
      assert Indexes(|chunks|) - Indexes(0) == Indexes(|chunks|);
    } else {
      var front := LoneStages(c, chunks, n - 1);
      actions := Extend(c, front, At(0, n - 1));
      assert Indexes(|chunks|) - Indexes(n - 1) - {n - 1} == Indexes(|chunks|) - Indexes(n);
    }
  }

  /** `setItem` alone reaches exactly what the procedure leaves: refused with nothing changed, or the chunks
      written, the manifest switched and the previous version's chunks deleted. */
  lemma AloneIsSetItem(codec: Codec, max: int, store: Store, key: string, value: Text, version: string, chunks: seq<Text>)
    returns (actions: seq<Action>)
    requires max >= 4 ==> SplitsTo(value, max, chunks)
    ensures var c := Config(codec, max, store, [Set(key, value, version)]);
            && CanRun(c, actions)
            && (RefusesSet(codec, max, store, key, version, chunks) ==>
                  Reached(c, actions).phases == [Refused] && Reached(c, actions).store == store)
            && (!RefusesSet(codec, max, store, key, version, chunks) ==>
                  && Reached(c, actions).phases == [Over]
                  && Reached(c, actions).store ==
                     Drop(Published(codec, PutChunks(store, key, version, chunks, |chunks|), key, Manifest(version, |chunks|)),
                          key, ReadManifest(codec, store, key)))
  {
    var c := Config(codec, max, store, [Set(key, value, version)]);
    if RefusesSet(codec, max, store, key, version, chunks) {
      actions := Extend(c, [], Begin(0, chunks));
    } else {
      var staged := LoneStages(c, chunks, |chunks|);
      assert Indexes(|chunks|) - Indexes(|chunks|) == {};
      var switched := Extend(c, staged, Switch(0));
      actions := LoneEnds(c, switched, ReadManifest(codec, store, key));
    }
  }

  /** `removeItem` alone reaches exactly what the procedure leaves. */
  lemma AloneIsRemoveItem(codec: Codec, max: int, store: Store, key: string) returns (actions: seq<Action>)
    ensures var c := Config(codec, max, store, [Remove(key)]);
            && CanRun(c, actions) && Reached(c, actions).phases == [Over]
            && Reached(c, actions).store == Drop(store - {ManifestKey(key)}, key, ReadManifest(codec, store, key))
  {
    var c := Config(codec, max, store, [Remove(key)]);
    var begun := Extend(c, [], Begin(0, []));
    var switched := Extend(c, begun, Switch(0));
    actions := LoneEnds(c, switched, ReadManifest(codec, store, key));
  }
}
