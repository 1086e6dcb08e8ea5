/** What the chunked session store guarantees over every run of its operations. */
module StorageTheorems {
  import opened Prelude
  import opened Utf8Chunks
  import opened ChunkedStorage
  import opened StorageMachine
  import opened StorageSafety

  /** The value a key should have after a run: that of the last operation on it to write or delete
      the manifest, or the initial one. Chunk writes and deletes do not appear in it. */
  function LastSwitched(c: Config, actions: seq<Action>, key: string): Option<Text> {
    if actions == [] then Lookup(c.codec, c.store, key)
    else
      var last := actions[|actions| - 1];
      if last.Switch? && last.i < |c.ops| && c.ops[last.i].key == key
      then if c.ops[last.i].Set? then Some(c.ops[last.i].value) else None
      else LastSwitched(c, actions[..|actions| - 1], key)
  }

  lemma {:induction false} CommittedIsLastSwitched(c: Config, actions: seq<Action>, key: string)
    requires Admissible(c) && CanRun(c, actions)
    ensures Committed(c, Reached(c, actions), key) == LastSwitched(c, actions, key)
  {
    if actions != [] {
      var front, last := actions[..|actions| - 1], actions[|actions| - 1];
      CommittedIsLastSwitched(c, front, key);
      RunKeepsInv(c, front);
      var s := Reached(c, front);
      assert OpInv(c, s, c.ops[last.i], s.phases[last.i]);
    }
  }

  /** At every point of every run, with any operations abandoned anywhere, a read gives exactly the value
      of the key's last manifest switch: never a mixture, whatever chunks have been written or deleted. */
  lemma EveryPointReadsLastSwitch(c: Config, actions: seq<Action>, key: string)
    requires Admissible(c) && CanRun(c, actions)
    ensures Lookup(c.codec, Reached(c, actions).store, key) == LastSwitched(c, actions, key)
  {
    RunKeepsInv(c, actions);
    CommittedIsLastSwitched(c, actions, key);
  }

  lemma {:induction false} NoSwitchNoChange(c: Config, actions: seq<Action>, key: string)
    requires forall k :: 0 <= k < |actions| && actions[k].Switch? && actions[k].i < |c.ops| ==> c.ops[actions[k].i].key != key
    ensures LastSwitched(c, actions, key) == Lookup(c.codec, c.store, key)
  {
    if actions != [] { NoSwitchNoChange(c, actions[..|actions| - 1], key); }
  }

  /** Operations on one session key never change what another key reads. */
  lemma KeysDoNotInterfere(c: Config, actions: seq<Action>, key: string)
    requires Admissible(c) && CanRun(c, actions)
    requires forall i :: 0 <= i < |c.ops| ==> c.ops[i].key != key
    ensures Lookup(c.codec, Reached(c, actions).store, key) == Lookup(c.codec, c.store, key)
  {
    EveryPointReadsLastSwitch(c, actions, key);
    NoSwitchNoChange(c, actions, key);
  }

  predicate Switched(actions: seq<Action>) {
    exists k :: 0 <= k < |actions| && actions[k].Switch?
  }

  lemma {:induction false} AloneSwitches(c: Config, actions: seq<Action>)
    requires |c.ops| == 1 && CanRun(c, actions)
    ensures LastSwitched(c, actions, c.ops[0].key) ==
            if !Switched(actions) then Lookup(c.codec, c.store, c.ops[0].key)
            else if c.ops[0].Set? then Some(c.ops[0].value) else None
  {
    if actions != [] {
      var front, last := actions[..|actions| - 1], actions[|actions| - 1];
      AloneSwitches(c, front);
      assert actions == front + [last];
      if last.Switch? {
        assert actions[|front|].Switch?;
      } else if Switched(front) {
        var k :| 0 <= k < |front| && front[k].Switch?;
        assert actions[k].Switch?;
      }
    }
  }

  /** Crash safety, over any store whatever (orphans of earlier crashes included) and with no assumption
      on versions: a `setItem` that stops anywhere leaves the old result or the new value, switching at
      the manifest write; a `removeItem` that stops anywhere leaves the old result or null. */
  lemma CrashLeavesOldOrNew(codec: Codec, max: int, store: Store, op: Op, actions: seq<Action>)
    requires Faithful(codec) && CanRun(Config(codec, max, store, [op]), actions)
    ensures Lookup(codec, Reached(Config(codec, max, store, [op]), actions).store, op.key) ==
            if !Switched(actions) then Lookup(codec, store, op.key)
            else if op.Set? then Some(op.value) else None
  {
    var c := Config(codec, max, store, [op]);
    EveryPointReadsLastSwitch(c, actions, op.key);
    AloneSwitches(c, actions);
  }

  // ----- readers -----

  lemma ReaderBegins(c: Config, s: State, a: Action, i: nat)
    requires Inv(c, s) && Enabled(c, s, a) && i < |c.ops| && c.ops[i].Get? && a.i == i && s.phases[i].Start?
    requires !Next(c, s, a).phases[i].Start?
    ensures a.Begin?
    ensures var p := Next(c, s, a).phases[i];
            && (p.Collecting? ==> Assemble(p.snap) == Lookup(c.codec, s.store, c.ops[i].key))
            && (p.Answered? ==> p.expected == Lookup(c.codec, s.store, c.ops[i].key))
  {}

  /** Whatever a reader holds was all there when it read the manifest, at some point `n` of the run. */
  lemma {:induction false} ReaderStarted(c: Config, actions: seq<Action>, i: nat) returns (n: nat)
    requires Admissible(c) && CanRun(c, actions) && i < |c.ops| && c.ops[i].Get?
    requires |Reached(c, actions).phases| == |c.ops| && !Reached(c, actions).phases[i].Start?
    ensures n < |actions| && CanRun(c, actions[..n]) && actions[n].Begin? && actions[n].i == i
    ensures var p := Reached(c, actions).phases[i];
            && (p.Collecting? ==> Assemble(p.snap) == Lookup(c.codec, Reached(c, actions[..n]).store, c.ops[i].key))
            && (p.Answered? ==> p.expected == Lookup(c.codec, Reached(c, actions[..n]).store, c.ops[i].key))
  {
    n := 0;
    if actions != [] {
      var front, last := actions[..|actions| - 1], actions[|actions| - 1];
      RunKeepsInv(c, front);
      if last.i == i && Reached(c, front).phases[i].Start? {
        n := |front|;
        ReaderBegins(c, Reached(c, front), last, i);
      } else {
        StaysStarted(c, Reached(c, front), last, i);
        n := ReaderStarted(c, front, i);
        assert front[..n] == actions[..n];
      }
    }
  }

  lemma StaysStarted(c: Config, s: State, a: Action, i: nat)
    requires Inv(c, s) && Enabled(c, s, a) && i < |c.ops| && c.ops[i].Get?
    requires a.i != i || !s.phases[i].Start?
    requires !Next(c, s, a).phases[i].Start?
    ensures !s.phases[i].Start?
    ensures var p, p' := s.phases[i], Next(c, s, a).phases[i];
            && (p'.Collecting? ==> p.Collecting? && p.snap == p'.snap)
            && (p'.Answered? ==> (p.Answered? && p.expected == p'.expected) || (p.Collecting? && Assemble(p.snap) == p'.expected))
  {
    assert OpInv(c, s, c.ops[i], s.phases[i]);
  }
}
