/** Store keys and version strings of the chunked session store. */
module StoreKeys {
  // ----- numerals -----

  function Digit(d: nat): char
    requires d < 36
  {
    if d < 10 then ('0' as int + d) as char else ('a' as int + (d - 10)) as char
  }

  datatype Base = Ten | ThirtySix

  function Radix(base: Base): nat { if base.Ten? then 10 else 36 }

  function Quotient(n: nat, base: Base): nat { if base.Ten? then n / 10 else n / 36 }

  function Remainder(n: nat, base: Base): nat { if base.Ten? then n % 10 else n % 36 }

  /** `n.toString(base)`. */
  function Render(n: nat, base: Base): (s: string)
    ensures s != [] && forall i :: 0 <= i < |s| ==> s[i] != '.' && s[i] != '-'
  {
    if n < Radix(base) then [Digit(n)] else Render(Quotient(n, base), base) + [Digit(Remainder(n, base))]
  }

  lemma {:induction false} RenderInjective(a: nat, b: nat, base: Base)
    requires Render(a, base) == Render(b, base)
    ensures a == b
  {
    var s := Render(a, base);
    if a >= Radix(base) && b >= Radix(base) {
      assert s[|s| - 1] == Digit(Remainder(a, base)) == Digit(Remainder(b, base));
      assert s[..|s| - 1] == Render(Quotient(a, base), base) == Render(Quotient(b, base), base);
      RenderInjective(Quotient(a, base), Quotient(b, base), base);
    }
  }

  function Power36(k: nat): nat { if k == 0 then 1 else 36 * Power36(k - 1) }

  lemma {:induction false} RenderLength(n: nat, k: nat)
    requires k >= 1 && n < Power36(k)
    ensures |Render(n, ThirtySix)| <= k
  {
    assert Power36(1) == 36;
    if n >= 36 {
      RenderLength(n / 36, k - 1);
    }
  }

  // ----- separators -----

  /** Two texts cut at their last separator agree on both sides. */
  lemma LastSeparator(a: string, s: string, b: string, t: string, sep: char)
    requires sep !in s && sep !in t && a + [sep] + s == b + [sep] + t
    ensures a == b && s == t
  {
    var x := a + [sep] + s;
    assert x[|a|] == sep && x[|b|] == sep;
    assert |a| == |b|;
    assert a == x[..|a|] && b == x[..|a|];
    assert s == x[|a| + 1..] && t == x[|a| + 1..];
  }

  /** Two texts cut at their first separator agree on both sides. */
  lemma FirstSeparator(a: string, s: string, b: string, t: string, sep: char)
    requires sep !in a && sep !in b && a + [sep] + s == b + [sep] + t
    ensures a == b && s == t
  {
    var x := a + [sep] + s;
    assert x[|a|] == sep && x[|b|] == sep;
    assert |a| == |b|;
    assert a == x[..|a|] && b == x[..|a|];
    assert s == x[|a| + 1..] && t == x[|a| + 1..];
  }

  // ----- keys -----

  predicate VersionChar(c: char) {
    'a' <= c <= 'z' || 'A' <= c <= 'Z' || '0' <= c <= '9' || c == '_' || c == '-'
  }

  /** `VERSION_PATTERN`. */
  predicate ValidVersion(v: string) {
    1 <= |v| <= 64 && forall i :: 0 <= i < |v| ==> VersionChar(v[i])
  }

  function ManifestKey(key: string): string { key + "." + "manifest" }

  function ChunkKey(key: string, version: string, index: nat): string {
    key + "." + version + "." + Render(index, Ten)
  }

  lemma NoDot(v: string)
    requires ValidVersion(v)
    ensures '.' !in v
  {}

  /** Distinct (key, version, index) triples have distinct store keys, even for keys that contain dots. */
  lemma ChunkKeyInjective(k1: string, v1: string, i1: nat, k2: string, v2: string, i2: nat)
    requires ValidVersion(v1) && ValidVersion(v2)
    requires ChunkKey(k1, v1, i1) == ChunkKey(k2, v2, i2)
    ensures k1 == k2 && v1 == v2 && i1 == i2
  {
    NoDot(v1);
    NoDot(v2);
    LastSeparator(k1 + "." + v1, Render(i1, Ten), k2 + "." + v2, Render(i2, Ten), '.');
    RenderInjective(i1, i2, Ten);
    LastSeparator(k1, v1, k2, v2, '.');
  }

  lemma ManifestKeyInjective(k1: string, k2: string)
    requires ManifestKey(k1) == ManifestKey(k2)
    ensures k1 == k2
  {
    LastSeparator(k1, "manifest", k2, "manifest", '.');
  }

  /** A manifest key is never a chunk key, of the same session key or of another. */
  lemma ManifestIsNoChunk(k1: string, k2: string, version: string, index: nat)
    ensures ManifestKey(k1) != ChunkKey(k2, version, index)
  {
    RenderedAreDigits(index);
    assert "manifest"[0] == 'm';
    if ManifestKey(k1) == ChunkKey(k2, version, index) {
      LastSeparator(k1, "manifest", k2 + "." + version, Render(index, Ten), '.');
    }
  }

  lemma {:induction false} RenderedAreDigits(n: nat)
    ensures forall i :: 0 <= i < |Render(n, Ten)| ==> '0' <= Render(n, Ten)[i] <= '9'
  {
    if n >= 10 { RenderedAreDigits(n / 10); }
  }

  // ----- versions -----

  function VersionText(time: nat, sequence: nat, random: string): string {
    Render(time, ThirtySix) + "-" + Render(sequence, ThirtySix) + "-" + random
  }

  /** At most eight base-36 digits. */
  predicate IsFraction(random: string) {
    |random| <= 8 && forall i :: 0 <= i < |random| ==> VersionChar(random[i])
  }

  /** The version was made from a count of at most `n`. */
  ghost predicate CountedTo(version: string, n: nat) {
    exists time: nat, sequence: nat, random: string :: sequence <= n && version == VersionText(time, sequence, random)
  }

  /** `defaultVersion`, with its counter and the versions it has given out. */
  class VersionSource {
    var sequence: nat
    ghost var issued: set<string>

    ghost predicate Valid()
      reads this
    {
      forall v :: v in issued ==> CountedTo(v, sequence)
    }

    constructor ()
      ensures Valid() && issued == {}
    {
      sequence, issued := 0, {};
    }

    /** Never a version given out before, whatever the clock and the random digits say, and one that the
        store accepts. `random` is the fraction's digits, which the source cuts to at most eight. */
    method Next(time: nat, random: string) returns (version: string)
      requires Valid()
      modifies this
      ensures Valid()
      ensures version !in old(issued) && issued == old(issued) + {version}
      ensures version == VersionText(time, old(sequence) + 1, random) && sequence == old(sequence) + 1
      ensures time < 0x20_0000_0000_0000 && sequence < 0x20_0000_0000_0000 && IsFraction(random) ==> ValidVersion(version)
    {
      sequence := sequence + 1;
      version := Render(time, ThirtySix) + "-" + Render(sequence, ThirtySix) + "-" + random;
      NewCountIsNew(old(issued), old(sequence), time, random);
      if time < 0x20_0000_0000_0000 && sequence < 0x20_0000_0000_0000 && IsFraction(random) {
        GeneratedVersionIsValid(time, sequence, random);
      }
      issued := issued + {version};
    }
  }

  lemma NewCountIsNew(issued: set<string>, n: nat, time: nat, random: string)
    requires forall v :: v in issued ==> CountedTo(v, n)
    ensures VersionText(time, n + 1, random) !in issued && CountedTo(VersionText(time, n + 1, random), n + 1)
    ensures forall v :: v in issued ==> CountedTo(v, n + 1)
  {
    var version := VersionText(time, n + 1, random);
    if CountedTo(version, n) {
      var t: nat, s: nat, r: string :| s <= n && version == VersionText(t, s, r);
      VersionsNeverRepeat(time, n + 1, random, t, s, r);
    }
    forall v | v in issued ensures CountedTo(v, n + 1) {
      var t: nat, s: nat, r: string :| s <= n && v == VersionText(t, s, r);
    }
    assert n + 1 <= n + 1 && version == VersionText(time, n + 1, random);
  }

  /** Within a process no two versions are equal, whatever the clock and the random digits. */
  lemma VersionsNeverRepeat(t1: nat, s1: nat, r1: string, t2: nat, s2: nat, r2: string)
    requires VersionText(t1, s1, r1) == VersionText(t2, s2, r2)
    ensures s1 == s2
  {
    assert VersionText(t1, s1, r1) == Render(t1, ThirtySix) + ['-'] + (Render(s1, ThirtySix) + ['-'] + r1);
    assert VersionText(t2, s2, r2) == Render(t2, ThirtySix) + ['-'] + (Render(s2, ThirtySix) + ['-'] + r2);
    FirstSeparator(Render(t1, ThirtySix), Render(s1, ThirtySix) + ['-'] + r1, Render(t2, ThirtySix), Render(s2, ThirtySix) + ['-'] + r2, '-');
    FirstSeparator(Render(s1, ThirtySix), r1, Render(s2, ThirtySix), r2, '-');
    RenderInjective(s1, s2, ThirtySix);
  }

  lemma {:induction false} RenderedAreVersionChars(n: nat)
    ensures forall i :: 0 <= i < |Render(n, ThirtySix)| ==> VersionChar(Render(n, ThirtySix)[i])
  {
    if n >= 36 { RenderedAreVersionChars(n / 36); }
  }

  /** The store's own version check accepts every generated version: clock and counter are JavaScript
      integers, at most eleven base-36 digits. */
  lemma GeneratedVersionIsValid(time: nat, sequence: nat, random: string)
    requires time < 0x20_0000_0000_0000 && sequence < 0x20_0000_0000_0000
    requires IsFraction(random)
    ensures ValidVersion(VersionText(time, sequence, random))
  {
    ElevenDigits();
    RenderLength(time, 11);
    RenderLength(sequence, 11);
    RenderedAreVersionChars(time);
    RenderedAreVersionChars(sequence);
  }

  lemma ElevenDigits()
    ensures 0x20_0000_0000_0000 <= Power36(11)
  {
    assert Power36(2) == 1296 && Power36(4) == 36 * (36 * Power36(2));
    assert Power36(6) == 36 * (36 * Power36(4));
    assert Power36(8) == 36 * (36 * Power36(6));
    assert Power36(10) == 36 * (36 * Power36(8));
  }
}
