/** The intake queue: which files are accepted, how duplicates are dropped and how
    the queue is ordered. */
module Intake {
  import opened Types
  import opened Strings

  /** `gui.isReadableFileType`: a known input type, a delimited-text candidate or a zip. */
  predicate IsReadableFileType(env: Classifiers, name: string)
  {
    env.guessInputFileType(name) != "" || env.couldBeDsvFile(name) || env.isZipFile(name)
  }

  function Names(s: seq<File>): set<string>
  {
    set f | f in s :: f.name
  }

  predicate UniqueNames(s: seq<File>)
  {
    forall i, j :: 0 <= i < j < |s| ==> s[i].name != s[j].name
  }

  predicate AllReadable(env: Classifiers, s: seq<File>)
  {
    forall i :: 0 <= i < |s| ==> IsReadableFileType(env, s[i].name)
  }

  /** The sort key: the lower-cased file name. */
  function Key(f: File): string
  {
    Lower(f.name)
  }

  /** Nondecreasing order of lower-cased names. */
  predicate SortedByKey(s: seq<File>)
  {
    forall i, j :: 0 <= i < j < |s| ==> LexLe(Key(s[i]), Key(s[j]))
  }

  /** What the queue always satisfies. */
  predicate QueueInvariant(env: Classifiers, q: seq<File>)
  {
    SortedByKey(q) && UniqueNames(q) && AllReadable(env, q)
  }

  /** The reduce in `addFiles`: walk the files in order, keep a file when it is readable
      and its name has not been kept before. */
  function Deduplicated(env: Classifiers, s: seq<File>): seq<File>
    decreases |s|
  {
    if |s| == 0 then []
    else
      var kept := Deduplicated(env, s[..|s| - 1]);
      var f := s[|s| - 1];
      if IsReadableFileType(env, f.name) && f.name !in Names(kept) then kept + [f] else kept
  }

  /** Index of the first file in `s` called `name`, or `|s|` when there is none. */
  function FirstIndexOf(s: seq<File>, name: string): (i: nat)
    ensures i <= |s|
    ensures i < |s| ==> s[i].name == name
    ensures forall j :: 0 <= j < i ==> s[j].name != name
    decreases |s|
  {
    if |s| == 0 then 0
    else
      var p := FirstIndexOf(s[..|s| - 1], name);
      if p < |s| - 1 then p
      else if s[|s| - 1].name == name then |s| - 1
      else |s|
  }

  lemma {:induction false} DeduplicatedElements(env: Classifiers, s: seq<File>)
    ensures forall f :: f in Deduplicated(env, s) ==> f in s
    decreases |s|
  {
    if |s| > 0 {
      DeduplicatedElements(env, s[..|s| - 1]);
    }
  }

  /** No two kept files share a name, and every kept file is readable. */
  lemma {:induction false} DeduplicatedIsQueueable(env: Classifiers, s: seq<File>)
    ensures UniqueNames(Deduplicated(env, s))
    ensures AllReadable(env, Deduplicated(env, s))
    decreases |s|
  {
    if |s| > 0 {
      var kept := Deduplicated(env, s[..|s| - 1]);
      DeduplicatedIsQueueable(env, s[..|s| - 1]);
      var f := s[|s| - 1];
      if IsReadableFileType(env, f.name) && f.name !in Names(kept) {
        forall i | 0 <= i < |kept| ensures kept[i].name != f.name {
          assert kept[i] in kept;
        }
      }
    }
  }

  /** A readable name occurs among the kept files exactly when it occurs in the input. */
  lemma {:induction false} DeduplicatedNames(env: Classifiers, s: seq<File>)
    ensures forall f :: f in s && IsReadableFileType(env, f.name) ==> f.name in Names(Deduplicated(env, s))
    ensures forall n :: n in Names(Deduplicated(env, s)) ==> FirstIndexOf(s, n) < |s|
    decreases |s|
  {
    if |s| > 0 {
      var init := s[..|s| - 1];
      var kept := Deduplicated(env, init);
      DeduplicatedNames(env, init);
      var f := s[|s| - 1];
      forall g | g in s && IsReadableFileType(env, g.name)
        ensures g.name in Names(Deduplicated(env, s))
      {
        if g in init {
          assert g.name in Names(kept);
          var h :| h in kept && h.name == g.name;
          assert h in Deduplicated(env, s);
        } else {
          assert g == f;
          if f.name !in Names(kept) {
            assert f in Deduplicated(env, s);
          }
        }
      }
      forall n | n in Names(Deduplicated(env, s)) ensures FirstIndexOf(s, n) < |s| {
        var h :| h in Deduplicated(env, s) && h.name == n;
        DeduplicatedElements(env, s);
        var k :| 0 <= k < |s| && s[k] == h;
        assert FirstIndexOf(s, n) <= k;
      }
    }
  }

  lemma DeduplicatedNamesAt(env: Classifiers, s: seq<File>)
    ensures forall j :: 0 <= j < |s| && IsReadableFileType(env, s[j].name) ==> s[j].name in Names(Deduplicated(env, s))
  {
    DeduplicatedNames(env, s);
    forall j | 0 <= j < |s| && IsReadableFileType(env, s[j].name)
      ensures s[j].name in Names(Deduplicated(env, s))
    {
      assert s[j] in s;
    }
  }

  /** The first occurrence of a name wins: every kept file is the first file of its name. */
  lemma {:induction false} DeduplicatedKeepsFirst(env: Classifiers, s: seq<File>)
    ensures forall k :: 0 <= k < |Deduplicated(env, s)| ==>
      FirstIndexOf(s, Deduplicated(env, s)[k].name) < |s| &&
      Deduplicated(env, s)[k] == s[FirstIndexOf(s, Deduplicated(env, s)[k].name)]
    decreases |s|
  {
    if |s| > 0 {
      var init := s[..|s| - 1];
      var kept := Deduplicated(env, init);
      var f := s[|s| - 1];
      DeduplicatedKeepsFirst(env, init);
      var r := Deduplicated(env, s);
      forall k | 0 <= k < |r|
        ensures FirstIndexOf(s, r[k].name) < |s| && r[k] == s[FirstIndexOf(s, r[k].name)]
      {
        if k < |kept| {
          assert r[k] == kept[k];
          var p := FirstIndexOf(init, kept[k].name);
          assert init[p] == s[p];
        } else {
          assert r[k] == f && IsReadableFileType(env, f.name) && f.name !in Names(kept);
          DeduplicatedNamesAt(env, init);
          if FirstIndexOf(init, f.name) < |init| {
            assert false;
          }
        }
      }
    }
  }

  /** Adding files that are unreadable or whose names are queued already leaves a
      valid queue as it was: `addFiles` is idempotent under overlapping batches. */
  lemma {:induction false} DeduplicatedIgnoresKnownNames(env: Classifiers, q: seq<File>, more: seq<File>)
    requires UniqueNames(q) && AllReadable(env, q)
    requires forall f :: f in more && IsReadableFileType(env, f.name) ==> f.name in Names(q)
    ensures Deduplicated(env, q + more) == q
    decreases |more|
  {
    if |more| == 0 {
      assert q + more == q;
      DeduplicatedOfQueue(env, q);
    } else {
      var init := more[..|more| - 1];
      assert (q + more)[..|q + more| - 1] == q + init;
      DeduplicatedIgnoresKnownNames(env, q, init);
    }
  }

  lemma {:induction false} DeduplicatedOfQueue(env: Classifiers, q: seq<File>)
    requires UniqueNames(q) && AllReadable(env, q)
    ensures Deduplicated(env, q) == q
    decreases |q|
  {
    if |q| > 0 {
      var init := q[..|q| - 1];
      DeduplicatedOfQueue(env, init);
      assert q == init + [q[|q| - 1]];
      forall g | g in init ensures g.name != q[|q| - 1].name {
        var k :| 0 <= k < |init| && init[k] == g;
        assert q[k] == g;
      }
    }
  }

  /** Inserts `x` into a sorted sequence before the first element whose key is larger. */
  function Insert(x: File, s: seq<File>): (r: seq<File>)
    requires SortedByKey(s)
    ensures SortedByKey(r)
    ensures multiset(r) == multiset(s) + multiset{x}
    ensures forall k :: 0 <= k < |r| ==> r[k] == x || r[k] in s
    decreases |s|
  {
    if |s| == 0 then [x]
    else if LexLe(Key(x), Key(s[0])) then
      InsertFrontSorted(x, s);
      [x] + s
    else
      var rest := Insert(x, s[1..]);
      InsertLaterSorted(x, s, rest);
      [s[0]] + rest
  }

  lemma InsertFrontSorted(x: File, s: seq<File>)
    requires SortedByKey(s) && |s| > 0 && LexLe(Key(x), Key(s[0]))
    ensures SortedByKey([x] + s)
  {
    forall j | 0 <= j < |s| ensures LexLe(Key(x), Key(s[j])) {
      if j > 0 { LexLeTransitive(Key(x), Key(s[0]), Key(s[j])); }
    }
  }

  lemma InsertLaterSorted(x: File, s: seq<File>, rest: seq<File>)
    requires SortedByKey(s) && |s| > 0 && !LexLe(Key(x), Key(s[0]))
    requires SortedByKey(rest)
    requires multiset(rest) == multiset(s[1..]) + multiset{x}
    requires forall k :: 0 <= k < |rest| ==> rest[k] == x || rest[k] in s[1..]
    ensures SortedByKey([s[0]] + rest)
    ensures multiset([s[0]] + rest) == multiset(s) + multiset{x}
    ensures forall k :: 0 <= k < |[s[0]] + rest| ==> ([s[0]] + rest)[k] == x || ([s[0]] + rest)[k] in s
  {
    LexLeTotal(Key(x), Key(s[0]));
    forall k | 0 <= k < |rest| ensures LexLe(Key(s[0]), Key(rest[k])) {
      if rest[k] != x {
        var j :| 0 <= j < |s[1..]| && s[1..][j] == rest[k];
        assert s[j + 1] == rest[k];
      }
    }
    assert s == [s[0]] + s[1..];
    forall k | 0 <= k < |[s[0]] + rest| ensures ([s[0]] + rest)[k] == x || ([s[0]] + rest)[k] in s {
      if k > 0 {
        assert ([s[0]] + rest)[k] == rest[k - 1];
      }
    }
  }

  /** `queuedFiles.sort(...)` with a comparator that orders by lower-cased name. Files
      whose lower-cased names are equal may end up in either order. */
  method SortByLowerName(s: seq<File>) returns (r: seq<File>)
    ensures SortedByKey(r)
    ensures multiset(r) == multiset(s)
  {
    r := [];
    for i := 0 to |s|
      invariant SortedByKey(r)
      invariant multiset(r) == multiset(s[..i])
    {
      r := Insert(s[i], r);
      assert s[..i + 1] == s[..i] + [s[i]];
    }
    assert s[..|s|] == s;
  }

  lemma {:induction false} CountAtMostOne(s: seq<File>, x: File)
    requires UniqueNames(s)
    ensures multiset(s)[x] <= 1
    decreases |s|
  {
    if |s| > 0 {
      var init := s[..|s| - 1];
      assert s == init + [s[|s| - 1]];
      CountAtMostOne(init, x);
      if s[|s| - 1] == x {
        forall k | 0 <= k < |init| ensures init[k] != x {
          assert s[k] == init[k];
        }
        assert x !in init;
      }
    }
  }

  /** Two equal elements at distinct positions make the element occur twice. */
  lemma RepeatCountsTwice(b: seq<File>, i: int, j: int)
    ensures 0 <= i < j < |b| && b[i] == b[j] ==> multiset(b)[b[i]] >= 2
  {
    if 0 <= i < j < |b| && b[i] == b[j] {
      assert b == b[..j] + [b[j]] + b[j + 1..];
      assert b[i] in b[..j];
    }
  }

  /** Reordering a sequence keeps its names unique. */
  lemma UniqueUnderPermutation(a: seq<File>, b: seq<File>)
    requires multiset(a) == multiset(b) && UniqueNames(a)
    ensures UniqueNames(b)
  {
    forall i, j | 0 <= i < j < |b| ensures b[i].name != b[j].name {
      CountAtMostOne(a, b[i]);
      RepeatCountsTwice(b, i, j);
      assert b[i] != b[j];
      assert b[i] in multiset(a) && b[j] in multiset(a);
      var p :| 0 <= p < |a| && a[p] == b[i];
      var q :| 0 <= q < |a| && a[q] == b[j];
      if p < q { assert a[p].name != a[q].name; } else { assert a[q].name != a[p].name; }
    }
  }

  lemma ReadableUnderPermutation(env: Classifiers, a: seq<File>, b: seq<File>)
    requires multiset(a) == multiset(b) && AllReadable(env, a)
    ensures AllReadable(env, b)
  {
    forall i | 0 <= i < |b| ensures IsReadableFileType(env, b[i].name) {
      assert b[i] in multiset(a);
    }
  }

  /** Two queues sorted by lower-cased name that hold the same files, with no two
      lower-cased names equal, are the same queue: the order in which files arrive
      does not matter. */
  lemma {:induction false} SortedQueueIsUnique(a: seq<File>, b: seq<File>)
    requires SortedByKey(a) && SortedByKey(b) && multiset(a) == multiset(b)
    requires forall i, j :: 0 <= i < j < |a| ==> Key(a[i]) != Key(a[j])
    ensures a == b
    decreases |a|
  {
    if |a| == 0 {
      assert |b| == |multiset(b)| == 0;
    } else {
      SortedHeadsEqual(a, b);
      TailMultiset(a);
      TailMultiset(b);
      SortedTail(a);
      SortedTail(b);
      assert forall i, j :: 0 <= i < j < |a[1..]| ==> Key(a[1..][i]) != Key(a[1..][j]) by {
        forall i, j | 0 <= i < j < |a[1..]| ensures Key(a[1..][i]) != Key(a[1..][j]) {
          assert a[1..][i] == a[i + 1] && a[1..][j] == a[j + 1];
        }
      }
      SortedQueueIsUnique(a[1..], b[1..]);
      assert a == [a[0]] + a[1..] && b == [b[0]] + b[1..];
    }
  }

  /** Two such queues start with the same file. */
  lemma SortedHeadsEqual(a: seq<File>, b: seq<File>)
    requires SortedByKey(a) && SortedByKey(b) && multiset(a) == multiset(b) && |a| > 0
    requires forall i, j :: 0 <= i < j < |a| ==> Key(a[i]) != Key(a[j])
    ensures |b| > 0 && a[0] == b[0]
  {
    assert |b| == |a| by {
      assert |multiset(b)| == |multiset(a)|;
    }
    var x, y := a[0], b[0];
    assert y in multiset(a) by {
      assert y in multiset(b);
    }
    assert x in multiset(b) by {
      assert x in multiset(a);
    }
    var p :| 0 <= p < |a| && a[p] == y;
    var q :| 0 <= q < |b| && b[q] == x;
    assert LexLe(Key(x), Key(y)) by {
      if p == 0 { LexLeReflexive(Key(x)); }
    }
    assert LexLe(Key(y), Key(x)) by {
      if q == 0 { LexLeReflexive(Key(y)); }
    }
    LexLeAntisymmetric(Key(x), Key(y));
    assert p == 0;
  }

  lemma SortedTail(s: seq<File>)
    requires SortedByKey(s) && |s| > 0
    ensures SortedByKey(s[1..])
  {
    forall i, j | 0 <= i < j < |s[1..]| ensures LexLe(Key(s[1..][i]), Key(s[1..][j])) {
      assert s[1..][i] == s[i + 1] && s[1..][j] == s[j + 1];
    }
  }

  lemma TailMultiset(s: seq<File>)
    requires |s| > 0
    ensures multiset(s[1..]) == multiset(s) - multiset{s[0]}
  {
    assert s == [s[0]] + s[1..];
  }

  /** The element `readNext` pops is one with the greatest lower-cased name. */
  lemma LastIsGreatest(q: seq<File>)
    requires SortedByKey(q) && |q| > 0
    ensures forall i :: 0 <= i < |q| ==> LexLe(Key(q[i]), Key(q[|q| - 1]))
  {
    forall i | 0 <= i < |q| ensures LexLe(Key(q[i]), Key(q[|q| - 1])) {
      if i == |q| - 1 { LexLeReflexive(Key(q[i])); }
    }
  }

  lemma {:induction false} LexLeReflexive(a: string)
    ensures LexLe(a, a)
    decreases |a|
  {
    if |a| > 0 { LexLeReflexive(a[1..]); }
  }

  /** A file that `receiveFiles` imports right away: a Shapefile or a JSON file. */
  predicate IsImmediate(env: Classifiers, name: string)
  {
    var t := env.guessInputFileType(name);
    t == "shp" || t == "json"
  }

  /** `containsImmediateFile`. */
  function ContainsImmediateFile(env: Classifiers, files: seq<File>): (r: bool)
    ensures r <==> exists i :: 0 <= i < |files| && IsImmediate(env, files[i].name)
    decreases |files|
  {
    if |files| == 0 then false
    else IsImmediate(env, files[0].name) || ContainsImmediateFile(env, files[1..])
  }

  /** An immediate file survives intake: the deduplicated batch holds one exactly when
      some file of the batch is one. */
  lemma {:induction false} ImmediateSurvivesIntake(env: Classifiers, s: seq<File>)
    ensures ContainsImmediateFile(env, Deduplicated(env, s)) <==>
      exists i :: 0 <= i < |s| && IsImmediate(env, s[i].name)
  {
    var r := Deduplicated(env, s);
    if exists i :: 0 <= i < |s| && IsImmediate(env, s[i].name) {
      var i :| 0 <= i < |s| && IsImmediate(env, s[i].name);
      assert s[i] in s;
      DeduplicatedNames(env, s);
      var h :| h in r && h.name == s[i].name;
      var k :| 0 <= k < |r| && r[k] == h;
      assert IsImmediate(env, r[k].name);
    }
    if ContainsImmediateFile(env, r) {
      var k :| 0 <= k < |r| && IsImmediate(env, r[k].name);
      DeduplicatedElements(env, s);
      assert r[k] in s;
    }
  }

  lemma ImmediateUnderPermutation(env: Classifiers, a: seq<File>, b: seq<File>)
    requires multiset(a) == multiset(b)
    ensures ContainsImmediateFile(env, a) == ContainsImmediateFile(env, b)
  {
    if ContainsImmediateFile(env, a) {
      var i :| 0 <= i < |a| && IsImmediate(env, a[i].name);
      assert a[i] in multiset(b);
      var j :| 0 <= j < |b| && b[j] == a[i];
    }
    if ContainsImmediateFile(env, b) {
      var j :| 0 <= j < |b| && IsImmediate(env, b[j].name);
      assert b[j] in multiset(a);
      var i :| 0 <= i < |a| && a[i] == b[j];
    }
  }

  /** The filter `readZipFile` applies to the archive's members: no `.txt` files. */
  function WithoutTxt(files: seq<File>): (r: seq<File>)
    ensures forall f :: f in r <==> f in files && !EndsWithTxt(f.name)
    ensures |r| <= |files|
    decreases |files|
  {
    if |files| == 0 then []
    else if EndsWithTxt(files[0].name) then WithoutTxt(files[1..])
    else [files[0]] + WithoutTxt(files[1..])
  }

  /** The filter keeps the archive's order: filtering two runs of members in a row is
      filtering each. */
  lemma {:induction false} WithoutTxtConcat(a: seq<File>, b: seq<File>)
    ensures WithoutTxt(a + b) == WithoutTxt(a) + WithoutTxt(b)
    decreases |a|
  {
    if |a| > 0 {
      assert (a + b)[0] == a[0];
      assert (a + b)[1..] == a[1..] + b;
      WithoutTxtConcat(a[1..], b);
    } else {
      assert a + b == b;
    }
  }

  /** One member is kept, once, exactly when its name does not end in `.txt`. */
  lemma WithoutTxtSingle(f: File)
    ensures WithoutTxt([f]) == if EndsWithTxt(f.name) then [] else [f]
  {
    assert [f][1..] == [];
  }
}
