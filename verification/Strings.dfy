/** Strings and slash-separated paths, as far as the checkpointer uses them. */
module Strings {
  predicate SlashFree(s: string) {
    '/' !in s
  }

  /** strings.Replace(s, "/", "-", -1) */
  function ReplaceSlash(s: string): string {
    seq(|s|, i requires 0 <= i < |s| => if s[i] == '/' then '-' else s[i])
  }

  function TrimSuffix(s: string, suffix: string): string {
    if |suffix| <= |s| && s[|s| - |suffix|..] == suffix then s[..|s| - |suffix|] else s
  }

  predicate HasPrefix(s: string, prefix: string) {
    prefix <= s
  }

  // ---------------------------------------------------------------------------------------------
  // Lexicographic order and sorting.

  predicate Leq(a: string, b: string) {
    a == [] || (b != [] && (a[0] < b[0] || (a[0] == b[0] && Leq(a[1..], b[1..]))))
  }

  lemma {:induction false} LeqTotal(a: string, b: string)
    ensures Leq(a, b) || Leq(b, a)
  {
    if a != [] && b != [] && a[0] == b[0] {
      LeqTotal(a[1..], b[1..]);
    }
  }

  lemma {:induction false} LeqAntisymmetric(a: string, b: string)
    requires Leq(a, b) && Leq(b, a)
    ensures a == b
  {
    if a != [] {
      LeqAntisymmetric(a[1..], b[1..]);
      assert a == [a[0]] + a[1..] && b == [b[0]] + b[1..];
    }
  }

  lemma {:induction false} LeqTransitive(a: string, b: string, c: string)
    requires Leq(a, b) && Leq(b, c)
    ensures Leq(a, c)
  {
    if a != [] && a[0] == b[0] == c[0] {
      LeqTransitive(a[1..], b[1..], c[1..]);
    }
  }

  /** The order is that of a dictionary: a prefix comes first, else the first different character decides. */
  lemma {:induction false} LeqMeaning(a: string, b: string)
    ensures Leq(a, b) <==> a <= b || exists k :: 0 <= k < |a| && k < |b| && a[..k] == b[..k] && a[k] < b[k]
  {
    if a != [] && b != [] && a[0] == b[0] {
      LeqMeaning(a[1..], b[1..]);
      assert a <= b <==> a[1..] <= b[1..] by {
        assert a == [a[0]] + a[1..] && b == [b[0]] + b[1..];
      }
      if k :| 0 <= k < |a| && k < |b| && a[..k] == b[..k] && a[k] < b[k] {
        assert a[1..][..k - 1] == a[..k][1..] && b[1..][..k - 1] == b[..k][1..];
        assert a[1..][k - 1] < b[1..][k - 1];
      }
      if k :| 0 <= k < |a[1..]| && k < |b[1..]| && a[1..][..k] == b[1..][..k] && a[1..][k] < b[1..][k] {
        assert a[..k + 1] == [a[0]] + a[1..][..k] && b[..k + 1] == [b[0]] + b[1..][..k];
        assert a[k + 1] < b[k + 1];
      }
    } else if a != [] && b != [] {
      DifferentHeads(a, b);
      if a[0] < b[0] { assert a[..0] == b[..0]; }
    }
  }

  lemma DifferentHeads(a: string, b: string)
    requires a != [] && b != [] && a[0] != b[0]
    ensures forall k :: 0 < k <= |a| && k <= |b| ==> a[..k] != b[..k]
  {
    forall k | 0 < k <= |a| && k <= |b| ensures a[..k] != b[..k] {
      assert a[..k][0] == a[0];
      assert b[..k][0] == b[0];
    }
  }

  ghost predicate Sorted(s: seq<string>) {
    forall i, j :: 0 <= i < j < |s| ==> Leq(s[i], s[j])
  }

  ghost predicate NoDuplicates<T(!new)>(s: seq<T>) {
    forall i, j :: 0 <= i < j < |s| ==> s[i] != s[j]
  }

  ghost function Elements<T>(s: seq<T>): set<T> {
    set x | x in s
  }

  function Insert(x: string, s: seq<string>): seq<string> {
    if s == [] || Leq(x, s[0]) then [x] + s else [s[0]] + Insert(x, s[1..])
  }

  /** sort.Strings */
  function SortStrings(s: seq<string>): seq<string> {
    if s == [] then [] else Insert(s[0], SortStrings(s[1..]))
  }

  lemma {:induction false} InsertKeeps(x: string, s: seq<string>)
    ensures multiset(Insert(x, s)) == multiset(s) + multiset{x}
  {
    if s != [] && !Leq(x, s[0]) {
      InsertKeeps(x, s[1..]);
      assert s == [s[0]] + s[1..];
    }
  }

  lemma {:induction false} InsertSorts(x: string, s: seq<string>)
    requires Sorted(s)
    ensures Sorted(Insert(x, s))
  {
    if s == [] {
    } else if Leq(x, s[0]) {
      forall i | 0 <= i < |s| ensures Leq(x, s[i]) {
        if i > 0 { LeqTransitive(x, s[0], s[i]); }
      }
    } else {
      LeqTotal(x, s[0]);
      var rest := Insert(x, s[1..]);
      InsertSorts(x, s[1..]);
      InsertKeeps(x, s[1..]);
      forall i | 0 <= i < |rest| ensures Leq(s[0], rest[i]) {
        assert rest[i] in multiset(rest);
        if rest[i] != x { assert rest[i] in s[1..]; }
      }
    }
  }

  lemma {:induction false} SortStringsCorrect(s: seq<string>)
    ensures Sorted(SortStrings(s))
    ensures multiset(SortStrings(s)) == multiset(s)
  {
    if s != [] {
      SortStringsCorrect(s[1..]);
      InsertSorts(s[0], SortStrings(s[1..]));
      InsertKeeps(s[0], SortStrings(s[1..]));
      assert s == [s[0]] + s[1..];
    }
  }

  lemma HeadIsLeast(s: seq<string>, x: string)
    requires Sorted(s) && x in multiset(s)
    ensures s != [] && Leq(s[0], x)
  {
    var i :| 0 <= i < |s| && s[i] == x;
    if i == 0 { LeqReflexive(x); }
  }

  lemma SplitHead(s: seq<string>)
    requires s != []
    ensures multiset(s) == multiset{s[0]} + multiset(s[1..])
  {
    assert s == [s[0]] + s[1..];
  }

  /** Sorting depends only on which strings are given, not on the order a map yielded them in. */
  lemma {:induction false} SortedUnique(s: seq<string>, t: seq<string>)
    requires Sorted(s) && Sorted(t) && multiset(s) == multiset(t)
    ensures s == t
  {
    assert |s| == |multiset(s)| == |t|;
    if s != [] {
      assert s[0] in multiset(t) && t[0] in multiset(s);
      HeadIsLeast(t, s[0]);
      HeadIsLeast(s, t[0]);
      LeqAntisymmetric(s[0], t[0]);
      TailsAgree(s, t);
      SortedUnique(s[1..], t[1..]);
      assert s == [s[0]] + s[1..] && t == [t[0]] + t[1..];
    }
  }

  lemma TailsAgree(s: seq<string>, t: seq<string>)
    requires s != [] && t != [] && s[0] == t[0] && Sorted(s) && Sorted(t) && multiset(s) == multiset(t)
    ensures Sorted(s[1..]) && Sorted(t[1..]) && multiset(s[1..]) == multiset(t[1..])
  {
    SplitHead(s);
    SplitHead(t);
    assert multiset(s[1..]) == multiset(s) - multiset{s[0]} == multiset(t[1..]);
  }

  lemma {:induction false} LeqReflexive(a: string)
    ensures Leq(a, a)
  {
    if a != [] { LeqReflexive(a[1..]); }
  }

  lemma SortedKeepsSet(s: seq<string>)
    requires NoDuplicates(s)
    ensures NoDuplicates(SortStrings(s)) && Elements(SortStrings(s)) == Elements(s)
  {
    var t := SortStrings(s);
    SortStringsCorrect(s);
    forall x ensures x in t <==> x in s {
      assert x in multiset(t) <==> x in multiset(s);
    }
    forall i, j | 0 <= i < j < |t| ensures t[i] != t[j] {
      OnceInNoDuplicates(s, t[i]);
      if t[i] == t[j] { TwiceInMultiset(t, i, j); }
    }
  }

  lemma TwiceInMultiset(t: seq<string>, i: nat, j: nat)
    requires i < j < |t| && t[i] == t[j]
    ensures multiset(t)[t[i]] >= 2
  {
    assert t == t[..j] + [t[j]] + t[j + 1..];
    assert t[i] in t[..j];
  }

  lemma {:induction false} OnceInNoDuplicates(s: seq<string>, x: string)
    requires NoDuplicates(s)
    ensures multiset(s)[x] <= 1
  {
    if s != [] {
      OnceInNoDuplicates(s[1..], x);
      assert s == [s[0]] + s[1..];
      if x == s[0] { assert x !in s[1..]; }
    }
  }

  // ---------------------------------------------------------------------------------------------
  // Paths.

  /** A cleaned absolute path, as its sequence of components. */
  type Path = seq<string>

  /** A name that is one path component and that cleaning a path leaves alone. */
  predicate ValidName(s: string) {
    s != "" && s != "." && s != ".." && SlashFree(s)
  }

  /** path.Split: everything up to and including the last slash, and the rest. */
  function SplitPath(s: string): (string, string) {
    if s == [] then ([], [])
    else if s[|s| - 1] == '/' then (s, [])
    else var (dir, file) := SplitPath(s[..|s| - 1]); (dir, file + [s[|s| - 1]])
  }

  lemma {:induction false} SplitPathParts(s: string)
    ensures var (dir, file) := SplitPath(s);
            && s == dir + file && SlashFree(file)
            && (dir != [] ==> dir[|dir| - 1] == '/')
  {
    if s != [] && s[|s| - 1] != '/' {
      SplitPathParts(s[..|s| - 1]);
    }
  }

  lemma {:induction false} SplitFullName(dir: string, name: string)
    requires SlashFree(name)
    ensures SplitPath(dir + "/" + name) == (dir + "/", name)
  {
    var s := dir + "/" + name;
    if name == [] {
      assert s == dir + "/";
    } else {
      var n := name[..|name| - 1];
      assert s[..|s| - 1] == dir + "/" + n;
      SplitFullName(dir, n);
      assert name == n + [name[|name| - 1]];
    }
  }

  lemma {:induction false} SplitSlashFree(s: string)
    requires SlashFree(s)
    ensures SplitPath(s) == ([], s)
  {
    if s != [] {
      SplitSlashFree(s[..|s| - 1]);
      assert s == s[..|s| - 1] + [s[|s| - 1]];
    }
  }

  /** The non-empty components of a slash-separated string. */
  function Components(s: string): Path
    decreases |s|
  {
    if s == [] then [] else
    SplitPathParts(s);
    var (dir, file) := SplitPath(s);
    (if dir == [] then [] else Components(dir[..|dir| - 1])) + (if file == [] then [] else [file])
  }

  /** filepath.Join of an absolute root and elements without "." and ".." components. */
  function Join(root: Path, elems: seq<string>): Path
    decreases |elems|
  {
    if elems == [] then root else Join(root + Components(elems[0]), elems[1..])
  }

  lemma ComponentsOfName(s: string)
    requires ValidName(s)
    ensures Components(s) == [s] && Components(s + "/") == [s]
  {
    SplitSlashFree(s);
    SplitFullName(s, "");
    assert s + "/" + "" == s + "/";
    assert (s + "/")[..|s|] == s;
  }

  lemma FirstSlash(ns: string, name: string)
    requires SlashFree(ns)
    ensures var s := ns + "/" + name;
            && s[|ns|] == '/' && s[..|ns|] == ns && s[|ns| + 1..] == name
            && forall i :: 0 <= i < |ns| ==> s[i] != '/'
  {
    var s := ns + "/" + name;
    forall i | 0 <= i < |ns| ensures s[i] != '/' {
      assert s[i] == ns[i];
    }
  }

  /** A full name determines its namespace and its name. */
  lemma FullNameInjective(ns1: string, name1: string, ns2: string, name2: string)
    requires SlashFree(ns1) && SlashFree(ns2)
    requires ns1 + "/" + name1 == ns2 + "/" + name2
    ensures ns1 == ns2 && name1 == name2
  {
    FirstSlash(ns1, name1);
    FirstSlash(ns2, name2);
    assert |ns1| == |ns2|;
  }
}
