/**
 * The pieces of Python's string and POSIX path library that the upload
 * handler relies on: `str.split('/')`, `'/'.join(...)`, `str.lstrip('/')`
 * and `posixpath.normpath`.
 */
module PosixPath {

  /** `s.split('/')`: the pieces between slashes; there is always at least one. */
  function Split(s: string): (parts: seq<string>)
    ensures |parts| >= 1
    ensures forall i :: 0 <= i < |parts| ==> '/' !in parts[i]
  {
    if s == [] then [""]
    else if s[0] == '/' then [""] + Split(s[1..])
    else
      var rest := Split(s[1..]);
      [[s[0]] + rest[0]] + rest[1..]
  }

  /** `'/'.join(parts)`. */
  function Join(parts: seq<string>): string
  {
    if parts == [] then ""
    else if |parts| == 1 then parts[0]
    else parts[0] + "/" + Join(parts[1..])
  }

  /** A run of `n` slashes (`'/' * n`). */
  function Slashes(n: nat): string
  {
    seq(n, _ => '/')
  }

  /** `s.lstrip('/')`: `s` without its leading slashes. */
  function LStripSlashes(s: string): (r: string)
    ensures |r| <= |s| && r == s[|s| - |r|..]
    ensures forall i :: 0 <= i < |s| - |r| ==> s[i] == '/'
    ensures r == [] || r[0] != '/'
  {
    if s != [] && s[0] == '/' then LStripSlashes(s[1..]) else s
  }

  /** A string without slashes splits into itself alone. */
  lemma {:induction false} SplitNoSlash(a: string)
    requires '/' !in a
    ensures Split(a) == [a]
  {
    if a != [] {
      SplitNoSlash(a[1..]);
      assert [a[0]] + a[1..] == a;
    }
  }

  /** Splitting a piece followed by a slash yields that piece, then the split of the rest. */
  lemma {:induction false} SplitAfter(a: string, s: string)
    requires '/' !in a
    ensures Split(a + "/" + s) == [a] + Split(s)
  {
    if a == [] {
      assert a + "/" + s == "/" + s;
      assert ("/" + s)[1..] == s;
    } else {
      SplitAfter(a[1..], s);
      assert (a + "/" + s)[1..] == a[1..] + "/" + s;
      assert [a[0]] + a[1..] == a;
    }
  }

  /** Splitting undoes joining, for pieces without slashes. */
  lemma {:induction false} SplitJoin(parts: seq<string>)
    requires |parts| >= 1
    requires forall i :: 0 <= i < |parts| ==> '/' !in parts[i]
    ensures Split(Join(parts)) == parts
  {
    if |parts| == 1 {
      SplitNoSlash(parts[0]);
    } else {
      SplitJoin(parts[1..]);
      SplitAfter(parts[0], Join(parts[1..]));
      assert [parts[0]] + parts[1..] == parts;
    }
  }

  /** Joining undoes splitting. */
  lemma {:induction false} JoinSplit(s: string)
    ensures Join(Split(s)) == s
  {
    if s != [] {
      JoinSplit(s[1..]);
      var rest := Split(s[1..]);
      if s[0] == '/' {
        assert ([""] + rest)[1..] == rest;
        assert "" + "/" + s[1..] == s;
      } else {
        var parts := [[s[0]] + rest[0]] + rest[1..];
        assert parts[1..] == rest[1..];
        if |rest| == 1 {
          assert Join(parts) == [s[0]] + rest[0];
        } else {
          assert Join(parts) == ([s[0]] + rest[0]) + "/" + Join(rest[1..]);
          assert Join(rest) == rest[0] + "/" + Join(rest[1..]);
        }
        assert [s[0]] + s[1..] == s;
      }
    }
  }

  /** A run of `n` slashes in front of `s` splits into `n` empty pieces in front of the split of `s`. */
  lemma {:induction false} SplitSlashes(n: nat, s: string)
    ensures Split(Slashes(n) + s) == seq(n, _ => "") + Split(s)
  {
    if n > 0 {
      SplitSlashes(n - 1, s);
      assert Slashes(n) + s == "/" + (Slashes(n - 1) + s);
      assert ("/" + (Slashes(n - 1) + s))[1..] == Slashes(n - 1) + s;
      assert seq(n, _ => "") == [""] + seq(n - 1, _ => "");
    } else {
      assert Slashes(n) + s == s;
    }
  }

  /** `lstrip('/')` removes exactly a leading run of slashes. */
  lemma {:induction false} LStripSlashesAfter(n: nat, s: string)
    requires s == [] || s[0] != '/'
    ensures LStripSlashes(Slashes(n) + s) == s
  {
    if n > 0 {
      LStripSlashesAfter(n - 1, s);
      assert (Slashes(n) + s)[1..] == Slashes(n - 1) + s;
    } else {
      assert Slashes(n) + s == s;
    }
  }

  // ---------------------------------------------------------------------
  // posixpath.normpath
  // ---------------------------------------------------------------------

  /**
   * The leading slashes `normpath` keeps: none for a relative path, two
   * for a path that starts with exactly two, one otherwise (POSIX gives
   * a leading `//` an implementation-defined meaning).
   */
  function InitialSlashes(path: string): (n: nat)
    ensures n <= 2
    ensures n == 0 <==> (path == [] || path[0] != '/')
    ensures |path| >= 3 && path[0] == '/' && path[1] == '/' && path[2] == '/' ==> n == 1
  {
    if path != [] && path[0] == '/' then
      if |path| >= 2 && path[1] == '/' && !(|path| >= 3 && path[2] == '/') then 2 else 1
    else 0
  }

  /**
   * One turn of normpath's loop over the components: skip empty and `.`
   * components, pop on `..` unless the stack is empty or already ends in
   * `..` (a relative path keeps such a `..`; at the root it is dropped),
   * push anything else.
   */
  function Step(stack: seq<string>, comp: string, rooted: bool): seq<string>
  {
    if comp == "" || comp == "." then stack
    else if comp != ".." || (!rooted && stack == []) || (stack != [] && stack[|stack| - 1] == "..") then
      stack + [comp]
    else if stack != [] then stack[..|stack| - 1]
    else stack
  }

  /** The stack after `Step` has consumed every component of `comps`, starting from `stack`. */
  function ResolveFrom(stack: seq<string>, comps: seq<string>, rooted: bool): seq<string>
    decreases |comps|
  {
    if comps == [] then stack
    else ResolveFrom(Step(stack, comps[0], rooted), comps[1..], rooted)
  }

  /** `posixpath.normpath(path)`. */
  function NormPath(path: string): (r: string)
    ensures r != ""
  {
    if path == "" then "."
    else
      var n := InitialSlashes(path);
      var p := Slashes(n) + Join(ResolveFrom([], Split(path), n > 0));
      if p == "" then "." else p
  }

  /**
   * The loop of `posixpath.normpath`, run over a stack of components as
   * the library does.
   */
  method ComputeNormPath(path: string) returns (r: string)
    ensures r == NormPath(path)
  {
    if path == "" {
      return ".";
    }
    var slashes := InitialSlashes(path);
    var rooted := slashes > 0;
    var comps := Split(path);
    var stack: seq<string> := [];
    var i := 0;
    while i < |comps|
      invariant 0 <= i <= |comps|
      invariant ResolveFrom(stack, comps[i..], rooted) == ResolveFrom([], comps, rooted)
    {
      var comp := comps[i];
      assert comps[i..][1..] == comps[i + 1..];
      if comp == "" || comp == "." {
      } else if comp != ".." || (!rooted && stack == []) || (stack != [] && stack[|stack| - 1] == "..") {
        stack := stack + [comp];
      } else if stack != [] {
        stack := stack[..|stack| - 1];
      }
      i := i + 1;
    }
    assert comps[i..] == [];
    r := Slashes(slashes) + Join(stack);
    if r == "" {
      r := ".";
    }
  }

  // ---------------------------------------------------------------------
  // What normpath's output looks like
  // ---------------------------------------------------------------------

  /**
   * A normalised component stack: no empty, `.` or slash-holding
   * component, any `..` only in a leading run, and none at all under the
   * root.
   */
  predicate Clean(stack: seq<string>, rooted: bool)
  {
    && (forall i :: 0 <= i < |stack| ==> stack[i] != "" && stack[i] != "." && '/' !in stack[i])
    && (forall i, j :: 0 <= i < j < |stack| && stack[j] == ".." ==> stack[i] == "..")
    && (rooted ==> forall i :: 0 <= i < |stack| ==> stack[i] != "..")
  }

  /** One step of the loop keeps a clean stack clean. */
  lemma StepKeepsClean(stack: seq<string>, comp: string, rooted: bool)
    requires Clean(stack, rooted) && '/' !in comp
    ensures Clean(Step(stack, comp, rooted), rooted)
  {
    var next := Step(stack, comp, rooted);
    if comp == ".." && next == stack + [comp] {
      assert stack == [] || (!rooted && stack[|stack| - 1] == "..");
      forall i | 0 <= i < |stack| ensures stack[i] == ".." {
        if i < |stack| - 1 {
          assert stack[|stack| - 1] == "..";
        }
      }
    }
  }

  /** Resolving slash-free components from a clean stack leaves a clean stack. */
  lemma {:induction false} ResolveKeepsClean(stack: seq<string>, comps: seq<string>, rooted: bool)
    requires Clean(stack, rooted)
    requires forall i :: 0 <= i < |comps| ==> '/' !in comps[i]
    ensures Clean(ResolveFrom(stack, comps, rooted), rooted)
    decreases |comps|
  {
    if comps != [] {
      StepKeepsClean(stack, comps[0], rooted);
      ResolveKeepsClean(Step(stack, comps[0], rooted), comps[1..], rooted);
    }
  }

  /** Resolving components that are already clean pushes every one of them. */
  lemma {:induction false} ResolveCleanIsIdentity(stack: seq<string>, comps: seq<string>, rooted: bool)
    requires Clean(stack + comps, rooted)
    ensures ResolveFrom(stack, comps, rooted) == stack + comps
    decreases |comps|
  {
    if comps == [] {
      assert stack + comps == stack;
    } else {
      var all := stack + comps;
      assert all[|stack|] == comps[0];
      if comps[0] == ".." {
        assert !rooted;
        assert stack == [] || all[|stack| - 1] == "..";
      }
      assert Step(stack, comps[0], rooted) == stack + [comps[0]];
      assert (stack + [comps[0]]) + comps[1..] == all;
      ResolveCleanIsIdentity(stack + [comps[0]], comps[1..], rooted);
    }
  }

  /** Leading empty components change nothing. */
  lemma {:induction false} ResolveSkipsEmpties(n: nat, stack: seq<string>, comps: seq<string>, rooted: bool)
    ensures ResolveFrom(stack, seq(n, _ => "") + comps, rooted) == ResolveFrom(stack, comps, rooted)
  {
    if n > 0 {
      var empties := seq(n, _ => "");
      assert (empties + comps)[0] == "";
      assert (empties + comps)[1..] == seq(n - 1, _ => "") + comps;
      ResolveSkipsEmpties(n - 1, stack, comps, rooted);
    } else {
      assert seq(n, _ => "") + comps == comps;
    }
  }

  /** A clean, non-empty stack joins into a string that does not start with a slash. */
  lemma JoinCleanHead(stack: seq<string>, rooted: bool)
    requires Clean(stack, rooted) && stack != []
    ensures Join(stack) != "" && Join(stack)[0] == stack[0][0] && Join(stack)[0] != '/'
  {
    assert stack[0] != "" && '/' !in stack[0];
    assert stack[0][0] in stack[0];
  }

  /** Re-splitting and re-resolving a joined clean stack gives it back. */
  lemma ResolveJoined(stack: seq<string>, rooted: bool)
    requires Clean(stack, rooted)
    ensures ResolveFrom([], Split(Join(stack)), rooted) == stack
  {
    if stack == [] {
      assert Split("") == [""];
      assert Step([], "", rooted) == [];
    } else {
      SplitJoin(stack);
      ResolveCleanIsIdentity([], stack, rooted);
    }
  }

  /** Up to two slashes in front of a string that does not start with one are all kept. */
  lemma InitialSlashesOf(n: nat, s: string)
    requires n <= 2 && (s == [] || s[0] != '/')
    ensures InitialSlashes(Slashes(n) + s) == n
  {
    var p := Slashes(n) + s;
    if n == 1 {
      assert p[0] == '/';
      assert |p| >= 2 ==> p[1] != '/';
    } else if n == 2 {
      assert p[0] == '/' && p[1] == '/';
      assert |p| >= 3 ==> p[2] != '/';
    }
  }

  /** `normpath` is idempotent. */
  lemma NormPathIdempotent(path: string)
    ensures NormPath(NormPath(path)) == NormPath(path)
  {
    var r := NormPath(path);
    if path == "" || Slashes(InitialSlashes(path)) + Join(ResolveFrom([], Split(path), InitialSlashes(path) > 0)) == "" {
      assert r == ".";
      SplitNoSlash(".");
      assert ResolveFrom([], ["."], false) == [];
    } else {
      var n := InitialSlashes(path);
      var comps := Split(path);
      var stack := ResolveFrom([], comps, n > 0);
      ResolveKeepsClean([], comps, n > 0);
      assert r == Slashes(n) + Join(stack);
      if stack != [] {
        JoinCleanHead(stack, n > 0);
      } else {
        assert n > 0;
      }
      InitialSlashesOf(n, Join(stack));
      SplitSlashes(n, Join(stack));
      ResolveSkipsEmpties(n, [], Split(Join(stack)), n > 0);
      ResolveJoined(stack, n > 0);
    }
  }
}
