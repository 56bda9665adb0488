/**
 Cgroup paths as strings (src/common.cpp) and as positions in the cgroup tree.

 The daemon compares paths as text; the kernel's `-m cgroup --path` walks the tree one
 component at a time and skips empty components. The lemmas below relate the two views.
 */
module CgroupPath {
  import opened Prelude

  /** `s.rfind(prefix, 0) == 0` */
  predicate StartWith(s: string, prefix: string)
  {
    prefix <= s
  }

  predicate BelongToCgroup(cg1: string, cg2: string)
  {
    StartWith(cg1 + "/", cg2 + "/")
  }

  predicate BelongsToSome(cg: string, list: seq<string>)
  {
    exists s :: s in list && BelongToCgroup(cg, s)
  }

  /** The overload of belongToCgroup that takes a list. */
  method BelongToAny(cg: string, list: seq<string>) returns (r: bool)
    ensures r <==> BelongsToSome(cg, list)
  {
    for i := 0 to |list|
      invariant forall k :: 0 <= k < i ==> !BelongToCgroup(cg, list[k])
    {
      if StartWith(cg + "/", list[i] + "/") {
        assert list[i] in list && BelongToCgroup(cg, list[i]);
        return true;
      }
    }
    return false;
  }

  predicate ValidCgroupChar(c: char)
  {
    'a' <= c <= 'z' || 'A' <= c <= 'Z' || '0' <= c <= '9' ||
    c == '-' || c == '_' || c == '.' || c == '/' || c == '@'
  }

  predicate ValidCgroup(s: string)
  {
    s != "" && s[0] == '/' && forall c :: c in s ==> ValidCgroupChar(c)
  }

  const LOWER := "abcdefghijklmnopqrstuvwxyz"
  const UPPER := "ABCDEFGHIJKLMNOPQRSTUVWXYZ"
  const DIGITS := "0123456789"

  /** The bracket expression of the pattern, as sets of characters. */
  predicate InAlphabet(c: char)
  {
    c in LOWER || c in UPPER || c in DIGITS || c in "-_./@"
  }

  lemma Alphabet(c: char)
    ensures ValidCgroupChar(c) <==> InAlphabet(c)
  {
    InRun(LOWER, 'a', c);
    InRun(UPPER, 'A', c);
    InRun(DIGITS, '0', c);
  }

  lemma InRun(run: string, first: char, c: char)
    requires |run| > 0 && first as int + |run| <= 0x80
    requires forall i :: 0 <= i < |run| ==> run[i] as int == first as int + i
    ensures c in run <==> first as int <= c as int < first as int + |run|
  {
    if first as int <= c as int < first as int + |run| {
      assert run[c as int - first as int] == c;
    }
  }

  /** The accepted paths: a slash, then any number of characters of the alphabet. */
  lemma ValidCgroupExactly(s: string)
    ensures ValidCgroup(s) <==> s != "" && s[0] == '/' && forall i :: 1 <= i < |s| ==> InAlphabet(s[i])
  {
    forall i | 0 <= i < |s| ensures ValidCgroupChar(s[i]) <==> InAlphabet(s[i]) {
      Alphabet(s[i]);
    }
    if s != "" && s[0] == '/' && forall i :: 1 <= i < |s| ==> InAlphabet(s[i]) {
      forall c | c in s ensures ValidCgroupChar(c) {
        var i :| 0 <= i < |s| && s[i] == c;
        assert i == 0 || ValidCgroupChar(s[i]);
      }
    }
  }

  predicate AllValidCgroups(list: seq<string>)
  {
    forall s :: s in list ==> ValidCgroup(s)
  }

  /** The overload of validCgroup that takes a list. */
  method ValidCgroups(list: seq<string>) returns (r: bool)
    ensures r <==> AllValidCgroups(list)
  {
    for i := 0 to |list|
      invariant forall k :: 0 <= k < i ==> ValidCgroup(list[k])
    {
      if !ValidCgroup(list[i]) {
        return false;
      }
    }
    return true;
  }

  /** The pieces between slashes, empty ones kept: "/a" gives ["", "a"]. */
  function Components(s: string): (cs: seq<string>)
    ensures |cs| >= 1
  {
    if s == "" then [""]
    else
      var rest := Components(s[1..]);
      if s[0] == '/' then [""] + rest else [[s[0]] + rest[0]] + rest[1..]
  }

  lemma PrefixCons<T>(x: T, xs: seq<T>, y: T, ys: seq<T>)
    ensures [x] + xs <= [y] + ys <==> x == y && xs <= ys
  {
    var s, t := [x] + xs, [y] + ys;
    if s <= t {
      assert s[0] == t[0];
      forall j | 0 <= j < |xs| ensures xs[j] == ys[j] {
        assert s[j + 1] == t[j + 1];
      }
    }
  }

  /** Textual membership is the prefix order on component lists, for all strings. */
  lemma {:induction false} BelongIsComponentPrefix(a: string, b: string)
    ensures BelongToCgroup(a, b) <==> Components(b) <= Components(a)
  {
    if a == "" || b == "" || a[0] != b[0] {
      assert (a + "/")[0] == if a == "" then '/' else a[0];
      assert (b + "/")[0] == if b == "" then '/' else b[0];
      if b == "" {
        assert Components(b) <= Components(a) <==> Components(a)[0] == "";
      } else if b[0] == '/' {
        assert Components(b)[0] == "" && |Components(b)| >= 2;
      } else {
        assert Components(b)[0] != "";
        assert Components(b)[0][0] == b[0];
        assert a != "" && a[0] != '/' ==> Components(a)[0][0] == a[0];
      }
    } else {
      var a', b' := a[1..], b[1..];
      BelongIsComponentPrefix(a', b');
      assert a + "/" == [a[0]] + (a' + "/") && b + "/" == [b[0]] + (b' + "/");
      PrefixCons(b[0], b' + "/", a[0], a' + "/");
      var ca, cb := Components(a'), Components(b');
      if a[0] == '/' {
        PrefixCons("", cb, "", ca);
      } else {
        var ha, hb := [a[0]] + ca[0], [b[0]] + cb[0];
        assert ha == hb <==> ca[0] == cb[0] by {
          assert ha[1..] == ca[0] && hb[1..] == cb[0];
        }
        assert ca == [ca[0]] + ca[1..] && cb == [cb[0]] + cb[1..];
        PrefixCons(cb[0], cb[1..], ca[0], ca[1..]);
        PrefixCons(hb, cb[1..], ha, ca[1..]);
      }
    }
  }

  /** Membership is a partial order in which any two ancestors of one cgroup are comparable. */
  lemma BelongIsTreeOrder(a: string, b: string, c: string)
    ensures BelongToCgroup(a, a)
    ensures BelongToCgroup(a, b) && BelongToCgroup(b, c) ==> BelongToCgroup(a, c)
    ensures BelongToCgroup(a, b) && BelongToCgroup(b, a) ==> a == b
    ensures BelongToCgroup(c, a) && BelongToCgroup(c, b) ==> BelongToCgroup(a, b) || BelongToCgroup(b, a)
  {
    assert a == (a + "/")[..|a|] && b == (b + "/")[..|b|];
  }

  // ---- The kernel's view -------------------------------------------------------------------

  function NonEmpty(cs: seq<string>): (r: seq<string>)
    ensures "" !in r
  {
    if cs == [] then []
    else (if cs[0] == "" then [] else [cs[0]]) + NonEmpty(cs[1..])
  }

  /** The tree position that the kernel's path walk reaches: empty components are skipped. */
  function KernelPath(s: string): (r: seq<string>)
  {
    NonEmpty(Components(s))
  }

  lemma {:induction false} NonEmptyPrefix(a: seq<string>, b: seq<string>)
    requires a <= b
    ensures NonEmpty(a) <= NonEmpty(b)
  {
    if a != [] {
      assert a[1..] <= b[1..];
      NonEmptyPrefix(a[1..], b[1..]);
    }
  }

  /** Whatever the daemon takes to be inside a cgroup, the packet filter does too. */
  lemma BelongImpliesKernelMatch(cg: string, entry: string)
    requires BelongToCgroup(cg, entry)
    ensures KernelPath(entry) <= KernelPath(cg)
  {
    BelongIsComponentPrefix(cg, entry);
    NonEmptyPrefix(Components(entry), Components(cg));
  }

  /** The text of a tree position, as /proc/PID/cgroup prints it. */
  function PathString(cs: seq<string>): (s: string)
  {
    if cs == [] then "" else "/" + cs[0] + PathString(cs[1..])
  }

  predicate Canonical(cs: seq<string>)
  {
    forall i :: 0 <= i < |cs| ==> cs[i] != "" && '/' !in cs[i]
  }

  lemma {:induction false} ComponentsOfHead(c: string, s: string)
    requires '/' !in c
    ensures Components(c + s) == [c + Components(s)[0]] + Components(s)[1..]
  {
    if c == "" {
      assert c + s == s && c + Components(s)[0] == Components(s)[0];
    } else {
      ComponentsOfHead(c[1..], s);
      assert (c + s)[0] == c[0] && (c + s)[1..] == c[1..] + s;
      assert c == [c[0]] + c[1..];
      assert [c[0]] + (c[1..] + Components(s)[0]) == c + Components(s)[0];
    }
  }

  lemma {:induction false} ComponentsOfPath(cs: seq<string>)
    requires Canonical(cs)
    ensures Components(PathString(cs)) == [""] + cs
  {
    if cs != [] {
      var tail := PathString(cs[1..]);
      ComponentsOfPath(cs[1..]);
      ComponentsOfHead(cs[0], tail);
      assert PathString(cs) == "/" + (cs[0] + tail);
      assert ("/" + (cs[0] + tail))[1..] == cs[0] + tail;
      assert cs[0] + "" == cs[0];
      assert [""] + cs[1..] == Components(tail);
      assert Components(cs[0] + tail) == [cs[0]] + cs[1..] == cs;
    }
  }

  lemma {:induction false} NonEmptyKeeps(cs: seq<string>)
    requires "" !in cs
    ensures NonEmpty(cs) == cs
  {
    if cs != [] {
      assert "" !in cs[1..];
      NonEmptyKeeps(cs[1..]);
    }
  }

  /**
   For canonical paths the two views agree, except on the root: "/" is above nothing in the
   daemon's text comparison, while the kernel's root match covers every process.
   */
  lemma TextAgreesWithKernel(cg: seq<string>, entry: seq<string>)
    requires Canonical(cg) && Canonical(entry) && cg != []
    ensures KernelPath(PathString(cg)) == cg
    ensures entry != [] ==>
      (BelongToCgroup(PathString(cg), PathString(entry)) <==>
       KernelPath(PathString(entry)) <= KernelPath(PathString(cg)))
    ensures !BelongToCgroup(PathString(cg), "/") && KernelPath("/") <= KernelPath(PathString(cg))
  {
    ComponentsOfPath(cg);
    ComponentsOfPath(entry);
    NonEmptyKeeps(cg);
    NonEmptyKeeps(entry);
    assert ([""] + cg)[1..] == cg && ([""] + entry)[1..] == entry;
    BelongIsComponentPrefix(PathString(cg), PathString(entry));
    PrefixCons("", entry, "", cg);
    BelongIsComponentPrefix(PathString(cg), "/");
    assert Components("") == [""] && "/"[1..] == "";
    assert Components("/") == ["", ""];
    assert NonEmpty(["", ""]) == [] by {
      assert ["", ""][1..] == [""] && [""][1..] == [];
      assert NonEmpty([""]) == [];
    }
    assert ([""] + cg)[1] == cg[0];
  }

  // ---- /proc/PID/cgroup ----------------------------------------------------------------------------

  predicate StartsWithZero(line: string)
  {
    line != "" && line[0] == '0'
  }

  /** The lines of one process: the unified hierarchy has number 0 and no controllers. */
  predicate UnifiedAt(lines: seq<string>, i: nat, path: string)
  {
    i < |lines| && lines[i] == "0::" + path && forall j :: 0 <= j < |lines| && j != i ==> !StartsWithZero(lines[j])
  }

  /**
   The line scan of getCgroup; None where `substr(3)` throws. On a file with one unified line it
   returns that line's path wherever the line stands.
   */
  method GetCgroup(lines: seq<string>) returns (cgroup: Option<string>)
    ensures forall i: nat, path :: UnifiedAt(lines, i, path) ==> cgroup == Some(path)
    ensures (forall j :: 0 <= j < |lines| ==> !StartsWithZero(lines[j])) ==> cgroup == Some("")
  {
    for n := 0 to |lines|
      invariant forall j :: 0 <= j < n ==> !StartsWithZero(lines[j])
    {
      if StartsWithZero(lines[n]) {
        if |lines[n]| < 3 {
          return None;
        }
        assert forall path: string :: ("0::" + path)[3..] == path;
        return Some(lines[n][3..]);
      }
    }
    return Some("");
  }
}
