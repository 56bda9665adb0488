/**
 How a list of cgroups travels from the daemon to the packet filter: the daemon joins it into
 an environment variable (src/common.cpp), the script splits it, drops what does not exist,
 joins the rest with spaces and splits once more (cgroup-tproxy.sh).
 */
module Transport {
  import opened Prelude
  import opened CgroupPath

  // ---- Joining -----------------------------------------------------------------------------

  /** One pass of the vector join: a delimiter follows every element that differs from `last`. */
  function JoinUnless(v: seq<string>, last: string, delim: char): (s: string)
  {
    if v == [] then ""
    else (if v[0] != last then v[0] + [delim] else v[0]) + JoinUnless(v[1..], last, delim)
  }

  function VectorJoin(v: seq<string>, delim: char): (s: string)
  {
    if v == [] then "" else JoinUnless(v, v[|v| - 1], delim)
  }

  /** The textbook join: a delimiter between neighbours, decided by position. */
  function IndexJoin(v: seq<string>, delim: char): (s: string)
  {
    if v == [] then ""
    else if |v| == 1 then v[0]
    else v[0] + [delim] + IndexJoin(v[1..], delim)
  }

  lemma {:induction false} JoinUnlessAppend(a: seq<string>, b: seq<string>, last: string, delim: char)
    ensures JoinUnless(a + b, last, delim) == JoinUnless(a, last, delim) + JoinUnless(b, last, delim)
  {
    if a == [] {
      assert a + b == b;
    } else {
      assert (a + b)[1..] == a[1..] + b;
      JoinUnlessAppend(a[1..], b, last, delim);
    }
  }

  lemma {:induction false} IndexJoinAppend(a: seq<string>, b: seq<string>, delim: char)
    requires a != [] && b != []
    ensures IndexJoin(a + b, delim) == IndexJoin(a, delim) + [delim] + IndexJoin(b, delim)
  {
    assert (a + b)[1..] == a[1..] + b;
    if |a| > 1 {
      IndexJoinAppend(a[1..], b, delim);
    }
  }

  /** join2str over a vector. */
  method Join2Str(t: seq<string>, delim: char) returns (s: string)
    ensures s == VectorJoin(t, delim)
  {
    s := "";
    for i := 0 to |t|
      invariant t != [] ==> s == JoinUnless(t[..i], t[|t| - 1], delim)
      invariant t == [] ==> s == ""
    {
      var e, last := t[i], t[|t| - 1];
      JoinUnlessAppend(t[..i], [e], last, delim);
      assert t[..i + 1] == t[..i] + [e];
      if e != last {
        s := s + (e + [delim]);
      } else {
        s := s + e;
      }
      assert JoinUnless([e], last, delim) == (if e != last then e + [delim] else e) + JoinUnless([], last, delim);
    }
    assert t[..|t|] == t;
  }

  /** join2str over argc/argv. */
  method Join2StrArgs(argv: seq<string>, delim: char) returns (s: string)
    ensures s == IndexJoin(argv, delim)
  {
    s := "";
    for i := 0 to |argv|
      invariant s == IndexJoin(argv[..i], delim) + (if 0 < i < |argv| then [delim] else [])
    {
      assert argv[..i + 1] == argv[..i] + [argv[i]];
      if i > 0 {
        IndexJoinAppend(argv[..i], [argv[i]], delim);
      }
      s := s + argv[i];
      if i != |argv| - 1 {
        s := s + [delim];
      }
    }
    assert argv[..|argv|] == argv;
  }

  function Count<T(==)>(x: T, v: seq<T>): (n: nat)
  {
    if v == [] then 0 else (if v[0] == x then 1 else 0) + Count(x, v[1..])
  }

  lemma {:induction false} CountAppend<T>(x: T, a: seq<T>, b: seq<T>)
    ensures Count(x, a + b) == Count(x, a) + Count(x, b)
  {
    if a == [] {
      assert a + b == b;
    } else {
      assert (a + b)[1..] == a[1..] + b;
      CountAppend(x, a[1..], b);
    }
  }

  lemma {:induction false} CountZero<T>(x: T, v: seq<T>)
    ensures Count(x, v) == 0 <==> x !in v
  {
    if v != [] {
      CountZero(x, v[1..]);
      assert v == [v[0]] + v[1..];
    }
  }

  lemma {:induction false} IndexJoinLength(v: seq<string>, last: string, delim: char)
    requires v != [] && v[|v| - 1] == last
    ensures |IndexJoin(v, delim)| == |JoinUnless(v, last, delim)| + Count(last, v[..|v| - 1])
  {
    if |v| > 1 {
      IndexJoinLength(v[1..], last, delim);
      assert v[..|v| - 1][1..] == v[1..][..|v| - 2];
    } else {
      assert JoinUnless(v, last, delim) == v[0] + JoinUnless(v[1..], last, delim) == v[0] + "";
    }
  }

  /**
   Comparing values instead of positions costs exactly one delimiter for every earlier
   occurrence of the last value.
   */
  lemma VectorJoinLosesDelimiters(v: seq<string>, delim: char)
    requires v != []
    ensures |IndexJoin(v, delim)| - |VectorJoin(v, delim)| == Count(v[|v| - 1], v[..|v| - 1])
  {
    IndexJoinLength(v, v[|v| - 1], delim);
  }

  /** The last value does not occur earlier. */
  predicate LastIsUnique(v: seq<string>)
  {
    v == [] || v[|v| - 1] !in v[..|v| - 1]
  }

  lemma {:induction false} FaithfulJoinUnless(v: seq<string>, last: string, delim: char)
    requires v != [] && v[|v| - 1] == last && last !in v[..|v| - 1]
    ensures JoinUnless(v, last, delim) == IndexJoin(v, delim)
  {
    if |v| > 1 {
      assert v[0] == v[..|v| - 1][0];
      assert v[1..][..|v| - 2] == v[..|v| - 1][1..];
      FaithfulJoinUnless(v[1..], last, delim);
    } else {
      assert v[0] + JoinUnless([], last, delim) == v[0];
    }
  }

  // ---- Splitting: IFS=':' read -r -a ---------------------------------------------------------

  /** The text before the first `c`, or all of it. */
  function UpTo(s: string, c: char): (r: string)
    ensures r <= s && c !in r && (|r| < |s| ==> s[|r|] == c)
  {
    if s == "" || s[0] == c then "" else [s[0]] + UpTo(s[1..], c)
  }

  /** Each delimiter ends a field; what follows the last one is a field only when not empty. */
  function ReadFields(s: string, delim: char): (r: seq<string>)
    decreases |s|
  {
    if s == "" then []
    else
      var f := UpTo(s, delim);
      if |f| == |s| then [f] else [f] + ReadFields(s[|f| + 1..], delim)
  }

  lemma {:induction false} UpToAbsent(s: string, c: char)
    requires c !in s
    ensures UpTo(s, c) == s
  {
    if s != "" {
      assert s == [s[0]] + s[1..] && s[0] in s;
      UpToAbsent(s[1..], c);
    }
  }

  lemma {:induction false} UpToDelimited(f: string, c: char, rest: string)
    requires c !in f
    ensures UpTo(f + [c] + rest, c) == f
  {
    if f != "" {
      assert f == [f[0]] + f[1..];
      assert (f + [c] + rest)[1..] == f[1..] + [c] + rest;
      UpToDelimited(f[1..], c, rest);
    }
  }

  lemma ReadDelimited(f: string, delim: char, rest: string)
    requires delim !in f
    ensures ReadFields(f + [delim] + rest, delim) == [f] + ReadFields(rest, delim)
  {
    var s := f + [delim] + rest;
    UpToDelimited(f, delim, rest);
    assert s[|f| + 1..] == rest;
  }

  predicate Undelimited(v: seq<string>, delim: char)
  {
    forall i :: 0 <= i < |v| ==> v[i] != "" && delim !in v[i]
  }

  lemma {:induction false} ReadOfIndexJoin(v: seq<string>, delim: char)
    requires Undelimited(v, delim)
    ensures ReadFields(IndexJoin(v, delim), delim) == v
  {
    if |v| == 1 {
      UpToAbsent(v[0], delim);
    } else if |v| > 1 {
      ReadOfIndexJoin(v[1..], delim);
      ReadDelimited(v[0], delim, IndexJoin(v[1..], delim));
    }
  }

  lemma {:induction false} FieldsAreFew(s: string, delim: char)
    ensures |ReadFields(s, delim)| <= Count(delim, s) + 1
    decreases |s|
  {
    if s != "" {
      var f := UpTo(s, delim);
      if |f| < |s| {
        FieldsAreFew(s[|f| + 1..], delim);
        assert s == (f + [delim]) + s[|f| + 1..];
        CountAppend(delim, f + [delim], s[|f| + 1..]);
        CountAppend(delim, f, [delim]);
        assert Count(delim, [delim]) == 1;
      }
    }
  }

  lemma {:induction false} DelimitersInJoin(v: seq<string>, last: string, delim: char)
    requires Undelimited(v, delim)
    ensures Count(delim, JoinUnless(v, last, delim)) + Count(last, v) == |v|
  {
    if v != [] {
      DelimitersInJoin(v[1..], last, delim);
      var head := if v[0] != last then v[0] + [delim] else v[0];
      CountAppend(delim, head, JoinUnless(v[1..], last, delim));
      CountZero(delim, v[0]);
      CountAppend(delim, v[0], [delim]);
      assert Count(delim, [delim]) == 1;
    }
  }

  lemma RepeatedLastCountsTwice(v: seq<string>)
    requires !LastIsUnique(v)
    ensures Count(v[|v| - 1], v) >= 2
  {
    var init, last := v[..|v| - 1], v[|v| - 1];
    assert v == init + [last];
    CountAppend(last, init, [last]);
    CountZero(last, init);
    CountZero(last, [last]);
  }

  lemma UnfaithfulJoinLosesFields(v: seq<string>, delim: char)
    requires Undelimited(v, delim) && !LastIsUnique(v)
    ensures |ReadFields(VectorJoin(v, delim), delim)| < |v|
  {
    var last, text := v[|v| - 1], VectorJoin(v, delim);
    assert Count(delim, text) <= |v| - 2 by {
      DelimitersInJoin(v, last, delim);
      RepeatedLastCountsTwice(v);
    }
    FieldsAreFew(text, delim);
  }

  /**
   The script's split recovers the daemon's list exactly when the last value does not occur
   earlier in the list.
   */
  lemma JoinRoundTrip(v: seq<string>, delim: char)
    requires Undelimited(v, delim)
    ensures ReadFields(VectorJoin(v, delim), delim) == v <==> LastIsUnique(v)
  {
    if v != [] && LastIsUnique(v) {
      FaithfulJoinUnless(v, v[|v| - 1], delim);
      ReadOfIndexJoin(v, delim);
    } else if v != [] {
      UnfaithfulJoinLosesFields(v, delim);
    }
  }

  // ---- Word splitting ------------------------------------------------------------------------

  predicate Blank(c: char)
  {
    c == ' ' || c == '\t' || c == '\n'
  }

  predicate NoBlank(s: string)
  {
    forall c :: c in s ==> !Blank(c)
  }

  predicate CleanWords(v: seq<string>)
  {
    forall i :: 0 <= i < |v| ==> v[i] != "" && NoBlank(v[i])
  }

  function FirstWord(s: string): (w: string)
    ensures w <= s && NoBlank(w) && (|w| < |s| ==> Blank(s[|w|]))
    ensures s != "" && !Blank(s[0]) ==> w != ""
  {
    if s == "" || Blank(s[0]) then "" else [s[0]] + FirstWord(s[1..])
  }

  /** An unquoted expansion under the default IFS: maximal runs of non-blank characters. */
  function Words(s: string): (r: seq<string>)
    decreases |s|
  {
    if s == "" then []
    else if Blank(s[0]) then Words(s[1..])
    else [FirstWord(s)] + Words(s[|FirstWord(s)|..])
  }

  lemma {:induction false} FirstWordOf(w: string, rest: string)
    requires NoBlank(w) && (rest == "" || Blank(rest[0]))
    ensures FirstWord(w + rest) == w
  {
    if w == "" {
      assert w + rest == rest;
    } else {
      assert w == [w[0]] + w[1..];
      assert (w + rest)[1..] == w[1..] + rest;
      FirstWordOf(w[1..], rest);
    }
  }

  lemma WordThenRest(w: string, rest: string)
    requires w != "" && NoBlank(w) && (rest == "" || Blank(rest[0]))
    ensures Words(w + rest) == [w] + Words(rest)
  {
    FirstWordOf(w, rest);
    assert (w + rest)[0] == w[0] && w[0] in w;
    assert (w + rest)[|w|..] == rest;
  }

  lemma {:induction false} WordsOfIndexJoin(v: seq<string>)
    requires CleanWords(v)
    ensures Words(IndexJoin(v, ' ')) == v
  {
    if |v| == 1 {
      WordThenRest(v[0], "");
      assert v[0] + "" == v[0];
    } else if |v| > 1 {
      WordsOfIndexJoin(v[1..]);
      var rest := [' '] + IndexJoin(v[1..], ' ');
      assert rest[1..] == IndexJoin(v[1..], ' ');
      WordThenRest(v[0], rest);
      assert v[0] + [' '] + IndexJoin(v[1..], ' ') == v[0] + rest;
    }
  }

  /** `for x in ${array[@]}`: every element is split into words. */
  function ExpandWords(v: seq<string>): (r: seq<string>)
  {
    if v == [] then [] else Words(v[0]) + ExpandWords(v[1..])
  }

  lemma {:induction false} ExpandClean(v: seq<string>)
    requires CleanWords(v)
    ensures ExpandWords(v) == v
  {
    if v != [] {
      WordThenRest(v[0], "");
      assert v[0] + "" == v[0];
      ExpandClean(v[1..]);
    }
  }

  // ---- The script's list pipeline --------------------------------------------------------------

  /** A bash variable after the script's prologue: the built-in scalar or an array read from the environment. */
  function ReadList(env: Option<string>, default: string): (entries: seq<string>)
  {
    match env
    case None => [default]
    case Some(text) => ReadFields(UpTo(text, '\n'), ':')
  }

  /** The entries for which `test -d` succeeds, in order. */
  function KeepExisting(entries: seq<string>, dirs: set<string>): (r: seq<string>)
    ensures forall e :: e in r <==> e in entries && e in dirs
  {
    if entries == [] then []
    else (if entries[0] in dirs then [entries[0]] else []) + KeepExisting(entries[1..], dirs)
  }

  lemma {:induction false} KeepExistingAppend(a: seq<string>, b: seq<string>, dirs: set<string>)
    ensures KeepExisting(a + b, dirs) == KeepExisting(a, dirs) + KeepExisting(b, dirs)
  {
    if a == [] {
      assert a + b == b;
    } else {
      assert (a + b)[1..] == a[1..] + b;
      KeepExistingAppend(a[1..], b, dirs);
    }
  }

  /** What the rule loops iterate over: `${list[@]}` after the filter has made it a scalar. */
  function RuleEntries(entries: seq<string>, dirs: set<string>): (r: seq<string>)
  {
    Words(IndexJoin(KeepExisting(ExpandWords(entries), dirs), ' '))
  }

  /** The filter loop and the assignment of its result to a scalar. */
  method FilterExisting(entries: seq<string>, dirs: set<string>) returns (scalar: string)
    ensures scalar == IndexJoin(KeepExisting(ExpandWords(entries), dirs), ' ')
  {
    var kept: seq<string> := [];
    var words := ExpandWords(entries);
    for i := 0 to |words|
      invariant kept == KeepExisting(words[..i], dirs)
    {
      KeepExistingAppend(words[..i], [words[i]], dirs);
      assert words[..i + 1] == words[..i] + [words[i]];
      if words[i] in dirs {
        kept := kept + [words[i]];
      }
    }
    assert words[..|words|] == words;
    scalar := Join2StrArgs(kept, ' ');
  }

  // ---- Valid cgroups ---------------------------------------------------------------------------

  lemma ValidCgroupIsClean(s: string)
    requires ValidCgroup(s)
    ensures s != "" && ':' !in s && NoBlank(s) && '\n' !in s
  {
    assert forall c :: c in s ==> ValidCgroupChar(c) && c != ':' && !Blank(c);
  }

  predicate PlainChars(s: string)
  {
    forall c :: c in s ==> ValidCgroupChar(c) || c == ':'
  }

  lemma {:induction false} JoinIsPlain(v: seq<string>, last: string)
    requires AllValidCgroups(v)
    ensures PlainChars(JoinUnless(v, last, ':'))
  {
    if v != [] {
      assert v[0] in v && forall e :: e in v[1..] ==> e in v;
      JoinIsPlain(v[1..], last);
    }
  }

  /** The environment value that toEnv exports for a list, as the script reads it back. */
  function Received(v: seq<string>): (r: seq<string>)
  {
    ReadList(Some(VectorJoin(v, ':')), "")
  }

  lemma ReceivedReadsAll(v: seq<string>)
    requires AllValidCgroups(v)
    ensures Received(v) == ReadFields(VectorJoin(v, ':'), ':')
    ensures PlainChars(VectorJoin(v, ':'))
  {
    if v != [] {
      JoinIsPlain(v, v[|v| - 1]);
    }
    var text := VectorJoin(v, ':');
    assert '\n' !in text;
    UpToAbsent(text, '\n');
  }

  lemma ValidCgroupsAreClean(v: seq<string>)
    requires AllValidCgroups(v)
    ensures Undelimited(v, ':') && CleanWords(v)
  {
    forall i | 0 <= i < |v| ensures v[i] != "" && ':' !in v[i] && NoBlank(v[i]) {
      ValidCgroupIsClean(v[i]);
    }
  }

  /**
   The whole journey of a list of valid cgroups. The script receives the daemon's list iff
   its last value does not occur earlier, and then exactly the existing entries reach the
   rules, in order.
   */
  lemma ListTransport(v: seq<string>, dirs: set<string>)
    requires AllValidCgroups(v)
    ensures Received(v) == v <==> LastIsUnique(v)
    ensures LastIsUnique(v) ==> RuleEntries(Received(v), dirs) == KeepExisting(v, dirs)
  {
    ValidCgroupsAreClean(v);
    ReceivedReadsAll(v);
    JoinRoundTrip(v, ':');
    if LastIsUnique(v) {
      ExpandClean(v);
      RuleEntriesAreKept(v, dirs);
    }
  }

  // ---- What arrives of a list ------------------------------------------------------------------

  /** The text that the run of last values just before position `j` adds to the entry at `j`. */
  function RunBefore(v: seq<string>, j: nat): (s: string)
    requires j <= |v|
  {
    if j > 0 && v[j - 1] == v[|v| - 1] then RunBefore(v, j - 1) + v[j - 1] else ""
  }

  /** A field ends at every entry that differs from the last value, and at the last entry. */
  predicate Ends(v: seq<string>, j: nat)
    requires j < |v|
  {
    v[j] != v[|v| - 1] || j == |v| - 1
  }

  function Glued(v: seq<string>, j: nat): (s: string)
    requires j < |v|
  {
    RunBefore(v, j) + v[j]
  }

  function FieldsFrom(v: seq<string>, i: nat): (r: seq<string>)
    requires i <= |v|
    decreases |v| - i
  {
    if i == |v| then []
    else if Ends(v, i) then [Glued(v, i)] + FieldsFrom(v, i + 1)
    else FieldsFrom(v, i + 1)
  }

  /** The entry is one of the fields: some entry of the list with the last values before it glued on. */
  predicate Arrives(v: seq<string>, e: string)
  {
    exists j :: 0 <= j < |v| && Ends(v, j) && e == Glued(v, j)
  }

  lemma RunIsClean(v: seq<string>, j: nat)
    requires AllValidCgroups(v) && j <= |v|
    ensures ':' !in RunBefore(v, j) && NoBlank(RunBefore(v, j))
  {
    if j > 0 && v[j - 1] == v[|v| - 1] {
      RunIsClean(v, j - 1);
      ValidCgroupIsClean(v[j - 1]);
    }
  }

  lemma FieldIsClean(v: seq<string>, j: nat)
    requires AllValidCgroups(v) && j < |v|
    ensures Glued(v, j) != "" && ':' !in Glued(v, j) && NoBlank(Glued(v, j))
  {
    RunIsClean(v, j);
    ValidCgroupIsClean(v[j]);
  }

  /** What is left to read when the fields before position `i` have been read. */
  function Unread(v: seq<string>, i: nat): (s: string)
    requires i < |v|
  {
    RunBefore(v, i) + JoinUnless(v[i..], v[|v| - 1], ':')
  }

  lemma UnreadNext(v: seq<string>, i: nat)
    requires i < |v|
    ensures i == |v| - 1 ==> Unread(v, i) == Glued(v, i)
    ensures i < |v| - 1 && v[i] == v[|v| - 1] ==> Unread(v, i) == Unread(v, i + 1)
    ensures v[i] != v[|v| - 1] ==> Unread(v, i) == Glued(v, i) + [':'] + Unread(v, i + 1)
  {
    var last, run := v[|v| - 1], RunBefore(v, i);
    var rest := JoinUnless(v[i + 1..], last, ':');
    assert v[i..][0] == v[i] && v[i..][1..] == v[i + 1..];
    if i == |v| - 1 {
      assert v[i + 1..] == [] && run + (v[i] + "") == Glued(v, i);
    } else if v[i] == last {
      assert run + (v[i] + rest) == (run + v[i]) + rest;
    } else {
      assert run + (v[i] + [':'] + rest) == Glued(v, i) + [':'] + rest && "" + rest == rest;
    }
  }

  lemma {:induction false} FieldsReadBack(v: seq<string>, i: nat)
    requires AllValidCgroups(v) && i < |v|
    ensures ReadFields(Unread(v, i), ':') == FieldsFrom(v, i)
    decreases |v| - i
  {
    FieldIsClean(v, i);
    UnreadNext(v, i);
    if i == |v| - 1 {
      UpToAbsent(Glued(v, i), ':');
    } else {
      FieldsReadBack(v, i + 1);
      if v[i] != v[|v| - 1] {
        ReadDelimited(Glued(v, i), ':', Unread(v, i + 1));
      }
    }
  }

  lemma {:induction false} FieldsAre(v: seq<string>, i: nat, e: string)
    requires i <= |v|
    ensures e in FieldsFrom(v, i) <==> exists j :: i <= j < |v| && Ends(v, j) && e == Glued(v, j)
    decreases |v| - i
  {
    if i < |v| {
      FieldsAre(v, i + 1, e);
    }
  }

  /**
   What the script receives of any list of valid cgroups: its entries in order, each earlier
   occurrence of the last value glued to the front of its successor.
   */
  lemma ReceivedFields(v: seq<string>)
    requires AllValidCgroups(v)
    ensures Received(v) == FieldsFrom(v, 0)
    ensures forall e :: e in Received(v) <==> Arrives(v, e)
  {
    ReceivedReadsAll(v);
    if v != [] {
      FieldsReadBack(v, 0);
      assert v[0..] == v && "" + VectorJoin(v, ':') == VectorJoin(v, ':');
    }
    forall e ensures e in FieldsFrom(v, 0) <==> Arrives(v, e) {
      FieldsAre(v, 0, e);
    }
  }

  /** Which entries get a rule: exactly the fields that exist. */
  lemma ArrivingEntries(v: seq<string>, dirs: set<string>)
    requires AllValidCgroups(v)
    ensures forall e :: e in RuleEntries(Received(v), dirs) <==> Arrives(v, e) && e in dirs
    ensures LastIsUnique(v) ==> forall e :: Arrives(v, e) <==> e in v
  {
    var r := Received(v);
    ReceivedFields(v);
    forall i | 0 <= i < |r| ensures r[i] != "" && NoBlank(r[i]) {
      assert r[i] in r;
      var j :| 0 <= j < |v| && Ends(v, j) && r[i] == Glued(v, j);
      FieldIsClean(v, j);
    }
    ExpandClean(r);
    RuleEntriesAreKept(r, dirs);
    ListTransport(v, dirs);
  }

  lemma {:induction false} ExpandKeepsMember(v: seq<string>, e: string)
    requires e in v && e != "" && NoBlank(e)
    ensures e in ExpandWords(v)
  {
    if v[0] == e {
      WordThenRest(e, "");
      assert e + "" == e;
      assert e in Words(e);
    } else {
      assert e in v[1..];
      ExpandKeepsMember(v[1..], e);
    }
  }

  lemma {:induction false} WordsAreClean(s: string)
    ensures forall w :: w in Words(s) ==> w != "" && NoBlank(w)
    decreases |s|
  {
    if s != "" {
      if Blank(s[0]) {
        WordsAreClean(s[1..]);
      } else {
        WordsAreClean(s[|FirstWord(s)|..]);
      }
    }
  }

  lemma {:induction false} ExpandedAreClean(v: seq<string>)
    ensures forall w :: w in ExpandWords(v) ==> w != "" && NoBlank(w)
  {
    if v != [] {
      WordsAreClean(v[0]);
      ExpandedAreClean(v[1..]);
    }
  }

  /** The second split changes nothing: the rule loops see the filtered words. */
  lemma RuleEntriesAreKept(entries: seq<string>, dirs: set<string>)
    ensures RuleEntries(entries, dirs) == KeepExisting(ExpandWords(entries), dirs)
  {
    ExpandedAreClean(entries);
    var kept := KeepExisting(ExpandWords(entries), dirs);
    forall i | 0 <= i < |kept| ensures kept[i] != "" && NoBlank(kept[i]) {
      assert kept[i] in kept;
    }
    WordsOfIndexJoin(kept);
  }

  /**
   A head that occurs once reaches the rules whenever its directory exists, even when the
   join has lost delimiters further on.
   */
  lemma HeadSurvives(v: seq<string>, dirs: set<string>)
    requires AllValidCgroups(v) && v != [] && v[0] !in v[1..] && v[0] in dirs
    ensures Received(v) != [] && Received(v)[0] == v[0]
    ensures v[0] in RuleEntries(Received(v), dirs)
  {
    var last := v[|v| - 1];
    var text := VectorJoin(v, ':');
    ValidCgroupIsClean(v[0]);
    ReceivedReadsAll(v);
    if |v| == 1 {
      assert v[1..] == [] && JoinUnless(v[1..], last, ':') == "";
      assert text == v[0];
      UpToAbsent(text, ':');
    } else {
      assert last == v[1..][|v| - 2] && last in v[1..];
      ReadDelimited(v[0], ':', JoinUnless(v[1..], last, ':'));
    }
    ExpandKeepsMember(Received(v), v[0]);
    RuleEntriesAreKept(Received(v), dirs);
  }
}
