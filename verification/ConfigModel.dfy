/**
 The daemon's configuration (src/config.cpp): messages are validated as a whole, laid over the
 current values field by field, and normalised.

 A message is a map from key to value; its text form belongs to the JSON library.
 */
module ConfigModel {
  import opened Prelude
  import opened CgroupPath

  // ---- Messages ------------------------------------------------------------------------------------

  datatype Key =
    | ProgramProxy | ProgramNoproxy | CgroupProxy | CgroupNoproxy
    | EnableGateway | Port | EnableDns | EnableTcp | EnableUdp | EnableIpv4 | EnableIpv6
    | TableKey | Fwmark | MarkNewin | Comment
    | UnknownKey(name: string)

  datatype Json = JBool(b: bool) | JInt(n: int) | JString(s: string) | JArray(elems: seq<Json>) | JOther

  type Message = map<Key, Json>

  /** Conversion to a 32-bit int. */
  function Wrap32(n: int): (r: int)
    ensures -0x8000_0000 <= r < 0x8000_0000
    ensures (n - r) % 0x1_0000_0000 == 0
    ensures -0x8000_0000 <= n < 0x8000_0000 ==> r == n
  {
    (n + 0x8000_0000) % 0x1_0000_0000 - 0x8000_0000
  }

  /** The library converts booleans to int as well. */
  function AsInt(j: Json): (r: Option<int>)
  {
    match j
    case JInt(n) => Some(Wrap32(n))
    case JBool(b) => Some(if b then 1 else 0)
    case _ => None
  }

  function AsBool(j: Json): (r: Option<bool>)
  {
    if j.JBool? then Some(j.b) else None
  }

  /** A vector of strings, all or nothing. */
  function ElementStrings(elems: seq<Json>): (r: Option<seq<string>>)
  {
    if elems == [] then Some([])
    else
      var rest := ElementStrings(elems[1..]);
      if elems[0].JString? && rest.Some? then Some([elems[0].s] + rest.value) else None
  }

  function AsStrings(j: Json): (r: Option<seq<string>>)
  {
    if j.JArray? then ElementStrings(j.elems) else None
  }

  function Field<T>(m: Message, key: Key, convert: Json -> Option<T>): (r: Option<T>)
  {
    if key in m then convert(m[key]) else None
  }

  /** A conversion that throws rejects the message like any other invalid value. */
  predicate ValidItem(key: Key, value: Json)
  {
    match key
    case CgroupProxy => ValidCgroupValue(value)
    case CgroupNoproxy => ValidCgroupValue(value)
    case Port => AsInt(value).Some? && AsInt(value).value > 0
    case EnableGateway => value.JBool?
    case EnableDns => value.JBool?
    case EnableTcp => value.JBool?
    case EnableUdp => value.JBool?
    case EnableIpv4 => value.JBool?
    case EnableIpv6 => value.JBool?
    case UnknownKey(_) => false
    case _ => true
  }

  predicate ValidCgroupValue(value: Json)
  {
    || (value.JString? && ValidCgroup(value.s))
    || (AsStrings(value).Some? && AllValidCgroups(AsStrings(value).value))
  }

  predicate ValidMessage(m: Message)
  {
    forall key :: key in m ==> ValidItem(key, m[key])
  }

  const LISTS: set<Key> := {CgroupProxy, CgroupNoproxy}
  const SWITCHES: set<Key> := {EnableGateway, EnableDns, EnableTcp, EnableUdp, EnableIpv4, EnableIpv6}
  const ALLOWED: set<Key> := {ProgramProxy, ProgramNoproxy, Comment, TableKey, Fwmark, MarkNewin}

  /**
   What validation accepts: no key outside the known sets; a cgroup list as one valid string or
   an array of valid strings; a port that converts to a positive int; switches as booleans; and
   any value whatever for the keys in ALLOWED.
   */
  lemma ValidationExactly(m: Message)
    ensures ValidMessage(m) <==>
            && m.Keys <= LISTS + SWITCHES + ALLOWED + {Port}
            && (forall key :: key in m && key in LISTS ==>
                  || (m[key].JString? && ValidCgroup(m[key].s))
                  || (exists v :: m[key] == StringArray(v) && AllValidCgroups(v)))
            && (forall key :: key in m && key in SWITCHES ==> m[key] == JBool(true) || m[key] == JBool(false))
            && (Port in m ==> (m[Port].JInt? && Wrap32(m[Port].n) > 0) || m[Port] == JBool(true))
  {
    forall key | key in m ensures ValidItem(key, m[key]) <==> ItemAccepted(key, m[key]) {
      ValidItemExactly(key, m[key]);
    }
    assert m.Keys <= LISTS + SWITCHES + ALLOWED + {Port} <==>
           forall key :: key in m ==> key in LISTS + SWITCHES + ALLOWED + {Port};
    assert ValidMessage(m) <==> forall key :: key in m ==> ItemAccepted(key, m[key]);
  }

  /** The rule for a single key. */
  ghost predicate ItemAccepted(key: Key, value: Json)
  {
    && key in LISTS + SWITCHES + ALLOWED + {Port}
    && (key in LISTS ==>
          || (value.JString? && ValidCgroup(value.s))
          || (exists v :: value == StringArray(v) && AllValidCgroups(v)))
    && (key in SWITCHES ==> value == JBool(true) || value == JBool(false))
    && (key == Port ==> (value.JInt? && Wrap32(value.n) > 0) || value == JBool(true))
  }

  lemma ValidItemExactly(key: Key, value: Json)
    ensures ValidItem(key, value) <==> ItemAccepted(key, value)
  {
    if key in LISTS {
      forall v ensures AsStrings(value) == Some(v) <==> value == StringArray(v) {
        StringsExactly(value, v);
      }
      assert ValidCgroupValue(value) <==>
             || (value.JString? && ValidCgroup(value.s))
             || (exists v :: value == StringArray(v) && AllValidCgroups(v));
    }
  }

  /** The values that a switch, a number and a list can be assigned from. */
  lemma ConversionsExactly(j: Json, b: bool, n: int, v: seq<string>)
    ensures AsBool(j) == Some(b) <==> j == JBool(b)
    ensures AsInt(j) == Some(n) <==>
            (j.JInt? && Wrap32(j.n) == n) || (j == JBool(true) && n == 1) || (j == JBool(false) && n == 0)
    ensures AsStrings(j) == Some(v) <==> j == StringArray(v)
  {
    StringsExactly(j, v);
  }

  lemma StringsExactly(j: Json, v: seq<string>)
    ensures AsStrings(j) == Some(v) <==> j == StringArray(v)
  {
    if j.JArray? {
      ElementsExactly(j.elems, v);
    }
  }

  lemma {:induction false} ElementsExactly(elems: seq<Json>, v: seq<string>)
    ensures ElementStrings(elems) == Some(v) <==> elems == StringArray(v).elems
    decreases |v|
  {
    if elems != [] && v != [] {
      ElementsExactly(elems[1..], v[1..]);
      assert StringArray(v).elems[1..] == StringArray(v[1..]).elems;
      assert elems == [elems[0]] + elems[1..] && v == [v[0]] + v[1..];
      assert StringArray(v).elems == [JString(v[0])] + StringArray(v[1..]).elems;
      assert elems == StringArray(v).elems <==> elems[0] == JString(v[0]) && elems[1..] == StringArray(v[1..]).elems;
      var rest := ElementStrings(elems[1..]);
      if rest.Some? && elems[0].JString? {
        assert [elems[0].s] + rest.value == v <==> elems[0].s == v[0] && rest.value == v[1..] by {
          assert ([elems[0].s] + rest.value)[1..] == rest.value && ([elems[0].s] + rest.value)[0] == elems[0].s;
        }
      }
    } else if elems != [] {
      assert StringArray(v).elems == [];
    }
  }

  // ---- The file system -------------------------------------------------------------------------------

  /** Regular files, and the outputs of `which` and `readlink -e`; a missing entry is an empty output. */
  datatype Files = Files(regular: set<string>, which: map<string, string>, link: map<string, string>)

  function OutputOf(m: map<string, string>, arg: string): (r: string)
  {
    if arg in m then m[arg] else ""
  }

  /** readlink -e prints absolute paths only. */
  predicate LinksAbsolute(fs: Files)
  {
    forall a :: a in fs.link ==> fs.link[a] == "" || fs.link[a][0] == '/'
  }

  function RealExistPath(fs: Files, name: string): (path: string)
  {
    if StartWith(name, "/") && name in fs.regular then name
    else
      var w := OutputOf(fs.which, name);
      var l := OutputOf(fs.link, w);
      if w == "" || l !in fs.regular then "" else l
  }

  function RealPaths(fs: Files, v: seq<string>): (r: seq<string>)
  {
    if v == [] then []
    else
      var path := RealExistPath(fs, v[0]);
      var rest := RealPaths(fs, v[1..]);
      if path != "" then [path] + rest else rest
  }

  /**
   When a name resolves, and to what: an absolute name of a regular file to itself, and any other
   name to the end of the links of what `which` finds, if that is a regular file.
   */
  lemma ResolvesExactly(fs: Files, name: string, path: string)
    requires path != ""
    ensures RealExistPath(fs, name) == path <==>
            if name != "" && name[0] == '/' && name in fs.regular then path == name
            else exists w :: w != "" && name in fs.which && fs.which[name] == w
                             && w in fs.link && fs.link[w] == path && path in fs.regular
  {
    assert StartWith(name, "/") <==> name != "" && name[0] == '/';
    if name in fs.which && fs.which[name] != "" && fs.which[name] in fs.link {
      var w := fs.which[name];
      assert w != "" && name in fs.which && fs.which[name] == w;
    }
  }

  /** Each name that resolves has its path in the result, behind those of the names before it. */
  lemma {:induction false} ResolvedInPlace(fs: Files, v: seq<string>, i: nat)
    requires i < |v|
    ensures var before, upto, path := RealPaths(fs, v[..i]), RealPaths(fs, v[..i + 1]), RealExistPath(fs, v[i]);
            && upto == (if path != "" then before + [path] else before)
            && upto <= RealPaths(fs, v)
  {
    assert v[..i + 1] == v[..i] + [v[i]] && v == v[..i + 1] + v[i + 1..];
    RealPathsAppend(fs, v[..i], [v[i]]);
    RealPathsAppend(fs, v[..i + 1], v[i + 1..]);
    assert [v[i]][1..] == [];
  }

  lemma ResolvedIsFixed(fs: Files, name: string)
    requires LinksAbsolute(fs) && RealExistPath(fs, name) != ""
    ensures RealExistPath(fs, RealExistPath(fs, name)) == RealExistPath(fs, name)
  {
  }

  lemma {:induction false} RealPathsFixed(fs: Files, v: seq<string>)
    requires LinksAbsolute(fs)
    ensures RealPaths(fs, RealPaths(fs, v)) == RealPaths(fs, v)
  {
    if v != [] {
      RealPathsFixed(fs, v[1..]);
      var path, rest := RealExistPath(fs, v[0]), RealPaths(fs, v[1..]);
      if path != "" {
        ResolvedIsFixed(fs, v[0]);
        assert ([path] + rest)[1..] == rest;
      }
    }
  }

  lemma {:induction false} RealPathsAppend(fs: Files, a: seq<string>, b: seq<string>)
    ensures RealPaths(fs, a + b) == RealPaths(fs, a) + RealPaths(fs, b)
  {
    if a == [] {
      assert a + b == b;
    } else {
      assert (a + b)[1..] == a[1..] + b;
      RealPathsAppend(fs, a[1..], b);
    }
  }

  // ---- The reserved cgroups ----------------------------------------------------------------------------

  const PROXY_SLICE := "/proxy.slice"
  const NOPROXY_SLICE := "/noproxy.slice"

  function Without(v: seq<string>, x: string): (r: seq<string>)
    ensures x !in r
    ensures forall e :: e in r ==> e in v
  {
    if v == [] then [] else if v[0] == x then Without(v[1..], x) else [v[0]] + Without(v[1..], x)
  }

  /** The reserved entry first and once, the others in order. */
  function Merged(v: seq<string>, reserved: string): (r: seq<string>)
  {
    [reserved] + Without(v, reserved)
  }

  lemma {:induction false} WithoutAbsent(v: seq<string>, x: string)
    requires x !in v
    ensures Without(v, x) == v
  {
    if v != [] {
      assert v == [v[0]] + v[1..] && v[0] in v;
      WithoutAbsent(v[1..], x);
    }
  }

  lemma {:induction false} WithoutAppend(a: seq<string>, b: seq<string>, x: string)
    ensures Without(a + b, x) == Without(a, x) + Without(b, x)
  {
    if a == [] {
      assert a + b == b;
    } else {
      assert (a + b)[1..] == a[1..] + b;
      WithoutAppend(a[1..], b, x);
    }
  }

  /** Each other entry is in the result, behind those before it; the unwanted one is skipped. */
  lemma {:induction false} KeptInPlace(v: seq<string>, x: string, i: nat)
    requires i < |v|
    ensures Without(v[..i + 1], x) == if v[i] == x then Without(v[..i], x) else Without(v[..i], x) + [v[i]]
    ensures Without(v[..i + 1], x) <= Without(v, x)
  {
    assert v[..i + 1] == v[..i] + [v[i]] && v == v[..i + 1] + v[i + 1..];
    WithoutAppend(v[..i], [v[i]], x);
    WithoutAppend(v[..i + 1], v[i + 1..], x);
    assert [v[i]][1..] == [];
  }

  lemma MergedFixed(v: seq<string>, reserved: string)
    ensures Merged(Merged(v, reserved), reserved) == Merged(v, reserved)
  {
    var w := Without(v, reserved);
    assert ([reserved] + w)[1..] == w;
    WithoutAbsent(w, reserved);
  }

  // ---- The configuration as a value ----------------------------------------------------------------------

  datatype Settings = Settings(
    programProxy: seq<string>,
    programNoproxy: seq<string>,
    cgroupProxy: seq<string>,
    cgroupNoproxy: seq<string>,
    enableGateway: bool,
    port: int,
    enableDns: bool,
    enableTcp: bool,
    enableUdp: bool,
    enableIpv4: bool,
    enableIpv6: bool,
    table: int,
    fwmark: int,
    markNewin: int)

  /** The initial program lists hold the names of the reserved cgroups. */
  const DEFAULTS := Settings([PROXY_SLICE], [NOPROXY_SLICE], [], [], false, 12345, true, true, true, true, true,
                             10007, 0x9973, 0x9967)

  function OverlaidLists(c: Settings, m: Message): (r: Settings)
  {
    c.(programProxy := Field(m, ProgramProxy, AsStrings).GetOr(c.programProxy),
       programNoproxy := Field(m, ProgramNoproxy, AsStrings).GetOr(c.programNoproxy),
       cgroupProxy := Field(m, CgroupProxy, AsStrings).GetOr(c.cgroupProxy),
       cgroupNoproxy := Field(m, CgroupNoproxy, AsStrings).GetOr(c.cgroupNoproxy))
  }

  function OverlaidSwitches(c: Settings, m: Message): (r: Settings)
  {
    c.(enableGateway := Field(m, EnableGateway, AsBool).GetOr(c.enableGateway),
       enableDns := Field(m, EnableDns, AsBool).GetOr(c.enableDns),
       enableTcp := Field(m, EnableTcp, AsBool).GetOr(c.enableTcp),
       enableUdp := Field(m, EnableUdp, AsBool).GetOr(c.enableUdp),
       enableIpv4 := Field(m, EnableIpv4, AsBool).GetOr(c.enableIpv4),
       enableIpv6 := Field(m, EnableIpv6, AsBool).GetOr(c.enableIpv6))
  }

  function OverlaidNumbers(c: Settings, m: Message): (r: Settings)
  {
    c.(port := Field(m, Port, AsInt).GetOr(c.port),
       table := Field(m, TableKey, AsInt).GetOr(c.table),
       fwmark := Field(m, Fwmark, AsInt).GetOr(c.fwmark),
       markNewin := Field(m, MarkNewin, AsInt).GetOr(c.markNewin))
  }

  /** The assignments of a load, before normalisation. */
  function Overlaid(c: Settings, m: Message): (r: Settings)
  {
    OverlaidNumbers(OverlaidSwitches(OverlaidLists(c, m), m), m)
  }

  function Normalised(c: Settings, fs: Files): (r: Settings)
  {
    c.(programProxy := RealPaths(fs, c.programProxy),
       programNoproxy := RealPaths(fs, c.programNoproxy),
       cgroupProxy := Merged(c.cgroupProxy, PROXY_SLICE),
       cgroupNoproxy := Merged(c.cgroupNoproxy, NOPROXY_SLICE))
  }

  /** A rejected message changes nothing. */
  function Loaded(c: Settings, m: Message, fs: Files): (r: Settings)
  {
    if ValidMessage(m) then Normalised(Overlaid(c, m), fs) else c
  }

  /** A list of strings as a JSON array. */
  function StringArray(v: seq<string>): (j: Json)
  {
    JArray(seq(|v|, i requires 0 <= i < |v| => JString(v[i])))
  }

  const SAVED: set<Key> := {ProgramProxy, ProgramNoproxy, CgroupProxy, CgroupNoproxy, EnableGateway, Port, EnableDns,
                            EnableTcp, EnableUdp, EnableIpv4, EnableIpv6, TableKey, Fwmark, MarkNewin}

  function SavedValue(c: Settings, key: Key): (j: Json)
  {
    match key
    case ProgramProxy => StringArray(c.programProxy)
    case ProgramNoproxy => StringArray(c.programNoproxy)
    case CgroupProxy => StringArray(c.cgroupProxy)
    case CgroupNoproxy => StringArray(c.cgroupNoproxy)
    case EnableGateway => JBool(c.enableGateway)
    case Port => JInt(c.port)
    case EnableDns => JBool(c.enableDns)
    case EnableTcp => JBool(c.enableTcp)
    case EnableUdp => JBool(c.enableUdp)
    case EnableIpv4 => JBool(c.enableIpv4)
    case EnableIpv6 => JBool(c.enableIpv6)
    case TableKey => JInt(c.table)
    case Fwmark => JInt(c.fwmark)
    case MarkNewin => JInt(c.markNewin)
    case _ => JOther
  }

  function ToJson(c: Settings): (m: Message)
  {
    map key | key in SAVED :: SavedValue(c, key)
  }

  lemma {:induction false} StringArrayRoundTrip(v: seq<string>)
    ensures AsStrings(StringArray(v)) == Some(v)
  {
    if v != [] {
      StringArrayRoundTrip(v[1..]);
      assert StringArray(v).elems[1..] == StringArray(v[1..]).elems;
      assert [v[0]] + v[1..] == v;
    }
  }

  // ---- What every reachable configuration satisfies ------------------------------------------------------

  predicate Int32(n: int)
  {
    -0x8000_0000 <= n < 0x8000_0000
  }

  predicate WellTyped(c: Settings)
  {
    && AllValidCgroups(c.cgroupProxy) && AllValidCgroups(c.cgroupNoproxy)
    && Int32(c.port) && c.port > 0 && Int32(c.table) && Int32(c.fwmark) && Int32(c.markNewin)
  }

  lemma {:induction false} MergedIsValid(v: seq<string>, reserved: string)
    requires AllValidCgroups(v) && ValidCgroup(reserved)
    ensures AllValidCgroups(Merged(v, reserved))
  {
  }

  lemma ReservedAreValid()
    ensures ValidCgroup(PROXY_SLICE) && ValidCgroup(NOPROXY_SLICE)
  {
    assert forall i :: 0 <= i < |PROXY_SLICE| ==> ValidCgroupChar(PROXY_SLICE[i]);
    assert forall i :: 0 <= i < |NOPROXY_SLICE| ==> ValidCgroupChar(NOPROXY_SLICE[i]);
  }

  lemma OverlayKeepsWellTyped(c: Settings, m: Message)
    requires WellTyped(c) && ValidMessage(m)
    ensures WellTyped(Overlaid(c, m))
  {
    assert Port in m ==> ValidItem(Port, m[Port]);
    assert CgroupProxy in m ==> ValidItem(CgroupProxy, m[CgroupProxy]);
    assert CgroupNoproxy in m ==> ValidItem(CgroupNoproxy, m[CgroupNoproxy]);
  }

  lemma NormalisedIsWellTyped(c: Settings, fs: Files)
    requires WellTyped(c)
    ensures WellTyped(Normalised(c, fs))
  {
    ReservedAreValid();
    MergedIsValid(c.cgroupProxy, PROXY_SLICE);
    MergedIsValid(c.cgroupNoproxy, NOPROXY_SLICE);
  }

  lemma LoadKeepsWellTyped(c: Settings, m: Message, fs: Files)
    requires WellTyped(c)
    ensures WellTyped(Loaded(c, m, fs))
  {
    if ValidMessage(m) {
      OverlayKeepsWellTyped(c, m);
      NormalisedIsWellTyped(Overlaid(c, m), fs);
    }
  }

  /** Any number of messages, rejected ones included. */
  function LoadedAll(c: Settings, ms: seq<Message>, fs: Files): (r: Settings)
  {
    if ms == [] then c else Loaded(LoadedAll(c, ms[..|ms| - 1], fs), ms[|ms| - 1], fs)
  }

  lemma {:induction false} AllLoadsWellTyped(c: Settings, ms: seq<Message>, fs: Files)
    requires WellTyped(c)
    ensures WellTyped(LoadedAll(c, ms, fs))
    decreases |ms|
  {
    if ms != [] {
      AllLoadsWellTyped(c, ms[..|ms| - 1], fs);
      LoadKeepsWellTyped(LoadedAll(c, ms[..|ms| - 1], fs), ms[|ms| - 1], fs);
    }
  }

  lemma SavedLists(c: Settings)
    ensures var m := ToJson(c);
            && Field(m, ProgramProxy, AsStrings) == Some(c.programProxy)
            && Field(m, ProgramNoproxy, AsStrings) == Some(c.programNoproxy)
            && Field(m, CgroupProxy, AsStrings) == Some(c.cgroupProxy)
            && Field(m, CgroupNoproxy, AsStrings) == Some(c.cgroupNoproxy)
  {
    StringArrayRoundTrip(c.programProxy);
    StringArrayRoundTrip(c.programNoproxy);
    StringArrayRoundTrip(c.cgroupProxy);
    StringArrayRoundTrip(c.cgroupNoproxy);
  }

  lemma SavedPlain(c: Settings)
    requires WellTyped(c)
    ensures var m := ToJson(c);
            && Field(m, EnableGateway, AsBool) == Some(c.enableGateway)
            && Field(m, Port, AsInt) == Some(c.port)
            && Field(m, EnableDns, AsBool) == Some(c.enableDns)
            && Field(m, EnableTcp, AsBool) == Some(c.enableTcp)
            && Field(m, EnableUdp, AsBool) == Some(c.enableUdp)
            && Field(m, EnableIpv4, AsBool) == Some(c.enableIpv4)
            && Field(m, EnableIpv6, AsBool) == Some(c.enableIpv6)
            && Field(m, TableKey, AsInt) == Some(c.table)
            && Field(m, Fwmark, AsInt) == Some(c.fwmark)
            && Field(m, MarkNewin, AsInt) == Some(c.markNewin)
  {
  }

  lemma SavedIsValid(c: Settings)
    requires WellTyped(c)
    ensures ValidMessage(ToJson(c))
  {
    StringArrayRoundTrip(c.cgroupProxy);
    StringArrayRoundTrip(c.cgroupNoproxy);
    forall key | key in ToJson(c) ensures ValidItem(key, ToJson(c)[key]) {
      assert ToJson(c)[key] == SavedValue(c, key);
    }
  }

  /** Saving and overlaying is the identity. */
  lemma SaveRoundTrip(c: Settings)
    requires WellTyped(c)
    ensures ValidMessage(ToJson(c)) && Overlaid(c, ToJson(c)) == c
  {
    SavedIsValid(c);
    SavedLists(c);
    SavedPlain(c);
  }

  /**
   Fixed point: a configuration that a load has produced is valid as a message, and loading it
   again under the same file system changes no field.
   */
  lemma ConfigFixedPoint(c: Settings, m: Message, fs: Files)
    requires WellTyped(c) && ValidMessage(m) && LinksAbsolute(fs)
    ensures var r := Loaded(c, m, fs);
            ValidMessage(ToJson(r)) && Loaded(r, ToJson(r), fs) == r
  {
    var r, o := Loaded(c, m, fs), Overlaid(c, m);
    LoadKeepsWellTyped(c, m, fs);
    SaveRoundTrip(r);
    RealPathsFixed(fs, o.programProxy);
    RealPathsFixed(fs, o.programNoproxy);
    MergedFixed(o.cgroupProxy, PROXY_SLICE);
    MergedFixed(o.cgroupNoproxy, NOPROXY_SLICE);
  }

  // ---- Overlay ---------------------------------------------------------------------------------------------

  /** The value of the last accepted message that assigns the field, or the initial one. */
  function Latest<T>(ms: seq<Message>, key: Key, convert: Json -> Option<T>, initial: T): (r: T)
  {
    if ms == [] then initial
    else
      var m := ms[|ms| - 1];
      if ValidMessage(m) && Field(m, key, convert).Some? then Field(m, key, convert).value
      else Latest(ms[..|ms| - 1], key, convert, initial)
  }

  predicate SomeAccepted(ms: seq<Message>)
  {
    exists i :: 0 <= i < |ms| && ValidMessage(ms[i])
  }

  predicate IsSwitch(key: Key)
  {
    key.EnableGateway? || key.EnableDns? || key.EnableTcp? || key.EnableUdp? || key.EnableIpv4? || key.EnableIpv6?
  }

  predicate IsNumber(key: Key)
  {
    key.Port? || key.TableKey? || key.Fwmark? || key.MarkNewin?
  }

  lemma LoadedSwitch(key: Key, c: Settings, m: Message, fs: Files)
    requires IsSwitch(key) && ValidMessage(m)
    ensures SavedValue(Loaded(c, m, fs), key) == JBool(Field(m, key, AsBool).GetOr(SavedValue(c, key).b))
  {
  }

  lemma LoadedNumber(key: Key, c: Settings, m: Message, fs: Files)
    requires IsNumber(key) && ValidMessage(m)
    ensures SavedValue(Loaded(c, m, fs), key) == JInt(Field(m, key, AsInt).GetOr(SavedValue(c, key).n))
  {
  }

  /** Overlay: after any sequence of messages every switch has its latest assignable value. */
  lemma {:induction false} LoadsOverlaySwitch(key: Key, c: Settings, ms: seq<Message>, fs: Files)
    requires IsSwitch(key)
    ensures SavedValue(LoadedAll(c, ms, fs), key) == JBool(Latest(ms, key, AsBool, SavedValue(c, key).b))
    decreases |ms|
  {
    if ms != [] {
      var before, m := ms[..|ms| - 1], ms[|ms| - 1];
      LoadsOverlaySwitch(key, c, before, fs);
      if ValidMessage(m) {
        LoadedSwitch(key, LoadedAll(c, before, fs), m, fs);
      }
    }
  }

  /** So has every number. */
  lemma {:induction false} LoadsOverlayNumber(key: Key, c: Settings, ms: seq<Message>, fs: Files)
    requires IsNumber(key)
    ensures SavedValue(LoadedAll(c, ms, fs), key) == JInt(Latest(ms, key, AsInt, SavedValue(c, key).n))
    decreases |ms|
  {
    if ms != [] {
      var before, m := ms[..|ms| - 1], ms[|ms| - 1];
      LoadsOverlayNumber(key, c, before, fs);
      if ValidMessage(m) {
        LoadedNumber(key, LoadedAll(c, before, fs), m, fs);
      }
    }
  }

  predicate IsList(key: Key)
  {
    key.ProgramProxy? || key.ProgramNoproxy? || key.CgroupProxy? || key.CgroupNoproxy?
  }

  function ListOf(c: Settings, key: Key): (v: seq<string>)
  {
    match key
    case ProgramProxy => c.programProxy
    case ProgramNoproxy => c.programNoproxy
    case CgroupProxy => c.cgroupProxy
    case _ => c.cgroupNoproxy
  }

  function NormalList(key: Key, fs: Files, v: seq<string>): (r: seq<string>)
  {
    match key
    case CgroupProxy => Merged(v, PROXY_SLICE)
    case CgroupNoproxy => Merged(v, NOPROXY_SLICE)
    case _ => RealPaths(fs, v)
  }

  lemma LoadedList(key: Key, c: Settings, m: Message, fs: Files)
    requires IsList(key) && ValidMessage(m)
    ensures ListOf(Loaded(c, m, fs), key) == NormalList(key, fs, Field(m, key, AsStrings).GetOr(ListOf(c, key)))
  {
  }

  lemma NormalListFixed(key: Key, fs: Files, v: seq<string>)
    requires LinksAbsolute(fs)
    ensures NormalList(key, fs, NormalList(key, fs, v)) == NormalList(key, fs, v)
  {
    RealPathsFixed(fs, v);
    MergedFixed(v, PROXY_SLICE);
    MergedFixed(v, NOPROXY_SLICE);
  }

  /** The lists have theirs too, resolved or merged as soon as one message was accepted. */
  lemma {:induction false} LoadsOverlayList(key: Key, c: Settings, ms: seq<Message>, fs: Files)
    requires IsList(key) && LinksAbsolute(fs)
    ensures var latest := Latest(ms, key, AsStrings, ListOf(c, key));
            ListOf(LoadedAll(c, ms, fs), key) == if SomeAccepted(ms) then NormalList(key, fs, latest) else latest
    decreases |ms|
  {
    if ms != [] {
      var before, m := ms[..|ms| - 1], ms[|ms| - 1];
      LoadsOverlayList(key, c, before, fs);
      SomeAcceptedSnoc(ms);
      if ValidMessage(m) {
        LoadedList(key, LoadedAll(c, before, fs), m, fs);
        NormalListFixed(key, fs, Latest(before, key, AsStrings, ListOf(c, key)));
      }
    }
  }

  /** List by list, once a message was accepted. */
  lemma LoadsAssignLists(c: Settings, ms: seq<Message>, fs: Files)
    requires LinksAbsolute(fs) && SomeAccepted(ms)
    ensures var r := LoadedAll(c, ms, fs);
            && r.programProxy == RealPaths(fs, Latest(ms, ProgramProxy, AsStrings, c.programProxy))
            && r.programNoproxy == RealPaths(fs, Latest(ms, ProgramNoproxy, AsStrings, c.programNoproxy))
            && r.cgroupProxy == [PROXY_SLICE] + Without(Latest(ms, CgroupProxy, AsStrings, c.cgroupProxy), PROXY_SLICE)
            && r.cgroupNoproxy ==
               [NOPROXY_SLICE] + Without(Latest(ms, CgroupNoproxy, AsStrings, c.cgroupNoproxy), NOPROXY_SLICE)
  {
    LoadsOverlayList(ProgramProxy, c, ms, fs);
    LoadsOverlayList(ProgramNoproxy, c, ms, fs);
    LoadsOverlayList(CgroupProxy, c, ms, fs);
    LoadsOverlayList(CgroupNoproxy, c, ms, fs);
  }

  lemma SomeAcceptedSnoc(ms: seq<Message>)
    requires ms != []
    ensures SomeAccepted(ms) <==> SomeAccepted(ms[..|ms| - 1]) || ValidMessage(ms[|ms| - 1])
  {
    var before := ms[..|ms| - 1];
    if SomeAccepted(before) {
      var i :| 0 <= i < |before| && ValidMessage(before[i]);
      assert ValidMessage(ms[i]);
    }
    if SomeAccepted(ms) {
      var i :| 0 <= i < |ms| && ValidMessage(ms[i]);
      assert i < |before| ==> before[i] == ms[i];
    }
  }

  /** Messages that are all rejected change nothing. */
  lemma {:induction false} RejectedChangeNothing(c: Settings, ms: seq<Message>, fs: Files)
    requires !SomeAccepted(ms)
    ensures LoadedAll(c, ms, fs) == c
    decreases |ms|
  {
    if ms != [] {
      SomeAcceptedSnoc(ms);
      RejectedChangeNothing(c, ms[..|ms| - 1], fs);
    }
  }

  /** After any loads that include an accepted one, each reserved slice heads its list and occurs once. */
  lemma ReservedLeads(c: Settings, ms: seq<Message>, fs: Files)
    requires LinksAbsolute(fs) && SomeAccepted(ms)
    ensures var r := LoadedAll(c, ms, fs);
            && r.cgroupProxy != [] && r.cgroupProxy[0] == PROXY_SLICE && PROXY_SLICE !in r.cgroupProxy[1..]
            && r.cgroupNoproxy != [] && r.cgroupNoproxy[0] == NOPROXY_SLICE && NOPROXY_SLICE !in r.cgroupNoproxy[1..]
            && r.cgroupProxy[1..] == Without(Latest(ms, CgroupProxy, AsStrings, c.cgroupProxy), PROXY_SLICE)
            && r.cgroupNoproxy[1..] == Without(Latest(ms, CgroupNoproxy, AsStrings, c.cgroupNoproxy), NOPROXY_SLICE)
  {
    LoadsOverlayList(CgroupProxy, c, ms, fs);
    LoadsOverlayList(CgroupNoproxy, c, ms, fs);
  }
}
