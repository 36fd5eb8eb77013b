/**
 * How the task runner finds a database dump binary (`get_dumper_path_env` in
 * inc/TaskRunner.php): the binaries found on the search path first, then a
 * list of fixed locations; the first executable one is handed to WP-CLI as a
 * `MYSQLDUMP_PATH=` prefix of the command line.
 */
module Dumper {
  import opened Wrappers
  import opened PhpStrings
  import opened Pipeline

  /** The shape of the dumper prefix: nothing, or a `MYSQLDUMP_PATH=` assignment. */
  predicate DumperShaped(dumper: string) {
    dumper == "" || StartsWith(dumper, "MYSQLDUMP_PATH=")
  }

  /** The `MYSQLDUMP_PATH` prefix `get_dumper_path_env` returns for `p`. */
  function DumperPrefix(p: string): (d: string)
    ensures StartsWith(d, "MYSQLDUMP_PATH='") && EndsWith(d, "' ")
  {
    var e := EscapeShellArg(p);
    var d := "MYSQLDUMP_PATH=" + e + " ";
    assert d[..16] == "MYSQLDUMP_PATH=" + [e[0]];
    assert d[|d| - 2..] == [e[|e| - 1]] + " ";
    d
  }

  /** A path with `%%` in it: `sprintf` reads its prefix as the prefix of the
      path with one `%` there, which is not a start of the original. */
  lemma PercentPairPrefix(a: string, b: string)
    requires '%' !in a && '%' !in b
    ensures Sprintf(DumperPrefix(a + "%%" + b), []) == Some(DumperPrefix(a + "%" + b))
    ensures |DumperPrefix(a + "%" + b)| < |DumperPrefix(a + "%%" + b)|
    ensures !StartsWith(DumperPrefix(a + "%%" + b), DumperPrefix(a + "%" + b))
  {
    var head, qa, qb := "MYSQLDUMP_PATH=", QuoteEscaped(a), QuoteEscaped(b);
    assert QuoteEscaped("%%") == "%%";
    assert QuoteEscaped("%") == "%";
    EscapeAround(a, "%%", b);
    EscapeAround(a, "%", b);
    var twice, once := DumperPrefix(a + "%%" + b), DumperPrefix(a + "%" + b);
    assert twice == head + EscapeShellArg(a + "%%" + b) + " ";
    assert once == head + EscapeShellArg(a + "%" + b) + " ";
    RegroupAround(head, "'", qa, "%%", qb, "'", " ");
    RegroupAround(head, "'", qa, "%", qb, "'", " ");
    var p1, p2 := head + "'" + qa, qb + "'" + " ";
    assert '%' !in p1 && '%' !in p2 by {
      QuoteEscapedNoPercent(a);
      QuoteEscapedNoPercent(b);
    }
    SprintfPercentPair(p1, p2);
    PercentPairDiffers(p1, p2);
  }

  lemma RegroupAround<T>(h: seq<T>, o: seq<T>, x: seq<T>, m: seq<T>, y: seq<T>, c: seq<T>, t: seq<T>)
    ensures h + (o + (x + m + y) + c) + t == h + o + x + m + (y + c + t)
  {
  }

  /** The prefixes differ where the one has its second `%`. */
  lemma PercentPairDiffers(p1: string, p2: string)
    requires p2 != "" && '%' !in p2
    ensures !StartsWith(p1 + "%%" + p2, p1 + "%" + p2)
  {
    var k := |p1| + 1;
    assert (p1 + "%%" + p2)[k] == '%';
    assert (p1 + "%" + p2)[k] == p2[0] && p2[0] in p2;
  }

  /** The binaries looked up with `command -v`, in order. */
  const DUMP_BINARIES: seq<string> := ["mysqldump", "mariadb-dump"]

  /** The hard-coded fall-back locations, in order. */
  const FALLBACK_DUMPERS: seq<string> := [
    "/usr/bin/mysqldump",
    "/usr/local/bin/mysqldump",
    "/usr/bin/mariadb-dump",
    "/usr/local/bin/mariadb-dump",
    "/Applications/MAMP/Library/bin/mysqldump"
  ]

  /** The path `command -v` reported for `binary`, trimmed, when it reported a
      non-empty one. */
  function Lookup(which: string -> Option<string>, binary: string): seq<string> {
    match which(binary)
    case Some(out) => if Truthy(out) then [Trim(out)] else []
    case None => []
  }

  /** The paths found on the search path, in the order of `binaries`. */
  function Discovered(which: string -> Option<string>, binaries: seq<string>): seq<string> {
    if binaries == [] then [] else Lookup(which, binaries[0]) + Discovered(which, binaries[1..])
  }

  /** The first path the predicate accepts. */
  function FirstExecutable(isExecutable: string -> bool, paths: seq<string>): (r: Option<string>)
    ensures r.None? <==> forall i :: 0 <= i < |paths| ==> !isExecutable(paths[i])
    ensures r.Some? ==> r.value in paths && isExecutable(r.value)
  {
    if paths == [] then None
    else if isExecutable(paths[0]) then Some(paths[0])
    else FirstExecutable(isExecutable, paths[1..])
  }

  /** Searching the paths of some binaries, then the fall-backs: the first
      binary's trimmed path when `command -v` reported one and it is
      executable, otherwise the search over the remaining binaries. */
  lemma SearchFrom(which: string -> Option<string>, isExecutable: string -> bool, binaries: seq<string>,
                   fallbacks: seq<string>)
    requires binaries != []
    ensures var out := which(binaries[0]);
      FirstExecutable(isExecutable, Discovered(which, binaries) + fallbacks) ==
        if out.Some? && Truthy(out.value) && isExecutable(Trim(out.value)) then Some(Trim(out.value))
        else FirstExecutable(isExecutable, Discovered(which, binaries[1..]) + fallbacks)
  {
    var out := which(binaries[0]);
    if out.Some? && Truthy(out.value) {
      assert Lookup(which, binaries[0]) == [Trim(out.value)];
      SearchFromFound(which, isExecutable, binaries, fallbacks, Trim(out.value));
    } else {
      assert Lookup(which, binaries[0]) == [];
      SearchFromMissing(which, binaries, fallbacks);
    }
  }

  /** A binary `command -v` reported as `p` is tried before the later ones. */
  lemma SearchFromFound(which: string -> Option<string>, isExecutable: string -> bool, binaries: seq<string>,
                        fallbacks: seq<string>, p: string)
    requires binaries != [] && Lookup(which, binaries[0]) == [p]
    ensures FirstExecutable(isExecutable, Discovered(which, binaries) + fallbacks) ==
            if isExecutable(p) then Some(p) else FirstExecutable(isExecutable, Discovered(which, binaries[1..]) + fallbacks)
  {
    var later := Discovered(which, binaries[1..]);
    DiscoveredCons(which, binaries);
    IssuedAssoc([p], later, fallbacks);
    FirstExecutableCons(isExecutable, p, later + fallbacks, Discovered(which, binaries) + fallbacks);
  }

  /** A binary `command -v` did not report adds no candidate. */
  lemma SearchFromMissing(which: string -> Option<string>, binaries: seq<string>, fallbacks: seq<string>)
    requires binaries != [] && Lookup(which, binaries[0]) == []
    ensures Discovered(which, binaries) + fallbacks == Discovered(which, binaries[1..]) + fallbacks
  {
    DiscoveredCons(which, binaries);
  }

  /** The candidates of a list of binaries: the first one's, then the rest's. */
  lemma DiscoveredCons(which: string -> Option<string>, binaries: seq<string>)
    requires binaries != []
    ensures Discovered(which, binaries) == Lookup(which, binaries[0]) + Discovered(which, binaries[1..])
  {
  }

  /** Searching a list that starts with `p`: `p` if it is executable, the rest otherwise. */
  lemma FirstExecutableCons(isExecutable: string -> bool, p: string, rest: seq<string>, whole: seq<string>)
    requires whole == [p] + rest
    ensures FirstExecutable(isExecutable, whole) == if isExecutable(p) then Some(p) else FirstExecutable(isExecutable, rest)
  {
    assert whole[0] == p;
    assert whole[1..] == rest;
  }

  /** `FirstExecutableAppend` for a list already known to be the concatenation. */
  lemma FirstExecutableSplit(isExecutable: string -> bool, a: seq<string>, b: seq<string>, whole: seq<string>)
    requires whole == a + b
    ensures FirstExecutable(isExecutable, whole) ==
            if FirstExecutable(isExecutable, a).Some? then FirstExecutable(isExecutable, a) else FirstExecutable(isExecutable, b)
  {
    FirstExecutableAppend(isExecutable, a, b);
  }

  /** The prefix for the first executable path among `candidates`, or nothing. */
  function DumperFor(isExecutable: string -> bool, candidates: seq<string>): string {
    match FirstExecutable(isExecutable, candidates)
    case Some(p) => DumperPrefix(p)
    case None => ""
  }

  /** The paths `get_dumper_path_env` tries, in order: those found on the
      search path, then the fall-backs. */
  function Candidates(which: string -> Option<string>, binaries: seq<string>, fallbacks: seq<string>): seq<string> {
    Discovered(which, binaries) + fallbacks
  }

  /** What `get_dumper_path_env` should return. */
  function DumperEnv(world: World): string {
    DumperFor(world.isExecutable, Candidates(world.which, DUMP_BINARIES, FALLBACK_DUMPERS))
  }

  /** The candidate chosen is the first executable one: no earlier candidate is. */
  lemma {:induction false} FirstExecutableIsFirst(isExecutable: string -> bool, paths: seq<string>)
    requires FirstExecutable(isExecutable, paths).Some?
    ensures exists k :: 0 <= k < |paths| && paths[k] == FirstExecutable(isExecutable, paths).value &&
              forall j :: 0 <= j < k ==> !isExecutable(paths[j])
  {
    if !isExecutable(paths[0]) {
      FirstExecutableIsFirst(isExecutable, paths[1..]);
      var k :| 0 <= k < |paths[1..]| && paths[1..][k] == FirstExecutable(isExecutable, paths[1..]).value &&
              forall j :: 0 <= j < k ==> !isExecutable(paths[1..][j]);
      assert paths[k + 1] == paths[1..][k];
      assert forall j :: 1 <= j < k + 1 ==> paths[j] == paths[1..][j - 1];
    } else {
      assert paths[0] == FirstExecutable(isExecutable, paths).value;
    }
  }

  /** Searching a concatenation searches the first part, then the second. */
  lemma {:induction false} FirstExecutableAppend(isExecutable: string -> bool, a: seq<string>, b: seq<string>)
    ensures FirstExecutable(isExecutable, a + b) ==
            if FirstExecutable(isExecutable, a).Some? then FirstExecutable(isExecutable, a) else FirstExecutable(isExecutable, b)
  {
    if a == [] {
      assert a + b == b;
    } else {
      assert (a + b)[0] == a[0];
      assert (a + b)[1..] == a[1..] + b;
      FirstExecutableAppend(isExecutable, a[1..], b);
    }
  }

  /** The dumper prefix is empty exactly when no candidate is executable, and
      otherwise names one. */
  lemma DumperForShape(isExecutable: string -> bool, candidates: seq<string>)
    ensures DumperFor(isExecutable, candidates) == "" <==> forall p :: p in candidates ==> !isExecutable(p)
    ensures DumperFor(isExecutable, candidates) != "" ==>
      StartsWith(DumperFor(isExecutable, candidates), "MYSQLDUMP_PATH='") && EndsWith(DumperFor(isExecutable, candidates), "' ")
    ensures DumperShaped(DumperFor(isExecutable, candidates))
  {
    var m := FirstExecutable(isExecutable, candidates);
    if m.Some? {
      var d := DumperPrefix(m.value);
      assert d[..15] == d[..16][..15];
    }
  }

  lemma DumperEnvShape(world: World)
    ensures DumperEnv(world) == "" <==>
      forall p :: p in Candidates(world.which, DUMP_BINARIES, FALLBACK_DUMPERS) ==> !world.isExecutable(p)
    ensures DumperEnv(world) != "" ==> StartsWith(DumperEnv(world), "MYSQLDUMP_PATH='") && EndsWith(DumperEnv(world), "' ")
    ensures DumperShaped(DumperEnv(world))
  {
    DumperForShape(world.isExecutable, Candidates(world.which, DUMP_BINARIES, FALLBACK_DUMPERS));
  }

  lemma NoDumperWithoutCandidates(world: World)
    requires forall b :: b in DUMP_BINARIES ==> world.which(b).None?
    requires forall p :: p in FALLBACK_DUMPERS ==> !world.isExecutable(p)
    ensures DumperEnv(world) == ""
  {
    assert DUMP_BINARIES[1..][1..] == [];
    assert Discovered(world.which, DUMP_BINARIES[1..]) == [];
    assert Discovered(world.which, DUMP_BINARIES) == [];
    assert Candidates(world.which, DUMP_BINARIES, FALLBACK_DUMPERS) == FALLBACK_DUMPERS;
  }
}
