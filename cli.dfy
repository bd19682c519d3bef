/**
 * The command-line tool: which files of the migrations directory are
 * migrations, which of them are pending, what `migrate up`, `down`, `reset`
 * and `status` do to the tracking table, how `migrate create` names its two
 * files, and how `main` dispatches a parsed command line.
 *
 * The directory is the list of its file names, the tracking table the list
 * of its `version` rows, and the SQL a migration runs is named by its file.
 */
module Cli {
  import opened Wrappers
  import opened Text
  import Sql

  const UpSuffix: string := ".up.sql"
  const DownSuffix: string := ".down.sql"

  /** An entry of `get_available_migrations`: the version and its two files. */
  datatype Migration = Migration(version: string, upFile: string, downFile: string)

  // ---------------------------------------------------------------------------
  // Versions of migration files

  /**
   * Python's `s.replace(pat, "")`: every occurrence, leftmost first, without
   * overlaps.
   */
  function RemoveAll(s: string, pat: string): (r: string)
    requires |pat| > 0
    ensures |r| <= |s|
    decreases |s|
  {
    if |s| < |pat| then s
    else if s[..|pat|] == pat then RemoveAll(s[|pat|..], pat)
    else [s[0]] + RemoveAll(s[1..], pat)
  }

  /** Whether `pat` occurs in `s` at position `i`. */
  predicate OccursAt(s: string, pat: string, i: int)
  {
    0 <= i <= |s| - |pat| && s[i..i + |pat|] == pat
  }

  /** A text in which the pattern does not occur is kept as it is. */
  lemma {:induction false} RemoveAllAbsent(s: string, pat: string)
    requires |pat| > 0
    requires forall i :: !OccursAt(s, pat, i)
    ensures RemoveAll(s, pat) == s
    decreases |s|
  {
    if |s| >= |pat| {
      assert !OccursAt(s, pat, 0);
      forall i ensures !OccursAt(s[1..], pat, i) {
        if OccursAt(s[1..], pat, i) {
          assert s[1..][i..i + |pat|] == s[i + 1..i + 1 + |pat|];
          assert OccursAt(s, pat, i + 1);
        }
      }
      RemoveAllAbsent(s[1..], pat);
      assert [s[0]] + s[1..] == s;
    }
  }

  /** `Path.stem` of a file name ending in `.sql`: the name without that suffix. */
  function Stem(name: string): string
  {
    if EndsWith(name, ".sql") then name[..|name| - 4] else name
  }

  /** The version the code derives from an up file: its stem with every `.up` removed. */
  function VersionAsWritten(upFile: string): string
  {
    RemoveAll(Stem(upFile), ".up")
  }

  /** The version an up file was created for: its name without the `.up.sql` suffix. */
  function VersionOf(upFile: string): string
  {
    if EndsWith(upFile, UpSuffix) then upFile[..|upFile| - |UpSuffix|] else upFile
  }

  /** Naming a version's up file and reading its version back are inverse. */
  lemma VersionOfNamed(v: string)
    ensures EndsWith(v + UpSuffix, UpSuffix)
    ensures VersionOf(v + UpSuffix) == v
  {
    assert (v + UpSuffix)[|v|..] == UpSuffix;
    assert (v + UpSuffix)[..|v|] == v;
  }

  lemma UpFileOfVersion(upFile: string)
    requires EndsWith(upFile, UpSuffix)
    ensures VersionOf(upFile) + UpSuffix == upFile
  {
    assert upFile == upFile[..|upFile| - |UpSuffix|] + upFile[|upFile| - |UpSuffix|..];
  }

  lemma {:induction false} RemoveAllWithoutDots(v: string)
    requires Lacks(v, '.')
    ensures RemoveAll(v + ".up", ".up") == v
    decreases |v|
  {
    if |v| > 0 {
      var s := v + ".up";
      assert s[0] == v[0] && s[..3][0] != '.';
      assert s[1..] == v[1..] + ".up";
      RemoveAllWithoutDots(v[1..]);
      assert [v[0]] + v[1..] == v;
    } else {
      assert ".up"[3..] == "";
    }
  }

  /** For a version without dots, as every generated timestamp name is, both readings agree. */
  lemma VersionsAgree(v: string)
    requires Lacks(v, '.')
    ensures VersionAsWritten(v + UpSuffix) == VersionOf(v + UpSuffix) == v
  {
    VersionOfNamed(v);
    var f := v + UpSuffix;
    assert f[|f| - 4..] == ".sql";
    assert f[..|f| - 4] == v + ".up";
    RemoveAllWithoutDots(v);
  }

  // ---------------------------------------------------------------------------
  // Available migrations

  /** The names the glob `*<suffix>` matches, in directory order. */
  function FilesEndingWith(listing: seq<string>, suffix: string): (r: seq<string>)
    ensures forall f :: f in r <==> f in listing && EndsWith(f, suffix)
    decreases |listing|
  {
    if |listing| == 0 then []
    else
      var rest := FilesEndingWith(listing[..|listing| - 1], suffix);
      var f := listing[|listing| - 1];
      assert listing == listing[..|listing| - 1] + [f];
      if EndsWith(f, suffix) then rest + [f] else rest
  }

  /** `sorted(migrations_dir.glob("*.up.sql"))`. */
  function UpFiles(listing: seq<string>): (r: seq<string>)
    ensures Sorted(r)
    ensures forall f :: f in r <==> f in listing && EndsWith(f, UpSuffix)
  {
    var matched := FilesEndingWith(listing, UpSuffix);
    SortStringsCorrect(matched);
    assert forall f :: f in SortStrings(matched) <==> f in multiset(SortStrings(matched));
    SortStrings(matched)
  }

  /** One up file's entry, kept only when the down file of its version exists. */
  function Entry(upFile: string, listing: seq<string>, version: string -> string): seq<Migration>
  {
    if version(upFile) + DownSuffix in listing then [Migration(version(upFile), upFile, version(upFile) + DownSuffix)]
    else []
  }

  /** The entries of a list of up files, in its order, the version read by `version`. */
  function Candidates(ups: seq<string>, listing: seq<string>, version: string -> string): seq<Migration>
    decreases |ups|
  {
    if |ups| == 0 then []
    else Candidates(ups[..|ups| - 1], listing, version) + Entry(ups[|ups| - 1], listing, version)
  }

  lemma {:induction false} CandidatesMember(ups: seq<string>, listing: seq<string>, version: string -> string,
                                          m: Migration)
    ensures m in Candidates(ups, listing, version) <==>
      m.upFile in ups && m.version == version(m.upFile) && m.downFile == m.version + DownSuffix &&
      m.downFile in listing
    decreases |ups|
  {
    if |ups| > 0 {
      CandidatesMember(ups[..|ups| - 1], listing, version, m);
      assert ups == ups[..|ups| - 1] + [ups[|ups| - 1]];
    }
  }

  /** `get_available_migrations` with each version read as its file was named. */
  function Available(listing: seq<string>): seq<Migration>
  {
    Candidates(UpFiles(listing), listing, VersionOf)
  }

  /** `get_available_migrations` as written, with every `.up` removed from the stem. */
  function AvailableAsWritten(listing: seq<string>): seq<Migration>
  {
    Candidates(UpFiles(listing), listing, VersionAsWritten)
  }

  /**
   * As written, a migration is available exactly when the directory holds an
   * up file, its version is that file's stem with every `.up` removed, and the
   * down file of that version exists.
   */
  lemma AvailableAsWrittenMember(listing: seq<string>, m: Migration)
    ensures m in AvailableAsWritten(listing) <==>
      m.upFile in listing && EndsWith(m.upFile, UpSuffix) && m.version == VersionAsWritten(m.upFile) &&
      m.downFile == m.version + DownSuffix && m.downFile in listing
  {
    CandidatesMember(UpFiles(listing), listing, VersionAsWritten, m);
  }

  /**
   * A migration is available exactly when the directory holds its up file and
   * the down file of the same version.
   */
  lemma AvailableMember(listing: seq<string>, m: Migration)
    ensures m in Available(listing) <==>
      m.upFile in listing && EndsWith(m.upFile, UpSuffix) && m.version + UpSuffix == m.upFile &&
      m.downFile == m.version + DownSuffix && m.downFile in listing
  {
    CandidatesMember(UpFiles(listing), listing, VersionOf, m);
    if EndsWith(m.upFile, UpSuffix) {
      UpFileOfVersion(m.upFile);
      if m.version + UpSuffix == m.upFile {
        VersionOfNamed(m.version);
      }
    }
  }

  /** `migrate create`'s file names: `<timestamp>_<name>.up.sql` and `.down.sql`. */
  function CreatedFiles(timestamp: string, name: string): (string, string)
  {
    var version := timestamp + "_" + name;
    (version + UpSuffix, version + DownSuffix)
  }

  /** The files `migrate create` writes make their version available, whatever the name. */
  lemma CreatedIsAvailable(listing: seq<string>, timestamp: string, name: string)
    ensures var v := timestamp + "_" + name;
      Migration(v, CreatedFiles(timestamp, name).0, CreatedFiles(timestamp, name).1) in
        Available(listing + [CreatedFiles(timestamp, name).0, CreatedFiles(timestamp, name).1])
  {
    var v := timestamp + "_" + name;
    var files := CreatedFiles(timestamp, name);
    var listing' := listing + [files.0, files.1];
    assert files.0 in listing' && files.1 in listing';
    VersionOfNamed(v);
    AvailableMember(listing', Migration(v, files.0, files.1));
  }

  /** The one up file of the two files `migrate create` writes for the name `a.up`. */
  lemma DottedNameUpFiles()
    ensures UpFiles(["1_a.up.up.sql", "1_a.up.down.sql"]) == ["1_a.up.up.sql"]
  {
    var listing := ["1_a.up.up.sql", "1_a.up.down.sql"];
    assert EndsWith("1_a.up.up.sql", UpSuffix);
    assert !EndsWith("1_a.up.down.sql", UpSuffix) by {
      assert "1_a.up.down.sql"[8..][0] == 'o';
    }
    assert listing[..1][..0] == [];
    assert FilesEndingWith(listing[..1], UpSuffix) == ["1_a.up.up.sql"];
    assert listing[..|listing| - 1] == listing[..1];
    assert FilesEndingWith(listing, UpSuffix) == ["1_a.up.up.sql"];
    assert ["1_a.up.up.sql"][1..] == [];
  }

  /** Reading `1_a.up.up.sql` as written removes both `.up`s. */
  lemma DottedNameVersion()
    ensures VersionAsWritten("1_a.up.up.sql") == "1_a"
    ensures VersionOf("1_a.up.up.sql") == "1_a.up"
  {
    DottedStemStripped();
    assert "1_a.up" + UpSuffix == "1_a.up.up.sql";
    VersionOfNamed("1_a.up");
  }

  lemma DottedStemStripped()
    ensures VersionAsWritten("1_a.up.up.sql") == "1_a"
  {
    var stem := Stem("1_a.up.up.sql");
    assert stem == "1_a.up.up";
    assert stem[..3] != ".up" && stem[1..] == "_a.up.up";
    assert "_a.up.up"[..3] != ".up" && "_a.up.up"[1..] == "a.up.up";
    assert "a.up.up"[..3] != ".up" && "a.up.up"[1..] == ".up.up";
    assert ".up.up"[..3] == ".up" && ".up.up"[3..] == ".up";
    assert ".up"[..3] == ".up" && ".up"[3..] == "";
  }

  lemma CandidatesSingle(upFile: string, listing: seq<string>, version: string -> string)
    ensures Candidates([upFile], listing, version) == Entry(upFile, listing, version)
  {
    assert [upFile][..0] == [];
  }

  lemma DottedNameAsWritten()
    ensures AvailableAsWritten(["1_a.up.up.sql", "1_a.up.down.sql"]) == []
  {
    var listing := ["1_a.up.up.sql", "1_a.up.down.sql"];
    DottedNameUpFiles();
    DottedNameVersion();
    CandidatesSingle("1_a.up.up.sql", listing, VersionAsWritten);
    assert "1_a" + DownSuffix == "1_a.down.sql";
    assert "1_a.down.sql" != listing[0] && "1_a.down.sql" != listing[1];
  }

  /** A listing of one up file and the down file of its version holds exactly that migration. */
  lemma PairAvailable(up: string, down: string, version: string -> string)
    requires UpFiles([up, down]) == [up] && version(up) + DownSuffix == down
    ensures Candidates(UpFiles([up, down]), [up, down], version) == [Migration(version(up), up, down)]
  {
    CandidatesSingle(up, [up, down], version);
  }

  lemma DottedDownFile()
    ensures "1_a.up" + DownSuffix == "1_a.up.down.sql"
  {
  }

  lemma DottedNameCorrected()
    ensures Available(["1_a.up.up.sql", "1_a.up.down.sql"]) == [Migration("1_a.up", "1_a.up.up.sql", "1_a.up.down.sql")]
  {
    DottedNameUpFiles();
    DottedNameVersion();
    DottedDownFile();
    PairAvailable("1_a.up.up.sql", "1_a.up.down.sql", VersionOf);
  }


  /** `replace` removes at least one occurrence of a pattern that occurs. */
  lemma {:induction false} RemoveAllShortens(s: string, pat: string, i: int)
    requires |pat| > 0 && OccursAt(s, pat, i)
    ensures |RemoveAll(s, pat)| <= |s| - |pat|
    decreases |s|
  {
    if s[..|pat|] != pat {
      assert i > 0;
      assert s[1..][i - 1..i - 1 + |pat|] == s[i..i + |pat|];
      RemoveAllShortens(s[1..], pat, i - 1);
    }
  }

  /** Two occurrences that do not overlap make `replace` remove at least two. */
  lemma {:induction false} RemoveAllShortensTwice(s: string, pat: string, i: int, j: int)
    requires |pat| > 0 && OccursAt(s, pat, i) && OccursAt(s, pat, j) && i + |pat| <= j
    ensures |RemoveAll(s, pat)| <= |s| - 2 * |pat|
    decreases |s|
  {
    if s[..|pat|] == pat {
      assert s[|pat|..][j - |pat|..j] == s[j..j + |pat|];
      RemoveAllShortens(s[|pat|..], pat, j - |pat|);
    } else {
      assert i > 0;
      assert s[1..][i - 1..i - 1 + |pat|] == s[i..i + |pat|];
      assert s[1..][j - 1..j - 1 + |pat|] == s[j..j + |pat|];
      RemoveAllShortensTwice(s[1..], pat, i - 1, j - 1);
    }
  }

  /** Of the two files `migrate create` writes for a version, only the up file matches the glob. */
  lemma CreatedUpFiles(v: string)
    ensures UpFiles([v + UpSuffix, v + DownSuffix]) == [v + UpSuffix]
  {
    var up, down := v + UpSuffix, v + DownSuffix;
    var listing := [up, down];
    assert up[|up| - |UpSuffix|..] == UpSuffix;
    assert !EndsWith(down, UpSuffix) by {
      assert down[|down| - |UpSuffix|..][0] == down[|v| + 2] == 'o';
    }
    assert listing[..1][..0] == [];
    assert FilesEndingWith(listing[..1], UpSuffix) == [up];
    assert listing[..|listing| - 1] == listing[..1];
    assert FilesEndingWith(listing, UpSuffix) == [up];
    var one := [up];
    assert one[1..] == [];
    assert SortStrings(one[1..]) == [];
    assert SortStrings(one) == one;
  }

  /**
   * As written, the version read from the up file `migrate create` writes for
   * a name containing `.up` is at least three characters shorter than the
   * version it was created for: `replace` takes that `.up` out as well as the
   * one before `.sql`.
   */
  lemma DottedVersionShortened(timestamp: string, name: string, k: int)
    requires OccursAt(name, ".up", k)
    ensures var v := timestamp + "_" + name;
      |VersionAsWritten(CreatedFiles(timestamp, name).0)| <= |v| - 3
  {
    var v := timestamp + "_" + name;
    var up := v + UpSuffix;
    assert CreatedFiles(timestamp, name).0 == up;
    assert up[|up| - 4..] == ".sql";
    var stem := v + ".up";
    assert Stem(up) == stem by {
      assert up[..|up| - 4] == stem;
    }
    var i := |timestamp| + 1 + k;
    assert stem[i..i + 3] == name[k..k + 3];
    assert stem[|v|..|v| + 3] == ".up";
    RemoveAllShortensTwice(stem, ".up", i, |v|);
  }

  /**
   * As written, the files `migrate create` writes for any timestamp and any
   * name that contains `.up` are never available: the version read back is
   * shorter than the created one, so its down file is not the one written.
   * With the version read by suffix they are (`CreatedIsAvailable`).
   */
  lemma AsWrittenLosesDottedName(timestamp: string, name: string, k: int)
    requires OccursAt(name, ".up", k)
    ensures var files := CreatedFiles(timestamp, name);
      AvailableAsWritten([files.0, files.1]) == []
  {
    var v := timestamp + "_" + name;
    var files := CreatedFiles(timestamp, name);
    assert files == (v + UpSuffix, v + DownSuffix);
    CreatedUpFiles(v);
    DottedVersionShortened(timestamp, name, k);
    var read := VersionAsWritten(files.0);
    assert |read + DownSuffix| < |files.0| && |read + DownSuffix| < |files.1|;
    CandidatesSingle(files.0, [files.0, files.1], VersionAsWritten);
  }

  /**
   * In any directory, the up file written for a name containing `.up` never
   * pairs, as written, with the version it was created for or its down file.
   */
  lemma AsWrittenNeverPairs(listing: seq<string>, timestamp: string, name: string, k: int, m: Migration)
    requires OccursAt(name, ".up", k)
    requires m in AvailableAsWritten(listing) && m.upFile == CreatedFiles(timestamp, name).0
    ensures m.version != timestamp + "_" + name && m.downFile != CreatedFiles(timestamp, name).1
  {
    AvailableAsWrittenMember(listing, m);
    DottedVersionShortened(timestamp, name, k);
  }

  // ---------------------------------------------------------------------------
  // Planning `up` and `down`

  /** The versions of a list of entries, in order. */
  function VersionsOf(ms: seq<Migration>): (r: seq<string>)
    ensures |r| == |ms| && forall k :: 0 <= k < |ms| ==> r[k] == ms[k].version
    decreases |ms|
  {
    if |ms| == 0 then [] else VersionsOf(ms[..|ms| - 1]) + [ms[|ms| - 1].version]
  }

  /** The up files of a list of entries, in order. */
  function UpScripts(ms: seq<Migration>): (r: seq<string>)
    ensures |r| == |ms| && forall k :: 0 <= k < |ms| ==> r[k] == ms[k].upFile
    decreases |ms|
  {
    if |ms| == 0 then [] else UpScripts(ms[..|ms| - 1]) + [ms[|ms| - 1].upFile]
  }

  /** `[m for m in available if m.version not in applied]` */
  function Pending(available: seq<Migration>, applied: seq<string>): (r: seq<Migration>)
    ensures forall m :: m in r <==> m in available && m.version !in applied
    decreases |available|
  {
    if |available| == 0 then []
    else
      var m := available[|available| - 1];
      assert available == available[..|available| - 1] + [m];
      Pending(available[..|available| - 1], applied) + (if m.version !in applied then [m] else [])
  }

  /** `[m for m in pending if m.version <= target]` */
  function UpTo(pending: seq<Migration>, target: string): (r: seq<Migration>)
    ensures forall m :: m in r <==> m in pending && LexLe(m.version, target)
    decreases |pending|
  {
    if |pending| == 0 then []
    else
      var m := pending[|pending| - 1];
      assert pending == pending[..|pending| - 1] + [m];
      UpTo(pending[..|pending| - 1], target) + (if LexLe(m.version, target) then [m] else [])
  }

  /**
   * What `migrate_up` applies: nothing at all (the early return) when no
   * available version is unapplied; otherwise the pending entries, cut at
   * the target when one is given and not empty.
   */
  function UpPlan(available: seq<Migration>, applied: seq<string>, target: Option<string>): Option<seq<Migration>>
  {
    var pending := Pending(available, applied);
    if |pending| == 0 then None
    else if Sql.NonEmpty(target) then Some(UpTo(pending, target.value))
    else Some(pending)
  }

  /**
   * The plan holds exactly the available, unapplied entries up to the target,
   * so no applied version is applied again; the early return happens exactly
   * when every available version is applied, even when a target would have
   * cut the plan to nothing.
   */
  lemma UpPlanMembers(available: seq<Migration>, applied: seq<string>, target: Option<string>)
    ensures UpPlan(available, applied, target).None? <==> forall m :: m in available ==> m.version in applied
    ensures UpPlan(available, applied, target).Some? ==> forall m :: m in UpPlan(available, applied, target).value <==>
      m in available && m.version !in applied && (Sql.NonEmpty(target) ==> LexLe(m.version, target.value))
  {
    var pending := Pending(available, applied);
    if |pending| > 0 {
      assert pending[0] in pending;
    }
  }

  /** Python's `applied[-steps:]`: where the slice starts in a list of length `n`. */
  function SliceStart(n: nat, steps: int): (start: nat)
    ensures start <= n
  {
    if steps > 0 then (if steps >= n then 0 else n - steps)
    else if -steps >= n then n
    else -steps
  }

  function RollbackSlice(applied: seq<string>, steps: int): seq<string>
  {
    applied[SliceStart(|applied|, steps)..]
  }

  /**
   * `applied[-steps:]`: the newest `steps` versions for `0 < steps <= len`;
   * all of them for `steps == 0` (since `-0` is `0`) and for `steps >= len`;
   * and for a negative count, all but the oldest `-steps`.
   */
  lemma RollbackSliceCases(applied: seq<string>, steps: int)
    ensures steps == 0 || steps >= |applied| ==> RollbackSlice(applied, steps) == applied
    ensures 0 < steps <= |applied| ==>
      (|RollbackSlice(applied, steps)| == steps && RollbackSlice(applied, steps) == applied[|applied| - steps..])
    ensures steps < 0 && -steps <= |applied| ==> RollbackSlice(applied, steps) == applied[-steps..]
    ensures steps < 0 && -steps >= |applied| ==> RollbackSlice(applied, steps) == []
  {
  }

  function Reversed(s: seq<string>): (r: seq<string>)
    ensures |r| == |s| && forall k :: 0 <= k < |s| ==> r[k] == s[|s| - 1 - k]
    decreases |s|
  {
    if |s| == 0 then [] else [s[|s| - 1]] + Reversed(s[..|s| - 1])
  }

  /** The `available` dictionary of `migrate_down`: the down file of a version, the last entry winning. */
  function DownFor(available: seq<Migration>, version: string): Option<string>
    decreases |available|
  {
    if |available| == 0 then None
    else
      var m := available[|available| - 1];
      if m.version == version then Some(m.downFile) else DownFor(available[..|available| - 1], version)
  }

  /** A version is in the dictionary exactly when an entry has it, and maps to that entry's down file. */
  lemma {:induction false} DownForMember(available: seq<Migration>, version: string)
    ensures DownFor(available, version).Some? <==> version in VersionsOf(available)
    ensures DownFor(available, version).Some? ==>
      (exists k :: 0 <= k < |available| && available[k].version == version &&
                   available[k].downFile == DownFor(available, version).value)
    decreases |available|
  {
    if |available| > 0 {
      var init := available[..|available| - 1];
      DownForMember(init, version);
      assert VersionsOf(available) == VersionsOf(init) + [available[|available| - 1].version];
      if DownFor(available, version).Some? && available[|available| - 1].version != version {
        var k :| 0 <= k < |init| && init[k].version == version && init[k].downFile == DownFor(init, version).value;
        assert available[k] == init[k];
      }
    }
  }

  /** The versions, in the order given, whose files are known; the others are skipped with a warning. */
  function Found(versions: seq<string>, available: seq<Migration>): seq<string>
    decreases |versions|
  {
    if |versions| == 0 then []
    else
      var v := versions[|versions| - 1];
      Found(versions[..|versions| - 1], available) + (if DownFor(available, v).Some? then [v] else [])
  }

  lemma {:induction false} FoundMember(versions: seq<string>, available: seq<Migration>, v: string)
    ensures v in Found(versions, available) <==> v in versions && v in VersionsOf(available)
    decreases |versions|
  {
    DownForMember(available, v);
    if |versions| > 0 {
      FoundMember(versions[..|versions| - 1], available, v);
      assert versions == versions[..|versions| - 1] + [versions[|versions| - 1]];
    }
  }

  /** The down files run for those versions, in the same order. */
  function DownScripts(versions: seq<string>, available: seq<Migration>): seq<string>
    decreases |versions|
  {
    if |versions| == 0 then []
    else
      var v := versions[|versions| - 1];
      var down := DownFor(available, v);
      DownScripts(versions[..|versions| - 1], available) + (if down.Some? then [down.value] else [])
  }

  /** One down file is run for each version found, and none for the others. */
  lemma {:induction false} DownScriptsCount(versions: seq<string>, available: seq<Migration>)
    ensures |DownScripts(versions, available)| == |Found(versions, available)| <= |versions|
    decreases |versions|
  {
    if |versions| > 0 {
      DownScriptsCount(versions[..|versions| - 1], available);
    }
  }

  /** `DELETE ... WHERE version = $1`. */
  function Without(table: seq<string>, version: string): seq<string>
    decreases |table|
  {
    if |table| == 0 then []
    else
      var row := table[|table| - 1];
      Without(table[..|table| - 1], version) + (if row != version then [row] else [])
  }

  /** Every row of that version goes, and every other row stays. */
  lemma {:induction false} WithoutMember(table: seq<string>, version: string, v: string)
    ensures v in Without(table, version) <==> v in table && v != version
    decreases |table|
  {
    if |table| > 0 {
      WithoutMember(table[..|table| - 1], version, v);
      assert table == table[..|table| - 1] + [table[|table| - 1]];
    }
  }

  /** The table after deleting each of `versions` in turn. */
  function WithoutAll(table: seq<string>, versions: seq<string>): seq<string>
    decreases |versions|
  {
    if |versions| == 0 then table
    else Without(WithoutAll(table, versions[..|versions| - 1]), versions[|versions| - 1])
  }

  lemma {:induction false} WithoutAllMember(table: seq<string>, versions: seq<string>, v: string)
    ensures v in WithoutAll(table, versions) <==> v in table && v !in versions
    decreases |versions|
  {
    if |versions| > 0 {
      WithoutAllMember(table, versions[..|versions| - 1], v);
      WithoutMember(WithoutAll(table, versions[..|versions| - 1]), versions[|versions| - 1], v);
      assert versions == versions[..|versions| - 1] + [versions[|versions| - 1]];
    }
  }

  /** One more version of the order: one more deletion and one more down file when it is known. */
  lemma RollbackStep(table: seq<string>, executed: seq<string>, order: seq<string>, i: nat, available: seq<Migration>)
    requires i < |order|
    ensures DownFor(available, order[i]).Some? ==>
      WithoutAll(table, Found(order[..i + 1], available)) ==
        Without(WithoutAll(table, Found(order[..i], available)), order[i]) &&
      executed + DownScripts(order[..i + 1], available) ==
        executed + DownScripts(order[..i], available) + [DownFor(available, order[i]).value]
    ensures DownFor(available, order[i]).None? ==>
      Found(order[..i + 1], available) == Found(order[..i], available) &&
      DownScripts(order[..i + 1], available) == DownScripts(order[..i], available)
  {
    var versions := order[..i + 1];
    assert versions[..i] == order[..i] && versions[i] == order[i];
    var found := Found(order[..i], available);
    var downs := DownScripts(order[..i], available);
    if DownFor(available, order[i]).Some? {
      assert (found + [order[i]])[..|found|] == found;
      assert executed + (downs + [DownFor(available, order[i]).value]) ==
        executed + downs + [DownFor(available, order[i]).value];
    } else {
      assert found + [] == found;
      assert downs + [] == downs;
    }
  }

  // ---------------------------------------------------------------------------
  // `migrate status`

  datatype StatusLine = StatusLine(version: string, isApplied: bool)

  /** The report `migrate_status` prints for a non-empty directory. */
  datatype StatusReport = StatusReport(lines: seq<StatusLine>, total: nat, applied: nat, pending: int)

  function StatusLines(available: seq<Migration>, applied: seq<string>): (r: seq<StatusLine>)
    ensures |r| == |available|
    ensures forall k :: 0 <= k < |r| ==> r[k] == StatusLine(available[k].version, available[k].version in applied)
    decreases |available|
  {
    if |available| == 0 then []
    else
      var m := available[|available| - 1];
      StatusLines(available[..|available| - 1], applied) + [StatusLine(m.version, m.version in applied)]
  }

  /** How many lines are marked `[PENDING]`. */
  function Unmarked(lines: seq<StatusLine>): nat
    decreases |lines|
  {
    if |lines| == 0 then 0
    else Unmarked(lines[..|lines| - 1]) + (if lines[|lines| - 1].isApplied then 0 else 1)
  }

  /** The pending count is the number of lines marked `[PENDING]`. */
  lemma {:induction false} PendingIsUnmarked(available: seq<Migration>, applied: seq<string>)
    ensures |Pending(available, applied)| == Unmarked(StatusLines(available, applied))
    decreases |available|
  {
    if |available| > 0 {
      var init := available[..|available| - 1];
      PendingIsUnmarked(init, applied);
      var lines := StatusLines(available, applied);
      assert lines[..|lines| - 1] == StatusLines(init, applied);
    }
  }

  /** The pending count `migrate_status` prints as written: `len(available) - len(applied)`. */
  function PrintedPending(available: seq<Migration>, applied: seq<string>): int
  {
    |available| - |applied|
  }

  /**
   * Versions recorded in the table whose files are gone make the printed
   * count wrong: here it is -1, while one line is marked `[PENDING]`.
   */
  lemma PrintedPendingCounterexample()
    ensures var available := [Migration("a", "a.up.sql", "a.down.sql")];
      PrintedPending(available, ["b", "c"]) == -1 &&
      Unmarked(StatusLines(available, ["b", "c"])) == 1 && |Pending(available, ["b", "c"])| == 1
  {
    var available := [Migration("a", "a.up.sql", "a.down.sql")];
    assert available[..0] == [];
    PendingIsUnmarked(available, ["b", "c"]);
  }

  /** Rolling back every applied version, newest first, keeps exactly the versions whose files are gone. */
  lemma ResetKeeps(table: seq<string>, applied: seq<string>, available: seq<Migration>, v: string)
    requires multiset(applied) == multiset(table)
    ensures v in WithoutAll(table, Found(Reversed(applied), available)) <==> v in table && v !in VersionsOf(available)
  {
    var order := Reversed(applied);
    WithoutAllMember(table, Found(order, available), v);
    FoundMember(order, available, v);
    if v in table {
      assert v in multiset(applied);
      var k :| 0 <= k < |applied| && applied[k] == v;
      assert order[|applied| - 1 - k] == v;
    }
  }

  lemma SameLength(a: seq<string>, b: seq<string>)
    requires multiset(a) == multiset(b)
    ensures |a| == |b|
  {
    assert |multiset(a)| == |multiset(b)|;
  }

  /** One more entry of the directory adds its line and, when unapplied, one to the count. */
  lemma StatusStep(available: seq<Migration>, applied: seq<string>, i: nat)
    requires i < |available|
    ensures StatusLines(available[..i + 1], applied) ==
      StatusLines(available[..i], applied) + [StatusLine(available[i].version, available[i].version in applied)]
    ensures Unmarked(StatusLines(available[..i + 1], applied)) ==
      Unmarked(StatusLines(available[..i], applied)) + (if available[i].version in applied then 0 else 1)
  {
    assert available[..i + 1][..i] == available[..i];
    var lines := StatusLines(available[..i + 1], applied);
    assert lines[..|lines| - 1] == StatusLines(available[..i], applied);
  }

  lemma CandidatesStep(files: seq<string>, listing: seq<string>, i: nat, version: string -> string)
    requires i < |files|
    ensures Candidates(files[..i + 1], listing, version) ==
      Candidates(files[..i], listing, version) + Entry(files[i], listing, version)
  {
    assert files[..i + 1][..i] == files[..i];
  }

  /** The loop of `migrate_status`: one line per entry, in order, marked when its version is applied. */
  method StatusOf(available: seq<Migration>, applied: seq<string>) returns (lines: seq<StatusLine>)
    ensures |lines| == |available|
    ensures forall k :: 0 <= k < |lines| ==>
      lines[k].version == available[k].version && (lines[k].isApplied <==> available[k].version in applied)
    ensures lines == StatusLines(available, applied)
  {
    lines := [];
    var i := 0;
    while i < |available|
      invariant 0 <= i <= |available|
      invariant lines == StatusLines(available[..i], applied)
    {
      var version := available[i].version;
      var line := StatusLine(version, version in applied);
      StatusStep(available, applied, i);
      lines := lines + [line];
      i := i + 1;
    }
    assert available[..|available|] == available;
  }

  // ---------------------------------------------------------------------------
  // The migration manager

  /** What a migration command did: nothing to do, cancelled, or the count it prints. */
  datatype RunResult = NoWork | Cancelled | Done(count: nat)

  /**
   * `MigrationManager` with its directory's file names, the `version` rows of
   * `schema_migrations`, and the log of the SQL files it has run. Connecting,
   * the transactions and the file contents are left to the database.
   */
  class MigrationManager {
    const listing: seq<string>
    var table: seq<string>
    var executed: seq<string>

    constructor(listing: seq<string>, table: seq<string>)
      ensures this.listing == listing && this.table == table && executed == []
    {
      this.listing := listing;
      this.table := table;
      executed := [];
    }

    /** `get_applied_migrations`: `SELECT version ... ORDER BY version`. */
    function Applied(): (applied: seq<string>)
      reads this
      ensures Sorted(applied) && multiset(applied) == multiset(table)
    {
      SortStringsCorrect(table);
      SortStrings(table)
    }

    /** `get_available_migrations`, reading each version as `stem.replace(".up", "")` does. */
    method GetAvailableMigrations() returns (migrations: seq<Migration>)
      ensures forall m :: m in migrations <==>
        m.upFile in listing && EndsWith(m.upFile, UpSuffix) && m.version == VersionAsWritten(m.upFile) &&
        m.downFile == m.version + DownSuffix && m.downFile in listing
      ensures migrations == AvailableAsWritten(listing)
    {
      migrations := [];
      var files := UpFiles(listing);
      var i := 0;
      while i < |files|
        invariant 0 <= i <= |files|
        invariant migrations == Candidates(files[..i], listing, VersionAsWritten)
      {
        var upFile := files[i];
        var version := VersionAsWritten(upFile);
        var downFile := version + DownSuffix;
        CandidatesStep(files, listing, i, VersionAsWritten);
        if downFile in listing {
          migrations := migrations + [Migration(version, upFile, downFile)];
        }
        i := i + 1;
      }
      assert files[..|files|] == files;
      forall m ensures m in migrations <==>
        m.upFile in listing && EndsWith(m.upFile, UpSuffix) && m.version == VersionAsWritten(m.upFile) &&
        m.downFile == m.version + DownSuffix && m.downFile in listing
      {
        AvailableAsWrittenMember(listing, m);
      }
    }

    /** `apply_migration`: run the up file, then record the version. */
    method ApplyMigration(version: string, upFile: string)
      modifies this
      ensures executed == old(executed) + [upFile] && table == old(table) + [version]
    {
      executed := executed + [upFile];
      table := table + [version];
    }

    /** `rollback_migration`: run the down file, then delete the version's rows. */
    method RollbackMigration(version: string, downFile: string)
      modifies this
      ensures executed == old(executed) + [downFile] && table == Without(old(table), version)
    {
      executed := executed + [downFile];
      table := Without(table, version);
    }

    /** The loop of `migrate_up`: apply each entry in order. */
    method ApplyAll(plan: seq<Migration>)
      modifies this
      ensures table == old(table) + VersionsOf(plan) && executed == old(executed) + UpScripts(plan)
    {
      var i := 0;
      while i < |plan|
        invariant 0 <= i <= |plan|
        invariant table == old(table) + VersionsOf(plan[..i])
        invariant executed == old(executed) + UpScripts(plan[..i])
      {
        ApplyMigration(plan[i].version, plan[i].upFile);
        assert plan[..i + 1][..i] == plan[..i];
        i := i + 1;
      }
      assert plan[..|plan|] == plan;
    }

    /** `migrate_up(target)`: apply the plan in order and report how many were applied. */
    method MigrateUp(target: Option<string>) returns (r: RunResult)
      modifies this
      ensures UpPlan(AvailableAsWritten(listing), old(Applied()), target).None? ==>
        (r == NoWork && table == old(table) && executed == old(executed))
      ensures UpPlan(AvailableAsWritten(listing), old(Applied()), target).Some? ==>
        (var plan := UpPlan(AvailableAsWritten(listing), old(Applied()), target).value;
         r == Done(|plan|) && table == old(table) + VersionsOf(plan) && executed == old(executed) + UpScripts(plan))
    {
      var applied := Applied();
      var available := GetAvailableMigrations();
      var pending := Pending(available, applied);
      if |pending| == 0 {
        return NoWork;
      }
      if Sql.NonEmpty(target) {
        pending := UpTo(pending, target.value);
      }
      assert UpPlan(available, applied, target) == Some(pending);
      ApplyAll(pending);
      r := Done(|pending|);
    }

    /** The loop of `migrate_down`: roll back each version whose files are known, in the order given. */
    method RollbackAll(order: seq<string>, available: seq<Migration>)
      modifies this
      ensures table == WithoutAll(old(table), Found(order, available))
      ensures executed == old(executed) + DownScripts(order, available)
    {
      var i := 0;
      while i < |order|
        invariant 0 <= i <= |order|
        invariant table == WithoutAll(old(table), Found(order[..i], available))
        invariant executed == old(executed) + DownScripts(order[..i], available)
      {
        var version := order[i];
        var downFile := DownFor(available, version);
        RollbackStep(old(table), old(executed), order, i, available);
        if downFile.Some? {
          RollbackMigration(version, downFile.value);
        }
        i := i + 1;
      }
      assert order[..|order|] == order;
    }

    /**
     * `migrate_down(steps)`: the slice `applied[-steps:]`, newest first, each
     * rolled back when its files are known and skipped otherwise; the count
     * printed is the slice's length either way.
     */
    method MigrateDown(steps: int) returns (r: RunResult)
      modifies this
      ensures old(Applied()) == [] ==> (r == NoWork && table == old(table) && executed == old(executed))
      ensures old(Applied()) != [] ==>
        (var order := Reversed(RollbackSlice(old(Applied()), steps));
         r == Done(|RollbackSlice(old(Applied()), steps)|) &&
         table == WithoutAll(old(table), Found(order, AvailableAsWritten(listing))) &&
         executed == old(executed) + DownScripts(order, AvailableAsWritten(listing)))
    {
      var applied := Applied();
      var available := GetAvailableMigrations();
      if |applied| == 0 {
        return NoWork;
      }
      var toRollback := applied[SliceStart(|applied|, steps)..];
      RollbackAll(Reversed(toRollback), available);
      r := Done(|toRollback|);
    }

    /**
     * `migrate_reset(force)`: with something applied and either `force` or the
     * answer `yes` in any case, every applied version is rolled back; only
     * versions whose files are gone stay in the table.
     */
    method MigrateReset(force: bool, answer: string) returns (r: RunResult)
      modifies this
      ensures old(table) == [] ==> r == NoWork
      ensures old(table) != [] && !force && ToLower(answer) != "yes" ==> r == Cancelled
      ensures !r.Done? ==> table == old(table) && executed == old(executed)
      ensures r.Done? <==> old(table) != [] && (force || ToLower(answer) == "yes")
      ensures r.Done? ==>
        (r.count == |old(table)| &&
         executed == old(executed) + DownScripts(Reversed(old(Applied())), AvailableAsWritten(listing)))
      ensures r.Done? ==> forall v :: v in table <==> v in old(table) && v !in VersionsOf(AvailableAsWritten(listing))
    {
      var applied := Applied();
      SameLength(applied, table);
      if |applied| == 0 {
        return NoWork;
      }
      if !force && ToLower(answer) != "yes" {
        return Cancelled;
      }
      ghost var before := table;
      SameLength(applied, table);
      r := MigrateDown(|applied|);
      RollbackSliceCases(applied, |applied|);
      forall v ensures v in table <==> v in before && v !in VersionsOf(AvailableAsWritten(listing)) {
        ResetKeeps(before, applied, AvailableAsWritten(listing), v);
      }
    }

    /**
     * `migrate_status`: nothing when the directory holds no migration;
     * otherwise one line per available version telling whether it is applied,
     * the totals, and as pending the difference of the two totals, which is
     * not the number of lines marked `[PENDING]` when the table holds versions
     * whose files are gone.
     */
    method MigrateStatus() returns (report: Option<StatusReport>)
      ensures report.None? <==> AvailableAsWritten(listing) == []
      ensures report.Some? ==> report.value.lines == StatusLines(AvailableAsWritten(listing), Applied())
      ensures report.Some? ==> report.value.total == |AvailableAsWritten(listing)| && report.value.applied == |table|
      ensures report.Some? ==> report.value.pending == PrintedPending(AvailableAsWritten(listing), Applied())
      ensures report.Some? ==> report.value.pending == |AvailableAsWritten(listing)| - |table|
    {
      var applied := Applied();
      var available := GetAvailableMigrations();
      if |available| == 0 {
        return None;
      }
      var lines := StatusOf(available, applied);
      SameLength(applied, table);
      report := Some(StatusReport(lines, |available|, |applied|, |available| - |applied|));
    }
  }

  // ---------------------------------------------------------------------------
  // The command line

  const DefaultHost: string := "0.0.0.0"
  const DefaultPort: int := 8000
  const DefaultWorkers: int := 1
  const DefaultSteps: int := 1

  const MigrateRequired: string := "[ERROR] Migrate command required (status, up, down, reset, create)"
  const UserRequired: string := "[ERROR] User command required (create)"

  datatype MigrateCommand = Status | Up(target: Option<string>) | Down(steps: int) | Reset(force: bool) | Create(name: string)

  datatype UserCommand = CreateUser(email: string, password: string, fullName: Option<string>, admin: bool)

  /** A parsed command line; `Other` is a command name no branch of `main` knows. */
  datatype Command =
    | NoCommand
    | Serve(host: string, port: int, reload: bool, workers: int)
    | Migrate(migrate: Option<MigrateCommand>)
    | User(user: Option<UserCommand>)
    | Other(name: string)

  /** The options of `serve`, each taking its default when absent. */
  function ServeCommand(host: Option<string>, port: Option<int>, reload: bool, workers: Option<int>): (c: Command)
    ensures c.Serve? && c.reload == reload
    ensures c.host == (if host.Some? then host.value else DefaultHost)
    ensures c.port == (if port.Some? then port.value else DefaultPort)
    ensures c.workers == (if workers.Some? then workers.value else DefaultWorkers)
  {
    Serve(host.GetOr(DefaultHost), port.GetOr(DefaultPort), reload, workers.GetOr(DefaultWorkers))
  }

  /** `migrate down`'s `--steps`, 1 when absent. */
  function DownCommand(steps: Option<int>): (c: MigrateCommand)
    ensures c.Down? && c.steps == (if steps.Some? then steps.value else DefaultSteps)
  {
    Down(steps.GetOr(DefaultSteps))
  }

  datatype Effect =
    | PrintHelp
    | PrintError(message: string)
    | RunServer(host: string, port: int, reload: bool, workers: int)
    | RunMigrate(migrate: MigrateCommand)
    | RunUser(user: UserCommand)

  /** What `main` does with a parsed command line, and the exit code it ends with when it ends the process itself. */
  datatype DispatchResult = DispatchResult(effects: seq<Effect>, exitCode: Option<int>)

  function Dispatch(c: Command): (r: DispatchResult)
    ensures r.exitCode == Some(1) <==>
      (c.NoCommand? || c.Other? || (c.Migrate? && c.migrate.None?) || (c.User? && c.user.None?))
    ensures r.exitCode.None? <==> r.exitCode != Some(1)
    ensures c.NoCommand? ==> r.effects == [PrintHelp]
    ensures c.Other? ==> r.effects == [PrintError("[ERROR] Unknown command: " + c.name), PrintHelp]
    ensures c.Migrate? && c.migrate.None? ==> r.effects == [PrintError(MigrateRequired)]
    ensures c.User? && c.user.None? ==> r.effects == [PrintError(UserRequired)]
    ensures c.Migrate? && c.migrate.Some? ==> r.effects == [RunMigrate(c.migrate.value)]
    ensures c.User? && c.user.Some? ==> r.effects == [RunUser(c.user.value)]
    ensures c.Serve? ==> r.effects == [RunServer(c.host, c.port, c.reload, if c.reload then 1 else c.workers)]
  {
    match c
    case NoCommand => DispatchResult([PrintHelp], Some(1))
    case Serve(host, port, reload, workers) => DispatchResult([RunServer(host, port, reload, if reload then 1 else workers)], None)
    case Migrate(None) => DispatchResult([PrintError(MigrateRequired)], Some(1))
    case Migrate(Some(m)) => DispatchResult([RunMigrate(m)], None)
    case User(None) => DispatchResult([PrintError(UserRequired)], Some(1))
    case User(Some(u)) => DispatchResult([RunUser(u)], None)
    case Other(name) => DispatchResult([PrintError("[ERROR] Unknown command: " + name), PrintHelp], Some(1))
  }

  /** `--reload` always runs a single worker, whatever `--workers` says. */
  lemma ReloadForcesOneWorker(host: Option<string>, port: Option<int>, workers: Option<int>)
    ensures Dispatch(ServeCommand(host, port, true, workers)).effects[0].workers == 1
    ensures Dispatch(ServeCommand(host, port, false, workers)).effects[0].workers == workers.GetOr(DefaultWorkers)
    ensures Dispatch(ServeCommand(None, None, false, None)).effects ==
      [RunServer("0.0.0.0", 8000, false, 1)]
  {
  }
}
