/** `juju_spell/commands/update_packages.py`: builds the apt command each
    application runs, lays out one result per matching application unit,
    parses what apt printed and decides whether each unit got the package
    versions it was meant to get. */
module UpdatePackages {
  import opened Common
  import opened Strings

  // ---------------------------------------------------------------------
  // Parsing apt's output
  // ---------------------------------------------------------------------

  /** `PackageUpdateResult`. */
  datatype PackageUpdateResult = PackageUpdateResult(package: string, fromVersion: string, toVersion: string)

  /** The characters put away around a version. */
  const BRACKETS: set<char> := {'(', ')', '[', ']'}

  /** The error of `a, b, ..., *rest = parts` with too few parts. */
  function UnpackError(expected: nat, got: nat): Error
  {
    ValueError("not enough values to unpack (expected at least " + NatToString(expected) + ", got " +
               NatToString(got) + ")")
  }

  /** The entry for the fields of one line, when all three are present. */
  function Entry(name: string, fromField: string, toField: string): (r: Option<PackageUpdateResult>)
    ensures r.Some? ==> r.value.package != "" && r.value.fromVersion != "" && r.value.toVersion != ""
  {
    var toVersion := StripChars(toField, BRACKETS);
    var fromVersion := StripChars(fromField, BRACKETS);
    var package := StripChars(name, {' '});
    if fromVersion != "" && toVersion != "" && package != "" then
      Some(PackageUpdateResult(package, fromVersion, toVersion))
    else None
  }

  /** One line of `parse_result`: an `Inst ` line gives its second, third
      and fourth fields as name, old and new version; an `Unpacking` line
      its second, third and fifth as name, new and old version. */
  function ParseLine(line: string): Try<Option<PackageUpdateResult>>
  {
    var parts := Split(line, ' ');
    if StartsWith(line, "Inst ") then
      if |parts| < 4 then Raise(UnpackError(4, |parts|))
      else Ok(Entry(parts[1], parts[2], parts[3]))
    else if StartsWith(line, "Unpacking") then
      if |parts| < 5 then Raise(UnpackError(5, |parts|))
      else Ok(Entry(parts[1], parts[4], parts[2]))
    else Ok(None)
  }

  /** A line of either kind with too few fields raises rather than being
      skipped; any other line gives nothing. */
  lemma ParseLineCases(line: string)
    ensures !StartsWith(line, "Inst ") && !StartsWith(line, "Unpacking") ==> ParseLine(line) == Ok(None)
    ensures StartsWith(line, "Inst ") && |Split(line, ' ')| < 4 ==>
      ParseLine(line) == Raise(UnpackError(4, |Split(line, ' ')|))
    ensures !StartsWith(line, "Inst ") && StartsWith(line, "Unpacking") && |Split(line, ' ')| < 5 ==>
      ParseLine(line) == Raise(UnpackError(5, |Split(line, ' ')|))
    ensures ParseLine(line).Ok? && ParseLine(line).value.Some? ==>
      var p := ParseLine(line).value.value;
      p.package != "" && p.fromVersion != "" && p.toVersion != ""
  {
  }

  /** The entries of per-line outcomes, in order; the first outcome that
      raises decides the error. */
  function Collect(outcomes: seq<Try<Option<PackageUpdateResult>>>): Try<seq<PackageUpdateResult>>
    decreases |outcomes|
  {
    if |outcomes| == 0 then Ok([])
    else
      match Collect(outcomes[..|outcomes| - 1])
      case Raise(e) => Raise(e)
      case Ok(xs) =>
        match outcomes[|outcomes| - 1]
        case Raise(e) => Raise(e)
        case Ok(None) => Ok(xs)
        case Ok(Some(p)) => Ok(xs + [p])
  }

  /** `f` applied to each element, in order. */
  function Mapped<A, B>(f: A -> B, xs: seq<A>): (r: seq<B>)
    ensures |r| == |xs| && forall i | 0 <= i < |xs| :: r[i] == f(xs[i])
  {
    seq(|xs|, i requires 0 <= i < |xs| => f(xs[i]))
  }

  /** Mapping two runs one after the other maps the first, then the
      second. */
  lemma MappedConcat<A, B>(f: A -> B, a: seq<A>, b: seq<A>)
    ensures Mapped(f, a + b) == Mapped(f, a) + Mapped(f, b)
  {
    var both := Mapped(f, a) + Mapped(f, b);
    forall i | 0 <= i < |a + b|
      ensures Mapped(f, a + b)[i] == both[i]
    {
      if i < |a| {
        assert (a + b)[i] == a[i];
      } else {
        assert (a + b)[i] == b[i - |a|];
      }
    }
  }

  /** The outcome of each line. */
  function Outcomes(lines: seq<string>): (r: seq<Try<Option<PackageUpdateResult>>>)
    ensures |r| == |lines|
  {
    Mapped(ParseLine, lines)
  }

  /** The entries of the lines, in line order. */
  function ParseLines(lines: seq<string>): Try<seq<PackageUpdateResult>>
  {
    Collect(Outcomes(lines))
  }

  /** Every collected entry comes from an outcome. */
  lemma {:induction false} CollectFrom(outcomes: seq<Try<Option<PackageUpdateResult>>>)
    ensures Collect(outcomes).Ok? ==>
      forall p | p in Collect(outcomes).value :: Ok(Some(p)) in outcomes
    decreases |outcomes|
  {
    if |outcomes| > 0 {
      var init := outcomes[..|outcomes| - 1];
      CollectFrom(init);
      forall p | Collect(outcomes).Ok? && p in Collect(outcomes).value
        ensures Ok(Some(p)) in outcomes
      {
        if p in Collect(init).value {
          assert Ok(Some(p)) in init;
        }
      }
    }
  }

  /** Every parsed entry has a name, an old and a new version. */
  lemma ParsedComplete(lines: seq<string>)
    ensures ParseLines(lines).Ok? ==>
      forall p | p in ParseLines(lines).value :: p.package != "" && p.fromVersion != "" && p.toVersion != ""
  {
    CollectFrom(Outcomes(lines));
    forall p | ParseLines(lines).Ok? && p in ParseLines(lines).value
      ensures p.package != "" && p.fromVersion != "" && p.toVersion != ""
    {
      var i :| 0 <= i < |lines| && Outcomes(lines)[i] == Ok(Some(p));
      ParseLineCases(lines[i]);
    }
  }

  /** Collecting two runs of outcomes one after the other gives the entries
      of the first run, then those of the second. */
  lemma {:induction false} CollectConcat(a: seq<Try<Option<PackageUpdateResult>>>,
                                         b: seq<Try<Option<PackageUpdateResult>>>)
    requires Collect(a).Ok? && Collect(b).Ok?
    ensures Collect(a + b) == Ok(Collect(a).value + Collect(b).value)
    decreases |b|
  {
    if |b| == 0 {
      assert a + b == a;
      assert Collect(a).value + [] == Collect(a).value;
    } else {
      var b0 := b[..|b| - 1];
      assert (a + b)[..|a + b| - 1] == a + b0;
      assert (a + b)[|a + b| - 1] == b[|b| - 1];
      CollectConcat(a, b0);
      match b[|b| - 1]
      case Raise(_) =>
      case Ok(None) =>
      case Ok(Some(p)) =>
        assert Collect(a).value + Collect(b0).value + [p] == Collect(a).value + (Collect(b0).value + [p]);
    }
  }

  /** Parsing two runs of lines one after the other gives the entries of
      the first run, then those of the second. */
  lemma ParseLinesConcat(a: seq<string>, b: seq<string>)
    requires ParseLines(a).Ok? && ParseLines(b).Ok?
    ensures ParseLines(a + b) == Ok(ParseLines(a).value + ParseLines(b).value)
  {
    MappedConcat(ParseLine, a, b);
    CollectConcat(Outcomes(a), Outcomes(b));
  }

  /** A version as apt prints it: no space, nothing to strip at its ends. */
  predicate Plain(s: string)
  {
    |s| > 0 && ' ' !in s && s[0] !in BRACKETS && s[|s| - 1] !in BRACKETS
  }

  /** Four space-free words, then the rest, split at spaces. */
  lemma {:induction false} SplitWords(w0: string, w1: string, w2: string, w3: string, rest: string)
    requires ' ' !in w0 && ' ' !in w1 && ' ' !in w2 && ' ' !in w3
    ensures Split(w0 + " " + w1 + " " + w2 + " " + w3 + " " + rest, ' ') == [w0, w1, w2, w3] + Split(rest, ' ')
  {
    var t3 := w3 + [' '] + rest;
    var t2 := w2 + [' '] + t3;
    var t1 := w1 + [' '] + t2;
    var t0 := w0 + [' '] + t1;
    assert w0 + " " + w1 + " " + w2 + " " + w3 + " " + rest == t0;
    SplitCons(w3, ' ', rest);
    SplitCons(w2, ' ', t3);
    SplitCons(w1, ' ', t2);
    SplitCons(w0, ' ', t1);
  }

  /** The line apt prints for a package it would install. */
  function InstText(name: string, fromVersion: string, toVersion: string, rest: string): string
  {
    "Inst" + " " + name + " " + ("[" + fromVersion + "]") + " " + ("(" + toVersion) + " " + rest
  }

  /** A string starts with what it is built from. */
  lemma StartsWithConcat(prefix: string, tail: string)
    ensures StartsWith(prefix + tail, prefix)
  {
    assert (prefix + tail)[..|prefix|] == prefix;
  }

  /** An `Inst` line splits into `Inst`, the name, the bracketed old
      version and the opened new version. */
  lemma InstFields(name: string, fromVersion: string, toVersion: string, rest: string)
    requires Plain(name) && Plain(fromVersion) && Plain(toVersion)
    ensures var line := InstText(name, fromVersion, toVersion, rest);
      StartsWith(line, "Inst ") && |Split(line, ' ')| >= 4
      && Split(line, ' ')[1] == name && Split(line, ' ')[2] == "[" + fromVersion + "]"
      && Split(line, ' ')[3] == "(" + toVersion
  {
    var f2 := "[" + fromVersion + "]";
    var f3 := "(" + toVersion;
    var line := InstText(name, fromVersion, toVersion, rest);
    SplitWords("Inst", name, f2, f3, rest);
    var words := Split(line, ' ');
    assert words == ["Inst", name, f2, f3] + Split(rest, ' ');
    var tail := name + " " + f2 + " " + f3 + " " + rest;
    assert line == "Inst" + " " + tail;
    assert "Inst" + " " == "Inst ";
    StartsWithConcat("Inst ", tail);
  }

  /** `Inst N [v1] (v2 ...` gives N, v1 and v2. */
  lemma InstLine(name: string, fromVersion: string, toVersion: string, rest: string)
    requires Plain(name) && Plain(fromVersion) && Plain(toVersion)
    ensures ParseLine(InstText(name, fromVersion, toVersion, rest))
      == Ok(Some(PackageUpdateResult(name, fromVersion, toVersion)))
  {
    InstFields(name, fromVersion, toVersion, rest);
    EntryOf(name, "[", fromVersion, "]", "(", toVersion, "");
    assert "(" + toVersion + "" == "(" + toVersion;
  }

  /** Fields whose versions are wrapped in brackets give the bare
      versions. */
  lemma EntryOf(name: string, fromPre: string, fromVersion: string, fromPost: string,
                toPre: string, toVersion: string, toPost: string)
    requires Plain(name) && Plain(fromVersion) && Plain(toVersion)
    requires forall c | c in fromPre + fromPost + toPre + toPost :: c in BRACKETS
    ensures Entry(name, fromPre + fromVersion + fromPost, toPre + toVersion + toPost)
      == Some(PackageUpdateResult(name, fromVersion, toVersion))
  {
    assert forall c | c in fromPre :: c in fromPre + fromPost + toPre + toPost;
    assert forall c | c in fromPost :: c in fromPre + fromPost + toPre + toPost;
    assert forall c | c in toPre :: c in fromPre + fromPost + toPre + toPost;
    assert forall c | c in toPost :: c in fromPre + fromPost + toPre + toPost;
    StripCharsWrapped(fromPre, fromVersion, fromPost, BRACKETS);
    StripCharsWrapped(toPre, toVersion, toPost, BRACKETS);
    StripCharsKeeps(name, {' '});
  }

  /** The line apt prints for a package it unpacks over an older one. */
  function UnpackingText(name: string, toVersion: string, fromVersion: string, rest: string): string
  {
    "Unpacking " + name + " (" + toVersion + ") over (" + fromVersion + ") " + rest
  }

  /** An `Unpacking` line is not an `Inst` line. */
  lemma UnpackingStarts(name: string, toVersion: string, fromVersion: string, rest: string)
    ensures var line := UnpackingText(name, toVersion, fromVersion, rest);
      !StartsWith(line, "Inst ") && StartsWith(line, "Unpacking")
  {
    var line := UnpackingText(name, toVersion, fromVersion, rest);
    var tail := " " + name + " (" + toVersion + ") over (" + fromVersion + ") " + rest;
    assert line == "Unpacking" + tail;
    assert line[..9] == "Unpacking";
    assert line[0] == 'U';
  }

  /** The words of an `Unpacking` line. */
  lemma UnpackingSplit(name: string, toVersion: string, fromVersion: string, rest: string)
    requires Plain(name) && Plain(fromVersion) && Plain(toVersion)
    ensures Split(UnpackingText(name, toVersion, fromVersion, rest), ' ')
      == ["Unpacking", name, "(" + toVersion + ")", "over"] + Split("(" + fromVersion + ")" + " " + rest, ' ')
  {
    var f2 := "(" + toVersion + ")";
    var tail := "(" + fromVersion + ")" + " " + rest;
    assert UnpackingText(name, toVersion, fromVersion, rest)
      == "Unpacking" + " " + name + " " + f2 + " " + "over" + " " + tail;
    SplitWords("Unpacking", name, f2, "over", tail);
  }

  /** An `Unpacking` line splits into `Unpacking`, the name, the new
      version, `over` and the old version, each version in parentheses. */
  lemma UnpackingFields(name: string, toVersion: string, fromVersion: string, rest: string)
    requires Plain(name) && Plain(fromVersion) && Plain(toVersion)
    ensures var line := UnpackingText(name, toVersion, fromVersion, rest);
      !StartsWith(line, "Inst ") && StartsWith(line, "Unpacking") && |Split(line, ' ')| >= 5
      && Split(line, ' ')[1] == name && Split(line, ' ')[2] == "(" + toVersion + ")"
      && Split(line, ' ')[4] == "(" + fromVersion + ")"
  {
    UnpackingStarts(name, toVersion, fromVersion, rest);
    UnpackingSplit(name, toVersion, fromVersion, rest);
    var f4 := "(" + fromVersion + ")";
    assert f4 + " " + rest == f4 + [' '] + rest;
    SplitCons(f4, ' ', rest);
  }

  /** `Unpacking N (v2) over (v1) ...` gives N, v1 and v2. */
  lemma UnpackingLine(name: string, toVersion: string, fromVersion: string, rest: string)
    requires Plain(name) && Plain(fromVersion) && Plain(toVersion)
    ensures ParseLine(UnpackingText(name, toVersion, fromVersion, rest))
      == Ok(Some(PackageUpdateResult(name, fromVersion, toVersion)))
  {
    UnpackingFields(name, toVersion, fromVersion, rest);
    EntryOf(name, "(", fromVersion, ")", "(", toVersion, ")");
  }

  /** `parse_result`: the entries of apt's output, line by line. */
  method ParseResult(result: string) returns (r: Try<seq<PackageUpdateResult>>)
    ensures r == ParseLines(Split(result, '\n'))
  {
    var lines := Split(result, '\n');
    ghost var outcomes := Outcomes(lines);
    var packages: seq<PackageUpdateResult> := [];
    var i := 0;
    while i < |lines|
      invariant 0 <= i <= |lines|
      invariant Collect(outcomes[..i]) == Ok(packages)
    {
      var line := lines[i];
      assert outcomes[..i + 1][..i] == outcomes[..i];
      assert outcomes[i] == ParseLine(line);
      var toVersion := "";
      var fromVersion := "";
      var name := "";
      var parts := Split(line, ' ');
      if StartsWith(line, "Inst ") {
        if |parts| < 4 {
          CollectPrefixFails(outcomes, i + 1);
          return Raise(UnpackError(4, |parts|));
        }
        name, fromVersion, toVersion := parts[1], parts[2], parts[3];
      } else if StartsWith(line, "Unpacking") {
        if |parts| < 5 {
          CollectPrefixFails(outcomes, i + 1);
          return Raise(UnpackError(5, |parts|));
        }
        name, toVersion, fromVersion := parts[1], parts[2], parts[4];
      }
      toVersion := StripChars(toVersion, BRACKETS);
      fromVersion := StripChars(fromVersion, BRACKETS);
      name := StripChars(name, {' '});
      if fromVersion != "" && toVersion != "" && name != "" {
        packages := packages + [PackageUpdateResult(name, fromVersion, toVersion)];
      }
      i := i + 1;
    }
    assert outcomes[..i] == outcomes;
    r := Ok(packages);
  }

  /** Once a prefix of the outcomes raises, all of them raise the same
      way. */
  lemma {:induction false} CollectPrefixFails(outcomes: seq<Try<Option<PackageUpdateResult>>>, n: nat)
    requires n <= |outcomes| && Collect(outcomes[..n]).Raise?
    ensures Collect(outcomes) == Collect(outcomes[..n])
    decreases |outcomes| - n
  {
    if n < |outcomes| {
      assert outcomes[..|outcomes| - 1][..n] == outcomes[..n];
      CollectPrefixFails(outcomes[..|outcomes| - 1], n);
    } else {
      assert outcomes[..n] == outcomes;
    }
  }

  // ---------------------------------------------------------------------
  // The apt command
  // ---------------------------------------------------------------------

  /** `UPDATE_TEMPLATE` up to its `{install}` slot. */
  const UPDATE_PREFIX: string :=
    "sudo apt-get update ; sudo apt-get --option=Dpkg::Options::=--force-confold "
    + "--option=Dpkg::Options::=--force-confdef "

  /** `PackageToUpdate`. */
  datatype PackageToUpdate = PackageToUpdate(package: string, version: string)

  function PackageNames(packages: seq<PackageToUpdate>): (r: seq<string>)
    ensures |r| == |packages| && forall i | 0 <= i < |r| :: r[i] == packages[i].package
  {
    seq(|packages|, i requires 0 <= i < |packages| => packages[i].package)
  }

  /** `get_update_command`: a distribution upgrade names no package, an
      install names the packages to update, space-separated; a dry run
      asks apt for `--dry-run`. */
  function GetUpdateCommand(distUpgrade: bool, packages: seq<PackageToUpdate>, dryRun: bool): (r: string)
    ensures StartsWith(r, UPDATE_PREFIX)
    ensures var tail := if dryRun then " --dry-run" else " ";
      |r| >= |tail| && r[|r| - |tail|..] == tail
  {
    var install := if distUpgrade then "dist-upgrade" else "install";
    var names := if distUpgrade then "" else Join(PackageNames(packages), " ");
    var r := UPDATE_PREFIX + install + " --upgrade -y " + names + " " + (if dryRun then "--dry-run" else "");
    assert r[..|UPDATE_PREFIX|] == UPDATE_PREFIX;
    r
  }

  /** A proof step only: `GetUpdateCommand` unfolded into the prefix, the
      apt verb, the package names and the dry-run flag, in that order, for
      `UpdateCommandWords`, `DistUpgradeCommands` and `InstallCommands`. */
  lemma CommandParts(distUpgrade: bool, packages: seq<PackageToUpdate>, dryRun: bool)
    ensures GetUpdateCommand(distUpgrade, packages, dryRun)
      == UPDATE_PREFIX + (if distUpgrade then "dist-upgrade" else "install") + " --upgrade -y "
         + (if distUpgrade then "" else Join(PackageNames(packages), " ")) + " "
         + (if dryRun then "--dry-run" else "")
  {
  }

  /** Splitting joined words followed by one more separator and a last
      piece gives the words, then the pieces of the last one. */
  lemma {:induction false} SplitJoinedThen(words: seq<string>, sep: char, last: string)
    requires |words| >= 1
    requires forall i | 0 <= i < |words| :: sep !in words[i]
    ensures Split(Join(words, [sep]) + [sep] + last, sep) == words + Split(last, sep)
    decreases |words|
  {
    if |words| == 1 {
      SplitCons(words[0], sep, last);
    } else {
      SplitJoinedThen(words[1..], sep, last);
      var rest := Join(words[1..], [sep]);
      var tail := rest + [sep] + last;
      assert Join(words, [sep]) == words[0] + [sep] + rest;
      assert Join(words, [sep]) + [sep] + last == words[0] + [sep] + tail;
      SplitCons(words[0], sep, tail);
      assert [words[0]] + (words[1..] + Split(last, sep)) == words + Split(last, sep) by {
        assert [words[0]] + words[1..] == words;
      }
    }
  }

  /** After the prefix, the command's pieces regrouped from the right,
      one word and its blank at a time. */
  lemma Regroup(prefix: string, verb: string, up: string, yes: string, joined: string, flag: string)
    ensures var c := prefix + verb + ([' '] + up + [' '] + yes + [' ']) + joined + [' '] + flag;
      |c| >= |prefix| &&
      c[|prefix|..] == verb + [' '] + (up + [' '] + (yes + [' '] + (joined + [' '] + flag)))
  {
    var mid := [' '] + up + [' '] + yes + [' '];
    var tail := joined + [' '] + flag;
    assert mid + tail == [' '] + (up + [' '] + (yes + [' '] + tail));
    assert prefix + verb + mid + joined + [' '] + flag == prefix + (verb + (mid + tail));
  }

  /** Words run together with single blanks after a prefix split back
      into those words. */
  lemma PrefixedWords(prefix: string, verb: string, up: string, yes: string, joined: string, flag: string,
                      names: seq<string>)
    requires ' ' !in verb && ' ' !in up && ' ' !in yes && ' ' !in flag
    requires |names| >= 1 && forall i | 0 <= i < |names| :: ' ' !in names[i]
    requires Join(names, [' ']) == joined
    ensures var c := prefix + verb + ([' '] + up + [' '] + yes + [' ']) + joined + [' '] + flag;
      |c| >= |prefix| && Split(c[|prefix|..], ' ') == [verb, up, yes] + names + [flag]
  {
    var tail := joined + [' '] + flag;
    Regroup(prefix, verb, up, yes, joined, flag);
    SplitNoSep(flag, ' ');
    SplitJoinedThen(names, ' ', flag);
    SplitCons(yes, ' ', tail);
    SplitCons(up, ' ', yes + [' '] + tail);
    SplitCons(verb, ' ', up + [' '] + (yes + [' '] + tail));
    var c := prefix + verb + ([' '] + up + [' '] + yes + [' ']) + joined + [' '] + flag;
    assert Split(c[|prefix|..], ' ') == [verb] + ([up] + ([yes] + (names + [flag])));
    ConsThree(verb, up, yes, names + [flag]);
  }

  /** Three elements put in front one at a time. */
  lemma ConsThree<T>(a: T, b: T, c: T, rest: seq<T>)
    ensures [a] + ([b] + ([c] + rest)) == [a, b, c] + rest
  {
  }

  /** The blanks and options between the apt verb and the packages. */
  lemma UpgradeOptions()
    ensures " --upgrade -y " == [' '] + "--upgrade" + [' '] + "-y" + [' ']
  {
  }

  /** After the apt prefix, the command's words are the verb, `--upgrade`,
      `-y`, the package names (one empty word when there are none, as for
      a distribution upgrade) and the dry-run flag (an empty word without
      one), provided no package name holds a blank. */
  lemma UpdateCommandWords(distUpgrade: bool, packages: seq<PackageToUpdate>, dryRun: bool)
    requires forall i | 0 <= i < |packages| :: ' ' !in packages[i].package
    ensures var r := GetUpdateCommand(distUpgrade, packages, dryRun);
      var verb := if distUpgrade then "dist-upgrade" else "install";
      var names := if distUpgrade || |packages| == 0 then [""] else PackageNames(packages);
      var flag := if dryRun then "--dry-run" else "";
      |r| >= |UPDATE_PREFIX| &&
      Split(r[|UPDATE_PREFIX|..], ' ') == [verb, "--upgrade", "-y"] + names + [flag]
  {
    var verb := if distUpgrade then "dist-upgrade" else "install";
    var names := if distUpgrade || |packages| == 0 then [""] else PackageNames(packages);
    var flag := if dryRun then "--dry-run" else "";
    var joined := if distUpgrade then "" else Join(PackageNames(packages), " ");
    CommandParts(distUpgrade, packages, dryRun);
    UpgradeOptions();
    PrefixedWords(UPDATE_PREFIX, verb, "--upgrade", "-y", joined, flag, names);
  }

  /** The words of a distribution upgrade, run together. */
  lemma DistUpgradeWords(prefix: string, flag: string)
    ensures prefix + "dist-upgrade" + " --upgrade -y " + "" + " " + flag
      == prefix + "dist-upgrade --upgrade -y  " + flag
  {
    assert "dist-upgrade" + " --upgrade -y " + "" + " " == "dist-upgrade --upgrade -y  ";
  }

  /** A distribution upgrade names no package, with or without a dry run. */
  lemma DistUpgradeCommands(packages: seq<PackageToUpdate>, dryRun: bool)
    ensures GetUpdateCommand(true, packages, dryRun)
      == UPDATE_PREFIX + "dist-upgrade --upgrade -y  " + (if dryRun then "--dry-run" else "")
  {
    CommandParts(true, packages, dryRun);
    DistUpgradeWords(UPDATE_PREFIX, if dryRun then "--dry-run" else "");
  }

  /** apt and rsync, space-separated. */
  lemma TwoNames()
    ensures Join(PackageNames([PackageToUpdate("apt", "1"), PackageToUpdate("rsync", "2")]), " ") == "apt rsync"
  {
    var names := PackageNames([PackageToUpdate("apt", "1"), PackageToUpdate("rsync", "2")]);
    assert names == ["apt", "rsync"];
    assert names[1..] == ["rsync"];
    assert Join(names[1..], " ") == "rsync";
  }

  /** The words of an install of apt and rsync, run together. */
  lemma InstallWords(prefix: string, flag: string)
    ensures prefix + "install" + " --upgrade -y " + "apt rsync" + " " + flag
      == prefix + "install --upgrade -y apt rsync " + flag
  {
    assert "install" + " --upgrade -y " + "apt rsync" + " " == "install --upgrade -y apt rsync ";
  }

  /** An install of apt and rsync names both, with or without a dry run. */
  lemma InstallCommands(dryRun: bool)
    ensures GetUpdateCommand(false, [PackageToUpdate("apt", "1"), PackageToUpdate("rsync", "2")], dryRun)
      == UPDATE_PREFIX + "install --upgrade -y apt rsync " + (if dryRun then "--dry-run" else "")
  {
    var two := [PackageToUpdate("apt", "1"), PackageToUpdate("rsync", "2")];
    CommandParts(false, two, dryRun);
    TwoNames();
    InstallWords(UPDATE_PREFIX, if dryRun then "--dry-run" else "");
  }

  // ---------------------------------------------------------------------
  // Results per unit
  // ---------------------------------------------------------------------

  /** The fields of a `UnitUpdateResult` at one moment. */
  datatype UnitState = UnitState(unit: string, command: string, rawOutput: Option<string>,
                                 packages: Option<seq<PackageUpdateResult>>, success: bool)

  /** `UnitUpdateResult`: the outcome of the update on one unit, filled in
      after the command has run. */
  class UnitUpdateResult {
    var unit: string
    var command: string
    var rawOutput: Option<string>
    var packages: Option<seq<PackageUpdateResult>>
    var success: bool

    function State(): UnitState
      reads this
    {
      UnitState(unit, command, rawOutput, packages, success)
    }

    /** `UnitUpdateResult(unit=..., command=...)`: nothing run yet. */
    constructor (unit: string, command: string)
      ensures State() == Initial(unit, command)
    {
      this.unit := unit;
      this.command := command;
      rawOutput := Some("");
      packages := None;
      success := false;
    }
  }

  /** A unit result before its command has run. */
  function Initial(unit: string, command: string): UnitState
  {
    UnitState(unit, command, Some(""), None, false)
  }

  function States(units: seq<UnitUpdateResult>): (r: seq<UnitState>)
    reads units
    ensures |r| == |units| && forall i | 0 <= i < |r| :: r[i] == units[i].State()
  {
    seq(|units|, i requires 0 <= i < |units| reads units => units[i].State())
  }

  /** The pairs `(version, package)` a unit is expected to end up with. */
  function ExpectedPairs(expected: seq<PackageToUpdate>): set<(string, string)>
  {
    set e | e in expected :: (e.version, e.package)
  }

  /** The pairs `(to_version, package)` the unit's output reports. */
  function RealPairs(packages: seq<PackageUpdateResult>): set<(string, string)>
  {
    set p | p in packages :: (p.toVersion, p.package)
  }

  /** What `set_success_flags` computes: the expected pairs all among the
      reported ones. */
  predicate Succeeded(packages: seq<PackageUpdateResult>, expected: seq<PackageToUpdate>)
  {
    ExpectedPairs(expected) * RealPairs(packages) == ExpectedPairs(expected)
  }

  /** A unit succeeded exactly when every expected package was reported at
      its expected version; with nothing expected every unit succeeds. */
  lemma SucceededMeaning(packages: seq<PackageUpdateResult>, expected: seq<PackageToUpdate>)
    ensures Succeeded(packages, expected) <==>
      forall e | e in expected :: exists p | p in packages :: p.package == e.package && p.toVersion == e.version
    ensures expected == [] ==> Succeeded(packages, expected)
  {
    if Succeeded(packages, expected) {
      forall e | e in expected
        ensures exists p | p in packages :: p.package == e.package && p.toVersion == e.version
      {
        assert (e.version, e.package) in ExpectedPairs(expected);
        assert (e.version, e.package) in RealPairs(packages);
      }
    }
    if forall e | e in expected :: exists p | p in packages :: p.package == e.package && p.toVersion == e.version {
      forall x | x in ExpectedPairs(expected)
        ensures x in RealPairs(packages)
      {
        var e :| e in expected && x == (e.version, e.package);
        var p :| p in packages && p.package == e.package && p.toVersion == e.version;
        assert (p.toVersion, p.package) == x;
      }
    }
  }

  /** The error of iterating over `None`. */
  const NOT_ITERABLE: Error := TypeError("'NoneType' object is not iterable")

  /** `set_success_flags`: a unit whose output was never parsed raises, and
      is left as it was. */
  method SetSuccessFlags(unit: UnitUpdateResult, expected: seq<PackageToUpdate>) returns (r: Try<()>)
    modifies unit
    ensures old(unit.packages).None? ==> r == Raise(NOT_ITERABLE) && unit.State() == old(unit.State())
    ensures old(unit.packages).Some? ==>
      r == Ok(()) && unit.State() == old(unit.State()).(success := Succeeded(old(unit.packages).value, expected))
  {
    if unit.packages.None? {
      return Raise(NOT_ITERABLE);
    }
    var expectedSet := ExpectedPairs(expected);
    var realSet := RealPairs(unit.packages.value);
    unit.success := expectedSet * realSet == expectedSet;
    r := Ok(());
  }

  // ---------------------------------------------------------------------
  // Laying out the results
  // ---------------------------------------------------------------------

  /** `UpdateResult`: the unit results of one model application. */
  datatype UpdateResult = UpdateResult(units: seq<UnitUpdateResult>, application: string)

  /** `Application` of a patch: which applications to update, how, and the
      results laid out for them. */
  class Application {
    const nameExpr: string
    const distUpgrade: bool
    const packagesToUpdate: seq<PackageToUpdate>
    var results: seq<UpdateResult>

    constructor (nameExpr: string, distUpgrade: bool, packagesToUpdate: seq<PackageToUpdate>)
      ensures this.nameExpr == nameExpr && this.distUpgrade == distUpgrade
      ensures this.packagesToUpdate == packagesToUpdate && results == []
    {
      this.nameExpr := nameExpr;
      this.distUpgrade := distUpgrade;
      this.packagesToUpdate := packagesToUpdate;
      results := [];
    }
  }

  /** An application of the model, as `model.applications` lists it, with
      the names of its units. */
  datatype AppStatus = AppStatus(name: string, units: seq<string>)

  /** The model applications whose name `nameExpr` matches, in the model's
      order; `matches` stands for `re.match`. */
  function Matching(nameExpr: string, statuses: seq<AppStatus>, matches: (string, string) -> bool): seq<AppStatus>
    decreases |statuses|
  {
    if |statuses| == 0 then []
    else
      var last := statuses[|statuses| - 1];
      Matching(nameExpr, statuses[..|statuses| - 1], matches) + (if matches(nameExpr, last.name) then [last] else [])
  }

  /** An application is matched exactly when `re.match` accepts its name,
      and the matches keep the model's order. */
  lemma MatchingMeaning(nameExpr: string, statuses: seq<AppStatus>, matches: (string, string) -> bool)
    ensures forall a :: a in Matching(nameExpr, statuses, matches) <==> a in statuses && matches(nameExpr, a.name)
    ensures |Matching(nameExpr, statuses, matches)| <= |statuses|
    ensures (forall a | a in statuses :: matches(nameExpr, a.name)) ==> Matching(nameExpr, statuses, matches) == statuses
  {
    MatchingMembers(nameExpr, statuses, matches);
    MatchingLength(nameExpr, statuses, matches);
    if forall a | a in statuses :: matches(nameExpr, a.name) {
      MatchingAll(nameExpr, statuses, matches);
    }
  }

  /** The statuses are their prefix and their last one. */
  lemma InitLast(statuses: seq<AppStatus>, a: AppStatus)
    requires |statuses| > 0
    ensures a in statuses <==> a in statuses[..|statuses| - 1] || a == statuses[|statuses| - 1]
  {
    var init := statuses[..|statuses| - 1];
    assert statuses == init + [statuses[|statuses| - 1]];
  }

  lemma {:induction false} MatchingMembers(nameExpr: string, statuses: seq<AppStatus>, matches: (string, string) -> bool)
    ensures forall a :: a in Matching(nameExpr, statuses, matches) <==> a in statuses && matches(nameExpr, a.name)
    decreases |statuses|
  {
    if |statuses| > 0 {
      var init := statuses[..|statuses| - 1];
      MatchingMembers(nameExpr, init, matches);
      forall a
        ensures a in Matching(nameExpr, statuses, matches) <==> a in statuses && matches(nameExpr, a.name)
      {
        InitLast(statuses, a);
      }
    }
  }

  lemma {:induction false} MatchingLength(nameExpr: string, statuses: seq<AppStatus>, matches: (string, string) -> bool)
    ensures |Matching(nameExpr, statuses, matches)| <= |statuses|
    decreases |statuses|
  {
    if |statuses| > 0 {
      MatchingLength(nameExpr, statuses[..|statuses| - 1], matches);
    }
  }

  lemma {:induction false} MatchingAll(nameExpr: string, statuses: seq<AppStatus>, matches: (string, string) -> bool)
    requires forall a | a in statuses :: matches(nameExpr, a.name)
    ensures Matching(nameExpr, statuses, matches) == statuses
    decreases |statuses|
  {
    if |statuses| > 0 {
      var init := statuses[..|statuses| - 1];
      forall a | a in init
        ensures matches(nameExpr, a.name)
      {
        InitLast(statuses, a);
      }
      MatchingAll(nameExpr, init, matches);
      assert init + [statuses[|statuses| - 1]] == statuses;
    }
  }

  /** The unit objects of some results. */
  function UnitsOf(results: seq<UpdateResult>): (r: set<UnitUpdateResult>)
    ensures forall i, u | 0 <= i < |results| && u in results[i].units :: u in r
  {
    set i, u | 0 <= i < |results| && u in results[i].units :: u
  }

  /** Appending a result adds its units. */
  lemma UnitsOfSnoc(results: seq<UpdateResult>, last: UpdateResult)
    ensures UnitsOf(results + [last]) == UnitsOf(results) + set u | u in last.units
  {
    var all := results + [last];
    forall u | u in UnitsOf(all)
      ensures u in UnitsOf(results) || u in last.units
    {
      var i :| 0 <= i < |all| && u in all[i].units;
      if i < |results| {
        assert all[i] == results[i];
      }
    }
    forall u | u in last.units
      ensures u in UnitsOf(all)
    {
      assert all[|results|] == last;
    }
    forall u | u in UnitsOf(results)
      ensures u in UnitsOf(all)
    {
      var i :| 0 <= i < |results| && u in results[i].units;
      assert all[i] == results[i];
    }
  }

  /** `added` lays out `planned`: one result per planned application, named
      after it, with one fresh unit result per unit carrying `command`. */
  predicate Appended(added: seq<UpdateResult>, planned: seq<AppStatus>, command: string)
    reads UnitsOf(added)
  {
    |added| == |planned| &&
    forall j | 0 <= j < |added| ::
      added[j].application == planned[j].name &&
      States(added[j].units) == Initials(planned[j].units, command)
  }

  /** Fresh unit results for `names`. */
  function Initials(names: seq<string>, command: string): (r: seq<UnitState>)
    ensures |r| == |names|
    ensures forall k | 0 <= k < |r| :: r[k] == Initial(names[k], command) && !r[k].success && r[k].packages.None?
  {
    seq(|names|, k requires 0 <= k < |names| => Initial(names[k], command))
  }

  /** One more result laid out for one more planned application. */
  lemma AppendedSnoc(added: seq<UpdateResult>, planned: seq<AppStatus>, command: string,
                     next: UpdateResult, status: AppStatus)
    requires Appended(added, planned, command)
    requires next.application == status.name && States(next.units) == Initials(status.units, command)
    ensures Appended(added + [next], planned + [status], command)
  {
    UnitsOfSnoc(added, next);
    var all := added + [next];
    forall j | 0 <= j < |all|
      ensures all[j].application == (planned + [status])[j].name
      ensures States(all[j].units) == Initials((planned + [status])[j].units, command)
    {
      if j < |added| {
        assert all[j] == added[j];
      }
    }
  }

  /** One unit result per unit name, each a new object. */
  method NewUnits(names: seq<string>, command: string) returns (units: seq<UnitUpdateResult>)
    ensures States(units) == Initials(names, command)
    ensures forall u | u in units :: fresh(u)
  {
    units := [];
    var i := 0;
    while i < |names|
      invariant 0 <= i <= |names|
      invariant States(units) == seq(i, k requires 0 <= k < i => Initial(names[k], command))
      invariant forall u | u in units :: fresh(u)
    {
      var u := new UnitUpdateResult(names[i], command);
      units := units + [u];
      i := i + 1;
    }
    assert Initials(names, command) == seq(i, k requires 0 <= k < i => Initial(names[k], command));
  }

  /** The inner loop of `set_apps_to_update` for one patch application:
      the results it appends, one per model application `nameExpr` matches. */
  method MatchedResults(nameExpr: string, statuses: seq<AppStatus>, command: string,
                        matches: (string, string) -> bool)
    returns (added: seq<UpdateResult>)
    ensures Appended(added, Matching(nameExpr, statuses, matches), command)
    ensures forall u | u in UnitsOf(added) :: fresh(u)
  {
    added := [];
    var i := 0;
    while i < |statuses|
      invariant 0 <= i <= |statuses|
      invariant Appended(added, Matching(nameExpr, statuses[..i], matches), command)
      invariant forall u | u in UnitsOf(added) :: fresh(u)
    {
      var status := statuses[i];
      assert statuses[..i + 1][..i] == statuses[..i];
      if matches(nameExpr, status.name) {
        var units := NewUnits(status.units, command);
        var next := UpdateResult(units, status.name);
        UnitsOfSnoc(added, next);
        AppendedSnoc(added, Matching(nameExpr, statuses[..i], matches), command, next, status);
        added := added + [next];
      }
      i := i + 1;
    }
    assert statuses[..i] == statuses;
  }

  /** One patch application gets its new results after those it had. */
  method AddResults(app: Application, statuses: seq<AppStatus>, command: string,
                    matches: (string, string) -> bool)
    modifies app
    ensures Extended(app.results, old(app.results), app.nameExpr, command, statuses, matches)
  {
    var added := MatchedResults(app.nameExpr, statuses, command, matches);
    app.results := app.results + added;
    assert app.results[..|old(app.results)|] == old(app.results);
    assert app.results[|old(app.results)|..] == added;
  }

  /** `results` hold, after the results `before` an application had, one
      result per model application its name `nameExpr` matches, each set up
      for `command`. */
  ghost predicate Extended(results: seq<UpdateResult>, before: seq<UpdateResult>, nameExpr: string, command: string,
                           statuses: seq<AppStatus>, matches: (string, string) -> bool)
    reads UnitsOf(results)
  {
    |results| >= |before| && results[..|before|] == before &&
    Appended(results[|before|..], Matching(nameExpr, statuses, matches), command)
  }

  /** `set_apps_to_update`: every patch application gets, after the results
      it already had, one result per model application its name matches. */
  method SetAppsToUpdate(apps: seq<Application>, statuses: seq<AppStatus>, dryRun: bool,
                         matches: (string, string) -> bool)
    requires forall i, j | 0 <= i < j < |apps| :: apps[i] != apps[j]
    modifies apps
    ensures forall k | 0 <= k < |apps| ::
      Extended(apps[k].results, old(apps[k].results), apps[k].nameExpr,
               GetUpdateCommand(apps[k].distUpgrade, apps[k].packagesToUpdate, dryRun), statuses, matches)
  {
    var k := 0;
    while k < |apps|
      invariant 0 <= k <= |apps|
      invariant forall j | k <= j < |apps| :: apps[j].results == old(apps[j].results)
      invariant forall j | 0 <= j < k ::
        Extended(apps[j].results, old(apps[j].results), apps[j].nameExpr,
                 GetUpdateCommand(apps[j].distUpgrade, apps[j].packagesToUpdate, dryRun), statuses, matches)
    {
      var app := apps[k];
      var command := GetUpdateCommand(app.distUpgrade, app.packagesToUpdate, dryRun);
      AddResults(app, statuses, command, matches);
      k := k + 1;
    }
  }
}
