/** `juju_spell/cli/update_packages.py`: turns the patch file of
    `update-packages` into the applications to update, collecting every
    `dist_upgrade` that is not a boolean into one error. */
module CliUpdatePackages {
  import opened Common
  import opened Strings

  /** A package to update as the patch file gives it. */
  datatype PackageSpec = PackageSpec(package: Value, version: Value)

  /** An application of the patch file: `name_expr`, `dist_upgrade` and
      `packages_to_update`, with the values the file holds. */
  datatype AppSpec = AppSpec(nameExpr: Value, distUpgrade: Value, packages: seq<PackageSpec>)

  /** `for x in v`: only lists are iterated here. */
  function Items(v: Value): (r: Try<seq<Value>>)
    ensures r.Ok? <==> v.List?
  {
    match v
    case List(xs) => Ok(xs)
    case Null => Raise(TypeError("'NoneType' object is not iterable"))
    case _ => Raise(TypeError("object is not iterable"))
  }

  /** `str(v)` inside an f-string, for the scalars a YAML file holds. */
  function Display(v: Value): string
  {
    match v
    case Null => "None"
    case Bool(b) => if b then "True" else "False"
    case Int(i) => IntToString(i)
    case Str(s) => s
    case List(_) => "[...]"
    case Dict(_) => "{...}"
  }

  /** The error line for an application whose `dist_upgrade` is not a
      boolean. */
  function NotBool(name: Value): string
  {
    "application['" + Display(name) + "'].dist_upgrade should be bool"
  }

  /** `PackageToUpdate(package=package["app"], version=package.get("version", None))`. */
  function PackageOf(package: Value): (r: Try<PackageSpec>)
    ensures r.Ok? <==> package.Dict? && "app" in package.entries
  {
    match Index(package, "app")
    case Raise(e) => Raise(e)
    case Ok(name) =>
      match GetOr(package, "version", Null)
      case Raise(e) => Raise(e)
      case Ok(version) => Ok(PackageSpec(name, version))
  }

  /** The packages of one application, in order; the first one that
      cannot be read decides the error. */
  function PackagesOf(items: seq<Value>): Try<seq<PackageSpec>>
    decreases |items|
  {
    if |items| == 0 then Ok([])
    else
      match PackagesOf(items[..|items| - 1])
      case Raise(e) => Raise(e)
      case Ok(ps) =>
        match PackageOf(items[|items| - 1])
        case Raise(e) => Raise(e)
        case Ok(p) => Ok(ps + [p])
  }

  /** One application: its specification and, when its `dist_upgrade` is
      not a boolean, the error line it adds. */
  function AppOf(app: Value): Try<(AppSpec, Option<string>)>
  {
    match GetOr(app, "packages_to_update", List([]))
    case Raise(e) => Raise(e)
    case Ok(listed) =>
      match Items(listed)
      case Raise(e) => Raise(e)
      case Ok(items) =>
        match PackagesOf(items)
        case Raise(e) => Raise(e)
        case Ok(packages) =>
          match GetOr(app, "dist_upgrade", Bool(false))
          case Raise(e) => Raise(e)
          case Ok(dist) =>
            match Index(app, "application")
            case Raise(e) => Raise(e)
            case Ok(name) =>
              Ok((AppSpec(name, dist, packages), if dist.Bool? then None else Some(NotBool(name))))
  }

  /** The applications and the error lines, in file order; the first
      application that cannot be read decides the error. */
  function Converted(apps: seq<Value>): Try<(seq<AppSpec>, seq<string>)>
    decreases |apps|
  {
    if |apps| == 0 then Ok(([], []))
    else
      match Converted(apps[..|apps| - 1])
      case Raise(e) => Raise(e)
      case Ok(done) =>
        match AppOf(apps[|apps| - 1])
        case Raise(e) => Raise(e)
        case Ok(one) =>
          Ok((done.0 + [one.0], done.1 + (if one.1.Some? then [one.1.value] else [])))
  }

  /** The whole conversion: the error lines, when there are any, become
      one error, one line each after a header line. */
  function PatchConfig(patch: Value): Try<seq<AppSpec>>
  {
    match Index(patch, "applications")
    case Raise(e) => Raise(e)
    case Ok(listed) =>
      match Items(listed)
      case Raise(e) => Raise(e)
      case Ok(apps) =>
        match Converted(apps)
        case Raise(e) => Raise(e)
        case Ok(done) =>
          if |done.1| > 0 then Raise(JujuSpellError("errors in input file:\n" + Join(done.1, "\n")))
          else Ok(done.0)
  }

  /** The packages of one application, as the inner loop reads them. */
  method ReadPackages(items: seq<Value>) returns (r: Try<seq<PackageSpec>>)
    ensures r == PackagesOf(items)
  {
    var packages: seq<PackageSpec> := [];
    var i := 0;
    while i < |items|
      invariant 0 <= i <= |items|
      invariant PackagesOf(items[..i]) == Ok(packages)
    {
      assert items[..i + 1][..i] == items[..i];
      var name := Index(items[i], "app");
      if name.Raise? {
        PackagesPrefixFails(items, i + 1);
        return Raise(name.error);
      }
      var version := GetOr(items[i], "version", Null);
      packages := packages + [PackageSpec(name.value, version.value)];
      i := i + 1;
    }
    assert items[..i] == items;
    r := Ok(packages);
  }

  lemma {:induction false} PackagesPrefixFails(items: seq<Value>, n: nat)
    requires n <= |items| && PackagesOf(items[..n]).Raise?
    ensures PackagesOf(items) == PackagesOf(items[..n])
    decreases |items| - n
  {
    if n < |items| {
      assert items[..|items| - 1][..n] == items[..n];
      PackagesPrefixFails(items[..|items| - 1], n);
    } else {
      assert items[..n] == items;
    }
  }

  lemma {:induction false} ConvertedPrefixFails(apps: seq<Value>, n: nat)
    requires n <= |apps| && Converted(apps[..n]).Raise?
    ensures Converted(apps) == Converted(apps[..n])
    decreases |apps| - n
  {
    if n < |apps| {
      assert apps[..|apps| - 1][..n] == apps[..n];
      ConvertedPrefixFails(apps[..|apps| - 1], n);
    } else {
      assert apps[..n] == apps;
    }
  }

  /** `get_patch_config`: `patch` is what the YAML file holds. */
  method GetPatchConfig(patch: Value) returns (r: Try<seq<AppSpec>>)
    ensures r == PatchConfig(patch)
  {
    var listed := Index(patch, "applications");
    if listed.Raise? {
      return Raise(listed.error);
    }
    var items := Items(listed.value);
    if items.Raise? {
      return Raise(items.error);
    }
    var apps := items.value;
    var applications: seq<AppSpec> := [];
    var errors: seq<string> := [];
    var i := 0;
    while i < |apps|
      invariant 0 <= i <= |apps|
      invariant Converted(apps[..i]) == Ok((applications, errors))
    {
      assert apps[..i + 1][..i] == apps[..i];
      var app := apps[i];
      var given := GetOr(app, "packages_to_update", List([]));
      if given.Raise? {
        ConvertedPrefixFails(apps, i + 1);
        return Raise(given.error);
      }
      var packageItems := Items(given.value);
      if packageItems.Raise? {
        ConvertedPrefixFails(apps, i + 1);
        return Raise(packageItems.error);
      }
      var packages := ReadPackages(packageItems.value);
      if packages.Raise? {
        ConvertedPrefixFails(apps, i + 1);
        return Raise(packages.error);
      }
      var dist := GetOr(app, "dist_upgrade", Bool(false));
      var name := Index(app, "application");
      if name.Raise? {
        ConvertedPrefixFails(apps, i + 1);
        return Raise(name.error);
      }
      assert AppOf(app) == Ok((AppSpec(name.value, dist.value, packages.value),
                               if dist.value.Bool? then None else Some(NotBool(name.value))));
      ghost var before := errors;
      if !dist.value.Bool? {
        errors := errors + [NotBool(name.value)];
      }
      assert errors == before + (if dist.value.Bool? then [] else [NotBool(name.value)]);
      applications := applications + [AppSpec(name.value, dist.value, packages.value)];
      assert apps[..i + 1][i] == app;
      i := i + 1;
    }
    assert apps[..i] == apps;
    if |errors| > 0 {
      return Raise(JujuSpellError("errors in input file:\n" + Join(errors, "\n")));
    }
    r := Ok(applications);
  }

  /** Every application read keeps its place. */
  lemma {:induction false} ConvertedApps(apps: seq<Value>)
    requires Converted(apps).Ok?
    ensures var done := Converted(apps).value;
      |done.0| == |apps| &&
      forall i | 0 <= i < |apps| :: AppOf(apps[i]).Ok? && done.0[i] == AppOf(apps[i]).value.0
    decreases |apps|
  {
    if |apps| > 0 {
      var init := apps[..|apps| - 1];
      ConvertedApps(init);
      var done := Converted(apps).value.0;
      var before := Converted(init).value.0;
      assert done == before + [AppOf(apps[|apps| - 1]).value.0];
      forall i | 0 <= i < |init|
        ensures AppOf(apps[i]).Ok? && done[i] == AppOf(apps[i]).value.0
      {
        assert apps[i] == init[i];
      }
    }
  }

  /** An error line is collected for exactly the applications whose
      `dist_upgrade` is not a boolean, in order. */
  lemma {:induction false} ConvertedLines(apps: seq<Value>)
    requires Converted(apps).Ok?
    ensures Converted(apps).value.1 == NotBoolLines(Converted(apps).value.0)
    decreases |apps|
  {
    if |apps| > 0 {
      var init := apps[..|apps| - 1];
      ConvertedLines(init);
      var done := Converted(apps).value.0;
      var before := Converted(init).value.0;
      assert done == before + [AppOf(apps[|apps| - 1]).value.0];
      assert done[..|done| - 1] == before;
    }
  }

  /** The error lines of the applications whose `dist_upgrade` is not a
      boolean, in order. */
  function NotBoolLines(specs: seq<AppSpec>): seq<string>
    decreases |specs|
  {
    if |specs| == 0 then []
    else
      var last := specs[|specs| - 1];
      NotBoolLines(specs[..|specs| - 1]) + (if last.distUpgrade.Bool? then [] else [NotBool(last.nameExpr)])
  }

  /** No error line is collected exactly when every `dist_upgrade` is a
      boolean. */
  lemma {:induction false} NoLinesAllBool(specs: seq<AppSpec>)
    ensures NotBoolLines(specs) == [] <==> forall i | 0 <= i < |specs| :: specs[i].distUpgrade.Bool?
    decreases |specs|
  {
    if |specs| > 0 {
      var init := specs[..|specs| - 1];
      NoLinesAllBool(init);
      if forall i | 0 <= i < |specs| :: specs[i].distUpgrade.Bool? {
        forall i | 0 <= i < |init|
          ensures init[i].distUpgrade.Bool?
        {
          assert init[i] == specs[i];
        }
      }
      if NotBoolLines(specs) == [] {
        forall i | 0 <= i < |specs|
          ensures specs[i].distUpgrade.Bool?
        {
          if i < |init| {
            assert init[i] == specs[i];
          }
        }
      }
    }
  }

  /** A patch file is accepted only when every application it lists has
      a boolean `dist_upgrade`, and then it gives one application per
      entry, in order; with some other `dist_upgrade` it is rejected with
      the lines of all of them. */
  lemma PatchAccepted(patch: Value)
    requires Index(patch, "applications").Ok? && Items(Index(patch, "applications").value).Ok?
    requires Converted(Items(Index(patch, "applications").value).value).Ok?
    ensures var apps := Items(Index(patch, "applications").value).value;
      var done := Converted(apps).value;
      |done.0| == |apps| &&
      (PatchConfig(patch).Ok? <==> forall i | 0 <= i < |apps| :: done.0[i].distUpgrade.Bool?) &&
      (PatchConfig(patch).Ok? ==> PatchConfig(patch).value == done.0) &&
      (PatchConfig(patch).Raise? ==>
        PatchConfig(patch).error == JujuSpellError("errors in input file:\n" + Join(NotBoolLines(done.0), "\n")))
  {
    var apps := Items(Index(patch, "applications").value).value;
    ConvertedApps(apps);
    ConvertedLines(apps);
    NoLinesAllBool(Converted(apps).value.0);
  }
}
