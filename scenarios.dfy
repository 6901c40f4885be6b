/**
 Clients of the builder. Each method drives a fresh builder through a short
 sequence of calls and states, from the builder's contracts alone, what the
 calls return.
 */
module CatalogScenarios {
  import opened AliasNames
  import opened Catalog

  /** A bundle naming an alias that was never declared makes `Build` fail, naming both. */
  method MissingAliasIsReported() returns (r: Result<AllDependenciesModel>)
    ensures r == Failure(UnknownAlias("b1", "x"))
  {
    var b := new DependenciesModelBuilder();
    var put := b.Bundle("b1", ["x"]);
    assert put == Success(None);
    r := b.Build();
    assert FirstAbsent(["x"], {}) == Some(0);
  }

  /** Declaring the alias first lets `Build` succeed, and the bundle resolves to that alias's coordinates. */
  method DeclaredAliasResolves() returns (r: Result<AllDependenciesModel>)
    ensures r.Success?
    ensures r.value.bundles == map["b1" := ["guava"]]
    ensures r.value.dependencies == map["guava" := DependencyModel("g", "a", VersionConstraint("1.0"))]
  {
    var b := new DependenciesModelBuilder();
    var put := b.Alias("guava", "g", "a", VersionConstraint("1.0"));
    put := b.Bundle("b1", ["guava"]);
    r := b.Build();
    assert FirstAbsent(["guava"], {"guava"}) == None;
  }

  /** Redeclaring an alias warns once, on the second call, and the second declaration wins. */
  method RedeclaredAliasWarnsOnce() returns (first: Result<Option<Warning>>, second: Result<Option<Warning>>, r: Result<AllDependenciesModel>)
    ensures first == Success(None)
    ensures second == Success(Some(DuplicateAlias("guava", DependencyModel("g", "a", VersionConstraint("1.0")), DependencyModel("g", "a", VersionConstraint("2.0")))))
    ensures r == Success(AllDependenciesModel(map["guava" := DependencyModel("g", "a", VersionConstraint("2.0"))], ["guava"], map[], []))
  {
    var b := new DependenciesModelBuilder();
    assert IsValidName("guava");
    first := b.Alias("guava", "g", "a", VersionConstraint("1.0"));
    assert b.dependencyOrder == ["guava"] && b.bundleOrder == [];
    second := b.Alias("guava", "g", "a", VersionConstraint("2.0"));
    assert b.dependencyOrder == ["guava"] && b.bundleOrder == [];
    assert b.dependencies == map["guava" := DependencyModel("g", "a", VersionConstraint("2.0"))];
    r := b.Build();
  }

  /** A bundle keeps its alias list as given, repeated entries included. */
  method BundleKeepsDuplicates() returns (r: Result<AllDependenciesModel>)
    ensures r.Success? && "all" in r.value.bundles && r.value.bundles["all"] == ["guava", "guava"]
  {
    var b := new DependenciesModelBuilder();
    assert IsValidName("guava") && IsValidName("all");
    var put := b.Alias("guava", "g", "guava", VersionConstraint(""));
    put := b.Bundle("all", ["guava", "guava"]);
    assert b.bundleOrder == ["all"] && b.bundles == map["all" := ["guava", "guava"]];
    assert FirstAbsent(["guava", "guava"], {"guava"}) == None;
    assert FirstUnresolved(b.bundleOrder, b.bundles, b.dependencies.Keys) == None;
    r := b.Build();
  }

  /** The names "a" and "Ab" are refused and leave the builder empty. */
  method BadNamesChangeNothing() returns (e1: Result<Option<Warning>>, e2: Result<Option<Warning>>, r: Result<AllDependenciesModel>)
    ensures e1 == Failure(InvalidName(AliasKind, "a"))
    ensures e2 == Failure(InvalidName(BundleKind, "Ab"))
    ensures r == Success(AllDependenciesModel(map[], [], map[], []))
  {
    var b := new DependenciesModelBuilder();
    e1 := b.Alias("a", "g", "a", VersionConstraint(""));
    e2 := b.Bundle("Ab", []);
    r := b.Build();
  }

  /** Building twice without a call in between gives equal results. */
  method BuildTwice(b: DependenciesModelBuilder) returns (r1: Result<AllDependenciesModel>, r2: Result<AllDependenciesModel>)
    requires b.Valid()
    ensures r1 == r2
  {
    r1 := b.Build();
    r2 := b.Build();
  }

  /** The extension names are "libs" and "projects" until set, and the set value afterwards. */
  method ExtensionNames() returns (libs: string, projects: string, libsAfter: string, projectsAfter: string)
    ensures libs == "libs" && projects == "projects"
    ensures libsAfter == "deps" && projectsAfter == "modules"
  {
    var b := new DependenciesModelBuilder();
    libs, projects := b.LibrariesExtensionName(), b.ProjectsExtensionName();
    b.SetLibrariesExtensionName("deps");
    b.SetProjectsExtensionName("modules");
    libsAfter, projectsAfter := b.LibrariesExtensionName(), b.ProjectsExtensionName();
  }
}
