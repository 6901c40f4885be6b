/**
 The dependency-catalog builder: it accumulates aliases (a name for one
 dependency coordinate) and bundles (a name for an ordered list of alias
 names), and `Build` turns them into an immutable catalog once every alias a
 bundle refers to has been declared.

 Each of the builder's two insertion-ordered maps is a `map` together with
 the `seq` of its keys in the order they were first inserted; putting an
 existing key replaces its value and keeps its position.
 */
module Catalog {
  import opened AliasNames

  datatype Option<+T> = None | Some(value: T)

  /** A version constraint that has already been configured and frozen; its structure is not modelled. */
  datatype VersionConstraint = VersionConstraint(text: string)

  /** The coordinates an alias stands for. */
  datatype DependencyModel = DependencyModel(group: string, name: string, version: VersionConstraint)

  /** Which kind of name a naming error is about. */
  datatype NameKind = AliasKind | BundleKind

  datatype CatalogError =
    | InvalidName(kind: NameKind, value: string)
    | UnknownAlias(bundle: string, alias: string)

  datatype Result<+T> = Success(value: T) | Failure(error: CatalogError)

  /** The diagnostic logged when a put replaces an existing entry: the key, the discarded value and the new one. */
  datatype Warning =
    | DuplicateAlias(alias: string, previous: DependencyModel, replacement: DependencyModel)
    | DuplicateBundle(bundle: string, previousAliases: seq<string>, replacementAliases: seq<string>)

  /** The immutable catalog `Build` returns: copies of both maps, in insertion order. */
  datatype AllDependenciesModel = AllDependenciesModel(
    dependencies: map<string, DependencyModel>,
    dependencyOrder: seq<string>,
    bundles: map<string, seq<string>>,
    bundleOrder: seq<string>)

  const DefaultLibrariesExtensionName: string := "libs"
  const DefaultProjectsExtensionName: string := "projects"

  /** `order` lists every key of `m` exactly once: the key sequence of an insertion-ordered map. */
  ghost predicate InsertionOrder<V>(order: seq<string>, m: map<string, V>)
  {
    && (forall i, j :: 0 <= i < j < |order| ==> order[i] != order[j])
    && (forall k :: k in m <==> k in order)
  }

  /** A put keeps the key sequence in step with the map: a new key goes last, an existing key keeps its place. */
  lemma PutKeepsInsertionOrder<V>(order: seq<string>, m: map<string, V>, k: string, v: V)
    requires InsertionOrder(order, m)
    ensures InsertionOrder(if k in m then order else order + [k], m[k := v])
  {
  }

  /** Checks a name against the naming rule; `kind` says whether it names an alias or a bundle. */
  function ValidateName(kind: NameKind, value: string): (r: Result<()>)
    ensures r.Success? <==> Matches(AliasRegex, value)
    ensures r.Failure? ==> r.error == InvalidName(kind, value)
  {
    AliasRegexMatches(value);
    if IsValidName(value) then Success(()) else Failure(InvalidName(kind, value))
  }

  /** The index of the first alias of `aliases` that is not in `present`, if any. */
  function FirstAbsent(aliases: seq<string>, present: set<string>): (r: Option<nat>)
    ensures r.None? <==> forall l :: 0 <= l < |aliases| ==> aliases[l] in present
    ensures r.Some? ==>
      && r.value < |aliases|
      && aliases[r.value] !in present
      && forall l :: 0 <= l < r.value ==> aliases[l] in present
  {
    if |aliases| == 0 then None
    else if aliases[0] !in present then Some(0)
    else
      match FirstAbsent(aliases[1..], present)
      case None => None
      case Some(l) => Some(l + 1)
  }

  /**
   The first (bundle index, alias index) whose alias is not in `present`,
   scanning the bundles named by `order` in turn and each bundle's list in turn.
   */
  function FirstUnresolved(order: seq<string>, bundles: map<string, seq<string>>, present: set<string>): (r: Option<(nat, nat)>)
    requires forall i :: 0 <= i < |order| ==> order[i] in bundles
    ensures r.None? <==>
      forall i, l :: 0 <= i < |order| && 0 <= l < |bundles[order[i]]| ==> bundles[order[i]][l] in present
    ensures r.Some? ==>
      && r.value.0 < |order|
      && r.value.1 < |bundles[order[r.value.0]]|
      && bundles[order[r.value.0]][r.value.1] !in present
      && forall i, l :: 0 <= i < |order| && 0 <= l < |bundles[order[i]]| && (i < r.value.0 || (i == r.value.0 && l < r.value.1))
           ==> bundles[order[i]][l] in present
  {
    if |order| == 0 then None
    else
      match FirstAbsent(bundles[order[0]], present)
      case Some(l) => Some((0, l))
      case None =>
        var rest := FirstUnresolved(order[1..], bundles, present);
        assert forall i :: 1 <= i < |order| ==> order[1..][i - 1] == order[i];
        match rest
        case None => None
        case Some(pos) => Some((pos.0 + 1, pos.1))
  }

  /**
   Whatever order the bundles are scanned in, the scan finds nothing exactly
   when every alias that any bundle lists is present.
   */
  lemma UnresolvedIffDangling(order: seq<string>, bundles: map<string, seq<string>>, present: set<string>)
    requires InsertionOrder(order, bundles)
    ensures FirstUnresolved(order, bundles, present).None? <==>
      forall b, a :: b in bundles && a in bundles[b] ==> a in present
  {
  }

  class DependenciesModelBuilder {
    /** The string pool: every string the builder has interned. */
    var strings: set<string>
    /** The version-constraint pool. */
    var versions: set<VersionConstraint>
    var dependencies: map<string, DependencyModel>
    var dependencyOrder: seq<string>
    var bundles: map<string, seq<string>>
    var bundleOrder: seq<string>
    /** The explicitly set extension names; None falls back to the default. */
    var librariesExtensionName: Option<string>
    var projectsExtensionName: Option<string>

    /** Every name, coordinate and version held in the two maps went through a pool. */
    ghost predicate Pooled()
      reads this
    {
      && (forall a :: a in dependencies ==>
            && a in strings
            && dependencies[a].group in strings
            && dependencies[a].name in strings
            && dependencies[a].version in versions)
      && (forall b :: b in bundles ==> b in strings && forall a :: a in bundles[b] ==> a in strings)
    }

    ghost predicate Valid()
      reads this
    {
      && InsertionOrder(dependencyOrder, dependencies)
      && InsertionOrder(bundleOrder, bundles)
      && Pooled()
    }

    constructor ()
      ensures Valid()
      ensures dependencies == map[] && dependencyOrder == []
      ensures bundles == map[] && bundleOrder == []
      ensures strings == {} && versions == {}
      ensures LibrariesExtensionName() == DefaultLibrariesExtensionName
      ensures ProjectsExtensionName() == DefaultProjectsExtensionName
    {
      strings, versions := {}, {};
      dependencies, dependencyOrder := map[], [];
      bundles, bundleOrder := map[], [];
      librariesExtensionName, projectsExtensionName := None, None;
    }

    /** The name of the libraries extension: the value set last, or "libs". */
    function LibrariesExtensionName(): (r: string)
      reads this
      ensures librariesExtensionName.None? ==> r == DefaultLibrariesExtensionName
      ensures librariesExtensionName.Some? ==> r == librariesExtensionName.value
    {
      match librariesExtensionName
      case Some(n) => n
      case None => DefaultLibrariesExtensionName
    }

    /** The name of the projects extension: the value set last, or "projects". */
    function ProjectsExtensionName(): (r: string)
      reads this
      ensures projectsExtensionName.None? ==> r == DefaultProjectsExtensionName
      ensures projectsExtensionName.Some? ==> r == projectsExtensionName.value
    {
      match projectsExtensionName
      case Some(n) => n
      case None => DefaultProjectsExtensionName
    }

    method SetLibrariesExtensionName(n: string)
      modifies this`librariesExtensionName
      ensures LibrariesExtensionName() == n
    {
      librariesExtensionName := Some(n);
    }

    method SetProjectsExtensionName(n: string)
      modifies this`projectsExtensionName
      ensures ProjectsExtensionName() == n
    {
      projectsExtensionName := Some(n);
    }

    /** Returns the pooled string equal to `value`, adding it to the pool first if needed. */
    method Intern(value: string) returns (r: string)
      modifies this`strings
      ensures r == value && r in strings
      ensures strings == old(strings) + {value}
    {
      strings := strings + {value};
      r := value;
    }

    /** Returns the pooled version constraint equal to `value`, adding it to the pool first if needed. */
    method InternVersion(value: VersionConstraint) returns (r: VersionConstraint)
      modifies this`versions
      ensures r == value && r in versions
      ensures versions == old(versions) + {value}
    {
      versions := versions + {value};
      r := value;
    }

    /**
     Declares `alias` for the given coordinates. A name that breaks the
     naming rule fails and changes nothing; otherwise the entry is put,
     replacing any earlier one, and the replaced entry is reported as a warning.
     */
    method Alias(alias: string, group: string, name: string, version: VersionConstraint) returns (r: Result<Option<Warning>>)
      requires Valid()
      modifies this
      ensures Valid()
      ensures !IsValidName(alias) ==>
        && r == Failure(InvalidName(AliasKind, alias))
        && dependencies == old(dependencies) && dependencyOrder == old(dependencyOrder)
        && strings == old(strings) && versions == old(versions)
      ensures IsValidName(alias) ==>
        var model := DependencyModel(group, name, version);
        && dependencies == old(dependencies)[alias := model]
        && dependencyOrder == (if alias in old(dependencies) then old(dependencyOrder) else old(dependencyOrder) + [alias])
        && r == Success(if alias in old(dependencies) then Some(DuplicateAlias(alias, old(dependencies)[alias], model)) else None)
        && strings == old(strings) + {group, name, alias}
        && versions == old(versions) + {version}
      ensures bundles == old(bundles) && bundleOrder == old(bundleOrder)
      ensures librariesExtensionName == old(librariesExtensionName)
      ensures projectsExtensionName == old(projectsExtensionName)
    {
      var check := ValidateName(AliasKind, alias);
      if check.Failure? {
        return Failure(check.error);
      }
      var v := InternVersion(version);
      var g := Intern(group);
      var n := Intern(name);
      var model := DependencyModel(g, n, v);
      var key := Intern(alias);
      assert dependencies == old(dependencies) && dependencyOrder == old(dependencyOrder);
      assert bundles == old(bundles) && bundleOrder == old(bundleOrder);
      assert strings == old(strings) + {group, name, alias} && versions == old(versions) + {version};
      assert Valid();
      var previous := if key in dependencies then Some(dependencies[key]) else None;
      PutKeepsInsertionOrder(dependencyOrder, dependencies, key, model);
      if key !in dependencies {
        dependencyOrder := dependencyOrder + [key];
      }
      ghost var before := dependencies;
      dependencies := dependencies[key := model];
      assert Pooled() by {
        forall a | a in dependencies
          ensures a in strings && dependencies[a].group in strings && dependencies[a].name in strings
          ensures dependencies[a].version in versions
        {
          if a != key { assert dependencies[a] == before[a]; }
        }
      }
      r := Success(
        match previous
        case Some(p) => Some(DuplicateAlias(alias, p, model))
        case None => None);
    }

    /**
     Declares the bundle `name` as the list `aliases`, kept as given (order and
     duplicates preserved, no check that the aliases exist). A name that
     breaks the naming rule fails and changes nothing; otherwise the entry is
     put, replacing any earlier one, and the replaced entry is reported as a warning.
     */
    method Bundle(name: string, aliases: seq<string>) returns (r: Result<Option<Warning>>)
      requires Valid()
      modifies this
      ensures Valid()
      ensures !IsValidName(name) ==>
        && r == Failure(InvalidName(BundleKind, name))
        && bundles == old(bundles) && bundleOrder == old(bundleOrder)
        && strings == old(strings)
      ensures IsValidName(name) ==>
        && bundles == old(bundles)[name := aliases]
        && bundleOrder == (if name in old(bundles) then old(bundleOrder) else old(bundleOrder) + [name])
        && r == Success(if name in old(bundles) then Some(DuplicateBundle(name, old(bundles)[name], aliases)) else None)
        && strings == old(strings) + (set a | a in aliases) + {name}
      ensures dependencies == old(dependencies) && dependencyOrder == old(dependencyOrder)
      ensures versions == old(versions)
      ensures librariesExtensionName == old(librariesExtensionName)
      ensures projectsExtensionName == old(projectsExtensionName)
    {
      var check := ValidateName(BundleKind, name);
      if check.Failure? {
        return Failure(check.error);
      }
      var value := InternAll(aliases);
      var key := Intern(name);
      assert bundles == old(bundles) && bundleOrder == old(bundleOrder);
      assert Valid();
      var previous := if key in bundles then Some(bundles[key]) else None;
      PutKeepsInsertionOrder(bundleOrder, bundles, key, value);
      if key !in bundles {
        bundleOrder := bundleOrder + [key];
      }
      bundles := bundles[key := value];
      r := Success(
        match previous
        case Some(p) => Some(DuplicateBundle(name, p, value))
        case None => None);
    }

    /** Interns every element of `values`, returning the same list. */
    method InternAll(values: seq<string>) returns (r: seq<string>)
      modifies this`strings
      ensures r == values
      ensures strings == old(strings) + (set a | a in values)
    {
      strings := strings + (set a | a in values);
      r := values;
    }

    /**
     Checks, bundle by bundle in insertion order and alias by alias within
     each bundle, that every alias a bundle lists has been declared. The first
     alias that has not been is reported with its bundle; when there is none,
     the result is a copy of both maps. The builder is not changed.
     */
    method Build() returns (r: Result<AllDependenciesModel>)
      requires Valid()
      ensures match FirstUnresolved(bundleOrder, bundles, dependencies.Keys)
        case None =>
          r == Success(AllDependenciesModel(dependencies, dependencyOrder, bundles, bundleOrder))
        case Some(pos) =>
          r == Failure(UnknownAlias(bundleOrder[pos.0], bundles[bundleOrder[pos.0]][pos.1]))
    {
      var i := 0;
      while i < |bundleOrder|
        invariant 0 <= i <= |bundleOrder|
        invariant forall i', l :: 0 <= i' < i && 0 <= l < |bundles[bundleOrder[i']]| ==> bundles[bundleOrder[i']][l] in dependencies
      {
        var bundleName := bundleOrder[i];
        var aliases := bundles[bundleName];
        var j := 0;
        while j < |aliases|
          invariant 0 <= j <= |aliases|
          invariant forall l :: 0 <= l < j ==> aliases[l] in dependencies
        {
          if aliases[j] !in dependencies {
            return Failure(UnknownAlias(bundleName, aliases[j]));
          }
          j := j + 1;
        }
        i := i + 1;
      }
      return Success(AllDependenciesModel(dependencies, dependencyOrder, bundles, bundleOrder));
    }
  }
}
