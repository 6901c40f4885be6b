# Dependency catalog builder, modelled in Dafny

This project models `DefaultDependenciesModelBuilder`, the builder behind a
Gradle dependency catalog. A build script declares:

- **aliases**: a name for one dependency coordinate (group, artifact name,
  version constraint);
- **bundles**: a name for an ordered list of alias names.

`build()` checks that every alias a bundle lists has been declared and returns
an immutable copy of both maps.

Files:

- `alias_names.dfy` (module `AliasNames`): the naming rule
  `[a-z]([a-zA-Z0-9_.\-])+`. It is stated as a character-level predicate,
  `IsValidName`. It is also stated as the regular expression itself, read by a
  small whole-string matcher that covers the three constructs the pattern uses
  (a bracketed class, concatenation, one-or-more). A lemma proves the two agree
  on every string.
- `catalog.dfy` (module `Catalog`): the value types and the class
  `DependenciesModelBuilder`. Each `LinkedHashMap` is a `map` plus the `seq`
  of its keys in first-insertion order. Putting an existing key replaces the
  value and keeps the key where it was. The two interners are sets of pooled
  values. `Alias` and `Bundle` validate first and then put. They return the
  duplicate-entry warning, or `None` when nothing was replaced. `Build` is the
  source's nested loop with early exit. It is proved against `FirstUnresolved`,
  which gives the first (bundle, alias) position that is not declared, in
  insertion order.
- `scenarios.dfy` (module `CatalogScenarios`): client methods that drive a
  fresh builder through the builder's behaviours. Each one's result follows
  from the builder's contracts alone.

Two behaviours of the code worth noting:

- Bundle alias lists are not deduplicated. `bundle()` stores the list exactly
  as given, repeated names included (`DefaultDependenciesModelBuilder.java:106`).
- A one-character alias such as `"x"` fails the pattern, which needs at least
  two characters (`DefaultDependenciesModelBuilder.java:45`). The scenarios
  therefore use longer names such as `"guava"`, and `BadNamesChangeNothing`
  shows that `"a"` is refused.

## Model

| member | source | states |
|---|---|---|
| `AliasNames.AliasRegexMatches` | subprojects/dependency-management/src/main/java/org/gradle/api/internal/std/DefaultDependenciesModelBuilder.java:45-46 | A string fully matches `[a-z]([a-zA-Z0-9_.\-])+` exactly when it has at least two characters, starts with `a`–`z`, and every later character is an ASCII letter, a digit, `_`, `.` or `-` (both directions) |
| `AliasNames.PlusOfClass` | subprojects/dependency-management/src/main/java/org/gradle/api/internal/std/DefaultDependenciesModelBuilder.java:45 | The group `([…])+` matches exactly the non-empty strings whose every character is in the class |
| `AliasNames.NameExamples` | subprojects/dependency-management/src/main/java/org/gradle/api/internal/std/DefaultDependenciesModelBuilder.java:45-46 | The pattern refuses `"a"`, `"Ab"` and `"my lib"`, and accepts `"ab"` and `"groovy-json.core_2"` |
| `Catalog.ValidateName` | subprojects/dependency-management/src/main/java/org/gradle/api/internal/std/DefaultDependenciesModelBuilder.java:97-101 | Succeeds exactly when the name fully matches the pattern; otherwise fails with a naming error that carries the kind (alias or bundle) and the offending value |
| `Catalog.PutKeepsInsertionOrder` | subprojects/dependency-management/src/main/java/org/gradle/api/internal/std/DefaultDependenciesModelBuilder.java:49-50 | A `LinkedHashMap` put keeps the key order consistent: each key is listed once, a new key goes last, and an existing key keeps its place |
| `Catalog.FirstAbsent` | subprojects/dependency-management/src/main/java/org/gradle/api/internal/std/DefaultDependenciesModelBuilder.java:75-79 | Returns None exactly when every alias of the list is declared; otherwise returns the index of an undeclared alias such that every earlier alias is declared |
| `Catalog.FirstUnresolved` | subprojects/dependency-management/src/main/java/org/gradle/api/internal/std/DefaultDependenciesModelBuilder.java:72-80 | Returns None exactly when every alias of every bundle is declared; otherwise returns the (bundle, alias) position of an undeclared alias such that every position before it is declared, scanning bundles in order and each list in order |
| `Catalog.UnresolvedIffDangling` | subprojects/dependency-management/src/main/java/org/gradle/api/internal/std/DefaultDependenciesModelBuilder.java:72-80 | The ordered scan finds nothing exactly when no bundle lists an alias that is missing from `dependencies` (both directions), whatever the insertion order |
| `Catalog.DependenciesModelBuilder.constructor` | subprojects/dependency-management/src/main/java/org/gradle/api/internal/std/DefaultDependenciesModelBuilder.java:54-58 | A new builder has empty maps and empty pools, and its extension names are `"libs"` and `"projects"` |
| `Catalog.DependenciesModelBuilder.LibrariesExtensionName` | subprojects/dependency-management/src/main/java/org/gradle/api/internal/std/DefaultDependenciesModelBuilder.java:56-63 | `getLibrariesExtensionName()` read through its property: the value set last, or the convention `"libs"` when never set |
| `Catalog.DependenciesModelBuilder.ProjectsExtensionName` | subprojects/dependency-management/src/main/java/org/gradle/api/internal/std/DefaultDependenciesModelBuilder.java:57-68 | `getProjectsExtensionName()` read through its property: the value set last, or the convention `"projects"` when never set |
| `Catalog.DependenciesModelBuilder.SetLibrariesExtensionName` | subprojects/dependency-management/src/main/java/org/gradle/api/internal/std/DefaultDependenciesModelBuilder.java:60-63 | Models `getLibrariesExtensionName().set(n)`: after it, the libraries extension name is `n`, and no longer the default |
| `Catalog.DependenciesModelBuilder.SetProjectsExtensionName` | subprojects/dependency-management/src/main/java/org/gradle/api/internal/std/DefaultDependenciesModelBuilder.java:65-68 | Models `getProjectsExtensionName().set(n)`: after it, the projects extension name is `n`, and no longer the default |
| `Catalog.DependenciesModelBuilder.Intern` | subprojects/dependency-management/src/main/java/org/gradle/api/internal/std/DefaultDependenciesModelBuilder.java:113-118 | Returns a value equal to its argument that is now in the string pool; the pool only gains that value |
| `Catalog.DependenciesModelBuilder.InternVersion` | subprojects/dependency-management/src/main/java/org/gradle/api/internal/std/DefaultDependenciesModelBuilder.java:89 | Returns a constraint equal to its argument that is now in the version pool; the pool only gains that value |
| `Catalog.DependenciesModelBuilder.InternAll` | subprojects/dependency-management/src/main/java/org/gradle/api/internal/std/DefaultDependenciesModelBuilder.java:106 | Returns the alias list unchanged (same order, same duplicates); every element is now pooled |
| `Catalog.DependenciesModelBuilder.Alias` | subprojects/dependency-management/src/main/java/org/gradle/api/internal/std/DefaultDependenciesModelBuilder.java:85-95 | An invalid name fails with a naming error and changes neither map nor pool. Otherwise `dependencies[alias]` becomes the new model and no other key changes (last write wins). A new alias is appended to the key order. A warning is returned exactly when the alias was already present, and it carries the replaced and the new model. `bundles` and the extension names are unchanged, and the builder invariant is kept |
| `Catalog.DependenciesModelBuilder.Bundle` | subprojects/dependency-management/src/main/java/org/gradle/api/internal/std/DefaultDependenciesModelBuilder.java:104-111 | An invalid name fails with a naming error and changes nothing. Otherwise `bundles[name]` becomes the given list, with order and duplicates kept, and no other key changes. A warning is returned exactly when the name was already present. `dependencies` is unchanged, and no existence check is made |
| `Catalog.DependenciesModelBuilder.Build` | subprojects/dependency-management/src/main/java/org/gradle/api/internal/std/DefaultDependenciesModelBuilder.java:71-82 | Fails exactly when some bundle lists an undeclared alias. It reports the first such (bundle, alias) in insertion order. Otherwise it returns a snapshot equal to both maps and their key orders. The builder is never changed |
| `CatalogScenarios.MissingAliasIsReported` | subprojects/dependency-management/src/main/java/org/gradle/api/internal/std/DefaultDependenciesModelBuilder.java:72-79 | `bundle("b1", ["x"])` with no alias `x` makes `build()` fail, naming `b1` and `x` |
| `CatalogScenarios.DeclaredAliasResolves` | subprojects/dependency-management/src/main/java/org/gradle/api/internal/std/DefaultDependenciesModelBuilder.java:81 | After an alias and a bundle of it are declared, `build()` succeeds with exactly that alias and that bundle |
| `CatalogScenarios.RedeclaredAliasWarnsOnce` | subprojects/dependency-management/src/main/java/org/gradle/api/internal/std/DefaultDependenciesModelBuilder.java:91-94 | The first declaration gives no warning. The second warns once, naming the old and the new model. The snapshot holds only the second model |
| `CatalogScenarios.BundleKeepsDuplicates` | subprojects/dependency-management/src/main/java/org/gradle/api/internal/std/DefaultDependenciesModelBuilder.java:106-107 | A bundle declared as `["guava", "guava"]` appears in the snapshot with both entries |
| `CatalogScenarios.BadNamesChangeNothing` | subprojects/dependency-management/src/main/java/org/gradle/api/internal/std/DefaultDependenciesModelBuilder.java:97-101 | Alias `"a"` and bundle `"Ab"` are refused with naming errors, and the builder still builds the empty catalog |
| `CatalogScenarios.BuildTwice` | subprojects/dependency-management/src/main/java/org/gradle/api/internal/std/DefaultDependenciesModelBuilder.java:71-82 | Two builds with no call in between give equal results |
| `CatalogScenarios.ExtensionNames` | subprojects/dependency-management/src/main/java/org/gradle/api/internal/std/DefaultDependenciesModelBuilder.java:56-57 | The extension names are `"libs"` and `"projects"` until set, and the set values afterwards |

## Left out

- Reference identity of interned values (`:47-48`, `:113-118`). Dafny strings and datatypes are values, so "the same pooled instance" cannot be expressed. The pools are modelled as sets of the values interned, and interning returns an equal value.
- `intern(null)` returning `null` (`:114-116`). Model strings are never null.
- The `Action<MutableVersionConstraint>` callback and freezing it into an immutable constraint (`:87-89`). `Alias` takes the already frozen constraint as a value, and `VersionConstraint`'s structure is not modelled.
- The provider API behind the extension names (`Property<String>` with a convention, `:51-58`, `:60-68`). Each name is an optional string that falls back to its default. Lazy values and unsetting a property back to its convention are not modelled.
- Logger output and exception message text (`:43`, `:77`, `:93`, `:99`, `:109`). Warnings are returned `Warning` values and errors are `CatalogError` values. Both carry the names and values that the messages mention.
- Regular-expression semantics beyond the constructs this pattern uses. The matcher covers only bracketed classes, concatenation and one-or-more.
- The internals of `AllDependenciesModel` and `DependencyModel`. These classes are not part of this model, so both are plain datatypes.
- Thread safety. The builder is used by one thread and the model is sequential.
