# codebased-documentation: a verified model of the analysis core

This project models, in Dafny, the part of the codebased-documentation Maven plugin that
turns facts read from a project's Java sources into the plugin's three results:

- **Component and package dependencies** (`ComponentCollector`, `PackageCollector`).
  - Whitelisted roots are filtered. The newer collector compensates depths so that no root is
    shadowed by a shorter one.
  - The source tree is walked and each file is filed under a component name limited by a depth.
  - Each import is shortened to a maximum base length, white- and black-listed by raw string
    prefix, and merged into a map from component to the set of components it depends on.
- **Offered REST endpoints.**
  - The Spring readers (`SpringMapping`, `SpringReader`, `LegacySpringReader`) combine class-level
    and method-level mapping annotations into (path, verb) pairs.
  - The JAX-RS readers (`JaxrsPaths`, `JaxrsReader`, `LegacyJaxrsReader`) combine class `@Path`,
    method `@Path` and verb annotations, then put the application path in front.
  - The newer readers group the pairs per package into offers (`Grouping`, `PathMaps`).
- **Consumed REST endpoints** (`ConsumptionReader`). `@ConsumesAPI` and `@ConsumesAPIs`
  annotations become one `ConsumeDescription` per (service, package), holding the methods called
  per path.

The mutable containers are classes with the source's fields: `Offers.OfferDescription`,
`Consumes.ConsumeDescription` and `ApiInfo.APIInfoObject`. The source parser's view of a
project is plain input values (`JavaModel`). The HTTP verbs are `Http.HttpMethod`, in the order
GET, PUT, POST, DELETE, HEAD, OPTIONS, PATCH.

How the model is built:
- Java exceptions are values of `Common.Result`. The failure kinds are
  StringIndexOutOfBoundsException, NullPointerException, NegativeArraySizeException and
  ArrayIndexOutOfBoundsException.
- Java's `String.trim`, `String.split`, `replace` and `replaceAll` are character-level functions
  in `Strings`. The regular expressions the source uses are written out as recursive functions.
- Each loop of the source is a Dafny method with a loop. Its postcondition ties the result to a
  specification function, and lemmas state what that function means.

The source's defects are modelled as written and exhibited by lemmas:
- the path helpers cut two characters where one was meant
  (`SpringMapping.StartWithEndsWithoutSlashDropsTwo`, `JaxrsPaths.FormatConcatPathDropsTwo`,
  `JaxrsPaths.FormatBasePathStarDropsTwo`, `JaxrsPaths.FormatConcatPathMayEndWithSlash`);
- they throw on "", "/" and "/*" (`SpringMapping.StartWithEndsWithoutSlash`,
  `JaxrsPaths.FormatConcatPath`, `JaxrsPaths.FormatBasePathBareWildcard`);
- JAX-RS typing checks the unstripped path (`JaxrsPaths.ConstrainedPlaceholder`);
- the Spring reader's `split(".")` never reads the configuration file
  (`SpringReader.ApplicationPathNeverRead`);
- the older package collector records self-dependencies (`PackageCollector.SelfDependency`).

## Model

| member | source | states |
|---|---|---|
| ComponentCollector.PrefixFreeUnique | src/main/java/collectors/ComponentInfoCollector.java:255-259 | in a prefix-free whitelist at most one root is a prefix of a name, so getMaxBaseLength's first match is the only match |
| ComponentCollector.MaxBaseLengthOfRoot | src/main/java/collectors/ComponentInfoCollector.java:251-261 | outside default mode, a name under root b gets segments(b) + depth(b) |
| ComponentCollector.ImportEdge | src/main/java/collectors/ComponentInfoCollector.java:176-186 | an import that is not whitelisted or is blacklisted contributes nothing; any other contributes or throws; a whitelisted import throws NullPointerException when the blacklist is null; a contribution is a string prefix of the import and is not blacklisted |
| ComponentCollector.ImportEdgeSegments | src/main/java/collectors/ComponentInfoCollector.java:177-184 | a contribution is the import minus its last segment, cut to getMaxBaseLength segments when it is longer and that is not -1 |
| ComponentCollector.BlackListUpward | src/main/java/collectors/ComponentInfoCollector.java:231-238 | whatever extends a blacklisted name is blacklisted too, so a shortened import of an allowed import is allowed |
| ComponentCollector.RelevantImports | src/main/java/collectors/ComponentInfoCollector.java:172-196 | the result never holds the current component (no self-loops) and holds nothing blacklisted |
| ComponentCollector.RelevantImportsFails | src/main/java/collectors/ComponentInfoCollector.java:175-189 | the loop over the imports throws exactly when shortening some import throws |
| ComponentCollector.RelevantImportsMembers | src/main/java/collectors/ComponentInfoCollector.java:175-189 | a component is in the result exactly when it is the contribution of some import and differs from the current component |
| ComponentCollector.CollectSound | src/main/java/collectors/ComponentInfoCollector.java:138-163 | walking a node keeps the map free of blacklisted keys, blacklisted dependencies and self-loops |
| ComponentCollector.CollectAllSound | src/main/java/collectors/ComponentInfoCollector.java:147-149 | walking the entries of a directory keeps the same invariant |
| ComponentCollector.CollectNullBlackList | src/main/java/collectors/ComponentInfoCollector.java:143-160 | with a null blacklist the walk throws NullPointerException at any directory or readable file (the blacklist test at lines 146 and 155 iterates the null set, line 232), and passes over an unreadable file |
| ComponentCollector.RelevantImportsNullBlackList | src/main/java/collectors/ComponentInfoCollector.java:172-176 | with a null blacklist the imports of a file fail exactly when one of them is whitelisted, since only then is the blacklist consulted |
| ComponentCollector.CollectPlaced | src/main/java/collectors/ComponentInfoCollector.java:141-145 | every key is its root followed by at most depth(root) directory names; the root directory itself adds none |
| ComponentCollector.CollectAllPlaced | src/main/java/collectors/ComponentInfoCollector.java:141-149 | the same for the entries of a directory |
| ComponentCollector.CollectAllFailedPrefix | src/main/java/collectors/ComponentInfoCollector.java:147-149 | a failure in an entry aborts the whole walk with that failure |
| ComponentCollector.RelevantImportsFailedPrefix | src/main/java/collectors/ComponentInfoCollector.java:175-189 | a failure on an import aborts the whole loop with that failure |
| ComponentCollector.SurvivorsPrefixFree | src/main/java/collectors/ComponentInfoCollector.java:101-118 | no surviving whitelist name is a raw prefix of another |
| ComponentCollector.CompensatedUnique | src/main/java/collectors/ComponentInfoCollector.java:103-116 | the compensated depths are fixed by the original ones, whatever order the HashSet is visited in |
| ComponentCollector.CompensatedAbsorbed | src/main/java/collectors/ComponentInfoCollector.java:105-113 | a name under a survivor n reaches no further than n: segments(n) + depth(n) >= segments(m) + depth(m) |
| ComponentCollector.CompareDepths | src/main/java/collectors/ComponentInfoCollector.java:105-113 | one comparison changes only name's depth, and only when name is a proper prefix of other; name then reaches as far as the further of the two |
| ComponentCollector.CompareDepthsRaises | src/main/java/collectors/ComponentInfoCollector.java:106-113 | a positive difference is added to name's depth |
| ComponentCollector.CompareDepthsKeeps | src/main/java/collectors/ComponentInfoCollector.java:108-113 | a difference of zero or less changes nothing |
| ComponentCollector.StartFilter | src/main/java/collectors/ComponentInfoCollector.java:102 | before the outer loop the set is the whole whitelist and no depth has moved |
| ComponentCollector.StartComparing | src/main/java/collectors/ComponentInfoCollector.java:103-104 | the invariant of the inner loop holds when it starts |
| ComponentCollector.CompareKeepsReaches | src/main/java/collectors/ComponentInfoCollector.java:105-113 | a comparison keeps every name within the reach of some name under it |
| ComponentCollector.CompareKeepsCovers | src/main/java/collectors/ComponentInfoCollector.java:105-113 | a comparison lowers no depth and keeps finished names covering the names under them |
| ComponentCollector.CompareStep | src/main/java/collectors/ComponentInfoCollector.java:104-115 | one inner step keeps the invariant; other is dropped exactly when name is a proper prefix of it |
| ComponentCollector.FinishComparing | src/main/java/collectors/ComponentInfoCollector.java:103-116 | after the inner loop the outer invariant holds with name finished |
| ComponentCollector.FinishFilterSurvivors | src/main/java/collectors/ComponentInfoCollector.java:101-118 | at the end the kept names are exactly those no other whitelist name is a raw prefix of |
| ComponentCollector.FinishFilterCompensated | src/main/java/collectors/ComponentInfoCollector.java:101-118 | at the end no depth has shrunk and every survivor reaches as far as every name under it did |
| ComponentCollector.CollectRootsSound | src/main/java/collectors/ComponentInfoCollector.java:70-76 | walking the filtered roots one after another keeps the map sound and every key placed under its root |
| ComponentCollector.DefaultWhiteList | src/main/java/collectors/ComponentInfoCollector.java:59-64 | with the default whitelist {"" -> 1}, every import is whitelisted, the maximum base length is 1, and an allowed import with two or more segments contributes its first segment; with a null blacklist every import throws NullPointerException |
| ComponentCollector.DefaultModeNamesDiffer | src/main/java/collectors/ComponentInfoCollector.java:141-145 | in default mode a component below the root has a dot in its name, so no one-segment contribution equals it |
| ComponentCollector.DottedHasDot | src/main/java/collectors/ComponentInfoCollector.java:143 | appending directory names puts a '.' in the name |
| ComponentCollector.ComponentInfoCollector.constructor | src/main/java/collectors/ComponentInfoCollector.java:47-52 | the whitelist map and blacklist are stored as given, either of them possibly null; no names yet, default mode off |
| ComponentCollector.ComponentInfoCollector.PrepareWhiteList | src/main/java/collectors/ComponentInfoCollector.java:59-65 | a null whitelist throws; an empty one becomes {"" -> 1} with default mode on; the names are then the map's keys |
| ComponentCollector.ComponentInfoCollector.FilterWhiteList | src/main/java/collectors/ComponentInfoCollector.java:101-118 | returns exactly the whitelist names no other name is a raw prefix of, and leaves the depths compensated |
| ComponentCollector.ComponentInfoCollector.CompareWithOthers | src/main/java/collectors/ComponentInfoCollector.java:104-115 | comparing name with every whitelist name keeps the loop invariant, with name finished |
| ComponentCollector.ComponentInfoCollector.CompareWith | src/main/java/collectors/ComponentInfoCollector.java:105-113 | the new depths are CompareDepths of the old ones; other is dropped when name is a proper prefix of it |
| ComponentCollector.ComponentInfoCollector.GetRelevantImportNames | src/main/java/collectors/ComponentInfoCollector.java:172-196 | the loop returns RelevantImports of the current configuration |
| ComponentCollector.ComponentInfoCollector.CollectBySourceAdd | src/main/java/collectors/ComponentInfoCollector.java:138-163 | the recursive walk returns Collect of the current configuration, including the NullPointerException of a null blacklist |
| ComponentCollector.ComponentInfoCollector.CollectInfo | src/main/java/collectors/ComponentInfoCollector.java:55-76 | a null whitelist throws; an empty one becomes {"" -> 1} and sets defaultValuesUsed, which is otherwise kept; without the source folder the map is empty and the whitelist only prepared; otherwise the depths are compensated with respect to the prepared whitelist, the names are the survivors, each root is walked exactly once, and the resulting map is sound and placed |
| ComponentCollector.ComponentInfoCollector.CollectRootDirectories | src/main/java/collectors/ComponentInfoCollector.java:71-75 | every surviving root is walked, in some order, and the map is sound and placed |
| PackageCollector.MaxBaseLength | src/main/java/collectors/PackageInfoCollector.java:193-203 | maxDepth for an empty whitelist, -1 exactly when a non-empty whitelist has no base of the name, otherwise at least maxDepth |
| PackageCollector.MaxBaseLengthOfBase | src/main/java/collectors/PackageInfoCollector.java:197-200 | after filtering, a name under base b gets segments(b) + maxDepth |
| PackageCollector.ImportEdge | src/main/java/collectors/PackageInfoCollector.java:136-145 | only imports with a whitelisted base (or any import, for an empty whitelist) contribute; an import with no segments throws NegativeArraySizeException; a contribution is a string prefix of the import |
| PackageCollector.ImportEdgeTruncates | src/main/java/collectors/PackageInfoCollector.java:137-145 | a contribution is the import minus its last segment, cut to getMaxBaseLength segments when it is longer and that is not -1 |
| PackageCollector.RelevantImportsFails | src/main/java/collectors/PackageInfoCollector.java:135-147 | the loop throws exactly when shortening some import throws |
| PackageCollector.RelevantImportsMembers | src/main/java/collectors/PackageInfoCollector.java:135-147 | a name is in the result exactly when it is the contribution of some import; the current package is not consulted |
| PackageCollector.RelevantImportsFailedPrefix | src/main/java/collectors/PackageInfoCollector.java:135-147 | a failure on an import aborts the loop with that failure |
| PackageCollector.SelfDependency | src/main/java/collectors/PackageInfoCollector.java:118-150 | a file whose import contributes its own package records that package as its own dependency |
| PackageCollector.CollectAllFailedPrefix | src/main/java/collectors/PackageInfoCollector.java:111-113 | a failure in an entry aborts the walk of the directory |
| PackageCollector.CollectPlaced | src/main/java/collectors/PackageInfoCollector.java:104-110 | below a base, a directory name is appended only for 1 <= depth <= maxDepth, so every key is its base followed by at most maxDepth names |
| PackageCollector.CollectAllPlaced | src/main/java/collectors/PackageInfoCollector.java:104-113 | the same for the entries of a directory |
| PackageCollector.TopLevelPlaced | src/main/java/collectors/PackageInfoCollector.java:105-110 | with an empty whitelist the top directory name starts the package name without a dot, and every key is that name followed by at most maxDepth directory names |
| PackageCollector.CollectBasesPlaced | src/main/java/collectors/PackageInfoCollector.java:60-63 | walking the filtered bases keeps every key placed under a base |
| PackageCollector.UnshadowedStep | src/main/java/collectors/PackageInfoCollector.java:241-246 | one outer step drops exactly the proper extensions of name |
| PackageCollector.SurvivorCovers | src/main/java/collectors/PackageInfoCollector.java:239-249 | every whitelist name lies under some survivor |
| PackageCollector.SubPackagesRemoved | src/main/java/collectors/PackageInfoCollector.java:213-237 | the result is a subset of the input, keeps every short form, and keeps any other entry exactly when no short form is a prefix of it |
| PackageCollector.SubPackagesRemovedIdempotent | src/main/java/collectors/PackageInfoCollector.java:213-237 | removing sub-packages twice is removing them once |
| PackageCollector.PackageInfoCollector.constructor | src/main/java/collectors/PackageInfoCollector.java:38-46 | the whitelist starts empty |
| PackageCollector.PackageInfoCollector.IsInBasePackage | src/main/java/collectors/PackageInfoCollector.java:173-180 | true exactly when some whitelisted name is a prefix |
| PackageCollector.PackageInfoCollector.GetMaxBaseLength | src/main/java/collectors/PackageInfoCollector.java:193-203 | maxDepth for an empty whitelist, -1 without a base, else segments(b) + maxDepth for some base b; MaxBaseLength once the whitelist is prefix-free |
| PackageCollector.PackageInfoCollector.GetRelevantImportNames | src/main/java/collectors/PackageInfoCollector.java:132-150 | the loop returns RelevantImports of the whitelist |
| PackageCollector.PackageInfoCollector.ShortenImport | src/main/java/collectors/PackageInfoCollector.java:136-145 | one iteration returns ImportEdge of the import |
| PackageCollector.PackageInfoCollector.CollectBySourceAdd | src/main/java/collectors/PackageInfoCollector.java:101-123 | the recursive walk returns Collect of the whitelist |
| PackageCollector.PackageInfoCollector.FilterWhiteList | src/main/java/collectors/PackageInfoCollector.java:239-249 | returns exactly the names no other whitelisted name is a raw prefix of; no depth is involved |
| PackageCollector.PackageInfoCollector.DropExtensions | src/main/java/collectors/PackageInfoCollector.java:242-246 | the inner loop removes exactly the proper extensions of name |
| PackageCollector.PackageInfoCollector.RemoveSubPackages | src/main/java/collectors/PackageInfoCollector.java:213-237 | the loops return SubPackagesRemoved |
| PackageCollector.PackageInfoCollector.CollectInfo | src/main/java/collectors/PackageInfoCollector.java:49-68 | the application package is always added, so the whitelist is never empty and the file-system branch is never taken; the names become the survivors, each is walked, and every key is placed |
| PackageCollector.PackageInfoCollector.CollectBaseDirectories | src/main/java/collectors/PackageInfoCollector.java:60-63 | every surviving base is walked, in some order, and every key is placed |
| SpringMapping.MappingsMembers | src/main/java/reader/impl/api/SPRINGReader.java:272-332 | a (path, verb) pair is returned by getMapping exactly when its path is one of the annotation's paths with the quotes removed and its verb is one of the recognised verbs, or null when there are none (both directions) |
| SpringMapping.MappingsCount | src/main/java/reader/impl/api/SPRINGReader.java:320-329 | getMapping returns one pair per path and verb, and one pair per path when no verb is known |
| SpringMapping.VerbSpecificNeverHead | src/main/java/reader/impl/api/SPRINGReader.java:66-68 | a verb-specific mapping annotation gives at most one verb, and never HEAD or OPTIONS, whose table entries are null and empty |
| SpringMapping.RecogniseVerbs | src/main/java/reader/impl/api/SPRINGReader.java:297-303 | the loop over a `method` list keeps exactly the RequestMethod constants it recognises, in order, each mapped to its HttpMethods value |
| SpringMapping.GetVerbs | src/main/java/reader/impl/api/SPRINGReader.java:294-318 | the verbs of an annotation: from its `method` parameter for RequestMapping (null when that is neither a list nor a string), from the table position for a verb-specific annotation |
| SpringMapping.PairPath | src/main/java/reader/impl/api/SPRINGReader.java:320-329 | one path with its quotes removed yields one pair per verb, or one pair with a null verb |
| SpringMapping.GetMapping | src/main/java/reader/impl/api/SPRINGReader.java:272-332 | getMapping's loops compute the mappings of the annotation as specified |
| SpringMapping.LastBaseMapping | src/main/java/reader/impl/api/SPRINGReader.java:140-154 | the class-level mapping that counts is the last mapping annotation; none exists exactly when no annotation is a mapping |
| SpringMapping.ClassAnnotationStep | src/main/java/reader/impl/api/SPRINGReader.java:143-152 | one more class annotation replaces the base mapping exactly when it is a mapping annotation, and makes the class a controller exactly when it is a controller annotation |
| SpringMapping.GetBaseMappingAndController | src/main/java/reader/impl/api/SPRINGReader.java:140-154 | the loop returns the mapping of the last mapping annotation (null without one) and whether any annotation is a controller annotation |
| SpringMapping.StartWithSlash | src/main/java/reader/impl/api/SPRINGReader.java:340-346 | the trimmed string, prefixed with "/" unless it is empty or already starts with one |
| SpringMapping.StartWithSlashIdempotent | src/main/java/reader/impl/api/SPRINGReader.java:340-346 | bringing a path to form twice changes nothing |
| SpringMapping.StartWithEndsWithoutSlash | src/main/java/reader/impl/api/SPRINGReader.java:354-364 | the call throws StringIndexOutOfBoundsException exactly for a blank string or "/" |
| SpringMapping.CutSlash | src/main/java/reader/impl/api/SPRINGReader.java:359-361 | cutting the last two characters fails exactly when the string is "" or "/" |
| SpringMapping.StartWithEndsWithoutSlashInForm | src/main/java/reader/impl/api/SPRINGReader.java:354-364 | a non-blank path without a trailing slash comes back starting with "/" and not ending with one |
| SpringMapping.StartWithEndsWithoutSlashDropsTwo | src/main/java/reader/impl/api/SPRINGReader.java:359-361 | a path with a trailing slash loses its last TWO characters, not only the slash |
| SpringMapping.Compose | src/main/java/reader/impl/api/SPRINGReader.java:200-201 | a base path joined with a method path fails exactly when the base cannot be brought to form, and is otherwise the base in form followed by the method path in form |
| SpringMapping.TypedPathUntyped | src/main/java/reader/impl/api/SPRINGReader.java:239-262 | a method without @PathVariable parameters only has the regular-expression constraints stripped from its path |
| SpringMapping.TypeParametersUntyped | src/main/java/reader/impl/api/SPRINGReader.java:241-255 | the parameter loop leaves the path unchanged when no parameter is a @PathVariable |
| SpringMapping.TypeAnnotationsUntyped | src/main/java/reader/impl/api/SPRINGReader.java:242-254 | the annotation loop of one parameter leaves the path unchanged when none of its annotations is @PathVariable |
| SpringMapping.TypedPathIgnoresConstraints | src/main/java/reader/impl/api/SPRINGReader.java:260-262 | a path with constraints is typed like the path with them stripped |
| SpringMapping.TypedPathSingle | src/main/java/reader/impl/api/SPRINGReader.java:243-252 | a single @PathVariable parameter replaces every occurrence of its placeholder by the upper-cased simple name of its type |
| SpringMapping.SetTypeInPath | src/main/java/reader/impl/api/SPRINGReader.java:239-258 | the nested loops compute the typed path as specified |
| SpringMapping.AllVerbs | src/main/java/reader/impl/api/SPRINGReader.java:216-229 | a mapping without any verb stands for every HttpMethods value, in declaration order |
| SpringMapping.MappingEndpointsCount | src/main/java/reader/impl/api/SPRINGReader.java:197-231 | one method mapping yields one endpoint per base mapping (seven for a base without a verb when the mapping has none), one without bases, or seven without bases or verb |
| SpringMapping.UnderBaseCount | src/main/java/reader/impl/api/SPRINGReader.java:198-224 | the count of endpoints under a list of base mappings is the sum over the bases |
| SpringMapping.MappingEndpointsKeepVerb | src/main/java/reader/impl/api/SPRINGReader.java:198-207 | a method mapping with a verb gives only endpoints with that verb, whatever the base mappings say |
| SpringMapping.UnderBaseKeepVerb | src/main/java/reader/impl/api/SPRINGReader.java:199-204 | under every base mapping, a method mapping's own verb wins |
| SpringMapping.EveryVerb | src/main/java/reader/impl/api/SPRINGReader.java:226-229 | the loop over HttpMethods.values() pairs the path with every verb |
| SpringMapping.TypePath | src/main/java/reader/impl/api/SPRINGReader.java:202 | the path is typed by the method's parameters in the newer reader and left as is in the older one |
| SpringMapping.JoinBase | src/main/java/reader/impl/api/SPRINGReader.java:199-223 | one method mapping under one base mapping: its own verb, else the base's verb, else every verb, on the composed and typed path |
| SpringMapping.JoinMapping | src/main/java/reader/impl/api/SPRINGReader.java:197-231 | the branches for one method mapping compute its endpoints as specified, including the exception of a blank path |
| SpringMapping.JoinMappings | src/main/java/reader/impl/api/SPRINGReader.java:197-232 | the loop over the mappings of one annotation concatenates their endpoints, failing at the first exception |
| SpringMapping.JoinAnnotation | src/main/java/reader/impl/api/SPRINGReader.java:190-233 | only mapping annotations contribute endpoints |
| SpringMapping.GetMethodAnnotations | src/main/java/reader/impl/api/SPRINGReader.java:185-237 | the endpoints of a method are those of its mapping annotations in order, or the first exception |
| SpringReader.SplitOnAnyCharacter | src/main/java/reader/impl/api/SPRINGReader.java:373 | splitting on the regular expression "." leaves only runs of line terminators (the characters "." does not match), holding all of the name's line terminators in order; nothing is left exactly when the name is non-empty and free of line terminators, and otherwise the last piece is non-empty unless the name is empty |
| SpringReader.DotPiecesMeaning | src/main/java/reader/impl/api/SPRINGReader.java:373 | every piece between two matches of "." is a run of line terminators, and the pieces together are the name's line terminators |
| SpringReader.NoExtension | src/main/java/reader/impl/api/SPRINGReader.java:379-390 | a run of line terminators equals neither "properties" nor "yml" ignoring case |
| SpringReader.ApplicationPathNeverRead | src/main/java/reader/impl/api/SPRINGReader.java:366-397 | getApplicationPath throws ArrayIndexOutOfBoundsException exactly for a regular file whose name is non-empty and free of line terminators, and otherwise returns "" (the extension is then empty or a run of line terminators), so the configured context path is never read |
| SpringReader.Prefixed | src/main/java/reader/impl/api/SPRINGReader.java:168-171 | every base mapping gets the context path in front and keeps its verb |
| SpringReader.AddContextPathLeads | src/main/java/reader/impl/api/SPRINGReader.java:156-173 | with a non-blank context path every base path starts with it (a lone context path without a verb when there was no base mapping), and the verbs are kept |
| SpringReader.AddContextPathEmpty | src/main/java/reader/impl/api/SPRINGReader.java:158-160 | an empty context path leaves the base mappings as they are, null included |
| SpringReader.AddContextPathToBaseMapping | src/main/java/reader/impl/api/SPRINGReader.java:156-173 | the loop computes the prefixed base mappings as specified |
| SpringReader.FindingsShape | src/main/java/reader/impl/api/SPRINGReader.java:94-107 | each class contributes its package name and its endpoints, in order |
| SpringReader.OffersFail | src/main/java/reader/impl/api/SPRINGReader.java:94-128 | the scan fails exactly when one of the classes throws |
| SpringReader.OffersKeys | src/main/java/reader/impl/api/SPRINGReader.java:109-119 | a package has an offer exactly when one of its classes yields at least one endpoint |
| SpringReader.OffersContent | src/main/java/reader/impl/api/SPRINGReader.java:121-123 | a verb is recorded for a path of a package exactly when one of the package's classes yields that endpoint |
| SpringReader.OffersOrderFree | src/main/java/reader/impl/api/SPRINGReader.java:92-128 | the offers do not depend on the order the classes are visited in |
| SpringReader.MethodPaths | src/main/java/reader/impl/api/SPRINGReader.java:104-106 | the loop over a class's methods concatenates their endpoints |
| SpringReader.ClassPaths | src/main/java/reader/impl/api/SPRINGReader.java:96-107 | a class that is neither a controller nor mapped yields nothing; otherwise its methods' endpoints under the prefixed base mappings |
| SpringReader.CollectOffers | src/main/java/reader/impl/api/SPRINGReader.java:92-128 | the class loop builds the per-package offers as specified |
| SpringReader.GetPathsAndMethods | src/main/java/reader/impl/api/SPRINGReader.java:81-129 | the configured context path wins over the application path, and the offers are those of the class scan |
| LegacySpringReader.PathsAndMethodsMembers | src/main/java/reader/SPRINGReader.java:73-93 | the older reader fails exactly when a class throws, and otherwise returns exactly the endpoints of its classes |
| LegacySpringReader.PlainClassSkipped | src/main/java/reader/SPRINGReader.java:85-89 | a class without controller or mapping annotations contributes nothing |
| LegacySpringReader.MethodPaths | src/main/java/reader/SPRINGReader.java:86-88 | the loop over a class's methods concatenates their endpoints |
| LegacySpringReader.ClassPaths | src/main/java/reader/SPRINGReader.java:81-89 | a class's endpoints under its base mapping, compared by simple names and without typing |
| LegacySpringReader.GetPathsAndMethods | src/main/java/reader/SPRINGReader.java:73-93 | the class loop concatenates all endpoints in order |
| JaxrsPaths.Unquoted | src/main/java/reader/impl/api/JAXRSReader.java:373-374 | a path trimmed and with its double quotes removed holds no double quote |
| JaxrsPaths.CutSlashShape | src/main/java/reader/impl/api/JAXRSReader.java:378-380 | cutting a trailing slash keeps the leading slash and adds no character |
| JaxrsPaths.FormatConcatPath | src/main/java/reader/impl/api/JAXRSReader.java:372-382 | formatConcatPath throws StringIndexOutOfBoundsException exactly for a path that is blank or "/" once unquoted; otherwise its result has no quote and starts with "/" unless empty |
| JaxrsPaths.FormatBasePath | src/main/java/reader/impl/api/JAXRSReader.java:350-363 | the only exception formatBasePath throws is StringIndexOutOfBoundsException |
| JaxrsPaths.FormatBasePathWithoutStar | src/main/java/reader/impl/api/JAXRSReader.java:350-363 | without a trailing "*" a base path is formatted like a concatenated path |
| JaxrsPaths.FormatBasePathWildcard | src/main/java/reader/impl/api/JAXRSReader.java:353-355 | a servlet pattern "/p/*" becomes "/p" |
| JaxrsPaths.FormatBasePathBareWildcard | src/main/java/reader/impl/api/JAXRSReader.java:353-361 | the servlet pattern "/*" throws StringIndexOutOfBoundsException |
| JaxrsPaths.FormatBasePathStarDropsTwo | src/main/java/reader/impl/api/JAXRSReader.java:353-355 | a trailing "*" not preceded by "/" removes the star and the character before it |
| JaxrsPaths.FormatConcatPathDropsTwo | src/main/java/reader/impl/api/JAXRSReader.java:378-380 | a trailing slash removes the slash and the character before it |
| JaxrsPaths.FormatConcatPathMayEndWithSlash | src/main/java/reader/impl/api/JAXRSReader.java:378-380 | a path like "/a/b/" comes back as "/a/", still ending with a slash |
| JaxrsPaths.ExtractHttpMethod | src/main/java/reader/impl/api/JAXRSReader.java:185-188 | a verb annotation name maps to the HttpMethods value at its position in HTTP_METHODS, never PATCH |
| JaxrsPaths.ExtractHttpMethodOnto | src/main/java/reader/impl/api/JAXRSReader.java:55-57 | every verb except PATCH has its annotation, and extracting it gives the verb back |
| JaxrsPaths.TypedPathOnlyStrips | src/main/java/reader/impl/api/JAXRSReader.java:163-179 | when no @PathParam placeholder occurs in the path only the constraints are stripped |
| JaxrsPaths.TypeParamsUnchanged | src/main/java/reader/impl/api/JAXRSReader.java:165-177 | the parameter loop changes nothing when no placeholder of a @PathParam occurs in the path |
| JaxrsPaths.TypeParamAnnotationsUnchanged | src/main/java/reader/impl/api/JAXRSReader.java:166-176 | the annotation loop of one parameter changes nothing when its placeholders do not occur |
| JaxrsPaths.ConstrainedPlaceholder | src/main/java/reader/impl/api/JAXRSReader.java:171 | the placeholder test looks at the path before stripping, so "{a:b}" does not contain "{a}" even though it becomes "{a}" |
| JaxrsPaths.TypedPathSingle | src/main/java/reader/impl/api/JAXRSReader.java:167-174 | a single @PathParam whose placeholder occurs in the path has it replaced by the upper-cased simple name of its type |
| JaxrsPaths.TypeParameter | src/main/java/reader/impl/api/JAXRSReader.java:166-176 | the inner loop types one parameter's placeholders as specified |
| JaxrsPaths.SetTypeInPath | src/main/java/reader/impl/api/JAXRSReader.java:163-179 | the nested loops compute the typed path as specified |
| JaxrsPaths.LastVerb | src/main/java/reader/impl/api/JAXRSReader.java:139-150 | the verb that counts comes from the last verb annotation; none exists exactly when no annotation is a verb annotation |
| JaxrsPaths.ScanStepFacts | src/main/java/reader/impl/api/JAXRSReader.java:139-150 | one method annotation throws exactly when it is a @Path whose value cannot be formatted; a verb annotation sets the verb, any other keeps it |
| JaxrsPaths.ScanSnoc | src/main/java/reader/impl/api/JAXRSReader.java:139-150 | the annotation scan is a left-to-right fold that stops at the first exception |
| JaxrsPaths.ScanFails | src/main/java/reader/impl/api/JAXRSReader.java:144-149 | scanning a method's annotations throws exactly when one of them is a bad @Path, and then with StringIndexOutOfBoundsException |
| JaxrsPaths.ScanVerb | src/main/java/reader/impl/api/JAXRSReader.java:142-143 | after a successful scan the verb is the one of the last verb annotation, or the initial one |
| JaxrsPaths.MethodPairMeaning | src/main/java/reader/impl/api/JAXRSReader.java:135-161 | getMethodAnnotations throws exactly when the class path or a method @Path cannot be formatted; it returns a pair exactly when the method has a verb annotation, with the last such verb, never PATCH |
| JaxrsPaths.ScanPathStep | src/main/java/reader/impl/api/JAXRSReader.java:144-148 | without path parameters or constraints one annotation simply appends its formatted part to the path |
| JaxrsPaths.ScanPath | src/main/java/reader/impl/api/JAXRSReader.java:136-150 | without path parameters or constraints the method path is the class path followed by the formatted parts of its @Path annotations, in order |
| JaxrsPaths.NoConstraintPrefix | src/main/java/reader/impl/api/JAXRSReader.java:181-183 | a path without constraints has no constraint in its prefixes either |
| JaxrsPaths.ScanPrefixSnoc | src/main/java/reader/impl/api/JAXRSReader.java:139-150 | the scan of one more annotation extends the scan of the prefix |
| JaxrsPaths.ScanFailedPrefix | src/main/java/reader/impl/api/JAXRSReader.java:139-150 | once the scan has thrown, later annotations do not matter |
| JaxrsPaths.ReadAnnotation | src/main/java/reader/impl/api/JAXRSReader.java:140-149 | the loop body handles one annotation as specified |
| JaxrsPaths.ReadAnnotations | src/main/java/reader/impl/api/JAXRSReader.java:136-150 | the annotation loop computes the scan as specified |
| JaxrsPaths.GetMethodAnnotations | src/main/java/reader/impl/api/JAXRSReader.java:135-161 | the method's pair, null without a verb, or the exception, as specified |
| JaxrsReader.ScanProjectFindings | src/main/java/reader/impl/api/JAXRSReader.java:81-110 | the class loop records exactly the findings of each class in order |
| JaxrsReader.ScanClassFindings | src/main/java/reader/impl/api/JAXRSReader.java:82-109 | one class adds exactly the findings of its annotations |
| JaxrsReader.ClassStepFindings | src/main/java/reader/impl/api/JAXRSReader.java:83-107 | one class annotation adds exactly the findings of its methods when it is a @Path |
| JaxrsReader.ScanProjectKnownApp | src/main/java/reader/impl/api/JAXRSReader.java:83-85 | once an application path is known it is kept, and the scan fails exactly when some class fails |
| JaxrsReader.ScanClassKnownApp | src/main/java/reader/impl/api/JAXRSReader.java:83-85 | once an application path is known a class cannot change it |
| JaxrsReader.FirstApplicationPath | src/main/java/reader/impl/api/JAXRSReader.java:83-85 | the @ApplicationPath that counts is the first one; none exists exactly when no annotation is one |
| JaxrsReader.AppAfterFirst | src/main/java/reader/impl/api/JAXRSReader.java:83-85 | a null application path is set by the first @ApplicationPath and never again |
| JaxrsReader.ScanClassApp | src/main/java/reader/impl/api/JAXRSReader.java:82-109 | the application path after a class is the one its annotations set |
| JaxrsReader.ScanProjectApp | src/main/java/reader/impl/api/JAXRSReader.java:76-110 | the application path is web.xml's, else the value of the first @ApplicationPath of the project |
| JaxrsReader.MethodFindingsMember | src/main/java/reader/impl/api/JAXRSReader.java:90-107 | the methods of a @Path class contribute exactly their non-null pairs, under the class's package |
| JaxrsReader.MethodFindingOfMember | src/main/java/reader/impl/api/JAXRSReader.java:91-105 | one method contributes its pair exactly when getMethodAnnotations returns one |
| JaxrsReader.ClassFindingsMember | src/main/java/reader/impl/api/JAXRSReader.java:82-109 | a class contributes exactly the pairs it offers, under its package |
| JaxrsReader.ProjectFindingsMember | src/main/java/reader/impl/api/JAXRSReader.java:81-110 | the project's findings are exactly the pairs its classes offer |
| JaxrsReader.FindingsContent | src/main/java/reader/impl/api/JAXRSReader.java:95-104 | a verb is recorded for a path of a package exactly when a class of the package offers that pair |
| JaxrsReader.OfferedFound | src/main/java/reader/impl/api/JAXRSReader.java:91-105 | every offered pair is among the findings of its package |
| JaxrsReader.FoundOffered | src/main/java/reader/impl/api/JAXRSReader.java:91-105 | every finding is offered by a class of its package |
| JaxrsReader.FindingsKeys | src/main/java/reader/impl/api/JAXRSReader.java:96-103 | a package gets an offer exactly when one of its classes offers some pair |
| JaxrsReader.ComposeNothing | src/main/java/reader/impl/api/JAXRSReader.java:112-119 | without a context path or GlassFish root the application path is left as found |
| JaxrsReader.ComposeContext | src/main/java/reader/impl/api/JAXRSReader.java:112-115 | a configured context path is put in front of the application path |
| JaxrsReader.GlassfishWithoutApplicationPath | src/main/java/reader/impl/api/JAXRSReader.java:116-119 | a GlassFish context root with no application path throws NullPointerException |
| JaxrsReader.RekeyOfferContent | src/main/java/reader/impl/api/JAXRSReader.java:209-219 | a rekeyed offer holds a verb under a new path exactly when the old offer held it under a key that maps to that path |
| JaxrsReader.NewKeyLeads | src/main/java/reader/impl/api/JAXRSReader.java:214-215 | with an application path every new path starts with it |
| JaxrsReader.ConcatFails | src/main/java/reader/impl/api/JAXRSReader.java:201-236 | concatApplicationPathTo throws exactly when the application path or a key holding a verb cannot be formatted, and then with StringIndexOutOfBoundsException |
| JaxrsReader.ConcatContent | src/main/java/reader/impl/api/JAXRSReader.java:201-236 | the same packages come back, each holding a verb under a new path exactly when it held it under a key mapping to that path |
| JaxrsReader.PathsAndMethodsContent | src/main/java/reader/impl/api/JAXRSReader.java:72-122 | a package has an offer exactly when its classes offer something, and it holds a verb under a path exactly when a class offers it under a key that the application path maps to that path |
| JaxrsReader.PathsAndMethodsSteps | src/main/java/reader/impl/api/JAXRSReader.java:72-122 | the result is the per-package grouping of the class scan, rekeyed by the application path in use |
| JaxrsReader.RekeyedFindings | src/main/java/reader/impl/api/JAXRSReader.java:209-219 | rekeying the grouped findings is the same as rekeying the offered pairs |
| JaxrsReader.RekeyedFinding | src/main/java/reader/impl/api/JAXRSReader.java:95-104 | a grouped offer holds a verb under a key exactly when a class of the package offers that pair |
| JaxrsReader.ReadMethods | src/main/java/reader/impl/api/JAXRSReader.java:90-107 | the method loop adds exactly the methods' findings to the per-package map |
| JaxrsReader.ReadClass | src/main/java/reader/impl/api/JAXRSReader.java:82-109 | the annotation loop of one class computes the scan step as specified |
| JaxrsReader.ReadClasses | src/main/java/reader/impl/api/JAXRSReader.java:76-110 | the class loop computes the scan as specified, starting from web.xml's path |
| JaxrsReader.MovedStep | src/main/java/reader/impl/api/JAXRSReader.java:212-218 | one more key moves exactly its verbs to its new path |
| JaxrsReader.VerbPairsStep | src/main/java/reader/impl/api/JAXRSReader.java:213-217 | one more verb adds exactly one pair |
| JaxrsReader.VerbPairsNone | src/main/java/reader/impl/api/JAXRSReader.java:213-217 | no verbs give no pairs |
| JaxrsReader.AddVerbs | src/main/java/reader/impl/api/JAXRSReader.java:213-217 | the verb loop adds every verb under the new path |
| JaxrsReader.MovedNone | src/main/java/reader/impl/api/JAXRSReader.java:212-218 | no keys move nothing |
| JaxrsReader.ReadOffer | src/main/java/reader/impl/api/JAXRSReader.java:210-219 | the entry loop computes the rekeyed offer as specified |
| JaxrsReader.ReadOfferStep | src/main/java/reader/impl/api/JAXRSReader.java:212-218 | the entry loop keeps its invariant across one key |
| JaxrsReader.RekeyFailsAt | src/main/java/reader/impl/api/JAXRSReader.java:214-215 | a key holding a verb whose new path cannot be formatted makes the whole offer throw |
| JaxrsReader.RekeyFailsStep | src/main/java/reader/impl/api/JAXRSReader.java:212-218 | a key that formats does not make the offer throw |
| JaxrsReader.RekeyedStep | src/main/java/reader/impl/api/JAXRSReader.java:209-220 | one more package adds exactly its rekeyed offer |
| JaxrsReader.ConcatLoop | src/main/java/reader/impl/api/JAXRSReader.java:201-236 | the package loop computes concatApplicationPathTo as specified |
| JaxrsReader.RekeyedNone | src/main/java/reader/impl/api/JAXRSReader.java:204 | the result starts empty |
| JaxrsReader.ConcatFailsAt | src/main/java/reader/impl/api/JAXRSReader.java:209-220 | one package that throws makes the whole call throw with its exception |
| JaxrsReader.ConcatDone | src/main/java/reader/impl/api/JAXRSReader.java:201-236 | when no package throws the result is every package rekeyed |
| JaxrsReader.GetPathsAndMethods | src/main/java/reader/impl/api/JAXRSReader.java:72-122 | the method computes the offers as specified |
| LegacyJaxrsReader.ExtractHttpMethod | src/main/java/reader/JAXRSReader.java:122-125 | a verb annotation's simple name maps to the same name in HTTP_METHOD_TYPE, a name HttpMethods.valueOf accepts, never PATCH |
| LegacyJaxrsReader.LastVerbMeaning | src/main/java/reader/JAXRSReader.java:104-113 | the verb that counts is the simple name of the last verb annotation; there is none exactly when no annotation is a verb annotation |
| LegacyJaxrsReader.MethodPairMeaning | src/main/java/reader/JAXRSReader.java:101-120 | a method yields a pair exactly when it carries a verb annotation; its path is the class path followed by "/" and the value of each @Path, and its verb the last verb annotation's name |
| LegacyJaxrsReader.ReadAnnotation | src/main/java/reader/JAXRSReader.java:105-112 | one annotation appends its @Path part and replaces the verb when it is a verb annotation |
| LegacyJaxrsReader.VerbStep | src/main/java/reader/JAXRSReader.java:107-108 | one more annotation replaces the verb exactly when it is a verb annotation |
| LegacyJaxrsReader.GetMethodAnnotations | src/main/java/reader/JAXRSReader.java:101-120 | the loop computes the method's pair as specified |
| LegacyJaxrsReader.Prefixed | src/main/java/reader/JAXRSReader.java:88-96 | every pair gets the application path in front of its path and keeps its verb |
| LegacyJaxrsReader.ScanClassFails | src/main/java/reader/JAXRSReader.java:67-81 | a class throws exactly when one of its @ApplicationPath annotations has no value, and then with NullPointerException |
| LegacyJaxrsReader.PathsAndMethodsFails | src/main/java/reader/JAXRSReader.java:58-99 | the reader throws NullPointerException exactly when some @ApplicationPath of the project has no value |
| LegacyJaxrsReader.FoldAppendPairs | src/main/java/reader/JAXRSReader.java:74-79 | appending each element's pairs in turn appends all of them in order |
| LegacyJaxrsReader.ScanClassPairs | src/main/java/reader/JAXRSReader.java:67-81 | one class appends exactly the pairs of its @Path annotations' methods |
| LegacyJaxrsReader.ScanProjectPairs | src/main/java/reader/JAXRSReader.java:66-82 | the class loop appends the pairs of every class in order |
| LegacyJaxrsReader.LastApplicationPath | src/main/java/reader/JAXRSReader.java:68-69 | the @ApplicationPath that counts is the last one; none exists exactly when no annotation is one |
| LegacyJaxrsReader.AppAfterLast | src/main/java/reader/JAXRSReader.java:68-69 | every @ApplicationPath overwrites the application path, so the last one wins |
| LegacyJaxrsReader.ScanClassApp | src/main/java/reader/JAXRSReader.java:67-81 | the application path after a class is the one its annotations leave |
| LegacyJaxrsReader.ScanProjectApp | src/main/java/reader/JAXRSReader.java:66-82 | after the scan the application path is the value of the project's last @ApplicationPath, else the initial one |
| LegacyJaxrsReader.PathsAndMethodsContent | src/main/java/reader/JAXRSReader.java:58-99 | the result is the pairs of every class in order, each prefixed by the application path when there is one (the last @ApplicationPath, else web.xml's) |
| LegacyJaxrsReader.ReadMethods | src/main/java/reader/JAXRSReader.java:74-79 | the method loop appends the non-null pairs of the methods |
| LegacyJaxrsReader.ReadClass | src/main/java/reader/JAXRSReader.java:67-81 | the annotation loop of one class computes the scan step as specified |
| LegacyJaxrsReader.ReadClasses | src/main/java/reader/JAXRSReader.java:66-82 | the class loop computes the scan as specified |
| LegacyJaxrsReader.PrefixPaths | src/main/java/reader/JAXRSReader.java:89-95 | the prefixing loop computes the prefixed pairs as specified |
| LegacyJaxrsReader.GetPathsAndMethods | src/main/java/reader/JAXRSReader.java:58-99 | the method computes the pairs as specified, reading web.xml only when no @ApplicationPath was found |
| Http.ValueOf | src/main/java/reader/impl/apiconsumption/AnnotationReader.java:137 | HttpMethods.valueOf accepts exactly the names of the constants and returns the constant of that name |
| Http.NameInjective | src/main/java/reader/APIReader.java:11 | no two verbs share a name |
| Http.LookupValues | src/main/java/reader/impl/apiconsumption/AnnotationReader.java:137 | the lookup of a constant's name among all constants finds that constant |
| Http.MethodTypeNamesAligned | src/main/java/reader/APIReader.java:11 | HTTP_METHOD_TYPE lists the names of the HttpMethods constants in declaration order |
| Offers.OfferDescription.constructor | src/main/java/util/OfferDescription.java:15-26 | a new offer has its package name and no mappings yet |
| Offers.OfferDescription.AddPathToMethod | src/main/java/util/OfferDescription.java:37-47 | adding a pair creates the mappings when null and adds the verb to the path's set, creating it when missing; nothing else changes |
| Offers.OfferDescription.AddPathToMethods | src/main/java/util/OfferDescription.java:49-59 | null mappings take the given map itself; otherwise every given verb is added under its path |
| Consumes.ConsumeDescription.constructor | src/main/java/util/ConsumeDescription.java:13-33 | a new consume description has its service and package name and no paths yet |
| Consumes.ConsumeDescription.AddPathToMethod | src/main/java/util/ConsumeDescription.java:43-54 | the methods are added to the path's set, the map being created when null or empty |
| ApiInfo.JoinPathToMethods | src/main/java/collectors/models/restapi/APIInfoObject.java:110-131 | the join returns one side itself when the other is null or empty, and otherwise a fresh key-wise union |
| ApiInfo.JoinContent | src/main/java/collectors/models/restapi/APIInfoObject.java:110-131 | whichever branch is taken, the joined content is the key-wise union of the two contents |
| ApiInfo.JoinCommutative | src/main/java/collectors/models/restapi/APIInfoObject.java:120-129 | the joined content does not depend on the order of the two maps |
| ApiInfo.JoinIdempotent | src/main/java/collectors/models/restapi/APIInfoObject.java:120-129 | joining a map with itself gives it back |
| ApiInfo.EntriesOf | src/main/java/collectors/models/restapi/APIInfoObject.java:81-83 | the offers of the list as values, position by position |
| ApiInfo.Names | src/main/java/collectors/models/restapi/APIInfoObject.java:95-96 | the package names of a list of entries, position by position |
| ApiInfo.AddEntryShape | src/main/java/collectors/models/restapi/APIInfoObject.java:89-108 | adding an offer keeps the package names distinct: a known package keeps the list's names, a new one is appended |
| ApiInfo.AddEntryContent | src/main/java/collectors/models/restapi/APIInfoObject.java:89-108 | after adding an offer its package holds the union of what it held and the offer's mappings; no other package changes |
| ApiInfo.AddEntriesShape | src/main/java/collectors/models/restapi/APIInfoObject.java:133-137 | after adding offers the packages are distinct and are exactly the old ones and the offers' ones |
| ApiInfo.APIInfoObject.constructor | src/main/java/collectors/models/restapi/APIInfoObject.java:18-40 | a new API info has its service name and an empty list of offers |
| ApiInfo.APIInfoObject.AddOffer | src/main/java/collectors/models/restapi/APIInfoObject.java:89-108 | an offer of a new package is appended; one of a known package has its mappings joined into the first offer of that package and no other offer changes; the package names grow by the offer's exactly when it is new; distinct packages stay distinct; when the packages are distinct and the offer object is not already in the list, the list read as values becomes AddEntry of the old one |
| ApiInfo.APIInfoObject.AddOffers | src/main/java/collectors/models/restapi/APIInfoObject.java:133-137 | the list only grows, by offers from the argument, and its packages become the old ones and the offers' ones; distinct packages stay distinct; for offers that are objects of their own, the list read as values is AddEntries of the old values, addOffer applied left to right |
| ApiInfo.APIInfoObject.AddNext | src/main/java/collectors/models/restapi/APIInfoObject.java:134-136 | one turn of the loop calls addOffer on the next offer and advances every loop fact by that offer |
| ApiInfo.AddEntriesSnoc | src/main/java/collectors/models/restapi/APIInfoObject.java:133-137 | adding one more offer at the end is addOffer after the others |
| ApiInfo.AddEntriesContent | src/main/java/collectors/models/restapi/APIInfoObject.java:133-137 | after addOffers every package holds the union of its old content and the mappings of every added offer of that package |
| ApiInfo.GatheredKeys | src/main/java/collectors/models/restapi/APIInfoObject.java:120-121 | a path is among those the added offers bring to a package iff an added offer of that package maps it |
| ApiInfo.GatheredVerbs | src/main/java/collectors/models/restapi/APIInfoObject.java:121-129 | a verb is brought under a path iff an added offer of that package maps the path to it |
| ApiInfo.AddNamesSnoc | src/main/java/collectors/models/restapi/APIInfoObject.java:104-106 | a package name is appended exactly when it is not present yet |
| ApiInfo.AddNamesHas | src/main/java/collectors/models/restapi/APIInfoObject.java:89-108 | a package is present after adding iff it was before or is added, and no package name is doubled |
| ApiInfo.FoundEntries | src/main/java/collectors/models/restapi/APIInfoObject.java:95-102 | updating the offer found in place gives the specified list |
| ApiInfo.AppendedEntry | src/main/java/collectors/models/restapi/APIInfoObject.java:104-106 | appending an offer of a new package gives the specified list |
| PathMaps.UnionAt | src/main/java/collectors/ComponentInfoCollector.java:205-211 | addSetToMap (in both collectors) and the single-pair adds of OfferDescription and ConsumeDescription: the path is present afterwards holding its old set and the new elements, and every other path keeps its set |
| PathMaps.Union | src/main/java/collectors/models/restapi/APIInfoObject.java:120-129 | the merged map has the paths of both sides, each with the union of its two sets |
| PathMaps.UnionAssociative | src/main/java/collectors/models/restapi/APIInfoObject.java:120-129 | merging three maps does not depend on how the merges are grouped |
| PathMaps.UnionCommutative | src/main/java/collectors/models/restapi/APIInfoObject.java:120-129 | merging does not depend on the order of the maps |
| PathMaps.UnionIdempotent | src/main/java/collectors/models/restapi/APIInfoObject.java:120-129 | merging a map with itself gives it back |
| PathMaps.UnionEmpty | src/main/java/collectors/models/restapi/APIInfoObject.java:113-118 | merging with an empty map gives the other map back |
| PathMaps.Occupied | src/main/java/util/OfferDescription.java:53-57 | the paths holding some verb |
| PathMaps.AbsorbNone | src/main/java/util/OfferDescription.java:53-57 | adding the pairs of an empty map changes nothing |
| PathMaps.AbsorbEmptyEntry | src/main/java/util/OfferDescription.java:54-56 | a path with an empty set adds nothing, not even the path |
| PathMaps.AbsorbGrow | src/main/java/util/OfferDescription.java:54-56 | adding one more verb of an entry extends what the entry added |
| PathMaps.AbsorbGrowKeys | src/main/java/util/OfferDescription.java:54-56 | the paths after adding one more verb of an entry |
| PathMaps.AbsorbGrowValue | src/main/java/util/OfferDescription.java:54-56 | the sets after adding one more verb of an entry |
| PathMaps.AbsorbIsUnion | src/main/java/util/OfferDescription.java:49-59 | when no given set is empty, addPathToMethods merges like joinPathToMethods |
| PathMaps.AbsorbSingle | src/main/java/util/OfferDescription.java:53-57 | a single given pair is added like addPathToMethod |
| PathMaps.UnionAtIdempotent | src/main/java/util/OfferDescription.java:37-47 | adding the same verbs under the same path twice changes nothing more |
| PathMaps.UnionAtCommute | src/main/java/util/OfferDescription.java:37-47 | the order in which pairs are added does not matter |
| PathMaps.WithPairsStep | src/main/java/util/OfferDescription.java:37-47 | adding one pair extends the set of pairs added |
| PathMaps.WithPairsStepAt | src/main/java/util/OfferDescription.java:37-47 | the set of one path after adding one pair |
| PathMaps.AddPairsContent | src/main/java/util/OfferDescription.java:37-47 | adding a list of pairs one by one gives the map of the set of those pairs |
| PathMaps.AddPairsOrderFree | src/main/java/util/OfferDescription.java:37-47 | lists with the same pairs, in any order and with any repetition, give the same map |
| PathMaps.WithPairsUnion | src/main/java/util/OfferDescription.java:37-47 | adding two sets of pairs in turn adds their union |
| PathMaps.WithPairsUnionAt | src/main/java/util/OfferDescription.java:37-47 | the same, path by path |
| PathMaps.WithPairsUnionKeys | src/main/java/util/OfferDescription.java:37-47 | the same, for the paths present |
| PathMaps.WithPairsAt | src/main/java/util/OfferDescription.java:37-47 | a path's set after adding pairs is its old set and the verbs paired with it |
| PathMaps.WithNoPairs | src/main/java/util/OfferDescription.java:37-47 | adding no pairs changes nothing |
| PathMaps.WithPairsSnoc | src/main/java/util/OfferDescription.java:37-47 | adding one pair after a set adds the set with the pair |
| PathMaps.WithPairsOne | src/main/java/util/OfferDescription.java:37-47 | adding one pair to a map is adding a one-pair set |
| Grouping.PairsOfMember | src/main/java/reader/impl/api/SPRINGReader.java:109-125 | a pair belongs to a package exactly when one of the package's findings holds it |
| Grouping.GroupKeys | src/main/java/reader/impl/api/SPRINGReader.java:109-119 | a package gets an offer exactly when its findings contribute a pair |
| Grouping.GroupContent | src/main/java/reader/impl/api/SPRINGReader.java:109-125 | a package's offer holds exactly its findings' pairs |
| Grouping.GroupStep | src/main/java/reader/impl/api/SPRINGReader.java:109-125 | one more finding keeps every package's offer equal to its pairs |
| Grouping.GroupAt | src/main/java/reader/impl/api/SPRINGReader.java:121-123 | a verb is recorded under a path of a package exactly when one of the package's findings holds that pair |
| Grouping.GroupOrderFree | src/main/java/reader/impl/api/SPRINGReader.java:92-128 | the grouping does not depend on the order of the findings |
| Grouping.PairsOfOrderFree | src/main/java/reader/impl/api/SPRINGReader.java:92-128 | a package's pairs do not depend on the order of the findings |
| Grouping.AddAll | src/main/java/reader/impl/api/SPRINGReader.java:121-123 | the pair loop adds every pair to the offer |
| Grouping.AddFinding | src/main/java/reader/impl/api/SPRINGReader.java:109-125 | one class's findings update the per-package map as specified |
| Strings.Trim | src/main/java/reader/impl/api/SPRINGReader.java:341 | String.trim leaves no character up to ' ' at either end |
| Strings.TrimInfix | src/main/java/reader/impl/api/SPRINGReader.java:341 | String.trim returns an infix of the string, and every character it removes is one up to ' ' |
| Strings.TrimIdempotent | src/main/java/reader/impl/api/SPRINGReader.java:341 | trimming twice is trimming once |
| Strings.RemoveChar | src/main/java/reader/impl/api/SPRINGReader.java:321 | replace("\"", "") leaves no quote and keeps every other character |
| Strings.JoinSplit | src/main/java/collectors/ComponentInfoCollector.java:263-265 | splitting on a character and joining back gives the string |
| Strings.SplitJoin | src/main/java/collectors/ComponentInfoCollector.java:263-265 | joining pieces without the separator and splitting again gives the pieces |
| Strings.JavaSplitJoin | src/main/java/collectors/ComponentInfoCollector.java:263-265 | String.split gives back pieces without the separator whose last piece is not empty |
| Strings.JavaSplitPieces | src/main/java/collectors/ComponentInfoCollector.java:263-265 | the pieces of String.split hold no separator |
| Strings.SplitLength | src/main/java/collectors/ComponentInfoCollector.java:263-265 | splitting gives one piece more than there are separators |
| Strings.SegmentsSplit | src/main/java/collectors/ComponentInfoCollector.java:263-265 | the depth counted on a package name is the length of its String.split on "." |
| Strings.ToUpper | src/main/java/reader/impl/api/SPRINGReader.java:251 | upper-casing keeps the length and maps every character |
| Strings.RemoveRegularExpressionsClean | src/main/java/reader/impl/api/SPRINGReader.java:260-262 | after removing constraints no ":...}" constraint is left |
| Strings.RemoveRegularExpressionsFixed | src/main/java/reader/impl/api/SPRINGReader.java:260-262 | a path without constraints is unchanged |
| Strings.RemoveRegularExpressionsIdempotent | src/main/java/reader/impl/api/SPRINGReader.java:260-262 | removing constraints twice is removing them once |
| ConsumptionReader.Format | src/main/java/reader/impl/apiconsumption/AnnotationReader.java:171-173 | a formatted value holds no double quote |
| ConsumptionReader.FormatOnce | src/main/java/reader/impl/apiconsumption/AnnotationReader.java:171-173 | the second trim does nothing: format is one trim followed by removing quotes |
| ConsumptionReader.FormatNotTrimmed | src/main/java/reader/impl/apiconsumption/AnnotationReader.java:171-173 | quotes are removed after trimming, so a quoted value keeps the blanks inside its quotes |
| ConsumptionReader.TagScanMeaning | src/main/java/reader/impl/apiconsumption/AnnotationReader.java:160-162 | the character scan accepts exactly the strings of tag characters and colons with one or two colons and no empty piece |
| ConsumptionReader.CouldBeValidServiceMeaning | src/main/java/reader/impl/apiconsumption/AnnotationReader.java:160-162 | a service name is valid exactly when it splits on ":" into two or three non-empty pieces of letters, digits, ".", "-" and "_" |
| ConsumptionReader.DefaultServiceInvalid | src/main/java/annotation/ConsumesAPI.java:20 | the default service "--" is not itself a valid service name |
| ConsumptionReader.ServiceName | src/main/java/reader/impl/apiconsumption/AnnotationReader.java:121-130 | the service is the formatted `service` parameter when that is present and valid, and the default otherwise |
| ConsumptionReader.KeptEmpty | src/main/java/reader/impl/apiconsumption/AnnotationReader.java:182-188 | no segment is kept exactly when every piece is empty |
| ConsumptionReader.ToUpperKeepsOut | src/main/java/reader/impl/apiconsumption/AnnotationReader.java:184 | upper-casing a segment adds no slash |
| ConsumptionReader.KeptClean | src/main/java/reader/impl/apiconsumption/AnnotationReader.java:182-188 | every kept segment is non-empty and holds no slash |
| ConsumptionReader.SegmentsJoin | src/main/java/reader/impl/apiconsumption/AnnotationReader.java:182-188 | joining the kept segments one by one is "/" before each kept segment |
| ConsumptionReader.JoinOneMore | src/main/java/reader/impl/apiconsumption/AnnotationReader.java:184-186 | String.join("/", setPath, part) appends "/" and the part |
| ConsumptionReader.TypedPathSegments | src/main/java/reader/impl/apiconsumption/AnnotationReader.java:175-193 | a path with no non-empty segment comes back unchanged; otherwise the result starts with "/" and splits into exactly the kept segments, placeholders upper-cased |
| ConsumptionReader.SetTypeInPath | src/main/java/reader/impl/apiconsumption/AnnotationReader.java:175-193 | the segment loop computes the typed path as specified |
| ConsumptionReader.CallOfMeaning | src/main/java/reader/impl/apiconsumption/AnnotationReader.java:120-150 | a @ConsumesAPI throws NullPointerException exactly when `path` or `method` is missing; it records a call exactly when its method names an HttpMethods constant, with the service, package, typed path and formatted method |
| ConsumptionReader.Keys | src/main/java/reader/impl/apiconsumption/AnnotationReader.java:211-212 | the (service, package) keys of the list, position by position |
| ConsumptionReader.AddCallShape | src/main/java/reader/impl/apiconsumption/AnnotationReader.java:139-145 | recording a call keeps the keys distinct: a known key keeps the list's keys, a new one is appended |
| ConsumptionReader.AddCallContent | src/main/java/reader/impl/apiconsumption/AnnotationReader.java:139-145 | recording a call adds its method under its path for its key and changes no other key |
| ConsumptionReader.AppendedContent | src/main/java/reader/impl/apiconsumption/AnnotationReader.java:140-144 | a call with a new key gets a new description holding its path and method |
| ConsumptionReader.UpdatedContent | src/main/java/reader/impl/apiconsumption/AnnotationReader.java:210-215 | a call with a known key adds its method to the first description of that key |
| ConsumptionReader.RecordAll | src/main/java/reader/impl/apiconsumption/AnnotationReader.java:139-145 | after recording calls the keys are distinct, are exactly the calls' keys, and a key holds a method under a path exactly when such a call was recorded |
| ConsumptionReader.RecordsStep | src/main/java/reader/impl/apiconsumption/AnnotationReader.java:139-145 | one more call adds exactly itself to the recorded calls |
| ConsumptionReader.SingleCall | src/main/java/reader/impl/apiconsumption/AnnotationReader.java:120-150 | a @ConsumesAPI contributes exactly its own call, when it has one |
| ConsumptionReader.ContainerCallsMember | src/main/java/reader/impl/apiconsumption/AnnotationReader.java:91-105 | a @ConsumesAPIs contributes exactly the calls of the annotations in its `value` list |
| ConsumptionReader.ItemsCallsMember | src/main/java/reader/impl/apiconsumption/AnnotationReader.java:98-103 | a call comes from a list of elements exactly when some element is an annotation yielding that call |
| ConsumptionReader.ElementCallsMember | src/main/java/reader/impl/apiconsumption/AnnotationReader.java:100-102 | a single element yields a call exactly when it is an annotation and yields that call |
| ConsumptionReader.AnnotationCallsMember | src/main/java/reader/impl/apiconsumption/AnnotationReader.java:68-75 | a method annotation contributes exactly the calls it records as @ConsumesAPI or @ConsumesAPIs |
| ConsumptionReader.MethodCallsMember | src/main/java/reader/impl/apiconsumption/AnnotationReader.java:68-75 | a method contributes exactly the calls of its annotations |
| ConsumptionReader.ClassCallsMember | src/main/java/reader/impl/apiconsumption/AnnotationReader.java:66-77 | a class contributes exactly the calls of its methods |
| ConsumptionReader.CallsMember | src/main/java/reader/impl/apiconsumption/AnnotationReader.java:45-51 | the project's calls are exactly those of its classes that import ConsumesAPI |
| ConsumptionReader.CallOfFails | src/main/java/reader/impl/apiconsumption/AnnotationReader.java:132-133 | one @ConsumesAPI throws exactly when `path` or `method` is missing, with NullPointerException |
| ConsumptionReader.ContainerCallsFail | src/main/java/reader/impl/apiconsumption/AnnotationReader.java:91-105 | a @ConsumesAPIs throws exactly when one of the annotations in its list throws, with NullPointerException |
| ConsumptionReader.AnnotationCallsFail | src/main/java/reader/impl/apiconsumption/AnnotationReader.java:68-75 | a method annotation throws exactly when the annotation it stands for throws |
| ConsumptionReader.MethodCallsFail | src/main/java/reader/impl/apiconsumption/AnnotationReader.java:68-75 | a method throws exactly when one of its annotations throws |
| ConsumptionReader.ClassCallsFail | src/main/java/reader/impl/apiconsumption/AnnotationReader.java:66-77 | a class throws exactly when it imports ConsumesAPI and one of its annotations throws |
| ConsumptionReader.ConsumptionFails | src/main/java/reader/impl/apiconsumption/AnnotationReader.java:39-54 | getAPIConsumption throws exactly when some scanned class throws, and then NullPointerException |
| ConsumptionReader.CallsKey | src/main/java/reader/impl/apiconsumption/AnnotationReader.java:45-51 | a key occurs among the project's calls exactly when the project records a call with that key |
| ConsumptionReader.ConsumptionKeys | src/main/java/reader/impl/apiconsumption/AnnotationReader.java:39-54 | the result has one description per (service, package) key, exactly for the keys of the recorded calls |
| ConsumptionReader.ConsumptionContent | src/main/java/reader/impl/apiconsumption/AnnotationReader.java:39-54 | a description holds a method under a path exactly when the project records that call |
| ConsumptionReader.KeysOf | src/main/java/reader/impl/apiconsumption/AnnotationReader.java:211-212 | the keys of the live descriptions, position by position |
| ConsumptionReader.EntriesOf | src/main/java/reader/impl/apiconsumption/AnnotationReader.java:207-220 | the live descriptions as values, position by position, with the same keys |
| ConsumptionReader.AddToList | src/main/java/reader/impl/apiconsumption/AnnotationReader.java:207-220 | addToList answers whether the key is in the list, and then adds the call to the first description of that key; otherwise nothing changes |
| ConsumptionReader.Record | src/main/java/reader/impl/apiconsumption/AnnotationReader.java:139-145 | the list afterwards holds the call recorded, through an existing description or a fresh one appended |
| ConsumptionReader.AnnotationCallsFrom | src/main/java/reader/impl/apiconsumption/AnnotationReader.java:132-137 | from the values read, the annotation records its call exactly when valueOf accepts the method |
| ConsumptionReader.AddConsumesAPIInfo | src/main/java/reader/impl/apiconsumption/AnnotationReader.java:120-150 | the method throws exactly when the annotation does, and otherwise records exactly the annotation's calls in the list |
| ConsumptionReader.AddAllConsumesAPIInfo | src/main/java/reader/impl/apiconsumption/AnnotationReader.java:91-105 | the loop throws exactly when one of the listed annotations does, and otherwise records their calls in order |
| ConsumptionReader.AddItems | src/main/java/reader/impl/apiconsumption/AnnotationReader.java:98-103 | the loop over the list throws exactly when one element does, and otherwise records the elements' calls in list order |
| ConsumptionReader.AddElement | src/main/java/reader/impl/apiconsumption/AnnotationReader.java:100-102 | an element that is an annotation is recorded as a @ConsumesAPI; any other element changes nothing |
| ConsumptionReader.SearchAnnotations | src/main/java/reader/impl/apiconsumption/AnnotationReader.java:68-75 | the annotation loop of one method records exactly the method's calls, or throws when an annotation does |
| ConsumptionReader.SearchForAPIInfo | src/main/java/reader/impl/apiconsumption/AnnotationReader.java:66-77 | the method loop records exactly the calls of the class's methods, or throws |
| ConsumptionReader.GetAPIConsumption | src/main/java/reader/impl/apiconsumption/AnnotationReader.java:39-54 | the list returned holds exactly the recorded calls of the classes importing ConsumesAPI, in fresh descriptions, or the call throws when a class does |

## Left out

- Source parsing is not modelled. The parser's results are input values instead: classes with their package, imports, annotations and methods, and annotation parameters as a string, a list or another expression, with their `toString()` text.
- The file system is a `SourceNode` tree of directories, files with their imports, and unreadable files. An unreadable file contributes nothing, as the caught IOException does in the collectors.
- Configuration files are not read. That covers web.xml, glassfish-web.xml and application.properties/yml. Their values are optional string inputs: the servlet mapping, the GlassFish context root and the configured context path.
- The Swagger readers, the Mojos, APIInfoCollector, ModuleInfoCollector, MavenInfoCollector, the file writers and aggregators, and the getter/setter data classes are not part of this model.
- Logging is not modelled. A logged error shows only as the entry being skipped or the service defaulted.
- `Locale.ROOT` upper-casing is ASCII-only here, and the Java regular-expression engine is replaced by functions for the three patterns the source uses: the path-constraint pattern, the service-name pattern and the "." of the Spring reader's `split`.
- HashMap and HashSet iteration order is not modelled. Loops over sets and maps pick their next element in any order, and the specifications do not depend on that order.
- SpringReader.GetPathsAndMethods returns the offers as a map from package name to path map. That is the HashMap the source builds, not the list of its values, so the list's order and the identity of its OfferDescription objects are not modelled.
- JaxrsReader.GetPathsAndMethods returns its offers as a map from package name to path map in the same way. The order of the returned list is not modelled.
- The `mappings` list that the newer JAX-RS reader fills (JAXRSReader.java lines 79 and 93) is never read, so it is not modelled.
- The source's sets and maps are values in the model. The source shares them:
  - ConsumeDescription stores the caller's set;
  - `addPathToMethods` adopts the given map;
  - `joinPathToMethods` may return one of its arguments.

  So a later change through one reference is not seen through the other.
- ConsumptionReader.GetAPIConsumption: when a NullPointerException escapes, the result says only that it was thrown. The descriptions the Java list had already received are not stated, because the exception ends the call.
- ConsumptionReader.AddConsumesAPIInfo, ConsumptionReader.AddAllConsumesAPIInfo, ConsumptionReader.SearchAnnotations, ConsumptionReader.SearchForAPIInfo, ConsumptionReader.AddToList and ConsumptionReader.Record: these private helpers require a list of distinct objects. The reader only ever builds such a list, because every description in it is created fresh.
- The inner annotation loop of `searchForAPIInfo` is the method `ConsumptionReader.SearchAnnotations`. `getMethodAnnotations` in the JAX-RS reader is likewise split into per-annotation and loop methods.
- JAXRSReaderTest uses a constructor that neither reader has and expects untyped placeholders, so it is not modelled.
- ComponentCollector.ComponentInfoCollector.FilterWhiteList: whitelist depths are plain integers, so a name configured without a depth (a null `Integer`) is not represented. For such a name the source reads depth 1 in `getDepthValueOfPackage` (line 264) and throws NullPointerException at lines 106-112 when it forms a prefix pair with another whitelisted name; neither is modelled.
- ApiInfo.APIInfoObject.AddOffers: the value-level result is stated only for offers that are objects of their own (none already in the list, none twice). An offer object shared with the list would be changed by an earlier addOffer before its own turn.
- Depths, segment counts and list lengths are unbounded integers. Java `int` overflow would need more than 2^31 path segments.
