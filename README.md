# wix-maven-plugin in Dafny

A Dafny model of the goals of wix-maven-plugin, a Maven plugin that builds Windows Installer
packages with the WiX toolset. The model covers the `com.github.wix_maven` goals and the older
`net.sf.wix` goals:

- candle (compile `.wxs` sources);
- light (link `.wixobj`/`.wixlib` into `.msi`/`.msm`/`.exe`);
- lit (build `.wixlib`);
- torch and transform (build `.mst`);
- patch (torch plus pyro into `.msp`);
- package and prepare-package (attach outputs to the project);
- unpack-dependencies;
- harvest (heat);
- smoke (validation);
- the insignia goals: inscribe, attach-bundle-engine and detach-bundle-engine;
- wixproj (Visual Studio project updates);
- the `WixInfo` properties bag stored in `META-INF\wix\wix.properties`.

Each goal is modelled as the plan it carries out: a sequence of `Step`s in module `Runtime`.
- A step runs a tool with a command line (`Call`), performs a file-system effect (`Do`), or
  stops the goal with a failure (`Throw`).
- `Runtime.Perform` executes a plan against an oracle for the tools' exit codes. It stops at
  the first failure, as the goals do when they throw `MojoExecutionException`.
- The goals' `execute` methods are imperative loops that build a `Runtime.CommandLine` object
  (mirroring plexus `Commandline`) for each platform and culture. Each method is proved against
  a function that gives its plan. The lemmas then state what the plan does.

The plans cover:
- which tools run, in which order and with which arguments;
- which folders are made;
- what is attached or unpacked;
- when a goal fails.

Things the model cannot see are inputs:
- the file system (which paths exist, and the listings of folders);
- the iteration order of Java `HashSet`s, `HashMap`s and `Properties`;
- the results of artifact resolution;
- the exit codes of the tools.

Shared modules:

| module | what it models |
|---|---|
| `Wrappers` | `Option` and `Result` |
| `JavaText` | `java.lang.String` operations: `split`, `trim`, `replace`, `equalsIgnoreCase` |
| `JavaProperties` | `java.util.Properties` |
| `Files` | `java.io.File` names, with `\` as the separator |
| `Seqs` | iteration of sets and nested loops |
| `Plans` | loops that build plans |
| `RelativePath` | `getRelativePath` |
| `WixMojo` | `AbstractWixMojo` |
| `Packageable` | what the goals read of `AbstractPackageable` |

The `Legacy*` modules model the `net.sf.wix` variants wherever they differ from the current code.

## Model

| member | source | states |
|---|---|---|
| Runtime.CommandLine.constructor | src/main/java/com/github/wix_maven/CandleMojo.java:195-196 | a new command line holds the given executable, as `new Commandline()` followed by `setExecutable`, with no working directory and no arguments |
| Runtime.CommandLine.SetWorkingDirectory | src/main/java/com/github/wix_maven/CandleMojo.java:198 | sets the working directory and changes nothing else |
| Runtime.CommandLine.AddArguments | src/main/java/com/github/wix_maven/CandleMojo.java:141 | appends the arguments in order after the existing ones and changes nothing else |
| Runtime.CommandLine.Snapshot | src/main/java/com/github/wix_maven/AbstractLinker.java:201 | the invocation a run sees carries exactly the executable, working directory and arguments held when it starts |
| Runtime.RateRunProperties | src/main/java/com/github/wix_maven/AbstractLinker.java:201-222 | each stdout line gets one level: error exactly when it holds the error marker, warning exactly when it holds the warning marker and not the error one, info only when verbose, debug only when not; every stderr line is an error |
| Runtime.RunFailure | src/main/java/com/github/wix_maven/AbstractLinker.java:224-229 | a run fails exactly when it cannot be launched or exits with a non-zero code; a non-zero code is reported with that code and, where the goal says so, the command line |
| Runtime.PerformCompletes | src/main/java/com/github/wix_maven/AbstractLinker.java:197-231 | a goal completes exactly when every step goes through, and then it has done every step in order |
| Runtime.PerformFailsAtFirst | src/main/java/com/github/wix_maven/AbstractLinker.java:197-231 | a goal stops at the first step that throws or whose tool fails, after doing every earlier step, and reports that step's failure |
| Runtime.Run | src/main/java/com/github/wix_maven/AbstractLinker.java:197-231 | running the steps one by one gives the outcome the plan prescribes |
| Runtime.PerformConcat | src/main/java/com/github/wix_maven/AbstractLinker.java:197-231 | running two plans one after the other: the second runs only when the first completes, after its trace |
| Wrappers.TraverseFails | src/main/java/com/github/wix_maven/AbstractWixMojo.java:382-423 | a sequence of lookups fails exactly when one of them fails |
| Wrappers.TraverseAt | src/main/java/com/github/wix_maven/AbstractWixMojo.java:382-423 | a sequence of lookups that succeeds keeps every result in its place |
| Wrappers.TraversePrefixFailure | src/main/java/com/github/wix_maven/AbstractWixMojo.java:382-423 | once an earlier lookup fails, later ones do not change the failure |
| JavaText.EqualsIgnoreCaseIsEquivalence | src/main/java/com/github/wix_maven/AbstractWixMojo.java:321 | equalsIgnoreCase is reflexive, symmetric and transitive |
| JavaText.ReplaceCanLeaveOccurrence | src/main/java/com/github/wix_maven/AbstractCompilerMojo.java:240-246 | replace does not rescan its output: removing "<root>\" from a path can leave another "<root>\" in the result |
| JavaText.StripLeading | src/main/java/com/github/wix_maven/AbstractCompilerMojo.java:240-246 | removing a leading "<root>\" undoes prefixing it when the rest holds no other occurrence of that text |
| JavaText.SplitEmptyIff | src/main/java/com/github/wix_maven/AbstractWixMojo.java:625-629 | split(";") gives no field at all exactly when the text is made only of ';' |
| JavaText.SplitOfJoin | src/main/java/com/github/wix_maven/AbstractWixMojo.java:625-629 | splitting a ';'-joined list gives back the parts when none holds ';' and the last is not empty |
| JavaText.FirstFieldIsBefore | src/main/java/com/github/wix_maven/AbstractWixMojo.java:625-629 | when split(";") gives a field, the first one is the text before the first ';' |
| JavaText.TrimSlice | src/main/java/com/github/wix_maven/PackageMojo.java:160-161 | trim cuts off only blank characters at both ends, leaves non-blank ends, and gives the empty text exactly for blank input |
| JavaProperties.GetProperty | src/main/java/com/github/wix_maven/WixInfo.java:189-196 | the stored value for the key, and none exactly when the key is not stored |
| JavaProperties.SetProperty | src/main/java/com/github/wix_maven/WixInfo.java:184-187 | afterwards the key maps to the value, every other key keeps its value, and a new key is listed last |
| Plans.MakeIfMissing | src/main/java/com/github/wix_maven/DetachBundleEngineMojo.java:58-59 | a folder is created exactly when it neither exists nor was created earlier in the goal, and is then known to exist |
| Plans.FoldConcat | src/main/java/com/github/wix_maven/PackageMojo.java:76-150 | two loops in a row are one loop over both lists, the second starting from where the first left off |
| Plans.FoldCalls | src/main/java/com/github/wix_maven/LightMojo.java:115-116 | a loop that runs one tool call per item runs them in the items' order |
| Plans.SelectMembers | src/main/java/com/github/wix_maven/LightMojo.java:115-116 | a step is picked out exactly when it is one of the plan's steps and passes the test |
| Seqs.Enumerate | src/main/java/com/github/wix_maven/LightMojo.java:115 | iterating a set gives each member exactly once, in some order |
| Seqs.ListsCard | src/main/java/com/github/wix_maven/LightMojo.java:115 | a listing of a set has one entry per member |
| Seqs.CrossAt | src/main/java/com/github/wix_maven/LightMojo.java:115-116 | the nested arch and culture loops visit pair (i, j) at position i times the number of cultures plus j |
| Seqs.CrossMembers | src/main/java/com/github/wix_maven/LightMojo.java:115-116 | the nested loops visit a pair exactly when both its arch and its culture are iterated |
| Seqs.CrossSingles | src/main/java/com/github/wix_maven/LightMojo.java:115-116 | a nested loop that contributes one item per pair contributes exactly one per pair, in arch-major order |
| Seqs.FilterMembers | src/main/java/com/github/wix_maven/AbstractCompilerMojo.java:57-95 | the filter keeps exactly the elements the test accepts, in order |
| Seqs.FlatMapMembers | src/main/java/com/github/wix_maven/AbstractCompilerMojo.java:57-95 | a loop that adds each element's group produces an item exactly when some element's group holds it |
| Seqs.Insert | src/main/java/com/github/wix_maven/LightMojo.java:133 | LinkedHashSet.add appends an element that is new and ignores one already present |
| Files.NameOfChild | src/main/java/com/github/wix_maven/LightMojo.java:200 | the name of a file made in a folder is the name it was given |
| Files.ParentOfChild | src/main/java/com/github/wix_maven/LightMojo.java:200 | the parent of a file made in a folder is that folder |
| ArtifactLookup.FirstMatchAppend | src/main/java/com/github/wix_maven/AbstractWixMojo.java:432-457 | searching two lists in turn finds the first list's match if it has one, else the second's |
| ArtifactLookup.ProjectsOrderPrefix | src/main/java/com/github/wix_maven/AbstractWixMojo.java:432-457 | the search order of the first n reactor projects is a prefix of the whole reactor's |
| Candle.CandleMojo.constructor | src/main/java/com/github/wix_maven/CandleMojo.java:143-157 | a new goal holds the configured includes and timestamp folder, and no definitions yet |
| Candle.CandleMojo.AddEach | src/main/java/com/github/wix_maven/CandleMojo.java:143-157 | adds every definition of the list to the set and changes nothing else |
| Harvest.ToolsetArgsAsWritten | src/main/java/com/github/wix_maven/HarvestMojo.java:252-254 | as written, the heat options fail exactly when no suppress set is configured, and otherwise are the corrected options |
| Harvest.HeatStep | src/main/java/com/github/wix_maven/HarvestMojo.java:305-330 | a heat run whose failure names heat and shows the command line |
| Torch.TorchStep | src/main/java/com/github/wix_maven/AbstractTorchMojo.java:93-121 | a torch run whose failure names torch and does not show the command line |
| Insignia.InsigniaStep | src/main/java/net/sf/wix/AbstractInsigniaMojo.java:92-120 | an insignia run whose failure is reported under torch's name, without the command line |
| Linker.LinkStep | src/main/java/com/github/wix_maven/AbstractLinker.java:224-229 | a linker run whose failure names the return code but not the command line |
| Linker.LinkerSettings.constructor | src/main/java/com/github/wix_maven/AbstractLinker.java:60-107 | the settings hold the configured include and exclude patterns and file source roots |
| Linker.OrderedRoots.constructor | src/main/java/com/github/wix_maven/LightMojo.java:133 | the ordered roots start as the configured file source roots |
| Linker.InsertAll | src/main/java/com/github/wix_maven/LightMojo.java:133-160 | adding folders to an insertion-ordered set never drops an entry |
| Light.ArgsAssemble | src/main/java/com/github/wix_maven/LightMojo.java:172-210 | the leading options, bind paths, options, cabinet cache switches and object files together make the light command line |
| Lit.LitArgsAssemble | src/main/java/com/github/wix_maven/LitMojo.java:86-112 | the leading options, bind paths, extensions, locales, pass-through options and files together make the lit command line |
| Package.CulturePassAttachments | src/main/java/com/github/wix_maven/PackageMojo.java:111-150 | each culture pass attaches exactly that culture's attachments |
| Package.ArchPassAttachments | src/main/java/com/github/wix_maven/PackageMojo.java:76-150 | each arch pass attaches exactly that arch's attachments |
| Package.PackagingIsNotAttachedType | src/main/java/com/github/wix_maven/PackageMojo.java:100-112 | an msi or msp package is never of type wixpdb or mst |
| WixMojo.SplitAtFirstSeparator | src/main/java/com/github/wix_maven/AbstractWixMojo.java:489-499 | a path made of a single-segment folder, a separator and a rest splits back into that folder and rest |
| WixMojo.ChildInjective | src/main/java/com/github/wix_maven/AbstractWixMojo.java:489-499 | two files in one folder are the same path only when their names are |
| WixMojo.BeforeWithoutSeparator | src/main/java/com/github/wix_maven/AbstractWixMojo.java:625-629 | a culture spec without ';' is its own primary culture |
| WixMojo.ExtensionArgsConcat | src/main/java/com/github/wix_maven/AbstractWixMojo.java:459-470 | the extension arguments of two lists are those of each list in turn |
| WixMojo.PlatformSetting.constructor | src/main/java/com/github/wix_maven/AbstractWixMojo.java:309-311 | the setting holds the configured platforms, null as none |
| WixMojo.PlatformSetting.GetPlatforms | src/main/java/com/github/wix_maven/AbstractWixMojo.java:297-307 | a null or empty set becomes {"x86"}, otherwise the set is returned unchanged; the field keeps the result |
| WixMojo.DefaultPlatformsNeverEmpty | src/main/java/com/github/wix_maven/AbstractWixMojo.java:297-307 | the platforms are never empty; a configured non-empty set is kept; null or empty gives exactly {"x86"} |
| WixMojo.OutputLayout | src/main/java/com/github/wix_maven/AbstractWixMojo.java:480-499 | an output file is <base or project dir>\<arch>[\<culture>]\<finalName>.<extension> |
| WixMojo.OutputPathsDistinct | src/main/java/com/github/wix_maven/AbstractWixMojo.java:489-499 | two (arch, culture) variants whose names are single path segments never share an output folder |
| WixMojo.OutputsDistinct | src/main/java/com/github/wix_maven/AbstractWixMojo.java:480-487 | two variants never share an output file |
| WixMojo.PrimaryCultureAsWrittenThrows | src/main/java/com/github/wix_maven/AbstractWixMojo.java:625-629 | as written, split(";")[0] throws for the specs ";" and ";;" |
| WixMojo.PrimaryCulture | src/main/java/com/github/wix_maven/AbstractWixMojo.java:625-629 | null stays null, otherwise the text before the first ';' |
| WixMojo.PrimaryCultureIsFirstField | src/main/java/com/github/wix_maven/AbstractWixMojo.java:625-629 | the primary culture is the ';'-free prefix of the spec; the code as written agrees wherever it does not throw, and throws exactly on specs made only of ';' |
| WixMojo.VariantClassifierShape | src/main/java/com/github/wix_maven/AbstractWixMojo.java:699-709 | the classifier looked up is <arch>-neutral without a culture, else <arch>-<primary culture> |
| WixMojo.LookupAddsToAny | src/main/java/com/github/wix_maven/AbstractWixMojo.java:382-423 | a lookup into any set succeeds exactly when one into an empty set does, and adds the same artifacts |
| WixMojo.RelatedArtifactsFallback | src/main/java/com/github/wix_maven/AbstractWixMojo.java:682-754 | types other than wixlib and msm yield nothing; without a culture the neutral lookup decides; with one, the call fails only when both the neutral and the culture lookup fail, and yields what the successful ones found |
| WixMojo.FirstWithId | src/main/java/com/github/wix_maven/AbstractWixMojo.java:332-347 | the first plugin artifact with the groupId and artifactId: it has both ids and no earlier artifact does; none exactly when no artifact has both |
| WixMojo.FindToolsArtifact | src/main/java/com/github/wix_maven/AbstractWixMojo.java:332-347 | the first matching plugin artifact, or "Unable to find <artifactId> dependency" when none matches or there are no plugin artifacts |
| WixMojo.FindToolsArtifacts | src/main/java/com/github/wix_maven/AbstractWixMojo.java:317-329 | succeeds exactly when the tools artifact is found and, for bundle packaging (ignoring case), the bootstrap artifact too; the result is then the first plugin artifact with the tools ids followed, for a bundle, by the first with the bootstrap ids; a missing tools artifact fails naming it, and a missing bootstrap artifact fails naming that one |
| WixMojo.GeneralOptions | src/main/java/com/github/wix_maven/AbstractWixMojo.java:541-546 | "-nologo" exactly when not verbose, and nothing else |
| WixMojo.AddToolsetGeneralOptions | src/main/java/com/github/wix_maven/AbstractWixMojo.java:541-546 | appends the general options and changes nothing else |
| WixMojo.ExtensionDependenciesMembers | src/main/java/com/github/wix_maven/AbstractWixMojo.java:501-539 | an artifact is an extension exactly when it is a dependency of type wixext or wixExt, direct or not |
| WixMojo.ExtensionArgs | src/main/java/com/github/wix_maven/AbstractWixMojo.java:459-470 | one "-ext" and the file's path per extension, in iteration order |
| WixMojo.AddWixExtensions | src/main/java/com/github/wix_maven/AbstractWixMojo.java:463-478 | the loop appends exactly the extension arguments |
| WixMojo.WixDependenciesMembers | src/main/java/com/github/wix_maven/AbstractWixMojo.java:590-619 | an artifact is a wix dependency exactly when it is direct, of type wixlib, msm, msp, msi or bundle, and its classifier is kept |
| WixMojo.WixDependencyClassifiers | src/main/java/com/github/wix_maven/AbstractWixMojo.java:594-605 | no classifier is kept; a classifier is kept exactly when it starts with x86, x64 or intel |
| WixMojo.WixUnpackDirectory | src/main/java/com/github/wix_maven/AbstractWixMojo.java:621-623 | the unpack folder of a wix dependency is <unpackDirectory>\<groupId>-<artifactId>-<baseVersion> |
| ArtifactLookup.SameArtifactIsCoordinateEquality | src/main/java/com/github/wix_maven/AbstractWixMojo.java:651-658 | the null-safe equals is an equivalence holding exactly when group, artifact, version, type and classifier agree, and never between null and an artifact |
| ArtifactLookup.FirstMatch | src/main/java/com/github/wix_maven/AbstractWixMojo.java:432-457 | the first candidate with the wanted coordinates and a file; none exactly when no candidate matches |
| ArtifactLookup.SearchArtifacts | src/main/java/com/github/wix_maven/AbstractWixMojo.java:432-457 | the loop over one collection returns its first match |
| ArtifactLookup.SearchProject | src/main/java/com/github/wix_maven/AbstractWixMojo.java:432-457 | a reactor project is searched main artifact first, then its attached artifacts |
| ArtifactLookup.SearchReactor | src/main/java/com/github/wix_maven/AbstractWixMojo.java:432-457 | getArtifactFomReactor returns the first match of the whole reactor search order |
| ArtifactLookup.ProjectsPrefix | src/main/java/com/github/wix_maven/AbstractWixMojo.java:432-457 | once a project holds a match, later projects do not change the result |
| ArtifactLookup.ReactorHitMatches | src/main/java/com/github/wix_maven/AbstractWixMojo.java:432-457 | a reactor hit has the wanted coordinates and a file |
| ArtifactLookup.ProjectArtifactsFirst | src/main/java/com/github/wix_maven/AbstractWixMojo.java:432-457 | a matching dependency of the project itself is found before any reactor project's artifact |
| ArtifactLookup.GetArtifact | src/main/java/com/github/wix_maven/AbstractWixMojo.java:382-423 | adds the reactor hit when there is one; otherwise adds the resolved artifact, or fails when the repository cannot supply it |
| ArtifactLookup.GetArtifactAddsRequested | src/main/java/com/github/wix_maven/AbstractWixMojo.java:382-423 | whatever is added carries the requested coordinates and classifier; nothing already in the set is lost |
| ArtifactItems.FilterEmptyString | src/main/java/com/github/wix_maven/ArtifactItem.java:55-62 | the empty string becomes null; every other value, null included, is kept |
| ArtifactItems.FilterEmptyStringSettles | src/main/java/com/github/wix_maven/ArtifactItem.java:55-62 | filtering is idempotent and never yields the empty string |
| ArtifactItems.ArtifactItem.constructor | src/main/java/com/github/wix_maven/ArtifactItem.java:29-52 | a new item has no coordinates or version and the type "wixpdb" |
| ArtifactItems.ArtifactItem.SetGroupId | src/main/java/com/github/wix_maven/ArtifactItem.java:93-97 | stores the filtered value; the other fields are unchanged |
| ArtifactItems.ArtifactItem.SetArtifactId | src/main/java/com/github/wix_maven/ArtifactItem.java:76-79 | stores the filtered value; the other fields are unchanged |
| ArtifactItems.ArtifactItem.SetType | src/main/java/com/github/wix_maven/ArtifactItem.java:111-114 | stores the filtered value; the other fields are unchanged |
| ArtifactItems.ArtifactItem.SetVersion | src/main/java/com/github/wix_maven/ArtifactItem.java:128-131 | stores the filtered value; the other fields are unchanged |
| JavaProperties.PassThroughPairs | src/main/java/com/github/wix_maven/CandleMojo.java:128-143 | when every key has a value, the arguments alternate key and value: the i-th key at 2i, its value right after |
| JavaProperties.PassThroughBounds | src/main/java/com/github/wix_maven/CandleMojo.java:128-143 | each key contributes itself and at most its value |
| RelativePath.WithTrailingSeparator | src/main/java/com/github/wix_maven/AbstractWixMojo.java:774-777 | the base ends in a separator afterwards, with one appended only when missing |
| RelativePath.IndexOfFrom | src/main/java/com/github/wix_maven/AbstractWixMojo.java:799 | the first index at or after `from` holding the character, or -1 |
| RelativePath.CommonLength | src/main/java/com/github/wix_maven/AbstractWixMojo.java:830-838 | the length of the longest common prefix of the two paths |
| RelativePath.LastSeparator | src/main/java/com/github/wix_maven/AbstractWixMojo.java:830-838 | the last separator below n, or -1 |
| RelativePath.Ups | src/main/java/com/github/wix_maven/AbstractWixMojo.java:844-851 | k steps up, joined by separators; empty exactly when k is 0 |
| RelativePath.GetRelativePath | src/main/java/com/github/wix_maven/AbstractWixMojo.java:768-862 | the method computes RelativePathOf, the specification of getRelativePath |
| RelativePath.WalkPaths | src/main/java/com/github/wix_maven/AbstractWixMojo.java:821-858 | the walk after the prefix checks computes Walk |
| RelativePath.CommonSeparator | src/main/java/com/github/wix_maven/AbstractWixMojo.java:821-838 | the first loop finds the last separator of the common prefix |
| RelativePath.UpsFrom | src/main/java/com/github/wix_maven/AbstractWixMojo.java:839-851 | the second loop writes one ".." per separator of the base after the common part |
| RelativePath.RelativeToItself | src/main/java/com/github/wix_maven/AbstractWixMojo.java:786-791 | the base itself, with or without its trailing separator, is "." |
| RelativePath.OtherDrive | src/main/java/com/github/wix_maven/AbstractWixMojo.java:806-812 | a target on another drive comes back unchanged |
| RelativePath.OtherServer | src/main/java/com/github/wix_maven/AbstractWixMojo.java:795-804 | a target on another UNC server comes back unchanged |
| RelativePath.InsideBase | src/main/java/com/github/wix_maven/AbstractWixMojo.java:821-858 | a target inside the base comes back as its part below the base, without ".." |
| RelativePath.RelativeIsShorterOrPath | src/main/java/com/github/wix_maven/AbstractWixMojo.java:660-668 | getRelative returns the relative path only when it is shorter than the absolute path, else the path as given |
| RelativePath.RelativeInsideBase | src/main/java/com/github/wix_maven/AbstractWixMojo.java:660-668 | a file inside the base, given by a longer absolute path, is written relative to the base |
| RelativePath.RelativeAllOf | src/main/java/com/github/wix_maven/CandleMojo.java:296-298 | the loop calling getRelative on each file computes RelativeAll |
| RelativePath.RelativeAllAt | src/main/java/com/github/wix_maven/CandleMojo.java:296-298 | each file keeps its place in the result, and the whole fails exactly when one file does |
| CompilerDefines.DefineKey | src/main/java/com/github/wix_maven/AbstractCompilerMojo.java:72-73 | a definition's key is the text before its first '=', whenever the key itself has none |
| CompilerDefines.StripBaseInside | src/main/java/com/github/wix_maven/AbstractCompilerMojo.java:240-246 | a path inside the base loses exactly the base and its separator |
| CompilerDefines.OfTypeMembers | src/main/java/com/github/wix_maven/AbstractCompilerMojo.java:38-55 | the type filter keeps exactly the artifacts of the listed types |
| CompilerDefines.WixDefinitionsShape | src/main/java/com/github/wix_maven/AbstractCompilerMojo.java:57-95 | one definition per wix dependency, in order: an unclassified one relative to the unpack folder (and it alone is a resource), a classified one relative to the repository |
| CompilerDefines.WixKeyEnding | src/main/java/com/github/wix_maven/AbstractCompilerMojo.java:67-92 | an unpacked dependency's key ends in .UnpackPath, a classified one's in .TargetPath-<classifier> |
| CompilerDefines.JarKeysDistinct | src/main/java/com/github/wix_maven/AbstractCompilerMojo.java:144-150 | two JARs of one groupId and artifactId get different keys unless their classifiers agree |
| CompilerDefines.FlatMapPairs | src/main/java/com/github/wix_maven/AbstractCompilerMojo.java:186-196 | two definitions per NAR, TargetDir then TargetNAR, at positions 2i and 2i+1 |
| CompilerDefines.NarDefinitionsShape | src/main/java/com/github/wix_maven/AbstractCompilerMojo.java:155-198 | the five narDir definitions come first and only when there is a NAR, then TargetDir and TargetNAR per NAR |
| CompilerDefines.NpandayKeys | src/main/java/com/github/wix_maven/AbstractCompilerMojo.java:213-236 | a config assembly's key ignores its classifier and ends in TargetNPANDAYConfig; any other ends in TargetNPANDAY |
| CompilerDefines.SubdirectoriesMembers | src/main/java/com/github/wix_maven/AbstractCompilerMojo.java:104-109 | the listed entries of a folder that are folders themselves |
| CompilerDefines.HarvestDefinitionsMembers | src/main/java/com/github/wix_maven/AbstractCompilerMojo.java:97-120 | no harvest folder gives nothing; otherwise exactly the subfolders of a "dir" folder get a definition |
| CompilerDefines.HarvestFolderMembers | src/main/java/com/github/wix_maven/AbstractCompilerMojo.java:109-118 | a folder named "dir" defines each of its subfolders; any other folder defines nothing |
| CompilerDefines.CompilerMojo.constructor | src/main/java/com/github/wix_maven/CandleMojo.java:339-341 | no definitions and no resources yet |
| CompilerDefines.CompilerMojo.AddDefinition | src/main/java/com/github/wix_maven/CandleMojo.java:339-341 | appends the definition and leaves the resources alone |
| CompilerDefines.CompilerMojo.AddWixDefines | src/main/java/com/github/wix_maven/AbstractCompilerMojo.java:57-95 | appends one definition per wix dependency and the unclassified ones' resources, as WixDefinitionsShape describes |
| CompilerDefines.CompilerMojo.AddHarvestDefine | src/main/java/com/github/wix_maven/AbstractCompilerMojo.java:122-125 | appends <prefix>-<name>=<path> |
| CompilerDefines.CompilerMojo.AddHarvestDefines | src/main/java/com/github/wix_maven/AbstractCompilerMojo.java:97-120 | appends the harvest definitions, or reports the failure when the harvest folder exists but cannot be listed |
| CompilerDefines.CompilerMojo.AddHarvestFolders | src/main/java/com/github/wix_maven/AbstractCompilerMojo.java:109-119 | the outer loop appends each subfolder's definitions in order |
| CompilerDefines.CompilerMojo.AddHarvestFolderDefines | src/main/java/com/github/wix_maven/AbstractCompilerMojo.java:110-118 | a "dir" folder appends one definition per subfolder |
| CompilerDefines.CompilerMojo.AddJARDefines | src/main/java/com/github/wix_maven/AbstractCompilerMojo.java:127-153 | appends one TargetJAR definition per JAR dependency, in order |
| CompilerDefines.CompilerMojo.AddJARDefine | src/main/java/com/github/wix_maven/AbstractCompilerMojo.java:144-150 | appends the JAR's definition, with its classifier in the key when it has one |
| CompilerDefines.CompilerMojo.AddNARDefines | src/main/java/com/github/wix_maven/AbstractCompilerMojo.java:155-198 | appends the narDirs and two definitions per NAR, nothing without NARs |
| CompilerDefines.CompilerMojo.AddNarPairs | src/main/java/com/github/wix_maven/AbstractCompilerMojo.java:186-196 | the loop appends TargetDir and TargetNAR per NAR |
| CompilerDefines.CompilerMojo.AddNARDefine | src/main/java/com/github/wix_maven/AbstractCompilerMojo.java:189-192 | appends the NAR's two definitions |
| CompilerDefines.CompilerMojo.AddNarDirs | src/main/java/com/github/wix_maven/AbstractCompilerMojo.java:180-185 | appends the five narDir definitions |
| CompilerDefines.CompilerMojo.AddNPANDAYDefines | src/main/java/com/github/wix_maven/AbstractCompilerMojo.java:200-238 | appends one definition per NPANDAY dependency, in order |
| CompilerDefines.CompilerMojo.AddNPANDAYDefine | src/main/java/com/github/wix_maven/AbstractCompilerMojo.java:216-235 | appends the assembly's definition, config or not |
| Candle.NarArchDefinesShape | src/main/java/com/github/wix_maven/CandleMojo.java:327-337 | IsWin64=no exactly for x86 and IsWin64=yes for every other platform, with the x86 or amd64 narDir definitions to match |
| Candle.CandleJarKeysIgnoreClassifier | src/main/java/com/github/wix_maven/CandleMojo.java:396-412 | two JARs with the same group, artifact and file get the same definition whatever their classifiers, so a classified JAR cannot be told apart |
| Candle.CandleNpandayKeys | src/main/java/com/github/wix_maven/CandleMojo.java:458-481 | a config assembly is defined under g.a.TargetNPANDAYConfig and any other assembly under g.a.TargetNPANDAY |
| Candle.DefineArgsShape | src/main/java/com/github/wix_maven/CandleMojo.java:148-157 | each definition becomes exactly one -d argument, in iteration order |
| Candle.CandleOptionsLayout | src/main/java/com/github/wix_maven/CandleMojo.java:145-191 | the platform definitions come first, then the general ones, then -dConfiguration=Release, -out with the platform's intermediate folder, -arch and -dPlatform naming the platform, the project switches, and one -I per include path last |
| Candle.OtherOptionsPairs | src/main/java/com/github/wix_maven/CandleMojo.java:128-143 | for a non-empty property set the arguments are each key followed by its value, twice as many arguments as keys |
| Candle.CandleSkips | src/main/java/com/github/wix_maven/CandleMojo.java:245-255 | a skipped goal, or one whose wxs folder is missing, does nothing |
| Candle.UpToDateCompilesNothing | src/main/java/com/github/wix_maven/CandleMojo.java:290-294 | when the stale-source scan finds nothing, a platform only creates folders: no compiler run and no timestamp touch |
| Candle.ArchPlanShape | src/main/java/com/github/wix_maven/CandleMojo.java:262-313 | per platform: the intermediate folder, the timestamp folder when missing, then for stale sources the compile call with this platform's NAR definitions in front (or the failure to relativise a source) followed by the timestamp touch when a timestamp file is configured |
| Candle.TimestampFolderOfFirstPlatform | src/main/java/com/github/wix_maven/CandleMojo.java:273-288 | with a timestamp file but no timestamp folder, the first platform's intermediate folder becomes the timestamp folder and every later platform is scanned in timestamp mode against it |
| Candle.CandleMojo.GetIncludes | src/main/java/com/github/wix_maven/CandleMojo.java:117-122 | the returned pattern set is never empty: the configured patterns if any, otherwise exactly **/*.wxs, and it is kept as the goal's patterns |
| Candle.CandleMojo.AddDefinition | src/main/java/com/github/wix_maven/CandleMojo.java:339-341 | the definition joins the definition set and nothing else changes |
| Candle.CandleMojo.AddWixDefines | src/main/java/com/github/wix_maven/CandleMojo.java:363-393 | the definition set grows by exactly the wix dependencies' definitions |
| Candle.CandleMojo.AddWixDefine | src/main/java/com/github/wix_maven/CandleMojo.java:370-390 | the definition set grows by the one definition of this wix dependency |
| Candle.CandleMojo.AddNARDefines | src/main/java/com/github/wix_maven/CandleMojo.java:414-456 | the definition set grows by the NAR definitions, none when there is no NAR |
| Candle.CandleMojo.AddJARDefines | src/main/java/com/github/wix_maven/CandleMojo.java:396-412 | the definition set grows by one TargetJAR definition per JAR dependency |
| Candle.CandleMojo.AddNPANDAYDefines | src/main/java/com/github/wix_maven/CandleMojo.java:458-481 | the definition set grows by one TargetNPANDAY or TargetNPANDAYConfig definition per assembly |
| Candle.CandleMojo.ResetArchDefines | src/main/java/com/github/wix_maven/CandleMojo.java:266-267 | the platform definition set becomes exactly the NAR definitions of this platform, whatever it held before |
| Candle.CandleMojo.AddOptions | src/main/java/com/github/wix_maven/CandleMojo.java:145-191 | the command line gains exactly the option layout stated by CandleOptionsLayout |
| Candle.CandleMojo.AddIncludeArgs | src/main/java/com/github/wix_maven/CandleMojo.java:186-190 | the command line gains one -I argument per include path and nothing when none are configured |
| Candle.CandleMojo.AddDefineArgs | src/main/java/com/github/wix_maven/CandleMojo.java:148-157 | the command line gains one -d argument per definition |
| Candle.CandleMojo.AddOtherOptions | src/main/java/com/github/wix_maven/CandleMojo.java:128-143 | the command line gains the candleProperties pass-through arguments, nothing when there are none |
| Candle.CandleMojo.PropertyArguments | src/main/java/com/github/wix_maven/CandleMojo.java:130-139 | each enumerated key followed by its value when it has one |
| Candle.CandleMojo.Compile | src/main/java/com/github/wix_maven/CandleMojo.java:193-243 | the compile step runs bin/candle.exe from the relative base with the toolset options, the extensions, the options for this platform and the relative source files last |
| Candle.CandleMojo.CompileStale | src/main/java/com/github/wix_maven/CandleMojo.java:290-313 | the scan-and-compile steps of one platform equal the specification of a platform's source steps |
| Candle.CandleMojo.ArchStep | src/main/java/com/github/wix_maven/CandleMojo.java:262-320 | one pass of the platform loop yields the specified steps and timestamp state, and leaves the platform definitions as this platform's NAR definitions |
| Candle.CandleMojo.Execute | src/main/java/com/github/wix_maven/CandleMojo.java:245-325 | the whole goal yields exactly the specified candle plan for the configured platforms and initial definitions |
| Candle.CandleMojo.AddDependencyDefines | src/main/java/com/github/wix_maven/CandleMojo.java:257-260 | the definition set grows by the wix, NAR, JAR and NPANDAY definitions, and nothing else changes |
| Linker.NotAfterTotal | src/main/java/com/github/wix_maven/AbstractLinker.java:42-48 | the path order asSortedList sorts by is total: of any two paths one comes no later than the other |
| Linker.NotAfterTransitive | src/main/java/com/github/wix_maven/AbstractLinker.java:42-48 | the path order asSortedList sorts by is transitive |
| Linker.InsertSortedKeeps | src/main/java/com/github/wix_maven/AbstractLinker.java:42-48 | inserting one path into a sorted list keeps it sorted and adds exactly that path |
| Linker.SortedListIsSortedPermutation | src/main/java/com/github/wix_maven/AbstractLinker.java:42-48 | asSortedList returns the collection's paths sorted, each as often as given |
| Linker.PatternsDefaulted | src/main/java/com/github/wix_maven/AbstractLinker.java:114-131 | the default patterns apply exactly when none are configured, the result is never empty when defaults exist, and a second call changes nothing |
| Linker.LinkerSettings.GetIncludes | src/main/java/com/github/wix_maven/AbstractLinker.java:114-120 | returns the configured object patterns, or exactly **/*.wixlib and **/*.wixobj when none are configured, and keeps them as the goal's patterns |
| Linker.LinkerSettings.GetLocaleIncludes | src/main/java/com/github/wix_maven/AbstractLinker.java:126-131 | returns the configured locale patterns, or exactly **/*.wxl when none are configured, and keeps them |
| Linker.LinkerSettings.AddFileSourceRoot | src/main/java/com/github/wix_maven/LitMojo.java:77 | the locale folder joins the bind folders and stays there; nothing else changes |
| Linker.LinkerSettings.AddIfExists | src/main/java/com/github/wix_maven/AbstractLinker.java:139-149 | the folder joins the bind folders exactly when it exists |
| Linker.LinkerSettings.AddOptions | src/main/java/com/github/wix_maven/AbstractLinker.java:137-156 | the bind folders gain the existing project folders and the local repository, and the command line gains one -b pair per folder of the enlarged set in its iteration order |
| Linker.IfExists | src/main/java/com/github/wix_maven/AbstractLinker.java:139-149 | a folder contributes itself when it exists and nothing otherwise |
| Linker.AddedRootsMembers | src/main/java/com/github/wix_maven/AbstractLinker.java:139-151 | a folder is added exactly when it is the local repository or an existing wxs, resource, NAR unpack or unpack folder, and the local repository always comes last |
| Linker.BindArgsShape | src/main/java/com/github/wix_maven/AbstractLinker.java:153-156 | two arguments per folder: -b, then the folder with a trailing backslash, in order |
| Linker.InsertAllKeeps | src/main/java/com/github/wix_maven/AbstractLinker.java:137-151 | adding folders to an insertion-ordered set keeps it duplicate free, holds exactly both groups and leaves the earlier folders in front |
| Linker.OrderedRoots.Add | src/main/java/com/github/wix_maven/AbstractLinker.java:140 | LinkedHashSet.add appends a folder that is not already present and otherwise changes nothing |
| Linker.AddOptionsOrdered | src/main/java/com/github/wix_maven/AbstractLinker.java:137-156 | over an insertion-ordered set, the folders are added in the source's order and every folder of the result is bound in that order |
| Linker.AddIfExists | src/main/java/com/github/wix_maven/AbstractLinker.java:139-149 | the insertion-ordered set gains the folder exactly when it exists |
| Linker.AddedRootsSteps | src/main/java/com/github/wix_maven/AbstractLinker.java:139-151 | the five conditional adds, one after the other, amount to adding all added folders at once |
| Linker.InsertAllConcat | src/main/java/com/github/wix_maven/AbstractLinker.java:139-151 | adding two groups of folders one after the other is adding their concatenation |
| Linker.EmitBindArgs | src/main/java/com/github/wix_maven/AbstractLinker.java:153-156 | the command line gains exactly the -b pairs of the folders, in order |
| Linker.OrderedBindList | src/main/java/com/github/wix_maven/AbstractLinker.java:137-156 | the bind list is duplicate free, holds exactly the collected and the added folders, and the collected folders keep their places in front |
| Linker.PassedKey | src/main/java/com/github/wix_maven/AbstractLinker.java:177-178 | a key starting x-- loses its first two characters, any other key is passed unchanged |
| Linker.OtherOptionsAsWrittenDropsValue | src/main/java/com/github/wix_maven/AbstractLinker.java:175-183 | as written, the value of an x-- key is looked up under the shortened key, so {x--ext: v} passes -ext and loses v |
| Linker.OtherOptionsPairs | src/main/java/com/github/wix_maven/AbstractLinker.java:171-187 | for well-formed properties every key is passed rewritten and followed by its own value, alternating key and value |
| Linker.PairsOf | src/main/java/com/github/wix_maven/AbstractLinker.java:175-184 | when every key has a value the pass-through list has two entries per key: the rewritten key, then the value |
| Linker.PassThroughArguments | src/main/java/com/github/wix_maven/AbstractLinker.java:173-184 | the loop collects each rewritten key followed by the value of the original key when present |
| Linker.AddOtherOptions | src/main/java/com/github/wix_maven/AbstractLinker.java:171-187 | the command line gains the pass-through arguments, nothing for absent or empty properties |
| Linker.LinkOutcome | src/main/java/com/github/wix_maven/AbstractLinker.java:190-231 | a link succeeds exactly when the linker starts and exits with 0; a non-zero exit fails with that return code and no command line, and every stderr line is reported as an error |
| Linker.ExecutePlanShape | src/main/java/com/github/wix_maven/AbstractLinker.java:233-252 | a skipped goal does nothing; otherwise the output folder is made when configured and then the whole multilink plan follows unchanged |
| Linker.AddLocales | src/main/java/com/github/wix_maven/LitMojo.java:99-102 | the command line gains -loc and the locale file for each locale in turn |
| Lit.ArchPlanKeeps | src/main/java/com/github/wix_maven/LitMojo.java:71-97 | per platform the bind folders only grow, and only by the locale folder and the folders addOptions adds; an existing locale folder is always among them afterwards; no made folder is forgotten |
| Lit.ArchPlanSteps | src/main/java/com/github/wix_maven/LitMojo.java:60-114 | a platform does nothing, throws, or makes at most the output's parent folder and then runs bin/lit.exe |
| Lit.LitArgsLayout | src/main/java/com/github/wix_maven/LitMojo.java:86-106 | the lit command line is the general options, -bf when binding files, -out and the output, the bind pairs, then the other switches, and the object files last |
| Lit.LitArgsHas | src/main/java/com/github/wix_maven/LitMojo.java:95-106 | every bind folder appears as a -b pair and every object file appears on the command line |
| Lit.ArchPlanCall | src/main/java/com/github/wix_maven/LitMojo.java:80-111 | a platform ends in a lit run exactly when it has objects and they and its locale files were made relative, and then with the platform's command line |
| Lit.ArchPlanLinks | src/main/java/com/github/wix_maven/LitMojo.java:60-114 | lit runs exactly when the platform links; it is then given every object file and binds every folder the linker already held, including those an earlier platform added |
| Lit.FoldKeepsFolders | src/main/java/com/github/wix_maven/LitMojo.java:60-120 | over the platform loop the bind folders and made folders only grow, and once a platform has run an existing locale folder is bound for good |
| Lit.StartLit | src/main/java/com/github/wix_maven/LitMojo.java:86-95 | a fresh command line runs bin/lit.exe from the relative base with the general options, -bf when asked, and -out with the output |
| Lit.LitCommand | src/main/java/com/github/wix_maven/LitMojo.java:86-98 | the command line up to the extensions, with addOptions' folders added to the linker's bind folders for good |
| Lit.LitFinish | src/main/java/com/github/wix_maven/LitMojo.java:99-106 | the command line gains the -loc pairs, the pass-through properties and the object files, in that order |
| Lit.LinkArch | src/main/java/com/github/wix_maven/LitMojo.java:61-118 | one platform of multilink yields exactly the specified steps and leaves the bind and made folders as specified |
| Lit.LitMultilink | src/main/java/com/github/wix_maven/LitMojo.java:54-121 | multilink throws when lit.exe is missing and otherwise yields the specified plan of every platform in turn |
| Lit.LitExecute | src/main/java/com/github/wix_maven/AbstractLinker.java:233-252 | lit's execute yields exactly the specified lit plan: nothing when skipped, else the output folder and multilink |
| Light.SwitchesGated | src/main/java/com/github/wix_maven/LightMojo.java:63-93 | -cultures: appears exactly when there is a culture, -sval exactly when validate is suppress or unit ignoring case, the cabinet cache switches exactly when reusing cabinets with the cache folder for the platform, and the output extension is wixmsp exactly for msp packaging |
| Light.BinderRootsOrder | src/main/java/com/github/wix_maven/LightMojo.java:220-230 | the base folder is always bound and the primary culture's folder only when it exists, and a new culture folder lands right before its new base folder so culture-specific files are preferred |
| Light.AddBinderOption | src/main/java/com/github/wix_maven/LightMojo.java:220-230 | the insertion-ordered set gains the existing culture folder and then the base folder, as BinderRoots specifies |
| Light.AddResource | src/main/java/com/github/wix_maven/LightMojo.java:239-248 | the set gains the library's unpacked wix-locale folders when that folder exists, and is unchanged otherwise |
| Light.VariantPlanShape | src/main/java/com/github/wix_maven/LightMojo.java:116-207 | a build does nothing, throws, or makes at most two folders and then runs bin/light.exe, and it never forgets a folder made before it |
| Light.VariantPlanCall | src/main/java/com/github/wix_maven/LightMojo.java:171-201 | a build ends in a light run exactly when it links, and then with this build's command line |
| Light.LinkArgsHasFiles | src/main/java/com/github/wix_maven/LightMojo.java:197 | every object and library file to link reaches the command line |
| Light.VariantPlanLinks | src/main/java/com/github/wix_maven/LightMojo.java:116-207 | light runs exactly when the objects, libraries and locale files were made relative and something is left to link, and then it is given every one of those files |
| Light.NothingToLink | src/main/java/com/github/wix_maven/LightMojo.java:171 | a build with no objects and no related libraries runs nothing and makes nothing |
| Light.LinkArgsLayout | src/main/java/com/github/wix_maven/LightMojo.java:172-197 | the light command line is the general options, -bf when binding files, -out and the output, the bind pairs, then the other switches, and the files last |
| Light.LibraryFilesStopsAt | src/main/java/com/github/wix_maven/LightMojo.java:156-169 | once a dependency's related artifacts cannot be found, the dependencies after it are not looked at |
| Light.CollectLibrary | src/main/java/com/github/wix_maven/LightMojo.java:159-168 | the files of one wixlib dependency are its related variants' files made relative |
| Light.CollectLibraries | src/main/java/com/github/wix_maven/LightMojo.java:156-169 | each wixlib adds its resource folders to the bind folders and its related variants to the files to link, and a failure is the first dependency's failure |
| Light.PrepareRoots | src/main/java/com/github/wix_maven/LightMojo.java:133-148 | the bind folders start from the configured ones plus the locale and unpack folders, and the locale files are the sorted scan result |
| Light.StartCommand | src/main/java/com/github/wix_maven/LightMojo.java:172-181 | a fresh command line runs bin/light.exe from the relative base with the general options, -bf when asked, and -out with the output |
| Light.AddLocaleSwitches | src/main/java/com/github/wix_maven/LightMojo.java:184-191 | the command line gains -sval when asked, -cultures: for the culture, and the -loc pairs of the locale files |
| Light.AddOptionSwitches | src/main/java/com/github/wix_maven/LightMojo.java:184-194 | the command line gains the validation, culture, locale, extension and pass-through switches in that order |
| Light.AddReuseCabOptions | src/main/java/com/github/wix_maven/LightMojo.java:69-77 | when reusing cabinets the command line gains -reusecab -cc with the platform's cache folder and that folder is made when missing; otherwise nothing happens |
| Light.Command | src/main/java/com/github/wix_maven/LightMojo.java:172-194 | the command line up to the cabinet switches, with addOptions' folders joining the ordered bind set |
| Light.Link | src/main/java/com/github/wix_maven/LightMojo.java:172-201 | a build with files runs light with LinkArgs after making the cabinet cache and the output's parent folder when missing |
| Light.LinkVariant | src/main/java/com/github/wix_maven/LightMojo.java:116-207 | one platform and culture build yields exactly the specified steps and made folders |
| Light.UnpackResource | src/main/java/com/github/wix_maven/LightMojo.java:250-264 | unpacking a library makes its unpack folder when missing and extracts its wix-locale and cabs entries there |
| Light.UnpackResources | src/main/java/com/github/wix_maven/LightMojo.java:107-113 | every wix dependency without a classifier is unpacked, in iteration order |
| Light.LinkCultures | src/main/java/com/github/wix_maven/LightMojo.java:116-209 | the culture loop of one platform yields the builds of every culture in turn |
| Light.Multilink | src/main/java/com/github/wix_maven/LightMojo.java:97-211 | multilink throws when light.exe is missing; otherwise resources are unpacked, then every platform is linked culture by culture |
| Light.Execute | src/main/java/com/github/wix_maven/AbstractLinker.java:233-252 | light's execute yields exactly the specified light plan: nothing when skipped, else the output folder and multilink |
| Torch.TorchOptions | src/main/java/com/github/wix_maven/AbstractTorchMojo.java:44-47 | -p appears exactly when unmodified content is preserved |
| Torch.TorchArgsLayout | src/main/java/com/github/wix_maven/AbstractTorchMojo.java:62-77 | the torch command line is the general options, -p when asked, the validation switches, the extensions, and ends with the base input, the input, -out and the output |
| Torch.TorchCommand | src/main/java/com/github/wix_maven/AbstractTorchMojo.java:62-75 | a fresh command line runs the given torch with the arguments TorchArgs specifies and no working directory |
| Torch.TorchOutcome | src/main/java/com/github/wix_maven/AbstractTorchMojo.java:84-124 | a torch run succeeds exactly when torch starts and exits with 0; a non-zero exit fails with that return code and no command line, and every stderr line is reported as an error |
| Torch.ValidateTool | src/main/java/com/github/wix_maven/AbstractTorchMojo.java:126-131 | succeeds with bin/torch.exe exactly when it exists, and otherwise fails naming that missing file |
| Transform.TransformGates | src/main/java/com/github/wix_maven/TransformMojo.java:57-71 | a skipped goal runs nothing, a missing torch fails even when no transform would be made, and without two locales and a transform or repack merge level no tool runs |
| Transform.TransformCallFiles | src/main/java/com/github/wix_maven/TransformMojo.java:47-55 | each torch run validates with -t language and diffs the platform's base-culture package against the culture's package into the culture's mst |
| Transform.TorchesMembers | src/main/java/com/github/wix_maven/TransformMojo.java:77-87 | the nested loop over two listings runs a torch for exactly the pairs of their entries |
| Transform.TransformOnePerPair | src/main/java/com/github/wix_maven/TransformMojo.java:73-87 | when transforms are made there is exactly one torch run per platform and alternate culture, and nothing else |
| Transform.TransformOne | src/main/java/com/github/wix_maven/TransformMojo.java:82-85 | one pass of the culture loop yields exactly the torch run of that pair |
| Transform.TransformExecute | src/main/java/com/github/wix_maven/TransformMojo.java:57-88 | the goal yields exactly the specified transform plan for the configured platforms |
| Insignia.InsigniaCommand | src/main/java/net/sf/wix/AbstractInsigniaMojo.java:50-57 | a fresh command line runs the given insignia with the general options only and no working directory |
| Insignia.InsigniaOutcome | src/main/java/net/sf/wix/AbstractInsigniaMojo.java:83-123 | an insignia run succeeds exactly when it starts and exits with 0; a non-zero exit fails with that return code under torch's name, and every stderr line is reported as an error |
| Insignia.ValidateInsignia | src/main/java/net/sf/wix/AbstractInsigniaMojo.java:125-130 | succeeds with bin/insignia.exe exactly when it exists, and otherwise fails naming that missing file |
| InsigniaGoals.VariantsCover | src/main/java/com/github/wix_maven/InscribeMojo.java:70-71 | the nested loop meets exactly the configured platforms paired with the culture specs, each pair once |
| InsigniaGoals.InscribeCall | src/main/java/com/github/wix_maven/InscribeMojo.java:78-81 | inscription runs insignia with -im and the variant's package last |
| InsigniaGoals.InscribeGates | src/main/java/com/github/wix_maven/InscribeMojo.java:54-66 | without inscribePackage nothing happens, even before skip; a skipped goal does nothing; a missing insignia fails |
| InsigniaGoals.InscribeRuns | src/main/java/com/github/wix_maven/InscribeMojo.java:70-83 | an inscribing run does exactly one inscription per platform and culture spec and nothing else |
| InsigniaGoals.AttachCall | src/main/java/com/github/wix_maven/AttachBundleEngineMojo.java:67-73 | attach runs insignia -ab with the engine file in the engine folder, the bundle, -out and the same bundle |
| InsigniaGoals.AttachSkipDiffers | src/main/java/com/github/wix_maven/AttachBundleEngineMojo.java:41-57 | the current attach-bundle goal runs whether or not it is skipped while the older one stops when skipped; otherwise they differ only in the bundle's extension, and neither runs without signBundleEngine |
| InsigniaGoals.AttachRunsEach | src/main/java/com/github/wix_maven/AttachBundleEngineMojo.java:59-75 | past the gates attach runs insignia exactly once per platform and culture spec |
| InsigniaGoals.DetachCall | src/main/java/com/github/wix_maven/DetachBundleEngineMojo.java:56-65 | detach runs insignia -ib with the bundle, -out and the engine file in its folder |
| InsigniaGoals.LegacyDetachUsesPackaging | src/main/java/net/sf/wix/DetachBundleEngineMojo.java:21-58 | the older detach-bundle goal differs from the current one only in using the packaging as the bundle's extension |
| InsigniaGoals.DetachPassCalls | src/main/java/com/github/wix_maven/DetachBundleEngineMojo.java:56-65 | whatever folders are made first, one pass runs exactly its own insignia call |
| InsigniaGoals.DetachRunsEach | src/main/java/com/github/wix_maven/DetachBundleEngineMojo.java:49-67 | past the gates detach runs insignia exactly once per platform and culture spec, and every other step makes an engine folder |
| InsigniaGoals.InscribeOne | src/main/java/com/github/wix_maven/InscribeMojo.java:73-81 | one pass of the inscribe loop yields exactly the variant's inscription |
| InsigniaGoals.AttachOne | src/main/java/com/github/wix_maven/AttachBundleEngineMojo.java:62-73 | one pass of the attach loop yields exactly the variant's attach call |
| InsigniaGoals.DetachOne | src/main/java/com/github/wix_maven/DetachBundleEngineMojo.java:52-65 | one pass of the detach loop makes the engine folder when missing and yields the variant's detach call |
| InsigniaGoals.InscribeLoop | src/main/java/com/github/wix_maven/InscribeMojo.java:70-83 | the nested loop yields one inscription per pair, platforms outside and culture specs inside |
| InsigniaGoals.AttachLoop | src/main/java/com/github/wix_maven/AttachBundleEngineMojo.java:59-75 | the nested loop yields one attach call per pair, platforms outside and culture specs inside |
| InsigniaGoals.DetachLoop | src/main/java/com/github/wix_maven/DetachBundleEngineMojo.java:49-67 | the nested loop yields the passes in order, carrying the folders made so far |
| InsigniaGoals.InscribeExecute | src/main/java/com/github/wix_maven/InscribeMojo.java:54-84 | the inscribe goal yields exactly the specified inscribe plan |
| InsigniaGoals.AttachRunAll | src/main/java/com/github/wix_maven/AttachBundleEngineMojo.java:56-75 | past the gates the goal validates insignia and yields the attach runs of every variant |
| InsigniaGoals.AttachExecute | src/main/java/com/github/wix_maven/AttachBundleEngineMojo.java:41-76 | the current attach-bundle goal yields exactly the specified attach plan |
| InsigniaGoals.LegacyAttachExecute | src/main/java/net/sf/wix/AttachBundleEngineMojo.java:21-57 | the older attach-bundle goal yields exactly its specified plan |
| InsigniaGoals.DetachRunAll | src/main/java/com/github/wix_maven/DetachBundleEngineMojo.java:46-67 | past the gates the goal validates insignia and yields the detach runs of every variant |
| InsigniaGoals.DetachExecute | src/main/java/com/github/wix_maven/DetachBundleEngineMojo.java:31-68 | the current detach-bundle goal yields exactly the specified detach plan |
| InsigniaGoals.LegacyDetachExecute | src/main/java/net/sf/wix/DetachBundleEngineMojo.java:21-58 | the older detach-bundle goal yields exactly its specified plan |
| Package.CabCopy | src/main/java/com/github/wix_maven/PackageMojo.java:159-178 | a cabinet name yields at most one step: a copy of the trimmed name from the variant's folder exactly when the name is not blank and names an existing file; blank and missing cabinets are skipped |
| Package.PackageCabsSteps | src/main/java/com/github/wix_maven/PackageMojo.java:154-180 | packageCabs makes at most the classifier's folder, copies only non-blank cabinets that are files, copies every such cabinet, and attaches nothing |
| Package.CultureStepAttachments | src/main/java/com/github/wix_maven/PackageMojo.java:115-148 | an alternate culture's pass attaches exactly that culture's attachments, whatever its cabinets did |
| Package.BasePartAttachments | src/main/java/com/github/wix_maven/PackageMojo.java:81-87 | the base part attaches the base package under the base classifier when the levels ask for it, and nothing else |
| Package.RepackPartAttachments | src/main/java/com/github/wix_maven/PackageMojo.java:100-109 | the repack part attaches the repacked msi under <arch>-multi when the levels ask for it, and nothing else |
| Package.CulturesPartAttachments | src/main/java/com/github/wix_maven/PackageMojo.java:111-150 | the cultures part attaches each alternate culture's attachments in turn, for msi and msp builds whose merge level is not base |
| Package.ArchStepParts | src/main/java/com/github/wix_maven/PackageMojo.java:78-150 | a platform's steps are its base, program database, cached cabinet, repack and culture parts, in that order |
| Package.ArchStepAttachments | src/main/java/com/github/wix_maven/PackageMojo.java:78-150 | one platform attaches exactly its row of the decision table: base package, base program database, repacked package, then each alternate culture's attachments |
| Package.PackageAttachments | src/main/java/com/github/wix_maven/PackageMojo.java:57-152 | the goal attaches nothing when skipped and otherwise each platform's row of the decision table, platform by platform |
| Package.PackageCabsEffects | src/main/java/com/github/wix_maven/PackageMojo.java:154-180 | packageCabs only makes folders inside the cabinet collection and copies existing files into them |
| Package.CultureStepEffects | src/main/java/com/github/wix_maven/PackageMojo.java:115-148 | an alternate culture's pass only makes collection folders, copies existing files and attaches classified artifacts |
| Package.ArchStepEffects | src/main/java/com/github/wix_maven/PackageMojo.java:78-150 | a platform's pass only makes collection folders, copies existing files and attaches classified artifacts |
| Package.PackageSteps | src/main/java/com/github/wix_maven/PackageMojo.java:57-152 | the package goal runs no tool and never fails: it makes the collection or folders inside it, copies files that exist into them, and attaches artifacts, always with a classifier |
| Package.CultureAttachmentDecisions | src/main/java/com/github/wix_maven/PackageMojo.java:115-148 | for an msi or msp build an alternate culture gets its program database exactly when the pack level has wixpdb and the file exists, its transform exactly when the levels capture transforms and the file exists, and its package exactly when the levels ask for culture packages and the file exists |
| Package.PackageCabsRun | src/main/java/com/github/wix_maven/PackageMojo.java:154-180 | the packageCabs loop yields exactly the specified steps and made folders |
| Package.BaseRun | src/main/java/com/github/wix_maven/PackageMojo.java:81-87 | the base branch yields exactly the specified base part |
| Package.RepackRun | src/main/java/com/github/wix_maven/PackageMojo.java:100-109 | the repack branch yields exactly the specified repack part |
| Package.CultureRun | src/main/java/com/github/wix_maven/PackageMojo.java:116-148 | one pass of the culture loop yields exactly the specified culture pass |
| Package.CulturesRun | src/main/java/com/github/wix_maven/PackageMojo.java:111-150 | the culture loop yields exactly the specified cultures part |
| Package.ArchRun | src/main/java/com/github/wix_maven/PackageMojo.java:77-151 | one platform's body yields exactly the specified platform step |
| Package.PlatformLoop | src/main/java/com/github/wix_maven/PackageMojo.java:76-151 | the platform loop yields each platform's steps in turn, each seeing the folders made before it |
| Package.PackageExecute | src/main/java/com/github/wix_maven/PackageMojo.java:57-152 | the goal yields exactly the specified package plan |
| PreparePackage.PlatformsReadBack | src/main/java/com/github/wix_maven/PreparePackageMojo.java:76 | the recorded platform value splits back at commas into the platforms in the order written, and into exactly the build's platforms, when no platform name is empty or holds a comma |
| PreparePackage.CulturesReadBack | src/main/java/com/github/wix_maven/PreparePackageMojo.java:68-74 | the recorded culture value is neutral when the build has the neutral culture, and otherwise splits back at commas into the cultures in the order written |
| PreparePackage.PrepareExecute | src/main/java/com/github/wix_maven/PreparePackageMojo.java:58-88 | the goal yields exactly the specified plan: nothing when skipped, else the properties folder when missing and the stored bag of cultures and platforms, or the write failure |
| UnpackDependencies.DefaultIncludePatterns | src/main/java/com/github/wix_maven/UnpackDependenciesMojo.java:59 | the default include string splits into exactly the locale and cabinet folder patterns |
| UnpackDependencies.UnsetExcludes | src/main/java/com/github/wix_maven/UnpackDependenciesMojo.java:122-125 | unset excludes split into one empty pattern, as String.split does |
| UnpackDependencies.UnpackPatterns.constructor | src/main/java/com/github/wix_maven/UnpackDependenciesMojo.java:59-69 | the goal starts with the default include string and no excludes |
| UnpackDependencies.UnpackPatterns.SetIncludes | src/main/java/com/github/wix_maven/UnpackDependenciesMojo.java:138-148 | setIncludes replaces the include string and a later getIncludes splits the new one at commas |
| UnpackDependencies.UnpackPatterns.SetExcludes | src/main/java/com/github/wix_maven/UnpackDependenciesMojo.java:122-133 | setExcludes replaces the exclude string and a later getExcludes splits the new one at commas |
| UnpackDependencies.UnpackPassExtracts | src/main/java/com/github/wix_maven/UnpackDependenciesMojo.java:92-97 | one pass extracts a dependency exactly when it has no classifier, into its unpack folder with the goal's patterns |
| UnpackDependencies.UnpackExtractions | src/main/java/com/github/wix_maven/UnpackDependenciesMojo.java:83-99 | the goal extracts nothing when skipped and otherwise one extraction per unclassified wix dependency, in order |
| UnpackDependencies.UnpacksUnclassified | src/main/java/com/github/wix_maven/UnpackDependenciesMojo.java:83-117 | a direct wix dependency without a classifier is extracted into its unpack folder exactly when the goal is not skipped |
| UnpackDependencies.UnpackExecute | src/main/java/com/github/wix_maven/UnpackDependenciesMojo.java:83-117 | the goal yields exactly the specified unpack plan with the patterns read from its fields |
| Harvest.SuppressArgs | src/main/java/com/github/wix_maven/HarvestMojo.java:252-254 | one -s<element> argument per suppressed element, in the set's order |
| Harvest.GuidArgs | src/main/java/com/github/wix_maven/HarvestMojo.java:231-240 | -gg when component guids are generated and -ag otherwise, then -g1 exactly when brackets are asked for and -ke last exactly when empty folders are kept |
| Harvest.NamingArgs | src/main/java/com/github/wix_maven/HarvestMojo.java:244-250 | -template and -generate with their values always, then -dr and -directoryid each exactly when configured and not empty |
| Harvest.UnsetSuppressFails | src/main/java/com/github/wix_maven/HarvestMojo.java:252 | as written, an unconfigured suppress set makes addToolsetOptions throw a NullPointerException; the corrected options treat it as empty |
| Harvest.ToolsetArgsLayout | src/main/java/com/github/wix_maven/HarvestMojo.java:230-258 | the toolset switches are the guid switches, the naming switches, one -s per suppressed element, and -wixvar last exactly when binder variables are asked for |
| Harvest.HarvestIdOfChild | src/main/java/com/github/wix_maven/HarvestMojo.java:291-293 | the harvest id of a child names the harvest type and the child's own name, joined by a dash |
| Harvest.ComponentGroup | src/main/java/com/github/wix_maven/HarvestMojo.java:281 | the component group is the configured name when not empty, else the harvest id |
| Harvest.SourceVariable | src/main/java/com/github/wix_maven/HarvestMojo.java:282 | the source variable is the configured one when not empty, else var.<harvest id> |
| Harvest.HeatArgsLayout | src/main/java/com/github/wix_maven/HarvestMojo.java:260-289 | heat gets the harvest type and path first, then the general and toolset options, and ends with -cg, -var and -out with the component group, source variable and generated <id>.wxs |
| Harvest.HeatOutcome | src/main/java/com/github/wix_maven/HarvestMojo.java:296-333 | a heat run succeeds exactly when heat starts and exits with 0; a non-zero exit or a failed start fails showing the command line, stdout lines are rated error before warning, and stderr lines are errors |
| Harvest.ExtensionCopiesTargets | src/main/java/com/github/wix_maven/HarvestMojo.java:358-373 | a dll counts as copied exactly when some extension dependency with an IIS, Util or VS classifier is copied there |
| Harvest.ExtensionCopiesOnlyCopy | src/main/java/com/github/wix_maven/HarvestMojo.java:358-373 | the copy loop only copies files |
| Harvest.ExtensionCheck | src/main/java/com/github/wix_maven/HarvestMojo.java:374-382 | the checks pass exactly when all three extension dlls are present, and otherwise fail naming the first missing one |
| Harvest.HarvestGates | src/main/java/com/github/wix_maven/HarvestMojo.java:335-351 | nothing happens when skipped or when the input folder is missing, and a missing heat.exe then fails before anything else |
| Harvest.HarvestPrefixRunsNothing | src/main/java/com/github/wix_maven/HarvestMojo.java:354-386 | the copies and the generated folder's mkdir run no tool |
| Harvest.HarvestWithExtensions | src/main/java/com/github/wix_maven/HarvestMojo.java:354-410 | with every extension dll present, the goal makes its copies, perhaps the generated folder, then harvests, and its tool runs are exactly the harvest runs |
| Harvest.HarvestWithoutExtension | src/main/java/com/github/wix_maven/HarvestMojo.java:374-382 | with an extension dll missing, the goal makes its copies and fails on the first missing dll without running heat |
| Harvest.HarvestRunsTyped | src/main/java/com/github/wix_maven/HarvestMojo.java:388-389 | with a harvest type, heat runs exactly once, over the input folder itself |
| Harvest.HarvestRunsWalk | src/main/java/com/github/wix_maven/HarvestMojo.java:390-410 | without a harvest type, heat runs with type dir exactly once per subfolder of a folder named dir of the input, and for nothing else |
| Harvest.FolderHeatsMembers | src/main/java/com/github/wix_maven/HarvestMojo.java:400-408 | a folder named dir harvests each of its subfolders and any other folder harvests nothing |
| Harvest.AddGuidOptions | src/main/java/com/github/wix_maven/HarvestMojo.java:231-240 | the command line gains exactly the guid switches |
| Harvest.AddNamingOptions | src/main/java/com/github/wix_maven/HarvestMojo.java:244-250 | the command line gains exactly the naming switches |
| Harvest.AddSuppressions | src/main/java/com/github/wix_maven/HarvestMojo.java:252-254 | the command line gains one -s argument per suppressed element |
| Harvest.AddToolsetOptions | src/main/java/com/github/wix_maven/HarvestMojo.java:230-258 | the command line gains exactly the toolset switches |
| Harvest.HeatCommand | src/main/java/com/github/wix_maven/HarvestMojo.java:260-287 | a fresh command line runs heat.exe from the relative base with the heat arguments |
| Harvest.CopyExtensions | src/main/java/com/github/wix_maven/HarvestMojo.java:358-373 | the copy loop yields exactly the specified copies and copied files |
| Harvest.HeatDirs | src/main/java/com/github/wix_maven/HarvestMojo.java:401-403 | the inner loop runs one heat of type dir per subfolder, in order |
| Harvest.HeatFolders | src/main/java/com/github/wix_maven/HarvestMojo.java:399-409 | the outer loop yields each folder's harvests in turn |
| Harvest.HarvestExecute | src/main/java/com/github/wix_maven/HarvestMojo.java:335-411 | the goal yields exactly the specified harvest plan |
| Smoke.SmokeFilesOrder | src/main/java/com/github/wix_maven/SmokeMojo.java:75-88 | the files list holds one package per platform and checked culture in platform-major order: platform i and culture j sit at i times the number of cultures plus j |
| Smoke.SmokeFilesMembers | src/main/java/com/github/wix_maven/SmokeMojo.java:77-88 | over the goal's platforms a file is checked exactly when it is the package of some platform and some culture spec (every one when validating all cultures, else the base one), one per platform and checked culture |
| Smoke.SmokeCall | src/main/java/com/github/wix_maven/SmokeMojo.java:92-98 | smoke runs from the relative base with the general options, the extensions, and every package file last |
| Smoke.LogSetup | src/main/java/com/github/wix_maven/SmokeMojo.java:111-114 | the validation log is created, with its folder, exactly when it does not exist yet |
| Smoke.SmokeGates | src/main/java/com/github/wix_maven/SmokeMojo.java:175-192 | skip or skipTests does nothing; a packaging other than msi or msp fails the build before validate is looked at; validate suppress or link does nothing |
| Smoke.SmokeNeedsTool | src/main/java/com/github/wix_maven/SmokeMojo.java:194-199 | a missing smoke.exe fails the goal after the report folder is made, whatever testFailureIgnore says |
| Smoke.SmokeFailureIgnore | src/main/java/com/github/wix_maven/SmokeMojo.java:201-213 | with testFailureIgnore a goal that reaches multiSmoke always completes and records its smoke run; without it a failure inside multiSmoke fails the build |
| Smoke.SmokeCallOutcome | src/main/java/com/github/wix_maven/SmokeMojo.java:103-173 | a smoke run succeeds exactly when smoke starts and exits with 0, and a non-zero exit fails with the return code alone |
| Smoke.RateSmokeLine | src/main/java/com/github/wix_maven/SmokeMojo.java:122-135 | a stdout line is an error exactly when it holds the error marker, a warning exactly when it holds no error marker but the warning or usage marker, and never debug |
| Smoke.ValidationLog.constructor | src/main/java/com/github/wix_maven/SmokeMojo.java:115-116 | the validation log and the build log start empty |
| Smoke.ValidationLog.ConsumeStdout | src/main/java/com/github/wix_maven/SmokeMojo.java:121-143 | a stdout line is written to the validation log and logged at its rating only when verbose |
| Smoke.ValidationLog.ConsumeStderr | src/main/java/com/github/wix_maven/SmokeMojo.java:147-157 | a stderr line is written to the validation log and always logged as an error |
| Smoke.ValidationLog.Record | src/main/java/com/github/wix_maven/SmokeMojo.java:119-159 | consuming the lines in arrival order writes each and logs each as its consumer does |
| Smoke.WrittenIsEveryLine | src/main/java/com/github/wix_maven/SmokeMojo.java:136-156 | the validation log holds every line of both streams, once each, in arrival order |
| Smoke.LoggedLines | src/main/java/com/github/wix_maven/SmokeMojo.java:121-157 | when verbose every line reaches the build log in arrival order, stdout at its rating and stderr as errors; otherwise exactly the stderr lines do, as errors |
| Smoke.SmokeFileList | src/main/java/com/github/wix_maven/SmokeMojo.java:75-88 | the platform loop builds exactly the specified files list |
| Smoke.SmokeCommand | src/main/java/com/github/wix_maven/SmokeMojo.java:92-98 | a fresh command line whose snapshot is the specified smoke call |
| Smoke.SmokeExecute | src/main/java/com/github/wix_maven/SmokeMojo.java:175-214 | the goal yields exactly the specified plan, consulting the platforms only once multiSmoke is reached |
| Patch.PatchValidation | src/main/java/com/github/wix_maven/PatchMojo.java:109-116 | patch validation is "-t patch" followed by -xi exactly when the patched item is a wixpdb and -xo exactly when it is not |
| Patch.RelatedArtifact | src/main/java/com/github/wix_maven/PatchMojo.java:443-466 | a variant resolves exactly when the lookup of the item under the platform-culture classifier does, to the single artifact found, which keeps the item's coordinates and carries that classifier; a failed lookup fails with its own failure |
| Patch.RelatedArtifactFile | src/main/java/com/github/wix_maven/PatchMojo.java:468-483 | a wixpdb variant is used as its own file and any other type fails as an incomplete goal |
| Patch.IntermediateLayout | src/main/java/com/github/wix_maven/PatchMojo.java:412-413 | the transform torch writes lies in the intermediate folder, under the platform and then the primary culture when there is one, named after the final name with the wixmst extension |
| Patch.PatchReuseCabArgs | src/main/java/com/github/wix_maven/PatchMojo.java:118-128 | the cabinet switches appear exactly when cabinets are reused, naming the platform's cache folder with a trailing backslash |
| Patch.JarDependencies | src/main/java/com/github/wix_maven/PatchMojo.java:156-184 | the jar dependencies resolve exactly when the artifact's dependencies do, fail with their failure otherwise, and are exactly the jar-typed ones among them |
| Patch.JarRootArgsPairs | src/main/java/com/github/wix_maven/PatchMojo.java:186-209 | the jar roots come in pairs, each the bind option followed by a folder |
| Patch.JarRootArgsFolders | src/main/java/com/github/wix_maven/PatchMojo.java:186-209 | every folder bound is the parent folder, with a trailing backslash, of one of the jars that has a parent folder |
| Patch.JarRootArgsBindsAll | src/main/java/com/github/wix_maven/PatchMojo.java:186-209 | the parent folder of every jar that has one is bound |
| Patch.NarBindArgs | src/main/java/com/github/wix_maven/PatchMojo.java:233-236 | the nar unpack folder is bound for both inputs exactly when it exists |
| Patch.PyroArgsLayout | src/main/java/com/github/wix_maven/PatchMojo.java:220-248 | the pyro command line is, in order, the general options, the cabinet switches, the patch properties, the bind folders, the extensions, then the patch file, "-t", the baseline, the transform, "-out" and the output |
| Patch.PyroOutcome | src/main/java/com/github/wix_maven/PatchMojo.java:291-331 | a pyro run completes exactly when pyro starts and exits with 0; a non-zero exit fails with the return code, a launch failure as such; stderr lines are errors and a stdout line is an error exactly when it holds " : error " |
| Patch.VariantInputsFound | src/main/java/com/github/wix_maven/PatchMojo.java:403-409 | the inputs of a variant are found exactly when both variants resolve and the items are wixpdb, and are then the single artifacts found and their files; resolved inputs of another type fail as an incomplete goal |
| Patch.PatchGates | src/main/java/com/github/wix_maven/PatchMojo.java:378-387 | skipping does nothing; a missing torch fails the goal first, then a missing pyro, each before anything runs |
| Patch.MismatchStopsFirst | src/main/java/com/github/wix_maven/PatchMojo.java:398-400 | inputs of different types run no tool at all, and a goal that reaches the loop fails with the type-mismatch message before doing anything |
| Patch.PassShape | src/main/java/com/github/wix_maven/PatchMojo.java:412-419 | a pass whose inputs and jar dependencies resolve runs torch, makes the missing cabinet cache when cabinets are reused, and runs pyro, in that order |
| Patch.PassTorchWrites | src/main/java/com/github/wix_maven/PatchMojo.java:412-414 | torch's last argument is the variant's intermediate transform |
| Patch.PassPyroReads | src/main/java/com/github/wix_maven/PatchMojo.java:412-419 | pyro reads the variant's wixmsp from light and the transform torch wrote, under the configured baseline, and writes the variant's package |
| Patch.PyroBindsPdbFolders | src/main/java/com/github/wix_maven/PatchMojo.java:232-239 | a pass that reaches pyro has wixpdb inputs, so the nar folder when it exists and the folder of every jar dependency of either input are bound |
| Patch.UberTransforms | src/main/java/com/github/wix_maven/PatchMojo.java:275-278 | the uber pyro gives each map entry three arguments of its own in iteration order: "-t", the baseline joined by '_' to the culture with '-' made '_', and the entry's file |
| Patch.UberIdHasNoDash | src/main/java/com/github/wix_maven/PatchMojo.java:276 | a baseline id built from a baseline without '-' holds no '-' |
| Patch.UberPyroLayout | src/main/java/com/github/wix_maven/PatchMojo.java:259-283 | the uber pyro command line holds the patch file right after the general options and extensions, then three arguments per entry, then "-out" and the output last |
| Patch.UberPyroCommand | src/main/java/com/github/wix_maven/PatchMojo.java:259-283 | a fresh command line running pyro whose arguments are the specified uber pyro arguments |
| Patch.AddReuseCabOptions | src/main/java/com/github/wix_maven/PatchMojo.java:118-128 | appends the cabinet switches and makes the platform's cache folder when cabinets are reused and it is missing, changing nothing else |
| Patch.AddJarSourceRoots | src/main/java/com/github/wix_maven/PatchMojo.java:186-209 | appends exactly the specified jar roots, changing nothing else |
| Patch.AddPdbBinds | src/main/java/com/github/wix_maven/PatchMojo.java:232-239 | appends exactly the specified bind folders when the jar dependencies resolve and reports the resolution failure otherwise |
| Patch.Pyro | src/main/java/com/github/wix_maven/PatchMojo.java:220-248 | the command line built switch by switch yields exactly the specified pyro part of a pass |
| Patch.ResolveInputs | src/main/java/com/github/wix_maven/PatchMojo.java:403-409 | the lookups made in execute's order yield exactly the specified inputs or first failure |
| Patch.PatchVariant | src/main/java/com/github/wix_maven/PatchMojo.java:398-419 | one pass of the loop yields exactly the specified pass |
| Patch.PatchCultures | src/main/java/com/github/wix_maven/PatchMojo.java:396-423 | the culture loop yields exactly the fold of the passes over the platform's culture specs |
| Patch.PatchExecute | src/main/java/com/github/wix_maven/PatchMojo.java:378-430 | the goal yields exactly the specified plan over the platforms read at the start |
| Wixproj.DefinitionLineRoundTrip | src/main/java/com/github/wix_maven/WixprojMojo.java:226-228 | every definition line written reads back as the definition itself |
| Wixproj.PlatformTextsMatchCandle | src/main/java/com/github/wix_maven/WixprojMojo.java:98-103 | the x86 text defines exactly what candle defines for an x86 build, and the x64 text what it defines for any other platform |
| Wixproj.LibLineInRepository | src/main/java/com/github/wix_maven/WixprojMojo.java:253-255 | a wixlib inside the local repository is written relative to $(MavenRepoPath) |
| Wixproj.LibLinesCases | src/main/java/com/github/wix_maven/WixprojMojo.java:243-258 | a platform not built or a package that is not a library adds nothing; for a library of a built platform the lookup fails only when both the neutral and the en-US variants are missing, and otherwise each file found is written once, in iteration order |
| Wixproj.ResourceLinksOrder | src/main/java/com/github/wix_maven/WixprojMojo.java:261-272 | a package binds folders exactly when its neutral folder exists; the neutral folder comes first and the en-US folder, when it exists, last |
| Wixproj.WixEffectFails | src/main/java/com/github/wix_maven/AbstractCompilerMojo.java:57-95 | adding the wix dependencies fails exactly when the lookup of one of them fails |
| Wixproj.WixOneFails | src/main/java/com/github/wix_maven/AbstractCompilerMojo.java:67-76 | one wix dependency fails exactly when its wixlib lookup fails |
| Wixproj.WixEffectCompile | src/main/java/com/github/wix_maven/AbstractCompilerMojo.java:57-95 | when adding the wix dependencies succeeds, the compile text gains one line per dependency's definition in order, and the extension and platform texts are untouched |
| Wixproj.WixEffectLinks | src/main/java/com/github/wix_maven/AbstractCompilerMojo.java:57-95 | when adding the wix dependencies succeeds, the linker text gains each unclassified dependency's bind folders in order |
| Wixproj.WixOneContents | src/main/java/com/github/wix_maven/AbstractCompilerMojo.java:67-92 | one wix dependency adds its definition line and, when unclassified, its bind folders, leaving the extension and platform texts alone |
| Wixproj.WixEffectStops | src/main/java/com/github/wix_maven/AbstractCompilerMojo.java:61-76 | once a dependency fails, the whole list fails with that same failure |
| Wixproj.WixprojTextsContents | src/main/java/com/github/wix_maven/WixprojMojo.java:83-108 | the targets file's compile text lists every wix, NAR, JAR, NPANDAY and harvest definition in order; the linker text holds the three base folders then each unpacked dependency's folders; the extension text one line per extension; the platform texts their platform's definitions; it fails exactly when a dependency lookup or the harvest walk fails |
| Wixproj.WixprojMojo.constructor | src/main/java/com/github/wix_maven/WixprojMojo.java:110-117 | no text node exists yet |
| Wixproj.WixprojMojo.StartVSProjUpdater | src/main/java/com/github/wix_maven/WixprojMojo.java:119-219 | the text nodes start with their initial contents, the linker text with the three base bind folders, named when binds are named |
| Wixproj.WixprojMojo.AddDefinitionBase | src/main/java/com/github/wix_maven/WixprojMojo.java:226-236 | appends the definition's line to the chosen compile text and nothing else |
| Wixproj.WixprojMojo.AddDefinition | src/main/java/com/github/wix_maven/WixprojMojo.java:222-224 | appends the definition's line to the general compile text and nothing else |
| Wixproj.WixprojMojo.AddDefinitions | src/main/java/com/github/wix_maven/AbstractCompilerMojo.java:127-236 | adding definitions one by one appends their lines in order to the general compile text |
| Wixproj.WixprojMojo.AddPlatformDefinitions | src/main/java/com/github/wix_maven/WixprojMojo.java:98-103 | appends the x86 definitions to the x86 text and the x64 ones to the x64 text |
| Wixproj.WixprojMojo.AddThreeDefinitions | src/main/java/com/github/wix_maven/WixprojMojo.java:98-103 | three definitions in a row append their three lines in order |
| Wixproj.WixprojMojo.AddExtension | src/main/java/com/github/wix_maven/WixprojMojo.java:239-241 | appends one "-ext" line to the extension text and nothing else |
| Wixproj.WixprojMojo.AddWixExtensions | src/main/java/com/github/wix_maven/AbstractWixMojo.java:463-470 | appends one extension line per extension dependency, in order |
| Wixproj.WixprojMojo.AddLinkPath | src/main/java/com/github/wix_maven/WixprojMojo.java:281-284 | appends one bind folder line, named when binds are named, to the linker text and nothing else |
| Wixproj.WixprojMojo.AddLib | src/main/java/com/github/wix_maven/WixprojMojo.java:243-258 | appends the specified wixlib lines to the chosen platform text, or reports the lookup failure and changes no text |
| Wixproj.WixprojMojo.AddResource | src/main/java/com/github/wix_maven/WixprojMojo.java:261-279 | appends the resource's bind folders and, for a wixlib, both platforms' wixlib lines, or reports the first lookup failure |
| Wixproj.WixprojMojo.AddWixDefines | src/main/java/com/github/wix_maven/AbstractCompilerMojo.java:57-95 | the loop over the wix dependencies yields exactly the specified texts or the first failure |
| Wixproj.WixprojMojo.Execute | src/main/java/com/github/wix_maven/WixprojMojo.java:83-108 | a goal not told to update the target file changes nothing; otherwise it yields exactly the specified texts or the first failure |
| WixInfos.Lookup | src/main/java/com/github/wix_maven/WixInfo.java:189-196 | a null key gives the default; any other key gives its stored value, or the default when the bag does not hold it |
| WixInfos.LookupAfterSet | src/main/java/com/github/wix_maven/WixInfo.java:184-196 | a value set under a key is what a later lookup of that key finds, and lookups of every other key are unaffected |
| WixInfos.InitialBag | src/main/java/com/github/wix_maven/WixInfo.java:72-95 | the bag starts empty without a properties file or when the file is missing, holds the file's entries when it is read, and fails with "Problem loading <file>" exactly on any other read failure |
| WixInfos.LinesContainEach | src/main/java/com/github/wix_maven/WixInfo.java:107-115 | the key lines hold the line of every key listed |
| WixInfos.DescribeShowsEveryEntry | src/main/java/com/github/wix_maven/WixInfo.java:97-119 | the description starts with the header naming group, artifact and version, ends with the closing brace, and holds the line "   k='v'" of every entry of the bag |
| WixInfos.WixInfo.constructor | src/main/java/com/github/wix_maven/WixInfo.java:67-70 | the coordinates given and an empty bag |
| WixInfos.WixInfo.SetCulture | src/main/java/com/github/wix_maven/WixInfo.java:158-172 | after setting the cultures, getCulture gives the value back, getPlatform is unchanged, and the bag changes under that key alone |
| WixInfos.WixInfo.SetPlatform | src/main/java/com/github/wix_maven/WixInfo.java:174-187 | after setting the platforms, getPlatform gives the value back, getCulture is unchanged, and the bag changes under that key alone |
| WixInfos.WixInfo.Read | src/main/java/com/github/wix_maven/WixInfo.java:121-139 | reading succeeds exactly when the jar holds META-INF/wix/wix.properties, whose entries then overwrite the bag's; otherwise the bag is unchanged |
| WixInfos.WixInfo.ToString | src/main/java/com/github/wix_maven/WixInfo.java:97-119 | the loop over the bag's keys builds exactly the specified description |
| WixInfos.WriteToPath | src/main/java/com/github/wix_maven/WixInfo.java:141-151 | the META-INF\wix folder under the path is made when missing, then the bag is stored as wix.properties in it |
| WixInfos.Open | src/main/java/com/github/wix_maven/WixInfo.java:72-95 | the four-argument constructor gives a fresh bag holding the coordinates and the initial bag, or the load failure |
| LegacyWixMojo.LegacyOutputLayout | src/main/java/net/sf/wix/AbstractWixMojo.java:397-416 | an output is <base>\<arch>[\<culture>]\<finalName>.<extension> with a base folder, the same path relative to the working directory without one; with a base it is where the current class puts it, and without one the current class puts it under the project's base folder |
| LegacyLinker.LegacyAddedRootsMembers | src/main/java/net/sf/wix/AbstractLinker.java:129-136 | a folder joins the bind set exactly when it is the source, resource or NAR folder and exists; the current class adds the same folders, then the unpack folder when it exists and the local repository |
| LegacyLinker.LegacyBindArgsShape | src/main/java/net/sf/wix/AbstractLinker.java:138-141 | each folder of the set is passed as "-b" followed by the folder with two trailing backslashes, in order |
| LegacyLinker.LegacyBindArgsBindsEach | src/main/java/net/sf/wix/AbstractLinker.java:138-141 | every folder of the set is passed, followed by two backslashes |
| LegacyLinker.LegacyAddedRootsSteps | src/main/java/net/sf/wix/AbstractLinker.java:129-136 | the three conditional adds in a row insert exactly the existing project folders, in order |
| LegacyLinker.LegacyEmitBindArgs | src/main/java/net/sf/wix/AbstractLinker.java:138-141 | the loop appends exactly the specified bind pairs, changing nothing else |
| LegacyLinker.LegacyAddOptions | src/main/java/net/sf/wix/AbstractLinker.java:127-154 | the existing project folders join the caller's ordered set, then every folder of the set is bound in order |
| LegacyLinker.LegacyKeepsKeys | src/main/java/net/sf/wix/AbstractLinker.java:156-171 | a key starting "x--" is passed unchanged with its value, where the current class strips it to "-" |
| LegacyLinker.LegacyAgreesWithoutRewrites | src/main/java/net/sf/wix/AbstractLinker.java:156-171 | without "x--" keys the older and the current pass-through properties give the same arguments |
| LegacyTransform.AsCurrent | src/main/java/net/sf/wix/TransformMojo.java:63-68 | the current goal's configuration whose package output extension is the raw packaging |
| LegacyTransform.LegacyTransformCallFiles | src/main/java/net/sf/wix/TransformMojo.java:62-70 | each torch run compares the base culture's package with the alternate culture's, both named with the raw packaging, and writes the alternate culture's mst |
| LegacyTransform.LegacyTransformAsCurrent | src/main/java/net/sf/wix/TransformMojo.java:42-73 | the older goal is the current goal on a package whose output extension is its packaging: the same gates, pairs and torch runs |
| LegacyTransform.LegacyTransformOnePerPair | src/main/java/net/sf/wix/TransformMojo.java:53-72 | when transforms are made, there is one torch run per platform and alternate culture and nothing else |
| LegacyTransform.LegacyTransformOne | src/main/java/net/sf/wix/TransformMojo.java:63-70 | the command line prepared for a pair is exactly the specified torch run |
| LegacyTransform.LegacyTransformExecute | src/main/java/net/sf/wix/TransformMojo.java:42-73 | the goal yields exactly the specified plan over the platforms read at the loop |
| LegacyLight.LegacySwitches | src/main/java/net/sf/wix/LightMojo.java:80-96 | the output extension is wixmsp for a patch and the raw packaging otherwise; the cabinet switches appear exactly when cabinets are reused, naming the platform's cache folder with two trailing backslashes, one more than the current goal |
| LegacyLight.LegacyKeepsClassifierOpposite | src/main/java/net/sf/wix/LightMojo.java:101-112 | both goals keep unclassified artifacts; a classifier the older goal keeps is exactly one the current goal drops, so en-US is kept and x64-neutral dropped |
| LegacyLight.LegacyDependenciesMembers | src/main/java/net/sf/wix/LightMojo.java:98-127 | the dependencies are exactly the direct wixlib, msi and msp artifacts whose classifier does not start with a platform name |
| LegacyLight.LegacyUnpackDirectory | src/main/java/net/sf/wix/LightMojo.java:288 | a dependency unpacks into <unpack folder>\<groupId>-<artifactId> |
| LegacyLight.LegacyUnpackDirectoryVersionless | src/main/java/net/sf/wix/LightMojo.java:288 | the current goal's unpack folder is the older one's followed by "-" and the base version |
| LegacyLight.DepStepFiles | src/main/java/net/sf/wix/LightMojo.java:184-205 | one dependency keeps the steps and folders so far, fails exactly when it is a wixlib whose lookup fails, and otherwise adds exactly a wixlib's related files to the files to link |
| LegacyLight.DepLoopGrows | src/main/java/net/sf/wix/LightMojo.java:184-205 | the dependency loop keeps the steps and folders it started with |
| LegacyLight.DepLoopFiles | src/main/java/net/sf/wix/LightMojo.java:178-205 | without a failure the files to link are exactly the objects found and the related files of the wixlib dependencies that resolve |
| LegacyLight.DepStepRoots | src/main/java/net/sf/wix/LightMojo.java:184-205 | one dependency never drops a bind folder, unpacks the dependency, and binds an msi's unpack folder |
| LegacyLight.DepLoopUnpacksAll | src/main/java/net/sf/wix/LightMojo.java:184-187 | without a failure every dependency is unpacked again inside the build |
| LegacyLight.DepLoopBindsInstallers | src/main/java/net/sf/wix/LightMojo.java:198-204 | without a failure every msi dependency's unpack folder is bound, since it was made by then |
| LegacyLight.DepLoopStopsAt | src/main/java/net/sf/wix/LightMojo.java:184-205 | once a lookup fails, the dependencies after it are not looked at |
| LegacyLight.LegacyLinkArgsLayout | src/main/java/net/sf/wix/LightMojo.java:207-232 | light's command line is the general options, "-bf" when binding files, "-out" and the output, then the bind folders, and the files to link last |
| LegacyLight.LegacyVariantPlanCall | src/main/java/net/sf/wix/LightMojo.java:147-238 | a build ends in a light run exactly when no lookup failed and there is something to link, and then with the specified command line |
| LegacyLight.DepStepsNoCall | src/main/java/net/sf/wix/LightMojo.java:184-205 | the dependency loop runs no tool |
| LegacyLight.DepStepNoCall | src/main/java/net/sf/wix/LightMojo.java:184-205 | one dependency's step runs no tool |
| LegacyLight.LegacyVariantPlanLinks | src/main/java/net/sf/wix/LightMojo.java:156-232 | a build that links gives light every object the scanner found and every related file of its wixlib dependencies |
| LegacyLight.LegacyVariantBindsInstallers | src/main/java/net/sf/wix/LightMojo.java:198-219 | a build that links binds every msi dependency's unpack folder, followed by two backslashes |
| LegacyLight.LinkArgsBinds | src/main/java/net/sf/wix/LightMojo.java:219 | every folder of the build's ordered set is bound, followed by two backslashes |
| LegacyLight.LegacyUnpackAll | src/main/java/net/sf/wix/LightMojo.java:138-144 | before the builds every dependency is unpacked, and every unpack folder is there afterwards |
| LegacyLight.UnpackFoldGrows | src/main/java/net/sf/wix/LightMojo.java:140-144 | unpacking never forgets a folder already made |
| LegacyLight.LegacyUnpackResource | src/main/java/net/sf/wix/LightMojo.java:285-299 | unpacking makes the dependency's folder when missing, then extracts its locale and cabinet files, exactly as specified |
| LegacyLight.LegacyUnpackResources | src/main/java/net/sf/wix/LightMojo.java:138-144 | the loop unpacks every dependency in order, exactly as specified |
| LegacyLight.LegacyAddResource | src/main/java/net/sf/wix/LightMojo.java:274-283 | a library's unpacked locale folders join the set when its neutral folder exists; nothing joins otherwise |
| LegacyLight.LegacyDependencyStep | src/main/java/net/sf/wix/LightMojo.java:185-204 | one pass of the dependency loop yields exactly the specified state |
| LegacyLight.LegacyCollectDependencies | src/main/java/net/sf/wix/LightMojo.java:184-205 | the dependency loop yields exactly the specified state, stopping at the first failed lookup |
| LegacyLight.LegacyPrepareRoots | src/main/java/net/sf/wix/LightMojo.java:164-176 | a fresh ordered set of the configured folders and the locale folders, and the locale files, as specified |
| LegacyLight.LegacyStartCommand | src/main/java/net/sf/wix/LightMojo.java:208-217 | a fresh command line running light.exe in the source folder with the leading switches |
| LegacyLight.LegacyAddOptionSwitches | src/main/java/net/sf/wix/LightMojo.java:220-229 | appends the culture, the locale files, the extensions and the properties, changing nothing else |
| LegacyLight.LegacyAddReuseCabOptions | src/main/java/net/sf/wix/LightMojo.java:80-88 | appends the cabinet switches and makes the platform's cache folder when cabinets are reused and it is missing, changing nothing else |
| LegacyLight.LegacyLink | src/main/java/net/sf/wix/LightMojo.java:207-238 | the end of a build with files to link is exactly the specified folder making and light run |
| LegacyLight.LegacyLinkVariant | src/main/java/net/sf/wix/LightMojo.java:147-243 | one build yields exactly the specified plan |
| LegacyLight.LegacyLinkCultures | src/main/java/net/sf/wix/LightMojo.java:147-244 | the culture loop yields exactly the fold of the builds over the platform's cultures |
| LegacyLight.LegacyMultilink | src/main/java/net/sf/wix/LightMojo.java:130-246 | a missing light.exe fails the goal; otherwise every dependency is unpacked and then every culture of every platform built, exactly as specified |
| LegacyLight.LegacyExecute | src/main/java/net/sf/wix/AbstractLinker.java:214-232 | skipping does nothing; otherwise the output folder is made and multilink runs, exactly as specified |
| LegacyPatch.LegacyClassifierAgrees | src/main/java/net/sf/wix/PatchMojo.java:293 | the classifier asked for is the platform and the whole culture spec, which agrees with the current class's exactly on specs of a single culture |
| LegacyPatch.LegacyRelatedArtifact | src/main/java/net/sf/wix/PatchMojo.java:281-301 | a variant resolves exactly when the lookup under the platform-culture classifier does, to the single artifact found, which keeps the item's coordinates and carries that classifier; a failed lookup fails with its own failure |
| LegacyPatch.LegacyRelatedFile | src/main/java/net/sf/wix/PatchMojo.java:281-316 | a variant's file is found exactly when the lookup succeeds and the item is a wixpdb, and is then the file of an artifact found; a failed lookup fails with its failure, and a resolved variant of another type as an incomplete goal |
| LegacyPatch.LegacyIntermediateLayout | src/main/java/net/sf/wix/PatchMojo.java:251 | the transform torch writes is <intermediate folder>\<arch>[\<culture spec>]\<finalName>.wixmst, with the whole culture spec |
| LegacyPatch.CulturePass | src/main/java/net/sf/wix/PatchMojo.java:244-255 | a pass runs torch exactly when the input types match and both files are found, and otherwise throws; different input types throw the mismatch message |
| LegacyPatch.LegacyTorchWrites | src/main/java/net/sf/wix/PatchMojo.java:247-255 | torch diffs the base file against the patched file into the variant's intermediate transform |
| LegacyPatch.TransformFilesGrows | src/main/java/net/sf/wix/PatchMojo.java:237-260 | each pass that reaches torch puts its culture spec and transform into the platform's map, in order |
| LegacyPatch.TransformFilesComplete | src/main/java/net/sf/wix/PatchMojo.java:237-260 | when every pass reaches torch the map holds exactly the culture specs, each with the transform torch wrote for it |
| LegacyPatch.Named | src/main/java/net/sf/wix/PatchMojo.java:123-126 | the entries with their culture spec keys as text, one for one |
| LegacyPatch.LegacyPatchGates | src/main/java/net/sf/wix/PatchMojo.java:220-230 | skipping does nothing; a missing torch fails the goal first, then a missing pyro, each before anything runs |
| LegacyPatch.ArchPlanShape | src/main/java/net/sf/wix/PatchMojo.java:236-266 | each platform runs one torch per culture spec whose inputs are found, in culture order, a throw for any other, and one step more for its pyro |
| LegacyPatch.LegacyMismatchStopsFirst | src/main/java/net/sf/wix/PatchMojo.java:244-245 | inputs of different types fail the goal with the mismatch message at its first pass, before any tool runs |
| LegacyPatch.ArchPlanLast | src/main/java/net/sf/wix/PatchMojo.java:262-265 | a platform's last step is its pyro part |
| LegacyPatch.EntriesCover | src/main/java/net/sf/wix/PatchMojo.java:123-126 | when every pass reaches torch and no culture spec is null, the map's entries have no null key and hold every culture spec's transform |
| LegacyPatch.PyroAppliesEvery | src/main/java/net/sf/wix/PatchMojo.java:112-131 | when every pass reaches torch and no culture spec is null, the platform ends in one pyro run on the base culture spec's wixmsp, applying every culture spec's transform under the baseline id for that spec, and writing the msp |
| LegacyPatch.PyroArgsHold | src/main/java/net/sf/wix/PatchMojo.java:112-131 | the pyro arguments hold the patch file, each entry's baseline id and transform, and end with "-out" and the msp |
| LegacyPatch.NullCultureStopsPyro | src/main/java/net/sf/wix/PatchMojo.java:123-126 | a null culture spec whose pass reaches torch makes the platform's pyro fail on the null key before pyro runs |
| LegacyPatch.LegacyCulturePass | src/main/java/net/sf/wix/PatchMojo.java:244-260 | one pass of the culture loop yields exactly the specified steps and reports whether it reached torch |
| LegacyPatch.LegacyPatchCultures | src/main/java/net/sf/wix/PatchMojo.java:237-261 | the culture loop yields exactly the passes in culture order and the specified map of transforms |
| LegacyPatch.LegacyPyro | src/main/java/net/sf/wix/PatchMojo.java:112-131 | the command line built entry by entry yields exactly the specified pyro part |
| LegacyPatch.LegacyPatchArch | src/main/java/net/sf/wix/PatchMojo.java:236-266 | one platform yields exactly the specified steps |
| LegacyPatch.LegacyPatchExecute | src/main/java/net/sf/wix/PatchMojo.java:220-267 | the goal yields exactly the specified plan over the platforms read at the loop |

## Left out

- The WiX tools themselves, the Maven logger and the output the tools print are not modelled. A tool run is an oracle result, an exit code or a launch error. The line rating of each stream consumer is modelled (`Runtime.RateRun`), but the interleaving of log lines is not.
- File-system I/O: copying, unpacking, writing and `mkdirs` are recorded as effects. Their `IOException`s are not modelled, with the exceptions named below. `getAbsolutePath` is the identity on the paths the model is given. `getCanonicalPath` is an input function of the build (the `canonical` field of `Candle.Build`, `Light.LightBuild` and `Lit.LitBuild`), which `RelativePath.RelativeAll` applies to the relative base and to every file. Its `IOException` is not modelled: there the source's `getRelative` and `getRelativePath` fall back to the target's own path (AbstractWixMojo.java:665-667, 859-861), while the model always has a canonical path.
- Iteration order of `HashSet`, `HashMap` and `Properties`: an input listing. The model proves what each order gives, not which order the JVM picks.
- Artifact resolution, Maven project building, `VersionRange` and the dependency tree: inputs (oracles).
- ArtifactLookup.GetArtifact: both resolution failures become `ResolutionFailed("Unable to find artifact.")`. The source reports an `ArtifactResolutionException` as "Unable to resolve artifact." and an `ArtifactNotFoundException` as "Unable to find artifact." (AbstractWixMojo.java:418-421); the repository oracle does not tell the two apart.
- JavaText.EqualsIgnoreCase and JavaText.Lower fold the ASCII letters 'A'..'Z' only. Java's `equalsIgnoreCase` folds every letter through `Character.toUpperCase` and `toLowerCase`, so for example 'ı' (U+0131) equals "i" there and not here. The packaging, type and validate comparisons built on it agree with Java only for ASCII text.
- Linker.NotAfter, and with it Linker.SortedList and the `-loc` order of the light and lit goals, compares with ASCII case folding. Windows `File.compareTo` uses `compareToIgnoreCase`, which also folds letters such as 'É' and 'é', so paths with non-ASCII letters can sort differently.
- Harvest.HarvestPlan, Harvest.HarvestExecute and Harvest.AddToolsetOptions are built on the corrected `Harvest.ToolsetArgs`. With no `suppress` set configured the source throws a `NullPointerException` before heat runs (HarvestMojo.java:207-208, 252-254); the plan runs heat with no `-s` switch. The source's behaviour is `Harvest.ToolsetArgsAsWritten` (see "## Findings").
- Light.LightPlan, Lit.LitPlan, Patch.PatchPlan, LegacyLight.LegacyLightPlan and Package.PackagePlan, and the methods proved against them, are built on the corrected `WixMojo.PrimaryCulture` (through the classifiers, output folders and culture bind folders). For a culture spec made only of ';', such as ";", the source throws `ArrayIndexOutOfBoundsException` (AbstractWixMojo.java:625-629, LightMojo.java:224); the plans use the empty culture. The source's behaviour is `WixMojo.PrimaryCultureAsWritten` (see "## Findings").
- Light.LightPlan, Lit.LitPlan, Patch.PatchPlan and Linker.PassThroughArguments are built on the corrected `Linker.OtherOptions`. For a property key starting `x--`, such as `{x--ext: v}`, the source passes `-ext` and loses `v` (AbstractLinker.java:175-183, PatchMojo.java:134-142); the plans pass `-ext v`. The source's behaviour is `Linker.OtherOptionsAsWritten` (see "## Findings").
- `SimpleSourceInclusionScanner`: staleness and pattern matching are oracle functions of the folder, patterns and target. Its `InclusionScanException` is not modelled.
- `AbstractPackageable` is not part of this model. Its `culturespecs()`, `baseCulturespec()`, `defaultLocale`, the three-argument `getOutput` and `externalCabs` become fields of `Packageable.Packaged`, given as inputs.
- The `com.github` `AbstractInsigniaMojo` is not part of this model. The `net.sf` one stands in for both packages.
- The `net.sf` `AbstractTorchMojo` and its `getPrimaryCulture` are not part of this model. The `com.github` `Torch` and `WixMojo.PrimaryCulture` stand in.
- The `net.sf` `AbstractWixMojo` methods that are identical to the `com.github` ones are modelled once, in `WixMojo`.
- Harvest: an `IOException` while copying an extension jar is not modelled. The extension DLL names are compared case-sensitively, as written.
- Smoke: the `IOException` of the validation log file is not modelled. Truncation by `FileWriter` is not modelled: the log is the lines written.
- Patch: the size check's error message uses `String.format("%1:...")`, which would itself throw. That message is therefore not stated, in both the `com.github` and the `net.sf` patch goals. The `net.sf` `getDependencySets` is never called and is not modelled. The `com.github` uber-pyro command is modelled although `execute` never calls it.
- Wixproj: the XML/DOM work of `stopVSProjUpdater` (reading and writing the `.wixproj` file) is left out; the model ends with the texts it would write. Creating the file and folders is left out. The messages of its failures are not stated. `addLib` is modelled iterating over the given paths.
- WixInfo: `getACProperty` is not modelled. It depends on Java regular expressions (`replaceAll("{{Arch}}", ...)`) and discards the results of those calls. `Properties.load` and `store` are modelled as a map read from and written to the file, not as the text format.
- `unpackFileBasedResources`, in both `AbstractWixMojo`s, is not modelled. Only the toolset goal calls it, and that goal is outside this model. The linker goals have the call commented out.
- Candle: a failure to touch the timestamp file only logs a warning. It is an effect that cannot fail.
- Package: an `IOException` while copying a cabinet is caught and ignored by the source. The copy is an effect that cannot fail.
- `Seqs.Filter` states only that its result is no longer than its input. Which elements it keeps is the separate lemma `Seqs.FilterMembers`.

## Findings

| source | as written | input that shows it | evidently intended | confidence | as-written member | corrected member |
|---|---|---|---|---|---|---|
| src/main/java/com/github/wix_maven/AbstractWixMojo.java:625-629 | `getPrimaryCulture` returns `culturespec.split(";")[0]`. `split` drops trailing empty fields, so a spec made only of `;` yields an empty array and `[0]` throws `ArrayIndexOutOfBoundsException` | culturespec `";"` | the text before the first `;`, here the empty culture | not executed | WixMojo.PrimaryCultureAsWrittenThrows | WixMojo.PrimaryCulture |
| src/main/java/com/github/wix_maven/AbstractLinker.java:175-183 | `addOtherOptions` rewrites a key starting `x--` to its substring from index 2. It then looks the value up under the rewritten key, which is not in the properties, so the value is dropped. `PatchMojo.addOtherOptions` (lines 134-142) has the same code | properties `{x--ext: v}` give `-ext` without `v` | the rewritten key followed by the value stored under the original key | not executed | Linker.OtherOptionsAsWrittenDropsValue | Linker.OtherOptionsPairs |
| src/main/java/com/github/wix_maven/HarvestMojo.java:252-254 | `addToolsetOptions` iterates `for (String sup : suppress)`, but `suppress` has no default, so an unconfigured harvest throws `NullPointerException` before heat runs | no `suppress` configured | no `-s` switch when nothing is suppressed | not executed | Harvest.UnsetSuppressFails | Harvest.ToolsetArgsLayout |
