# Zip file system queries and launch-time argument assembly

This project models two pieces of a Minecraft launcher core in Dafny and
proves properties of them.

**The read-only zip file system** (`NodeZipFileSystem`, packages/system/index.ts).
Every query reads one immutable value, the archive's table of entry names,
in the order `Object.keys` lists them. The model is the datatype
`ZipFileSystem.ZipFs(root, entries)` with these queries:

- `join`;
- `isDirectory`, which infers directories that have no entry of their own from the names below them;
- `existsFile`;
- the lookup half of `readFile`;
- `listFiles`, a filter, map and `Set` pipeline;
- `walkFiles`, an imperative loop that hands each file entry to a walker; it is modelled as a method returning the walker calls in order.

The module also has the pass-through branch of `resolveFileSystem`.

**The launcher** (`Launcher`, src/libs/launch.ts):

- `generateArguments`. It takes a mutable options object, modelled as the class `Launcher.LaunchOptions` with one field per option. It throws when no version is given. It then assigns the defaults into the object in place, replaces a version id by the parsed version, and pushes the command-line tokens group by group. Each method is proved equal to a specification function: `FillDefaults`, `CommandLine`, `Arguments` and `OptionsAfter`. The properties (default values, token order, classpath layout, server and resolution tokens) are proved about those functions.
- `ensureLibraries`. Its thrown `{ type: "MissingLibs" | "CorruptedLibs", libs }` objects become the `LibraryCheck` datatype.
- The entry selection of `ensureNative`: the exclude-prefix filter and the directory filter, run once per native library.

JavaScript's semantics are written out where the code relies on them:

- truthiness: `""`, `0` and absent values are falsy, so a `minMemory` of 0 is replaced;
- `startsWith`, `substring`, `split` and `join` (module `Text`);
- `filter`, `map` and `[...new Set(xs)]` (module `Seqs`), where `Set` keeps first occurrences in first-occurrence order.

The collaborators the code calls but does not define are fields of the
`Launcher.Environment` datatype and are never interpreted:

- `Version.parse`;
- `format`;
- the `MinecraftFolder` paths;
- `Auth.offline`;
- `path.isAbsolute`, `path.resolve` and `path.join`;
- `os.platform()`;
- `uuid.v4()`.

The per-library `missing` and `checksum` answers and the archive listing are
function parameters.

Line 137 of src/libs/launch.ts allows for an account without a selected
profile, but line 138 reads `selectedProfile.id` unconditionally. The model
follows the code: such an account makes `generateArguments` fail with a
`TypeError` (`Launcher.GameValues`).

## Model

| member | source | states |
|---|---|---|
| ZipFileSystem.JoinSeparatesParts | packages/system/index.ts:67-69 | `join` puts exactly one "/" between neighbouring parts and adds nothing else: splitting the result at "/" gives back the parts when they contain no "/" |
| ZipFileSystem.JoinOfSplit | packages/system/index.ts:67-69 | joining the "/"-pieces of a path gives back the path |
| ZipFileSystem.ZipFs.IsDirectory | packages/system/index.ts:70-81 | for a name that is an entry: true exactly when it ends in "/"; otherwise true exactly when some entry name continues the name with "/" (an implied directory), which covers `name + "/"` being an entry |
| ZipFileSystem.ImpliedByPrefix | packages/system/index.ts:77-80 | the `some(e => e.startsWith(name + "/"))` test holds exactly when the entry names imply the directory `name` |
| ZipFileSystem.AnyStartsWith | packages/system/index.ts:80 | `entries.some(e => e.startsWith(p))` is true exactly when some entry starts with `p` |
| ZipFileSystem.ZipFs.ExistsFile | packages/system/index.ts:82-90 | after one leading "/" is dropped, true exactly when the name is an entry or an implied directory |
| ZipFileSystem.DirectoryExists | packages/system/index.ts:70-90 | for a name without a leading "/", `isDirectory` implies `existsFile` |
| ZipFileSystem.ZipFs.ReadFile | packages/system/index.ts:91-93 | fails with "Not found file named <name>" exactly when the raw name is not an entry; otherwise it finds the entry with exactly that name |
| ZipFileSystem.ReadFileDoesNotNormalise | packages/system/index.ts:82-93 | "/a" exists for the entry "a", but reading "/a" fails: `readFile` drops no leading slash |
| ZipFileSystem.ZipFs.ChildNamesMembers | packages/system/index.ts:106-110 | the child names are those of the entries that start with the prefix: the remainder after the prefix, less one leading "/", up to the next "/" |
| ZipFileSystem.ZipFs.ListFiles | packages/system/index.ts:103-112 | the listing has no duplicates and no element contains "/"; it holds exactly the child names of the entries starting with the name, after one leading "/" is stripped from the name |
| ZipFileSystem.ZipFs.ListFilesInFirstOccurrenceOrder | packages/system/index.ts:105-111 | the listing follows the order in which each child name first appears among the entries |
| ZipFileSystem.ListFilesMatchesRawPrefix | packages/system/index.ts:107-108 | the prefix match is on raw strings: listing "a" over the entry "ab/c" gives ["b"] |
| ZipFileSystem.ZipFs.WalkFiles | packages/system/index.ts:113-122 | the loop makes the walker calls in the order of the filtered entries, skipping names ending in "/" |
| ZipFileSystem.WalkedIsOneFilter | packages/system/index.ts:115-116 | filtering by the start directory and then skipping directory entries is one filter by both conditions |
| ZipFileSystem.WalkFilesInEntryOrder | packages/system/index.ts:113-122 | the walker calls follow the entry order: the k-th call is for the entry at the k-th of a strictly increasing list of positions |
| ZipFileSystem.WalkFilesOncePerFile | packages/system/index.ts:113-122 | those positions are exactly the entries that start with the stripped start directory and do not end in "/": the walker is called once for each such entry and for no other |
| ZipFileSystem.ResolveFileSystem | packages/system/index.ts:27-33 | a ready file system is passed through unchanged; a path or bytes is handed on to be opened |
| Seqs.FilterIsSubsequence | packages/system/index.ts:107 | a filter keeps exactly the elements satisfying the condition, each at its own position, in the original order |
| Seqs.DedupFirstOccurrenceOrder | packages/system/index.ts:106 | `[...new Set(s)]` lists the elements in the order of their first occurrences |
| Seqs.Dedup | packages/system/index.ts:106 | `[...new Set(s)]` has no repetitions and has the same elements as `s` |
| Text.SplitJoin | src/libs/launch.ts:121-123 | splitting a join of separator-free parts gives back the parts |
| Text.JoinSplit | packages/system/index.ts:67-69 | joining the pieces of a split gives back the string |
| Text.FirstSegment | packages/system/index.ts:110 | `s.split("/")[0]` is the longest "/"-free prefix of `s`, ending at the first "/" or at the end |
| Text.NatToStringDenotes | src/libs/launch.ts:101-102 | the rendered digits of a natural number denote that number, with no leading zero |
| Text.IntToStringDenotes | src/libs/launch.ts:152 | `n.toString()` is "-" exactly for a negative `n`, followed by the digits of its magnitude without leading zeros |
| Text.RemoveAllKeepsOthers | src/libs/launch.ts:138 | `replace(/-/g, "")` is the filter by "not a dash": every other character is kept, in order |
| Text.StripLeadingSlash | packages/system/index.ts:83 | `startsWith("/") ? substring(1) : s` drops exactly one leading "/" and nothing else |
| Launcher.NoVersionFails | src/libs/launch.ts:85 | without a version (absent or ""), `generateArguments` throws "Version cannot be null!" and leaves the options untouched |
| Launcher.FillDefaults | src/libs/launch.ts:86-93 | after the defaults the account, resource path and demo flag are present (the demo flag may be `false`) and the memory bounds, launcher name and brand are truthy; every value already set is kept; the options the defaults do not touch are unchanged |
| Launcher.DefaultValues | src/libs/launch.ts:86-93 | a missing account becomes the offline "Steve"; a relative game path is resolved; the resource path falls back to the game path; a falsy minimum memory (0 included) becomes 512; a falsy maximum becomes the final minimum; the launcher name and brand fall back to "JMCCC" and "InfinityStudio"; a falsy demo flag becomes `false` |
| Launcher.FillDefaultsIdempotent | src/libs/launch.ts:86-93 | filling the defaults again changes nothing once the resolved game path counts as absolute |
| Launcher.FillPathDefaults | src/libs/launch.ts:86-88 | assigns the account, game path and resource path defaults into the options object in place |
| Launcher.FillMemoryDefaults | src/libs/launch.ts:89-90 | assigns the memory defaults in place, the maximum after the minimum |
| Launcher.FillLauncherDefaults | src/libs/launch.ts:91-93 | assigns the launcher name, brand and demo defaults in place |
| Launcher.FillDefaultsInPlace | src/libs/launch.ts:86-93 | the options object afterwards is `FillDefaults` of its old value |
| Launcher.ResolveVersion | src/libs/launch.ts:94 | an already parsed version is kept as it is; a version id is the result of `Version.parse` under the (defaulted) resource path; an absent version is the "Version cannot be null!" error |
| Launcher.LaunchOptions.UseParsedVersion | src/libs/launch.ts:94 | the version option now holds the parsed version and no other option changes |
| Launcher.ClasspathSeparator | src/libs/launch.ts:123 | the separator is ":" exactly on darwin, ";" elsewhere |
| Launcher.ClasspathLists | src/libs/launch.ts:121-123 | splitting the classpath at the separator gives every library path in library order, then the version jar, and nothing else |
| Launcher.FormatAll | src/libs/launch.ts:125-146 | one formatted token per template, in template order (the jvm templates on line 125, the game templates on line 146) |
| Launcher.JvmTemplateValues | src/libs/launch.ts:117-124 | the jvm templates see exactly `natives_directory` (the natives root of the version under the resource path), `launcher_name`, `launcher_version` (the launcher brand) and `classpath` |
| Launcher.GameValues | src/libs/launch.ts:128-144 | fails exactly when the account has no selected profile (line 138 reads its id regardless of the guard on line 137); otherwise `game_directory` is the game path and `version_name` the version id |
| Launcher.GameTemplateKeys | src/libs/launch.ts:130-144 | with a selected profile, the game templates see exactly the thirteen names `version_name`, `version_type`, `assets_root`, `game_assets`, `assets_index_name`, `game_directory`, `auth_player_name`, `auth_uuid`, `auth_access_token`, `user_properties`, `user_type`, `resolution_width`, `resolution_height` |
| Launcher.GameFolderValues | src/libs/launch.ts:128-136 | `version_name` and `version_type` are the version's id and type; `assets_root` and `game_assets` are both the "assets" folder joined under the resource path; `assets_index_name` is the version's asset index; `game_directory` is the game path |
| Launcher.GameAccountValues | src/libs/launch.ts:137-141 | `auth_player_name` is the profile's name, or "Steve" when it is empty; `auth_uuid` is the profile id with every dash removed; `auth_access_token` is the access token, or a fresh UUID when it is empty; `user_properties` and `user_type` are the account's properties and user type |
| Launcher.GameResolutionValues | src/libs/launch.ts:129-143 | `resolution_width` and `resolution_height` are the decimal text of the resolution's width and height, falling back to 850 and 470 when the resolution is missing or the value is falsy |
| Launcher.JvmFlagsOrder | src/libs/launch.ts:104-115 | the certificate flag, the patch flag and the agent flag, each present exactly when its option is set and in that order, then the extra jvm arguments |
| Launcher.ServerTokensLayout | src/libs/launch.ts:149-154 | no tokens without a server; otherwise "--server" and the ip, followed by "--port" and the decimal port exactly when the port is truthy and by nothing otherwise |
| Launcher.ResolutionTokens | src/libs/launch.ts:155-166 | no tokens without a resolution; a fullscreen resolution gives "--fullscreen" alone; otherwise "--height h" before "--width w", each one token and each only when truthy |
| Launcher.HeadLayout | src/libs/launch.ts:99-115 | the first tokens are the java path, "-Xmn<min>M", "-Xms<max>M", then the flags |
| Launcher.TokenOrder | src/libs/launch.ts:99-166 | the whole token order: java path, "-Xmn<min>M", "-Xms<max>M", the flags, the formatted jvm arguments, the main class, the formatted game arguments, then the extra game arguments, server tokens and resolution tokens, with the length of the whole |
| Launcher.PushHead | src/libs/launch.ts:99-115 | the pushes of lines 99-115 produce the head of the command line |
| Launcher.PushFlags | src/libs/launch.ts:104-115 | the flag pushes append exactly the flags |
| Launcher.PushTail | src/libs/launch.ts:148-166 | the pushes of lines 148-166 append exactly the tail |
| Launcher.PushServer | src/libs/launch.ts:149-154 | the server pushes append exactly the server tokens |
| Launcher.PushResolution | src/libs/launch.ts:155-166 | the resolution pushes append exactly the resolution tokens |
| Launcher.BuildCommandLine | src/libs/launch.ts:96-167 | pushing group by group yields the command line of `TokenOrder`, or the profile error |
| Launcher.GenerateArguments | src/libs/launch.ts:84-168 | returns `Arguments` of the old options and leaves the options object defaulted and holding the parsed version (untouched when the version is missing, defaulted when parsing fails) |
| Launcher.EnsureLibraries | src/libs/launch.ts:170-192 | reports missing libraries exactly when one is missing; reports corrupt ones exactly when none is missing and one is corrupt; reports complete otherwise; the reported list is the filter of the libraries |
| Launcher.MissingReportedInLibraryOrder | src/libs/launch.ts:171-179 | the reported missing libraries are exactly the missing ones, each at its own position, in library order |
| Launcher.MissingSkipsChecksums | src/libs/launch.ts:174-180 | when a library is missing the outcome does not depend on any checksum |
| Launcher.CorruptedReportedInLibraryOrder | src/libs/launch.ts:180-190 | the reported corrupt libraries are exactly those whose SHA-1 is known and differs from the checksum, in library order |
| Launcher.UnknownChecksumNeverCorrupt | src/libs/launch.ts:182 | a library with an empty SHA-1 is never reported corrupt |
| Launcher.NoExcludeMatchesIff | src/libs/launch.ts:200 | `containsExcludes` holds exactly when the name starts with none of the exclude prefixes |
| Launcher.ExtractedIff | src/libs/launch.ts:199-203 | an entry is extracted exactly when it is not a directory and its name starts with none of the exclude prefixes; without an exclude list only directories are skipped |
| Launcher.ExtractNative | src/libs/launch.ts:203-207 | the loop writes the selected entries' names in archive order |
| Launcher.EnsureNative | src/libs/launch.ts:197-208 | one extraction per native library, in library order, each the selection of `ExtractNative` over that library's archive |

## Left out

- `NodeFileSystem`, `openFileSystem` and the opening branch of `resolveFileSystem` (packages/system/index.ts:13-61): wrappers over Node's `fs` and the zip reader, whose code is not part of this model. `ResolveFileSystem` only says that such a source is handed on to be opened.
- ZipFileSystem.ZipFs.ReadFile: `zip.readEntry` and the `utf-8`/`base64` decodings are not modelled (lines 94-101). The result is the position of the entry found, not its bytes.
- ZipFileSystem.ZipFs.WalkFiles: the walker is not called. The method returns the sequence of arguments it would be called with. Its effects, and the awaiting of a returned promise, belong to the caller. The calls returned are those of a walk in which every walker call returns normally. A walker that throws, or whose promise rejects, ends `walkFiles` at that call (lines 117-119), and the later entries are never visited; the model does not capture that error path.
- `Object.keys(zip.entries)` is taken as a given sequence, and the model does not derive its order. JavaScript lists integer-like keys such as "0" or "12" first, in ascending numeric order, and then the other keys in insertion order. This reordering affects the order of `listFiles` and `walkFiles` (lines 106 and 115), and it is assumed already applied to `entries`. The model does not require the names to be distinct; a repeated name simply yields repeated walker calls and child names.
- `this.zip.entries[name]` (lines 71, 74, 84 and 92) is modelled as membership in the entry names. If `zip.entries` is a plain object, whose construction is not part of this model, the lookup also finds inherited `Object.prototype` members: `existsFile("constructor")` is then true in the source but false in the model.
- `Launcher.launch`, `spawn`, `fs.emptyDir`, `fs.ensureFile`, `fs.writeFile` and the loading of native archives: process and file I/O. `EnsureNative` takes the entries of each archive as a parameter and returns the written names.
- The following are uninterpreted `Environment` fields: `Version.parse`, `format`, the `MinecraftFolder` paths, `Auth.offline`, `path.isAbsolute`/`resolve`/`join`, `os.platform()` and `uuid.v4()`.
- `checksum` and `missing` are parameters. `JSON.stringify(auth.properties)` and `UserType.toString(auth.userType)` are taken already rendered as strings.
- `Promise.all` in `ensureLibraries` is modelled as a sequential map. The masks are recombined by position, so there the order of completion does not matter.
- Launcher.EnsureNative: the per-library extractions run concurrently under `Promise.all` (lines 198-208), and each writes `path.join(native, entry.name)` into the same natives directory. When two native archives hold an entry of the same name, the file that survives depends on the order of completion. The model returns each library's list of written names and does not capture that race or the final directory contents.
- JavaScript numbers are integers here: `NaN`, fractions and `arg as string` on non-string templates are not modelled. `IntToString` does not model the exponent form in which JavaScript renders integers of 1e21 and above. `resolution_width` and `resolution_height` reach `format` as numbers (lines 142-143); the model passes their decimal text instead.
- Launcher.GameValues: an account without a selected profile is modelled as the `TypeError` that line 138 throws. The message text stands for the engine's own wording.
- The `instanceof Native` test is a present `native` field on the library.
- src/libs/services.ts, test.js and packages/installer/e2e.test.ts are not part of this model. They hold a service registry with no logic, Java discovery through the environment and network-bound installer tests.
