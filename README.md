# WorldEdit schematic commands and exception converter, in Dafny

This project models two parts of WorldEdit's command layer.

1. The schematic commands `load`, `save`, `delete`, `formats` and `list`. They live in `SchematicCommands`.
   - The state is a `Workspace` class. It holds a store that maps each existing path to a directory or to a regular file. A regular file has a modification time and its contents. The class also holds the set of paths whose delete the filesystem refuses, and the session's clipboard holder.
   - `load`, `save` and `delete` are methods on that class. Each method's postcondition says which outcome the command reaches and what the store or the session is afterwards.
   - `list` sorts the regular files of the directory in place, in an array. The comparator and the flag-to-key choice are pure functions. Lemmas prove that the comparator is antisymmetric and transitive on files, that each key gives the promised order, and that key 1 is exactly the reverse of key -1.
   - `formats` and `listFiles` build their text in loops. Both are proved equal to reference functions. Lemmas about those functions give the shape of the text.
2. `WorldEditExceptionConverter`, as one total function `Convert`. It maps each handled exception to the `CommandException` that its handler throws. The pattern `^For input string: "(.*)"$` is the function `ParseForInputString`. It is proved to succeed exactly on messages of that shape, and then it returns the quoted text.

Modules:
- `Wrappers`: Option and Result.
- `ExceptionConverter`: the converter.
- `SchematicFiles`: formats and catalog nodes.
- `SchematicOrder`: the sort key, the comparator and the in-place sort.
- `SchematicText`: the `formats` lines and the `listFiles` text.
- `SchematicCommands`: the commands.

Things that the model takes as parameters instead of modelling:
- the path resolvers (`getSafeOpenFile`, `getSafeSaveFile`): a `Resolution`, which is a path or the `FilenameException` thrown;
- format lookup by alias (`findByAlias`) and content detection (`findByFile`): functions that return an `Option`;
- opening a file and running a format's reader: one function that returns the clipboard or the message of the `IOException`;
- the geometry of `FlattenedClipboardTransform`: a function that gives the transformed region;
- what `mkdirs` answers, what the output stream and the writer do, and the clock: a `SaveEnvironment`;
- the directory's entries as the platform lists them, or `None` when `listFiles` returns null;
- `File.getParentFile`: the function `Parent`, which drops the last path segment and gives none for a root.

The store and these parameters must be chosen consistently. The model does not require every stored path's parent to be a stored directory. So `Delete` removes a non-empty directory unless the caller lists it as undeletable. A `Written` save may also put a file under a regular file, where the platform would fail to open the stream.

Points where the code's behaviour is easy to misread:
- `load` checks that the file exists before it looks up the format.
- An unknown format in `load` or `save` is printed, not thrown.
- `delete` resolves its path with the save-side resolver.
- `list` drops every directory before sorting, so it never reaches the recursion of `listFiles`.
- An empty session makes `save` throw `EmptyClipboardException`, but only after the format lookup has succeeded. `LocalSession.getClipboard` is not part of this model; the model assumes it throws on an empty session, as its use in `save` implies.

## Model

| member | source | states |
|---|---|---|
| ExceptionConverter.ParseForInputString | worldedit-core/src/main/java/com/sk89q/worldedit/internal/command/WorldEditExceptionConverter.java:45-59 | a match is exactly `For input string: "` + X + `"` with X free of line terminators, and the group is X |
| ExceptionConverter.ParseForInputStringComplete | worldedit-core/src/main/java/com/sk89q/worldedit/internal/command/WorldEditExceptionConverter.java:45-59 | every message of that shape matches, and the group is exactly X |
| ExceptionConverter.ParseForInputStringRejectsLineTerminator | worldedit-core/src/main/java/com/sk89q/worldedit/internal/command/WorldEditExceptionConverter.java:45-57 | a quoted text that contains a line terminator does not match |
| ExceptionConverter.ParseForInputStringGreedy | worldedit-core/src/main/java/com/sk89q/worldedit/internal/command/WorldEditExceptionConverter.java:45-59 | for every X and Y free of line terminators, the message with quoted text X + `"` + Y matches, and the group keeps the inner quote: the greedy group runs to the final quote |
| ExceptionConverter.Convert | worldedit-core/src/main/java/com/sk89q/worldedit/internal/command/WorldEditExceptionConverter.java:53-153 | every exception is converted (none returns normally); only the generic fallback has a cause, the original exception, and it keeps its message; pass-through kinds keep their message; each other kind's message has the fields its handler embeds |
| ExceptionConverter.NumberFormatQuotesInput | worldedit-core/src/main/java/com/sk89q/worldedit/internal/command/WorldEditExceptionConverter.java:54-59 | a NumberFormatException whose message is `For input string: "X"`, with X free of line terminators, yields `Number expected; string "X" given.` |
| ExceptionConverter.NumberFormatOtherMessage | worldedit-core/src/main/java/com/sk89q/worldedit/internal/command/WorldEditExceptionConverter.java:54-62 | a NumberFormatException whose message has no such shape yields the fixed text `Number expected; string given.` |
| ExceptionConverter.ConstantMessages | worldedit-core/src/main/java/com/sk89q/worldedit/internal/command/WorldEditExceptionConverter.java:65-148 | IncompleteRegion, EmptyClipboard and FileSelectionAborted give a fixed message that depends on neither the exception nor the configuration |
| ExceptionConverter.ItemMessageDeterminesId | worldedit-core/src/main/java/com/sk89q/worldedit/internal/command/WorldEditExceptionConverter.java:70-84 | the unknown-item and disallowed-item messages embed the item id, which the message determines |
| ExceptionConverter.BlockLimitMessageDeterminesLimit | worldedit-core/src/main/java/com/sk89q/worldedit/internal/command/WorldEditExceptionConverter.java:86-90 | the MaxChangedBlocks message embeds the exception's own block limit in decimal, and the message determines the limit |
| ExceptionConverter.IntToStringRoundTrip | worldedit-core/src/main/java/com/sk89q/worldedit/internal/command/WorldEditExceptionConverter.java:88-89 | the decimal rendering of an int reads back to that int |
| ExceptionConverter.RadiusMessagesReportConfiguration | worldedit-core/src/main/java/com/sk89q/worldedit/internal/command/WorldEditExceptionConverter.java:92-100 | the MaxBrushRadius and MaxRadius messages are equal exactly when the configured limits are equal |
| ExceptionConverter.FilenameMessageDeterminesFields | worldedit-core/src/main/java/com/sk89q/worldedit/internal/command/WorldEditExceptionConverter.java:127-137 | the filename messages hold the filename and then the original message; given the filename's length, both can be read back |
| SchematicOrder.SortType | worldedit-core/src/main/java/com/sk89q/worldedit/command/SchematicCommands.java:269 | the key is -1 exactly when -d is given, 1 exactly when only -n is given, 0 when neither is |
| SchematicOrder.CompareIgnoreCaseTransitive | worldedit-core/src/main/java/com/sk89q/worldedit/command/SchematicCommands.java:279 | the case-insensitive name comparison is transitive |
| SchematicOrder.CompareIgnoreCase | worldedit-core/src/main/java/com/sk89q/worldedit/command/SchematicCommands.java:279 | compareToIgnoreCase gives zero exactly when the two names are equal after case folding |
| SchematicOrder.Compare | worldedit-core/src/main/java/com/sk89q/worldedit/command/SchematicCommands.java:273-283 | on regular files: under key 0 a tie is exactly equal names up to case; under a date key a tie is exactly equal modification times; key 1 puts the newer file first and the other date key the older one |
| SchematicOrder.CompareIgnoreCaseProperPrefix | worldedit-core/src/main/java/com/sk89q/worldedit/command/SchematicCommands.java:279 | a name sorts before every longer name that extends it, ignoring case |
| SchematicOrder.CompareAntisymmetric | worldedit-core/src/main/java/com/sk89q/worldedit/command/SchematicCommands.java:271-284 | on regular files the comparator is antisymmetric for every key |
| SchematicOrder.CompareTransitive | worldedit-core/src/main/java/com/sk89q/worldedit/command/SchematicCommands.java:271-284 | on regular files the comparator is transitive for every key |
| SchematicOrder.NonFileBreaksComparator | worldedit-core/src/main/java/com/sk89q/worldedit/command/SchematicCommands.java:274-277 | a non-file compares below everything in both directions, which breaks the comparator's contract |
| SchematicOrder.ByNameIsCaseInsensitiveAscending | worldedit-core/src/main/java/com/sk89q/worldedit/command/SchematicCommands.java:279 | key 0 orders files ascending by case-insensitive name |
| SchematicOrder.OldestFirstByModificationTime | worldedit-core/src/main/java/com/sk89q/worldedit/command/SchematicCommands.java:280 | key -1 orders files by modification time, oldest first |
| SchematicOrder.NewestFirstReversesOldestFirst | worldedit-core/src/main/java/com/sk89q/worldedit/command/SchematicCommands.java:281 | a sequence is ordered under key 1 exactly when its reverse is ordered under key -1 |
| SchematicOrder.SortFiles | worldedit-core/src/main/java/com/sk89q/worldedit/command/SchematicCommands.java:271-284 | the in-place sort of the files array leaves it ordered under the key and a permutation of what it held |
| SchematicText.JoinFront | worldedit-core/src/main/java/com/sk89q/worldedit/command/SchematicCommands.java:232-238 | the joined aliases are the first alias, then a separator before each further alias |
| SchematicText.FormatLineStartsWithFirstAlias | worldedit-core/src/main/java/com/sk89q/worldedit/command/SchematicCommands.java:231-238 | a format line is the name, ": ", then the first alias with no separator before it |
| SchematicText.Formats | worldedit-core/src/main/java/com/sk89q/worldedit/command/SchematicCommands.java:225-242 | the header, then one line per format in registry order: the name, ": " and the aliases joined by ", " |
| SchematicText.ListFiles | worldedit-core/src/main/java/com/sk89q/worldedit/command/SchematicCommands.java:290-307 | the text built equals the reference listing of the file tree |
| SchematicText.ListingAppend | worldedit-core/src/main/java/com/sk89q/worldedit/command/SchematicCommands.java:290-307 | the listing of two consecutive runs of files is the listing of the first followed by that of the second |
| SchematicText.ListingOfFiles | worldedit-core/src/main/java/com/sk89q/worldedit/command/SchematicCommands.java:292-305 | for regular files only: one newline, section sign and `9`, then prefix + name + ": " + format name (or the unknown label) entry per file, in input order |
| SchematicText.ListingOfDirectory | worldedit-core/src/main/java/com/sk89q/worldedit/command/SchematicCommands.java:293-296 | a directory lists its contents under the prefix extended by its name and "/" |
| SchematicCommands.Bake | worldedit-core/src/main/java/com/sk89q/worldedit/command/SchematicCommands.java:152-160 | with an identity transform the target is the clipboard itself; otherwise it is a clipboard over the transformed region; either way the origin is the source's |
| SchematicCommands.CreateDirectories | worldedit-core/src/main/java/com/sk89q/worldedit/command/SchematicCommands.java:164-170 | after mkdirs every ancestor of the directory exists, existing entries are kept, and only directories are added |
| SchematicCommands.Workspace.Load | worldedit-core/src/main/java/com/sk89q/worldedit/command/SchematicCommands.java:87-125 | a missing file gives NotFound whatever the registry holds; an unknown format or a failed read leaves the session unchanged; a successful read binds a holder of exactly the clipboard read |
| SchematicCommands.Workspace.Save | worldedit-core/src/main/java/com/sk89q/worldedit/command/SchematicCommands.java:135-187 | an unknown format is reported before the session is read, with the store unchanged; an empty session throws EmptyClipboard; a failed mkdirs throws with the store unchanged; otherwise the missing directories are created and the file holds the baked clipboard, or a truncated encoding when the write fails |
| SchematicCommands.Workspace.Delete | worldedit-core/src/main/java/com/sk89q/worldedit/command/SchematicCommands.java:198-217 | a missing file gives NotFound and the store is unchanged; a refused delete keeps the file; otherwise exactly that path is removed |
| SchematicCommands.Workspace.NodeOf | worldedit-core/src/main/java/com/sk89q/worldedit/command/SchematicCommands.java:262 | a listed path is a file node exactly when it is a regular file in the store; a file node carries the stored modification time and the format content detection reports; the node is named by the path's last segment |
| SchematicCommands.Workspace.RegularFilesOf | worldedit-core/src/main/java/com/sk89q/worldedit/command/SchematicCommands.java:256-264 | the filtered listing holds only regular files; every regular file of the listing has its node in it, and every node in it comes from a listed regular file |
| SchematicCommands.Workspace.List | worldedit-core/src/main/java/com/sk89q/worldedit/command/SchematicCommands.java:254-288 | a null listing throws FilenameResolutionException carrying the directory's path; otherwise the regular files, sorted by the flags' key and a permutation of the filtered listing, are printed under the header |
| SchematicCommands.SortedCopy | worldedit-core/src/main/java/com/sk89q/worldedit/command/SchematicCommands.java:271-284 | the sorted array is ordered under the key and a permutation of the filtered files |
| SchematicCommands.SaveThenLoad | worldedit-core/src/main/java/com/sk89q/worldedit/command/SchematicCommands.java:98-175 | with a reader that decodes what the writer encoded, save followed by load binds the baked clipboard to the session |

## Left out

- Stream handling is not modelled. This covers opening, buffering, `Closer` and closing on every path. Only the outcome of each step is a parameter.
- Logging and most printing are not modelled. The printed text of `formats` and `list` is returned as strings. The other commands return an `Outcome` instead of the line they print.
- The path resolvers, `findByAlias`, `findByFile`, the readers and the writers are not shown in the source. They are parameters, and nothing is proved about their internals.
- The geometry of `FlattenedClipboardTransform` and the block copy are not modelled. `Operations.completeLegacy`, the block contents of a clipboard and the world data are opaque. A clipboard is its region and origin, so "the same object" becomes value equality.
- Transform: the model treats only an affine transform given by its twelve coefficients. The `Transform` interface's other implementations are not part of this model.
- Handler choice by reflection in `ExceptionConverterHelper` is replaced by one constructor per handler.
- `UnknownDirection` and `InvalidToolBind` are converted, but no lemma is stated about them. `ItemType.toHeldName` is a parameter.
- SchematicOrder.FoldChar: case folding covers only ASCII and the Cyrillic block U+0400 to U+042F, not all of Java's Unicode case mapping. Java compares UTF-16 code units, and the model compares Unicode scalar values.
- SchematicOrder.SortFiles: the ordering and the permutation are proved, but not stability. The tie order stays whatever the platform listed.
- SchematicCommands.CreateDirectories: a failed `mkdirs` is modelled as creating nothing, whereas the platform may leave some ancestors created.
- The order of `dir.listFiles()` is a parameter. It is required to list each entry of the directory exactly as the store holds it.
- The integers are unbounded. The model does not wrap the negation of a comparison result at `Integer.MIN_VALUE`, and it does not bound block limits, radii or modification times to Java's widths. Nothing in these commands relies on wrap-around.
- The converter's non-ASCII message texts are kept as opaque constants, exactly as the source file stores them.
- A null exception message in the number-format path is not modelled. It would make the matcher throw.
- Some exceptions are not modelled. `getCanonicalPath` in the log lines of `load` and `save` can throw `IOException` after `setClipboard` or after the write. The command then prints a read or write failure although the session or the file has already changed. `Workspace.Load`'s "no change unless Done" clause does not cover that case. `Operations.completeLegacy` can throw during the bake, and that is not modelled either.
- SchematicCommands.Workspace.RegularFilesOf: the filter's result is stated by membership in both directions. That its nodes keep the listing's relative order is not stated, because the sort that follows does not depend on it.
