# cd: the `Dot` command, modelled in Dafny

The cd helper defines a family of shell commands named `.`, `..`, `...`, and so on.
Each one is a `Dot`. A Dot with recursion depth `NumRecurs` is named by
`NumRecurs+1` dots and climbs `NumRecurs` directories. It may also take a PATH,
given as a list of tokens. From these it produces a single `cd ...` line for the
invoking shell to evaluate. Before the line is built, two things happen to the
PATH:

- The first token is rewritten into an absolute path standing behind the
  `..` prefix (the PATH transformer).
- If that token names a file, it is replaced by the file's directory.

Backslashes in the emitted path are doubled for msys2.

The project has four modules:

- `Wrappers` holds `Option` and `Result`.
- `Strs` holds `strings.Repeat` and a character count used to state `fp`'s length.
- `FilePath` is a simplified `path/filepath`: `Join` without `Clean`, a `Split` used to read joins back, `Dir`, a helper `Base` for the text after the last separator, and `Abs` over a given working directory.
- `Cd` holds the command itself. It has `fp` and its inverse, the specification functions for the prefix, the file substitution and the emitted line, and the classes `Dot` and `ExecuteData`, whose methods update their fields in place.

The outside world enters only as parameters:

- `os.Stat` is a function `string -> StatResult`.
- The working directory used by `filepath.Abs` is the `Result` of `os.Getwd`.
- `json.Unmarshal` is a function from the JSON text and the current exported fields to the new exported fields and an optional error.

Where the later test file and `cd.go` disagree, the model follows `cd.go`. One
example: with `NumRecurs == 0` and no PATH, `cd.go` emits `"cd "` with a trailing
space (`Cd.CdWithoutPath`), while the newer test expects `"cd"`. The tests about
history, `cd -`, `parent` and `%q` quoting exercise code that `cd.go` does not
contain.

## Model

| member | source | states |
|---|---|---|
| `Cd.Dot.Name` | cd.go:58-60 | The name has exactly `NumRecurs+1` characters, and every one of them is `'.'`. It requires `NumRecurs >= -1`, because `strings.Repeat` panics on a negative count. |
| `Strs.Repeat` | cd.go:59 | `strings.Repeat` of one character gives exactly `n` characters, all equal to that character. |
| `Cd.ParentPrefix` | cd.go:63-66 | The prefix holds exactly `max(n, 0)` tokens, and each one is `".."`. |
| `Cd.Dot.Directory` | cd.go:62-68 | Filling a fresh slice of `NumRecurs` strings with `".."` in a counted loop and joining it gives `ParentDirectory(NumRecurs)`, the join of the `..` prefix. |
| `Cd.ParentDirectoryComponents` | cd.go:62-68 | `directory()` is `""` when `NumRecurs == 0`. Otherwise, splitting it at the separator gives exactly `NumRecurs` `".."` components. |
| `FilePath.Join` | cd.go:67 | `filepath.Join` without `Clean`: the non-empty elements joined with `'/'`. The join is empty exactly when every element is empty, and it begins with the first element when that one is non-empty. `FilePath.SplitJoin` is its round-trip partner. |
| `FilePath.SplitJoin` | cd.go:67 | Splitting a join of non-empty, separator-free components gives back the components. |
| `Cd.Fp` | cd.go:85-88 | `fp` doubles every backslash. It is the identity on strings that contain no backslash, and its output is longer than its input by exactly the number of backslashes. `Cd.UnescapeFp` proves it invertible. |
| `Cd.FpConcat` | cd.go:85-88 | `fp` acts on each character separately: it distributes over concatenation. |
| `Cd.UnescapeFp` | cd.go:85-88 | Reading each doubled backslash back as one backslash recovers the original, so `fp` only doubles backslashes and loses nothing. |
| `Cd.ParentDirectoryUnescaped` | cd.go:72 | `fp` leaves `directory()` unchanged, because the `..` prefix has no backslash. |
| `Cd.Substituted` | cd.go:76-79 | File substitution keeps the length and elements 1 onward. If `path[0]` stats as a non-directory, element 0 becomes `Dir(path[0])`. If the stat fails or reports a directory, the list is unchanged. |
| `Cd.SubstitutedIdempotent` | cd.go:76-79 | Substituting a second time changes nothing when the containing directory stats as a directory or fails to stat. |
| `FilePath.Dir` | cd.go:78 | `Dir` of an absolute path is absolute and is no longer than the path. |
| `FilePath.DirBase` | cd.go:78 | `Dir` is the part before the last separator. `Dir`, the separator and the text after the last separator (`Base`, a helper, not Go's `filepath.Base`) put back together give the path. |
| `Cd.Dot.Cd` | cd.go:70-83 | `cd` always returns nil and appends exactly one line to `Executable`, keeping the earlier entries. Without PATH the line is `"cd " + fp(directory())`. With PATH, element 0 of the caller's list is substituted in place, and the line is `"cd " + fp(Join(path))`. |
| `Cd.CdCommandNamesTarget` | cd.go:70-83 | The emitted line starts with `"cd "`, and undoing the backslash doubling on the rest gives exactly the target path: the prefix without PATH, or the joined PATH after substitution. Nothing but backslashes is escaped: the path is not quoted. |
| `Cd.CdWithoutPath` | cd.go:71-73 | Without PATH the line is `"cd "` followed by the `..` prefix as is. At depth 0 it is `"cd "` with a trailing space. |
| `FilePath.Abs` | cd.go:104 | An absolute path is returned as it is. A relative one fails exactly when `Getwd` fails, with its error. When the working directory is absolute, the result is absolute. |
| `FilePath.JoinAppend` | cd.go:99-104 | Joining a list with one more element appended is the same as joining that element onto the list's join. |
| `Cd.TransformedHeadBehindPrefix` | cd.go:98-111 | The new first token is `Abs` of `directory()` joined with the old first token. It is absolute when the working directory is absolute. With `NumRecurs == 0`, an absolute token is kept unchanged. |
| `Cd.Dot.TransformPath` | cd.go:98-111 | The transformer builds the `..` prefix by appending in a loop, then appends the first token. On success it overwrites element 0 with `Abs(Join(prefix + [first]))`, leaves every later element alone, and returns the same list. If `Abs` fails, the list is untouched and the error is `"failed to transform file path: "` followed by `Abs`'s message. |
| `Cd.Dot.AliasMap` | cd.go:30-35 | The result is never nil, and the field then holds it. A table is allocated, empty, only when the field was nil. Otherwise the existing table is returned with its entries intact. |
| `Cd.Dot.Load` | cd.go:37-53 | `NumRecurs` is equal to its value before the call on every path, whatever the decoder wrote, and `changed` is never touched. `Load("")` returns nil and leaves the receiver unchanged. Otherwise the aliases are whatever decoding left, and a decoding error comes back prefixed with `"failed to unmarshal dot json: "`. |
| `Cd.Dot.Changed` | cd.go:55 | `Changed()` returns the `changed` field. |
| `Cd.Dot.MarkChanged` | cd.go:55-56 | After `MarkChanged`, `Changed()` is true. Only the `changed` field is modified. |
| `Cd.Dot.constructor` | cd.go:127-131 | `DotCLI(n)` has `NumRecurs == n`, no alias table and `changed == false`. |

## Left out

- `Dot.Node` graph construction: `SerialNodes`, `StringListNode`, `AliasNode` and the `Completor`/`FileFetcher` completion. These are calls into the command framework, which is not part of this model. Only the transformer closure inside `Node` is modelled.
- `Dot.Setup` is not modelled. It is a method of its own that returns nil and has no logic.
- `cmd/source.go` only hands ten `DotCLI(i)` values to the framework, so it is not part of this model.
- `os.Stat`, `os.Getwd` and `json.Unmarshal` are parameters and not I/O. The model assumes nothing about what they return.
- `FilePath.Join`, `FilePath.Dir` and `FilePath.Abs` leave out Go's lexical `Clean`. Repeated separators, `.` and `a/..` are not collapsed, so `Join(["..", "/x"])` keeps both separators.
- The separator is fixed to the POSIX `'/'`. On Windows, Go joins with `'\'`, and `fp` would then double the separators of `directory()` too. That case is not modelled.
- `Cd.Dot.AliasMap`: Go maps are references, and the returned map aliases the field. The model's table is a value, so "the same map" is stated as equality with the stored field, not as identity.
- `Cd.Dot.Load`: the method is called on a non-null object, so the nil-receiver case is not modelled. In Go that case skips the restoring `defer`. With an empty string it still returns nil before decoding. With any other string `json.Unmarshal` fails, with a syntax error or because of the nil target.
- `Cd.Dot.Cd` requires a present PATH list to be non-empty, because `path[0]` panics on an empty list. `Cd.Dot.TransformPath` requires the same for `v.StringList()[0]`.
- `Cd.Dot.Name`, `Cd.Dot.Directory` and the no-PATH branch of `Cd.Dot.Cd` require `NumRecurs` to be large enough to avoid the panics of `strings.Repeat` and `make`. Integer overflow of `NumRecurs+1` is not modelled.
- History, `cd -`, `parent NAME`, the `--up` flag and `%q` quoting appear only in the later test file, and `cd.go` has no code for them. They are not modelled.
