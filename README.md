# Mirror table of the glide dependency manager

This project models the mirror table of glide (`mirrors/mirrors.go`) and
proves properties about it. The table maps an original repository URL to a
replacement repository and its VCS kind. Two operations use it:

- `Get(k)` looks up `k` as an exact key. If `k` is not a key, it tries a fixed
  if/else chain of four built-in rules. Each rule sends a well-known Go host
  to its GitHub home and reports the VCS as `git`. If no rule applies, the
  result is "not found", `(false, "", "")`.
- `Load()` reads `mirrors.yaml` from the home directory and stores each
  record in the table, in file order. A later record overwrites an earlier
  one with the same original URL.

Files:

- `go_strings.dfy` (module `GoStrings`) models the three Go library string
  functions that `Get` uses: `strings.HasPrefix`, `strings.Index` and
  `strings.Replace` with a count of 1. `Index` is proved to return the first
  occurrence. A lemma states exactly what the replacement produces when the
  URL begins with a scheme followed by the fragment.
- `mirrors.dfy` (module `Mirrors`) holds the data model, `Get` and the
  lemmas about it. It also holds the `MirrorTable` class, whose `mirrors`
  field is the package-level map and whose `Load` method is the merge loop.

`Get` is a pure function. It takes the table as a map argument instead of
reading the package-level variable. Because it is a function, it cannot
modify the table, and the fallback entry it builds is never stored. `Get`
chooses the rule through the `BuiltInRule` chain and then does a single
`ReplaceFirst`. These are the same four tests in the same order as the
source's if/else chain.

`Load` is a method on `MirrorTable`. It takes the outcome of the filesystem
work as a parameter of type `MirrorsFile`, with four cases:

- `NotExist`: the file is absent.
- `StatFailed`: `Stat` failed for another reason.
- `ReadFailed`: reading or parsing the file failed.
- `Parsed`: the records, in the order `ReadMirrorsFile` returns them.

Its loop is proved against the specification function `Merged`. The
"last write wins" property is proved about `Merged` against an independent
definition, `LastIndexOf`.

The general design of the system describes longest-prefix matching over a
table of prefix entries, and says that rewriting a URL twice changes nothing.
The code does neither. Lookup is exact-key. The built-in rules are a fixed
chain, consulted only when the exact key is absent. A URL produced by a
built-in rule is a `https://github.com/` URL, which no rule matches, so
looking it up again gives "not found" unless the table holds it. The model
follows the code: `GetRewrittenNotFound` and `RewriteExample` state this
behaviour.

## Model

| member | source | states |
|---|---|---|
| `Mirrors.Get` | mirrors/mirrors.go:29-55 | `Get` finds a mirror exactly when `k` is a key of the table or has one of the four built-in prefixes. Otherwise the result is `(false, "", "")`. |
| `Mirrors.BuiltInRule` | mirrors/mirrors.go:33-51 | a built-in rule applies exactly when `k` has one of the four prefixes |
| `Mirrors.GetStoredEntry` | mirrors/mirrors.go:30-31 | a key of the table yields `(true, Repo, Vcs)` of its stored entry, whatever its prefix, so loaded entries take precedence over the built-in rules |
| `Mirrors.GetUnknown` | mirrors/mirrors.go:49-50 | a URL that is not a key and has no built-in prefix yields `(false, "", "")` |
| `Mirrors.BuiltInRuleShape` | mirrors/mirrors.go:33-48 | every applicable rule's fragment follows `https://` at the start of the URL and begins with `g`. Every replacement names a path on `github.com`. |
| `Mirrors.GetBuiltIn` | mirrors/mirrors.go:32-48 | for a URL that is not a key, the applicable rule keeps the scheme, turns the fragment into the replacement, keeps the rest of the URL and reports `git` |
| `Mirrors.GetGolangX` | mirrors/mirrors.go:33-36 | a URL starting with `https://golang.org/x` yields `(true, "https://github.com/golang" + k[20..], "git")` |
| `Mirrors.GetGrpc` | mirrors/mirrors.go:37-40 | a URL starting with `https://google.golang.org/grpc` yields `(true, "https://github.com/grpc/grpc-go" + k[30..], "git")` |
| `Mirrors.GetGenproto` | mirrors/mirrors.go:41-44 | a URL starting with `https://google.golang.org/genproto` yields `(true, "https://github.com/google/go-genproto" + k[34..], "git")` |
| `Mirrors.GetApi` | mirrors/mirrors.go:45-48 | a URL starting with `https://google.golang.org/api` yields `(true, "https://github.com/googleapis/google-api-go-client" + k[29..], "git")` |
| `Mirrors.GetBuiltInIsGitHub` | mirrors/mirrors.go:33-48 | every result found through a built-in rule has VCS `git` and a repository beginning with `https://github.com/` |
| `Mirrors.GitHubMatchesNoBuiltIn` | mirrors/mirrors.go:33-49 | no `https://github.com/` URL has any of the four built-in prefixes |
| `Mirrors.GetRewrittenNotFound` | mirrors/mirrors.go:29-55 | looking up the result of a built-in rewrite, when the table does not hold it, yields "not found", so rewriting is not idempotent |
| `Mirrors.RewriteExample` | mirrors/mirrors.go:33-36 | `https://golang.org/x/tools` becomes `https://github.com/golang/tools` with `git`. Looking that URL up in an empty table gives "not found". |
| `GoStrings.Index` | mirrors/mirrors.go:35 | the result is -1 exactly when the fragment does not occur. Otherwise it is the position of the first occurrence. |
| `GoStrings.ReplaceFirstAbsent` | mirrors/mirrors.go:35 | replacing a fragment that does not occur leaves the string unchanged |
| `GoStrings.ReplaceFirstAfterLead` | mirrors/mirrors.go:35 | if the string begins with `lead + fragment` and no character of `lead` can start the fragment, the occurrence right after `lead` is the one replaced |
| `Mirrors.LastIndexOf` | mirrors/mirrors.go:84-91 | the position of the last record with a given original URL: no later record has that URL, and `None` means no record has it |
| `Mirrors.MergedLastWins` | mirrors/mirrors.go:84-91 | after the merge, each original URL maps to the entry of its last record. Every other key keeps its old entry, and no other key is added or removed. |
| `Mirrors.MergedConcat` | mirrors/mirrors.go:84-91 | merging one batch and then another equals merging their concatenation, because the map is never cleared |
| `Mirrors.GetAfterMerge` | mirrors/mirrors.go:84-91 | after the merge, looking up a record's original URL yields the repository and VCS of its last record, even when a built-in rule also applies |
| `Mirrors.MirrorTable.constructor` | mirrors/mirrors.go:17-19 | the table starts empty |
| `Mirrors.MirrorTable.Load` | mirrors/mirrors.go:58-94 | a missing file returns no error and leaves the table unchanged. A failing `Stat` returns its error unchanged. A failing read returns `Error reading existing mirrors.yaml file: ` followed by the cause. Both failures leave the table unchanged. Otherwise the new table is the old one with the records merged in file order. |

## Left out

- `action/name.go`: it only loads the configuration and prints the package name. It is I/O with no logic.
- The filesystem work of `Load`: `gpath.Home`, `filepath.Join`, `os.Stat`, `ReadMirrorsFile` and the YAML parsing. Their outcome is the `MirrorsFile` parameter. The file that defines `ReadMirrorsFile` and the `Mirrors`/`MirrorRepos` types is not part of this model. `MirrorRepo` stands for one parsed record.
- `msg.Debug` and `msg.Info` logging: these are output only and do not affect any result.
- `vcs.Git` from the vcs library is the string `"git"`.
- The package-level variable: `Get` reads the table as an argument rather than the package-level variable. Go's pointer values in the map are modelled as values: `Load` stores a freshly allocated entry per record, so aliasing between entries cannot arise.
- Other replacement counts: `ReplaceFirst` models only `strings.Replace` with a count of 1, the only count the source uses. Go strings are byte sequences, while the model uses sequences of characters. The two agree because every fragment searched for is ASCII.
- Dead code: the assignments to `ov` on the two early-return paths are not modelled, since they have no effect.
