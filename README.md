# filediscovery, modelled in Dafny

`filediscovery` is a Go library that finds a named configuration file. It holds
an ordered list of *location providers*. Each provider maps the file name to a
candidate path, and may also report an error. `Discover(fileName)` works in
two steps:

- It asks every provider, in order. Each provider error goes into a diagnostic
  buffer, followed by a newline. Each provider's path goes into the candidate
  list, even when that provider failed.
- It then probes the candidates in order:
  - A missing candidate adds `could not find config file at '<path>'` and a
    newline to the buffer.
  - A directory, or a path whose stat fails for another reason, is skipped
    without a line.
  - The first candidate that exists and is not a directory is returned, with a
    nil error. Below, such a candidate is called a *non-directory*: a regular
    file, but also a device, a pipe or a symbolic link's target.
  - When no candidate matches, the result is `""` and an error whose text is
    the whole buffer.

The four stock providers are:

- **working directory**: the working directory, joined with optional
  sub-folders and the file name;
- **executable directory**: the executable's directory, joined the same way;
- **environment variable**: a variable whose value is the complete path;
- **home configuration directory**: the user's home directory, joined the same
  way.

The model has four modules:

- `Wrappers` (`wrappers.dfy`): `Option` (`None` is Go's nil) and `Result`
  (a lookup that succeeds or fails with a message).
- `Discovery` (`discovery.dfy`) models `filediscovery/discovery.go`:
  - The engine is the class `FileDiscovery`. Its providers are fixed by the
    constructor `New`.
  - `Discover` is an imperative method with the source's two loops, its
    candidate list and its string buffer.
  - `Discover` is proved equal to a functional specification, `Discovered`.
    `Discovered` is the recursive candidate walk `Search`, applied to the
    `Candidates` of the providers and to their `ProviderErrors`.
  - Lemmas describe `Discovered` independently: first match, failure message,
    silent skips, and the effect of each provider and each candidate.
  - The filesystem is a read-only snapshot, `map<string, Kind>`. A `Kind` is
    `File`, `Dir`, `Missing` or `OtherStatError`.
  - A path that is not a key is missing. So is the empty path, because
    `os.Stat("")` reports "no such file". Both stat calls of the source read
    the same snapshot.
- `Providers` (`providers.dfy`) models `providers.go`:
  - Each provider is a function that returns a closure over its configuration.
  - The OS lookups are parameters: `os.Getwd`, `os.Executable`, `os.LookupEnv`
    and `user.Current`.
  - Go's `path.Join` is a parameter `join: seq<string> -> string`, and
    `filepath.Dir` is a parameter `dirOf`.
  - `createPath` is the imperative method `CreatePath`. It is proved equal to
    the left fold `JoinFrom`.
- `Scenarios` (`scenarios.dfy`) holds concrete runs, each stated with its exact
  result. `BothEmptyMissing` is the unit test for two providers that both
  answer `""`. `WorkingDirFileFoundFirst` and `EnvVarFileFoundLast` are cases
  of the integration test. The other scenarios illustrate single branches of
  the candidate loop.

When the environment-variable provider is the only provider and its variable
is unset, the code reports two lines, not one: `env var 'X' not defined\n`,
then `could not find config file at ''\n`. The provider still contributes the
empty path, and stat reports that path as not existing
(`Scenarios.EnvVarUnsetReportsBoth`).

## Model

| member | source | states |
|---|---|---|
| `Discovery.FileDiscovery.New` | filediscovery/discovery.go:30-34 | the engine keeps exactly the provider list it was given, in order |
| `Discovery.FileDiscovery.Discover` | filediscovery/discovery.go:39-67 | the result equals `Discovered(providers, fs, fileName)`: the candidates and the provider part of the message come from `providers[j](fileName)` for every `j`, in order, and the lemmas below characterise that result |
| `Discovery.Stat` | filediscovery/discovery.go:56-61 | definition: the stat outcome of a path in the snapshot; the empty path and any path not in the snapshot do not exist |
| `Discovery.ErrorLine` | filediscovery/discovery.go:47-50 | a provider leaves text in the buffer exactly when it reports an error, even an error with an empty message |
| `Discovery.NotFoundLine` | filediscovery/discovery.go:57 | definition: the not-found line for one candidate |
| `Discovery.ProviderErrors` | filediscovery/discovery.go:45-50 | definition: each provider's error line, in provider order |
| `Discovery.Search` | filediscovery/discovery.go:55-66 | definition: the candidate loop over a buffer; not-exist adds a line, a non-directory returns, anything else is skipped |
| `Discovery.Candidates` | filediscovery/discovery.go:45-53 | exactly one candidate per provider, in provider order; candidate `i` is provider `i`'s path, even when that provider also failed |
| `Discovery.ProviderErrorsAppend` | filediscovery/discovery.go:45-50 | the provider diagnostics of two provider lists in a row are the first list's, then the second's |
| `Discovery.ProviderErrorsAt` | filediscovery/discovery.go:47-50 | a failing provider adds exactly its message and `"\n"`; a succeeding one adds nothing; in both cases between the text of the providers before it and after it |
| `Discovery.NoProviderErrors` | filediscovery/discovery.go:45-50 | when no provider fails, the provider part of the buffer is empty |
| `Discovery.NotFoundLinesAppend` | filediscovery/discovery.go:55-59 | the not-found lines of two candidate lists in a row are the first list's, then the second's |
| `Discovery.NotFoundLinesAt` | filediscovery/discovery.go:56-58 | a missing candidate adds exactly `could not find config file at '<path>'\n`; any other candidate adds nothing; in candidate order |
| `Discovery.SearchFindsFirstFile` | filediscovery/discovery.go:55-63 | when candidate `k` is the first non-directory, the walk returns it with a nil error; the buffer collected so far is dropped |
| `Discovery.SearchWithoutFile` | filediscovery/discovery.go:55-66 | when no candidate is a non-directory, the walk returns `""` and a message made of the buffer followed by the not-found lines |
| `Discovery.DiscoveredOutcome` | filediscovery/discovery.go:39-67 | discovery succeeds exactly when some candidate is a non-directory; it then returns the first such candidate; otherwise `""` with the provider errors, then the not-found lines |
| `Discovery.DiscoveredPathMatchesError` | filediscovery/discovery.go:61-66 | a nil error comes only with a candidate that is a non-directory; a non-nil error comes only with `""` |
| `Discovery.LaterProvidersIgnored` | filediscovery/discovery.go:61-63 | once provider `k` gives the first non-directory, replacing every later provider with any others leaves the result unchanged |
| `Discovery.SkippedCandidateIsSilent` | filediscovery/discovery.go:56-63 | a directory, or a path whose stat fails with another error, changes neither the result nor the not-found lines |
| `Discovery.NoProvidersFailsEmpty` | filediscovery/discovery.go:43-66 | with no providers, discovery returns `""` and an error with the empty message |
| `Providers.JoinFrom` | providers.go:79-86 | definition: the left fold of `path.Join` over the sub-folders, from an accumulator |
| `Providers.InDirectory` | providers.go:22-24 | definition: `path.Join(base, createPath(subFolders...), fileName)`, the success path of the three directory providers |
| `Providers.EnvVarNotDefined` | providers.go:58 | definition: the error message for an unset variable |
| `Providers.CreatePath` | providers.go:79-86 | the sub-folder path is the left fold `Join(…Join(Join("", s1), s2)…, sn)` |
| `Providers.CreatePathEmpty` | providers.go:79-86 | with no sub-folders, createPath gives `""`, whatever `path.Join` does |
| `Providers.JoinFromSnoc` | providers.go:81-83 | the last sub-folder is joined last, onto the fold of the ones before it, so order is kept |
| `Providers.CreatePathIsFlatJoin` | providers.go:79-86 | for a join that obeys the join laws, createPath equals one join of all sub-folders |
| `Providers.InDirectoryIsFlatJoin` | providers.go:73-75 | for a join that obeys the join laws, a directory provider's path is one join of base, sub-folders in order, then the file name as last segment |
| `Providers.SlashJoinHasJoinLaws` | providers.go:82 | a slash join that drops empty segments obeys the join laws, so the laws can hold |
| `Providers.WorkingDirProvider` | providers.go:14-26 | a failed working-directory lookup gives `""` and that same error; otherwise `Join(dir, createPath(subFolders), fileName)` with no error |
| `Providers.ExecutableDirProvider` | providers.go:31-44 | a failed executable lookup gives `""` and that same error; otherwise the join starts from the executable's directory, not its path |
| `Providers.EnvVarFilePathProvider` | providers.go:51-60 | a set variable gives its value verbatim with no error; an unset one gives `""` and `env var '<name>' not defined`; the file name never matters |
| `Providers.HomeConfigDirProvider` | providers.go:65-77 | a failed user lookup gives `""` and that same error; otherwise the join starts from the user's home directory |
| `Scenarios.EnvVarUnsetReportsBoth` | filediscovery/discovery.go:45-66 | an unset variable as the only provider gives `""` and `env var 'X' not defined\n` followed by `could not find config file at ''\n` |
| `Scenarios.MissingThenFound` | filediscovery/discovery.go:55-63 | a missing first candidate, then a non-directory: the file is returned with a nil error |
| `Scenarios.BothEmptyMissing` | discovery_test.go:102-122 | two providers answering `""` give `""` and the line `could not find config file at ''` twice |
| `Scenarios.BothMissing` | filediscovery/discovery.go:55-59 | two missing candidates give `""` and two not-found lines, in provider order |
| `Scenarios.DirectorySkipped` | filediscovery/discovery.go:56-63 | a directory candidate is passed over and the non-directory after it is returned |
| `Scenarios.WorkingDirFileFoundFirst` | discovery_integration_test.go:55-62 | with the working-directory, executable-directory and environment-variable providers, a file in the working directory is returned |
| `Scenarios.EnvVarFileFoundLast` | discovery_integration_test.go:71-85 | with the same providers and both directory candidates missing, the variable's path is returned |

## Left out

- Operating-system I/O is not modelled. This covers `os.Stat`, `os.Getwd`,
  `os.Executable`, `os.LookupEnv` and `user.Current`. The filesystem is a
  snapshot passed to `Discover`; the lookups are parameters of the providers.
- Both stat calls of a candidate read the same snapshot, so the model has no
  race between them.
- The internals of `path.Join`, `path.Clean` and `filepath.Dir` are not
  modelled. They are parameters.
- The package-level function variables that the tests overwrite are replaced by
  those parameters.
- The lookups are total functions, so a provider answers the same on every
  call. A working directory that changes between calls is not modelled.
- Go errors are modelled by their message (`Option<string>`). "The same error"
  is stated as the same message, not as the same error value.
- Repeating `Discover` gives the same result. No separate member states this:
  it follows from `Discover`'s postcondition, which makes the result a function
  of the providers and the snapshot.
- Providers are pure functions. How often, and in which order, a provider with
  side effects is called is not modelled, though the mock in the unit tests
  watches for that. What is stated is that the result is built from each
  provider's answer to the requested file name, in provider order.
- The `FileDiscoverer` interface and the reflection check in the tests are not
  modelled.
- `Providers.CreatePathIsFlatJoin`: holds only for a join that obeys the join
  laws. Go's `path.Join` does not obey them for every input: a segment `/..`
  after `x` cleans differently when joined separately. The fold form
  (`CreatePath`, `JoinFromSnoc`) holds for any join.
- `Providers.InDirectoryIsFlatJoin`: depends on the same join laws, for the
  same reason.
