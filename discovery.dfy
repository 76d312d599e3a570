/**
  The discovery engine of filediscovery/discovery.go.

  An engine holds an ordered list of location providers. `Discover` asks every
  provider for a candidate path, then probes the candidates in order and returns
  the first one that exists as a non-directory. On failure it returns the empty
  path and an error whose text is every provider error followed by one
  "could not find" line per missing candidate.

  The filesystem is a read-only snapshot passed to `Discover`; both stat calls
  of the source read the same snapshot.
 */
module Discovery {
  import opened Wrappers

  /**
    What a stat of one path reports: `File` is any path that exists and is not
    a directory (a regular file, but also a device, a pipe or a symbolic link's
    target); `Missing` is a not-exist error; `OtherStatError` is any other error.
   */
  datatype Kind = File | Dir | Missing | OtherStatError

  /** A snapshot of the filesystem; a path that is not a key does not exist. */
  type FileSystem = map<string, Kind>

  /** Go's `(string, error)` pair: a path and a nil (`None`) or non-nil error message. */
  datatype PathResult = PathResult(path: string, err: Option<string>)

  /** A location provider: from the requested file name to a candidate path, possibly with an error. */
  type Provider = string -> PathResult

  /** os.Stat on the snapshot. The empty path never names anything. */
  function Stat(fs: FileSystem, p: string): Kind
  {
    if p != "" && p in fs then fs[p] else Missing
  }

  /** The diagnostic text one provider contributes: its message and a newline, or nothing. */
  function ErrorLine(err: Option<string>): (line: string)
    ensures line == "" <==> err == None
  {
    match err
    case None => ""
    case Some(msg) => msg + "\n"
  }

  /** The diagnostic line for a candidate that does not exist. */
  function NotFoundLine(p: string): string
  {
    "could not find config file at '" + p + "'\n"
  }

  /** The candidate list: the path of each provider's answer, in provider order. */
  function Candidates(ps: seq<Provider>, name: string): (cs: seq<string>)
    ensures |cs| == |ps|
    ensures forall i :: 0 <= i < |ps| ==> cs[i] == ps[i](name).path
  {
    if ps == [] then [] else Candidates(ps[..|ps| - 1], name) + [ps[|ps| - 1](name).path]
  }

  /** The diagnostic text of the provider loop: each failing provider's line, in provider order. */
  function ProviderErrors(ps: seq<Provider>, name: string): string
  {
    if ps == [] then "" else ProviderErrors(ps[..|ps| - 1], name) + ErrorLine(ps[|ps| - 1](name).err)
  }

  /** The not-found line of a candidate that is missing, and nothing for any other candidate. */
  function MissingLine(fs: FileSystem, p: string): string
  {
    if Stat(fs, p) == Missing then NotFoundLine(p) else ""
  }

  /** The not-found lines of all missing candidates, in candidate order. */
  function NotFoundLines(fs: FileSystem, cands: seq<string>): string
  {
    if cands == [] then "" else MissingLine(fs, cands[0]) + NotFoundLines(fs, cands[1..])
  }

  /** Some candidate exists as a non-directory. */
  predicate HasFile(fs: FileSystem, cands: seq<string>)
  {
    exists k :: 0 <= k < |cands| && Stat(fs, cands[k]) == File
  }

  /** Position `k` holds the first candidate that exists as a non-directory. */
  predicate IsFirstFile(fs: FileSystem, cands: seq<string>, k: int)
  {
    && 0 <= k < |cands|
    && Stat(fs, cands[k]) == File
    && forall j :: 0 <= j < k ==> Stat(fs, cands[j]) != File
  }

  /** No candidate before position `j` exists as a non-directory. */
  ghost predicate NoFileBefore(fs: FileSystem, cands: seq<string>, j: int)
  {
    forall m :: 0 <= m < j && m < |cands| ==> Stat(fs, cands[m]) != File
  }

  /** A candidate whose stat is not `File` extends the `File`-free prefix. */
  lemma NoFileStep(fs: FileSystem, cands: seq<string>, j: nat)
    requires j < |cands| && NoFileBefore(fs, cands, j) && Stat(fs, cands[j]) != File
    ensures NoFileBefore(fs, cands, j + 1)
  {
  }

  /**
    The candidate loop: a missing candidate adds its line and moves on, one
    that exists and is not a directory ends the search, anything else is skipped without a line.
   */
  function Search(fs: FileSystem, cands: seq<string>, buffer: string): PathResult
  {
    if cands == [] then PathResult("", Some(buffer))
    else if Stat(fs, cands[0]) == Missing then Search(fs, cands[1..], buffer + NotFoundLine(cands[0]))
    else if Stat(fs, cands[0]) == File then PathResult(cands[0], None)
    else Search(fs, cands[1..], buffer)
  }

  /** What `Discover(name)` returns for providers `ps` on filesystem `fs`. */
  function Discovered(ps: seq<Provider>, fs: FileSystem, name: string): PathResult
  {
    Search(fs, Candidates(ps, name), ProviderErrors(ps, name))
  }

  /** Regrouping appended text does not change it. */
  lemma AppendAssociative(a: string, b: string, c: string)
    ensures (a + b) + c == a + (b + c)
  {
  }

  /** Appending no text changes nothing. */
  lemma AppendEmpty(a: string)
    ensures a + "" == a
  {
  }

  /** Text after an empty buffer is the whole text. */
  lemma PrependEmpty(a: string)
    ensures "" + a == a
  {
  }

  /** The provider diagnostics of a concatenation are the diagnostics of each part, in order. */
  lemma {:induction false} ProviderErrorsAppend(ps: seq<Provider>, qs: seq<Provider>, name: string)
    ensures ProviderErrors(ps + qs, name) == ProviderErrors(ps, name) + ProviderErrors(qs, name)
  {
    if qs == [] {
      assert ps + qs == ps;
      AppendEmpty(ProviderErrors(ps, name));
    } else {
      var front, last := qs[..|qs| - 1], qs[|qs| - 1];
      assert (ps + qs)[..|ps + qs| - 1] == ps + front;
      assert (ps + qs)[|ps + qs| - 1] == last;
      ProviderErrorsAppend(ps, front, name);
      AppendAssociative(ProviderErrors(ps, name), ProviderErrors(front, name), ErrorLine(last(name).err));
    }
  }

  /**
    Provider `i` contributes exactly its message and a newline when it fails,
    and nothing when it succeeds, between the lines of the providers before
    and after it.
   */
  lemma ProviderErrorsAt(ps: seq<Provider>, i: nat, name: string)
    requires i < |ps|
    ensures ProviderErrors(ps, name)
         == ProviderErrors(ps[..i], name) + ErrorLine(ps[i](name).err) + ProviderErrors(ps[i + 1..], name)
  {
    assert ps == ps[..i] + [ps[i]] + ps[i + 1..];
    ProviderErrorsAppend(ps[..i] + [ps[i]], ps[i + 1..], name);
    ProviderErrorsAppend(ps[..i], [ps[i]], name);
    assert [ps[i]][..0] == [];
  }

  /** Providers that all succeed leave the diagnostic buffer empty. */
  lemma {:induction false} NoProviderErrors(ps: seq<Provider>, name: string)
    requires forall i :: 0 <= i < |ps| ==> ps[i](name).err == None
    ensures ProviderErrors(ps, name) == ""
  {
    if ps != [] {
      NoProviderErrors(ps[..|ps| - 1], name);
    }
  }

  /** The not-found lines of a concatenation are the lines of each part, in order. */
  lemma {:induction false} NotFoundLinesAppend(fs: FileSystem, a: seq<string>, b: seq<string>)
    ensures NotFoundLines(fs, a + b) == NotFoundLines(fs, a) + NotFoundLines(fs, b)
  {
    if a == [] {
      assert a + b == b;
      PrependEmpty(NotFoundLines(fs, b));
    } else {
      assert (a + b)[0] == a[0];
      assert (a + b)[1..] == a[1..] + b;
      NotFoundLinesAppend(fs, a[1..], b);
      AppendAssociative(MissingLine(fs, a[0]), NotFoundLines(fs, a[1..]), NotFoundLines(fs, b));
    }
  }

  /**
    Candidate `i` contributes exactly `could not find config file at '<path>'`
    and a newline when it is missing, and nothing otherwise, between the lines
    of the candidates before and after it.
   */
  lemma NotFoundLinesAt(fs: FileSystem, cands: seq<string>, i: nat)
    requires i < |cands|
    ensures NotFoundLines(fs, cands)
         == NotFoundLines(fs, cands[..i]) + MissingLine(fs, cands[i]) + NotFoundLines(fs, cands[i + 1..])
  {
    assert cands == cands[..i] + [cands[i]] + cands[i + 1..];
    NotFoundLinesAppend(fs, cands[..i] + [cands[i]], cands[i + 1..]);
    NotFoundLinesAppend(fs, cands[..i], [cands[i]]);
    assert [cands[i]][1..] == [];
  }

  /** The search returns the first non-directory, with no error, whatever it had recorded. */
  lemma {:induction false} SearchFindsFirstFile(fs: FileSystem, cands: seq<string>, buffer: string, k: nat)
    requires IsFirstFile(fs, cands, k)
    ensures Search(fs, cands, buffer) == PathResult(cands[k], None)
  {
    if k > 0 {
      assert Stat(fs, cands[0]) != File;
      assert IsFirstFile(fs, cands[1..], k - 1) by {
        forall j | 0 <= j < k - 1
          ensures Stat(fs, cands[1..][j]) != File
        {
          assert cands[1..][j] == cands[j + 1];
        }
      }
      if Stat(fs, cands[0]) == Missing {
        SearchFindsFirstFile(fs, cands[1..], buffer + NotFoundLine(cands[0]), k - 1);
      } else {
        SearchFindsFirstFile(fs, cands[1..], buffer, k - 1);
      }
    }
  }

  /**
    Without a non-directory among the candidates the search fails with the empty
    path, and its message is the buffer followed by the not-found lines.
   */
  lemma {:induction false} SearchWithoutFile(fs: FileSystem, cands: seq<string>, buffer: string)
    requires !HasFile(fs, cands)
    ensures Search(fs, cands, buffer) == PathResult("", Some(buffer + NotFoundLines(fs, cands)))
  {
    if cands == [] {
      assert buffer + NotFoundLines(fs, cands) == buffer;
    } else {
      assert Stat(fs, cands[0]) != File;
      assert !HasFile(fs, cands[1..]) by {
        forall j | 0 <= j < |cands| - 1
          ensures Stat(fs, cands[1..][j]) != File
        {
          assert cands[1..][j] == cands[j + 1];
        }
      }
      var next := buffer + MissingLine(fs, cands[0]);
      assert Search(fs, cands, buffer) == Search(fs, cands[1..], next) by {
        if Stat(fs, cands[0]) != Missing {
          assert next == buffer;
        }
      }
      SearchWithoutFile(fs, cands[1..], next);
      AppendAssociative(buffer, MissingLine(fs, cands[0]), NotFoundLines(fs, cands[1..]));
    }
  }

  /** If some candidate is a non-directory, one of them is the first. */
  lemma {:induction false} FirstFileExists(fs: FileSystem, cands: seq<string>) returns (k: nat)
    requires HasFile(fs, cands)
    ensures IsFirstFile(fs, cands, k)
  {
    if Stat(fs, cands[0]) == File {
      k := 0;
    } else {
      assert HasFile(fs, cands[1..]) by {
        var m :| 0 <= m < |cands| && Stat(fs, cands[m]) == File;
        assert cands[1..][m - 1] == cands[m];
      }
      var k' := FirstFileExists(fs, cands[1..]);
      k := k' + 1;
      assert cands[k] == cands[1..][k'];
      forall j | 0 <= j < k
        ensures Stat(fs, cands[j]) != File
      {
        if j > 0 {
          assert cands[j] == cands[1..][j - 1];
        }
      }
    }
  }

  /**
    The outcome of discovery: it succeeds exactly when some candidate exists as a
    non-directory; then it returns the first such candidate and no error;
    otherwise it returns the empty path and the provider errors followed by the
    not-found lines.
   */
  lemma DiscoveredOutcome(ps: seq<Provider>, fs: FileSystem, name: string)
    ensures var r := Discovered(ps, fs, name);
      r.err == None <==> HasFile(fs, Candidates(ps, name))
    ensures forall k :: IsFirstFile(fs, Candidates(ps, name), k) ==>
      Discovered(ps, fs, name) == PathResult(Candidates(ps, name)[k], None)
    ensures !HasFile(fs, Candidates(ps, name)) ==>
      Discovered(ps, fs, name)
        == PathResult("", Some(ProviderErrors(ps, name) + NotFoundLines(fs, Candidates(ps, name))))
  {
    var cs := Candidates(ps, name);
    forall k | IsFirstFile(fs, cs, k)
      ensures Discovered(ps, fs, name) == PathResult(cs[k], None)
    {
      SearchFindsFirstFile(fs, cs, ProviderErrors(ps, name), k);
    }
    if HasFile(fs, cs) {
      var k := FirstFileExists(fs, cs);
    } else {
      SearchWithoutFile(fs, cs, ProviderErrors(ps, name));
    }
  }

  /**
    A nil error comes only with a candidate that is a non-directory; a non-nil
    error comes only with the empty path.
   */
  lemma DiscoveredPathMatchesError(ps: seq<Provider>, fs: FileSystem, name: string)
    ensures var r := Discovered(ps, fs, name);
      r.err == None ==> r.path in Candidates(ps, name) && Stat(fs, r.path) == File
    ensures var r := Discovered(ps, fs, name);
      r.err != None ==> r.path == ""
  {
    var cs := Candidates(ps, name);
    if HasFile(fs, cs) {
      var k := FirstFileExists(fs, cs);
      SearchFindsFirstFile(fs, cs, ProviderErrors(ps, name), k);
    } else {
      SearchWithoutFile(fs, cs, ProviderErrors(ps, name));
    }
  }

  /**
    First match wins: once provider `k` yields the first non-directory, the
    providers after it can be replaced by any others without changing the result.
   */
  lemma LaterProvidersIgnored(ps: seq<Provider>, qs: seq<Provider>, fs: FileSystem, name: string, k: nat)
    requires IsFirstFile(fs, Candidates(ps, name), k)
    ensures Discovered(ps[..k + 1] + qs, fs, name) == Discovered(ps, fs, name)
  {
    var cs := Candidates(ps, name);
    var cs' := Candidates(ps[..k + 1] + qs, name);
    assert forall j :: 0 <= j <= k ==> cs'[j] == cs[j];
    assert IsFirstFile(fs, cs', k);
    SearchFindsFirstFile(fs, cs, ProviderErrors(ps, name), k);
    SearchFindsFirstFile(fs, cs', ProviderErrors(ps[..k + 1] + qs, name), k);
  }

  /** A directory, or a path whose stat fails otherwise, is passed over without a diagnostic line. */
  lemma SkippedCandidateIsSilent(fs: FileSystem, p: string, rest: seq<string>, buffer: string)
    requires Stat(fs, p) == Dir || Stat(fs, p) == OtherStatError
    ensures Search(fs, [p] + rest, buffer) == Search(fs, rest, buffer)
    ensures NotFoundLines(fs, [p] + rest) == NotFoundLines(fs, rest)
  {
    assert ([p] + rest)[1..] == rest;
  }

  /** One more provider adds its path to the candidates and its line to the diagnostics. */
  lemma ProviderStep(ps: seq<Provider>, i: nat, name: string)
    requires i < |ps|
    ensures Candidates(ps[..i + 1], name) == Candidates(ps[..i], name) + [ps[i](name).path]
    ensures ProviderErrors(ps[..i + 1], name) == ProviderErrors(ps[..i], name) + ErrorLine(ps[i](name).err)
  {
    assert ps[..i + 1][..i] == ps[..i];
  }

  /** Examining one more candidate appends its not-found line if, and only if, it is missing. */
  lemma CandidateStep(fs: FileSystem, cands: seq<string>, head: string, buffer: string, j: nat)
    requires j < |cands|
    requires buffer == head + NotFoundLines(fs, cands[..j])
    ensures Stat(fs, cands[j]) == Missing ==>
      buffer + NotFoundLine(cands[j]) == head + NotFoundLines(fs, cands[..j + 1])
    ensures Stat(fs, cands[j]) != Missing ==>
      buffer == head + NotFoundLines(fs, cands[..j + 1])
  {
    var c, before := cands[j], NotFoundLines(fs, cands[..j]);
    assert cands[..j + 1] == cands[..j] + [c];
    NotFoundLinesAppend(fs, cands[..j], [c]);
    assert [c][1..] == [];
    AppendEmpty(MissingLine(fs, c));
    if Stat(fs, c) == Missing {
      AppendAssociative(head, before, NotFoundLine(c));
    } else {
      AppendEmpty(before);
    }
  }

  /** An engine without providers always fails, with an empty message. */
  lemma NoProvidersFailsEmpty(fs: FileSystem, name: string)
    ensures Discovered([], fs, name) == PathResult("", Some(""))
  {
  }

  /** The engine: an ordered list of providers, fixed at construction. */
  class FileDiscovery {
    const providers: seq<Provider>

    /** Stores the providers unchanged. */
    constructor New(providers: seq<Provider>)
      ensures this.providers == providers
    {
      this.providers := providers;
    }

    /**
      Runs every provider with `fileName`, then returns the first candidate
      that exists as a non-directory, or the empty path and the diagnostics.
     */
    method Discover(fs: FileSystem, fileName: string) returns (path: string, err: Option<string>)
      ensures PathResult(path, err) == Discovered(providers, fs, fileName)
    {
      var possibleConfigFilePaths: seq<string> := [];
      var errorString := "";

      for i := 0 to |providers|
        invariant possibleConfigFilePaths == Candidates(providers[..i], fileName)
        invariant errorString == ProviderErrors(providers[..i], fileName)
      {
        var located := providers[i](fileName);
        ProviderStep(providers, i, fileName);
        if located.err.Some? {
          AppendAssociative(errorString, located.err.value, "\n");
          errorString := errorString + located.err.value + "\n";
        }
        possibleConfigFilePaths := possibleConfigFilePaths + [located.path];
      }
      assert providers[..|providers|] == providers;

      ghost var providerErrors := errorString;
      assert possibleConfigFilePaths[..0] == [];
      AppendEmpty(providerErrors);
      for j := 0 to |possibleConfigFilePaths|
        invariant errorString == providerErrors + NotFoundLines(fs, possibleConfigFilePaths[..j])
        invariant NoFileBefore(fs, possibleConfigFilePaths, j)
      {
        var configFilePath := possibleConfigFilePaths[j];
        CandidateStep(fs, possibleConfigFilePaths, providerErrors, errorString, j);
        if Stat(fs, configFilePath) == Missing {
          NoFileStep(fs, possibleConfigFilePaths, j);
          errorString := errorString + NotFoundLine(configFilePath);
          continue;
        }
        if Stat(fs, configFilePath) == File {
          assert IsFirstFile(fs, possibleConfigFilePaths, j);
          SearchFindsFirstFile(fs, possibleConfigFilePaths, providerErrors, j);
          return configFilePath, None;
        }
        NoFileStep(fs, possibleConfigFilePaths, j);
      }
      assert possibleConfigFilePaths[..|possibleConfigFilePaths|] == possibleConfigFilePaths;
      assert !HasFile(fs, possibleConfigFilePaths);
      SearchWithoutFile(fs, possibleConfigFilePaths, providerErrors);
      return "", Some(errorString);
    }
  }
}
