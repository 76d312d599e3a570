/**
  The stock location providers of providers.go.

  Each provider is a closure over its configuration (sub-folders or an
  environment variable name) and over the operating-system lookup it needs;
  the lookups, Go's `path.Join` and `filepath.Dir` are parameters, so that a
  provider is a plain function from the requested file name to a path and an
  optional error.
 */
module Providers {
  import opened Wrappers
  import opened Discovery

  /** Go's variadic `path.Join`; how it cleans the joined path is not modelled. */
  type Joiner = seq<string> -> string

  /** The part of the current user that the home-directory provider reads. */
  datatype User = User(homeDir: string)

  /**
    `path.Join` laws the flat-join lemmas rely on: joining nothing gives the
    empty path, and a joined group of segments may be spliced into an outer join.
   */
  ghost predicate JoinLaws(join: Joiner)
  {
    && join([]) == ""
    && forall xs: seq<string>, ys: seq<string>, zs: seq<string> :: join(xs + [join(ys)] + zs) == join(xs + ys + zs)
  }

  /** The segments that are not empty, in order. */
  function NonEmpty(segments: seq<string>): (r: seq<string>)
    ensures forall i :: 0 <= i < |r| ==> r[i] != ""
  {
    if segments == [] then []
    else (if segments[0] == "" then [] else [segments[0]]) + NonEmpty(segments[1..])
  }

  /** Segments separated by a single slash. */
  function Slashed(segments: seq<string>): string
  {
    if segments == [] then ""
    else if |segments| == 1 then segments[0]
    else segments[0] + "/" + Slashed(segments[1..])
  }

  /** A slash join that drops empty segments: the non-empty segments separated by single slashes. */
  function SlashJoin(segments: seq<string>): string
  {
    Slashed(NonEmpty(segments))
  }

  /** Dropping empty segments commutes with concatenation. */
  lemma {:induction false} NonEmptyAppend(a: seq<string>, b: seq<string>)
    ensures NonEmpty(a + b) == NonEmpty(a) + NonEmpty(b)
  {
    if a != [] {
      assert (a + b)[1..] == a[1..] + b;
      NonEmptyAppend(a[1..], b);
    } else {
      assert a + b == b;
    }
  }

  /** Slash-separating a list of non-empty segments gives the empty text only for no segments. */
  lemma {:induction false} SlashedEmpty(segments: seq<string>)
    requires forall i :: 0 <= i < |segments| ==> segments[i] != ""
    ensures Slashed(segments) == "" <==> segments == []
  {
    if |segments| > 1 {
      assert |segments[0] + "/" + Slashed(segments[1..])| > 0;
    }
  }

  /** Two non-empty groups of segments are separated by exactly one slash. */
  lemma {:induction false} SlashedAppend(a: seq<string>, b: seq<string>)
    requires a != [] && b != []
    ensures Slashed(a + b) == Slashed(a) + "/" + Slashed(b)
  {
    if |a| == 1 {
      assert (a + b)[1..] == b;
    } else {
      assert (a + b)[1..] == a[1..] + b;
      SlashedAppend(a[1..], b);
    }
  }

  /** Regrouping a concatenation of segment lists does not change it. */
  lemma SegmentsAssociative(a: seq<string>, b: seq<string>, c: seq<string>)
    ensures a + b + c == a + (b + c)
  {
  }

  /** Slashes around a non-empty middle group. */
  lemma SlashedSplice(a: seq<string>, b: seq<string>, c: seq<string>)
    requires b != []
    ensures Slashed(a + [Slashed(b)] + c) == Slashed(a + b + c)
  {
    var m := Slashed(b);
    assert Slashed([m] + c) == Slashed(b + c) by {
      if c == [] {
        assert [m] + c == [m];
        assert b + c == b;
      } else {
        SlashedAppend([m], c);
        SlashedAppend(b, c);
      }
    }
    SegmentsAssociative(a, [m], c);
    SegmentsAssociative(a, b, c);
    if a == [] {
      assert a + ([m] + c) == [m] + c;
      assert a + (b + c) == b + c;
    } else {
      SlashedAppend(a, [m] + c);
      SlashedAppend(a, b + c);
    }
  }

  /** Joining non-empty segments with slashes has the splicing laws. */
  lemma SlashJoinHasJoinLaws()
    ensures JoinLaws(SlashJoin)
  {
    forall xs: seq<string>, ys: seq<string>, zs: seq<string>
      ensures SlashJoin(xs + [SlashJoin(ys)] + zs) == SlashJoin(xs + ys + zs)
    {
      var m := SlashJoin(ys);
      NonEmptyAppend(xs + [m], zs);
      NonEmptyAppend(xs, [m]);
      NonEmptyAppend(xs + ys, zs);
      NonEmptyAppend(xs, ys);
      assert [m][1..] == [];
      SlashedEmpty(NonEmpty(ys));
      if m == "" {
        assert NonEmpty([m]) == [];
        assert NonEmpty(ys) == [];
      } else {
        assert NonEmpty([m]) == [m];
        SlashedSplice(NonEmpty(xs), NonEmpty(ys), NonEmpty(zs));
      }
    }
  }

  /** The left fold `Join(...Join(Join(acc, s1), s2)..., sn)` of createPath. */
  function JoinFrom(join: Joiner, acc: string, subFolders: seq<string>): string
    decreases |subFolders|
  {
    if subFolders == [] then acc else JoinFrom(join, join([acc, subFolders[0]]), subFolders[1..])
  }

  /** createPath: folds `path.Join` over the sub-folders, starting from the empty path. */
  method CreatePath(join: Joiner, subFolders: seq<string>) returns (subFoldersPath: string)
    ensures subFoldersPath == JoinFrom(join, "", subFolders)
  {
    subFoldersPath := "";
    for i := 0 to |subFolders|
      invariant JoinFrom(join, subFoldersPath, subFolders[i..]) == JoinFrom(join, "", subFolders)
    {
      assert subFolders[i..][1..] == subFolders[i + 1..];
      subFoldersPath := join([subFoldersPath, subFolders[i]]);
    }
  }

  /** Without sub-folders createPath gives the empty path, whatever `path.Join` does. */
  lemma CreatePathEmpty(join: Joiner)
    ensures JoinFrom(join, "", []) == ""
  {
  }

  /** The last sub-folder is joined last: the fold keeps the sub-folders' order. */
  lemma {:induction false} JoinFromSnoc(join: Joiner, acc: string, subFolders: seq<string>, last: string)
    ensures JoinFrom(join, acc, subFolders + [last]) == join([JoinFrom(join, acc, subFolders), last])
    decreases |subFolders|
  {
    if subFolders == [] {
      assert [] + [last] == [last];
      assert [last][1..] == [];
    } else {
      assert (subFolders + [last])[1..] == subFolders[1..] + [last];
      JoinFromSnoc(join, join([acc, subFolders[0]]), subFolders[1..], last);
    }
  }

  /** For a join with the splicing laws, createPath joins all sub-folders at once. */
  lemma {:induction false} CreatePathIsFlatJoin(join: Joiner, subFolders: seq<string>)
    requires JoinLaws(join)
    ensures JoinFrom(join, "", subFolders) == join(subFolders)
    decreases |subFolders|
  {
    if subFolders != [] {
      var front, last := subFolders[..|subFolders| - 1], subFolders[|subFolders| - 1];
      assert subFolders == front + [last];
      JoinFromSnoc(join, "", front, last);
      CreatePathIsFlatJoin(join, front);
      assert [join(front), last] == [] + [join(front)] + [last];
      assert [] + front + [last] == subFolders;
    }
  }

  /** The path a directory provider returns on success: `path.Join(base, createPath(subFolders...), fileName)`. */
  function InDirectory(join: Joiner, base: string, subFolders: seq<string>, fileName: string): string
  {
    join([base, JoinFrom(join, "", subFolders), fileName])
  }

  /**
    For a join with the splicing laws, a directory provider's path is the base,
    the sub-folders in order and the file name as the last segment, joined at once.
   */
  lemma InDirectoryIsFlatJoin(join: Joiner, base: string, subFolders: seq<string>, fileName: string)
    requires JoinLaws(join)
    ensures InDirectory(join, base, subFolders, fileName) == join([base] + subFolders + [fileName])
  {
    CreatePathIsFlatJoin(join, subFolders);
    assert [base, join(subFolders), fileName] == [base] + [join(subFolders)] + [fileName];
  }

  /** WorkingDirProvider: the working directory joined with the sub-folders and the file name. */
  function WorkingDirProvider(getwd: () -> Result<string, string>, join: Joiner, subFolders: seq<string>): (p: Provider)
    ensures forall name :: getwd().Failure? ==> p(name) == PathResult("", Some(getwd().error))
    ensures forall name :: getwd().Success? ==>
      p(name) == PathResult(InDirectory(join, getwd().value, subFolders, name), None)
  {
    (fileName: string) =>
      match getwd()
      case Failure(e) => PathResult("", Some(e))
      case Success(dir) => PathResult(InDirectory(join, dir, subFolders, fileName), None)
  }

  /** ExecutableDirProvider: the executable's directory joined with the sub-folders and the file name. */
  function ExecutableDirProvider(executable: () -> Result<string, string>, dirOf: string -> string, join: Joiner,
                                 subFolders: seq<string>): (p: Provider)
    ensures forall name :: executable().Failure? ==> p(name) == PathResult("", Some(executable().error))
    ensures forall name :: executable().Success? ==>
      p(name) == PathResult(InDirectory(join, dirOf(executable().value), subFolders, name), None)
  {
    (fileName: string) =>
      match executable()
      case Failure(e) => PathResult("", Some(e))
      case Success(exe) => PathResult(InDirectory(join, dirOf(exe), subFolders, fileName), None)
  }

  /** The message of the environment-variable provider when the variable is unset. */
  function EnvVarNotDefined(envVar: string): string
  {
    "env var '" + envVar + "' not defined"
  }

  /** EnvVarFilePathProvider: the variable's value as the complete path; the file name is ignored. */
  function EnvVarFilePathProvider(lookupEnv: string -> Option<string>, envVar: string): (p: Provider)
    ensures forall name :: lookupEnv(envVar).Some? ==> p(name) == PathResult(lookupEnv(envVar).value, None)
    ensures forall name :: lookupEnv(envVar).None? ==> p(name) == PathResult("", Some(EnvVarNotDefined(envVar)))
    ensures forall name1, name2 :: p(name1) == p(name2)
  {
    (fileName: string) =>
      match lookupEnv(envVar)
      case Some(value) => PathResult(value, None)
      case None => PathResult("", Some(EnvVarNotDefined(envVar)))
  }

  /** HomeConfigDirProvider: the current user's home directory joined with the sub-folders and the file name. */
  function HomeConfigDirProvider(currentUser: () -> Result<User, string>, join: Joiner, subFolders: seq<string>): (p: Provider)
    ensures forall name :: currentUser().Failure? ==> p(name) == PathResult("", Some(currentUser().error))
    ensures forall name :: currentUser().Success? ==>
      p(name) == PathResult(InDirectory(join, currentUser().value.homeDir, subFolders, name), None)
  {
    (fileName: string) =>
      match currentUser()
      case Failure(e) => PathResult("", Some(e))
      case Success(usr) => PathResult(InDirectory(join, usr.homeDir, subFolders, fileName), None)
  }
}
