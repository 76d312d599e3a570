/**
  Concrete runs of the discovery engine, as in discovery_test.go and
  discovery_integration_test.go: fixed providers and a fixed filesystem
  snapshot, with the exact result each must give.
 */
module Scenarios {
  import opened Wrappers
  import opened Discovery
  import opened Providers

  /** A provider that always answers `path` with a nil error. */
  function Fixed(path: string): Provider
  {
    (fileName: string) => PathResult(path, None)
  }

  /**
    An unset environment variable: the provider's error comes first, and the
    empty path it still contributes is reported as not found.
   */
  lemma EnvVarUnsetReportsBoth(lookupEnv: string -> Option<string>, fs: FileSystem)
    requires lookupEnv("X") == None
    ensures Discovered([EnvVarFilePathProvider(lookupEnv, "X")], fs, "cfg.yml")
         == PathResult("", Some("env var 'X' not defined\n" + "could not find config file at ''\n"))
  {
    var p := EnvVarFilePathProvider(lookupEnv, "X");
    assert p("cfg.yml") == PathResult("", Some(EnvVarNotDefined("X")));
    assert [p][..0] == [];
    assert Candidates([p], "cfg.yml") == [""];
    assert !HasFile(fs, [""]);
    DiscoveredOutcome([p], fs, "cfg.yml");
    assert ProviderErrors([p], "cfg.yml") == "env var 'X' not defined\n";
    assert NotFoundLines(fs, [""]) == "could not find config file at ''\n";
  }

  /** A provider whose path is missing, followed by one whose path is a file: the file is returned. */
  lemma MissingThenFound()
    ensures Discovered([Fixed("/etc/app/cfg.yml"), Fixed("/home/u/cfg.yml")],
                       map["/home/u/cfg.yml" := File], "cfg.yml")
         == PathResult("/home/u/cfg.yml", None)
  {
    var ps := [Fixed("/etc/app/cfg.yml"), Fixed("/home/u/cfg.yml")];
    var fs := map["/home/u/cfg.yml" := File];
    var cs := Candidates(ps, "cfg.yml");
    assert cs[0] == "/etc/app/cfg.yml" && cs[1] == "/home/u/cfg.yml";
    assert IsFirstFile(fs, cs, 1);
    DiscoveredOutcome(ps, fs, "cfg.yml");
  }

  /** Two missing paths: one not-found line each, in provider order. */
  lemma BothMissing(fs: FileSystem)
    requires "P1" !in fs && "P2" !in fs
    ensures Discovered([Fixed("P1"), Fixed("P2")], fs, "cfg.yml")
         == PathResult("", Some("could not find config file at 'P1'\n" + "could not find config file at 'P2'\n"))
  {
    var ps := [Fixed("P1"), Fixed("P2")];
    var l1, l2 := "could not find config file at 'P1'\n", "could not find config file at 'P2'\n";
    assert ps[..1] == [Fixed("P1")];
    assert [Fixed("P1")][..0] == [];
    assert Candidates(ps, "cfg.yml") == ["P1", "P2"];
    assert ProviderErrors(ps, "cfg.yml") == "";
    assert !HasFile(fs, ["P1", "P2"]);
    DiscoveredOutcome(ps, fs, "cfg.yml");
    assert MissingLine(fs, "P1") == l1;
    assert MissingLine(fs, "P2") == l2;
    assert NotFoundLines(fs, ["P2"]) == l2 by {
      assert ["P2"][1..] == [];
      AppendEmpty(l2);
    }
    assert NotFoundLines(fs, ["P1", "P2"]) == l1 + l2 by {
      assert ["P1", "P2"][1..] == ["P2"];
    }
    PrependEmpty(l1 + l2);
  }

  /**
    Two providers that both answer the empty path without an error: the empty
    path never exists, so each adds its own not-found line.
   */
  lemma BothEmptyMissing(fs: FileSystem)
    ensures Discovered([Fixed(""), Fixed("")], fs, "test-file")
         == PathResult("", Some("could not find config file at ''\n" + "could not find config file at ''\n"))
  {
    var ps := [Fixed(""), Fixed("")];
    var l := "could not find config file at ''\n";
    assert ps[..1] == [Fixed("")];
    assert [Fixed("")][..0] == [];
    assert Candidates(ps, "test-file") == ["", ""];
    assert ProviderErrors(ps, "test-file") == "";
    assert !HasFile(fs, ["", ""]);
    DiscoveredOutcome(ps, fs, "test-file");
    assert MissingLine(fs, "") == l;
    assert NotFoundLines(fs, [""]) == l by {
      assert [""][1..] == [];
      AppendEmpty(l);
    }
    assert NotFoundLines(fs, ["", ""]) == l + l by {
      assert ["", ""][1..] == [""];
    }
    PrependEmpty(l + l);
  }

  /** A directory is passed over without a line, and the file after it is found. */
  lemma DirectorySkipped()
    ensures Discovered([Fixed("/etc/app"), Fixed("/etc/app/cfg.yml")],
                       map["/etc/app" := Dir, "/etc/app/cfg.yml" := File], "cfg.yml")
         == PathResult("/etc/app/cfg.yml", None)
  {
    var ps := [Fixed("/etc/app"), Fixed("/etc/app/cfg.yml")];
    var fs := map["/etc/app" := Dir, "/etc/app/cfg.yml" := File];
    var cs := Candidates(ps, "cfg.yml");
    assert cs[0] == "/etc/app" && cs[1] == "/etc/app/cfg.yml";
    assert IsFirstFile(fs, cs, 1);
    DiscoveredOutcome(ps, fs, "cfg.yml");
  }

  /**
    The integration set-up: working-directory, executable-directory and
    environment-variable providers. A file in the working directory is found
    first, whatever the other two would give.
   */
  lemma WorkingDirFileFoundFirst(getwd: () -> Result<string, string>, executable: () -> Result<string, string>,
                                 dirOf: string -> string, join: Joiner, lookupEnv: string -> Option<string>,
                                 fs: FileSystem, name: string)
    requires getwd().Success?
    requires Stat(fs, InDirectory(join, getwd().value, [], name)) == File
    ensures Discovered([WorkingDirProvider(getwd, join, []), ExecutableDirProvider(executable, dirOf, join, []),
                        EnvVarFilePathProvider(lookupEnv, "TEST_FILE_PATH")], fs, name)
         == PathResult(InDirectory(join, getwd().value, [], name), None)
  {
    var ps := [WorkingDirProvider(getwd, join, []), ExecutableDirProvider(executable, dirOf, join, []),
               EnvVarFilePathProvider(lookupEnv, "TEST_FILE_PATH")];
    var cs := Candidates(ps, name);
    assert cs[0] == InDirectory(join, getwd().value, [], name);
    assert IsFirstFile(fs, cs, 0);
    DiscoveredOutcome(ps, fs, name);
  }

  /**
    The integration set-up with the variable set: when neither directory
    candidate exists, the variable's path is returned.
   */
  lemma EnvVarFileFoundLast(getwd: () -> Result<string, string>, executable: () -> Result<string, string>,
                            dirOf: string -> string, join: Joiner, lookupEnv: string -> Option<string>,
                            fs: FileSystem, name: string)
    requires getwd().Success? && executable().Success? && lookupEnv("TEST_FILE_PATH").Some?
    requires Stat(fs, InDirectory(join, getwd().value, [], name)) == Missing
    requires Stat(fs, InDirectory(join, dirOf(executable().value), [], name)) == Missing
    requires Stat(fs, lookupEnv("TEST_FILE_PATH").value) == File
    ensures Discovered([WorkingDirProvider(getwd, join, []), ExecutableDirProvider(executable, dirOf, join, []),
                        EnvVarFilePathProvider(lookupEnv, "TEST_FILE_PATH")], fs, name)
         == PathResult(lookupEnv("TEST_FILE_PATH").value, None)
  {
    var ps := [WorkingDirProvider(getwd, join, []), ExecutableDirProvider(executable, dirOf, join, []),
               EnvVarFilePathProvider(lookupEnv, "TEST_FILE_PATH")];
    var cs := Candidates(ps, name);
    assert cs[0] == InDirectory(join, getwd().value, [], name);
    assert cs[1] == InDirectory(join, dirOf(executable().value), [], name);
    assert cs[2] == lookupEnv("TEST_FILE_PATH").value;
    assert IsFirstFile(fs, cs, 2);
    DiscoveredOutcome(ps, fs, name);
  }
}
