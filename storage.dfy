// Output folders and per-window CSV files, over a modelled filesystem: a set of
// directories and a map from file paths to the rows last written there.
module Storage {
  import opened Records
  import Text
  import Calendar

  /** The OSError subclasses os.makedirs and DataFrame.to_csv raise here. */
  datatype Error =
    | AlreadyExists(path: string)   // FileExistsError
    | NotADirectory(path: string)   // NotADirectoryError: an ancestor is a file
    | NotFound(path: string)        // FileNotFoundError
    | IsADirectory(path: string)    // IsADirectoryError

  datatype Result<T> = Ok(value: T) | Err(error: Error)

  /** The proper ancestors of a path: its prefixes that end just before a '/'. */
  function Ancestors(p: string): set<string> {
    set k | 0 < k < |p| && p[k] == '/' :: p[..k]
  }

  /** An ancestor's ancestors are ancestors. */
  lemma {:induction false} AncestorsOfAncestor(p: string, q: string)
    requires q in Ancestors(p)
    ensures Ancestors(q) <= Ancestors(p)
  {
    var k :| 0 < k < |p| && p[k] == '/' && q == p[..k];
    forall a | a in Ancestors(q)
      ensures a in Ancestors(p)
    {
      var j :| 0 < j < |q| && q[j] == '/' && a == q[..j];
      assert p[j] == '/' && a == p[..j];
    }
  }

  /** A path of the form dir/rest, neither part holding a '/', has dir as its only ancestor. */
  lemma {:induction false} AncestorsOfChild(dir: string, rest: string)
    requires dir != [] && '/' !in dir && '/' !in rest
    ensures Ancestors(dir + "/" + rest) == {dir}
  {
    var p := dir + "/" + rest;
    assert p[|dir|] == '/' && p[..|dir|] == dir;
    forall a | a in Ancestors(p)
      ensures a == dir
    {
      var k :| 0 < k < |p| && p[k] == '/' && a == p[..k];
    }
  }

  /** Every directory and file sits inside directories, and no path is both. */
  ghost predicate Consistent(dirs: set<string>, files: set<string>) {
    && (forall p :: p in dirs ==> Ancestors(p) <= dirs)
    && (forall p :: p in files ==> Ancestors(p) <= dirs)
    && (forall p :: p in dirs ==> p !in files)
  }

  /** os.makedirs(p): the error it raises, if any, and the directories afterwards. */
  function MakeDirsResult(dirs: set<string>, files: set<string>, p: string): (Option<Error>, set<string>) {
    if p == [] then (Some(NotFound(p)), dirs)
    else if p in dirs || p in files then (Some(AlreadyExists(p)), dirs)
    else if exists q :: q in Ancestors(p) && q in files then (Some(NotADirectory(p)), dirs)
    else (None, dirs + Ancestors(p) + {p})
  }

  /** makedirs either fails and changes nothing, or creates the path and its missing
      ancestors and nothing else; it keeps the filesystem consistent. */
  lemma {:induction false} MakeDirsEffect(dirs: set<string>, files: set<string>, p: string)
    requires Consistent(dirs, files)
    ensures var (err, dirs') := MakeDirsResult(dirs, files, p);
      && (err.Some? <==> (p == [] || p in dirs || p in files || exists q :: q in Ancestors(p) && q in files))
      && (err.Some? ==> dirs' == dirs)
      && (err.None? ==> p in dirs' && dirs <= dirs' && dirs' - dirs <= Ancestors(p) + {p})
      && Consistent(dirs', files)
  {
    var (err, dirs') := MakeDirsResult(dirs, files, p);
    if err.None? {
      forall d | d in dirs'
        ensures Ancestors(d) <= dirs'
      {
        if d in Ancestors(p) {
          AncestorsOfAncestor(p, d);
        }
      }
    }
  }

  /** The directory name shared by both folders of one run. */
  function BaseName(opponent: string, dataHora: string): string {
    "SPFC_vs_" + opponent + "_" + dataHora
  }

  function DataPath(base: string, n: nat): string {
    "data/" + base + "_EXEC" + Text.NatStr(n)
  }

  function ResultsPath(base: string, n: nat): string {
    "resultados/" + base + "_EXEC" + Text.NatStr(n)
  }

  /** Distinct counters give distinct data paths. */
  lemma {:induction false} DataPathInjective(base: string, m: nat, n: nat)
    requires DataPath(base, m) == DataPath(base, n)
    ensures m == n
  {
    var pre := "data/" + base + "_EXEC";
    assert DataPath(base, m)[|pre|..] == Text.NatStr(m);
    assert DataPath(base, n)[|pre|..] == Text.NatStr(n);
    Text.NatStrInjective(m, n);
  }

  /** n is the smallest counter from 1 whose data path does not exist. */
  ghost predicate FirstFree(dirs: set<string>, files: set<string>, base: string, n: nat) {
    && n >= 1
    && DataPath(base, n) !in dirs && DataPath(base, n) !in files
    && forall m :: 1 <= m < n ==> DataPath(base, m) in dirs || DataPath(base, m) in files
  }

  /** The counter is determined by the filesystem. */
  lemma {:induction false} FirstFreeUnique(dirs: set<string>, files: set<string>, base: string, m: nat, n: nat)
    requires FirstFree(dirs, files, base, m) && FirstFree(dirs, files, base, n)
    ensures m == n
  {
  }

  /** criar_pasta_resultados once the counter is chosen: makedirs of the data path, then
      of the results path with the same counter. The pair is (data, results). */
  function FoldersResult(dirs: set<string>, files: set<string>, base: string, n: nat)
    : (out: (Result<(string, string)>, set<string>))
    ensures out.0.Ok? ==> out.0.value == (DataPath(base, n), ResultsPath(base, n))
  {
    var first := MakeDirsResult(dirs, files, DataPath(base, n));
    if first.0.Some? then (Err(first.0.value), first.1)
    else
      var second := MakeDirsResult(first.1, files, ResultsPath(base, n));
      if second.0.Some? then (Err(second.0.value), second.1)
      else (Ok((DataPath(base, n), ResultsPath(base, n))), second.1)
  }

  /** With the data and resultados directories present and no '/' in the opponent or
      the identifier, the run adds exactly its two folders and returns them as
      (data, results) — unless the results folder already exists, which the counter
      search never looks at: then it fails after creating the data folder. */
  lemma {:induction false} FoldersUsual(dirs: set<string>, files: set<string>, opponent: string, dataHora: string, n: nat)
    requires Consistent(dirs, files)
    requires "data" in dirs && "resultados" in dirs
    requires '/' !in opponent && '/' !in dataHora
    requires FirstFree(dirs, files, BaseName(opponent, dataHora), n)
    ensures var base := BaseName(opponent, dataHora);
      var (r, dirs') := FoldersResult(dirs, files, base, n);
      if ResultsPath(base, n) in dirs || ResultsPath(base, n) in files then
        r == Err(AlreadyExists(ResultsPath(base, n))) && dirs' == dirs + {DataPath(base, n)}
      else
        r == Ok((DataPath(base, n), ResultsPath(base, n)))
        && dirs' == dirs + {DataPath(base, n), ResultsPath(base, n)}
  {
    var base := BaseName(opponent, dataHora);
    var tail := base + "_EXEC" + Text.NatStr(n);
    assert '/' !in Text.NatStr(n);
    assert '/' !in tail;
    assert DataPath(base, n) == "data" + "/" + tail;
    assert ResultsPath(base, n) == "resultados" + "/" + tail;
    AncestorsOfChild("data", tail);
    AncestorsOfChild("resultados", tail);
    var d, rp := DataPath(base, n), ResultsPath(base, n);
    assert rp != d by {
      assert rp[1] != d[1];
    }
    assert "data" !in files && "resultados" !in files;
    assert !exists q :: q in Ancestors(d) && q in files;
    var first := MakeDirsResult(dirs, files, d);
    assert d != [] && d !in dirs && d !in files;
    assert dirs + Ancestors(d) + {d} == dirs + {d};
    assert first == (None, dirs + {d});
    var second := MakeDirsResult(dirs + {d}, files, rp);
    if rp in dirs || rp in files {
      assert second.0 == Some(AlreadyExists(rp));
    } else {
      assert !exists q :: q in Ancestors(rp) && q in files;
      assert rp != [] && rp !in dirs + {d};
      assert dirs + {d} + Ancestors(rp) + {rp} == dirs + {d} + {rp};
      assert second == (None, dirs + {d} + {rp});
    }
  }

  /** os.path.join(a, b). */
  function Join(a: string, b: string): string {
    if |b| > 0 && b[0] == '/' then b
    else if a == [] || a[|a| - 1] == '/' then a + b
    else a + "/" + b
  }

  /** Joining a folder with names that do not start with '/' is injective in the name. */
  lemma {:induction false} JoinInjective(a: string, b: string, c: string)
    requires b != [] && b[0] != '/' && c != [] && c[0] != '/'
    requires Join(a, b) == Join(a, c)
    ensures b == c
  {
    if a == [] || a[|a| - 1] == '/' {
      assert b == Join(a, b)[|a|..];
    } else {
      assert b == Join(a, b)[|a| + 1..];
    }
  }

  /** The file name of one window's CSV: etapa_YYYYMMDD_HHMM.csv. */
  function CsvName(phase: string, windowStart: nat): string {
    phase + "_" + Calendar.Stamp(windowStart) + ".csv"
  }

  function CsvPath(folder: string, phase: string, windowStart: nat): string {
    Join(folder, CsvName(phase, windowStart))
  }

  /** Within one phase and folder, distinct window starts give distinct files. */
  lemma {:induction false} CsvPathInjective(folder: string, phase: string, t1: nat, t2: nat)
    requires phase != [] && phase[0] != '/'
    requires CsvPath(folder, phase, t1) == CsvPath(folder, phase, t2)
    ensures t1 == t2
  {
    var n1 := CsvName(phase, t1);
    var n2 := CsvName(phase, t2);
    assert n1[0] == phase[0] && n2[0] == phase[0];
    JoinInjective(folder, n1, n2);
    var s1 := Calendar.Stamp(t1);
    var s2 := Calendar.Stamp(t2);
    assert |s1| == |s2| by {
      assert |n1| == |phase| + 1 + |s1| + 4;
    }
    assert s1 == n1[|phase| + 1..|phase| + 1 + |s1|];
    assert s2 == n2[|phase| + 1..|phase| + 1 + |s2|];
    Calendar.StampInjective(t1, t2);
  }

  /** salvar_tweets_csv writing to `path` (its CsvPath): the error to_csv raises, if
      any, and the files afterwards. */
  function SaveResult(dirs: set<string>, files: map<string, seq<Post>>, tweets: seq<Post>, path: string)
    : (out: (Option<Error>, map<string, seq<Post>>))
    ensures out.0.Some? ==> out.1 == files
  {
    if tweets == [] then (None, files)
    else
      if !(Ancestors(path) <= dirs) then (Some(NotFound(path)), files)
      else if path in dirs then (Some(IsADirectory(path)), files)
      else (None, files[path := tweets])
  }

  /** An empty batch writes nothing; a written batch replaces exactly its own file and
      no other; the filesystem stays consistent. */
  lemma {:induction false} SaveEffect(dirs: set<string>, files: map<string, seq<Post>>, tweets: seq<Post>, path: string)
    requires Consistent(dirs, files.Keys)
    ensures var (err, files') := SaveResult(dirs, files, tweets, path);
      && (tweets == [] ==> err.None? && files' == files)
      && (err.Some? ==> files' == files)
      && (tweets != [] && err.None? ==> path in files' && files'[path] == tweets)
      && (forall q :: q != path ==> (q in files' <==> q in files))
      && (forall q :: q != path && q in files ==> files'[q] == files[q])
      && Consistent(dirs, files'.Keys)
  {
  }

  /** The machine the pipeline writes to. */
  class FileSystem {
    var dirs: set<string>
    var files: map<string, seq<Post>>

    constructor(dirs0: set<string>, files0: map<string, seq<Post>>)
      ensures dirs == dirs0 && files == files0
    {
      dirs := dirs0;
      files := files0;
    }

    /** os.path.exists. */
    predicate Exists(p: string)
      reads this
    {
      p in dirs || p in files
    }

    /** os.makedirs(p). */
    method MakeDirs(p: string) returns (err: Option<Error>)
      modifies this
      ensures (err, dirs) == MakeDirsResult(old(dirs), old(files.Keys), p)
      ensures files == old(files)
    {
      if p == [] {
        err := Some(NotFound(p));
      } else if Exists(p) {
        err := Some(AlreadyExists(p));
      } else if exists q :: q in Ancestors(p) && q in files {
        err := Some(NotADirectory(p));
      } else {
        dirs := dirs + Ancestors(p) + {p};
        err := None;
      }
    }

    /** The counter loop of criar_pasta_resultados: from 1 upwards until the data path
        with that counter does not exist. Returns the counter and that path. */
    method FreeDataPath(base: string) returns (execCount: nat, pastaData: string)
      ensures FirstFree(dirs, files.Keys, base, execCount)
      ensures pastaData == DataPath(base, execCount)
    {
      var baseData := "data/" + base;
      execCount := 1;
      pastaData := baseData + "_EXEC" + Text.NatStr(execCount);
      ghost var unseen := dirs + files.Keys;
      while Exists(pastaData)
        invariant execCount >= 1 && pastaData == DataPath(base, execCount)
        invariant forall m :: 1 <= m < execCount ==> DataPath(base, m) in dirs || DataPath(base, m) in files
        invariant unseen <= dirs + files.Keys
        invariant forall q :: q in dirs + files.Keys && q !in unseen ==>
                    exists m :: 1 <= m < execCount && q == DataPath(base, m)
        decreases |unseen|
      {
        if pastaData !in unseen {
          var m :| 1 <= m < execCount && pastaData == DataPath(base, m);
          DataPathInjective(base, m, execCount);
          assert false;
        }
        unseen := unseen - {pastaData};
        execCount := execCount + 1;
        pastaData := baseData + "_EXEC" + Text.NatStr(execCount);
      }
    }

    /** criar_pasta_resultados(adversario, data_hora): picks the first free counter,
        then creates the data path and the results path with that counter.
        `n` is the counter chosen. */
    method CreateResultFolders(opponent: string, dataHora: string)
      returns (r: Result<(string, string)>, ghost n: nat)
      modifies this
      ensures FirstFree(old(dirs), old(files.Keys), BaseName(opponent, dataHora), n)
      ensures (r, dirs) == FoldersResult(old(dirs), old(files.Keys), BaseName(opponent, dataHora), n)
      ensures files == old(files)
    {
      var base := BaseName(opponent, dataHora);
      var execCount, pastaData := FreeDataPath(base);
      n := execCount;
      var err := MakeDirs(pastaData);
      if err.Some? {
        r := Err(err.value);
        return;
      }
      var pastaResultados := "resultados/" + base + "_EXEC" + Text.NatStr(execCount);
      assert pastaResultados == ResultsPath(base, n);
      err := MakeDirs(pastaResultados);
      if err.Some? {
        r := Err(err.value);
        return;
      }
      r := Ok((pastaData, pastaResultados));
    }

    /** salvar_tweets_csv(tweets, pasta_data, etapa, janela_inicio). */
    method SaveTweetsCsv(tweets: seq<Post>, folder: string, phase: string, windowStart: nat)
      returns (err: Option<Error>)
      modifies this
      ensures (err, files) == SaveResult(old(dirs), old(files), tweets, CsvPath(folder, phase, windowStart))
      ensures dirs == old(dirs)
    {
      err := None;
      if tweets == [] {
        return;
      }
      var path := Join(folder, phase + "_" + Calendar.Stamp(windowStart) + ".csv");
      if !(Ancestors(path) <= dirs) {
        err := Some(NotFound(path));
      } else if path in dirs {
        err := Some(IsADirectory(path));
      } else {
        files := files[path := tweets];
      }
    }
  }
}
