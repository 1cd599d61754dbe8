/** The file store the pipeline works on, and its two-slot backup discipline:
    `loadAndBackupJson` (map/update.js lines 313-350) and the missing-file check of
    the failure path (lines 239-260). Files are text under a directory and a name;
    reading, deleting and renaming follow the POSIX calls the source makes. */
module Backup {
  import opened Seqs
  import opened Records
  import opened JsValues

  /** `path.join(dir, name)` */
  datatype Path = Path(dir: string, name: string)

  /** A failed load: `ENOENT` for a missing file, or a file that is not valid JSON. */
  datatype LoadError = NotFound(path: Path) | ParseError(path: Path)

  datatype Result<T> = Ok(value: T) | Err(error: LoadError)

  /** The directories, relative to the repository root (lines 25-33). */
  const BaseSourceDir := "map/base_source"
  const MasterSourceDir := "map/master_source"
  const MasterIndexDir := "map/master_index"
  const HistoryDir := "map/history"
  const MapSourceDir := "src/map"

  predicate EndsWithJson(name: string)
  {
    |name| >= 5 && name[|name| - 5..] == ".json"
  }

  /** `filename.replace(/\.json$/, '.backup.json')`: only a trailing ".json" is
      rewritten; any other name is its own backup name. */
  function BackupName(name: string): (r: string)
    ensures EndsWithJson(name) ==> r == name[..|name| - 5] + ".backup.json" && r != name
    ensures !EndsWithJson(name) ==> r == name
  {
    if EndsWithJson(name) then
      var r := name[..|name| - 5] + ".backup.json";
      assert r[|r| - 12] == '.' && r[|r| - 11] == 'b';
      assert |r| != |name|;
      r
    else name
  }

  lemma BackupNamesOfTheSources()
    ensures BackupName("master-index.json") == "master-index.backup.json"
    ensures BackupName("base-source.json") == "base-source.backup.json"
    ensures BackupName("master-source.json") == "master-source.backup.json"
  {
    assert EndsWithJson("master-index.json");
    assert EndsWithJson("base-source.json");
    assert EndsWithJson("master-source.json");
  }

  /** The store and the result after one load. */
  datatype Outcome = Outcome(result: Result<string>, files: map<Path, string>)

  /** Lines 339-344: read and parse the backup; the store is not touched. */
  function LoadBackup(files: map<Path, string>, backup: Path, parses: string -> bool): (o: Outcome)
    ensures o.files == files
    ensures o.result.Ok? <==> backup in files && parses(files[backup])
    ensures o.result.Ok? ==> o.result.value == files[backup]
  {
    if backup !in files then Outcome(Err(NotFound(backup)), files)
    else if !parses(files[backup]) then Outcome(Err(ParseError(backup)), files)
    else Outcome(Ok(files[backup]), files)
  }

  /** `loadAndBackupJson(dir, filename)`, step by step over the store: read and parse
      the primary, delete the backup, rename the primary to the backup name. A
      missing file at any of those steps falls back to the backup; a parse error of
      the primary does not. */
  function Load(files: map<Path, string>, dir: string, filename: string, parses: string -> bool): (o: Outcome)
    ensures o.result.Ok? ==> parses(o.result.value)
  {
    var current := Path(dir, filename);
    var backup := Path(dir, BackupName(filename));
    if current !in files then LoadBackup(files, backup, parses)
    else if !parses(files[current]) then Outcome(Err(ParseError(current)), files)
    else
      var content := files[current];
      var unlinked := files - {backup};
      if current !in unlinked then LoadBackup(unlinked, backup, parses)
      else Outcome(Ok(content), (unlinked - {current})[backup := content])
  }

  /** A readable primary (with a ".json" name) is returned, and afterwards the
      backup holds exactly its content, the primary is gone and no other file
      changed. */
  lemma LoadRotatesPrimary(files: map<Path, string>, dir: string, filename: string, parses: string -> bool)
    requires EndsWithJson(filename)
    requires Path(dir, filename) in files && parses(files[Path(dir, filename)])
    ensures var o := Load(files, dir, filename, parses);
      var backup := Path(dir, BackupName(filename));
      && o.result == Ok(files[Path(dir, filename)])
      && o.files == (files - {Path(dir, filename)})[backup := files[Path(dir, filename)]]
      && Path(dir, filename) !in o.files
      && (forall p :: p in files && p != Path(dir, filename) && p != backup ==> p in o.files && o.files[p] == files[p])
  {
    assert Path(dir, filename) != Path(dir, BackupName(filename));
  }

  /** A load touches the primary and the backup of its own file and nothing else. */
  lemma LoadTouchesOnly(files: map<Path, string>, dir: string, filename: string, parses: string -> bool, p: Path)
    requires p != Path(dir, filename) && p != Path(dir, BackupName(filename))
    ensures var o := Load(files, dir, filename, parses);
      (p in o.files <==> p in files) && (p in files ==> o.files[p] == files[p])
  {
    var current, backup := Path(dir, filename), Path(dir, BackupName(filename));
    var o := Load(files, dir, filename, parses);
    if current !in files || !parses(files[current]) || current !in files - {backup} {
      assert o.files == files || o.files == files - {backup};
    } else {
      var rest := (files - {backup}) - {current};
      assert o.files == rest[backup := files[current]];
      assert (p in rest <==> p in files) && (p in files ==> rest[p] == files[p]);
    }
  }

  /** With no primary, the backup is loaded and nothing in the store changes; with
      neither, the load fails with "not found". */
  lemma LoadFallsBackToBackup(files: map<Path, string>, dir: string, filename: string, parses: string -> bool)
    requires Path(dir, filename) !in files
    ensures var o := Load(files, dir, filename, parses);
      var backup := Path(dir, BackupName(filename));
      && o.files == files
      && (backup in files && parses(files[backup]) ==> o.result == Ok(files[backup]))
      && (backup !in files ==> o.result == Err(NotFound(backup)))
  {
  }

  /** A primary that does not parse fails the load even when a good backup exists,
      and the store is left as it was. */
  lemma CorruptPrimaryIsNotReplaced(files: map<Path, string>, dir: string, filename: string, parses: string -> bool)
    requires Path(dir, filename) in files && !parses(files[Path(dir, filename)])
    ensures Load(files, dir, filename, parses) == Outcome(Err(ParseError(Path(dir, filename))), files)
  {
  }

  /** Loading twice returns the same content both times: the first load moves the
      primary to the backup, the second finds only the backup and leaves it. */
  lemma {:induction false} LoadIsRepeatable(files: map<Path, string>, dir: string, filename: string, parses: string -> bool)
    requires EndsWithJson(filename)
    requires Path(dir, filename) in files && parses(files[Path(dir, filename)])
    ensures var first := Load(files, dir, filename, parses);
      var second := Load(first.files, dir, filename, parses);
      second.result == first.result && second.files == first.files
  {
    LoadRotatesPrimary(files, dir, filename, parses);
    var first := Load(files, dir, filename, parses);
    LoadFallsBackToBackup(first.files, dir, filename, parses);
  }

  /** With a name that does not end in ".json" the backup path is the primary path:
      deleting the "old backup" deletes the primary, the rename then finds nothing,
      and the load fails with the file gone. */
  lemma NonJsonNameDestroysFile(files: map<Path, string>, dir: string, filename: string, parses: string -> bool)
    requires !EndsWithJson(filename)
    requires Path(dir, filename) in files && parses(files[Path(dir, filename)])
    ensures var o := Load(files, dir, filename, parses);
      o.result == Err(NotFound(Path(dir, filename))) && o.files == files - {Path(dir, filename)}
  {
  }

  /** One entry of `requiredFiles` (lines 239-243). */
  datatype Required = Required(name: string, dirs: seq<string>)

  /** Lines 239-243. */
  const RequiredFiles := [
    Required("master-index.json", [MasterIndexDir, MasterIndexDir]),
    Required("master-source.json", [MapSourceDir, MasterSourceDir]),
    Required("base-source.json", [MapSourceDir, BaseSourceDir])
  ]

  predicate ExistsInAny(files: map<Path, string>, r: Required)
  {
    exists i :: 0 <= i < |r.dirs| && Path(r.dirs[i], r.name) in files
  }

  /** The records of the required files found in none of their directories, in the
      order the requirements are listed. */
  /** The report each required file would get if it were missing, in order. */
  function Reports(required: seq<Required>): seq<Missing>
  {
    seq(|required|, i requires 0 <= i < |required| => Missing(required[i].name, required[i].dirs))
  }

  function MissingOf(files: map<Path, string>, required: seq<Required>): (r: seq<Missing>)
    ensures |r| <= |required|
    ensures forall m :: m in r <==> exists i :: 0 <= i < |required| && !ExistsInAny(files, required[i])
                                                && m == Missing(required[i].name, required[i].dirs)
    ensures IsSubsequence(r, Reports(required))
  {
    if required == [] then []
    else
      var init, last := required[..|required| - 1], required[|required| - 1];
      assert required == init + [last];
      var before := MissingOf(files, init);
      var m := Missing(last.name, last.dirs);
      assert Reports(required) == Reports(init) + [m];
      if ExistsInAny(files, last) then
        SubsequenceAppend(before, Reports(init), m);
        before
      else
        SubsequenceExtend(before, Reports(init), m);
        before + [m]
  }

  /** Nothing is reported exactly when every required file exists somewhere. */
  lemma {:induction false} NothingMissingIff(files: map<Path, string>, required: seq<Required>)
    ensures MissingOf(files, required) == [] <==> forall i :: 0 <= i < |required| ==> ExistsInAny(files, required[i])
  {
    if required != [] {
      var init := required[..|required| - 1];
      NothingMissingIff(files, init);
      assert required == init + [required[|required| - 1]];
    }
  }

  /** A file under another name does not change what is missing. */
  lemma {:induction false} MissingOfFrame(files: map<Path, string>, required: seq<Required>, p: Path, content: string)
    requires forall i :: 0 <= i < |required| ==> required[i].name != p.name
    ensures MissingOf(files[p := content], required) == MissingOf(files, required)
  {
    if required != [] {
      var last := required[|required| - 1];
      MissingOfFrame(files, required[..|required| - 1], p, content);
      assert ExistsInAny(files[p := content], last) == ExistsInAny(files, last) by {
        forall i | 0 <= i < |last.dirs| ensures (Path(last.dirs[i], last.name) in files[p := content]) == (Path(last.dirs[i], last.name) in files) {
          assert Path(last.dirs[i], last.name) != p;
        }
      }
    }
  }

  /** Each required file present in its first listed directory leaves nothing
      missing. */
  lemma NothingMissingWhenPresent(files: map<Path, string>)
    requires Path(MasterIndexDir, "master-index.json") in files
    requires Path(MapSourceDir, "master-source.json") in files
    requires Path(MapSourceDir, "base-source.json") in files
    ensures MissingOf(files, RequiredFiles) == []
  {
    assert Path(RequiredFiles[0].dirs[0], RequiredFiles[0].name) in files;
    assert Path(RequiredFiles[1].dirs[0], RequiredFiles[1].name) in files;
    assert Path(RequiredFiles[2].dirs[0], RequiredFiles[2].name) in files;
    NothingMissingIff(files, RequiredFiles);
  }

  /** One `writeJsonFile` call. */
  datatype Write = Write(path: Path, content: string)

  /** The store after a sequence of writes, and the first write the file system
      refused, after which no further write is attempted. */
  datatype WriteOutcome = WriteOutcome(files: map<Path, string>, refused: Option<Path>)

  function WriteEach(files: map<Path, string>, writes: seq<Write>, accepts: Path -> bool): (o: WriteOutcome)
    ensures o.refused.None? <==> forall i :: 0 <= i < |writes| ==> accepts(writes[i].path)
    ensures o.refused.Some? ==> exists i :: 0 <= i < |writes| && writes[i].path == o.refused.value && !accepts(o.refused.value)
    ensures o.refused.None? ==> forall i :: 0 <= i < |writes| ==> writes[i].path in o.files
    ensures forall p :: p in files ==> p in o.files
    ensures forall p :: (forall i :: 0 <= i < |writes| ==> writes[i].path != p) ==>
      (p in o.files <==> p in files) && (p in files ==> o.files[p] == files[p])
    decreases |writes|
  {
    if writes == [] then WriteOutcome(files, None)
    else if !accepts(writes[0].path) then WriteOutcome(files, Some(writes[0].path))
    else
      var rest := WriteEach(files[writes[0].path := writes[0].content], writes[1..], accepts);
      assert forall i :: 1 <= i < |writes| ==> writes[i] == writes[1..][i - 1];
      rest
  }

  /** When every write is accepted and no path is written twice, each path holds
      the content written to it. */
  lemma {:induction false} WriteEachStores(files: map<Path, string>, writes: seq<Write>, accepts: Path -> bool)
    requires forall i :: 0 <= i < |writes| ==> accepts(writes[i].path)
    requires forall i, j :: 0 <= i < j < |writes| ==> writes[i].path != writes[j].path
    ensures forall i :: 0 <= i < |writes| ==> WriteEach(files, writes, accepts).files[writes[i].path] == writes[i].content
    decreases |writes|
  {
    if writes != [] {
      var next := files[writes[0].path := writes[0].content];
      WriteEachStores(next, writes[1..], accepts);
      assert forall i :: 1 <= i < |writes| ==> writes[i] == writes[1..][i - 1];
      assert forall i :: 0 <= i < |writes[1..]| ==> writes[1..][i].path != writes[0].path;
    }
  }

  /** The master index's two checked paths are the same directory: it is missing
      exactly when `map/master_index/master-index.json` is. */
  lemma MasterIndexHasOneLocation(files: map<Path, string>)
    ensures Missing("master-index.json", [MasterIndexDir, MasterIndexDir]) in MissingOf(files, RequiredFiles)
        <==> Path(MasterIndexDir, "master-index.json") !in files
  {
    var r := Missing("master-index.json", [MasterIndexDir, MasterIndexDir]);
    if Path(MasterIndexDir, "master-index.json") !in files {
      assert !ExistsInAny(files, RequiredFiles[0]);
    }
    if r in MissingOf(files, RequiredFiles) {
      var i :| 0 <= i < |RequiredFiles| && !ExistsInAny(files, RequiredFiles[i]) && r == Missing(RequiredFiles[i].name, RequiredFiles[i].dirs);
      assert i == 0;
      assert RequiredFiles[0].dirs[0] == MasterIndexDir && RequiredFiles[0].name == "master-index.json";
      assert !(Path(RequiredFiles[0].dirs[0], RequiredFiles[0].name) in files);
    }
  }

  class Store {
    var files: map<Path, string>

    constructor (files: map<Path, string>)
      ensures this.files == files
    {
      this.files := files;
    }

    /** `fs.readFile` */
    method ReadFile(p: Path) returns (r: Result<string>)
      ensures r.Ok? <==> p in files
      ensures r.Ok? ==> r.value == files[p]
      ensures r.Err? ==> r.error == NotFound(p)
    {
      if p in files {
        r := Ok(files[p]);
      } else {
        r := Err(NotFound(p));
      }
    }

    /** `fs.unlink`: fails when the file is missing. */
    method Unlink(p: Path) returns (found: bool)
      modifies this
      ensures found == (p in old(files))
      ensures files == old(files) - {p}
    {
      found := p in files;
      files := files - {p};
    }

    /** `fs.rename`: fails when the source is missing, otherwise replaces the target. */
    method Rename(source: Path, target: Path) returns (found: bool)
      modifies this
      ensures found == (source in old(files))
      ensures found ==> files == (old(files) - {source})[target := old(files)[source]]
      ensures !found ==> files == old(files)
    {
      found := source in files;
      if found {
        var content := files[source];
        files := (files - {source})[target := content];
      }
    }

    /** `fs.writeFile` when the file system accepts it. */
    method WriteFile(p: Path, content: string, accepted: bool)
      modifies this
      ensures files == if accepted then old(files)[p := content] else old(files)
    {
      if accepted {
        files := files[p := content];
      }
    }

    /** `fs.appendFile` when the file system accepts it. */
    method AppendLine(p: Path, line: string, accepted: bool)
      modifies this
      ensures files == if !accepted then old(files)
                       else if p in old(files) then old(files)[p := old(files)[p] + line + "\n"]
                       else old(files)[p := line + "\n"]
    {
      if accepted {
        if p in files {
          files := files[p := files[p] + line + "\n"];
        } else {
          files := files[p := line + "\n"];
        }
      }
    }

    /** Consecutive `writeJsonFile` calls: the first refused write throws, so the
        later ones are not made. */
    method WriteAll(writes: seq<Write>, accepts: Path -> bool) returns (refused: Option<Path>)
      modifies this
      ensures WriteOutcome(files, refused) == WriteEach(old(files), writes, accepts)
    {
      var i := 0;
      refused := None;
      while i < |writes|
        invariant 0 <= i <= |writes|
        invariant WriteEach(old(files), writes, accepts) == WriteEach(files, writes[i..], accepts)
        decreases |writes| - i
      {
        if !accepts(writes[i].path) {
          refused := Some(writes[i].path);
          return;
        }
        assert writes[i..][1..] == writes[i + 1..];
        WriteFile(writes[i].path, writes[i].content, true);
        i := i + 1;
      }
    }

    /** Lines 313-350. */
    method LoadAndBackup(dir: string, filename: string, parses: string -> bool) returns (r: Result<string>)
      modifies this
      ensures Outcome(r, files) == Load(old(files), dir, filename, parses)
    {
      var current := Path(dir, filename);
      var backup := Path(dir, BackupName(filename));
      var read := ReadFile(current);
      if read.Err? {
        r := LoadBackupFile(backup, parses);
        return;
      }
      if !parses(read.value) {
        r := Err(ParseError(current));
        return;
      }
      var _ := Unlink(backup);
      var renamed := Rename(current, backup);
      if !renamed {
        r := LoadBackupFile(backup, parses);
        return;
      }
      r := Ok(read.value);
    }

    /** Lines 339-344. */
    method LoadBackupFile(backup: Path, parses: string -> bool) returns (r: Result<string>)
      ensures Outcome(r, files) == LoadBackup(files, backup, parses)
    {
      var read := ReadFile(backup);
      if read.Err? {
        r := read;
      } else if !parses(read.value) {
        r := Err(ParseError(backup));
      } else {
        r := read;
      }
    }

    /** `fs.access` */
    method Accessible(p: Path) returns (b: bool)
      ensures b == (p in files)
    {
      b := p in files;
    }

    /** Lines 247-260: for each required file, look in every listed directory and
        record the file when it is in none of them. */
    method MissingFiles(required: seq<Required>) returns (missing: seq<Missing>)
      ensures missing == MissingOf(files, required)
    {
      missing := [];
      var k := 0;
      while k < |required|
        invariant 0 <= k <= |required|
        invariant missing == MissingOf(files, required[..k])
      {
        var r := required[k];
        var found := false;
        var i := 0;
        while i < |r.dirs|
          invariant 0 <= i <= |r.dirs|
          invariant found <==> exists j :: 0 <= j < i && Path(r.dirs[j], r.name) in files
        {
          var here := Accessible(Path(r.dirs[i], r.name));
          found := found || here;
          i := i + 1;
        }
        assert required[..k + 1][..k] == required[..k];
        if !found {
          missing := missing + [Missing(r.name, r.dirs)];
        }
        k := k + 1;
      }
      assert required[..k] == required;
    }
  }
}
