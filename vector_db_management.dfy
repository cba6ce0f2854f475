/**
 * The console tool that manages the persisted indexes: a menu loop that
 * creates, resyncs and deletes named indexes under the index directory,
 * loading documents from a local context folder (or, nominally, from S3).
 *
 * Standard input is a sequence of lines read from a cursor `pos`; reading
 * past the last line is `EOFError`. The index directory is a `Directory`
 * value: whether the directory exists, and the indexes saved in it by name.
 * The context directory is a map from folder name to what the PDF loader
 * returns for that folder, `None` when the loader raises.
 */
module VectorDbManagement {
  import opened Common
  import opened Strings

  /** How a management operation ended. */
  datatype Status = Completed | Failed(error: Error)

  /** How one pass of the menu loop ended. */
  datatype Step = Continue | Exit | Abort(error: Error)

  /** How the menu loop ended: choice 4, or an exception that escaped it. */
  datatype MenuEnd = Exited | Aborted(error: Error)

  /** The index directory: whether it exists on disk, and the indexes saved in it by name. */
  datatype Directory = Directory(present: bool, dbs: map<string, VectorIndex>)

  /**
   * A relative name that `VECTOR_DB_DIR / name` resolves to the index
   * directory itself: every '/'-separated piece is empty or ".".
   */
  predicate DenotesRoot(name: string)
  {
    (name == "" || name[0] != '/') &&
    forall piece :: piece in Split(name, '/') ==> piece == "" || piece == "."
  }

  lemma SplitDot()
    ensures Split(".", '/') == ["."]
  {
    var dot: string := ".";
    assert dot[..|dot| - 1] == "" && dot[|dot| - 1] == '.';
    assert Split("", '/') == [""];
    assert [""][0] + ['.'] == dot;
  }

  lemma SplitDotSlash()
    ensures Split("./", '/') == [".", ""]
  {
    var dotSlash: string := "./";
    assert dotSlash[..|dotSlash| - 1] == "." && dotSlash[|dotSlash| - 1] == '/';
    SplitDot();
  }

  /** The names that address the whole directory. */
  lemma RootNames()
    ensures DenotesRoot("") && DenotesRoot(".") && DenotesRoot("./")
  {
    assert Split("", '/') == [""];
    SplitDot();
    SplitDotSlash();
  }

  /** An ordinary index name, and the absolute path "/", do not. */
  lemma NonRootNames()
    ensures !DenotesRoot("docs") && !DenotesRoot("/")
  {
    SplitWithoutSeparator("docs", '/');
    assert "docs" in Split("docs", '/') && "docs" != ".";
    assert "/"[0] == '/';
  }

  /** Nothing is stored in a directory that does not exist, and no index is named like the directory itself. */
  predicate Consistent(dir: Directory)
  {
    (!dir.present ==> dir.dbs == map[]) &&
    forall name :: name in dir.dbs ==> !DenotesRoot(name)
  }

  /** `(VECTOR_DB_DIR / name).exists()` */
  function Exists(dir: Directory, name: string): (r: bool)
    ensures !DenotesRoot(name) ==> (r <==> name in dir.dbs)
    ensures DenotesRoot(name) ==> (r <==> dir.present)
  {
    if DenotesRoot(name) then dir.present else name in dir.dbs
  }

  /**
   * `shutil.rmtree(VECTOR_DB_DIR / name)` on an existing path: one index,
   * or, for a name that denotes the directory, the directory and every
   * index in it.
   */
  function Removed(dir: Directory, name: string): (r: Directory)
    ensures DenotesRoot(name) ==> r == Directory(false, map[])
    ensures !DenotesRoot(name) ==> r.present == dir.present && r.dbs.Keys == dir.dbs.Keys - {name}
    ensures !DenotesRoot(name) ==> forall k :: k in r.dbs ==> r.dbs[k] == dir.dbs[k]
    ensures Consistent(dir) ==> Consistent(r)
  {
    if DenotesRoot(name) then Directory(false, map[]) else Directory(dir.present, dir.dbs - {name})
  }

  /**
   * `save_local(VECTOR_DB_DIR / name)`: the directory is (re)created and
   * the index stored under `name`; for a name that denotes the directory
   * the index files land in the directory itself and no named index appears.
   */
  function Saved(dir: Directory, name: string, index: VectorIndex): (r: Directory)
    ensures r.present
    ensures !DenotesRoot(name) ==> r.dbs.Keys == dir.dbs.Keys + {name} && r.dbs[name] == index
    ensures DenotesRoot(name) ==> r.dbs == dir.dbs
    ensures forall k :: k in dir.dbs && k != name ==> k in r.dbs && r.dbs[k] == dir.dbs[k]
    ensures Consistent(dir) ==> Consistent(r)
  {
    if DenotesRoot(name) then dir.(present := true) else Directory(true, dir.dbs[name := index])
  }

  /** The folder exists and the loader raises on it (an unreadable PDF, for instance). */
  predicate LoaderRaises(folders: map<string, Option<seq<Document>>>, name: string)
  {
    name in folders && folders[name].None?
  }

  /** A folder the local loader accepts: it exists and loads to at least one PDF document. */
  predicate Loadable(folders: map<string, Option<seq<Document>>>, name: string)
  {
    name in folders && folders[name].Some? && |folders[name].value| >= 1
  }

  /**
   * The local-folder prompt loop, reading from line `pos`: the documents of
   * the first named folder that is loadable, and the cursor after it. Every
   * earlier answer named a folder that is missing or loads nothing. A folder
   * whose loader raises ends the loop with that error; running out of lines
   * first is `EOFError`.
   */
  function LocalLoad(lines: seq<string>, pos: nat, folders: map<string, Option<seq<Document>>>)
    : (r: (Result<seq<Document>, Error>, nat))
    requires pos <= |lines|
    ensures pos <= r.1 <= |lines|
    ensures r.0.Ok? ==> pos < r.1 && Loadable(folders, lines[r.1 - 1]) && r.0.value == folders[lines[r.1 - 1]].value
    ensures r.0.Err? ==> (r.0.error == EOFError && r.1 == |lines|) ||
                         (r.0.error == LibraryError && pos < r.1 && LoaderRaises(folders, lines[r.1 - 1]))
    ensures forall j :: pos <= j < r.1 && (r.0 == Err(EOFError) || j < r.1 - 1) ==>
              !Loadable(folders, lines[j]) && !LoaderRaises(folders, lines[j])
    decreases |lines| - pos
  {
    if pos == |lines| then (Err(EOFError), pos)
    else if LoaderRaises(folders, lines[pos]) then (Err(LibraryError), pos + 1)
    else if Loadable(folders, lines[pos]) then (Ok(folders[lines[pos]].value), pos + 1)
    else LocalLoad(lines, pos + 1, folders)
  }

  /** The local-folder prompt loop as the script runs it. */
  method LoadLocal(lines: seq<string>, pos: nat, folders: map<string, Option<seq<Document>>>)
    returns (documents: Result<seq<Document>, Error>, next: nat)
    requires pos <= |lines|
    ensures (documents, next) == LocalLoad(lines, pos, folders)
  {
    next := pos;
    while true
      invariant pos <= next <= |lines|
      invariant LocalLoad(lines, next, folders) == LocalLoad(lines, pos, folders)
      decreases |lines| - next
    {
      if next == |lines| {
        return Err(EOFError), next;
      }
      var folderName := lines[next];
      next := next + 1;
      if folderName in folders {
        var loaded := folders[folderName];
        if loaded.None? {
          return Err(LibraryError), next;
        }
        if |loaded.value| >= 1 {
          return Ok(loaded.value), next;
        }
      }
    }
  }

  /**
   * `load_documents`, reading from line `pos`: the source type (compared
   * lower-cased), then the local-folder loop. The S3 branch reads a bucket
   * name and then fails with `KeyError`, because the AWS configuration
   * helper reads a key of an empty dictionary; any other source type leaves
   * `documents` unassigned, which is `UnboundLocalError`.
   */
  function Loaded(lines: seq<string>, pos: nat, folders: map<string, Option<seq<Document>>>)
    : (r: (Result<seq<Document>, Error>, nat))
    requires pos <= |lines|
    ensures pos <= r.1 <= |lines|
    ensures pos < |lines| ==> pos < r.1
    ensures r.0.Ok? ==> pos < |lines| && Lower(lines[pos]) == "local" && |r.0.value| >= 1
    ensures pos < |lines| && Lower(lines[pos]) == "local" ==> r == LocalLoad(lines, pos + 1, folders)
    ensures pos < |lines| && Lower(lines[pos]) == "s3" ==> r.0.Err? && r.0.error in {EOFError, KeyError}
    ensures pos < |lines| && Lower(lines[pos]) !in {"local", "s3"} ==> r == (Err(UnboundLocalError), pos + 1)
  {
    if pos == |lines| then (Err(EOFError), pos)
    else
      var sourceType := Lower(lines[pos]);
      if sourceType == "local" then LocalLoad(lines, pos + 1, folders)
      else if sourceType == "s3" then
        (if pos + 1 == |lines| then (Err(EOFError), pos + 1) else (Err(KeyError), pos + 2))
      else (Err(UnboundLocalError), pos + 1)
  }

  /** `load_documents` as the script runs it. */
  method LoadDocuments(lines: seq<string>, pos: nat, folders: map<string, Option<seq<Document>>>)
    returns (documents: Result<seq<Document>, Error>, next: nat)
    requires pos <= |lines|
    ensures (documents, next) == Loaded(lines, pos, folders)
  {
    if pos == |lines| {
      return Err(EOFError), pos;
    }
    var sourceType := Lower(lines[pos]);
    next := pos + 1;
    if sourceType == "local" {
      documents, next := LoadLocal(lines, next, folders);
    } else if sourceType == "s3" {
      if next == |lines| {
        return Err(EOFError), next;
      }
      documents, next := Err(KeyError), next + 1;
    } else {
      documents := Err(UnboundLocalError);
    }
  }

  /**
   * `create_vector_db`: chunk the documents (standard-deviation breakpoints),
   * embed them and save the index under `name`, replacing whatever was there.
   * `buildFails` says when the embedding, chunking or FAISS calls raise.
   */
  function Built(dir: Directory, documents: seq<Document>, name: string,
                 buildFails: seq<Document> -> bool): (r: (Status, Directory))
    ensures buildFails(documents) ==> r == (Failed(LibraryError), dir)
    ensures !buildFails(documents) ==> r.0 == Completed && r.1 == Saved(dir, name, FaissIndex(documents, StandardDeviation))
  {
    if buildFails(documents) then (Failed(LibraryError), dir)
    else (Completed, Saved(dir, name, FaissIndex(documents, StandardDeviation)))
  }

  /**
   * `resync_vector_db`: nothing for a name that does not exist; otherwise
   * load the documents, delete the path, and build the index again. A
   * build failure after the delete leaves the index gone.
   */
  function Resynced(dir: Directory, name: string, lines: seq<string>, pos: nat,
                    folders: map<string, Option<seq<Document>>>, buildFails: seq<Document> -> bool)
    : (r: (Status, nat, Directory))
    requires pos <= |lines|
    ensures pos <= r.1 <= |lines|
    ensures !Exists(dir, name) ==> r == (Completed, pos, dir)
    ensures Exists(dir, name) && Loaded(lines, pos, folders).0.Err? ==>
              r == (Failed(Loaded(lines, pos, folders).0.error), Loaded(lines, pos, folders).1, dir)
    ensures r.0 == Completed && Exists(dir, name) ==>
              Loaded(lines, pos, folders).0.Ok? && r.1 == Loaded(lines, pos, folders).1 &&
              r.2 == Saved(Removed(dir, name), name, FaissIndex(Loaded(lines, pos, folders).0.value, StandardDeviation))
    ensures !DenotesRoot(name) ==> r.2.dbs.Keys <= dir.dbs.Keys
    ensures !DenotesRoot(name) ==>
              forall k :: k != name ==> (k in r.2.dbs <==> k in dir.dbs) && (k in dir.dbs ==> r.2.dbs[k] == dir.dbs[k])
    ensures Consistent(dir) ==> Consistent(r.2)
  {
    if !Exists(dir, name) then (Completed, pos, dir)
    else
      var (documents, next) := Loaded(lines, pos, folders);
      if documents.Err? then (Failed(documents.error), next, dir)
      else
        var (status, rebuilt) := Built(Removed(dir, name), documents.value, name, buildFails);
        (status, next, rebuilt)
  }

  /** Resync is destructive first: when loading succeeds and the rebuild fails, the index is lost. */
  lemma ResyncFailureAfterLoadLosesIndex(dir: Directory, name: string, lines: seq<string>, pos: nat,
                                         folders: map<string, Option<seq<Document>>>, buildFails: seq<Document> -> bool)
    requires pos <= |lines| && name in dir.dbs && !DenotesRoot(name)
    requires Loaded(lines, pos, folders).0.Ok? && buildFails(Loaded(lines, pos, folders).0.value)
    ensures Resynced(dir, name, lines, pos, folders, buildFails).0 == Failed(LibraryError)
    ensures name !in Resynced(dir, name, lines, pos, folders, buildFails).2.dbs
  {
  }

  /** A status as the menu loop sees it: a failure escapes the loop. */
  function AsStep(status: Status): Step
  {
    match status
    case Completed => Continue
    case Failed(e) => Abort(e)
  }

  /**
   * One pass of `main`'s loop, reading from line `pos`: the choice, then
   * what the chosen operation reads. Choice 1 on an existing name asks
   * whether to resync and does so only on a (lower-cased) "y"; on a new name
   * it loads and builds. Choice 2 resyncs, 3 deletes an existing path, 4
   * exits; anything else is an invalid choice and the loop goes round again.
   */
  function MenuStep(dir: Directory, lines: seq<string>, pos: nat,
                    folders: map<string, Option<seq<Document>>>, buildFails: seq<Document> -> bool)
    : (r: (Step, nat, Directory))
    requires pos <= |lines|
    ensures pos <= r.1 <= |lines|
    ensures pos < |lines| ==> pos < r.1
    ensures r.0 == Exit <==> pos < |lines| && lines[pos] == "4"
    ensures pos < |lines| && lines[pos] !in {"1", "2", "3", "4"} ==> r == (Continue, pos + 1, dir)
    ensures Consistent(dir) ==> Consistent(r.2)
  {
    if pos == |lines| then (Abort(EOFError), pos, dir)
    else
      var choice := lines[pos];
      if choice == "1" then
        if pos + 1 == |lines| then (Abort(EOFError), pos + 1, dir)
        else
          var name := lines[pos + 1];
          if Exists(dir, name) then
            if pos + 2 == |lines| then (Abort(EOFError), pos + 2, dir)
            else if Lower(lines[pos + 2]) == "y" then
              var (status, next, dir') := Resynced(dir, name, lines, pos + 3, folders, buildFails);
              (AsStep(status), next, dir')
            else (Continue, pos + 3, dir)
          else
            var (documents, next) := Loaded(lines, pos + 2, folders);
            if documents.Err? then (Abort(documents.error), next, dir)
            else
              var (status, dir') := Built(dir, documents.value, name, buildFails);
              (AsStep(status), next, dir')
      else if choice == "2" then
        if pos + 1 == |lines| then (Abort(EOFError), pos + 1, dir)
        else
          var (status, next, dir') := Resynced(dir, lines[pos + 1], lines, pos + 2, folders, buildFails);
          (AsStep(status), next, dir')
      else if choice == "3" then
        if pos + 1 == |lines| then (Abort(EOFError), pos + 1, dir)
        else if Exists(dir, lines[pos + 1]) then (Continue, pos + 2, Removed(dir, lines[pos + 1]))
        else (Continue, pos + 2, dir)
      else if choice == "4" then (Exit, pos + 1, dir)
      else (Continue, pos + 1, dir)
  }

  /**
   * One pass changes at most the index named on the line after the choice,
   * when that name does not denote the directory itself.
   */
  lemma MenuStepTouchesOnlyNamedIndex(dir: Directory, lines: seq<string>, pos: nat,
                                      folders: map<string, Option<seq<Document>>>, buildFails: seq<Document> -> bool,
                                      k: string)
    requires pos <= |lines|
    requires pos + 1 < |lines| ==> k != lines[pos + 1] && !DenotesRoot(lines[pos + 1])
    ensures var dir' := MenuStep(dir, lines, pos, folders, buildFails).2;
            (k in dir'.dbs <==> k in dir.dbs) && (k in dir.dbs ==> dir'.dbs[k] == dir.dbs[k])
  {
  }

  /** Deleting a name that denotes the directory removes the directory and every index in it. */
  lemma DeletingRootNameWipesDirectory(dir: Directory, lines: seq<string>, pos: nat,
                                       folders: map<string, Option<seq<Document>>>, buildFails: seq<Document> -> bool)
    requires pos + 1 < |lines| && lines[pos] == "3" && DenotesRoot(lines[pos + 1]) && dir.present
    ensures MenuStep(dir, lines, pos, folders, buildFails) == (Continue, pos + 2, Directory(false, map[]))
  {
  }

  /** Choice 1 on an existing name with any answer but "y" changes nothing and asks nothing more. */
  lemma DeclinedResyncKeepsIndex(dir: Directory, lines: seq<string>, pos: nat,
                                 folders: map<string, Option<seq<Document>>>, buildFails: seq<Document> -> bool)
    requires pos + 2 < |lines| && lines[pos] == "1" && Exists(dir, lines[pos + 1]) && Lower(lines[pos + 2]) != "y"
    ensures MenuStep(dir, lines, pos, folders, buildFails) == (Continue, pos + 3, dir)
  {
  }

  /** The menu loop from line `pos` on: passes until one exits or aborts. */
  function Menu(dir: Directory, lines: seq<string>, pos: nat,
                folders: map<string, Option<seq<Document>>>, buildFails: seq<Document> -> bool)
    : (r: (MenuEnd, nat, Directory))
    requires pos <= |lines|
    ensures pos <= r.1 <= |lines|
    ensures r.0 == Exited ==> pos < r.1 && lines[r.1 - 1] == "4"
    decreases |lines| - pos
  {
    var (step, next, dir') := MenuStep(dir, lines, pos, folders, buildFails);
    match step
    case Exit => (Exited, next, dir')
    case Abort(e) => (Aborted(e), next, dir')
    case Continue => Menu(dir', lines, next, folders, buildFails)
  }

  /** The loop only exits normally if some choice line reads "4". */
  lemma {:induction false} ExitNeedsChoiceFour(dir: Directory, lines: seq<string>, pos: nat,
                                               folders: map<string, Option<seq<Document>>>, buildFails: seq<Document> -> bool)
    requires pos <= |lines|
    requires "4" !in lines[pos..]
    ensures Menu(dir, lines, pos, folders, buildFails).0.Aborted?
    decreases |lines| - pos
  {
    var (step, next, dir') := MenuStep(dir, lines, pos, folders, buildFails);
    if step.Continue? {
      assert lines[next..] == lines[pos..][next - pos..];
      ExitNeedsChoiceFour(dir', lines, next, folders, buildFails);
    }
  }

  /** A whole session keeps the directory consistent. */
  lemma {:induction false} MenuKeepsDirectoryConsistent(dir: Directory, lines: seq<string>, pos: nat,
                                                        folders: map<string, Option<seq<Document>>>,
                                                        buildFails: seq<Document> -> bool)
    requires pos <= |lines| && Consistent(dir)
    ensures Consistent(Menu(dir, lines, pos, folders, buildFails).2)
    decreases |lines| - pos
  {
    var (step, next, dir') := MenuStep(dir, lines, pos, folders, buildFails);
    if step.Continue? {
      MenuKeepsDirectoryConsistent(dir', lines, next, folders, buildFails);
    }
  }

  /**
   * Indexes the whole session never names survive it unchanged, when no
   * line of the session denotes the directory itself.
   */
  lemma {:induction false} UnnamedIndexesSurvive(dir: Directory, lines: seq<string>, pos: nat,
                                                 folders: map<string, Option<seq<Document>>>,
                                                 buildFails: seq<Document> -> bool, k: string)
    requires pos <= |lines|
    requires k !in lines[pos..]
    requires forall j :: pos <= j < |lines| ==> !DenotesRoot(lines[j])
    ensures var dir' := Menu(dir, lines, pos, folders, buildFails).2;
            (k in dir'.dbs <==> k in dir.dbs) && (k in dir.dbs ==> dir'.dbs[k] == dir.dbs[k])
    decreases |lines| - pos
  {
    if pos + 1 < |lines| {
      assert lines[pos + 1] == lines[pos..][1];
    }
    MenuStepTouchesOnlyNamedIndex(dir, lines, pos, folders, buildFails, k);
    var (step, next, dir') := MenuStep(dir, lines, pos, folders, buildFails);
    if step.Continue? {
      assert lines[next..] == lines[pos..][next - pos..];
      UnnamedIndexesSurvive(dir', lines, next, folders, buildFails, k);
    }
  }

  /** The index directory and the context folders the script works on. */
  class VectorDbDirectory {
    var directory: Directory
    const contextFolders: map<string, Option<seq<Document>>>
    const buildFails: seq<Document> -> bool

    constructor (directory: Directory, contextFolders: map<string, Option<seq<Document>>>,
                 buildFails: seq<Document> -> bool)
      ensures this.directory == directory && this.contextFolders == contextFolders && this.buildFails == buildFails
    {
      this.directory := directory;
      this.contextFolders := contextFolders;
      this.buildFails := buildFails;
    }

    /** `create_vector_db` */
    method CreateVectorDb(documents: seq<Document>, name: string) returns (status: Status)
      modifies this
      ensures (status, directory) == Built(old(directory), documents, name, buildFails)
    {
      if buildFails(documents) {
        return Failed(LibraryError);
      }
      if DenotesRoot(name) {
        directory := directory.(present := true);
      } else {
        directory := Directory(true, directory.dbs[name := FaissIndex(documents, StandardDeviation)]);
      }
      status := Completed;
    }

    /**
     * `delete_vector_db`: remove the path if it exists, which for a name
     * denoting the directory is the whole directory; otherwise nothing changes.
     */
    method DeleteVectorDb(name: string)
      modifies this
      ensures directory == if Exists(old(directory), name) then Removed(old(directory), name) else old(directory)
    {
      if DenotesRoot(name) {
        if directory.present {
          directory := Directory(false, map[]);
        }
      } else if name in directory.dbs {
        directory := directory.(dbs := directory.dbs - {name});
      }
    }

    /** `resync_vector_db` */
    method ResyncVectorDb(name: string, lines: seq<string>, pos: nat) returns (status: Status, next: nat)
      requires pos <= |lines|
      modifies this
      ensures (status, next, directory) == Resynced(old(directory), name, lines, pos, contextFolders, buildFails)
    {
      if !Exists(directory, name) {
        return Completed, pos;
      }
      var documents;
      documents, next := LoadDocuments(lines, pos, contextFolders);
      if documents.Err? {
        return Failed(documents.error), next;
      }
      DeleteVectorDb(name);
      status := CreateVectorDb(documents.value, name);
    }

    /** One pass of `main`'s loop. */
    method RunMenuStep(lines: seq<string>, pos: nat) returns (step: Step, next: nat)
      requires pos <= |lines|
      modifies this
      ensures (step, next, directory) == MenuStep(old(directory), lines, pos, contextFolders, buildFails)
    {
      if pos == |lines| {
        return Abort(EOFError), pos;
      }
      var choice := lines[pos];
      next := pos + 1;
      if choice == "1" {
        if next == |lines| {
          return Abort(EOFError), next;
        }
        var dbName := lines[next];
        next := next + 1;
        if Exists(directory, dbName) {
          if next == |lines| {
            return Abort(EOFError), next;
          }
          var resync := Lower(lines[next]);
          next := next + 1;
          if resync == "y" {
            var status;
            status, next := ResyncVectorDb(dbName, lines, next);
            step := AsStep(status);
          } else {
            step := Continue;
          }
        } else {
          var documents;
          documents, next := LoadDocuments(lines, next, contextFolders);
          if documents.Err? {
            return Abort(documents.error), next;
          }
          var status := CreateVectorDb(documents.value, dbName);
          step := AsStep(status);
        }
      } else if choice == "2" {
        if next == |lines| {
          return Abort(EOFError), next;
        }
        var status;
        status, next := ResyncVectorDb(lines[next], lines, next + 1);
        step := AsStep(status);
      } else if choice == "3" {
        if next == |lines| {
          return Abort(EOFError), next;
        }
        DeleteVectorDb(lines[next]);
        next := next + 1;
        step := Continue;
      } else if choice == "4" {
        step := Exit;
      } else {
        step := Continue;
      }
    }

    /** `main`: run the menu until choice 4 or an escaping exception. */
    method RunMenu(lines: seq<string>) returns (end: MenuEnd, consumed: nat)
      modifies this
      ensures (end, consumed, directory) == Menu(old(directory), lines, 0, contextFolders, buildFails)
    {
      var pos := 0;
      while true
        invariant pos <= |lines|
        invariant Menu(directory, lines, pos, contextFolders, buildFails) ==
                  Menu(old(directory), lines, 0, contextFolders, buildFails)
        decreases |lines| - pos
      {
        var step, next := RunMenuStep(lines, pos);
        match step {
          case Exit => return Exited, next;
          case Abort(e) => return Aborted(e), next;
          case Continue => pos := next;
        }
      }
    }
  }
}
