/**
 * Locating the Gold CSV exports (streamlit_app/utils/data.py): the ordered,
 * de-duplicated list of candidate folders, the first-existing-file lookup
 * with the list of tried paths, and the default export folder. Paths are
 * strings joined with "/", and the file system is an oracle predicate.
 */
module Paths {
  import opened Wrappers

  type Path = string

  /** root / part, as pathlib renders it. */
  function Join(base: Path, part: string): Path {
    base + "/" + part
  }

  /** The repo-level export folder root/data/gold_exports. */
  function RepoExports(root: Path): Path { Join(Join(root, "data"), "gold_exports") }

  /** The app-level export folder root/streamlit_app/data/gold_exports. */
  function AppExports(root: Path): Path { Join(Join(Join(root, "streamlit_app"), "data"), "gold_exports") }

  /** `if user_folder:` — None and "" are falsy. */
  predicate Truthy(user: Option<string>) {
    user.Some? && user.value != ""
  }

  /** The fixed fall-back folders, in order: two under the repo root, two under the working directory. */
  function FixedCandidates(root: Path, cwd: Path): (r: seq<Path>)
    ensures |r| == 4
  {
    [RepoExports(root), AppExports(root), Join(Join(cwd, "data"), "gold_exports"), Join(cwd, "gold_exports")]
  }

  /** candidates before de-duplication: the user folder first iff it is truthy. */
  function RawCandidates(user: Option<string>, root: Path, cwd: Path): seq<Path> {
    (if Truthy(user) then [user.value] else []) + FixedCandidates(root, cwd)
  }

  // ---------------------------------------------------------------------------
  // Order-preserving de-duplication
  // ---------------------------------------------------------------------------

  /** The first occurrence of every element of s, in the order of s. */
  function Dedup(s: seq<Path>): seq<Path>
    decreases |s|
  {
    if s == [] then []
    else
      var d := Dedup(s[..|s| - 1]);
      if s[|s| - 1] in d then d else d + [s[|s| - 1]]
  }

  predicate NoDuplicates(s: seq<Path>) {
    forall i, j :: 0 <= i < j < |s| ==> s[i] != s[j]
  }

  /** The index of the first occurrence of x in s. */
  function FirstIndex(s: seq<Path>, x: Path): (i: nat)
    requires x in s
    ensures i < |s| && s[i] == x && x !in s[..i]
  {
    if s[0] == x then 0
    else
      assert x in s[1..];
      var j := FirstIndex(s[1..], x);
      assert s[..j + 1] == [s[0]] + s[1..][..j];
      j + 1
  }

  /** The loop over candidates with the seen set. */
  method DedupPaths(candidates: seq<Path>) returns (uniq: seq<Path>)
    ensures uniq == Dedup(candidates)
  {
    var seen: set<Path> := {};
    uniq := [];
    var i := 0;
    while i < |candidates|
      invariant 0 <= i <= |candidates|
      invariant uniq == Dedup(candidates[..i])
      invariant forall x :: x in seen <==> x in uniq
    {
      var key := candidates[i];
      assert candidates[..i + 1][..i] == candidates[..i];
      if key !in seen {
        seen := seen + {key};
        uniq := uniq + [key];
      }
      i := i + 1;
    }
    assert candidates[..i] == candidates;
  }

  /** The de-duplicated list has no repeated key and exactly the keys of its input. */
  lemma {:induction false} DedupElements(s: seq<Path>)
    ensures NoDuplicates(Dedup(s))
    ensures forall x :: x in Dedup(s) <==> x in s
    decreases |s|
  {
    if s != [] {
      var p := s[..|s| - 1];
      DedupElements(p);
      assert s == p + [s[|s| - 1]];
    }
  }

  /** Keys keep the order of their first occurrences in the input. */
  lemma {:induction false} DedupKeepsFirstOccurrenceOrder(s: seq<Path>)
    ensures forall i, j :: 0 <= i < j < |Dedup(s)| ==>
      Dedup(s)[i] in s && Dedup(s)[j] in s && FirstIndex(s, Dedup(s)[i]) < FirstIndex(s, Dedup(s)[j])
    decreases |s|
  {
    if s != [] {
      var p := s[..|s| - 1];
      var x := s[|s| - 1];
      var d := Dedup(p);
      var r := Dedup(s);
      DedupKeepsFirstOccurrenceOrder(p);
      DedupElements(p);
      assert s == p + [x];
      forall i, j | 0 <= i < j < |r|
        ensures r[i] in s && r[j] in s && FirstIndex(s, r[i]) < FirstIndex(s, r[j])
      {
        assert r[i] == d[i] && r[i] in p;
        FirstIndexPrefix(p, [x], r[i]);
        if j < |d| {
          assert r[j] == d[j];
          FirstIndexPrefix(p, [x], r[j]);
        } else {
          assert r[j] == x && x !in p;
          assert s[..|p|] == p;
          FirstIndexUnique(s, x, |p|);
        }
      }
      assert r == Dedup(s);
    } else {
      assert Dedup(s) == [];
    }
  }

  /** The first occurrence is the unique index i with s[i] == x and no x before it. */
  lemma FirstIndexUnique(s: seq<Path>, x: Path, i: nat)
    requires i < |s| && s[i] == x && x !in s[..i]
    ensures FirstIndex(s, x) == i
  {
  }

  lemma FirstIndexPrefix(p: seq<Path>, q: seq<Path>, y: Path)
    requires y in p
    ensures y in p + q && FirstIndex(p + q, y) == FirstIndex(p, y)
  {
    var i := FirstIndex(p, y);
    assert (p + q)[i] == y && (p + q)[..i] == p[..i];
    FirstIndexUnique(p + q, y, i);
  }

  /** A list that already has no repeated key is left as it is. */
  lemma {:induction false} DedupOfDistinct(s: seq<Path>)
    requires NoDuplicates(s)
    ensures Dedup(s) == s
    decreases |s|
  {
    if s != [] {
      var p := s[..|s| - 1];
      assert NoDuplicates(p);
      DedupOfDistinct(p);
      DedupElements(p);
      assert s[|s| - 1] !in p;
    }
  }

  /** The first key of a non-empty list survives de-duplication in front. */
  lemma DedupHead(s: seq<Path>)
    requires s != []
    ensures Dedup(s) != [] && Dedup(s)[0] == s[0]
  {
    DedupElements(s);
    DedupKeepsFirstOccurrenceOrder(s);
    var i := FirstIndex(s, s[0]);
    assert i == 0;
    var k :| 0 <= k < |Dedup(s)| && Dedup(s)[k] == s[0];
    assert k == 0;
  }

  // ---------------------------------------------------------------------------
  // _candidate_folders, load_csv_folder, get_default_export_folder
  // ---------------------------------------------------------------------------

  /** _candidate_folders: the user folder (if truthy), the four fixed folders, de-duplicated. */
  method CandidateFolders(user: Option<string>, root: Path, cwd: Path) returns (uniq: seq<Path>)
    ensures uniq == Dedup(RawCandidates(user, root, cwd))
  {
    var candidates: seq<Path> := [];
    if user.Some? && user.value != "" {
      candidates := candidates + [user.value];
    }
    candidates := candidates + FixedCandidates(root, cwd);
    assert candidates == RawCandidates(user, root, cwd);
    uniq := DedupPaths(candidates);
  }

  /**
   * The candidate list puts a truthy user folder first, contains the user
   * folder iff it is truthy (or coincides with a fixed folder), and always
   * contains the four fixed folders, without repeats.
   */
  lemma CandidateFoldersOrder(user: Option<string>, root: Path, cwd: Path)
    ensures Truthy(user) ==> Dedup(RawCandidates(user, root, cwd))[0] == user.value
    ensures !Truthy(user) ==> Dedup(RawCandidates(user, root, cwd)) == Dedup(FixedCandidates(root, cwd))
    ensures forall x :: x in Dedup(RawCandidates(user, root, cwd)) <==>
      (Truthy(user) && x == user.value) || x in FixedCandidates(root, cwd)
    ensures NoDuplicates(Dedup(RawCandidates(user, root, cwd)))
  {
    var raw := RawCandidates(user, root, cwd);
    DedupElements(raw);
    DedupHead(raw);
    if !Truthy(user) {
      assert raw == FixedCandidates(root, cwd);
    }
  }

  /** The outcome of load_csv_folder. */
  datatype LoadOutcome =
    | Loaded(path: Path)          // pd.read_csv(path) of the first file found
    | EmptyFrame                  // not found and not required: pd.DataFrame()
    | FileNotFound(message: string)

  /** The index of the first candidate whose base / filename is an existing file. */
  function FirstExisting(cands: seq<Path>, filename: string, isFile: Path -> bool): (r: Option<nat>)
    ensures r.Some? ==> r.value < |cands| && isFile(Join(cands[r.value], filename))
    ensures r.Some? ==> forall k :: 0 <= k < r.value ==> !isFile(Join(cands[k], filename))
    ensures r.None? ==> forall k :: 0 <= k < |cands| ==> !isFile(Join(cands[k], filename))
    decreases |cands|
  {
    if cands == [] then None
    else if isFile(Join(cands[0], filename)) then Some(0)
    else
      match FirstExisting(cands[1..], filename, isFile)
      case None => None
      case Some(i) => Some(i + 1)
  }

  /** "\n- ".join(paths) */
  function JoinLines(paths: seq<Path>): string
    decreases |paths|
  {
    if paths == [] then ""
    else if |paths| == 1 then paths[0]
    else paths[0] + "\n- " + JoinLines(paths[1..])
  }

  /** The FileNotFoundError message: the file name, the tried locations and the fix options. */
  function NotFoundMessage(filename: string, tried: seq<Path>): string {
    "Missing required file: '" + filename + "'.\n\n"
      + "Tried these locations:\n- " + JoinLines(tried) + "\n\n"
      + "Fix options:\n"
      + "1) Export Gold CSVs into one of the folders above, OR\n"
      + "2) Update the sidebar 'Gold export folder' to the correct path, OR\n"
      + "3) Put CSVs under repo 'data/gold_exports' for Streamlit Cloud.\n"
  }

  /** The paths load_csv_folder tries: base / filename for each candidate. */
  function TriedPaths(cands: seq<Path>, filename: string): (r: seq<Path>)
    ensures |r| == |cands|
    ensures forall k :: 0 <= k < |cands| ==> r[k] == Join(cands[k], filename)
  {
    seq(|cands|, k requires 0 <= k < |cands| => Join(cands[k], filename))
  }

  /** The loop of load_csv_folder over given candidates: first existing file, else an error or an empty frame. */
  method LoadFromCandidates(cands: seq<Path>, filename: string, required: bool, isFile: Path -> bool)
    returns (outcome: LoadOutcome, tried: seq<Path>)
    ensures FirstExisting(cands, filename, isFile).Some? ==>
      var i := FirstExisting(cands, filename, isFile).value;
      outcome == Loaded(Join(cands[i], filename)) && tried == TriedPaths(cands[..i + 1], filename)
    ensures FirstExisting(cands, filename, isFile).None? ==>
      tried == TriedPaths(cands, filename) &&
      outcome == (if required then FileNotFound(NotFoundMessage(filename, tried)) else EmptyFrame)
  {
    tried := [];
    var i := 0;
    while i < |cands|
      invariant 0 <= i <= |cands|
      invariant forall k :: 0 <= k < i ==> !isFile(Join(cands[k], filename))
      invariant tried == TriedPaths(cands[..i], filename)
    {
      var path := Join(cands[i], filename);
      tried := tried + [path];
      if isFile(path) {
        assert FirstExisting(cands, filename, isFile) == Some(i) by {
          FirstExistingIsFirst(cands, filename, isFile, i);
        }
        return Loaded(path), tried;
      }
      i := i + 1;
    }
    assert cands[..i] == cands;
    if required {
      outcome := FileNotFound(NotFoundMessage(filename, tried));
    } else {
      outcome := EmptyFrame;
    }
  }

  /** An existing file with no existing file before it is the one FirstExisting finds. */
  lemma FirstExistingIsFirst(cands: seq<Path>, filename: string, isFile: Path -> bool, i: nat)
    requires i < |cands| && isFile(Join(cands[i], filename))
    requires forall k :: 0 <= k < i ==> !isFile(Join(cands[k], filename))
    ensures FirstExisting(cands, filename, isFile) == Some(i)
  {
  }

  /** load_csv_folder(folder, filename, required). */
  method LoadCsvFolder(folder: Option<string>, filename: string, required: bool, root: Path, cwd: Path,
                       isFile: Path -> bool)
    returns (outcome: LoadOutcome, tried: seq<Path>)
    ensures var cands := Dedup(RawCandidates(folder, root, cwd));
      match FirstExisting(cands, filename, isFile)
      case Some(i) =>
        outcome == Loaded(Join(cands[i], filename)) && tried == TriedPaths(cands[..i + 1], filename)
      case None =>
        (tried == TriedPaths(cands, filename) &&
         outcome == (if required then FileNotFound(NotFoundMessage(filename, tried)) else EmptyFrame))
  {
    var cands := CandidateFolders(folder, root, cwd);
    outcome, tried := LoadFromCandidates(cands, filename, required, isFile);
  }

  /** A truthy user folder holding the file wins over every fixed folder. */
  lemma UserFolderWins(folder: Option<string>, filename: string, root: Path, cwd: Path, isFile: Path -> bool)
    requires Truthy(folder) && isFile(Join(folder.value, filename))
    ensures FirstExisting(Dedup(RawCandidates(folder, root, cwd)), filename, isFile) == Some(0)
  {
    var cands := Dedup(RawCandidates(folder, root, cwd));
    CandidateFoldersOrder(folder, root, cwd);
    FirstExistingIsFirst(cands, filename, isFile, 0);
  }

  /** The lookup finds nothing exactly when no candidate holds the file. */
  lemma NothingFoundIffNoCandidateHasFile(cands: seq<Path>, filename: string, isFile: Path -> bool)
    ensures FirstExisting(cands, filename, isFile).None? <==>
      forall k :: 0 <= k < |cands| ==> !isFile(Join(cands[k], filename))
  {
  }

  /** The two export folders get_default_export_folder considers, repo level first. */
  function ExportCandidates(root: Path): (r: seq<Path>)
    ensures |r| == 2
  {
    [RepoExports(root), AppExports(root)]
  }

  /** get_default_export_folder: the first existing directory, else the repo-level folder. */
  method DefaultExportFolder(root: Path, isDir: Path -> bool) returns (folder: Path)
    ensures isDir(RepoExports(root)) ==> folder == RepoExports(root)
    ensures !isDir(RepoExports(root)) && isDir(AppExports(root)) ==> folder == AppExports(root)
    ensures !isDir(RepoExports(root)) && !isDir(AppExports(root)) ==> folder == RepoExports(root)
    ensures folder in ExportCandidates(root)
  {
    var candidates := ExportCandidates(root);
    assert candidates[0] == RepoExports(root) && candidates[1] == AppExports(root);
    var i := 0;
    while i < |candidates|
      invariant 0 <= i <= |candidates|
      invariant forall k :: 0 <= k < i ==> !isDir(candidates[k])
    {
      if isDir(candidates[i]) {
        return candidates[i];
      }
      i := i + 1;
    }
    return candidates[0];
  }
}
