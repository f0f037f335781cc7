/**
 * The read-only file system over an opened zip archive
 * (`NodeZipFileSystem` in packages/system/index.ts) and the pass-through
 * branch of `resolveFileSystem`.
 *
 * Every query reads one immutable value: the archive's entry-name table,
 * the keys of `zip.entries` in the order `Object.keys` lists them. An
 * entry whose name ends in "/" is an explicit directory entry; many
 * archives have none, so a directory is also inferred from the names of
 * the entries below it.
 */
module ZipFileSystem {
  import opened Results
  import opened Text
  import opened Seqs

  /** The zip file system's path separator, its kind, and that it is read-only. */
  const Separator: char := '/'
  const Kind: string := "zip"
  const Writeable: bool := false

  /**
   * `dir` is a directory implied by the entry names: some entry continues
   * `dir` with a "/".
   */
  ghost predicate Implied(entries: seq<string>, dir: string) {
    exists i, k :: 0 <= i < |entries| && 0 <= k < |entries[i]| && entries[i][k] == '/' && entries[i][..k] == dir
  }

  /** `entries.some((e) => e.startsWith(prefix))` */
  function AnyStartsWith(entries: seq<string>, prefix: string): (r: bool)
    ensures r <==> exists i :: 0 <= i < |entries| && StartsWith(entries[i], prefix)
  {
    if |entries| == 0 then false
    else StartsWith(entries[0], prefix) || AnyStartsWith(entries[1..], prefix)
  }

  /** Some entry starts with `dir + "/"` exactly when `dir` is an implied directory. */
  lemma ImpliedByPrefix(entries: seq<string>, dir: string)
    ensures Implied(entries, dir) <==> AnyStartsWith(entries, dir + "/")
  {
    if Implied(entries, dir) {
      var i, k :| 0 <= i < |entries| && 0 <= k < |entries[i]| && entries[i][k] == '/' && entries[i][..k] == dir;
      assert entries[i][..k + 1] == dir + "/";
    }
    if AnyStartsWith(entries, dir + "/") {
      var i :| 0 <= i < |entries| && StartsWith(entries[i], dir + "/");
      var k := |dir|;
      assert entries[i][..k] == (dir + "/")[..k] == dir;
      assert entries[i][k] == (dir + "/")[k] == '/';
    }
  }

  /** `(e) => e.startsWith(prefix)` */
  function Under(prefix: string): string -> bool {
    e => StartsWith(e, prefix)
  }

  /** An entry that is not an explicit directory entry. */
  predicate NotDirectoryEntry(e: string) {
    !EndsWith(e, "/")
  }

  /** Both conditions at once. */
  function Both(p: string -> bool, q: string -> bool): string -> bool {
    e => p(e) && q(e)
  }

  /**
   * The name `entry` contributes to a listing of `prefix`: what follows the
   * prefix, less one leading "/", up to the next "/".
   */
  function ChildName(entry: string, prefix: string): string {
    FirstSegment(StripLeadingSlash(Substring(entry, |prefix|)), Separator)
  }

  datatype ZipFs = ZipFs(root: string, entries: seq<string>) {

    /** `paths.join("/")` */
    function Join(paths: seq<string>): string {
      Text.Join(paths, Separator)
    }

    /**
     * An entry answers for itself: it is a directory exactly when its name
     * ends in "/". Any other name is a directory exactly when the entry
     * names imply it, whether or not `name + "/"` is itself an entry.
     */
    function IsDirectory(name: string): (r: bool)
      ensures name in entries ==> (r <==> EndsWith(name, "/"))
      ensures name !in entries ==> (r <==> Implied(entries, name))
    {
      ImpliedByPrefix(entries, name);
      assert name + "/" in entries ==> StartsWith(name + "/", name + "/");
      if name in entries then EndsWith(name, "/")
      else if name + "/" in entries then true
      else AnyStartsWith(entries, name + "/")
    }

    /**
     * After dropping one leading "/", a name exists when it is an entry or
     * an implied directory.
     */
    function ExistsFile(name: string): (r: bool)
      ensures var n := StripLeadingSlash(name);
        r <==> n in entries || Implied(entries, n)
    {
      var n := StripLeadingSlash(name);
      ImpliedByPrefix(entries, n);
      assert n + "/" in entries ==> StartsWith(n + "/", n + "/");
      if n in entries || n + "/" in entries then true
      else AnyStartsWith(entries, n + "/")
    }

    /**
     * The lookup part of `readFile`: the position of the entry with exactly
     * this name, with no slash normalisation, or the not-found error.
     */
    function ReadFile(name: string): (r: Result<nat>)
      ensures r.Err? <==> name !in entries
      ensures r.Ok? ==> r.value < |entries| && entries[r.value] == name
      ensures r.Err? ==> r.message == "Not found file named " + name
    {
      if name in entries then Ok(FirstIndex(entries, name))
      else Err("Not found file named " + name)
    }

    /** The child name of every entry under `prefix`, in entry order, repeats included. */
    function ChildNames(prefix: string): seq<string> {
      Map(Filter(entries, Under(prefix)), e => ChildName(e, prefix))
    }

    /** The child names are those of the entries that start with the prefix. */
    lemma ChildNamesMembers(prefix: string)
      ensures forall c :: c in ChildNames(prefix) <==>
        exists i :: 0 <= i < |entries| && StartsWith(entries[i], prefix) && c == ChildName(entries[i], prefix)
    {
      var under, names := Filter(entries, Under(prefix)), ChildNames(prefix);
      FilterMembers(entries, Under(prefix));
      forall c | c in names
        ensures exists i :: 0 <= i < |entries| && StartsWith(entries[i], prefix) && c == ChildName(entries[i], prefix)
      {
        var k :| 0 <= k < |names| && names[k] == c;
        assert Under(prefix)(under[k]) && under[k] in entries;
        var i :| 0 <= i < |entries| && entries[i] == under[k];
        assert c == ChildName(entries[i], prefix);
      }
      forall i | 0 <= i < |entries| && StartsWith(entries[i], prefix)
        ensures ChildName(entries[i], prefix) in names
      {
        assert Under(prefix)(entries[i]);
        var k :| 0 <= k < |under| && under[k] == entries[i];
        assert names[k] == ChildName(entries[i], prefix);
      }
    }

    /**
     * `listFiles`: the names directly below `name` (one leading "/"
     * dropped), each once and none containing "/". The match is on the raw
     * string prefix, not on a directory boundary.
     */
    function ListFiles(name: string): (r: seq<string>)
      ensures Distinct(r)
      ensures forall k :: 0 <= k < |r| ==> Separator !in r[k]
      ensures var n := StripLeadingSlash(name);
        forall c :: c in r <==>
          exists i :: 0 <= i < |entries| && StartsWith(entries[i], n) && c == ChildName(entries[i], n)
    {
      var n := StripLeadingSlash(name);
      ChildNamesMembers(n);
      DedupMembers(ChildNames(n));
      Dedup(ChildNames(n))
    }

    /** A listing names each child in the order of its first appearance among the entries. */
    lemma ListFilesInFirstOccurrenceOrder(name: string)
      ensures var n, r := StripLeadingSlash(name), ListFiles(name);
        forall i, j :: 0 <= i < j < |r| ==>
          FirstIndex(ChildNames(n), r[i]) < FirstIndex(ChildNames(n), r[j])
    {
      DedupFirstOccurrenceOrder(ChildNames(StripLeadingSlash(name)));
    }

    /** The entries `walkFiles` hands to its walker: under the start directory, and not directory entries. */
    function Walked(startingDir: string): seq<string> {
      Filter(Filter(entries, Under(StripLeadingSlash(startingDir))), NotDirectoryEntry)
    }

    /**
     * `walkFiles`: the walker calls, in the order they are made; each call
     * is awaited before the next, so this order is also the order of their
     * effects.
     */
    method WalkFiles(startingDir: string) returns (calls: seq<string>)
      ensures calls == Walked(startingDir)
    {
      var children := Filter(entries, Under(StripLeadingSlash(startingDir)));
      calls := [];
      for i := 0 to |children|
        invariant calls == Filter(children[..i], NotDirectoryEntry)
      {
        assert children[..i + 1] == children[..i] + [children[i]];
        FilterSnoc(children[..i], children[i], NotDirectoryEntry);
        if EndsWith(children[i], "/") {
          continue;
        }
        calls := calls + [children[i]];
      }
      assert children[..|children|] == children;
    }
  }

  /** Filtering twice is filtering once by both conditions. */
  lemma {:induction false} FilterTwice(s: seq<string>, p: string -> bool, q: string -> bool)
    ensures Filter(Filter(s, p), q) == Filter(s, Both(p, q))
  {
    if |s| > 0 {
      FilterTwice(s[1..], p, q);
      var head := if p(s[0]) then [s[0]] else [];
      FilterAppend(head, Filter(s[1..], p), q);
    }
  }

  /** The entries `walkFiles` visits are one filter of the entry table, by both of its conditions. */
  lemma WalkedIsOneFilter(fs: ZipFs, startingDir: string)
    ensures fs.Walked(startingDir) == Filter(fs.entries, Both(Under(StripLeadingSlash(startingDir)), NotDirectoryEntry))
  {
    FilterTwice(fs.entries, Under(StripLeadingSlash(startingDir)), NotDirectoryEntry);
  }

  /**
   * The walker calls follow the entry order: the k-th call is for the
   * entry at the k-th selected position, and these positions increase.
   */
  lemma WalkFilesInEntryOrder(fs: ZipFs, startingDir: string)
    ensures var calls, idx := fs.Walked(startingDir),
        Selected(fs.entries, Both(Under(StripLeadingSlash(startingDir)), NotDirectoryEntry));
      && |calls| == |idx|
      && (forall k :: 0 <= k < |idx| ==> idx[k] < |fs.entries| && calls[k] == fs.entries[idx[k]])
      && (forall k, l :: 0 <= k < l < |idx| ==> idx[k] < idx[l])
  {
    WalkedIsOneFilter(fs, startingDir);
    var p := Both(Under(StripLeadingSlash(startingDir)), NotDirectoryEntry);
    SelectedPositions(fs.entries, p);
    SelectedIncreasing(fs.entries, p);
  }

  /**
   * The walker is called once for each entry that starts with the start
   * directory (one leading "/" dropped) and is not a directory entry, and
   * for no other: those are exactly the selected positions.
   */
  lemma WalkFilesOncePerFile(fs: ZipFs, startingDir: string)
    ensures var root := StripLeadingSlash(startingDir);
      var idx := Selected(fs.entries, Both(Under(root), NotDirectoryEntry));
      forall i :: 0 <= i < |fs.entries| ==>
        (StartsWith(fs.entries[i], root) && !EndsWith(fs.entries[i], "/") <==> i in idx)
  {
    SelectedExactly(fs.entries, Both(Under(StripLeadingSlash(startingDir)), NotDirectoryEntry));
  }

  /**
   * `join` puts exactly one "/" between neighbouring parts and adds
   * nothing else: splitting the result at "/" gives back parts that
   * contain no "/" themselves.
   */
  lemma JoinSeparatesParts(fs: ZipFs, parts: seq<string>)
    requires |parts| >= 1
    requires forall k :: 0 <= k < |parts| ==> Separator !in parts[k]
    ensures Split(fs.Join(parts), Separator) == parts
  {
    SplitJoin(parts, Separator);
  }

  /** Joining the pieces of a path split at "/" gives back the path. */
  lemma JoinOfSplit(fs: ZipFs, path: string)
    ensures fs.Join(Split(path, Separator)) == path
  {
    JoinSplit(path, Separator);
  }

  /** For a name without a leading "/", being a directory implies existing. */
  lemma DirectoryExists(fs: ZipFs, name: string)
    requires !StartsWith(name, "/")
    requires fs.IsDirectory(name)
    ensures fs.ExistsFile(name)
  {
  }

  /** The prefix match is on raw strings: listing "a" also lists "b" for the entry "ab/c". */
  lemma ListFilesMatchesRawPrefix()
    ensures ZipFs("", ["ab/c"]).ListFiles("a") == ["b"]
  {
    var fs := ZipFs("", ["ab/c"]);
    assert StartsWith("ab/c", "a");
    assert Filter(fs.entries, Under("a")) == ["ab/c"];
    assert Substring("ab/c", 1) == "b/c";
    SplitOfPiece("c", '/');
    SplitAfterPiece("b", '/', "c");
    assert "b" + ['/'] + "c" == "b/c";
    assert ChildName("ab/c", "a") == "b";
    assert fs.ChildNames("a") == ["b"];
  }

  /** `readFile` does not drop a leading "/" where `existsFile` does. */
  lemma ReadFileDoesNotNormalise()
    ensures ZipFs("", ["a"]).ExistsFile("/a")
    ensures ZipFs("", ["a"]).ReadFile("/a") == Err("Not found file named /a")
  {
    assert StripLeadingSlash("/a") == "a";
  }

  /** What `resolveFileSystem` is given: a path, the bytes of an archive, or a ready file system. */
  datatype FileSystemSource<Fs> = PathName(path: string) | Bytes(data: seq<bv8>) | Ready(fs: Fs)

  /** Either the given file system, passed through, or a request to open the source. */
  datatype Resolution<Fs> = PassedThrough(fs: Fs) | OpenFrom(source: FileSystemSource<Fs>)

  /** `resolveFileSystem`: a ready file system is returned as it is; anything else is opened. */
  function ResolveFileSystem<Fs>(base: FileSystemSource<Fs>): (r: Resolution<Fs>)
    ensures r.PassedThrough? <==> base.Ready?
    ensures base.Ready? ==> r.fs == base.fs
    ensures r.OpenFrom? ==> r.source == base
  {
    match base
    case Ready(fs) => PassedThrough(fs)
    case _ => OpenFrom(base)
  }
}
