/**
 * The loader's file list (f3d::detail::loader_impl): a duplicate-free list
 * of full paths in the order they were added, where adding a directory adds
 * its entries in sorted order, and the navigation that picks the next file
 * to load (first, last, previous, next or current), wrapping around the
 * ends of the list.
 *
 * The file system is a parameter: path collapsing, existence, the directory
 * test, directory listings, path joining and file-name extraction are given
 * functions and sets.
 */
module FileList {

  /** What the loader asks of the file system. */
  datatype FileSystem = FileSystem(
    collapseFullPath: string -> string,
    existing: set<string>,
    directories: set<string>,
    listing: string -> seq<string>,
    joinPath: (string, string) -> string,
    filenameName: string -> string)

  // ---------------------------------------------------------------------------
  // The order of `std::set<std::string>`: lexicographic on characters.

  predicate Less(a: string, b: string)
  {
    if |a| == 0 then |b| > 0
    else if |b| == 0 then false
    else if a[0] != b[0] then a[0] < b[0]
    else Less(a[1..], b[1..])
  }

  lemma {:induction false} LessIrreflexive(a: string)
    ensures !Less(a, a)
  {
    if |a| > 0 {
      LessIrreflexive(a[1..]);
    }
  }

  lemma {:induction false} LessTransitive(a: string, b: string, c: string)
    requires Less(a, b) && Less(b, c)
    ensures Less(a, c)
  {
    if |a| > 0 && |b| > 0 && |c| > 0 && a[0] == b[0] == c[0] {
      LessTransitive(a[1..], b[1..], c[1..]);
    }
  }

  lemma {:induction false} LessTotal(a: string, b: string)
    requires a != b
    ensures Less(a, b) || Less(b, a)
  {
    if |a| > 0 && |b| > 0 && a[0] == b[0] {
      assert a == [a[0]] + a[1..] && b == [b[0]] + b[1..];
      LessTotal(a[1..], b[1..]);
    }
  }

  /** Strictly increasing, hence without duplicates: the iteration order of a `std::set`. */
  ghost predicate StrictlySorted(s: seq<string>)
  {
    forall i, j :: 0 <= i < j < |s| ==> Less(s[i], s[j])
  }

  /** Inserting into a set kept as a strictly increasing sequence. */
  function InsertSorted(s: seq<string>, x: string): (r: seq<string>)
    requires StrictlySorted(s)
    ensures StrictlySorted(r)
    ensures forall e :: e in r <==> e in s || e == x
  {
    if s == [] then [x]
    else if x == s[0] then s
    else if Less(x, s[0]) then
      assert forall k :: 0 <= k < |s| ==> Less(x, s[k]) by {
        forall k | 0 < k < |s| ensures Less(x, s[k]) {
          LessTransitive(x, s[0], s[k]);
        }
      }
      [x] + s
    else
      LessTotal(x, s[0]);
      var rest := InsertSorted(s[1..], x);
      assert forall e :: e in rest ==> Less(s[0], e) by {
        forall e | e in rest ensures Less(s[0], e) {
          if e != x {
            var k :| 0 <= k < |s[1..]| && s[1..][k] == e;
            assert s[k + 1] == e;
          }
        }
      }
      [s[0]] + rest
  }

  /** The entries of a listing kept by the loader, as the set it iterates: without "." and "..". */
  function SortedNames(entries: seq<string>): (r: seq<string>)
    ensures StrictlySorted(r)
  {
    if entries == [] then []
    else
      var last := entries[|entries| - 1];
      var r := SortedNames(entries[..|entries| - 1]);
      if last != "." && last != ".." then InsertSorted(r, last) else r
  }

  /** The set iterated over holds exactly the entries other than "." and "..". */
  lemma {:induction false} SortedNamesElements(entries: seq<string>)
    ensures forall e :: e in SortedNames(entries) <==> e in entries && e != "." && e != ".."
  {
    if entries != [] {
      var init := entries[..|entries| - 1];
      SortedNamesElements(init);
      assert entries == init + [entries[|entries| - 1]];
    }
  }

  /** Two strictly increasing sequences with the same elements are equal. */
  lemma {:induction false} StrictlySortedUnique(s: seq<string>, t: seq<string>)
    requires StrictlySorted(s) && StrictlySorted(t)
    requires forall e :: e in s <==> e in t
    ensures s == t
  {
    assert s != [] <==> t != [] by {
      if s != [] {
        assert s[0] in t;
      }
      if t != [] {
        assert t[0] in s;
      }
    }
    if s != [] {
      if s[0] != t[0] {
        assert s[0] in t;
        assert t[0] in s;
        var i :| 0 <= i < |t| && t[i] == s[0];
        var j :| 0 <= j < |s| && s[j] == t[0];
        assert i > 0 && j > 0;
        LessTransitive(s[0], s[j], s[0]);
        LessIrreflexive(s[0]);
      }
      forall e
        ensures e in s[1..] <==> e in t[1..]
      {
        if e in s[1..] {
          var k :| 0 <= k < |s[1..]| && s[1..][k] == e;
          assert Less(s[0], s[k + 1]);
          if e == t[0] {
            LessIrreflexive(e);
          }
          assert e in t;
        }
        if e in t[1..] {
          var k :| 0 <= k < |t[1..]| && t[1..][k] == e;
          assert Less(t[0], t[k + 1]);
          if e == s[0] {
            LessIrreflexive(e);
          }
          assert e in s;
        }
      }
      StrictlySortedUnique(s[1..], t[1..]);
      assert s == [s[0]] + s[1..] && t == [t[0]] + t[1..];
    }
  }

  /**
   * The order in which a directory's entries are added depends only on which
   * entries the listing holds, not on the order the file system lists them.
   */
  lemma ListingOrderIrrelevant(entries1: seq<string>, entries2: seq<string>)
    requires forall e :: e in entries1 <==> e in entries2
    ensures SortedNames(entries1) == SortedNames(entries2)
  {
    SortedNamesElements(entries1);
    SortedNamesElements(entries2);
    StrictlySortedUnique(SortedNames(entries1), SortedNames(entries2));
  }

  /** Collects the entries of a directory listing into a set, leaving out "." and "..". */
  method SortEntries(entries: seq<string>) returns (sortedFiles: seq<string>)
    ensures sortedFiles == SortedNames(entries)
  {
    sortedFiles := [];
    for i := 0 to |entries|
      invariant sortedFiles == SortedNames(entries[..i])
    {
      var currentFile := entries[i];
      assert entries[..i + 1][..i] == entries[..i];
      if currentFile != "." && currentFile != ".." {
        sortedFiles := InsertSorted(sortedFiles, currentFile);
      }
    }
    assert entries[..|entries|] == entries;
  }

  // ---------------------------------------------------------------------------
  // Adding files: the list the loader keeps, as a function of the old list.

  ghost predicate NoDuplicates(s: seq<string>)
  {
    forall i, j :: 0 <= i < j < |s| ==> s[i] != s[j]
  }

  /** `addFile(path, false)`: a file that exists and is not yet listed is appended. */
  function AddSingle(fs: FileSystem, files: seq<string>, path: string): (r: seq<string>)
    ensures files <= r
    ensures forall k :: |files| <= k < |r| ==> r[k] in fs.existing && r[k] !in fs.directories
  {
    if path == "" then files
    else
      var fullPath := fs.collapseFullPath(path);
      if fullPath !in fs.existing || fullPath in fs.directories || fullPath in files then files
      else files + [fullPath]
  }

  /** Adds the entries `names` of directory `dir`, one after the other, first to last. */
  function AddEntries(fs: FileSystem, files: seq<string>, dir: string, names: seq<string>): (r: seq<string>)
    ensures files <= r
    ensures forall k :: |files| <= k < |r| ==> r[k] in fs.existing && r[k] !in fs.directories
  {
    if names == [] then files
    else AddSingle(fs, AddEntries(fs, files, dir, names[..|names| - 1]), fs.joinPath(dir, names[|names| - 1]))
  }

  /**
   * `addFile(path, recursive)`: a directory adds its entries in sorted order,
   * but only when recursive. The old list stays in place as a prefix, and
   * everything added exists and is no directory.
   */
  function AddFileSpec(fs: FileSystem, files: seq<string>, path: string, recursive: bool): (r: seq<string>)
    ensures files <= r
    ensures forall k :: |files| <= k < |r| ==> r[k] in fs.existing && r[k] !in fs.directories
  {
    if path == "" then files
    else
      var fullPath := fs.collapseFullPath(path);
      if fullPath !in fs.existing then files
      else if fullPath in fs.directories then
        if recursive then AddEntries(fs, files, fullPath, SortedNames(fs.listing(fullPath))) else files
      else if fullPath in files then files
      else files + [fullPath]
  }

  /** A file `AddSingle` may add: the collapsed form of a non-empty path, existing and not a directory. */
  ghost predicate Addable(fs: FileSystem, path: string)
  {
    path != "" && fs.collapseFullPath(path) in fs.existing && fs.collapseFullPath(path) !in fs.directories
  }

  /** `name` is an entry of `listing` the loader visits. */
  ghost predicate ListedEntry(listing: seq<string>, name: string)
  {
    name in listing && name != "." && name != ".."
  }

  /** `e` is what adding entry `name` of directory `dir` appends, when it appends anything. */
  ghost predicate AddedFrom(fs: FileSystem, dir: string, name: string, e: string)
  {
    Addable(fs, fs.joinPath(dir, name)) && e == fs.collapseFullPath(fs.joinPath(dir, name))
  }

  /**
   * Adding entries keeps the list free of duplicates and its old entries in
   * place; what is added is exactly the collapsed paths of the entries that
   * exist and are no directories.
   */
  lemma {:induction false} AddEntriesFacts(fs: FileSystem, files: seq<string>, dir: string, names: seq<string>)
    requires NoDuplicates(files)
    ensures NoDuplicates(AddEntries(fs, files, dir, names))
    ensures files <= AddEntries(fs, files, dir, names)
    ensures forall e :: e in AddEntries(fs, files, dir, names) <==>
      (e in files || exists name :: name in names && AddedFrom(fs, dir, name, e))
  {
    if names != [] {
      var init := names[..|names| - 1];
      var last := names[|names| - 1];
      assert names == init + [last];
      AddEntriesFacts(fs, files, dir, init);
      var r0 := AddEntries(fs, files, dir, init);
      var r := AddSingle(fs, r0, fs.joinPath(dir, last));
      forall e
        ensures e in r <==> (e in files || exists name :: name in names && AddedFrom(fs, dir, name, e))
      {
        if exists name :: name in names && AddedFrom(fs, dir, name, e) {
          var name :| name in names && AddedFrom(fs, dir, name, e);
          if name != last {
            assert name in init;
          }
        }
        if e in r0 && e !in files {
          var name :| name in init && AddedFrom(fs, dir, name, e);
          assert name in names;
        }
        if e in r && e !in r0 {
          assert AddedFrom(fs, dir, last, e);
        }
      }
    }
  }

  /**
   * Adding a path keeps the list free of duplicates and its old entries in
   * place. An empty or missing path changes nothing; an addable file is
   * appended unless already listed; a directory added recursively
   * contributes exactly its addable entries other than "." and "..".
   */
  lemma AddFileFacts(fs: FileSystem, files: seq<string>, path: string, recursive: bool)
    requires NoDuplicates(files)
    ensures NoDuplicates(AddFileSpec(fs, files, path, recursive))
    ensures files <= AddFileSpec(fs, files, path, recursive)
    ensures path == "" || fs.collapseFullPath(path) !in fs.existing ==>
      AddFileSpec(fs, files, path, recursive) == files
    ensures Addable(fs, path) ==>
      AddFileSpec(fs, files, path, recursive) ==
        if fs.collapseFullPath(path) in files then files else files + [fs.collapseFullPath(path)]
    ensures path != "" && fs.collapseFullPath(path) in fs.existing * fs.directories ==>
      forall e :: e in AddFileSpec(fs, files, path, recursive) <==>
        (e in files || (recursive && exists name :: ListedEntry(fs.listing(fs.collapseFullPath(path)), name) &&
                                                    AddedFrom(fs, fs.collapseFullPath(path), name, e)))
  {
    var fullPath := fs.collapseFullPath(path);
    if path != "" && fullPath in fs.existing && fullPath in fs.directories && recursive {
      var names := SortedNames(fs.listing(fullPath));
      AddEntriesFacts(fs, files, fullPath, names);
      SortedNamesElements(fs.listing(fullPath));
    }
  }

  // ---------------------------------------------------------------------------
  // Index arithmetic of `getFileInfo`.

  const Int32Min: int := -0x8000_0000
  const Int32Max: int := 0x7FFF_FFFF

  predicate InInt32(x: int)
  {
    Int32Min <= x <= Int32Max
  }

  /** C++ `a % n` for `n > 0`: truncates toward zero, so the remainder takes the sign of `a`. */
  function TruncatedRemainder(a: int, n: int): (r: int)
    requires n > 0
    ensures -n < r < n
    ensures a >= 0 ==> r >= 0
    ensures a < 0 ==> r <= 0
  {
    if a >= 0 then a % n else -((-a) % n)
  }

  /** The remainder and the `+ size` fix-up of the navigation: lands in [0, n). */
  function Wrap(a: int, n: int): (r: int)
    requires n > 0
    ensures 0 <= r < n
  {
    var rem := TruncatedRemainder(a, n);
    if rem < 0 then rem + n else rem
  }

  /** A product of a positive factor and a positive `n` is at least `n`. */
  lemma {:induction false} ProductAtLeast(d: int, n: int)
    requires d >= 1 && n > 0
    ensures d * n >= n
  {
    if d > 1 {
      ProductAtLeast(d - 1, n);
      assert d * n == (d - 1) * n + n;
    }
  }

  /** Euclidean division is unique: `a == k * n + r` with `r` in [0, n) makes `r` the remainder. */
  lemma ModUnique(a: int, n: int, k: int, r: int)
    requires n > 0 && 0 <= r < n && a == k * n + r
    ensures a % n == r
  {
    var q := a / n;
    var d := q - k;
    assert d * n == q * n - k * n;
    assert d * n == r - a % n;
    if d >= 1 {
      ProductAtLeast(d, n);
    } else if d <= -1 {
      ProductAtLeast(-d, n);
    }
  }

  /** Truncated remainder plus the fix-up is the Euclidean (never negative) remainder. */
  lemma WrapIsEuclidean(a: int, n: int)
    requires n > 0
    ensures Wrap(a, n) == a % n
  {
    if a < 0 {
      var b := -a;
      var q := b / n;
      var m := b % n;
      assert b == q * n + m;
      assert (-q) * n == -(q * n);
      if m == 0 {
        ModUnique(a, n, -q, 0);
      } else {
        assert (-q - 1) * n == (-q) * n - n;
        ModUnique(a, n, -q - 1, n - m);
      }
    }
  }

  datatype LoadFileEnum = LoadFirst | LoadPrevious | LoadCurrent | LoadNext | LoadLast

  /** What the switch adds to the current index: -1 for previous, 1 for next, 0 otherwise. */
  function AddToIndex(load: LoadFileEnum): (r: int)
    ensures r == -1 <==> load == LoadPrevious
    ensures r == 1 <==> load == LoadNext
    ensures r == 0 <==> load != LoadPrevious && load != LoadNext
  {
    match load
    case LoadPrevious => -1
    case LoadNext => 1
    case _ => 0
  }

  /**
   * The index `getFileInfo` writes when its out-parameter is a variable of
   * its own: the first and last cases set it, but the next statement
   * overwrites it from the current index, so they act like "current".
   */
  function AsWrittenIndex(load: LoadFileEnum, current: int, size: int): (r: int)
    requires size > 0
    ensures 0 <= r < size
    ensures load == LoadFirst || load == LoadLast ==> r == IntendedIndex(LoadCurrent, current, size)
    ensures load != LoadFirst && load != LoadLast ==> r == IntendedIndex(load, current, size)
  {
    Wrap(current + AddToIndex(load), size)
  }

  /**
   * The index `getFileInfo` writes when its out-parameter is the current
   * index itself, as `loadFile` calls it: the first and last cases first set
   * the current index to 0 or `size - 1`, which the next statement reads.
   */
  function AliasedIndex(load: LoadFileEnum, current: int, size: int): (r: int)
    requires size > 0
    ensures 0 <= r < size
    ensures load == LoadFirst ==> r == 0
    ensures load != LoadFirst && load != LoadLast ==> r == AsWrittenIndex(load, current, size)
  {
    var start := match load
      case LoadFirst => 0
      case LoadLast => size - 1
      case _ => current;
    Wrap(start + AddToIndex(load), size)
  }

  /** The index navigation is meant to produce: first, last, or a step from the current index with wrap-around. */
  function IntendedIndex(load: LoadFileEnum, current: int, size: int): (r: int)
    requires size > 0
    ensures 0 <= r < size
    ensures load == LoadFirst ==> r == 0
    ensures load == LoadLast ==> r == size - 1
    ensures load == LoadCurrent ==> r == current % size
    ensures load == LoadNext ==> r == (current + 1) % size
    ensures load == LoadPrevious ==> r == (current - 1) % size
  {
    WrapIsEuclidean(current + AddToIndex(load), size);
    match load
    case LoadFirst => 0
    case LoadLast => size - 1
    case _ => Wrap(current + AddToIndex(load), size)
  }

  /** Called as `loadFile` calls it, `getFileInfo` navigates as intended. */
  lemma AliasedIsIntended(load: LoadFileEnum, current: int, size: int)
    requires size > 0
    ensures AliasedIndex(load, current, size) == IntendedIndex(load, current, size)
  {
    if load == LoadLast {
      ModUnique(size - 1, size, 0, size - 1);
    }
  }

  /** Called with an index variable of its own, `getFileInfo` does not go to the first file: from file 1 of 2 it stays on 1. */
  lemma FirstIgnoredWithoutAlias()
    ensures AsWrittenIndex(LoadFirst, 1, 2) == 1 != IntendedIndex(LoadFirst, 1, 2)
  {
  }

  /** Next from the last file wraps to the first; previous from the first wraps to the last. */
  lemma NavigationWraps(size: int)
    requires size > 0
    ensures IntendedIndex(LoadNext, size - 1, size) == 0
    ensures IntendedIndex(LoadPrevious, 0, size) == size - 1
  {
    ModUnique(size, size, 1, 0);
    ModUnique(-1, size, -1, size - 1);
  }

  /** Decimal digits of `n`, as `std::to_string` writes them. */
  function DecimalString(n: nat): (r: string)
    ensures |r| >= 1 && forall k :: 0 <= k < |r| ==> '0' <= r[k] <= '9'
    ensures r[0] == '0' ==> n == 0
  {
    var digit := "0123456789"[n % 10];
    if n < 10 then [digit] else DecimalString(n / 10) + [digit]
  }

  /** The value of a string of decimal digits, most significant first. */
  function DigitsValue(s: string): nat
    requires forall k :: 0 <= k < |s| ==> '0' <= s[k] <= '9'
  {
    if s == [] then 0 else DigitsValue(s[..|s| - 1]) * 10 + (s[|s| - 1] as int - '0' as int)
  }

  /** Reading the decimal string back gives the number. */
  lemma {:induction false} DecimalStringValue(n: nat)
    ensures DigitsValue(DecimalString(n)) == n
  {
    var digits := "0123456789";
    assert digits[n % 10] as int - '0' as int == n % 10;
    if n >= 10 {
      DecimalStringValue(n / 10);
      var d := DecimalString(n);
      assert d[..|d| - 1] == DecimalString(n / 10);
    }
  }

  /**
   * The file-information text "(index/size) name": the 1-based position
   * and the count between parentheses, in decimal, then the file name.
   */
  function FileInfoText(fs: FileSystem, index: nat, size: nat, filePath: string): (r: string)
    ensures |r| > 1 + |DecimalString(index + 1)| + |fs.filenameName(filePath)|
    ensures r[0] == '(' && r[1..1 + |DecimalString(index + 1)|] == DecimalString(index + 1)
    ensures r[|r| - |fs.filenameName(filePath)|..] == fs.filenameName(filePath)
  {
    "(" + DecimalString(index + 1) + "/" + DecimalString(size) + ") " + fs.filenameName(filePath)
  }

  /** The loader's list of files and its current position in it. */
  class Loader {
    var filesList: seq<string>
    var currentFileIndex: int

    ghost predicate Valid()
      reads this
    {
      NoDuplicates(filesList) && InInt32(currentFileIndex)
    }

    constructor ()
      ensures Valid() && filesList == [] && currentFileIndex == 0
    {
      filesList := [];
      currentFileIndex := 0;
    }

    /**
     * Adds `path`: nothing for an empty or missing path; for a directory,
     * when `recursive`, each of its entries other than "." and ".." in sorted
     * order, non-recursively; for a file, its full path unless already listed.
     */
    method AddFile(fs: FileSystem, path: string, recursive: bool)
      requires Valid()
      modifies this`filesList
      ensures Valid()
      ensures filesList == AddFileSpec(fs, old(filesList), path, recursive)
      decreases if recursive then 1 else 0
    {
      if path == "" {
        return;
      }
      var fullPath := fs.collapseFullPath(path);
      if fullPath !in fs.existing {
        return;
      }
      if fullPath in fs.directories {
        if recursive {
          var sortedFiles := SortEntries(fs.listing(fullPath));
          ghost var files0 := filesList;
          for k := 0 to |sortedFiles|
            invariant Valid()
            invariant filesList == AddEntries(fs, files0, fullPath, sortedFiles[..k])
          {
            assert sortedFiles[..k + 1][..k] == sortedFiles[..k];
            AddFile(fs, fs.joinPath(fullPath, sortedFiles[k]), false);
          }
          assert sortedFiles[..|sortedFiles|] == sortedFiles;
        }
      } else {
        if fullPath !in filesList {
          filesList := filesList + [fullPath];
        }
      }
    }

    /** Adds every path of `files` in turn, recursively. */
    method AddFiles(fs: FileSystem, files: seq<string>)
      requires Valid()
      modifies this`filesList
      ensures Valid()
      ensures filesList == AddAll(fs, old(filesList), files)
    {
      for i := 0 to |files|
        invariant Valid()
        invariant filesList == AddAll(fs, old(filesList), files[..i])
      {
        assert files[..i + 1][..i] == files[..i];
        AddFile(fs, files[i], true);
      }
      assert files[..|files|] == files;
    }

    /**
     * `getFileInfo` with an index variable of the caller's own: on an empty
     * list the index is -1 and the strings are left as they were; otherwise
     * the index, the path at it and "(index+1/size) name".
     */
    method GetFileInfo(fs: FileSystem, load: LoadFileEnum, filePath0: string, fileInfo0: string)
      returns (nextFileIndex: int, filePath: string, fileInfo: string)
      requires Valid() && InInt32(currentFileIndex + AddToIndex(load)) && |filesList| <= Int32Max
      ensures |filesList| == 0 ==> nextFileIndex == -1 && filePath == filePath0 && fileInfo == fileInfo0
      ensures |filesList| > 0 ==>
        nextFileIndex == AsWrittenIndex(load, currentFileIndex, |filesList|) &&
        filePath == filesList[nextFileIndex] &&
        fileInfo == FileInfoText(fs, nextFileIndex, |filesList|, filePath)
    {
      var size := |filesList|;
      filePath, fileInfo := filePath0, fileInfo0;
      if size > 0 {
        var addToIndex := AddToIndex(load);
        if load == LoadFirst {
          nextFileIndex := 0;
        } else if load == LoadLast {
          nextFileIndex := size - 1;
        }
        nextFileIndex := TruncatedRemainder(currentFileIndex + addToIndex, size);
        nextFileIndex := if nextFileIndex < 0 then nextFileIndex + size else nextFileIndex;
        filePath := filesList[nextFileIndex];
        fileInfo := FileInfoText(fs, nextFileIndex, size, filePath);
      } else {
        nextFileIndex := -1;
      }
    }

    /**
     * `getFileInfo` as `loadFile` calls it, its index out-parameter being the
     * current index: the current index moves to the file to load (-1 on an
     * empty list, with no path, so that nothing is loaded).
     */
    method LoadFileInfo(fs: FileSystem, load: LoadFileEnum) returns (filePath: string, fileInfo: string)
      requires Valid() && InInt32(currentFileIndex + AddToIndex(load)) && |filesList| <= Int32Max
      modifies this`currentFileIndex
      ensures Valid()
      ensures |filesList| == 0 ==> currentFileIndex == -1 && filePath == "" && fileInfo == ""
      ensures |filesList| > 0 ==>
        currentFileIndex == IntendedIndex(load, old(currentFileIndex), |filesList|) &&
        filePath == filesList[currentFileIndex] &&
        fileInfo == FileInfoText(fs, currentFileIndex, |filesList|, filePath)
    {
      var size := |filesList|;
      filePath, fileInfo := "", "";
      if size > 0 {
        var addToIndex := AddToIndex(load);
        if load == LoadFirst {
          currentFileIndex := 0;
        } else if load == LoadLast {
          currentFileIndex := size - 1;
        }
        currentFileIndex := TruncatedRemainder(currentFileIndex + addToIndex, size);
        currentFileIndex := if currentFileIndex < 0 then currentFileIndex + size else currentFileIndex;
        assert currentFileIndex == AliasedIndex(load, old(currentFileIndex), size);
        AliasedIsIntended(load, old(currentFileIndex), size);
        filePath := filesList[currentFileIndex];
        fileInfo := FileInfoText(fs, currentFileIndex, size, filePath);
      } else {
        currentFileIndex := -1;
      }
    }

    /** The list of files, in the order they were added. */
    method GetFiles() returns (files: seq<string>)
      ensures files == filesList
    {
      files := filesList;
    }

    method SetCurrentFileIndex(index: int)
      requires Valid() && InInt32(index)
      modifies this`currentFileIndex
      ensures Valid() && currentFileIndex == index
    {
      currentFileIndex := index;
    }

    method GetCurrentFileIndex() returns (index: int)
      ensures index == currentFileIndex
    {
      index := currentFileIndex;
    }
  }

  /** `addFiles`: every path added in turn, recursively; the old list stays a prefix, and only existing files are added. */
  function AddAll(fs: FileSystem, files: seq<string>, paths: seq<string>): (r: seq<string>)
    ensures files <= r
    ensures forall k :: |files| <= k < |r| ==> r[k] in fs.existing && r[k] !in fs.directories
  {
    if paths == [] then files
    else AddFileSpec(fs, AddAll(fs, files, paths[..|paths| - 1]), paths[|paths| - 1], true)
  }

  /** Setting the current index and reading it back gives the index set. */
  method SetThenGet(loader: Loader, index: int) returns (read: int)
    requires loader.Valid() && InInt32(index)
    modifies loader
    ensures read == index
  {
    loader.SetCurrentFileIndex(index);
    read := loader.GetCurrentFileIndex();
  }
}
