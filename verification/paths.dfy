/** `save_upload_to_temp`: the uploaded bytes are written under a fresh
    random name in the temporary directory, keeping the upload's extension.
    Paths follow POSIX `os.path`; the file system is a set of directories
    and a map from file paths to contents. */
module Paths {
  import opened Base
  import opened Text
  import opened Py

  const DEFAULT_EXT: string := ".bin"

  // ---------------------------------------------------------------------
  // `os.path.splitext`.

  /** The last index below `j` holding `c`, or -1. */
  function RFindBelow(s: string, c: char, j: nat): (r: int)
    requires j <= |s|
    ensures -1 <= r < j
    ensures r >= 0 ==> s[r] == c
    ensures forall k :: r < k < j ==> s[k] != c
  {
    if j == 0 then -1
    else if s[j - 1] == c then j - 1
    else RFindBelow(s, c, j - 1)
  }

  /** `s.rfind(c)`: the last index of `c`, or -1. */
  function RFind(s: string, c: char): (r: int)
    ensures -1 <= r < |s|
    ensures r >= 0 ==> s[r] == c
    ensures forall k :: r < k < |s| ==> s[k] != c
  {
    RFindBelow(s, c, |s|)
  }

  /** The conditions above pin the index down. */
  lemma RFindUnique(s: string, c: char, i: int)
    requires -1 <= i < |s|
    requires i >= 0 ==> s[i] == c
    requires forall k :: i < k < |s| ==> s[k] != c
    ensures RFind(s, c) == i
  {
  }

  predicate AllDots(s: string) {
    forall k :: 0 <= k < |s| ==> s[k] == '.'
  }

  /** The final component: everything after the last `/`. */
  function Basename(p: string): string
  {
    p[RFind(p, '/') + 1..]
  }

  /** `(root, ext)`: the extension starts at the last dot of the final
      component, provided something other than dots comes before that dot
      in the component; otherwise there is none. */
  function Splitext(p: string): (r: (string, string))
    ensures r.0 + r.1 == p
  {
    var sep := RFind(p, '/');
    var dot := RFind(p, '.');
    if dot > sep && !AllDots(p[sep + 1..dot]) then (p[..dot], p[dot..]) else (p, "")
  }

  /** An extension is a dot followed by neither dots nor slashes, and the
      root's final component is not made of dots only. */
  lemma SplitextShape(p: string)
    ensures var (root, ext) := Splitext(p);
      && (ext == "" || (ext[0] == '.' && forall k :: 1 <= k < |ext| ==> ext[k] != '.' && ext[k] != '/'))
      && (ext != "" ==> !AllDots(Basename(root)))
  {
    var (root, ext) := Splitext(p);
    if ext != "" {
      ExtensionChars(p);
      RootBasename(p);
    }
  }

  lemma ExtensionChars(p: string)
    requires Splitext(p).1 != ""
    ensures var ext := Splitext(p).1;
      ext[0] == '.' && forall k :: 1 <= k < |ext| ==> ext[k] != '.' && ext[k] != '/'
  {
    var sep := RFind(p, '/');
    var dot := RFind(p, '.');
    var ext := p[dot..];
    assert Splitext(p).1 == ext;
    forall k | 1 <= k < |ext|
      ensures ext[k] != '.' && ext[k] != '/'
    {
      assert ext[k] == p[dot + k];
    }
  }

  lemma RootBasename(p: string)
    requires Splitext(p).1 != ""
    ensures !AllDots(Basename(Splitext(p).0))
  {
    var sep := RFind(p, '/');
    var dot := RFind(p, '.');
    assert dot > sep && !AllDots(p[sep + 1..dot]);
    var root := p[..dot];
    assert Splitext(p).0 == root;
    assert forall k :: sep < k < |root| ==> root[k] == p[k];
    assert sep >= 0 ==> root[sep] == p[sep];
    RFindUnique(root, '/', sep);
    assert root[sep + 1..] == p[sep + 1..dot];
  }

  /** The extension is empty exactly when the final component has no dot,
      or only dots come before its last dot. */
  lemma SplitextNoExtension(p: string)
    ensures Splitext(p).1 == "" <==>
              RFind(p, '.') <= RFind(p, '/') || AllDots(p[RFind(p, '/') + 1..RFind(p, '.')])
  {
  }

  /** `posixpath.splitext` as written, with its loop that skips the leading
      dots of the final component. */
  method SplitextLoop(p: string) returns (root: string, ext: string)
    ensures (root, ext) == Splitext(p)
  {
    var sepIndex := RFind(p, '/');
    var dotIndex := RFind(p, '.');
    if dotIndex > sepIndex {
      var filenameIndex := sepIndex + 1;
      while filenameIndex < dotIndex
        invariant sepIndex + 1 <= filenameIndex <= dotIndex
        invariant AllDots(p[sepIndex + 1..filenameIndex])
      {
        if p[filenameIndex] != '.' {
          NotAllDotsAt(p, sepIndex + 1, dotIndex, filenameIndex);
          return p[..dotIndex], p[dotIndex..];
        }
        DotsExtend(p, sepIndex + 1, filenameIndex);
        filenameIndex := filenameIndex + 1;
      }
    }
    return p, "";
  }

  lemma NotAllDotsAt(s: string, lo: nat, hi: nat, i: nat)
    requires lo <= i < hi <= |s| && s[i] != '.'
    ensures !AllDots(s[lo..hi])
  {
    assert s[lo..hi][i - lo] == s[i];
  }

  lemma DotsExtend(s: string, lo: nat, i: nat)
    requires lo <= i < |s| && s[i] == '.' && AllDots(s[lo..i])
    ensures AllDots(s[lo..i + 1])
  {
    assert s[lo..i + 1] == s[lo..i] + [s[i]];
  }

  /** Concrete names: a double extension keeps only the last part, a dot
      file has no extension, a trailing dot is an extension of its own, and
      dots in directory names do not count. */
  lemma SplitextExamples()
    ensures Splitext("archive.tar.gz") == ("archive.tar", ".gz")
    ensures Splitext(".bashrc") == (".bashrc", "")
    ensures Splitext("file.") == ("file", ".")
  {
    var s1 := "archive.tar.gz";
    RFindUnique(s1, '/', -1);
    RFindUnique(s1, '.', 11);
    assert !AllDots(s1[0..11]) by { assert s1[0..11][0] == 'a'; }
    assert s1[..11] == "archive.tar" && s1[11..] == ".gz";
    RFindUnique(".bashrc", '/', -1);
    RFindUnique(".bashrc", '.', 0);
    var s3 := "file.";
    RFindUnique(s3, '/', -1);
    RFindUnique(s3, '.', 4);
    assert !AllDots(s3[0..4]) by { assert s3[0..4][0] == 'f'; }
    assert s3[..4] == "file" && s3[4..] == ".";
  }

  /** Only the final component counts: a dot file inside a directory has
      the part after its second dot as extension, and a dot in a directory
      name is no extension. */
  lemma SplitextDirectoryExamples()
    ensures Splitext("a/.b.c") == ("a/.b", ".c")
    ensures Splitext("dir.d/file") == ("dir.d/file", "")
  {
    var s4 := "a/.b.c";
    RFindUnique(s4, '/', 1);
    RFindUnique(s4, '.', 4);
    assert !AllDots(s4[2..4]) by { assert s4[2..4][1] == 'b'; }
    assert s4[..4] == "a/.b" && s4[4..] == ".c";
    RFindUnique("dir.d/file", '/', 5);
    RFindUnique("dir.d/file", '.', 3);
  }

  // ---------------------------------------------------------------------
  // `os.path.join` and the random name.

  /** `posixpath.join(dir, name)`: an absolute `name` replaces `dir`;
      otherwise a `/` is inserted unless `dir` is empty or already ends in
      one. */
  function Join(dir: string, name: string): (r: string)
    ensures StartsWith(name, "/") ==> r == name
    ensures !StartsWith(name, "/") ==> EndsWith(r, name)
  {
    if StartsWith(name, "/") then name
    else if dir == "" || EndsWith(dir, "/") then dir + name
    else dir + "/" + name
  }

  predicate IsLowerHex(c: char) {
    '0' <= c <= '9' || 'a' <= c <= 'f'
  }

  /** `uuid.uuid4().hex`: 32 lower-case hexadecimal digits. */
  type Hex32 = s: string | |s| == 32 && forall i :: 0 <= i < |s| ==> IsLowerHex(s[i])
    witness "00000000000000000000000000000000"

  // ---------------------------------------------------------------------
  // The file system.

  datatype FileSystem = FileSystem(dirs: set<string>, files: map<string, seq<byte>>)

  /** `Path(path).mkdir(parents=True, exist_ok=True)`: nothing to do for an
      existing directory, an error when a file has that name. */
  function EnsureDir(fs: FileSystem, path: string): (r: Result<FileSystem, Fault>)
    ensures path in fs.files ==> r == Err(Fault("FileExistsError", "[Errno 17] File exists: " + Repr(path)))
    ensures path !in fs.files ==> r == Ok(fs.(dirs := fs.dirs + {path}))
  {
    if path in fs.files then Err(Fault("FileExistsError", "[Errno 17] File exists: " + Repr(path)))
    else Ok(fs.(dirs := fs.dirs + {path}))
  }

  /** The longest name a path component may have, in bytes (Linux). */
  const NAME_MAX: nat := 255

  /** The number of bytes a character takes in UTF-8, the file-system
      encoding. */
  function Utf8Len(c: char): nat
  {
    if c as int < 0x80 then 1 else if c as int < 0x800 then 2 else if c as int < 0x1_0000 then 3 else 4
  }

  /** The size in bytes of the largest `/`-separated component of `s`, where
      `run` bytes of the current component precede `s`. */
  function LongestComponent(s: string, run: nat): (m: nat)
    ensures m >= run
    decreases |s|
  {
    if |s| == 0 then run
    else if s[0] == '/' then
      var rest := LongestComponent(s[1..], 0);
      if rest > run then rest else run
    else LongestComponent(s[1..], run + Utf8Len(s[0]))
  }

  /** `open(path, "wb").write(data)`: the path is encoded first, which refuses
      an embedded NUL; the kernel then refuses a component longer than
      `NAME_MAX` bytes, and a directory cannot be opened for writing.
      Otherwise the file holds exactly `data` afterwards. */
  function WriteFile(fs: FileSystem, path: string, data: seq<byte>): (r: Result<FileSystem, Fault>)
    ensures '\0' in path ==> r == Err(Fault("ValueError", "embedded null byte"))
    ensures '\0' !in path && LongestComponent(path, 0) > NAME_MAX ==>
              r.Err? && r.error.typeName == "OSError"
              && r.error.message == "[Errno 36] File name too long: " + Repr(path)
    ensures '\0' !in path && LongestComponent(path, 0) <= NAME_MAX && path in fs.dirs ==>
              r.Err? && r.error.typeName == "IsADirectoryError"
              && r.error.message == "[Errno 21] Is a directory: " + Repr(path)
    ensures '\0' !in path && LongestComponent(path, 0) <= NAME_MAX && path !in fs.dirs ==>
              r == Ok(fs.(files := fs.files[path := data]))
  {
    if '\0' in path then Err(Fault("ValueError", "embedded null byte"))
    else if LongestComponent(path, 0) > NAME_MAX then Err(Fault("OSError", "[Errno 36] File name too long: " + Repr(path)))
    else if path in fs.dirs then Err(Fault("IsADirectoryError", "[Errno 21] Is a directory: " + Repr(path)))
    else Ok(fs.(files := fs.files[path := data]))
  }

  /** Whether `open` accepts the path as a name at all. */
  predicate Openable(path: string) {
    '\0' !in path && LongestComponent(path, 0) <= NAME_MAX
  }

  /** The extension the stored file gets. */
  function UploadExt(filename: string): (ext: string)
    ensures ext != "" && ext[0] == '.'
  {
    var e := Splitext(filename).1;
    if e == "" then DEFAULT_EXT else e
  }

  /** `save_upload_to_temp(data, filename, temp_dir)` with the random name
      `hex`: the file system afterwards (the directory may have been created
      even when a later step fails) and the path written, or the fault. */
  function SaveUploadToTemp(fs: FileSystem, data: seq<byte>, filename: Option<string>, tempDir: string, hex: Hex32)
    : (r: (FileSystem, Result<string, Fault>))
  {
    match EnsureDir(fs, tempDir)
    case Err(f) => (fs, Err(f))
    case Ok(fs1) =>
      if filename.None? then
        (fs1, Err(Fault("TypeError", "expected str, bytes or os.PathLike object, not NoneType")))
      else
        var path := Join(tempDir, StoredName(hex, filename.value));
        match WriteFile(fs1, path, data)
        case Err(f) => (fs1, Err(f))
        case Ok(fs2) => (fs2, Ok(path))
  }

  // ---------------------------------------------------------------------
  // Properties.

  /** The directory part of a joined path: `dir`, followed by `/` unless it
      is empty or already ends in one. */
  function DirPrefix(dir: string): (p: string)
    ensures p == "" || p[|p| - 1] == '/'
    ensures |p| >= |dir|
  {
    if dir == "" || EndsWith(dir, "/") then dir else dir + "/"
  }

  /** The stored file's name holds no `/`. */
  lemma LeafHasNoSlash(hex: Hex32, name: string)
    ensures forall k :: 0 <= k < |hex + UploadExt(name)| ==> (hex + UploadExt(name))[k] != '/'
  {
    var ext := UploadExt(name);
    SplitextShape(name);
    var leaf := hex + ext;
    forall k | 0 <= k < |leaf|
      ensures leaf[k] != '/'
    {
      if k < |hex| { assert IsLowerHex(hex[k]); }
      else { assert leaf[k] == ext[k - |hex|]; }
    }
  }

  /** The stored file's name: the hex digits and the extension. */
  function StoredName(hex: Hex32, name: string): string
  {
    hex + UploadExt(name)
  }

  /** Joining a relative name to a directory puts it after the directory's
      prefix. */
  lemma JoinRelative(dir: string, leaf: string)
    requires !StartsWith(leaf, "/")
    ensures Join(dir, leaf) == DirPrefix(dir) + leaf
  {
  }

  /** The steps of a save with a name: create the directory, then write the
      joined path. */
  lemma SaveUploadSteps(fs: FileSystem, data: seq<byte>, name: string, tempDir: string, hex: Hex32)
    requires tempDir !in fs.files
    ensures var fs1 := fs.(dirs := fs.dirs + {tempDir});
      var path := Join(tempDir, StoredName(hex, name));
      SaveUploadToTemp(fs, data, Some(name), tempDir, hex)
        == (match WriteFile(fs1, path, data)
            case Err(f) => (fs1, Err(f))
            case Ok(fs2) => (fs2, Ok(path)))
  {
  }

  /** A stored upload is written to the temporary directory's prefix
      followed by the random hex digits and the upload's extension (or
      `.bin`), and holds exactly the uploaded bytes; the directory exists
      and no other file changed. */
  lemma SaveUploadContract(fs: FileSystem, data: seq<byte>, name: string, tempDir: string, hex: Hex32)
    requires tempDir !in fs.files
    ensures var (fs2, r) := SaveUploadToTemp(fs, data, Some(name), tempDir, hex);
      var path := DirPrefix(tempDir) + StoredName(hex, name);
      && (path !in fs.dirs && Openable(path) ==> r == Ok(path))
      && (!Openable(path) ==> r.Err? && (r.error.typeName == "ValueError" || r.error.typeName == "OSError"))
      && (r.Ok? ==>
            && r.value == path
            && tempDir in fs2.dirs
            && path in fs2.files && fs2.files[path] == data
            && (forall q :: q in fs.files && q != path ==> q in fs2.files && fs2.files[q] == fs.files[q]))
  {
    var leaf := StoredName(hex, name);
    LeafIsRelative(hex, name);
    JoinRelative(tempDir, leaf);
    SaveUploadSteps(fs, data, name, tempDir, hex);
    var fs1 := fs.(dirs := fs.dirs + {tempDir});
    var path := DirPrefix(tempDir) + leaf;
    assert path != tempDir by { assert |path| > |tempDir|; }
    if path !in fs.dirs && Openable(path) {
      assert WriteFile(fs1, path, data) == Ok(fs1.(files := fs1.files[path := data]));
    }
  }

  /** The stored file's name does not start with `/`. */
  lemma LeafIsRelative(hex: Hex32, name: string)
    ensures !StartsWith(StoredName(hex, name), "/")
  {
    assert StoredName(hex, name)[0] == hex[0];
    assert IsLowerHex(hex[0]);
  }

  /** The stored file lies directly in the temporary directory: its final
      component is the hex digits and the extension. */
  lemma StoredPathBasename(name: string, tempDir: string, hex: Hex32)
    ensures Basename(DirPrefix(tempDir) + StoredName(hex, name)) == StoredName(hex, name)
  {
    var leaf := StoredName(hex, name);
    var dir := DirPrefix(tempDir);
    LeafHasNoSlash(hex, name);
    BasenameOfLeaf(dir, leaf);
    assert (dir + leaf)[|dir|..] == leaf;
  }

  /** Appending a piece without `/` to a directory prefix that is empty or
      ends in `/` leaves the last `/` where it was. */
  lemma BasenameOfLeaf(dir: string, leaf: string)
    requires dir == "" || dir[|dir| - 1] == '/'
    requires forall k :: 0 <= k < |leaf| ==> leaf[k] != '/'
    ensures RFind(dir + leaf, '/') == |dir| - 1
  {
    var s := dir + leaf;
    forall k | |dir| <= k < |s|
      ensures s[k] != '/'
    {
      assert s[k] == leaf[k - |dir|];
    }
    RFindUnique(s, '/', |dir| - 1);
  }

  /** The extension kept is the one the upload's name ends with; a name
      without one gets `.bin`. */
  lemma UploadExtKeepsSuffix(name: string)
    ensures Splitext(name).1 != "" ==> EndsWith(name, UploadExt(name))
    ensures Splitext(name).1 == "" ==> UploadExt(name) == DEFAULT_EXT
  {
    var (root, ext) := Splitext(name);
    if ext != "" {
      assert name == root + ext;
      assert name[|name| - |ext|..] == ext;
    }
  }

  /** The number of bytes a string takes in UTF-8. */
  function Utf8Size(s: string): nat
  {
    if |s| == 0 then 0 else Utf8Len(s[0]) + Utf8Size(s[1..])
  }

  lemma {:induction false} Utf8SizeAppend(a: string, b: string)
    ensures Utf8Size(a + b) == Utf8Size(a) + Utf8Size(b)
    decreases |a|
  {
    if |a| > 0 {
      assert (a + b)[0] == a[0] && (a + b)[1..] == a[1..] + b;
      Utf8SizeAppend(a[1..], b);
    } else {
      assert a + b == b;
    }
  }

  lemma {:induction false} HexSize(h: string)
    requires forall i :: 0 <= i < |h| ==> IsLowerHex(h[i])
    ensures Utf8Size(h) == |h|
    decreases |h|
  {
    if |h| > 0 {
      assert IsLowerHex(h[0]);
      HexSize(h[1..]);
    }
  }

  /** A piece without `/` is one component: the scan only adds its bytes. */
  lemma {:induction false} LastComponentCounts(s: string, run: nat)
    requires forall k :: 0 <= k < |s| ==> s[k] != '/'
    ensures LongestComponent(s, run) == run + Utf8Size(s)
    decreases |s|
  {
    if |s| > 0 {
      LastComponentCounts(s[1..], run + Utf8Len(s[0]));
    }
  }

  /** After a directory prefix, the final component is still counted whole. */
  lemma {:induction false} PrefixKeepsLast(dir: string, leaf: string, run: nat)
    requires dir == "" || dir[|dir| - 1] == '/'
    requires forall k :: 0 <= k < |leaf| ==> leaf[k] != '/'
    ensures LongestComponent(dir + leaf, run) >= Utf8Size(leaf)
    decreases |dir|
  {
    if |dir| == 0 {
      assert dir + leaf == leaf;
      LastComponentCounts(leaf, run);
    } else {
      assert (dir + leaf)[0] == dir[0] && (dir + leaf)[1..] == dir[1..] + leaf;
      if dir[0] == '/' {
        PrefixKeepsLast(dir[1..], leaf, 0);
      } else {
        PrefixKeepsLast(dir[1..], leaf, run + Utf8Len(dir[0]));
      }
    }
  }

  /** The client chooses the extension, and it is kept: one taking more than
      the 223 bytes left after the 32 hex digits makes the stored name too
      long for the file system, so saving fails with an `OSError` and no
      file is written. */
  lemma LongExtensionRefused(fs: FileSystem, data: seq<byte>, name: string, tempDir: string, hex: Hex32)
    requires tempDir !in fs.files && '\0' !in tempDir && '\0' !in name
    requires Utf8Size(UploadExt(name)) > NAME_MAX - 32
    ensures var (fs2, r) := SaveUploadToTemp(fs, data, Some(name), tempDir, hex);
      r.Err? && r.error.typeName == "OSError" && fs2.files == fs.files
  {
    var path := DirPrefix(tempDir) + StoredName(hex, name);
    LeafIsRelative(hex, name);
    JoinRelative(tempDir, StoredName(hex, name));
    SaveUploadSteps(fs, data, name, tempDir, hex);
    StoredPathHasNoNul(name, tempDir, hex);
    StoredPathTooLong(name, tempDir, hex);
  }

  lemma StoredPathTooLong(name: string, tempDir: string, hex: Hex32)
    requires Utf8Size(UploadExt(name)) > NAME_MAX - 32
    ensures LongestComponent(DirPrefix(tempDir) + StoredName(hex, name), 0) > NAME_MAX
  {
    LeafHasNoSlash(hex, name);
    Utf8SizeAppend(hex, UploadExt(name));
    HexSize(hex);
    PrefixKeepsLast(DirPrefix(tempDir), StoredName(hex, name), 0);
  }

  lemma StoredPathHasNoNul(name: string, tempDir: string, hex: Hex32)
    requires '\0' !in tempDir && '\0' !in name
    ensures '\0' !in DirPrefix(tempDir) + StoredName(hex, name)
  {
    ExtHasNoNul(name);
    assert '\0' !in hex;
    assert StoredName(hex, name) == hex + UploadExt(name);
  }

  lemma ExtHasNoNul(name: string)
    requires '\0' !in name
    ensures '\0' !in UploadExt(name)
  {
    var ext := UploadExt(name);
    UploadExtKeepsSuffix(name);
    if Splitext(name).1 != "" {
      assert ext == name[|name| - |ext|..];
    }
  }

  /** Failures: a file in place of the directory, and an upload without a
      name, which is refused only after the directory exists. */
  lemma SaveUploadFailures(fs: FileSystem, data: seq<byte>, filename: Option<string>, tempDir: string, hex: Hex32)
    ensures tempDir in fs.files ==>
              SaveUploadToTemp(fs, data, filename, tempDir, hex)
                == (fs, Err(Fault("FileExistsError", "[Errno 17] File exists: " + Repr(tempDir))))
    ensures tempDir !in fs.files && filename.None? ==>
              var (fs2, r) := SaveUploadToTemp(fs, data, filename, tempDir, hex);
              r.Err? && r.error.typeName == "TypeError" && tempDir in fs2.dirs && fs2.files == fs.files
  {
  }
}
