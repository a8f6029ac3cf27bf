// Batch processing of a folder or a list of audio files: which files are
// picked, when a file is skipped, what one file's result records and how
// the sequential run accounts for successes and failures.
//
// The file system is a value (`FileSystem`) and the per-file pipeline
// (`process_audio_file`) is a parameter that says, for each path, whether
// it returned True/False or raised.

module Batch {
  import opened Common
  import CcliExport

  /** The suffixes the directory scan accepts, compared lower-cased. */
  const AudioExtensions: set<string> :=
    {".wav", ".mp3", ".flac", ".m4a", ".aac", ".ogg", ".wma", ".opus", ".aiff", ".alac"}

  /** What the batch reads from disk: existing files, existing directories,
      the lines of the text files it may open, and what a recursive glob
      of a directory lists, in the order the walk yields them. */
  datatype FileSystem = FileSystem(files: set<string>, dirs: set<string>,
                                   texts: map<string, seq<string>>, tree: map<string, seq<string>>)

  predicate Exists(fs: FileSystem, p: string) {
    p in fs.files || p in fs.dirs
  }

  // ---------------------------------------------------------------------------
  // Paths

  /** The last component of a path. */
  function Name(p: string): string {
    CcliExport.AfterSlash(CcliExport.TrimSlashes(p))
  }

  /** `Path(p).suffix`: from the last dot of the last component on; a
      leading or trailing dot is not a suffix. */
  function Suffix(p: string): (r: string)
    ensures r == [] || r[0] == '.'
  {
    var name := Name(p);
    match CcliExport.LastDot(name)
    case Some(i) => if 0 < i < |name| - 1 then name[i..] else []
    case None => []
  }

  /** The stem and the suffix make up the last component. */
  lemma StemSuffix(p: string)
    ensures CcliExport.Stem(p) + Suffix(p) == Name(p)
  {
    var name := Name(p);
    match CcliExport.LastDot(name)
    case Some(i) =>
      if 0 < i < |name| - 1 {
        assert name[..i] + name[i..] == name;
      }
    case None =>
  }

  /** A component pathlib keeps: non-empty, not ".", without a slash. */
  predicate Component(s: string) {
    s != [] && s != "." && '/' !in s
  }

  /** The pieces between slashes without the empty and "." ones, which
      pathlib drops when it parses a path. */
  function Kept(ps: seq<string>): (r: seq<string>)
    ensures (forall i :: 0 <= i < |ps| ==> '/' !in ps[i]) ==> forall i :: 0 <= i < |r| ==> Component(r[i])
  {
    if ps == [] then []
    else
      assert forall i :: 0 <= i < |ps| - 1 ==> ps[1..][i] == ps[i + 1];
      (if ps[0] != [] && ps[0] != "." then [ps[0]] else []) + Kept(ps[1..])
  }

  /** The components of a parsed path. */
  function Parts(p: string): (r: seq<string>)
    ensures forall i :: 0 <= i < |r| ==> Component(r[i])
  {
    Kept(SplitOn(p, '/'))
  }

  /** The root of a POSIX path: exactly two leading slashes are kept, one
      or three and more become one, and a relative path has none. */
  function Root(p: string): (r: string)
    ensures r == [] || r == "/" || r == "//"
  {
    if |p| >= 2 && p[0] == '/' && p[1] == '/' && (|p| == 2 || p[2] != '/') then "//"
    else if p != [] && p[0] == '/' then "/"
    else []
  }

  /** `str()` of a path held as a root and components: "." for nothing. */
  function Format(root: string, parts: seq<string>): string {
    if root == [] && parts == [] then "." else root + Join(parts, "/")
  }

  /** `str(Path(p))`. */
  function Normalize(p: string): string {
    Format(Root(p), Parts(p))
  }

  /** `Path(p).parent`: the path without its last component; a path with
      no component is its own parent. */
  function Parent(p: string): string {
    var ps := Parts(p);
    if ps == [] then Normalize(p) else Format(Root(p), ps[..|ps| - 1])
  }

  /** `str(Path(dir) / name)`: a name with a root replaces the directory;
      otherwise its components follow the directory's. */
  function PathJoin(dir: string, name: string): string {
    if Root(name) != [] then Normalize(name)
    else Format(Root(dir), Parts(dir) + Parts(name))
  }

  lemma {:induction false} JoinEndsWith(ps: seq<string>, sep: string)
    requires ps != []
    ensures EndsWith(Join(ps, sep), ps[|ps| - 1])
  {
    if |ps| > 1 {
      JoinEndsWith(ps[1..], sep);
      assert ps[1..][|ps| - 2] == ps[|ps| - 1];
    }
  }

  lemma KeptCons(x: string, rest: seq<string>)
    ensures Kept([x] + rest) == (if x != [] && x != "." then [x] else []) + Kept(rest)
  {
    assert ([x] + rest)[1..] == rest;
  }

  lemma {:induction false} KeptClean(ps: seq<string>)
    requires forall i :: 0 <= i < |ps| ==> Component(ps[i])
    ensures Kept(ps) == ps
  {
    if ps != [] {
      KeptClean(ps[1..]);
    }
  }

  /** A first piece without a slash splits off at the first slash. */
  lemma SplitOnAt(a: string, x: string)
    requires '/' !in a
    ensures SplitOn(a + "/" + x, '/') == [a] + SplitOn(x, '/')
  {
    var s := a + "/" + x;
    assert forall j :: 0 <= j < |a| ==> s[j] == a[j];
    FindFromFirst(s, '/', 0, |a|);
    assert s[..|a|] == a && s[|a| + 1..] == x;
  }

  /** A leading slash splits off an empty piece. */
  lemma SplitOnSlash(x: string)
    ensures SplitOn("/" + x, '/') == [""] + SplitOn(x, '/')
  {
    SplitOnAt("", x);
    assert "" + "/" + x == "/" + x;
  }

  /** A text without a slash is one piece. */
  lemma SplitOnOne(x: string)
    requires '/' !in x
    ensures SplitOn(x, '/') == [x]
  {
    FindFromAbsent(x, '/', 0);
  }

  /** The joined components start with the first component's first
      character, which is not a slash. */
  lemma JoinHead(parts: seq<string>)
    requires parts != [] && forall i :: 0 <= i < |parts| ==> Component(parts[i])
    ensures Join(parts, "/") != [] && Join(parts, "/")[0] != '/'
  {
    var s := Join(parts, "/");
    if |parts| > 1 {
      assert s == parts[0] + "/" + Join(parts[1..], "/");
    }
    assert s[0] == parts[0][0];
    assert parts[0][0] in parts[0];
  }

  /** A root in front of a path adds only empty pieces, which are dropped. */
  lemma PartsAfterRoot(root: string, s: string)
    requires root == [] || root == "/" || root == "//"
    ensures Parts(root + s) == Parts(s)
  {
    if root == "/" {
      SplitOnSlash(s);
      assert Kept([""] + SplitOn(s, '/')) == Kept(SplitOn(s, '/'));
    } else if root == "//" {
      SplitOnSlash(s);
      SplitOnSlash("/" + s);
      assert root + s == "/" + ("/" + s);
      assert Kept([""] + SplitOn("/" + s, '/')) == Kept(SplitOn("/" + s, '/'));
      assert Kept([""] + SplitOn(s, '/')) == Kept(SplitOn(s, '/'));
    } else {
      assert root + s == s;
    }
  }

  /** A root in front of a relative path is read back as that root. */
  lemma RootOf(root: string, s: string)
    requires root == [] || root == "/" || root == "//"
    requires s != [] && s[0] != '/'
    ensures Root(root + s) == root
  {
    if root == [] {
      assert root + s == s;
    } else if root == "/" {
      assert (root + s)[1] == s[0];
    } else {
      assert (root + s)[2] == s[0];
    }
  }

  /** Parsing undoes formatting: a root and components come back from the
      text they format to. */
  lemma FormatParses(root: string, parts: seq<string>)
    requires root == [] || root == "/" || root == "//"
    requires parts != [] && forall i :: 0 <= i < |parts| ==> Component(parts[i])
    ensures Parts(Format(root, parts)) == parts && Root(Format(root, parts)) == root
  {
    var s := Join(parts, "/");
    assert Format(root, parts) == root + s;
    SplitOnJoin(parts, '/');
    KeptClean(parts);
    JoinHead(parts);
    PartsAfterRoot(root, s);
    RootOf(root, s);
  }

  /** "." has no components and no root. */
  lemma DotParses(s: string)
    requires |s| == 1 && s[0] == '.'
    ensures Parts(s) == [] && Root(s) == []
  {
    assert s == ".";
    SplitOnOne(s);
    KeptCons(s, []);
    assert [s] == [s] + [];
  }

  /** "/" is the root alone. */
  lemma SlashParses(s: string)
    requires |s| == 1 && s[0] == '/'
    ensures Parts(s) == [] && Root(s) == "/"
  {
    var e := s[1..];
    assert s == s[..0] + "/" + e && s[..0] == e == [];
    SplitOnAt(s[..0], e);
    SplitOnOne(e);
    KeptCons(e, []);
    assert [e] == [e] + [];
    assert SplitOn(s, '/') == [e] + [e];
    KeptCons(e, [e]);
  }

  /** "//" is the root alone. */
  lemma DoubleSlashParses(s: string)
    requires |s| == 2 && s[0] == '/' && s[1] == '/'
    ensures Parts(s) == [] && Root(s) == "//"
  {
    var t := s[1..];
    SlashParses(t);
    assert s == s[..0] + "/" + t && s[..0] == [];
    SplitOnAt(s[..0], t);
    KeptCons(s[..0], SplitOn(t, '/'));
  }

  /** Formatting nothing gives ".", "/" or "//", which parse back. */
  lemma FormatEmptyParses(root: string)
    requires root == [] || root == "/" || root == "//"
    ensures Parts(Format(root, [])) == [] && Root(Format(root, [])) == root
  {
    var f := Format(root, []);
    if root == [] {
      DotParses(f);
    } else if root == "/" {
      assert f == root;
      SlashParses(f);
    } else {
      assert f == root;
      DoubleSlashParses(f);
    }
  }

  /** A normalised path parses to the same root and components. */
  lemma NormalizeParses(p: string)
    ensures Parts(Normalize(p)) == Parts(p) && Root(Normalize(p)) == Root(p)
  {
    if Parts(p) == [] {
      FormatEmptyParses(Root(p));
    } else {
      FormatParses(Root(p), Parts(p));
    }
  }

  /** Normalising a normalised path changes nothing. */
  lemma NormalizeIdempotent(p: string)
    ensures Normalize(Normalize(p)) == Normalize(p)
  {
    NormalizeParses(p);
  }

  /** A plain file name is one component and has no root. */
  lemma NameParts(name: string)
    requires Component(name)
    ensures Parts(name) == [name] && Root(name) == []
  {
    SplitOnOne(name);
    KeptCons(name, []);
    assert [name] == [name] + [];
    assert name[0] in name;
  }

  lemma EndsWithAfter(root: string, j: string, name: string)
    requires EndsWith(j, name)
    ensures EndsWith(root + j, name)
  {
    assert (root + j)[|root + j| - |name|..] == j[|j| - |name|..];
  }

  /** Joining a plain file name adds it as the last component and keeps
      the directory's root, so the path ends with the name. */
  lemma PathJoinParts(dir: string, name: string)
    requires Component(name)
    ensures Parts(PathJoin(dir, name)) == Parts(dir) + [name]
    ensures Root(PathJoin(dir, name)) == Root(dir)
    ensures EndsWith(PathJoin(dir, name), name)
  {
    NameParts(name);
    var ps := Parts(dir) + [name];
    assert PathJoin(dir, name) == Format(Root(dir), ps);
    FormatParses(Root(dir), ps);
    JoinEndsWith(ps, "/");
    assert ps[|ps| - 1] == name;
    EndsWithAfter(Root(dir), Join(ps, "/"), name);
  }

  /** The parent has the components but the last, and the same root. */
  lemma ParentParts(p: string)
    ensures var ps := Parts(p);
            Parts(Parent(p)) == (if ps == [] then [] else ps[..|ps| - 1]) && Root(Parent(p)) == Root(p)
  {
    var ps := Parts(p);
    if ps == [] || |ps| == 1 {
      NormalizeParses(p);
      FormatEmptyParses(Root(p));
    } else {
      FormatParses(Root(p), ps[..|ps| - 1]);
    }
  }

  /** Files with the same directory differ when their names differ. */
  lemma PathJoinInjective(dir: string, a: string, b: string)
    requires Component(a) && Component(b)
    requires PathJoin(dir, a) == PathJoin(dir, b)
    ensures a == b
  {
    PathJoinParts(dir, a);
    PathJoinParts(dir, b);
    assert (Parts(dir) + [a])[|Parts(dir)|] == a;
  }

  /** A leading "./" is dropped. */
  lemma DotParts(d: string)
    requires Component(d)
    ensures Parts("./" + d) == [d] && Root("./" + d) == []
  {
    var p := "./" + d;
    var dot := p[..1];
    assert p == dot + "/" + d && dot[0] == '.' && |dot| == 1;
    SplitOnAt(dot, d);
    SplitOnOne(dot);
    SplitOnOne(d);
    KeptCons(dot, [d]);
    KeptCons(d, []);
    assert [dot, d] == [dot] + [d] && [d] == [d] + [];
  }

  /** `--output-dir ./output` lists "output/x.song_data.json": the "."
      component is dropped. */
  lemma DotOutputDir(d: string, name: string)
    requires Component(d) && Component(name)
    ensures PathJoin("./" + d, name) == d + "/" + name
  {
    DotParts(d);
    NameParts(name);
    var ps := [d] + [name];
    assert PathJoin("./" + d, name) == Format([], ps);
    assert ps[1..] == [name];
  }

  /** A doubled slash splits off an empty piece between its neighbours. */
  lemma SplitOnDoubled(a: string, b: string)
    requires '/' !in a && '/' !in b
    ensures SplitOn(a + "//" + b, '/') == [a, [], b]
  {
    var t := "/" + b;
    assert a + "//" + b == a + "/" + t;
    SplitOnAt(a, t);
    SplitOnSlash(b);
    SplitOnOne(b);
  }

  /** The empty piece is dropped, leaving the two components. */
  lemma DoubledSlashParts(a: string, b: string)
    requires Component(a) && Component(b)
    ensures Parts(a + "//" + b) == [a, b] && Root(a + "//" + b) == []
  {
    SplitOnDoubled(a, b);
    var e: string := [];
    KeptCons(a, [e, b]);
    KeptCons(e, [b]);
    KeptCons(b, []);
    assert [a, e, b] == [a] + [e, b] && [e, b] == [e] + [b] && [b] == [b] + [];
    assert (a + "//" + b)[0] == a[0] && a[0] in a;
  }

  /** A doubled slash between two components is read as one. */
  lemma DoubledSlash(a: string, b: string)
    requires Component(a) && Component(b)
    ensures Normalize(a + "//" + b) == a + "/" + b
  {
    DoubledSlashParts(a, b);
    var ps := [a, b];
    assert Normalize(a + "//" + b) == Format([], ps);
    assert ps[1..] == [b];
  }

  /** A trailing slash splits off an empty last piece. */
  lemma SplitOnTrailing(a: string)
    requires '/' !in a
    ensures SplitOn(a + "/", '/') == [a, []]
  {
    var e: string := [];
    assert a + "/" == a + "/" + e;
    SplitOnAt(a, e);
    SplitOnOne(e);
  }

  /** A trailing slash is dropped. */
  lemma TrailingSlash(a: string)
    requires Component(a)
    ensures Normalize(a + "/") == a
  {
    SplitOnTrailing(a);
    var e: string := [];
    KeptCons(a, [e]);
    KeptCons(e, []);
    assert [a, e] == [a] + [e] && [e] == [e] + [];
    assert (a + "/")[0] == a[0] && a[0] in a;
    assert Normalize(a + "/") == Format([], [a]);
  }

  /** A path whose lower-cased suffix names an audio format. */
  predicate IsAudio(p: string) {
    Lower(Suffix(p)) in AudioExtensions
  }

  // ---------------------------------------------------------------------------
  // Choosing the files

  /** `validate_audio_file`: an existing regular file in an audio format. */
  predicate Valid(fs: FileSystem, p: string) {
    p in fs.files && IsAudio(p)
  }

  /** The directory walk keeps the regular files in an audio format, in
      walk order. */
  function Audio(fs: FileSystem, entries: seq<string>): (r: seq<string>)
    ensures |r| <= |entries|
  {
    if entries == [] then []
    else
      var rest := Audio(fs, entries[..|entries| - 1]);
      var e := entries[|entries| - 1];
      if e in fs.files && IsAudio(e) then rest + [e] else rest
  }

  lemma {:induction false} AudioMembers(fs: FileSystem, entries: seq<string>)
    ensures forall p :: p in Audio(fs, entries) <==> p in entries && Valid(fs, p)
  {
    if entries != [] {
      var pre := entries[..|entries| - 1];
      AudioMembers(fs, pre);
      assert entries == pre + [entries[|entries| - 1]];
    }
  }

  /** The lines of a file list, stripped, that name valid audio files. */
  function Listed(fs: FileSystem, lines: seq<string>): (r: seq<string>)
    ensures |r| <= |lines|
  {
    if lines == [] then []
    else
      var rest := Listed(fs, lines[..|lines| - 1]);
      var p := Strip(lines[|lines| - 1]);
      if p != [] && Valid(fs, p) then rest + [p] else rest
  }

  lemma {:induction false} ListedValid(fs: FileSystem, lines: seq<string>)
    ensures forall p :: p in Listed(fs, lines) ==> p != [] && Valid(fs, p)
  {
    if lines != [] {
      ListedValid(fs, lines[..|lines| - 1]);
    }
  }

  /** `get_audio_files`: a file list wins over a directory; an unreadable
      list, a missing directory or a path that is not a directory gives no
      files. */
  function AudioFiles(fs: FileSystem, fileList: string, inputDir: string): (r: seq<string>)
    ensures fileList != [] && fileList !in fs.texts ==> r == []
    ensures fileList == [] && inputDir != [] && inputDir !in fs.dirs ==> r == []
    ensures fileList == [] && inputDir == [] ==> r == []
  {
    if fileList != [] then
      if fileList in fs.texts then Listed(fs, fs.texts[fileList]) else []
    else if inputDir != [] then
      if !Exists(fs, inputDir) then []
      else if inputDir !in fs.dirs then []
      else Audio(fs, if inputDir in fs.tree then fs.tree[inputDir] else [])
    else []
  }

  /** Whatever the source, every file picked is a valid audio file. */
  lemma AudioFilesValid(fs: FileSystem, fileList: string, inputDir: string)
    ensures forall p :: p in AudioFiles(fs, fileList, inputDir) ==> Valid(fs, p)
  {
    if fileList != [] {
      if fileList in fs.texts {
        ListedValid(fs, fs.texts[fileList]);
      }
    } else if inputDir != [] && inputDir in fs.dirs {
      AudioMembers(fs, if inputDir in fs.tree then fs.tree[inputDir] else []);
    }
  }

  /** The walk of `get_audio_files`' directory branch. */
  method ScanDirectory(fs: FileSystem, entries: seq<string>) returns (audioFiles: seq<string>)
    ensures audioFiles == Audio(fs, entries)
  {
    audioFiles := [];
    var i := 0;
    while i < |entries|
      invariant i <= |entries|
      invariant audioFiles == Audio(fs, entries[..i])
    {
      var filePath := entries[i];
      assert entries[..i + 1][..i] == entries[..i];
      if filePath in fs.files && Lower(Suffix(filePath)) in AudioExtensions {
        audioFiles := audioFiles + [filePath];
      }
      i := i + 1;
    }
    assert entries[..|entries|] == entries;
  }

  // ---------------------------------------------------------------------------
  // One file

  /** What `process_audio_file` did with a path. */
  datatype Outcome = Returned(ok: bool) | Raised(message: string)

  /** The per-file result record, without its processing time. */
  datatype FileResult = FileResult(filePath: string, success: bool, error: Option<string>,
                                   skipped: bool, outputFiles: seq<string>)

  /** The keyword options the batch passes on. */
  datatype Options = Options(outputDir: string, forceOverwrite: bool, saveIntermediate: bool)

  /** Where a file's outputs go: the output directory, or else the file's
      own directory. */
  function OutDir(o: Options, p: string): string {
    if o.outputDir != [] then o.outputDir else Parent(p)
  }

  function SongDataPath(o: Options, p: string): string {
    OutputPath(o, p, ".song_data.json")
  }

  /** The endings of the output names: three always, the separated
      stems only with intermediate files kept. */
  const OutputTails: seq<string> :=
    [".song_data.json", ".karaoke.mid", "_chord_lyrics_table.txt", "_vocals.wav", "_accompaniment.wav"]

  /** A stem followed by a suffix of two or more characters, neither
      holding a slash, is a single path component. */
  lemma NameComponent(stem: string, tail: string)
    requires '/' !in stem && '/' !in tail && |tail| > 1
    ensures Component(stem + tail)
  {
    forall c | c in stem + tail ensures c != '/' {
      assert c in stem || c in tail;
    }
  }

  /** The output file for one of the name endings. */
  function OutputPath(o: Options, p: string, tail: string): string {
    PathJoin(OutDir(o, p), CcliExport.Stem(p) + tail)
  }

  /** The outputs listed for a processed file. */
  function OutputFiles(o: Options, p: string): (r: seq<string>)
    ensures |r| == if o.saveIntermediate then 5 else 3
    ensures r[0] == SongDataPath(o, p)
    ensures forall i :: 0 <= i < |r| ==> r[i] == OutputPath(o, p, OutputTails[i])
  {
    var n := if o.saveIntermediate then 5 else 3;
    seq(n, i requires 0 <= i < n => OutputPath(o, p, OutputTails[i]))
  }

  lemma AppendCancel(base: string, s: string, t: string)
    requires base + s == base + t
    ensures s == t
  {
    assert s == (base + s)[|base|..];
  }

  /** Two endings give the same output only when they are the same. */
  lemma OutputPathInjective(o: Options, p: string, a: string, b: string)
    requires '/' !in a && |a| > 1 && '/' !in b && |b| > 1
    requires OutputPath(o, p, a) == OutputPath(o, p, b)
    ensures a == b
  {
    var base := CcliExport.Stem(p);
    NameComponent(base, a);
    NameComponent(base, b);
    PathJoinInjective(OutDir(o, p), base + a, base + b);
    AppendCancel(base, a, b);
  }

  /** Every name ending is a suffix of two or more characters without a
      slash. */
  lemma TailsShape()
    ensures forall i :: 0 <= i < |OutputTails| ==> '/' !in OutputTails[i] && |OutputTails[i]| > 1
  {
    forall i | 0 <= i < |OutputTails| ensures '/' !in OutputTails[i] && |OutputTails[i]| > 1 {
      var t := OutputTails[i];
      assert t == OutputTails[i];
      assert forall c :: c in t ==> c != '/' by {
        if i == 0 { assert t == ".song_data.json"; }
        else if i == 1 { assert t == ".karaoke.mid"; }
        else if i == 2 { assert t == "_chord_lyrics_table.txt"; }
        else if i == 3 { assert t == "_vocals.wav"; }
        else { assert t == "_accompaniment.wav"; }
      }
    }
  }

  /** The five name endings are distinct. */
  lemma TailsDistinct()
    ensures forall i, j :: 0 <= i < j < |OutputTails| ==> OutputTails[i] != OutputTails[j]
  {
    var t := OutputTails;
    assert t[0][1] == 's' && t[1][1] == 'k' && t[2][1] == 'c' && t[3][1] == 'v' && t[4][1] == 'a';
  }

  /** The listed outputs never name the same file twice. */
  lemma OutputFilesDistinct(o: Options, p: string)
    ensures var r := OutputFiles(o, p);
            forall i, j :: 0 <= i < j < |r| ==> r[i] != r[j]
  {
    var r := OutputFiles(o, p);
    TailsDistinct();
    TailsShape();
    forall i, j | 0 <= i < j < |r| ensures r[i] != r[j] {
      if r[i] == r[j] {
        OutputPathInjective(o, p, OutputTails[i], OutputTails[j]);
      }
    }
  }

  /** With `--output-dir ./d`, the first output listed is
      "d/<stem>.song_data.json", as pathlib prints it. */
  lemma OutputDirDotListed(o: Options, p: string, d: string)
    requires Component(d) && o.outputDir == "./" + d
    ensures OutputFiles(o, p)[0] == d + "/" + CcliExport.Stem(p) + ".song_data.json"
  {
    TailsShape();
    assert OutputTails[0] == ".song_data.json";
    NameComponent(CcliExport.Stem(p), ".song_data.json");
    DotOutputDir(d, CcliExport.Stem(p) + ".song_data.json");
  }

  /** `process_single_file`: an existing song data file skips the work
      unless overwriting is forced; otherwise the pipeline's answer is the
      success, an exception becomes the error text, and a success lists
      the outputs. */
  function ProcessSingleFile(fs: FileSystem, o: Options, run: string -> Outcome, p: string): (r: FileResult)
    ensures r.filePath == p
    ensures r.skipped <==> !o.forceOverwrite && Exists(fs, SongDataPath(o, p))
    ensures r.skipped ==> r.success && r.outputFiles == [] && r.error == None
    ensures !r.skipped ==> (r.success <==> run(p) == Returned(true))
    ensures !r.skipped && run(p).Raised? ==> r.error == Some(run(p).message)
    ensures r.error.Some? ==> run(p).Raised? && !r.success
    ensures r.outputFiles != [] <==> !r.skipped && r.success
    ensures r.outputFiles != [] ==> r.outputFiles == OutputFiles(o, p)
  {
    if !o.forceOverwrite && Exists(fs, SongDataPath(o, p)) then
      FileResult(p, true, None, true, [])
    else
      match run(p)
      case Raised(message) => FileResult(p, false, Some(message), false, [])
      case Returned(ok) => FileResult(p, ok, None, false, if ok then OutputFiles(o, p) else [])
  }

  // ---------------------------------------------------------------------------
  // The batch

  function Results(fs: FileSystem, o: Options, run: string -> Outcome, files: seq<string>): (r: seq<FileResult>)
    ensures |r| == |files|
  {
    if files == [] then []
    else Results(fs, o, run, files[..|files| - 1]) + [ProcessSingleFile(fs, o, run, files[|files| - 1])]
  }

  /** Result i is file i's. */
  lemma {:induction false} ResultsAt(fs: FileSystem, o: Options, run: string -> Outcome, files: seq<string>)
    ensures var r := Results(fs, o, run, files);
            forall i :: 0 <= i < |files| ==> r[i] == ProcessSingleFile(fs, o, run, files[i])
  {
    if files != [] {
      var pre := files[..|files| - 1];
      ResultsAt(fs, o, run, pre);
      var r := Results(fs, o, run, files);
      var rp := Results(fs, o, run, pre);
      assert r == rp + [ProcessSingleFile(fs, o, run, files[|files| - 1])];
      forall i | 0 <= i < |files| ensures r[i] == ProcessSingleFile(fs, o, run, files[i]) {
        if i < |pre| {
          assert r[i] == rp[i] && pre[i] == files[i];
        } else {
          assert i == |files| - 1;
        }
      }
    }
  }

  /** The files whose result has the given success, in input order. */
  function WithSuccess(rs: seq<FileResult>, success: bool): (r: seq<string>)
    ensures |r| <= |rs|
  {
    if rs == [] then []
    else
      var rest := WithSuccess(rs[..|rs| - 1], success);
      var x := rs[|rs| - 1];
      if x.success == success then rest + [x.filePath] else rest
  }

  lemma WithSuccessSnoc(rs: seq<FileResult>, x: FileResult, success: bool)
    ensures WithSuccess(rs + [x], success)
            == if x.success == success then WithSuccess(rs, success) + [x.filePath] else WithSuccess(rs, success)
  {
    assert (rs + [x])[..|rs|] == rs;
  }

  /** Appending a result to the run extends the list it lands in. */
  lemma AccountStep(before: seq<string>, rs: seq<FileResult>, x: FileResult, success: bool)
    ensures before + WithSuccess(rs + [x], success)
            == if x.success == success then (before + WithSuccess(rs, success)) + [x.filePath]
               else before + WithSuccess(rs, success)
  {
    WithSuccessSnoc(rs, x, success);
    assert before + (WithSuccess(rs, success) + [x.filePath]) == (before + WithSuccess(rs, success)) + [x.filePath];
  }

  lemma ResultsSnoc(fs: FileSystem, o: Options, run: string -> Outcome, files: seq<string>, i: nat)
    requires i < |files|
    ensures Results(fs, o, run, files[..i + 1])
            == Results(fs, o, run, files[..i]) + [ProcessSingleFile(fs, o, run, files[i])]
  {
    assert files[..i + 1][..i] == files[..i];
  }

  /** Every result lands in exactly one of the two lists. */
  lemma {:induction false} SplitAccounts(rs: seq<FileResult>)
    ensures |WithSuccess(rs, true)| + |WithSuccess(rs, false)| == |rs|
    ensures multiset(WithSuccess(rs, true)) + multiset(WithSuccess(rs, false))
            == multiset(seq(|rs|, i requires 0 <= i < |rs| => rs[i].filePath))
  {
    if rs != [] {
      var pre := rs[..|rs| - 1];
      SplitAccounts(pre);
      var paths := seq(|rs|, i requires 0 <= i < |rs| => rs[i].filePath);
      var prePaths := seq(|pre|, i requires 0 <= i < |pre| => pre[i].filePath);
      assert paths == prePaths + [rs[|rs| - 1].filePath];
    }
  }

  /** No failure is listed exactly when every result succeeded. */
  lemma {:induction false} NoFailures(rs: seq<FileResult>)
    ensures WithSuccess(rs, false) == [] <==> forall i :: 0 <= i < |rs| ==> rs[i].success
  {
    if rs != [] {
      var pre := rs[..|rs| - 1];
      NoFailures(pre);
      assert forall i :: 0 <= i < |pre| ==> pre[i] == rs[i];
    }
  }

  /** The returned summary, without its timings. */
  datatype Summary = Summary(success: bool, error: Option<string>, totalFiles: nat,
                             successful: nat, failed: nat, results: seq<FileResult>)

  /** The summary of a run with no files. */
  const NoFiles := Summary(false, Some("No audio files found"), 0, 0, 0, [])

  class BatchProcessor {
    const inputDir: string
    const fileList: string
    const options: Options
    var failedFiles: seq<string>
    var successfulFiles: seq<string>

    constructor (inputDir: string, fileList: string, options: Options)
      ensures this.inputDir == inputDir && this.fileList == fileList && this.options == options
      ensures failedFiles == [] && successfulFiles == []
    {
      this.inputDir := inputDir;
      this.fileList := fileList;
      this.options := options;
      failedFiles := [];
      successfulFiles := [];
    }

    /** `process_batch` with one worker: no files gives the empty summary
        and changes nothing; otherwise each file is processed in order and
        appended to the successful or the failed list. The lists are the
        processor's own, so the counts include earlier runs. */
    method ProcessBatch(fs: FileSystem, run: string -> Outcome) returns (summary: Summary)
      modifies this`failedFiles, this`successfulFiles
      ensures var files := AudioFiles(fs, fileList, inputDir);
              var rs := Results(fs, options, run, files);
              if files == [] then
                summary == NoFiles && successfulFiles == old(successfulFiles) && failedFiles == old(failedFiles)
              else
                successfulFiles == old(successfulFiles) + WithSuccess(rs, true)
                && failedFiles == old(failedFiles) + WithSuccess(rs, false)
                && summary == Summary(failedFiles == [], None, |files|, |successfulFiles|, |failedFiles|, rs)
    {
      var audioFiles := GetAudioFiles(fs);
      if audioFiles == [] {
        return NoFiles;
      }
      var results := ProcessAll(fs, run, audioFiles);
      summary := Summary(|failedFiles| == 0, None, |audioFiles|, |successfulFiles|, |failedFiles|, results);
    }

    /** `get_audio_files`, its directory walk as a loop. */
    method GetAudioFiles(fs: FileSystem) returns (audioFiles: seq<string>)
      ensures audioFiles == AudioFiles(fs, fileList, inputDir)
    {
      if fileList != [] {
        if fileList !in fs.texts {
          return [];
        }
        return Listed(fs, fs.texts[fileList]);
      } else if inputDir != [] {
        if !Exists(fs, inputDir) || inputDir !in fs.dirs {
          return [];
        }
        audioFiles := ScanDirectory(fs, if inputDir in fs.tree then fs.tree[inputDir] else []);
      } else {
        audioFiles := [];
      }
    }

    /** The sequential loop of `process_batch`. */
    method ProcessAll(fs: FileSystem, run: string -> Outcome, files: seq<string>) returns (results: seq<FileResult>)
      modifies this`failedFiles, this`successfulFiles
      ensures results == Results(fs, options, run, files)
      ensures successfulFiles == old(successfulFiles) + WithSuccess(results, true)
      ensures failedFiles == old(failedFiles) + WithSuccess(results, false)
    {
      results := [];
      var i := 0;
      while i < |files|
        invariant i <= |files|
        invariant results == Results(fs, options, run, files[..i])
        invariant successfulFiles == old(successfulFiles) + WithSuccess(results, true)
        invariant failedFiles == old(failedFiles) + WithSuccess(results, false)
      {
        var filePath := files[i];
        var result := ProcessSingleFile(fs, options, run, filePath);
        ResultsSnoc(fs, options, run, files, i);
        AccountStep(old(successfulFiles), results, result, true);
        AccountStep(old(failedFiles), results, result, false);
        results := results + [result];
        if result.success {
          successfulFiles := successfulFiles + [filePath];
        } else {
          failedFiles := failedFiles + [filePath];
        }
        i := i + 1;
      }
      assert files[..|files|] == files;
    }
  }

  /** On a fresh processor the summary accounts for every file once, and
      it reports success exactly when every file succeeded. */
  lemma FreshSummary(fs: FileSystem, o: Options, run: string -> Outcome, files: seq<string>)
    requires files != []
    ensures var rs := Results(fs, o, run, files);
            var s := Summary(WithSuccess(rs, false) == [], None, |files|,
                             |WithSuccess(rs, true)|, |WithSuccess(rs, false)|, rs);
            s.successful + s.failed == s.totalFiles
            && (s.success <==> forall i :: 0 <= i < |files| ==> ProcessSingleFile(fs, o, run, files[i]).success)
  {
    var rs := Results(fs, o, run, files);
    SplitAccounts(rs);
    NoFailures(rs);
    ResultsAt(fs, o, run, files);
  }
}
