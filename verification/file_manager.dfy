/**
 * The file browser dialog: a current path that folder clicks move down
 * (append `/name`) and up (`..`: drop the last non-empty segment), a list of
 * entries that only `delete` edits, and a selected file name.
 *
 * Path arithmetic and the extension badge are pure functions over strings;
 * the class `FileBrowser` holds the three pieces of React state and its
 * methods are the click, delete and download handlers.
 */
module FileManager {
  import opened Wrappers
  import opened Strings

  datatype ItemType = File | Folder

  /** One row of the listing; folders carry no size. */
  datatype FileItem = FileItem(name: string, itemType: ItemType, size: Option<string>, modified: string)

  const Home: string := "/home/user"

  /** The listing the dialog opens with. */
  const InitialFiles: seq<FileItem> := [
    FileItem("..", Folder, None, ""),
    FileItem("www", Folder, None, "2024-12-01 14:30"),
    FileItem("logs", Folder, None, "2024-12-02 10:15"),
    FileItem("config", Folder, None, "2024-11-28 09:22"),
    FileItem("backups", Folder, None, "2024-12-01 03:00"),
    FileItem(".env", File, Some("2.4 KB"), "2024-11-30 16:45"),
    FileItem("package.json", File, Some("1.8 KB"), "2024-11-29 11:20"),
    FileItem("README.md", File, Some("5.2 KB"), "2024-11-25 14:10"),
    FileItem("server.log", File, Some("45.8 MB"), "2024-12-02 15:30")
  ]

  // ---------------------------------------------------------------------------
  // Paths

  /** `.filter(Boolean)` on strings: the non-empty pieces, in order. */
  function NonEmpty(parts: seq<string>): (r: seq<string>)
    ensures forall k :: 0 <= k < |r| ==> r[k] != ""
    ensures forall x :: x in r ==> x in parts
    decreases |parts|
  {
    if parts == [] then []
    else if parts[0] == "" then NonEmpty(parts[1..])
    else [parts[0]] + NonEmpty(parts[1..])
  }

  /** Segments that a path could have produced: non-empty, slash-free. */
  predicate WellFormed(segs: seq<string>) {
    forall k :: 0 <= k < |segs| ==> segs[k] != "" && '/' !in segs[k]
  }

  /** The non-empty `/`-separated pieces of a path; every one is non-empty
      and slash-free. */
  function Segments(path: string): (segs: seq<string>)
    ensures WellFormed(segs)
  {
    var parts := Split(path, '/');
    var segs := NonEmpty(parts);
    assert forall k :: 0 <= k < |segs| ==> segs[k] in parts;
    segs
  }

  /** `'/' + parts.join('/')`: the path with the given segments. */
  function Rooted(segs: seq<string>): string {
    "/" + Join(segs, '/')
  }

  /** `parts.pop()`: the last element goes, if there is one. */
  function DropLast<T>(s: seq<T>): seq<T> {
    if s == [] then [] else s[..|s| - 1]
  }

  /** Where `..` leads: a rooted path whose segments are those of `path`
      without the last one (none at the root). */
  function ParentPath(path: string): (r: string)
    ensures r != [] && r[0] == '/'
    ensures Segments(r) == DropLast(Segments(path))
  {
    var segs := DropLast(Segments(path));
    assert WellFormed(segs);
    SegmentsOfRooted(segs);
    Rooted(segs)
  }

  /** Where a folder named `name` leads: a proper folder name becomes the
      last segment. */
  function ChildPath(path: string, name: string): (r: string)
    ensures name != "" && '/' !in name ==> Segments(r) == Segments(path) + [name]
  {
    var r := path + "/" + name;
    assert r == path + ['/'] + name;
    if name == "" || '/' in name then r
    else
      SplitAround(path, '/', name);
      SplitWithoutSep(name, '/');
      NonEmptyAppend(Split(path, '/'), [name]);
      assert NonEmpty([name]) == [name];
      r
  }

  lemma {:induction false} NonEmptyAppend(a: seq<string>, b: seq<string>)
    ensures NonEmpty(a + b) == NonEmpty(a) + NonEmpty(b)
    decreases |a|
  {
    if a == [] {
      assert a + b == b;
    } else {
      assert (a + b)[0] == a[0] && (a + b)[1..] == a[1..] + b;
      NonEmptyAppend(a[1..], b);
    }
  }

  /** Filtering keeps pieces that are all non-empty as they are. */
  lemma {:induction false} NonEmptyKeeps(parts: seq<string>)
    requires forall k :: 0 <= k < |parts| ==> parts[k] != ""
    ensures NonEmpty(parts) == parts
    decreases |parts|
  {
    if parts != [] {
      NonEmptyKeeps(parts[1..]);
      assert [parts[0]] + parts[1..] == parts;
    }
  }

  /** A rooted path has exactly the segments it was built from. */
  lemma SegmentsOfRooted(segs: seq<string>)
    requires WellFormed(segs)
    ensures Segments(Rooted(segs)) == segs
  {
    var j := Join(segs, '/');
    assert Rooted(segs) == "" + ['/'] + j;
    SplitAround("", '/', j);
    assert Split("", '/') == [""];
    if segs == [] {
      assert Split(Rooted(segs), '/') == [""] + [""];
    } else {
      SplitJoin(segs, '/');
      assert Split(Rooted(segs), '/') == [""] + segs;
      NonEmptyAppend([""], segs);
      NonEmptyKeeps(segs);
    }
  }

  /** Down into a folder and back up lands on the normalised starting path. */
  lemma ChildThenParent(path: string, name: string)
    requires name != "" && '/' !in name
    ensures ParentPath(ChildPath(path, name)) == Rooted(Segments(path))
  {
    assert DropLast(Segments(path) + [name]) == Segments(path);
  }

  /** A path that is already normalised comes back as it was. */
  lemma RoundTrip(segs: seq<string>, name: string)
    requires WellFormed(segs)
    requires name != "" && '/' !in name
    ensures ParentPath(ChildPath(Rooted(segs), name)) == Rooted(segs)
  {
    ChildThenParent(Rooted(segs), name);
    SegmentsOfRooted(segs);
  }

  /** The starting path is normalised, so the round trip returns to it. */
  lemma HomeRoundTrip(name: string)
    requires name != "" && '/' !in name
    ensures ParentPath(ChildPath(Home, name)) == Home
  {
    var home := ["home", "user"];
    assert Rooted(home) == Home;
    RoundTrip(home, name);
  }

  /** `..` from the starting path leads to "/home". */
  lemma ParentOfHome()
    ensures ParentPath(Home) == "/home"
  {
    var home := ["home", "user"];
    assert Rooted(home) == Home;
    SegmentsOfRooted(home);
    assert Rooted(["home"]) == "/home";
  }

  /** `..` at the root stays there. */
  lemma ParentOfRoot()
    ensures ParentPath("/") == "/"
  {
    assert Rooted([]) == "/";
    SegmentsOfRooted([]);
  }

  // ---------------------------------------------------------------------------
  // The extension badge

  /** `name.split('.').pop().toUpperCase()`: upper-case text without a dot. */
  function Badge(name: string): (r: string)
    ensures '.' !in r
    ensures forall i :: 0 <= i < |r| ==> !IsLowerAscii(r[i])
  {
    var pieces := Split(name, '.');
    UpperKeepsAbsent(pieces[|pieces| - 1], '.');
    Upper(pieces[|pieces| - 1])
  }

  /** The last piece of a split is the suffix after the last separator, or
      the whole string when there is none. */
  lemma {:induction false} LastPiece(s: string, sep: char) returns (k: nat)
    ensures var p := Split(s, sep);
      && k <= |s|
      && p[|p| - 1] == s[k..]
      && (|p| == 1 ==> k == 0)
      && (|p| > 1 ==> k > 0 && s[k - 1] == sep)
    decreases |s|
  {
    if s == [] {
      k := 0;
    } else {
      var rest := Split(s[1..], sep);
      var k' := LastPiece(s[1..], sep);
      if s[0] == sep {
        k := k' + 1;
      } else if |rest| == 1 {
        JoinSplit(s[1..], sep);
        assert [s[0]] + s[1..] == s;
        k := 0;
      } else {
        k := k' + 1;
      }
    }
  }

  /** The badge is the upper-cased text after the last dot, which contains no
      dot; without a dot it is the whole name upper-cased. */
  lemma BadgeIsExtension(name: string) returns (k: nat)
    ensures k <= |name| && Badge(name) == Upper(name[k..]) && '.' !in name[k..]
    ensures k == 0 || name[k - 1] == '.'
    ensures '.' !in name ==> k == 0
  {
    var p := Split(name, '.');
    k := LastPiece(name, '.');
    if '.' !in name {
      SplitWithoutSep(name, '.');
    }
  }

  /** A name made of a stem, a dot and a dot-free extension shows the
      extension upper-cased. */
  lemma BadgeOfDotted(stem: string, ext: string)
    requires '.' !in ext
    ensures Badge(stem + "." + ext) == Upper(ext)
  {
    assert stem + "." + ext == stem + ['.'] + ext;
    SplitAround(stem, '.', ext);
    SplitWithoutSep(ext, '.');
  }

  /** A dot-file shows its name without the dot. */
  lemma BadgeOfDotFile()
    ensures Badge(".env") == "ENV"
  {
    BadgeOfDotted("", "env");
    assert "" + "." + "env" == ".env";
  }

  lemma BadgeOfReadme()
    ensures Badge("README.md") == "MD"
  {
    BadgeOfDotted("README", "md");
    assert "README" + "." + "md" == "README.md";
  }

  // ---------------------------------------------------------------------------
  // Deleting

  /** `files.filter(f => f.name !== name)`. */
  function WithoutName(files: seq<FileItem>, name: string): (r: seq<FileItem>)
    ensures |r| <= |files|
    decreases |files|
  {
    if files == [] then []
    else if files[0].name == name then WithoutName(files[1..], name)
    else [files[0]] + WithoutName(files[1..], name)
  }

  /** An entry survives exactly when it was there and has another name. */
  lemma {:induction false} WithoutNameMembers(files: seq<FileItem>, name: string, f: FileItem)
    ensures f in WithoutName(files, name) <==> f in files && f.name != name
    decreases |files|
  {
    if files != [] {
      WithoutNameMembers(files[1..], name, f);
      assert files == [files[0]] + files[1..];
    }
  }

  /** Filtering works piece by piece, so the survivors keep their order. */
  lemma {:induction false} WithoutNameAppend(a: seq<FileItem>, b: seq<FileItem>, name: string)
    ensures WithoutName(a + b, name) == WithoutName(a, name) + WithoutName(b, name)
    decreases |a|
  {
    if a == [] {
      assert a + b == b;
    } else {
      assert (a + b)[0] == a[0] && (a + b)[1..] == a[1..] + b;
      WithoutNameAppend(a[1..], b, name);
    }
  }

  /** Nothing is removed when no entry has the name. */
  lemma {:induction false} WithoutAbsentName(files: seq<FileItem>, name: string)
    requires forall k :: 0 <= k < |files| ==> files[k].name != name
    ensures WithoutName(files, name) == files
    decreases |files|
  {
    if files != [] {
      WithoutAbsentName(files[1..], name);
      assert [files[0]] + files[1..] == files;
    }
  }

  /** An entry whose name no other entry shares is removed alone, and the
      rest keep their places. */
  lemma WithoutUniqueName(before: seq<FileItem>, f: FileItem, after: seq<FileItem>)
    requires forall k :: 0 <= k < |before| ==> before[k].name != f.name
    requires forall k :: 0 <= k < |after| ==> after[k].name != f.name
    ensures WithoutName(before + [f] + after, f.name) == before + after
  {
    WithoutAbsentName(before, f.name);
    WithoutAbsentName(after, f.name);
    WithoutNameAppend(before, [f], f.name);
    WithoutNameAppend(before + [f], after, f.name);
    assert WithoutName([f], f.name) == [];
    assert before + [] == before;
  }

  /** The number of entries removed is the number that had the name. */
  function CountNamed(files: seq<FileItem>, name: string): nat
    decreases |files|
  {
    if files == [] then 0
    else (if files[0].name == name then 1 else 0) + CountNamed(files[1..], name)
  }

  lemma {:induction false} WithoutNameCount(files: seq<FileItem>, name: string)
    ensures |WithoutName(files, name)| == |files| - CountNamed(files, name)
    decreases |files|
  {
    if files != [] {
      WithoutNameCount(files[1..], name);
    }
  }

  // ---------------------------------------------------------------------------
  // The component's state

  class FileBrowser {
    var currentPath: string
    var files: seq<FileItem>
    /** `selectedFile`; null is None. */
    var selected: Option<string>

    constructor ()
      ensures currentPath == Home && files == InitialFiles && selected == None
    {
      currentPath := Home;
      files := InitialFiles;
      selected := None;
    }

    /** A selection counts only when it is a non-empty name (JavaScript
        truthiness of `selectedFile`). */
    predicate HasSelection()
      reads this
    {
      selected.Some? && selected.value != ""
    }

    /** `handleFileClick`: a folder moves the path and clears the selection,
        `..` going up and any other folder going down; a file is selected
        and the path stays. The listing is never touched. */
    method Click(file: FileItem)
      modifies this`currentPath, this`selected
      ensures file.itemType == Folder && file.name == ".." ==>
        currentPath == ParentPath(old(currentPath)) && selected == None
      ensures file.itemType == Folder && file.name != ".." ==>
        currentPath == ChildPath(old(currentPath), file.name) && selected == None
      ensures file.itemType == File ==>
        currentPath == old(currentPath) && selected == Some(file.name)
      ensures files == old(files)
    {
      if file.itemType == Folder {
        if file.name == ".." {
          currentPath := ParentPath(currentPath);
        } else {
          currentPath := ChildPath(currentPath, file.name);
        }
        selected := None;
      } else {
        selected := Some(file.name);
      }
    }

    /** `handleDelete`: with a selection, every entry with that name goes and
        the selection is cleared; without one nothing changes. */
    method Delete()
      modifies this`files, this`selected
      ensures old(HasSelection()) ==>
        files == WithoutName(old(files), old(selected).value) && selected == None
      ensures !old(HasSelection()) ==> files == old(files) && selected == old(selected)
      ensures currentPath == old(currentPath)
    {
      if HasSelection() {
        files := WithoutName(files, selected.value);
        selected := None;
      }
    }

    /** `handleDownload`: the name it announces, if there is a selection;
        nothing changes. */
    method Download() returns (target: Option<string>)
      ensures target.Some? <==> HasSelection()
      ensures target.Some? ==> target == selected
    {
      if HasSelection() {
        target := selected;
      } else {
        target := None;
      }
    }

    /** Typing in the path box replaces the path with any text. */
    method SetPath(text: string)
      modifies this`currentPath
      ensures currentPath == text
    {
      currentPath := text;
    }
  }

  // ---------------------------------------------------------------------------
  // Sessions, end to end

  /** Into `www` and back up: the browser is where it started, with the
      listing intact and nothing selected. */
  method BrowseSession() returns (path: string, files: seq<FileItem>, selected: Option<string>)
    ensures path == Home && files == InitialFiles && selected == None
  {
    var b := new FileBrowser();
    var www, up := InitialFiles[1], InitialFiles[0];
    assert www.name == "www" && www.itemType == Folder;
    assert up.name == ".." && up.itemType == Folder;
    HomeRoundTrip("www");
    b.Click(www);
    b.Click(up);
    path, files, selected := b.currentPath, b.files, b.selected;
  }
}
