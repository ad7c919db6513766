/**
 * image_to_jpg of cdn_image_population.py, the path computation only: pathlib.Path parsing
 * (POSIX flavour), Path.suffix, Path.stem, Path.parent and the "/" join, as CPython 3.13 and
 * earlier define them. Opening and saving the image is left to the image library.
 */
module ImagePaths {

  /** The suffixes image_to_jpg passes through unchanged; the comparison is exact. */
  const ValidImageExtensions: set<string> := {".jpg", ".png", ".jfif", ".exif", ".gif", ".tiff", ".bmp"}

  const ResultTail := "_result.jpg"

  /** s.rfind('/') */
  function LastSlash(s: string): (r: int)
    ensures -1 <= r < |s|
    ensures r >= 0 ==> s[r] == '/'
  {
    if s == [] then -1 else if s[|s| - 1] == '/' then |s| - 1 else LastSlash(s[..|s| - 1])
  }

  /** Nothing after the last slash is a slash. */
  lemma {:induction false} NoSlashAfterLast(s: string)
    ensures forall i :: LastSlash(s) < i < |s| ==> s[i] != '/'
  {
    if s != [] && s[|s| - 1] != '/' {
      NoSlashAfterLast(s[..|s| - 1]);
    }
  }

  /** s.split('/') */
  function Segments(s: string): (r: seq<string>)
    decreases |s|
  {
    var i := LastSlash(s);
    if i < 0 then [s] else Segments(s[..i]) + [s[i + 1..]]
  }

  /** The segments pathlib keeps as parts: empty ones (repeated or trailing slashes) and "." go. */
  function Keep(segs: seq<string>): seq<string>
  {
    if segs == [] then []
    else
      var last := segs[|segs| - 1];
      Keep(segs[..|segs| - 1]) + (if last == "" || last == "." then [] else [last])
  }

  /** The anchor of a POSIX path: exactly two leading slashes are kept, one or three or more become "/". */
  function Root(s: string): string
  {
    if |s| >= 2 && s[0] == '/' && s[1] == '/' && (|s| == 2 || s[2] != '/') then "//"
    else if |s| >= 1 && s[0] == '/' then "/"
    else ""
  }

  /** A parsed path: its anchor and its parts after the anchor. */
  datatype PurePath = PurePath(root: string, parts: seq<string>)

  /** Path(s) */
  function Parse(s: string): PurePath
  {
    PurePath(Root(s), Keep(Segments(s)))
  }

  /** '/'.join(parts) */
  function Join(parts: seq<string>): string
  {
    if parts == [] then ""
    else if |parts| == 1 then parts[0]
    else Join(parts[..|parts| - 1]) + "/" + parts[|parts| - 1]
  }

  /** str(path): the anchor and the parts, or "." for the empty relative path. */
  function Render(p: PurePath): string
  {
    if p.root == "" && p.parts == [] then "." else p.root + Join(p.parts)
  }

  /** Path.name: the last part, or "" when there is none. */
  function Name(p: PurePath): string
  {
    if p.parts == [] then "" else p.parts[|p.parts| - 1]
  }

  /** name.rfind('.') */
  function LastDot(name: string): (r: int)
    ensures -1 <= r < |name|
    ensures r >= 0 ==> name[r] == '.'
    ensures forall i :: r < i < |name| ==> name[i] != '.'
  {
    if name == [] then -1 else if name[|name| - 1] == '.' then |name| - 1 else LastDot(name[..|name| - 1])
  }

  /** A name has a suffix when its last dot is neither its first nor its last character. */
  predicate HasSuffix(name: string)
  {
    0 < LastDot(name) < |name| - 1
  }

  /** Path.suffix */
  function Suffix(p: PurePath): string
  {
    var n := Name(p);
    if HasSuffix(n) then n[LastDot(n)..] else ""
  }

  /** Path.stem */
  function Stem(p: PurePath): string
  {
    var n := Name(p);
    if HasSuffix(n) then n[..LastDot(n)] else n
  }

  /** Path.parent: the path without its last part; a path with no parts is its own parent. */
  function Parent(p: PurePath): PurePath
  {
    if p.parts == [] then p else PurePath(p.root, p.parts[..|p.parts| - 1])
  }

  /** p / name for a name without slashes: "" and "." add nothing. */
  function JoinName(p: PurePath, name: string): PurePath
  {
    PurePath(p.root, p.parts + (if name == "" || name == "." then [] else [name]))
  }

  /** image_to_jpg(image_path): the path of the image the document receives. */
  function ImageToJpg(imagePath: string): string
  {
    var path := Parse(imagePath);
    if Suffix(path) !in ValidImageExtensions then
      Render(JoinName(Parent(path), Stem(path))) + ResultTail
    else
      imagePath
  }

  // ---------------------------------------------------------------- splitting and joining

  lemma {:induction false} LastSlashConcat(x: string, y: string)
    ensures LastSlash(x + y) == if LastSlash(y) >= 0 then |x| + LastSlash(y) else LastSlash(x)
    decreases |y|
  {
    if y == [] {
      assert x + y == x;
    } else if y[|y| - 1] != '/' {
      assert (x + y)[..|x + y| - 1] == x + y[..|y| - 1];
      LastSlashConcat(x, y[..|y| - 1]);
    }
  }

  /** The last slash of s is at k when s[k] is a slash and none follows it. */
  lemma {:induction false} LastSlashIs(s: string, k: nat)
    requires k < |s| && s[k] == '/'
    requires forall i :: k < i < |s| ==> s[i] != '/'
    ensures LastSlash(s) == k
    decreases |s|
  {
    if k < |s| - 1 {
      LastSlashIs(s[..|s| - 1], k);
    }
  }

  /** Splitting at the last slash. */
  lemma SegmentsAt(s: string, k: nat)
    requires k < |s| && s[k] == '/'
    requires forall i :: k < i < |s| ==> s[i] != '/'
    ensures Segments(s) == Segments(s[..k]) + [s[k + 1..]]
  {
    LastSlashIs(s, k);
  }

  /** s.split('/') on x + "/" + y when y holds no slash: the last piece is y. */
  lemma SegmentsStepLast(x: string, y: string)
    requires LastSlash(y) < 0
    ensures Segments(x + "/" + y) == Segments(x) + [y]
  {
    var s := x + "/" + y;
    NoSlashAfterLast(y);
    assert forall j :: |x| < j < |s| ==> s[j] == y[j - |x| - 1];
    SegmentsAt(s, |x|);
    assert s[..|x|] == x && s[|x| + 1..] == y;
  }

  /** s.split('/') on x + "/" + y when y holds a slash: the last piece is the tail of y. */
  lemma SliceOfConcat(a: string, b: string, i: nat)
    requires i < |b|
    ensures (a + b)[..|a| + i] == a + b[..i]
    ensures (a + b)[|a| + i + 1..] == b[i + 1..]
  {
  }

  lemma SegmentsStepInner(x: string, y: string)
    requires LastSlash(y) >= 0
    ensures var i := LastSlash(y);
            Segments(x + "/" + y) == Segments(x + "/" + y[..i]) + [y[i + 1..]]
  {
    var head := x + "/";
    var i := LastSlash(y);
    LastSlashConcat(head, y);
    SliceOfConcat(head, y, i);
    SegmentsUnfold(head + y, |head| + i, head + y[..i], y[i + 1..]);
  }

  lemma SegmentsUnfold(s: string, k: nat, front: string, back: string)
    requires LastSlash(s) == k && s[..k] == front && s[k + 1..] == back
    ensures Segments(s) == Segments(front) + [back]
  {
  }

  /** One step of s.split('/') on a string with a slash in its second half. */
  lemma SegmentsStep(x: string, y: string)
    ensures var i := LastSlash(y);
            Segments(x + "/" + y)
            == if i < 0 then Segments(x) + [y] else Segments(x + "/" + y[..i]) + [y[i + 1..]]
  {
    if LastSlash(y) < 0 {
      SegmentsStepLast(x, y);
    } else {
      SegmentsStepInner(x, y);
    }
  }

  /** Splitting at a slash splits the halves independently. */
  lemma {:induction false} SegmentsSplit(x: string, y: string)
    ensures Segments(x + "/" + y) == Segments(x) + Segments(y)
    decreases |y|
  {
    SegmentsStep(x, y);
    var i := LastSlash(y);
    if i >= 0 {
      SegmentsSplit(x, y[..i]);
      SegmentsUnfold(y, i, y[..i], y[i + 1..]);
      assert Segments(x) + Segments(y[..i]) + [y[i + 1..]] == Segments(x) + Segments(y);
    } else {
      assert Segments(y) == [y];
    }
  }

  lemma {:induction false} KeepAppend(a: seq<string>, b: seq<string>)
    ensures Keep(a + b) == Keep(a) + Keep(b)
    decreases |b|
  {
    if b == [] {
      assert a + b == a;
    } else {
      assert (a + b)[..|a + b| - 1] == a + b[..|b| - 1];
      KeepAppend(a, b[..|b| - 1]);
    }
  }

  /** A part pathlib keeps as it is: not empty, not ".", no slash inside. */
  predicate IsPart(c: string)
  {
    c != "" && c != "." && '/' !in c
  }

  lemma NoSlashSegments(c: string)
    requires '/' !in c
    ensures Segments(c) == [c]
  {
  }

  lemma {:induction false} SegmentsOfJoin(parts: seq<string>)
    requires parts != [] && forall i :: 0 <= i < |parts| ==> IsPart(parts[i])
    ensures Segments(Join(parts)) == parts && Keep(parts) == parts
  {
    if |parts| == 1 {
      NoSlashSegments(parts[0]);
      assert Keep(parts) == Keep([]) + [parts[0]];
    } else {
      var init := parts[..|parts| - 1];
      var last := parts[|parts| - 1];
      SegmentsOfJoin(init);
      SegmentsSplit(Join(init), last);
      NoSlashSegments(last);
      assert init + [last] == parts;
    }
  }

  lemma JoinStartsWithPart(parts: seq<string>)
    requires parts != [] && forall i :: 0 <= i < |parts| ==> IsPart(parts[i])
    ensures |Join(parts)| > 0 && Join(parts)[0] != '/'
  {
    if |parts| > 1 {
      JoinStartsWithPart(parts[..|parts| - 1]);
    } else {
      assert parts[0][0] in parts[0];
    }
  }

  /** A path pathlib could have produced: a valid anchor and parts that survive parsing. */
  predicate Normal(p: PurePath)
  {
    p.root in {"", "/", "//"} && forall i :: 0 <= i < |p.parts| ==> IsPart(p.parts[i])
  }

  lemma SegmentsOfEmpty()
    ensures Segments("") == [""]
  {
  }

  /** A leading slash adds one empty piece in front. */
  lemma SegmentsSlashPrefix(j: string)
    ensures Segments("/" + j) == [""] + Segments(j)
  {
    SegmentsSplit("", j);
    assert "" + "/" + j == "/" + j;
    SegmentsOfEmpty();
  }

  /** Empty pieces in front are dropped. */
  lemma KeepEmptyPrefix(parts: seq<string>)
    ensures Keep([""] + parts) == Keep(parts)
  {
    KeepAppend([""], parts);
    assert Keep([""]) == Keep([]) + [];
  }

  lemma SegmentsOfSlash()
    ensures Segments("/") == ["", ""]
  {
    SegmentsSlashPrefix("");
    assert "/" + "" == "/";
  }

  lemma SegmentsOfDoubleSlash(j: string)
    ensures Segments("//" + j) == ["", ""] + Segments(j)
  {
    SegmentsSlashPrefix("/" + j);
    SegmentsSlashPrefix(j);
    assert "/" + ("/" + j) == "//" + j;
  }

  lemma KeepEmpties()
    ensures Keep(["", ""]) == [] && Keep(["", "", ""]) == []
  {
    KeepEmptyPrefix([""]);
    KeepEmptyPrefix(["", ""]);
    assert [""] + [""] == ["", ""];
    assert [""] + ["", ""] == ["", "", ""];
  }

  lemma ParseRenderEmpty()
    ensures Parse(Render(PurePath("", []))) == PurePath("", [])
  {
    assert Render(PurePath("", [])) == ".";
    NoSlashSegments(".");
    assert Root(".") == "";
    assert Keep(["."]) == Keep([]) + [];
  }

  lemma ParseRenderSlash()
    ensures Parse(Render(PurePath("/", []))) == PurePath("/", [])
  {
    assert Render(PurePath("/", [])) == "/";
    SegmentsOfSlash();
    KeepEmpties();
  }

  lemma ParseRenderDoubleSlash()
    ensures Parse(Render(PurePath("//", []))) == PurePath("//", [])
  {
    assert Render(PurePath("//", [])) == "//";
    SegmentsOfDoubleSlash("");
    assert "//" + "" == "//";
    SegmentsOfEmpty();
    assert ["", ""] + [""] == ["", "", ""];
    KeepEmpties();
  }

  lemma ParseRenderSingle(parts: seq<string>)
    requires parts != [] && forall i :: 0 <= i < |parts| ==> IsPart(parts[i])
    ensures Parse("/" + Join(parts)) == PurePath("/", parts)
  {
    var j := Join(parts);
    assert Root("/" + j) == "/" by {
      JoinStartsWithPart(parts);
    }
    assert Keep(Segments("/" + j)) == parts by {
      SegmentsOfJoin(parts);
      SegmentsSlashPrefix(j);
      KeepEmptyPrefix(parts);
    }
  }

  lemma RootOfDouble(j: string)
    requires |j| > 0 && j[0] != '/'
    ensures Root("//" + j) == "//"
  {
    assert ("//" + j)[2] == j[0];
  }

  lemma KeepTwoEmpties(parts: seq<string>)
    ensures Keep(["", ""] + parts) == Keep(parts)
  {
    KeepAppend(["", ""], parts);
    KeepEmpties();
  }

  lemma ParseRenderDouble(parts: seq<string>)
    requires parts != [] && forall i :: 0 <= i < |parts| ==> IsPart(parts[i])
    ensures Parse("//" + Join(parts)) == PurePath("//", parts)
  {
    var j := Join(parts);
    JoinStartsWithPart(parts);
    RootOfDouble(j);
    SegmentsOfDoubleSlash(j);
    SegmentsOfJoin(parts);
    KeepTwoEmpties(parts);
  }

  /** Printing a parsed path and parsing it again gives the same path back. */
  lemma ParseRender(p: PurePath)
    requires Normal(p)
    ensures Parse(Render(p)) == p
  {
    if p.parts == [] {
      if p.root == "" {
        ParseRenderEmpty();
      } else if p.root == "/" {
        ParseRenderSlash();
      } else {
        ParseRenderDoubleSlash();
      }
    } else if p.root == "/" {
      ParseRenderSingle(p.parts);
    } else if p.root == "//" {
      ParseRenderDouble(p.parts);
    } else {
      assert Render(p) == Join(p.parts);
      assert Root(Join(p.parts)) == "" by {
        JoinStartsWithPart(p.parts);
      }
      assert Keep(Segments(Join(p.parts))) == p.parts by {
        SegmentsOfJoin(p.parts);
      }
    }
  }

  // ---------------------------------------------------------------- properties of image_to_jpg

  /** A trailing part survives Keep. */
  lemma KeepLastPart(segs: seq<string>, last: string)
    requires IsPart(last)
    ensures Keep(segs + [last]) == Keep(segs) + [last]
  {
    assert (segs + [last])[..|segs|] == segs;
  }

  /** The last part of a path is the text after its last slash, when that text is a part. */
  lemma NameIsTail(s: string)
    requires IsPart(s[LastSlash(s) + 1..])
    ensures Name(Parse(s)) == s[LastSlash(s) + 1..]
  {
    var i := LastSlash(s);
    var tail := s[i + 1..];
    if i < 0 {
      assert tail == s;
      assert Segments(s) == [s];
      KeepLastPart([], s);
    } else {
      SegmentsUnfold(s, i, s[..i], tail);
      KeepLastPart(Segments(s[..i]), tail);
    }
  }

  lemma {:induction false} LastDotAppend(x: string, y: string)
    requires '.' !in y
    ensures LastDot(x + y) == LastDot(x)
    decreases |y|
  {
    if y == [] {
      assert x + y == x;
    } else {
      assert y[|y| - 1] in y;
      assert (x + y)[..|x + y| - 1] == x + y[..|y| - 1];
      LastDotAppend(x, y[..|y| - 1]);
    }
  }

  /** A name ending in "_result.jpg" has the suffix ".jpg". */
  lemma ResultNameSuffix(t: string)
    ensures var n := t + ResultTail; HasSuffix(n) && n[LastDot(n)..] == ".jpg"
  {
    var n := t + ResultTail;
    var head := t + "_result.";
    assert n == head + "jpg";
    LastDotAppend(head, "jpg");
    assert head[..|head| - 1] + ['.'] == head;
    assert LastDot(head) == |head| - 1;
    assert n[|head| - 1..] == ".jpg";
  }

  lemma ResultTailHasNoSlash()
    ensures LastSlash(ResultTail) == -1 && '/' !in ResultTail
  {
  }

  lemma DropOfConcat(w: string, r: string, j: nat)
    requires j <= |w|
    ensures (w + r)[j..] == w[j..] + r
  {
  }

  /** The text after the last slash holds no slash. */
  lemma TailHasNoSlash(w: string)
    ensures '/' !in w[LastSlash(w) + 1..]
  {
    var j := LastSlash(w) + 1;
    var t := w[j..];
    NoSlashAfterLast(w);
    forall k | 0 <= k < |t|
      ensures t[k] != '/'
    {
      assert t[k] == w[j + k];
    }
  }

  lemma ResultTailPart(t: string)
    requires '/' !in t
    ensures IsPart(t + ResultTail)
  {
    ResultTailHasNoSlash();
    var n := t + ResultTail;
    assert n[|n| - 1] == 'g';
    assert forall k :: 0 <= k < |n| ==> n[k] == (if k < |t| then t[k] else ResultTail[k - |t|]);
  }

  /** The last part of any path ending in "_result.jpg" ends in "_result.jpg" itself. */
  lemma ResultName(w: string)
    ensures exists t :: Name(Parse(w + ResultTail)) == t + ResultTail
  {
    var s := w + ResultTail;
    var j := LastSlash(w) + 1;
    var t := w[j..];
    ResultTailHasNoSlash();
    LastSlashConcat(w, ResultTail);
    DropOfConcat(w, ResultTail, j);
    TailHasNoSlash(w);
    ResultTailPart(t);
    NameIsTail(s);
    assert Name(Parse(s)) == t + ResultTail;
  }

  /** Any path ending in "_result.jpg" has the suffix ".jpg". */
  lemma ResultSuffix(w: string)
    ensures Suffix(Parse(w + ResultTail)) == ".jpg"
  {
    ResultName(w);
    var t :| Name(Parse(w + ResultTail)) == t + ResultTail;
    ResultNameSuffix(t);
  }

  /** A path in the accepted set comes back as it is. */
  lemma ValidPassesThrough(imagePath: string)
    requires Suffix(Parse(imagePath)) in ValidImageExtensions
    ensures ImageToJpg(imagePath) == imagePath
  {
  }

  /** Converting is idempotent: the converted path ends in ".jpg", which is in the accepted set. */
  lemma ImageToJpgIdempotent(imagePath: string)
    ensures ImageToJpg(ImageToJpg(imagePath)) == ImageToJpg(imagePath)
  {
    var path := Parse(imagePath);
    if Suffix(path) !in ValidImageExtensions {
      ResultSuffix(Render(JoinName(Parent(path), Stem(path))));
    }
  }

  /** No piece of s.split('/') holds a slash. */
  lemma {:induction false} SegmentsHaveNoSlash(s: string)
    ensures forall k :: 0 <= k < |Segments(s)| ==> '/' !in Segments(s)[k]
    decreases |s|
  {
    var i := LastSlash(s);
    NoSlashAfterLast(s);
    if i >= 0 {
      SegmentsHaveNoSlash(s[..i]);
      var tail := s[i + 1..];
      assert forall k :: 0 <= k < |tail| ==> tail[k] == s[i + 1 + k];
    }
  }

  lemma {:induction false} KeepParts(segs: seq<string>)
    requires forall k :: 0 <= k < |segs| ==> '/' !in segs[k]
    ensures forall k :: 0 <= k < |Keep(segs)| ==> IsPart(Keep(segs)[k])
  {
    if segs != [] {
      KeepParts(segs[..|segs| - 1]);
    }
  }

  /** Every parsed path is normal. */
  lemma ParseNormal(s: string)
    ensures Normal(Parse(s))
  {
    SegmentsHaveNoSlash(s);
    KeepParts(Segments(s));
  }

  lemma JoinExtendLast(ps: seq<string>, x: string, y: string)
    ensures Join(ps + [x]) + y == Join(ps + [x + y])
  {
    if ps != [] {
      assert (ps + [x])[..|ps|] == ps && (ps + [x + y])[..|ps|] == ps;
    }
  }

  /** The stem of a part is a part unless it is ".". */
  lemma StemIsPart(p: PurePath)
    requires Normal(p) && p.parts != [] && Stem(p) != "."
    ensures IsPart(Stem(p))
  {
    var n := Name(p);
    assert IsPart(n);
    if HasSuffix(n) {
      assert forall k :: 0 <= k < LastDot(n) ==> n[..LastDot(n)][k] == n[k];
      assert n[0] in n[..LastDot(n)];
    }
  }

  /** Renaming the last part of a normal path to its stem plus "_result.jpg" and parsing the text. */
  lemma RenamedParses(p: PurePath)
    requires Normal(p) && p.parts != [] && Stem(p) != "."
    ensures Parse(Render(JoinName(Parent(p), Stem(p))) + ResultTail)
            == PurePath(p.root, Parent(p).parts + [Stem(p) + ResultTail])
  {
    var stem := Stem(p);
    StemIsPart(p);
    ResultTailPart(stem);
    var folders := Parent(p).parts;
    var r := PurePath(p.root, folders + [stem + ResultTail]);
    NormalAppend(Parent(p), stem + ResultTail);
    RenderRenamed(p.root, folders, stem);
    ParseRender(r);
  }

  /** A part appended to a normal path leaves it normal. */
  lemma NormalAppend(p: PurePath, last: string)
    requires Normal(p) && IsPart(last)
    ensures Normal(PurePath(p.root, p.parts + [last]))
  {
  }

  /** Printing folders/stem and then adding "_result.jpg" prints folders/stem_result.jpg. */
  lemma RenderRenamed(root: string, folders: seq<string>, stem: string)
    requires IsPart(stem)
    ensures Render(JoinName(PurePath(root, folders), stem)) + ResultTail
            == Render(PurePath(root, folders + [stem + ResultTail]))
  {
    assert JoinName(PurePath(root, folders), stem) == PurePath(root, folders + [stem]);
    JoinExtendLast(folders, stem, ResultTail);
  }

  /**
   * A converted path keeps the anchor and the folders of the original, and its last part is the
   * original stem followed by "_result.jpg".
   */
  lemma ImageToJpgKeepsFolder(imagePath: string)
    requires Suffix(Parse(imagePath)) !in ValidImageExtensions
    requires Name(Parse(imagePath)) != "" && Stem(Parse(imagePath)) != "."
    ensures var p := Parse(imagePath);
            Parse(ImageToJpg(imagePath)) == PurePath(p.root, Parent(p).parts + [Stem(p) + ResultTail])
  {
    ParseNormal(imagePath);
    RenamedParses(Parse(imagePath));
  }

  lemma LastDotBeforeExtension(stem: string, ext: string)
    requires '.' !in ext
    ensures LastDot(stem + "." + ext) == |stem|
  {
    LastDotAppend(stem + ".", ext);
    assert (stem + ".")[..|stem|] == stem;
  }

  lemma ParseTwoParts(dir: string, name: string)
    requires IsPart(dir) && IsPart(name)
    ensures Parse(dir + "/" + name) == PurePath("", [dir, name])
  {
    SegmentsOfJoin([dir, name]);
    assert Join([dir, name]) == dir + "/" + name by {
      assert [dir, name][..1] == [dir];
    }
    JoinStartsWithPart([dir, name]);
  }

  lemma NameWithExtension(stem: string, ext: string)
    requires IsPart(stem) && '/' !in ext
    ensures IsPart(stem + "." + ext)
  {
    var name := stem + "." + ext;
    assert forall k :: 0 <= k < |stem| ==> stem[k] in stem;
    assert forall k :: 0 <= k < |ext| ==> ext[k] in ext;
    assert forall k :: 0 <= k < |stem| ==> name[k] == stem[k];
    assert forall k :: |stem| < k < |name| ==> name[k] == ext[k - |stem| - 1];
    assert forall k :: 0 <= k < |name| ==> name[k] != '/';
    assert name[0] == stem[0];
  }

  /** "stem.ext" with no dot in ext splits into the stem and the suffix ".ext". */
  lemma SplitExtension(stem: string, ext: string)
    requires stem != [] && '.' !in ext && ext != ""
    ensures var name := stem + "." + ext;
            HasSuffix(name) && name[..LastDot(name)] == stem && name[LastDot(name)..] == "." + ext
  {
    var name := stem + "." + ext;
    LastDotBeforeExtension(stem, ext);
    assert name[..|stem|] == stem;
    assert name[|stem|..] == "." + ext;
  }

  lemma RenderTwo(a: string, b: string)
    ensures Render(PurePath("", [a, b])) == a + "/" + b
  {
    assert [a, b][..1] == [a];
    assert Join([a, b]) == a + "/" + b;
    assert "" + (a + "/" + b) == a + "/" + b;
  }

  /** image_to_jpg of a path whose parse is known and whose suffix is not accepted. */
  lemma RenamedAs(imagePath: string, p: PurePath, q: PurePath)
    requires Parse(imagePath) == p && Suffix(p) !in ValidImageExtensions
    requires JoinName(Parent(p), Stem(p)) == q
    ensures ImageToJpg(imagePath) == Render(q) + ResultTail
  {
  }

  /** The stem and suffix of a path whose last part is "stem.ext". */
  lemma StemAndSuffix(p: PurePath, stem: string, ext: string)
    requires p.parts != [] && p.parts[|p.parts| - 1] == stem + "." + ext
    requires stem != [] && '.' !in ext && ext != ""
    ensures Stem(p) == stem && Suffix(p) == "." + ext
  {
    SplitExtension(stem, ext);
  }

  /** A file "stem.ext" in one folder, with an extension outside the accepted set, is renamed in its folder. */
  lemma RenamedInFolder(dir: string, stem: string, ext: string)
    requires IsPart(dir) && IsPart(stem) && '.' !in ext && '/' !in ext && ext != ""
    requires "." + ext !in ValidImageExtensions
    ensures ImageToJpg(dir + "/" + stem + "." + ext) == dir + "/" + stem + ResultTail
  {
    var name := stem + "." + ext;
    NameWithExtension(stem, ext);
    var path := dir + "/" + stem + "." + ext;
    assert path == dir + "/" + name;
    ParseTwoParts(dir, name);
    var p := PurePath("", [dir, name]);
    StemAndSuffix(p, stem, ext);
    var q := PurePath("", [dir, stem]);
    assert Parent(p) == PurePath("", [dir]) by {
      assert [dir, name][..1] == [dir];
    }
    assert JoinName(Parent(p), stem) == q by {
      assert [dir] + [stem] == [dir, stem];
    }
    RenamedAs(path, p, q);
    RenderTwo(dir, stem);
    assert Render(q) + ResultTail == dir + "/" + stem + ResultTail;
  }

  /** A bare file name "stem.ext", with an extension outside the accepted set, is renamed in place. */
  lemma RenamedInPlace(stem: string, ext: string)
    requires IsPart(stem) && '.' !in ext && '/' !in ext && ext != ""
    requires "." + ext !in ValidImageExtensions
    ensures ImageToJpg(stem + "." + ext) == stem + ResultTail
  {
    var name := stem + "." + ext;
    NameWithExtension(stem, ext);
    NoSlashSegments(name);
    KeepLastPart([], name);
    var p := PurePath("", [name]);
    assert Parse(name) == p;
    StemAndSuffix(p, stem, ext);
    var q := PurePath("", [stem]);
    assert JoinName(Parent(p), stem) == q;
    RenamedAs(name, p, q);
    assert Render(q) == stem by {
      assert "" + stem == stem;
    }
  }

  /** A JPEG spelled ".jpeg" is not in the accepted set and is renamed. */
  lemma JpegIsRenamed()
    ensures ImageToJpg("photos/image.jpeg") == "photos/image_result.jpg"
  {
    assert "photos" + "/" + "image" + "." + "jpeg" == "photos/image.jpeg";
    assert "." + "jpeg" == ".jpeg";
    assert ".jpeg" !in ValidImageExtensions by {
      assert ".jpeg"[2] == 'p' && ".jpeg"[1] == 'j';
    }
    assert "photos" + "/" + "image" + ResultTail == "photos/image_result.jpg";
    RenamedInFolder("photos", "image", "jpeg");
  }

  /** The comparison is case-sensitive: ".PNG" is renamed. */
  lemma UpperCaseIsRenamed()
    ensures ImageToJpg("a.PNG") == "a_result.jpg"
  {
    assert "a" + "." + "PNG" == "a.PNG";
    assert "." + "PNG" == ".PNG";
    assert ".PNG" !in ValidImageExtensions by {
      assert ".PNG"[1] == 'P';
    }
    assert "a" + ResultTail == "a_result.jpg";
    RenamedInPlace("a", "PNG");
  }
}
