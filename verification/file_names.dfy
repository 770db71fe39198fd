/** File names of time-lapse stacks and of the per-plane outputs:
    `get_ordered_tiffs` and `properNamePlane` of
    `pycroscopy3D/transformation/transformation.py` and of the older
    `pycroscopy/transformation/transformation.py`, and
    `parse_time_from_stack_name` with the output-folder name of
    `local_examples/pipeline_tools.py`. A directory listing is a sequence
    of names; the listing itself is not modelled. */
module FileNames {
  import opened Wrappers
  import opened PyStr

  /** `s[1:]`. */
  function Tail(s: string): (t: string)
    ensures |s| > 0 ==> t == s[1..]
    ensures |s| == 0 ==> t == ""
  {
    if |s| == 0 then "" else s[1..]
  }

  // ------------------------------------------------------- field lemmas

  /** The last c-separated field of `p + [c] + f` is f when f holds no c. */
  lemma LastFieldAfter(p: string, c: char, f: string)
    requires c !in f
    ensures LastField(p + [c] + f, c) == f
  {
    var s := p + [c] + f;
    var g := LastField(s, c);
    assert s[|s| - |f| - 1] == c;
    forall k | |s| - |g| <= k < |s|
      ensures s[k] != c
    {
      assert s[k] == g[k - (|s| - |g|)];
    }
    forall k | |s| - |f| <= k < |s|
      ensures s[k] != c
    {
      assert s[k] == f[k - (|s| - |f|)];
    }
    assert |g| <= |f|;
  }

  /** A string without c is its own last field. */
  lemma LastFieldWhole(s: string, c: char)
    requires c !in s
    ensures LastField(s, c) == s
  {
    forall k | 0 <= k < |s|
      ensures s[k] != c
    {
    }
  }

  /** The first c-separated field of `f + [c] + q` is f when f holds no c. */
  lemma FirstFieldBefore(f: string, c: char, q: string)
    requires c !in f
    ensures FirstField(f + [c] + q, c) == f
  {
    var s := f + [c] + q;
    var g := FirstField(s, c);
    assert s[|f|] == c;
    forall k | 0 <= k < |g|
      ensures s[k] != c
    {
      assert s[k] == g[k];
    }
    forall k | 0 <= k < |f|
      ensures s[k] != c
    {
      assert s[k] == f[k];
    }
    assert |g| <= |f|;
  }

  /** A string without c is its own first field. */
  lemma FirstFieldWhole(s: string, c: char)
    requires c !in s
    ensures FirstField(s, c) == s
  {
  }

  /** `str(t)` holds none of the separators the parsers split on. */
  lemma StrHasNoSeparator(t: int, c: char)
    requires c != '-' && !IsDigit(c)
    ensures c !in Str(t)
  {
    var s := Str(t);
    forall k | 0 <= k < |s|
      ensures s[k] != c
    {
      if t < 0 && k > 0 {
        assert s[k] == s[1..][k - 1];
      }
    }
  }

  // ----------------------------------------------- get_ordered_tiffs (new)

  /** The time of a stack name in `pycroscopy3D`: the text before the first
      '.', its last '_' field, without that field's first character, as an
      int; None where `int()` raises ValueError. */
  function TimeOf(name: string): Option<int>
  {
    ParseInt(Tail(LastField(FirstField(name, '.'), '_')))
  }

  /** The extension filter: names ending in ".tif" or ".tiff". */
  predicate IsTiff(name: string)
  {
    EndsWith(name, ".tif") || EndsWith(name, ".tiff")
  }

  /** The kept names, in listing order. */
  function KeptTiffs(names: seq<string>): (kept: seq<string>)
    ensures forall n :: n in kept <==> n in names && IsTiff(n)
    ensures |kept| <= |names|
  {
    if |names| == 0 then []
    else
      assert forall n :: n in names <==> n == names[0] || n in names[1..];
      (if IsTiff(names[0]) then [names[0]] else []) + KeptTiffs(names[1..])
  }

  /** A name with its parsed time. */
  datatype Entry = Entry(time: int, name: string)

  predicate SortedByTime(s: seq<Entry>)
  {
    forall i, j :: 0 <= i < j < |s| ==> s[i].time <= s[j].time
  }

  /** The timings list: one entry per name, or None once a name does not
      parse. */
  function Entries(names: seq<string>, timeOf: string -> Option<int>): (r: Option<seq<Entry>>)
    ensures r.Some? <==> forall k :: 0 <= k < |names| ==> timeOf(names[k]).Some?
    ensures r.Some? ==> |r.value| == |names|
    ensures r.Some? ==> forall k :: 0 <= k < |names| ==> r.value[k] == Entry(timeOf(names[k]).value, names[k])
  {
    if |names| == 0 then Some([])
    else
      match timeOf(names[0])
      case None => None
      case Some(t) =>
        match Entries(names[1..], timeOf)
        case None =>
          assert forall k :: 1 <= k < |names| ==> names[k] == names[1..][k - 1];
          None
        case Some(rest) =>
          assert forall k :: 1 <= k < |names| ==> names[k] == names[1..][k - 1];
          Some([Entry(t, names[0])] + rest)
  }

  /** Place e among time-sorted entries. */
  function Insert(e: Entry, s: seq<Entry>): (r: seq<Entry>)
    requires SortedByTime(s)
    ensures SortedByTime(r)
    ensures multiset(r) == multiset(s) + multiset{e}
    ensures |r| == |s| + 1 && (r[0] == e || (|s| > 0 && r[0] == s[0]))
  {
    if |s| == 0 || e.time <= s[0].time then [e] + s
    else
      assert s == [s[0]] + s[1..];
      [s[0]] + Insert(e, s[1..])
  }

  /** `argsort` of the timings applied to the names: the entries as a
      permutation sorted by time. numpy's default sort does not promise an
      order for equal times; the model fixes one. */
  function SortByTime(s: seq<Entry>): (r: seq<Entry>)
    ensures SortedByTime(r)
    ensures multiset(r) == multiset(s)
  {
    if |s| == 0 then []
    else
      assert s == [s[0]] + s[1..];
      Insert(s[0], SortByTime(s[1..]))
  }

  /** The names of the entries, in order. */
  function Names(es: seq<Entry>): (ns: seq<string>)
    ensures |ns| == |es| && forall k :: 0 <= k < |es| ==> ns[k] == es[k].name
  {
    if |es| == 0 then [] else [es[0].name] + Names(es[1..])
  }

  /** `os.path.join(a, b)` on POSIX, for two components. */
  function PathJoin(a: string, b: string): string
  {
    if |b| > 0 && b[0] == '/' then b
    else if |a| == 0 || a[|a| - 1] == '/' then a + b
    else a + "/" + b
  }

  /** The base name of a joined path is the name joined on. */
  lemma PathJoinBasename(a: string, b: string)
    requires '/' !in b
    ensures Basename(PathJoin(a, b)) == b
  {
    if |a| == 0 {
      assert PathJoin(a, b) == b;
      LastFieldWhole(b, '/');
    } else if a[|a| - 1] == '/' {
      assert a == a[..|a| - 1] + ['/'];
      assert PathJoin(a, b) == a[..|a| - 1] + ['/'] + b;
      LastFieldAfter(a[..|a| - 1], '/', b);
    } else {
      assert PathJoin(a, b) == a + ['/'] + b;
      LastFieldAfter(a, '/', b);
    }
  }

  /** The sorted entries of the `.tif`/`.tiff` names of a listing, or None
      when a time does not parse. */
  function OrderedEntries(names: seq<string>): Option<seq<Entry>>
  {
    match Entries(KeptTiffs(names), TimeOf)
    case None => None
    case Some(es) => Some(SortByTime(es))
  }

  /** `get_ordered_tiffs(dataPath)` of `pycroscopy3D`. */
  function OrderedTiffs(dataPath: string, names: seq<string>): Option<seq<string>>
  {
    match OrderedEntries(names)
    case None => None
    case Some(es) => Some(seq(|es|, k requires 0 <= k < |es| => PathJoin(dataPath, es[k].name)))
  }

  /** The ordered entries are sorted by time, and each is a kept name with
      its own time. */
  lemma OrderedEntriesSorted(names: seq<string>, k: nat)
    requires OrderedEntries(names).Some?
    ensures SortedByTime(OrderedEntries(names).value)
    ensures var r := OrderedEntries(names).value;
            k < |r| ==> IsTiff(r[k].name) && TimeOf(r[k].name) == Some(r[k].time)
  {
    var kept := KeptTiffs(names);
    var r := OrderedEntries(names).value;
    var es := Entries(kept, TimeOf).value;
    if k < |r| {
      assert r[k] in multiset(es);
      var q :| 0 <= q < |es| && es[q] == r[k];
      assert kept[q] in kept;
    }
  }

  /** The ordered entries are a rearrangement of the (time, name) pairs of
      the kept names, and those pairs list the kept names in listing
      order. */
  lemma OrderedEntriesPermute(names: seq<string>)
    requires OrderedEntries(names).Some?
    ensures var es := Entries(KeptTiffs(names), TimeOf).value;
            multiset(OrderedEntries(names).value) == multiset(es) && Names(es) == KeptTiffs(names)
  {
  }

  /** Every output path ends in a kept name, in the order of the entries. */
  lemma OrderedTiffsNames(dataPath: string, names: seq<string>, k: nat)
    requires OrderedEntries(names).Some? && k < |OrderedEntries(names).value|
    requires forall n :: n in names ==> '/' !in n
    ensures OrderedTiffs(dataPath, names).Some?
    ensures Basename(OrderedTiffs(dataPath, names).value[k]) == OrderedEntries(names).value[k].name
  {
    var es := OrderedEntries(names).value;
    OrderedNameListed(names, k);
    PathJoinBasename(dataPath, es[k].name);
  }

  /** Every ordered entry carries a name of the listing. */
  lemma OrderedNameListed(names: seq<string>, k: nat)
    requires OrderedEntries(names).Some? && k < |OrderedEntries(names).value|
    ensures OrderedEntries(names).value[k].name in names
  {
    var es := OrderedEntries(names).value;
    var kept := KeptTiffs(names);
    var listed := Entries(kept, TimeOf).value;
    assert es[k] in multiset(listed);
    var q :| 0 <= q < |listed| && listed[q] == es[k];
    assert kept[q] in kept;
  }

  /** A name of the form `<stem>_<c><time>.<ext>` whose stem holds no '.'
      parses to its time. */
  lemma TimeOfStackName(stem: string, c: char, t: int, ext: string)
    requires '.' !in stem && c != '.' && c != '_'
    ensures TimeOf(stem + "_" + [c] + Str(t) + "." + ext) == Some(t)
  {
    StrHasNoSeparator(t, '.');
    var before := stem + "_" + [c] + Str(t);
    assert '.' !in before by {
      assert before == stem + ("_" + [c]) + Str(t);
      assert forall k :: 0 <= k < |before| ==> before[k] in stem || before[k] in "_" + [c] || before[k] in Str(t);
    }
    assert stem + "_" + [c] + Str(t) + "." + ext == before + ['.'] + ext;
    FirstFieldBefore(before, '.', ext);
    LastFieldOrTime(stem, c, t);
    ParseIntStr(t);
  }

  /** The last '_' field of `stem + "_" + c + str(t)`, without its first
      character, is `str(t)`. */
  lemma LastFieldOrTime(stem: string, c: char, t: int)
    requires c != '_'
    ensures Tail(LastField(stem + "_" + [c] + Str(t), '_')) == Str(t)
  {
    StrHasNoSeparator(t, '_');
    assert stem + "_" + [c] + Str(t) == stem + ['_'] + ([c] + Str(t));
    assert '_' !in [c] + Str(t);
    LastFieldAfter(stem, '_', [c] + Str(t));
  }

  // ----------------------------------------------- get_ordered_tiffs (old)

  /** The time of a stack name in the older `pycroscopy`: the last '_'
      field, cut at its first '.', without its first character, as an
      int. */
  function TimeOfOld(name: string): Option<int>
  {
    ParseInt(Tail(FirstField(LastField(name, '_'), '.')))
  }

  /** `get_ordered_tiffs(dataPath)` of the older `pycroscopy`: no extension
      filter, and the paths are plain concatenations. */
  function OrderedTiffsOld(dataPath: string, names: seq<string>): Option<seq<string>>
  {
    match Entries(names, TimeOfOld)
    case None => None
    case Some(es) =>
      var sorted := SortByTime(es);
      Some(seq(|sorted|, k requires 0 <= k < |sorted| => dataPath + sorted[k].name))
  }

  /** The older parser reads `<stem>_<c><time>.<ext>` whatever the stem,
      provided the extension holds no '_'. */
  lemma TimeOfOldStackName(stem: string, c: char, t: int, ext: string)
    requires '_' !in ext && c != '.' && c != '_'
    ensures TimeOfOld(stem + "_" + [c] + Str(t) + "." + ext) == Some(t)
  {
    StrHasNoSeparator(t, '.');
    StrHasNoSeparator(t, '_');
    var field := [c] + Str(t) + "." + ext;
    assert '_' !in field by {
      assert field == [c] + Str(t) + ("." + ext);
      assert forall k :: 0 <= k < |field| ==> field[k] in [c] || field[k] in Str(t) || field[k] in "." + ext;
    }
    assert stem + "_" + [c] + Str(t) + "." + ext == stem + ['_'] + field;
    LastFieldAfter(stem, '_', field);
    assert '.' !in [c] + Str(t);
    assert field == ([c] + Str(t)) + ['.'] + ext;
    FirstFieldBefore([c] + Str(t), '.', ext);
    ParseIntStr(t);
  }

  /** The two versions disagree on a dotted stem: `a.b_t5.tif` has time 5
      for the older parser, while the newer one cuts at the first '.' and
      raises ValueError on `int("")`. */
  lemma DottedStemParsers()
    ensures TimeOfOld("a.b_t5.tif") == Some(5)
    ensures TimeOf("a.b_t5.tif") == None
  {
    DottedStemSpelling();
    TimeOfOldStackName("a.b", 't', 5, "tif");
    FirstFieldBefore("a", '.', "b_t5.tif");
    LastFieldWhole("a", '_');
    assert Strip("", Whitespace) == "";
  }

  lemma DottedStemSpelling()
    ensures "a.b_t5.tif" == "a.b" + "_" + ['t'] + Str(5) + "." + "tif"
    ensures "a.b_t5.tif" == "a" + ['.'] + "b_t5.tif"
  {
    assert Str(5) == "5";
  }

  // ----------------------------------------------------- properNamePlane

  /** `properNamePlane(i, nPlanes)`: `str(i)` preceded by as many '0' as
      `str(nPlanes)` is longer (none when it is not longer). */
  function ProperNamePlane(i: int, nPlanes: int): string
  {
    var lenToGet := |Str(nPlanes)|;
    if |Str(i)| == lenToGet then Str(i)
    else
      var toAdd := lenToGet - |Str(i)|;
      (if toAdd > 0 then Zeros(toAdd) else []) + Str(i)
  }

  /** For a plane index i >= 0 the name is `str(i).zfill(len(str(nPlanes)))`,
      as long as the longer of the two numerals, and reads back as i. */
  lemma ProperNamePlaneIsZFill(i: int, nPlanes: int)
    requires i >= 0
    ensures ProperNamePlane(i, nPlanes) == ZFill(Str(i), |Str(nPlanes)|)
    ensures |ProperNamePlane(i, nPlanes)| == if |Str(i)| >= |Str(nPlanes)| then |Str(i)| else |Str(nPlanes)|
    ensures ParseInt(ProperNamePlane(i, nPlanes)) == Some(i)
  {
    var si := Str(i);
    var w := |Str(nPlanes)|;
    if |si| < w {
      assert IsDigit(si[0]);
      ZFillDigits(si, w);
    }
    ZFillParse(i, w);
  }

  /** For a negative index the zeros go before the sign, unlike `zfill`:
      plane -1 of 100 is "0-1", not "-01". */
  lemma ProperNamePlaneNegative()
    ensures ProperNamePlane(-1, 100) == "0-1"
    ensures ZFill(Str(-1), |Str(100)|) == "-01"
  {
    assert Str(-1) == "-1";
    assert NatStr(10) == "10";
    assert Str(100) == "100";
  }

  // ------------------------------------------------ pipeline_tools names

  /** `parse_time_from_stack_name(path)`: the base name without its last
      extension, its last '_' field without the first character, as an
      int. */
  function ParseTimeFromStackName(path: string): Option<int>
  {
    ParseInt(Tail(LastField(SplitExtRoot(Basename(path)), '_')))
  }

  /** The output folder for a time: `"t" + str(time).zfill(6)`. */
  function TimeFolder(time: int): string
  {
    "t" + ZFill(Str(time), 6)
  }

  /** `os.path.splitext` cuts an extension without '.' off a root that
      does not end in '.'. */
  lemma SplitExtRootOf(root: string, ext: string)
    requires |root| > 0 && root[|root| - 1] != '.' && '.' !in ext
    ensures SplitExtRoot(root + "." + ext) == root
  {
    var name := root + "." + ext;
    assert name == root + ['.'] + ext;
    LastFieldAfter(root, '.', ext);
    assert name[|root| - 1] != '.';
  }

  /** A stack path `<dir>/<stem>_<c><time>.<ext>` parses to its time
      whatever the stem and directory, provided the extension holds neither
      '.' nor '/'. */
  lemma ParseTimeOfStackPath(dir: string, stem: string, c: char, t: int, ext: string)
    requires '/' !in stem && c != '/' && c != '.' && c != '_' && '.' !in ext && '/' !in ext
    ensures ParseTimeFromStackName(dir + "/" + stem + "_" + [c] + Str(t) + "." + ext) == Some(t)
  {
    StrHasNoSeparator(t, '/');
    var root := stem + "_" + [c] + Str(t);
    var name := root + "." + ext;
    assert '/' !in stem + "_";
    assert '/' !in stem + "_" + [c];
    assert '/' !in root;
    assert '/' !in root + ".";
    assert '/' !in name;
    assert dir + "/" + stem + "_" + [c] + Str(t) + "." + ext == dir + ['/'] + name;
    LastFieldAfter(dir, '/', name);
    assert root[|root| - 1] == Str(t)[|Str(t)| - 1];
    StrHasNoSeparator(t, '.');
    SplitExtRootOf(root, ext);
    LastFieldOrTime(stem, c, t);
    ParseIntStr(t);
  }

  /** The docstring's example: `220127_F4_run2_t1965.tiff` has time 1965,
      whose folder is `t001965`. */
  lemma StackNameExample()
    ensures ParseTimeFromStackName("data/220127_F4_run2_t1965.tiff") == Some(1965)
    ensures TimeFolder(1965) == "t001965"
  {
    StackNameSpelling();
    ParseTimeOfStackPath("data", "220127_F4_run2", 't', 1965, "tiff");
    ZFillDigits(Str(1965), 6);
    FolderSpelling();
  }

  lemma StackNameSpelling()
    ensures Str(1965) == "1965"
    ensures "data/220127_F4_run2_t1965.tiff" == "data" + "/" + "220127_F4_run2" + "_" + ['t'] + Str(1965) + "." + "tiff"
  {
    Str1965();
  }

  lemma Str1965()
    ensures Str(1965) == "1965"
  {
    assert NatStr(19) == "19";
    assert NatStr(196) == "196";
  }

  lemma FolderSpelling()
    ensures "t" + (Zeros(2) + "1965") == "t001965"
  {
    assert Zeros(2) == "00";
  }

  /** `zfill` of a digit string shorter than the width prepends zeros. */
  lemma ZFillDigits(s: string, width: int)
    requires 0 < |s| < width && IsDigit(s[0])
    ensures ZFill(s, width) == Zeros(width - |s|) + s
  {
  }

  /** The folder name reads back as its time: dropping the 't' and parsing
      gives the time for every time >= 0. */
  lemma TimeFolderParses(time: int)
    requires time >= 0
    ensures Tail(TimeFolder(time)) == ZFill(Str(time), 6)
    ensures ParseInt(Tail(TimeFolder(time))) == Some(time)
    ensures |TimeFolder(time)| >= 7
  {
    ZFillParse(time, 6);
  }
}
