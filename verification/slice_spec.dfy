/** The input checks and the `--slice` option of
    `deconvolve/convert_data.py`: a spec such as "1:4,500:-200,:" becomes
    one Python `slice` per axis of the (z, y, x) stack. Reading the
    microscope files, the indexing `stack[slc]` and the HDF5 output are
    not modelled. */
module SliceSpec {
  import opened Wrappers
  import opened PyStr

  /** A Python `slice(start, stop, step)`; None for an omitted bound. */
  datatype SliceArgs = SliceArgs(start: Option<int>, stop: Option<int>, step: Option<int>)

  /** `slice(None)`: the whole axis. */
  const Whole: SliceArgs := SliceArgs(None, None, None)

  /** The exceptions `main` can raise before reading any data. */
  datatype ConvertError =
    | ValueError           // a part int() rejects, or Phenix data without field and channel
    | TypeError            // slice() given more than three arguments
    | IndexError           // more than three comma fields
    | NotImplementedError  // neither Phenix data nor an .h5 file

  /** One ':'-part of a field: None when empty, else `int(x)`. */
  function ParsePart(x: string): (r: Result<Option<int>, ConvertError>)
    ensures x == "" ==> r == Success(None)
    ensures x != "" ==> (r.Success? <==> ParseInt(x).Some?)
    ensures x != "" && r.Success? ==> r.value == ParseInt(x)
    ensures r.Failure? ==> r.error == ValueError
  {
    if x == "" then Success(None)
    else match ParseInt(x)
      case None => Failure(ValueError)
      case Some(n) => Success(Some(n))
  }

  /** The list comprehension over the ':'-parts, evaluated left to right:
      the first part int() rejects raises. */
  function ParseParts(parts: seq<string>): (r: Result<seq<Option<int>>, ConvertError>)
    ensures r.Success? <==> forall k :: 0 <= k < |parts| ==> ParsePart(parts[k]).Success?
    ensures r.Success? ==> |r.value| == |parts| &&
                           forall k :: 0 <= k < |parts| ==> Success(r.value[k]) == ParsePart(parts[k])
    ensures r.Failure? ==> r.error == ValueError
  {
    if |parts| == 0 then Success([])
    else match ParsePart(parts[0])
      case Failure(e) => Failure(e)
      case Success(v) =>
        match ParseParts(parts[1..])
        case Failure(e) => Failure(e)
        case Success(vs) => Success([v] + vs)
  }

  /** `slice(*args)`: one argument is the stop, two are start and stop,
      three add the step; more raise TypeError. */
  function SliceOf(args: seq<Option<int>>): (r: Result<SliceArgs, ConvertError>)
    requires |args| >= 1
    ensures r.Success? <==> |args| <= 3
    ensures r.Success? ==> r.value.stop == (if |args| == 1 then args[0] else args[1])
    ensures r.Success? ==> r.value.start == (if |args| == 1 then None else args[0])
    ensures r.Success? ==> r.value.step == (if |args| == 3 then args[2] else None)
  {
    if |args| == 1 then Success(SliceArgs(None, args[0], None))
    else if |args| == 2 then Success(SliceArgs(args[0], args[1], None))
    else if |args| == 3 then Success(SliceArgs(args[0], args[1], args[2]))
    else Failure(TypeError)
  }

  /** One comma field `ax` turned into `slice(*[...])`: the parts are
      parsed before slice() sees how many there are. */
  function FieldSlice(ax: string): Result<SliceArgs, ConvertError>
  {
    var parts := Split(ax, ':');
    match ParseParts(parts)
    case Failure(e) => Failure(e)
    case Success(args) => SliceOf(args)
  }

  /** A field without ':' gives the stop, as `x[:5]` would, not an index. */
  lemma SingleNumberIsStop(ax: string, n: int)
    requires ':' !in ax && ax != "" && ParseInt(ax) == Some(n)
    ensures FieldSlice(ax) == Success(SliceArgs(None, Some(n), None))
  {
    SplitWithout(ax, ':');
  }

  /** Splitting a string that lacks the separator gives the string. */
  lemma {:induction false} SplitWithout(s: string, c: char)
    requires c !in s
    ensures Split(s, c) == [s]
    decreases |s|
  {
    if |s| > 0 {
      SplitWithout(s[1..], c);
      assert [s[0]] + s[1..] == s;
    }
  }

  /** The loop over the comma fields from field i on, with the list
      `slc` built so far: field i's slice is computed before the
      assignment `slc[i] = ...` raises for i >= 3. */
  function Apply(slc: seq<SliceArgs>, fields: seq<string>, i: nat): Result<seq<SliceArgs>, ConvertError>
    requires |slc| == 3
    decreases |fields| - i
  {
    if i >= |fields| then Success(slc)
    else match FieldSlice(fields[i])
      case Failure(e) => Failure(e)
      case Success(v) => if i >= 3 then Failure(IndexError) else Apply(slc[i := v], fields, i + 1)
  }

  /** The comma fields of a spec, after stripping '[' and ']' from both ends. */
  function Fields(spec: string): seq<string>
  {
    Split(Strip(spec, {'[', ']'}), ',')
  }

  /** The slices a spec denotes. */
  function SliceSpecOf(spec: string): Result<seq<SliceArgs>, ConvertError>
  {
    Apply([Whole, Whole, Whole], Fields(spec), 0)
  }

  /** The slice-building loop of `main`. */
  method ParseSliceSpec(spec: string) returns (r: Result<seq<SliceArgs>, ConvertError>)
    ensures r == SliceSpecOf(spec)
  {
    var slc := [Whole, Whole, Whole];
    var s := Strip(spec, {'[', ']'});
    var fields := Split(s, ',');
    var i := 0;
    while i < |fields|
      invariant 0 <= i <= |fields| && |slc| == 3
      invariant Apply(slc, fields, i) == SliceSpecOf(spec)
    {
      var v := FieldSlice(fields[i]);
      if v.Failure? {
        return Failure(v.error);
      }
      if i >= 3 {
        return Failure(IndexError);
      }
      slc := slc[i := v.value];
      i := i + 1;
    }
    r := Success(slc);
  }

  /** The loop succeeds exactly when there are at most three fields left
      to place and each of them makes a slice; then field k sets axis k and
      every other axis keeps its slice. */
  lemma {:induction false} ApplyFields(slc: seq<SliceArgs>, fields: seq<string>, i: nat)
    requires |slc| == 3 && i <= 3
    ensures Apply(slc, fields, i).Success? <==>
              |fields| <= 3 && forall k :: i <= k < |fields| ==> FieldSlice(fields[k]).Success?
    ensures Apply(slc, fields, i).Success? ==>
              var out := Apply(slc, fields, i).value;
              |out| == 3 &&
              forall a :: 0 <= a < 3 ==> out[a] == if i <= a < |fields| then FieldSlice(fields[a]).value else slc[a]
    decreases |fields| - i
  {
    if i < |fields| && FieldSlice(fields[i]).Success? && i < 3 {
      ApplyFields(slc[i := FieldSlice(fields[i]).value], fields, i + 1);
    }
  }

  /** A spec succeeds exactly when it has at most three comma fields and
      each makes a slice; axis a then takes field a's slice, and the axes
      without a field stay `slice(None)`. */
  lemma SliceSpecAxes(spec: string)
    ensures SliceSpecOf(spec).Success? <==>
              |Fields(spec)| <= 3 && forall k :: 0 <= k < |Fields(spec)| ==> FieldSlice(Fields(spec)[k]).Success?
    ensures SliceSpecOf(spec).Success? ==>
              var slc := SliceSpecOf(spec).value;
              |slc| == 3 &&
              forall a :: 0 <= a < 3 ==> slc[a] == if a < |Fields(spec)| then FieldSlice(Fields(spec)[a]).value else Whole
  {
    ApplyFields([Whole, Whole, Whole], Fields(spec), 0);
  }

  /** Four or more fields that all make slices raise IndexError, on
      reaching the fourth. */
  lemma {:induction false} TooManyFields(slc: seq<SliceArgs>, fields: seq<string>, i: nat)
    requires |slc| == 3 && i <= 3 && |fields| > 3
    requires forall k :: i <= k <= 3 ==> FieldSlice(fields[k]).Success?
    ensures Apply(slc, fields, i) == Failure(IndexError)
    decreases 3 - i
  {
    if i < 3 {
      TooManyFields(slc[i := FieldSlice(fields[i]).value], fields, i + 1);
    }
  }

  /** An empty field is `slice(None)`, so an empty spec keeps every axis whole. */
  lemma EmptySpecKeepsAll()
    ensures FieldSlice("") == Success(Whole)
    ensures SliceSpecOf("") == Success([Whole, Whole, Whole])
  {
    EmptyField();
    SplitWithout("", ',');
    assert Strip("", {'[', ']'}) == "";
    assert [Whole, Whole, Whole][0 := Whole] == [Whole, Whole, Whole];
  }

  lemma EmptyField()
    ensures FieldSlice("") == Success(Whole)
  {
    SplitWithout("", ':');
    assert ParseParts([""]) == Success([None]) by {
      var r := ParseParts([""]);
      assert [""][0] == "";
      assert r.value == [r.value[0]];
    }
  }

  /** Splitting at the first separator. */
  lemma {:induction false} SplitAt(a: string, c: char, b: string)
    requires c !in a
    ensures Split(a + [c] + b, c) == [a] + Split(b, c)
    decreases |a|
  {
    var s := a + [c] + b;
    if |a| == 0 {
      assert s[1..] == b;
    } else {
      assert s[1..] == a[1..] + [c] + b;
      SplitAt(a[1..], c, b);
      assert [a[0]] + a[1..] == a;
    }
  }

  /** A spec of three comma fields, none starting or ending with a
      bracket, gives the three fields. */
  lemma ThreeFields(x: string, y: string, z: string)
    requires ',' !in x && ',' !in y && ',' !in z
    requires '[' !in x + y + z && ']' !in x + y + z
    ensures Fields(x + [','] + y + [','] + z) == [x, y, z]
  {
    var spec := x + [','] + y + [','] + z;
    NoBrackets(x, y, z);
    StripNothing(spec, {'[', ']'});
    SplitThree(x, y, z);
  }

  lemma SplitThree(x: string, y: string, z: string)
    requires ',' !in x && ',' !in y && ',' !in z
    ensures Split(x + [','] + y + [','] + z, ',') == [x, y, z]
  {
    assert x + [','] + y + [','] + z == x + [','] + (y + [','] + z);
    SplitAt(x, ',', y + [','] + z);
    SplitAt(y, ',', z);
    SplitWithout(z, ',');
  }

  lemma NoBrackets(x: string, y: string, z: string)
    requires '[' !in x + y + z && ']' !in x + y + z
    ensures var spec := x + [','] + y + [','] + z;
            forall k :: 0 <= k < |spec| ==> spec[k] !in {'[', ']'}
  {
    var spec := x + [','] + y + [','] + z;
    forall k | 0 <= k < |spec| ensures spec[k] != '[' && spec[k] != ']' {
      if k < |x| { assert spec[k] == (x + y + z)[k]; }
      else if k == |x| || k == |x| + 1 + |y| { assert spec[k] == ','; }
      else if k < |x| + 1 + |y| { assert spec[k] == (x + y + z)[k - 1]; }
      else { assert spec[k] == (x + y + z)[k - 2]; }
    }
  }

  /** A field "start:stop" of two parts that int() accepts (or that are
      empty) is `slice(start, stop)`. */
  lemma TwoParts(x: string, y: string)
    requires ':' !in x && ':' !in y
    requires ParsePart(x).Success? && ParsePart(y).Success?
    ensures FieldSlice(x + [':'] + y) == Success(SliceArgs(ParsePart(x).value, ParsePart(y).value, None))
  {
    SplitAt(x, ':', y);
    SplitWithout(y, ':');
    var vx, vy := ParsePart(x).value, ParsePart(y).value;
    var r := ParseParts([x, y]);
    assert [x, y][0] == x && [x, y][1] == y;
    assert r.value == [r.value[0], r.value[1]];
  }

  /** Where the input comes from: a Phenix directory (holding
      `Index.ref.xml`) or a SysBio `.h5` file. */
  datatype Source = Phenix(field: int, channel: int) | SysBio(channelName: Option<string>)

  /** The input-type dispatch of `main`. The two file-system tests are
      given as truth values. */
  function DataSource(hasPhenixIndex: bool, isFile: bool, inFile: string,
                      phenixField: Option<int>, phenixChannel: Option<int>,
                      sysbioChannel: Option<int>): Result<Source, ConvertError>
  {
    if hasPhenixIndex then
      if phenixField.None? || phenixChannel.None? then Failure(ValueError)
      else Success(Phenix(phenixField.value, phenixChannel.value))
    else if isFile && EndsWith(inFile, ".h5") then
      Success(SysBio(if sysbioChannel.Some? then Some("channel-" + Str(sysbioChannel.value)) else None))
    else Failure(NotImplementedError)
  }

  /** Phenix data is read only with both a field and a channel, and
      anything that is neither Phenix data nor an `.h5` file is refused. */
  lemma DataSourceChecks(hasPhenixIndex: bool, isFile: bool, inFile: string,
                         phenixField: Option<int>, phenixChannel: Option<int>, sysbioChannel: Option<int>)
    ensures var r := DataSource(hasPhenixIndex, isFile, inFile, phenixField, phenixChannel, sysbioChannel);
            (hasPhenixIndex ==> (r.Success? <==> phenixField.Some? && phenixChannel.Some?)) &&
            (r.Success? && r.value.Phenix? ==> phenixField == Some(r.value.field) && phenixChannel == Some(r.value.channel)) &&
            (!hasPhenixIndex && !(isFile && EndsWith(inFile, ".h5")) ==> r == Failure(NotImplementedError)) &&
            (r.Success? && r.value.SysBio? ==> (r.value.channelName.Some? <==> sysbioChannel.Some?))
  {
  }
}
