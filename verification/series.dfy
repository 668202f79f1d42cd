/** `Series.__init__`: turning the positional arguments into a list of points. */
module Series {
  import opened Wrappers
  import opened PyValues

  /** The exceptions construction can raise. */
  datatype SeriesError =
    | IndexError  // `data[0]` with no arguments, or `data[1]` with only one
    | TypeError   // `len()` or `zip()` applied to something that is not a sequence

  /** A Python 2-tuple. */
  function Pair(x: PyValue, y: PyValue): PyValue {
    List([x, y])
  }

  /** How many pairs `zip` yields: the length of the shorter column. */
  function ZipLength(xs: seq<PyValue>, ys: seq<PyValue>): nat {
    if |xs| <= |ys| then |xs| else |ys|
  }

  /** `xs` and `ys` taken pairwise: the meaning of `list(zip(xs, ys))`. */
  ghost predicate IsZipOf(r: seq<PyValue>, xs: seq<PyValue>, ys: seq<PyValue>) {
    && |r| == ZipLength(xs, ys)
    && forall i :: 0 <= i < |r| ==> r[i] == Pair(xs[i], ys[i])
  }

  /** `list(zip(xs, ys))`: stops at the end of the shorter sequence. */
  function Zip(xs: seq<PyValue>, ys: seq<PyValue>): (r: seq<PyValue>)
    ensures IsZipOf(r, xs, ys)
    decreases |xs|
  {
    if |xs| == 0 || |ys| == 0 then []
    else [Pair(xs[0], ys[0])] + Zip(xs[1..], ys[1..])
  }

  /** First and second components of a list of pairs. */
  function Firsts(ps: seq<PyValue>): seq<PyValue>
    requires forall i :: 0 <= i < |ps| ==> ps[i].List? && |ps[i].items| == 2
  {
    seq(|ps|, i requires 0 <= i < |ps| => ps[i].items[0])
  }

  function Seconds(ps: seq<PyValue>): seq<PyValue>
    requires forall i :: 0 <= i < |ps| ==> ps[i].List? && |ps[i].items| == 2
  {
    seq(|ps|, i requires 0 <= i < |ps| => ps[i].items[1])
  }

  /**
   * `Series(*data)._data`. More than two arguments, or a first argument of
   * length two, are taken as the points themselves; otherwise the first two
   * arguments are zipped into points.
   */
  function NewSeries(data: seq<PyValue>): (r: Result<seq<PyValue>, SeriesError>)
    ensures |data| == 0 ==> r == Failure(IndexError)
    ensures |data| > 2 ==> r == Success(data)
    ensures 1 <= |data| <= 2 && !IsSequence(data[0]) ==> r == Failure(TypeError)
    ensures 1 <= |data| <= 2 && IsSequence(data[0]) && |Elements(data[0])| == 2 ==> r == Success(data)
    ensures |data| == 1 && IsSequence(data[0]) && |Elements(data[0])| != 2 ==> r == Failure(IndexError)
    ensures |data| == 2 && IsSequence(data[0]) && |Elements(data[0])| != 2 ==>
              if IsSequence(data[1]) then r.Success? && IsZipOf(r.value, Elements(data[0]), Elements(data[1]))
              else r == Failure(TypeError)
  {
    if |data| == 0 then Failure(IndexError)
    else if |data| > 2 then Success(data)
    else if !IsSequence(data[0]) then Failure(TypeError)
    else if |Elements(data[0])| == 2 then Success(data)
    else if |data| == 1 then Failure(IndexError)
    else if !IsSequence(data[1]) then Failure(TypeError)
    else Success(Zip(Elements(data[0]), Elements(data[1])))
  }

  /**
   * Zipping loses nothing but the tail of the longer sequence: the x and y
   * columns of the result are the prefixes of the two arguments.
   */
  lemma {:induction false} ZipUnzips(xs: seq<PyValue>, ys: seq<PyValue>)
    ensures var n := ZipLength(xs, ys);
            var ps := Zip(xs, ys);
            && (forall i :: 0 <= i < |ps| ==> ps[i].List? && |ps[i].items| == 2)
            && Firsts(ps) == xs[..n]
            && Seconds(ps) == ys[..n]
  {
    var ps := Zip(xs, ys);
    assert forall i :: 0 <= i < |ps| ==> ps[i] == Pair(xs[i], ys[i]);
  }

  /** Two parallel sequences of equal length come back intact as the columns of the series. */
  lemma ParallelRoundTrip(xs: seq<PyValue>, ys: seq<PyValue>)
    requires |xs| == |ys| && |xs| != 2
    ensures var r := NewSeries([List(xs), List(ys)]);
            && r.Success?
            && (forall i :: 0 <= i < |r.value| ==> r.value[i].List? && |r.value[i].items| == 2)
            && Firsts(r.value) == xs
            && Seconds(r.value) == ys
  {
    ZipUnzips(xs, ys);
    assert xs[..|xs|] == xs;
    assert ys[..|ys|] == ys;
  }

  /** `Series((1, 1), (2, 4), (3, 9))._data == [(1, 1), (2, 4), (3, 9)]`. */
  lemma PointsExample()
    ensures var pts := [Pair(Int(1), Int(1)), Pair(Int(2), Int(4)), Pair(Int(3), Int(9))];
            NewSeries(pts) == Success(pts)
  {
  }

  /** `Series((1, 2, 3), (1, 4, 9))._data == [(1, 1), (2, 4), (3, 9)]`. */
  lemma ParallelExample()
    ensures NewSeries([List([Int(1), Int(2), Int(3)]), List([Int(1), Int(4), Int(9)])])
            == Success([Pair(Int(1), Int(1)), Pair(Int(2), Int(4)), Pair(Int(3), Int(9))])
  {
    var xs, ys := [Int(1), Int(2), Int(3)], [Int(1), Int(4), Int(9)];
    assert Elements(List(xs)) == xs;
    var z := Zip(xs, ys);
    assert |z| == 3 && z[0] == Pair(Int(1), Int(1)) && z[1] == Pair(Int(2), Int(4)) && z[2] == Pair(Int(3), Int(9));
    assert z == [Pair(Int(1), Int(1)), Pair(Int(2), Int(4)), Pair(Int(3), Int(9))];
    assert NewSeries([List(xs), List(ys)]) == Success(z);
  }

  /** Two points are never mistaken for an x column and a y column. */
  lemma TwoPointsNotZipped(a: PyValue, b: PyValue, c: PyValue, d: PyValue)
    ensures NewSeries([Pair(a, b), Pair(c, d)]) == Success([Pair(a, b), Pair(c, d)])
  {
  }
}
