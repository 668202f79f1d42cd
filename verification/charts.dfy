/** `charts.Chart.__init__`: type checks on title, width and height, with defaults. */
module Charts {
  import opened Wrappers
  import opened PyValues

  /** The constructor argument a `TypeError` is about. */
  datatype Field = Title | Width | Height

  /** `TypeError` naming the offending argument and carrying its value. */
  datatype ChartError = TypeError(field: Field, value: PyValue)

  /** A constructed chart: the title text and the numeric width and height as given. */
  datatype Chart = Chart(title: string, width: PyValue, height: PyValue)

  const DefaultTitle: PyValue := Str("")
  const DefaultWidth: PyValue := Int(700)
  const DefaultHeight: PyValue := Int(500)

  /** `isinstance(v, int) or isinstance(v, float)`. */
  predicate IsNumeric(v: PyValue) {
    IsInt(v) || IsFloat(v)
  }

  /**
   * `Chart(title, width, height)`; an argument left out is `None` here and
   * takes its default. The arguments are checked in the order title, width,
   * height, so the first bad one is the one reported.
   */
  function NewChart(title: Option<PyValue>, width: Option<PyValue>, height: Option<PyValue>): (r: Result<Chart, ChartError>)
    ensures var t, w, h := title.GetOr(DefaultTitle), width.GetOr(DefaultWidth), height.GetOr(DefaultHeight);
            && (r.Success? <==> t.Str? && IsNumeric(w) && IsNumeric(h))
            && (r.Success? ==> r.value == Chart(t.s, w, h))
            && (!t.Str? ==> r == Failure(TypeError(Title, t)))
            && (t.Str? && !IsNumeric(w) ==> r == Failure(TypeError(Width, w)))
            && (t.Str? && IsNumeric(w) && !IsNumeric(h) ==> r == Failure(TypeError(Height, h)))
  {
    var t := title.GetOr(DefaultTitle);
    if !IsStr(t) then Failure(TypeError(Title, t))
    else
      var w := width.GetOr(DefaultWidth);
      if !IsInt(w) && !IsFloat(w) then Failure(TypeError(Width, w))
      else
        var h := height.GetOr(DefaultHeight);
        if !IsInt(h) && !IsFloat(h) then Failure(TypeError(Height, h))
        else Success(Chart(t.s, w, h))
  }

  /** A chart built from the values another chart stored is that same chart. */
  lemma StoredValuesRebuild(title: Option<PyValue>, width: Option<PyValue>, height: Option<PyValue>)
    requires NewChart(title, width, height).Success?
    ensures var c := NewChart(title, width, height).value;
            NewChart(Some(Str(c.title)), Some(c.width), Some(c.height)) == Success(c)
  {
  }

  /** `Chart()` has an empty title and is 700 by 500. */
  lemma DefaultChart()
    ensures NewChart(None, None, None) == Success(Chart("", Int(700), Int(500)))
  {
  }

  /** `Chart(title="Chart Title")._title == "Chart Title"`. */
  lemma TitledChart()
    ensures NewChart(Some(Str("Chart Title")), None, None) == Success(Chart("Chart Title", Int(700), Int(500)))
  {
  }

  /** A `bool` passes the numeric check, because `bool` is a subclass of `int`. */
  lemma BoolDimensionsAccepted(w: bool, h: bool)
    ensures NewChart(None, Some(Bool(w)), Some(Bool(h))) == Success(Chart("", Bool(w), Bool(h)))
  {
  }

  /** The text of the `TypeError`; `repr` is Python's `str()` of the offending value. */
  function ErrorMessage(e: ChartError, repr: PyValue -> string): (m: string)
    ensures FieldName(e.field) <= m
    ensures var v := repr(e.value);
            var k := |m| - 1 - |v|;
            && k >= 7 && m[|m| - 1] == '\''
            && m[k..|m| - 1] == v
            && m[k - 7..k] == ", not '"
  {
    var what := match e.field
      case Title => "title must be str"
      case Width => "width must be numeric"
      case Height => "height must be numeric";
    what + ", not '" + repr(e.value) + "'"
  }

  /** The argument's name, as the messages spell it. */
  function FieldName(f: Field): string {
    match f
    case Title => "title"
    case Width => "width"
    case Height => "height"
  }

  /** Whatever the offending values print as, the message tells which argument was bad. */
  lemma MessageNamesField(e1: ChartError, e2: ChartError, repr1: PyValue -> string, repr2: PyValue -> string)
    requires e1.field != e2.field
    ensures ErrorMessage(e1, repr1) != ErrorMessage(e2, repr2)
  {
    assert ErrorMessage(e1, repr1)[0] != ErrorMessage(e2, repr2)[0];
  }
}
