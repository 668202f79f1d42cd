/** `produce_svg`: the SVG document envelope, sized by the requested dimensions. */
module SvgDisplay {
  import opened Wrappers
  import opened Numerals

  /** `dimensions[0]` or `dimensions[1]` on a sequence that is too short. */
  datatype SvgError = IndexError

  /** The XML declaration, comment, doctype and `<svg` start tag up to the width value. */
  const Header: string :=
    "<?xml version=\"1.0\" encoding=\"utf-8\"?>\n"
    + "<!-- Generator: QuickPlots  -->\n"
    + "<!DOCTYPE svg PUBLIC \"-//W3C//DTD SVG 1.1//EN\" \"http://www.w3.org/Graphics/SVG/1.1/DTD/svg11.dtd\">\n"
    + "<svg version=\"1.1\" xmlns=\"http://www.w3.org/2000/svg\"\n"
    + " xmlns:xlink=\"http://www.w3.org/1999/xlink\" width=\""

  const BetweenSizes: string := "px\" height=\""
  const AfterSizes: string := "px\">\n"
  const Closing: string := "\n</svg>"

  /** The template with width, height (each as `%i`) and body filled in. */
  function Envelope(width: int, height: int, body: string): (d: string)
    ensures Header <= d && d[|Header|..] == Sized(width, height, body)
  {
    DropPrefix(Header, Sized(width, height, body));
    Header + Sized(width, height, body)
  }

  /** The part of the template after the header: the two sizes, the body and the closing tag. */
  function Sized(width: int, height: int, body: string): string {
    IntToString(width) + (BetweenSizes + (IntToString(height) + (AfterSizes + (body + Closing))))
  }

  /** `s` ends with `t`. */
  predicate EndsWith(s: string, t: string) {
    |t| <= |s| && s[|s| - |t|..] == t
  }

  lemma DropPrefix(a: string, b: string)
    ensures a <= a + b && (a + b)[|a|..] == b
  {
  }

  lemma EndsWithConcat(a: string, b: string, t: string)
    requires EndsWith(b, t)
    ensures EndsWith(a + b, t)
  {
    assert (a + b)[|a + b| - |t|..] == b[|b| - |t|..];
  }

  /** `produce_svg` as written: the template starts with a line break before the XML declaration. */
  function ProduceSvgAsWritten<C>(chart: C, dimensions: seq<real>): (r: Result<string, SvgError>)
    ensures r.Success? <==> |dimensions| >= 2
    ensures r.Success? ==> |r.value| > 0 && r.value[0] == '\n'
    ensures r.Success? ==> r.value == "\n" + ProduceSvg(chart, dimensions).value
    ensures r.Success? ==> ReadEnvelope(r.value[1..]) == Some((Trunc(dimensions[0]), Trunc(dimensions[1]), ""))
  {
    if |dimensions| < 2 then Failure(IndexError)
    else
      var doc := Envelope(Trunc(dimensions[0]), Trunc(dimensions[1]), "");
      EnvelopeRoundTrip(Trunc(dimensions[0]), Trunc(dimensions[1]), "");
      assert ("\n" + doc)[1..] == doc;
      Success("\n" + doc)
  }

  /** `produce_svg` with the document starting at the XML declaration, as an XML document must. */
  function ProduceSvg<C>(chart: C, dimensions: seq<real>): (r: Result<string, SvgError>)
    ensures r.Success? <==> |dimensions| >= 2
    ensures r.Success? ==> "<?xml version=\"1.0\"" <= r.value
    ensures r.Success? ==> EndsWith(r.value, "</svg>")
  {
    if |dimensions| < 2 then Failure(IndexError)
    else
      var w, h := Trunc(dimensions[0]), Trunc(dimensions[1]);
      EnvelopeShape(w, h, "");
      Success(Envelope(w, h, ""))
  }

  /** An envelope opens with the XML declaration and closes with `</svg>`. */
  lemma EnvelopeShape(width: int, height: int, body: string)
    ensures "<?xml version=\"1.0\"" <= Envelope(width, height, body)
    ensures EndsWith(Envelope(width, height, body), "</svg>")
  {
    var w, h := IntToString(width), IntToString(height);
    assert EndsWith(Closing, "</svg>");
    EndsWithConcat(body, Closing, "</svg>");
    EndsWithConcat(AfterSizes, body + Closing, "</svg>");
    EndsWithConcat(h, AfterSizes + (body + Closing), "</svg>");
    EndsWithConcat(BetweenSizes, h + (AfterSizes + (body + Closing)), "</svg>");
    EndsWithConcat(w, BetweenSizes + (h + (AfterSizes + (body + Closing))), "</svg>");
    EndsWithConcat(Header, Sized(width, height, body), "</svg>");
    DropPrefix(Header, Sized(width, height, body));
    HeaderOpensWithDeclaration();
    PrefixTransitive("<?xml version=\"1.0\"", Header, Envelope(width, height, body));
  }

  lemma HeaderOpensWithDeclaration()
    ensures "<?xml version=\"1.0\"" <= Header
  {
  }

  lemma PrefixTransitive(a: string, b: string, c: string)
    requires a <= b && b <= c
    ensures a <= c
  {
  }

  /**
   * Reads an envelope back: the width, the height and the text between the
   * `<svg>` start tag and `</svg>`. `None` if `doc` is not such an envelope.
   */
  function ReadEnvelope(doc: string): Option<(int, int, string)> {
    if Header <= doc then ReadSized(doc[|Header|..]) else None
  }

  /** Reads the part of an envelope after the header. */
  function ReadSized(text: string): Option<(int, int, string)> {
    var (ok1, width, rest1) := ReadInt(text);
    if !ok1 || !(BetweenSizes <= rest1) then None
    else
      var (ok2, height, rest2) := ReadInt(rest1[|BetweenSizes|..]);
      if !ok2 || !(AfterSizes <= rest2) then None
      else
        var tail := rest2[|AfterSizes|..];
        if !EndsWith(tail, Closing) then None
        else Some((width, height, tail[..|tail| - |Closing|]))
  }

  /** The sizes and body read back as written. */
  lemma SizedRoundTrip(width: int, height: int, body: string)
    ensures ReadSized(Sized(width, height, body)) == Some((width, height, body))
  {
    var h := IntToString(height);
    var tail := body + Closing;
    var rest2 := AfterSizes + tail;
    var rest1 := BetweenSizes + (h + rest2);
    assert BetweenSizes[0] == 'p';
    ReadIntToString(width, rest1);
    DropPrefix(BetweenSizes, h + rest2);
    assert AfterSizes[0] == 'p';
    ReadIntToString(height, rest2);
    DropPrefix(AfterSizes, tail);
    assert EndsWith(tail, Closing);
    assert tail[..|tail| - |Closing|] == body;
  }

  /** Every envelope reads back as the size and body it was written with. */
  lemma EnvelopeRoundTrip(width: int, height: int, body: string)
    ensures ReadEnvelope(Envelope(width, height, body)) == Some((width, height, body))
  {
    DropPrefix(Header, Sized(width, height, body));
    SizedRoundTrip(width, height, body);
  }

  /**
   * The document records the requested size truncated to whole pixels, the
   * `chart` argument plays no part, and nothing is drawn between the
   * `<svg>` tags.
   */
  lemma ProduceSvgReadsBack<C>(chart: C, other: C, dimensions: seq<real>)
    requires |dimensions| >= 2
    ensures ProduceSvg(chart, dimensions) == ProduceSvg(other, dimensions)
    ensures ReadEnvelope(ProduceSvg(chart, dimensions).value)
            == Some((Trunc(dimensions[0]), Trunc(dimensions[1]), ""))
  {
    EnvelopeRoundTrip(Trunc(dimensions[0]), Trunc(dimensions[1]), "");
  }

  /**
   * The document as written does not begin with the XML declaration, so it
   * does not read as an envelope at all.
   */
  lemma AsWrittenDeclarationNotFirst<C>(chart: C, dimensions: seq<real>)
    requires |dimensions| >= 2
    ensures !("<?xml" <= ProduceSvgAsWritten(chart, dimensions).value)
    ensures ReadEnvelope(ProduceSvgAsWritten(chart, dimensions).value) == None
  {
    var d := ProduceSvgAsWritten(chart, dimensions).value;
    assert d[0] != Header[0];
  }
}
