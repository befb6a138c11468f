/**
 * `print_response_with_citations`: splices Markdown links `[text](url)` into
 * an agent reply at the spans its `url_citation` annotations name.
 */
module Citations {
  import opened Common

  /** The annotation type the renderer acts on; every other type is skipped. */
  const UrlCitation: string := "url_citation"

  /** One entry of the reply's `annotations` list. `url` is `annotation['url_citation']['url']`. */
  datatype Annotation = Annotation(kind: string, startIndex: int, endIndex: int, text: string, url: string)

  /** The reply: its `value` and its optional `annotations` list (absent reads as `[]`). */
  datatype MessageText = MessageText(value: string, annotations: Option<seq<Annotation>>)

  /** The renderer's loop state: `last_index` and `output`. */
  datatype Cursor = Cursor(last: int, output: string)

  /** Python's normalisation of one slice bound against a sequence of length `n`. */
  function SliceBound(i: int, n: nat): (r: nat)
    ensures r <= n
  {
    if i < 0 then (if i + n < 0 then 0 else i + n)
    else if i > n then n
    else i
  }

  /** Python's `s[i:j]`: bounds may be negative, out of range or decreasing. */
  function PySlice(s: string, i: int, j: int): (r: string)
    ensures 0 <= i <= j <= |s| ==> r == s[i..j]
    ensures 0 <= j <= i ==> r == ""
    ensures |r| <= |s|
  {
    var a := SliceBound(i, |s|);
    var b := SliceBound(j, |s|);
    if a < b then s[a..b] else ""
  }

  /** The Markdown link `[text](url)` an annotation renders as. */
  function Link(a: Annotation): string {
    "[" + a.text + "](" + a.url + ")"
  }

  /**
   * The renderer's loop over `anns` as a left fold: each `url_citation`
   * emits the text between the previous end and its start, then `piece(a)`,
   * and moves the cursor to its end; other annotations are skipped.
   */
  function Weave(value: string, anns: seq<Annotation>, piece: Annotation -> string): Cursor
  {
    if anns == [] then Cursor(0, "")
    else
      var c := Weave(value, anns[..|anns| - 1], piece);
      var a := anns[|anns| - 1];
      if a.kind == UrlCitation then Cursor(a.endIndex, c.output + PySlice(value, c.last, a.startIndex) + piece(a))
      else c
  }

  /** The fold followed by the tail `value[last_index:]`. */
  function Splice(value: string, anns: seq<Annotation>, piece: Annotation -> string): string
  {
    var c := Weave(value, anns, piece);
    c.output + PySlice(value, c.last, |value|)
  }

  /** What `print_response_with_citations` returns for `m`. */
  function Render(m: MessageText): string
  {
    Splice(m.value, m.annotations.GetOr([]), Link)
  }

  /** The span of `value` an annotation covers. */
  function Span(value: string, a: Annotation): string {
    PySlice(value, a.startIndex, a.endIndex)
  }

  /** The same splice with every link replaced by the span it covers. */
  function Unlinked(value: string, anns: seq<Annotation>): string
  {
    Splice(value, anns, a => Span(value, a))
  }

  /** `end_index` of the last `url_citation` in `anns`, or 0 when there is none. */
  function LastEnd(anns: seq<Annotation>): int
  {
    if anns == [] then 0
    else if anns[|anns| - 1].kind == UrlCitation then anns[|anns| - 1].endIndex
    else LastEnd(anns[..|anns| - 1])
  }

  /**
   * The citations of `anns` are in bounds, each with start <= end, and each
   * starts at or after the end of the previous one.
   */
  predicate WellPlaced(value: string, anns: seq<Annotation>)
  {
    if anns == [] then true
    else
      var a := anns[|anns| - 1];
      && WellPlaced(value, anns[..|anns| - 1])
      && (a.kind == UrlCitation ==> 0 <= LastEnd(anns[..|anns| - 1]) <= a.startIndex <= a.endIndex <= |value|)
  }

  /** The function itself: the loop over the annotations, then the tail of `value`. */
  method PrintResponseWithCitations(response: MessageText) returns (output: string)
    ensures output == Render(response)
  {
    var value := response.value;
    var annotations := response.annotations.GetOr([]);
    var lastIndex: int := 0;
    output := "";
    for i := 0 to |annotations|
      invariant Weave(value, annotations[..i], Link) == Cursor(lastIndex, output)
    {
      var annotation := annotations[i];
      if annotation.kind == UrlCitation {
        output := output + PySlice(value, lastIndex, annotation.startIndex);
        output := output + Link(annotation);
        lastIndex := annotation.endIndex;
      }
      assert annotations[..i + 1][..i] == annotations[..i];
    }
    assert annotations[..|annotations|] == annotations;
    output := output + PySlice(value, lastIndex, |value|);
  }

  lemma {:induction false} WeaveWithoutCitations(value: string, anns: seq<Annotation>, piece: Annotation -> string)
    requires forall a :: a in anns ==> a.kind != UrlCitation
    ensures Weave(value, anns, piece) == Cursor(0, "")
  {
    if anns != [] {
      assert forall a :: a in anns[..|anns| - 1] ==> a in anns;
      WeaveWithoutCitations(value, anns[..|anns| - 1], piece);
    }
  }

  /** With no `url_citation` annotation (or no annotations at all) the reply comes back unchanged. */
  lemma {:induction false} RenderWithoutCitations(m: MessageText)
    requires forall a :: a in m.annotations.GetOr([]) ==> a.kind != UrlCitation
    ensures Render(m) == m.value
  {
    WeaveWithoutCitations(m.value, m.annotations.GetOr([]), Link);
  }

  /** Annotations of any other type contribute nothing, wherever they stand. */
  lemma {:induction false} RenderSkipsOtherKinds(m: MessageText, a: Annotation)
    requires a.kind != UrlCitation
    ensures Render(MessageText(m.value, Some(m.annotations.GetOr([]) + [a]))) == Render(m)
  {
    var anns := m.annotations.GetOr([]);
    assert (anns + [a])[..|anns|] == anns;
  }

  /** One in-range citation replaces exactly its span by its link. */
  lemma {:induction false} RenderOneCitation(value: string, a: Annotation)
    requires a.kind == UrlCitation && 0 <= a.startIndex <= a.endIndex <= |value|
    ensures Render(MessageText(value, Some([a]))) == value[..a.startIndex] + Link(a) + value[a.endIndex..]
  {
    assert [a][..0] == [];
    assert Weave(value, [a], Link) == Cursor(a.endIndex, "" + value[0..a.startIndex] + Link(a));
    assert PySlice(value, a.endIndex, |value|) == value[a.endIndex..];
  }

  lemma {:induction false} WeaveLast(value: string, anns: seq<Annotation>, piece: Annotation -> string)
    ensures Weave(value, anns, piece).last == LastEnd(anns)
  {
    if anns != [] {
      WeaveLast(value, anns[..|anns| - 1], piece);
    }
  }

  lemma {:induction false} UnlinkedPrefix(value: string, anns: seq<Annotation>)
    requires WellPlaced(value, anns)
    ensures 0 <= LastEnd(anns) <= |value|
    ensures Weave(value, anns, a => Span(value, a)).output == value[..LastEnd(anns)]
  {
    if anns != [] {
      var init := anns[..|anns| - 1];
      UnlinkedPrefix(value, init);
      WeaveLast(value, init, a => Span(value, a));
      var a := anns[|anns| - 1];
      if a.kind == UrlCitation {
        var p := LastEnd(init);
        assert value[..p] + value[p..a.startIndex] + value[a.startIndex..a.endIndex] == value[..a.endIndex];
      }
    }
  }

  /**
   * Replacing every link by the span it covers gives back the reply: for
   * well-placed citations the renderer keeps all other text verbatim and in order.
   */
  lemma {:induction false} UnlinkRoundTrip(value: string, anns: seq<Annotation>)
    requires WellPlaced(value, anns)
    ensures Unlinked(value, anns) == value
  {
    UnlinkedPrefix(value, anns);
    WeaveLast(value, anns, a => Span(value, a));
    var p := LastEnd(anns);
    assert value[..p] + value[p..|value|] == value;
  }

  /**
   * Out-of-order citations follow Python slice clamping: `value[5:2]` is
   * empty, and moving `last_index` back to 3 emits "d" a second time. The
   * negative start -2 counts from the end of the reply.
   */
  lemma {:induction false} DecreasingCitationsRepeatText()
    ensures Render(MessageText("abcdef", Some([Annotation(UrlCitation, -2, 5, "x", "u"), Annotation(UrlCitation, 2, 3, "y", "v")])))
            == "abcd[x](u)[y](v)def"
  {
    var a1 := Annotation(UrlCitation, -2, 5, "x", "u");
    var a2 := Annotation(UrlCitation, 2, 3, "y", "v");
    var anns := [a1, a2];
    assert anns[..1] == [a1];
    assert [a1][..0] == [];
    var c0 := Cursor(0, "");
    assert Weave("abcdef", [], Link) == c0;
    assert PySlice("abcdef", 0, -2) == "abcd";
    var c1 := Cursor(5, "abcd[x](u)");
    assert Weave("abcdef", [a1], Link) == c1;
    assert PySlice("abcdef", 5, 2) == "";
    var c2 := Cursor(3, "abcd[x](u)[y](v)");
    assert Weave("abcdef", anns, Link) == c2;
    assert PySlice("abcdef", 3, 6) == "def";
  }
}
