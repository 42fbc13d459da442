/** The Robolectric annotation processor: it hands every annotated element
    of a compilation round to the validator registered for its annotation,
    and on the first round it prepares the binding model and renders the
    generated org.robolectric.Shadows class from it. */
module RoboProcessing {
  import opened Wrappers

  // ----- The binding model, as far as render reads it -----

  /** One entry of the shadow map: the referents of the shadow class and of
      the real class it shadows, and whether the real class is public. */
  datatype ShadowEntry = ShadowEntry(shadow: string, actual: string, actualIsPublic: bool)

  /** One entry of the resetter map: the referent of the shadow class and
      the simple name of its resetter method. */
  datatype ResetterEntry = ResetterEntry(shadow: string, methodName: string)

  /** The prepared binding model, with every type already turned into its
      referent and every map into its entries in iteration order. */
  datatype RoboModel = RoboModel(
    imports: seq<string>,
    shadowTypes: seq<string>,
    shadowMap: seq<ShadowEntry>,
    resetters: seq<ResetterEntry>)

  datatype Error = RuntimeException(cause: string)

  /** What the compiler's Filer does when asked for the source file and its
      writer: it opens them, or fails with an IOException. */
  datatype FileOutcome = Opens | Fails(reason: string)

  // ----- The generated text -----

  /** The text println(s) writes. */
  function Line(s: string): string
  {
    s + "\n"
  }

  /** The fixed lines of the generated class that do not depend on the
      model, each without the line end println adds: the package line
      (printed with its own "\n"), the class comment's text line, the
      @Generated annotation, the class declaration, the opening of
      DEFAULT_SHADOW_CLASSES, the reset() declaration and the three lines of
      the shadowOf_ helper. */
  datatype Boilerplate = Boilerplate(
    packageLine: string,
    comment: string,
    generated: string,
    classDecl: string,
    classListHead: string,
    resetDecl: string,
    suppress: string,
    helperDecl: string,
    helperBody: string)

  /** The fixed lines RoboProcessor prints. */
  const Standard: Boilerplate := Boilerplate(
    "package org.robolectric;\n",
    " * Main Robolectric entry point. Automatically generated by the Robolectric Annotation Processor.",
    "@Generated(\"org.robolectric.annotation.processing.RoboProcessor\")",
    "public class Shadows {",
    "  public static final Class<?>[] DEFAULT_SHADOW_CLASSES = {",
    "  public static void reset() {",
    "  @SuppressWarnings({\"unchecked\"})",
    "  public static <P, R> P shadowOf_(R instance) {",
    "    return (P) ShadowExtractor.extract(instance);")

  const ClassListEnd: string := Line("\n  };\n")
  const ResetEnd: string := Line("  }\n")

  function ImportLine(name: string): string
  {
    Line("import " + name + ";")
  }

  /** One println per import, in iteration order. */
  function ImportLines(imports: seq<string>): seq<string>
  {
    if |imports| == 0 then []
    else ImportLines(imports[..|imports| - 1]) + [ImportLine(imports[|imports| - 1])]
  }

  /** The lines between the imports and the shadow class list: the class
      comment, the @Generated annotation, the class header and the opening
      of DEFAULT_SHADOW_CLASSES. */
  function ClassHeader(b: Boilerplate): seq<string>
  {
    [Line(""), Line("/**"), Line(b.comment), Line(" */"), Line(b.generated), Line(b.classDecl), Line(""),
     b.classListHead]
  }

  function ClassItem(referent: string): string
  {
    "\n    " + referent + ".class"
  }

  /** The items of DEFAULT_SHADOW_CLASSES, with a "," printed before every
      item but the first. */
  function ClassList(types: seq<string>): seq<string>
  {
    if |types| == 0 then []
    else ClassList(types[..|types| - 1])
         + (if |types| == 1 then [] else [","])
         + [ClassItem(types[|types| - 1])]
  }

  /** The shadowOf overload for one shadow-map entry. */
  function AccessorLines(e: ShadowEntry): seq<string>
  {
    [Line("  public static " + e.shadow + " shadowOf(" + e.actual + " actual) {"),
     Line("    return (" + e.shadow + ") shadowOf_(actual);"),
     Line("  }"),
     Line("")]
  }

  /** The overloads for the entries whose real type is public. */
  function Accessors(entries: seq<ShadowEntry>): seq<string>
  {
    if |entries| == 0 then []
    else Accessors(entries[..|entries| - 1])
         + (if entries[|entries| - 1].actualIsPublic then AccessorLines(entries[|entries| - 1]) else [])
  }

  /** The shadow-map entries whose real type is public, in order. */
  function PublicEntries(entries: seq<ShadowEntry>): seq<ShadowEntry>
  {
    if |entries| == 0 then []
    else PublicEntries(entries[..|entries| - 1])
         + (if entries[|entries| - 1].actualIsPublic then [entries[|entries| - 1]] else [])
  }

  function ResetLine(r: ResetterEntry): string
  {
    Line("    " + r.shadow + "." + r.methodName + "();")
  }

  /** The body of reset(): one call per resetter, in iteration order. */
  function ResetLines(resetters: seq<ResetterEntry>): seq<string>
  {
    if |resetters| == 0 then []
    else ResetLines(resetters[..|resetters| - 1]) + [ResetLine(resetters[|resetters| - 1])]
  }

  /** The shadowOf_ helper and the closing brace of the class. */
  function Trailer(b: Boilerplate): seq<string>
  {
    [Line(b.suppress), Line(b.helperDecl), Line(b.helperBody), Line("  }"), Line("}")]
  }

  /** Everything render writes for a model, one element per print or
      println call. */
  function ShadowsSource(m: RoboModel, b: Boilerplate): seq<string>
  {
    [b.packageLine] + ImportLines(m.imports) + ClassHeader(b)
    + ClassList(m.shadowTypes) + [ClassListEnd]
    + Accessors(m.shadowMap)
    + [Line(b.resetDecl)] + ResetLines(m.resetters) + [ResetEnd]
    + Trailer(b)
  }

  // ----- Properties of the generated text -----

  /** One import line per import, in order. */
  lemma {:induction false} ImportLinesLayout(imports: seq<string>)
    ensures |ImportLines(imports)| == |imports|
    ensures forall i :: 0 <= i < |imports| ==> ImportLines(imports)[i] == ImportLine(imports[i])
  {
    if |imports| > 0 {
      ImportLinesLayout(imports[..|imports| - 1]);
    }
  }

  /** The items sit at the even positions, in order, and the commas at the
      odd ones: a comma only between two items. */
  lemma {:induction false} ClassListLayout(types: seq<string>)
    ensures |ClassList(types)| == if |types| == 0 then 0 else 2 * |types| - 1
    ensures forall i :: 0 <= i < |types| ==> ClassList(types)[2 * i] == ClassItem(types[i])
    ensures forall i :: 0 <= i < |types| - 1 ==> ClassList(types)[2 * i + 1] == ","
  {
    if |types| > 1 {
      ClassListLayout(types[..|types| - 1]);
    }
  }

  /** An entry is kept exactly when it is in the map and its real type is
      public. */
  lemma {:induction false} PublicEntriesFilter(entries: seq<ShadowEntry>)
    ensures forall e :: e in PublicEntries(entries) <==> e in entries && e.actualIsPublic
  {
    if |entries| > 0 {
      PublicEntriesFilter(entries[..|entries| - 1]);
      assert entries == entries[..|entries| - 1] + [entries[|entries| - 1]];
    }
  }

  /** Four lines per public entry, in order, and nothing for the others. */
  lemma {:induction false} AccessorsLayout(entries: seq<ShadowEntry>)
    ensures |Accessors(entries)| == 4 * |PublicEntries(entries)|
    ensures forall i :: 0 <= i < |PublicEntries(entries)| ==>
              Accessors(entries)[4 * i..4 * i + 4] == AccessorLines(PublicEntries(entries)[i])
  {
    if |entries| > 0 {
      var init := entries[..|entries| - 1];
      AccessorsLayout(init);
      var last := entries[|entries| - 1];
      if last.actualIsPublic {
        var p := PublicEntries(init);
        forall i | 0 <= i < |PublicEntries(entries)|
          ensures Accessors(entries)[4 * i..4 * i + 4] == AccessorLines(PublicEntries(entries)[i])
        {
          if i < |p| {
            assert Accessors(entries)[4 * i..4 * i + 4] == Accessors(init)[4 * i..4 * i + 4];
          } else {
            assert Accessors(entries)[4 * i..4 * i + 4] == AccessorLines(last);
          }
        }
      }
    }
  }

  /** One reset call per resetter, in order. */
  lemma {:induction false} ResetLinesLayout(resetters: seq<ResetterEntry>)
    ensures |ResetLines(resetters)| == |resetters|
    ensures forall i :: 0 <= i < |resetters| ==> ResetLines(resetters)[i] == ResetLine(resetters[i])
  {
    if |resetters| > 0 {
      ResetLinesLayout(resetters[..|resetters| - 1]);
    }
  }

  /** The output opens with the package line, followed directly by one
      import line per import and then the blank line before the class
      comment. */
  lemma SourceStartsWithImports(m: RoboModel, b: Boilerplate)
    ensures |ShadowsSource(m, b)| > 1 + |m.imports|
    ensures ShadowsSource(m, b)[0] == b.packageLine
    ensures forall i :: 0 <= i < |m.imports| ==> ShadowsSource(m, b)[1 + i] == ImportLine(m.imports[i])
    ensures ShadowsSource(m, b)[1 + |m.imports|] == Line("")
  {
    ImportLinesLayout(m.imports);
    var pre := [b.packageLine] + ImportLines(m.imports);
    var rest := ClassHeader(b) + ClassList(m.shadowTypes) + [ClassListEnd] + Accessors(m.shadowMap)
                + [Line(b.resetDecl)] + ResetLines(m.resetters) + [ResetEnd] + Trailer(b);
    assert ShadowsSource(m, b) == pre + rest;
    assert rest[0] == Line("");
  }

  /** The reset() body is exactly the resetter calls: its declaration, then
      one line per resetter, then the closing brace, with only the helper
      after it. */
  lemma ResetBodyIsResetters(m: RoboModel, b: Boilerplate)
    ensures var s := ShadowsSource(m, b);
            var k := |s| - |Trailer(b)| - |m.resetters| - 2;
            0 <= k && s[k] == Line(b.resetDecl)
            && (forall i :: 0 <= i < |m.resetters| ==> s[k + 1 + i] == ResetLine(m.resetters[i]))
            && s[k + 1 + |m.resetters|] == ResetEnd
  {
    ResetLinesLayout(m.resetters);
    var head := [b.packageLine] + ImportLines(m.imports) + ClassHeader(b)
                + ClassList(m.shadowTypes) + [ClassListEnd] + Accessors(m.shadowMap);
    var body := [Line(b.resetDecl)] + ResetLines(m.resetters) + [ResetEnd];
    assert ShadowsSource(m, b) == head + body + Trailer(b);
  }

  /** The shadow class list sits between the class header and its closing
      brace, and the shadowOf overloads follow it directly. */
  lemma ClassListFollowsHeader(m: RoboModel, b: Boilerplate)
    ensures var s := ShadowsSource(m, b);
            var k := 1 + |m.imports| + 8;
            var n := |ClassList(m.shadowTypes)|;
            k + n + 1 + |Accessors(m.shadowMap)| <= |s|
            && s[k - 1] == b.classListHead
            && s[k..k + n] == ClassList(m.shadowTypes)
            && s[k + n] == ClassListEnd
            && s[k + n + 1..k + n + 1 + |Accessors(m.shadowMap)|] == Accessors(m.shadowMap)
  {
    ImportLinesLayout(m.imports);
    var head := [b.packageLine] + ImportLines(m.imports) + ClassHeader(b);
    var mid := ClassList(m.shadowTypes) + [ClassListEnd] + Accessors(m.shadowMap);
    var tail := [Line(b.resetDecl)] + ResetLines(m.resetters) + [ResetEnd] + Trailer(b);
    assert ShadowsSource(m, b) == head + mid + tail;
  }

  // ----- The writer -----

  /** java.io.PrintWriter over the generated file, as the sequence of pieces
      written to it. Writes after close are dropped. */
  class PrintWriter {
    var chunks: seq<string>
    var closed: bool

    constructor ()
      ensures chunks == [] && !closed
    {
      chunks, closed := [], false;
    }

    method Print(s: string)
      modifies this
      ensures chunks == old(chunks) + (if old(closed) then [] else [s]) && closed == old(closed)
    {
      if !closed {
        chunks := chunks + [s];
      }
    }

    method Println(s: string)
      modifies this
      ensures chunks == old(chunks) + (if old(closed) then [] else [Line(s)]) && closed == old(closed)
    {
      if !closed {
        chunks := chunks + [Line(s)];
      }
    }

    method Close()
      modifies this
      ensures closed && chunks == old(chunks)
    {
      closed := true;
    }
  }

  method WriteHeader(writer: PrintWriter, imports: seq<string>, b: Boilerplate)
    requires !writer.closed
    modifies writer
    ensures writer.chunks == old(writer.chunks) + [b.packageLine] + ImportLines(imports) + ClassHeader(b)
    ensures !writer.closed
  {
    writer.Print(b.packageLine);
    ghost var start := writer.chunks;
    for i := 0 to |imports|
      invariant writer.chunks == start + ImportLines(imports[..i]) && !writer.closed
    {
      assert imports[..i + 1][..i] == imports[..i];
      writer.Println("import " + imports[i] + ";");
    }
    assert imports[..|imports|] == imports;
    writer.Println("");
    writer.Println("/**");
    writer.Println(b.comment);
    writer.Println(" */");
    writer.Println(b.generated);
    writer.Println(b.classDecl);
    writer.Println("");
    writer.Print(b.classListHead);
  }

  method WriteClassList(writer: PrintWriter, types: seq<string>)
    requires !writer.closed
    modifies writer
    ensures writer.chunks == old(writer.chunks) + ClassList(types) + [ClassListEnd] && !writer.closed
  {
    ghost var start := writer.chunks;
    var firstIteration := true;
    for i := 0 to |types|
      invariant writer.chunks == start + ClassList(types[..i]) && !writer.closed
      invariant firstIteration <==> i == 0
    {
      assert types[..i + 1][..i] == types[..i];
      if firstIteration {
        firstIteration := false;
      } else {
        writer.Print(",");
      }
      writer.Print("\n    " + types[i] + ".class");
    }
    assert types[..|types|] == types;
    writer.Println("\n  };\n");
  }

  method WriteAccessors(writer: PrintWriter, entries: seq<ShadowEntry>)
    requires !writer.closed
    modifies writer
    ensures writer.chunks == old(writer.chunks) + Accessors(entries) && !writer.closed
  {
    ghost var start := writer.chunks;
    for i := 0 to |entries|
      invariant writer.chunks == start + Accessors(entries[..i]) && !writer.closed
    {
      assert entries[..i + 1][..i] == entries[..i];
      var entry := entries[i];
      if !entry.actualIsPublic {
        continue;
      }
      var actual := entry.actual;
      var shadow := entry.shadow;
      writer.Println("  public static " + shadow + " shadowOf(" + actual + " actual) {");
      writer.Println("    return (" + shadow + ") shadowOf_(actual);");
      writer.Println("  }");
      writer.Println("");
    }
    assert entries[..|entries|] == entries;
  }

  method WriteReset(writer: PrintWriter, resetters: seq<ResetterEntry>, b: Boilerplate)
    requires !writer.closed
    modifies writer
    ensures writer.chunks == old(writer.chunks) + [Line(b.resetDecl)] + ResetLines(resetters) + [ResetEnd]
    ensures !writer.closed
  {
    writer.Println(b.resetDecl);
    ghost var start := writer.chunks;
    for i := 0 to |resetters|
      invariant writer.chunks == start + ResetLines(resetters[..i]) && !writer.closed
    {
      assert resetters[..i + 1][..i] == resetters[..i];
      writer.Println("    " + resetters[i].shadow + "." + resetters[i].methodName + "();");
    }
    assert resetters[..|resetters|] == resetters;
    writer.Println("  }\n");
  }

  method WriteTrailer(writer: PrintWriter, b: Boilerplate)
    requires !writer.closed
    modifies writer
    ensures writer.chunks == old(writer.chunks) + Trailer(b) && !writer.closed
  {
    writer.Println(b.suppress);
    writer.Println(b.helperDecl);
    writer.Println(b.helperBody);
    writer.Println("  }");
    writer.Println("}");
  }

  /** render: creates the source file and writes the Shadows class for the
      model; the writer is closed once the writing is done. A failure to
      create or open the file becomes a RuntimeException. */
  method Render(m: RoboModel, b: Boilerplate, file: FileOutcome) returns (r: Result<PrintWriter, Error>)
    ensures r.Err? <==> file.Fails?
    ensures file.Fails? ==> r == Err(RuntimeException(file.reason))
    ensures r.Ok? ==> fresh(r.value) && r.value.closed && r.value.chunks == ShadowsSource(m, b)
  {
    if file.Fails? {
      return Err(RuntimeException(file.reason));
    }
    var writer := new PrintWriter();
    WriteHeader(writer, m.imports, b);
    ghost var c1 := writer.chunks;
    assert c1 == [b.packageLine] + ImportLines(m.imports) + ClassHeader(b);
    WriteClassList(writer, m.shadowTypes);
    ghost var c2 := writer.chunks;
    assert c2 == c1 + ClassList(m.shadowTypes) + [ClassListEnd];
    WriteAccessors(writer, m.shadowMap);
    ghost var c3 := writer.chunks;
    assert c3 == c2 + Accessors(m.shadowMap);
    WriteReset(writer, m.resetters, b);
    ghost var c4 := writer.chunks;
    assert c4 == c3 + [Line(b.resetDecl)] + ResetLines(m.resetters) + [ResetEnd];
    WriteTrailer(writer, b);
    writer.Close();
    assert writer.chunks == c4 + Trailer(b);
    r := Ok(writer);
  }

  // ----- Validator dispatch -----

  /** An element of a round, with the element that encloses it. */
  datatype Element = Element(name: string, enclosing: string)

  /** What the processor does, in order: messages to the compiler, validator
      visits, model preparation and the rendered file. */
  datatype Event =
    | Note(message: string)
    | Visit(annotation: string, element: string, enclosing: string)
    | Prepare
    | Rendered(text: seq<string>)

  const InitNote: string := "Initialising RAP"
  const RenderNote: string := "Generating output file org.robolectric.Shadows"

  /** The annotation types the four validators are registered for. */
  const Validators: set<string> := {
    "org.robolectric.annotation.Implementation",
    "org.robolectric.annotation.Implements",
    "org.robolectric.annotation.RealObject",
    "org.robolectric.annotation.Resetter"}

  /** roundEnv.getElementsAnnotatedWith(annotation), in iteration order. */
  function ElementsOf(round: map<string, seq<Element>>, annotation: string): seq<Element>
  {
    if annotation in round then round[annotation] else []
  }

  /** The visits for the elements of one annotation. */
  function Visits(annotation: string, elements: seq<Element>): seq<Event>
  {
    if |elements| == 0 then []
    else Visits(annotation, elements[..|elements| - 1])
         + [Visit(annotation, elements[|elements| - 1].name, elements[|elements| - 1].enclosing)]
  }

  /** The visits of one round: for each annotation in turn, a visit per
      annotated element when a validator is registered for it. */
  function Dispatch(annotations: seq<string>, round: map<string, seq<Element>>, registered: set<string>)
    : seq<Event>
  {
    if |annotations| == 0 then []
    else
      var a := annotations[|annotations| - 1];
      Dispatch(annotations[..|annotations| - 1], round, registered)
      + (if a in registered then Visits(a, ElementsOf(round, a)) else [])
  }

  predicate Distinct<T(==)>(s: seq<T>)
  {
    forall i, j :: 0 <= i < j < |s| ==> s[i] != s[j]
  }

  /** The events of the generation step of a round: prepare, the note, and
      the rendered file when the file could be opened. */
  function Generation(m: RoboModel, b: Boilerplate, file: FileOutcome): seq<Event>
  {
    [Prepare, Note(RenderNote)] + (if file.Opens? then [Rendered(ShadowsSource(m, b))] else [])
  }

  /** The number of rendered files in a trace. */
  function Renders(trace: seq<Event>): nat
  {
    if |trace| == 0 then 0
    else Renders(trace[..|trace| - 1]) + (if trace[|trace| - 1].Rendered? then 1 else 0)
  }

  /** Every rendered file comes right after a preparation and its note. */
  predicate RendersFollowPrepare(trace: seq<Event>)
  {
    forall i :: 0 <= i < |trace| && trace[i].Rendered? ==> 2 <= i && trace[i - 2] == Prepare
  }

  lemma {:induction false} VisitsLayout(annotation: string, elements: seq<Element>)
    ensures |Visits(annotation, elements)| == |elements|
    ensures forall i :: 0 <= i < |elements| ==>
              Visits(annotation, elements)[i] == Visit(annotation, elements[i].name, elements[i].enclosing)
  {
    if |elements| > 0 {
      VisitsLayout(annotation, elements[..|elements| - 1]);
    }
  }

  /** A round produces nothing but visits, each by a registered validator,
      for an annotation of the round and an element annotated with it. */
  lemma {:induction false} DispatchOnlyVisits(annotations: seq<string>, round: map<string, seq<Element>>,
                                              registered: set<string>)
    ensures forall ev :: ev in Dispatch(annotations, round, registered) ==>
              ev.Visit? && ev.annotation in registered && ev.annotation in annotations
              && Element(ev.element, ev.enclosing) in ElementsOf(round, ev.annotation)
  {
    if |annotations| > 0 {
      var init := annotations[..|annotations| - 1];
      var a := annotations[|annotations| - 1];
      DispatchOnlyVisits(init, round, registered);
      VisitsLayout(a, ElementsOf(round, a));
      assert annotations == init + [a];
    }
  }

  /** Every element of every registered annotation of the round is visited,
      paired with its enclosing element. */
  lemma {:induction false} DispatchVisitsEveryElement(annotations: seq<string>, round: map<string, seq<Element>>,
                                                      registered: set<string>)
    ensures forall a, e :: a in annotations && a in registered && e in ElementsOf(round, a) ==>
              Visit(a, e.name, e.enclosing) in Dispatch(annotations, round, registered)
  {
    if |annotations| > 0 {
      var init := annotations[..|annotations| - 1];
      var last := annotations[|annotations| - 1];
      DispatchVisitsEveryElement(init, round, registered);
      VisitsLayout(last, ElementsOf(round, last));
      forall a, e | a in annotations && a in registered && e in ElementsOf(round, a)
        ensures Visit(a, e.name, e.enclosing) in Dispatch(annotations, round, registered)
      {
        if a == last {
          var k :| 0 <= k < |ElementsOf(round, a)| && ElementsOf(round, a)[k] == e;
          assert Visits(a, ElementsOf(round, a))[k] == Visit(a, e.name, e.enclosing);
        } else {
          assert annotations == init + [last];
          assert a in init;
        }
      }
    }
  }

  /** In a sequence without repetitions the last element occurs nowhere
      before it, and the rest has no repetitions either. */
  lemma LastIsNew<T>(s: seq<T>)
    requires Distinct(s) && |s| > 0
    ensures s[|s| - 1] !in s[..|s| - 1]
    ensures Distinct(s[..|s| - 1])
  {
    var init := s[..|s| - 1];
    forall k | 0 <= k < |init|
      ensures init[k] != s[|s| - 1]
    {
      assert init[k] == s[k];
    }
  }

  lemma {:induction false} VisitsCountOnce(annotation: string, elements: seq<Element>, e: Element)
    requires Distinct(elements)
    ensures multiset(Visits(annotation, elements))[Visit(annotation, e.name, e.enclosing)]
            == if e in elements then 1 else 0
  {
    if |elements| > 0 {
      var init := elements[..|elements| - 1];
      var last := elements[|elements| - 1];
      LastIsNew(elements);
      VisitsCountOnce(annotation, init, e);
      assert elements == init + [last];
    }
  }

  /** Without a registered annotation of the round there is no visit for it. */
  lemma NoVisitsFor(annotations: seq<string>, round: map<string, seq<Element>>, registered: set<string>,
                    a: string, element: string, enclosing: string)
    requires a !in annotations || a !in registered
    ensures multiset(Dispatch(annotations, round, registered))[Visit(a, element, enclosing)] == 0
  {
    DispatchOnlyVisits(annotations, round, registered);
  }

  /** With distinct annotations and distinct elements per annotation, as the
      sets a round hands over are, every element of a registered annotation
      is visited exactly once. */
  lemma {:induction false} DispatchVisitsOnce(annotations: seq<string>, round: map<string, seq<Element>>,
                                              registered: set<string>, a: string, e: Element)
    requires Distinct(annotations) && Distinct(ElementsOf(round, a))
    requires a in annotations && a in registered && e in ElementsOf(round, a)
    ensures multiset(Dispatch(annotations, round, registered))[Visit(a, e.name, e.enclosing)] == 1
  {
    var init := annotations[..|annotations| - 1];
    var last := annotations[|annotations| - 1];
    assert annotations == init + [last];
    LastIsNew(annotations);
    VisitsCountOnce(a, ElementsOf(round, a), e);
    if last == a {
      NoVisitsFor(init, round, registered, a, e.name, e.enclosing);
    } else {
      DispatchVisitsOnce(init, round, registered, a, e);
      if last in registered {
        VisitsLayout(last, ElementsOf(round, last));
        assert Visit(a, e.name, e.enclosing) !in Visits(last, ElementsOf(round, last));
      }
    }
  }

  lemma {:induction false} RendersAppend(s: seq<Event>, t: seq<Event>)
    ensures Renders(s + t) == Renders(s) + Renders(t)
  {
    if |t| == 0 {
      assert s + t == s;
    } else {
      RendersAppend(s, t[..|t| - 1]);
      assert (s + t)[..|s + t| - 1] == s + t[..|t| - 1];
      assert (s + t)[|s + t| - 1] == t[|t| - 1];
    }
  }

  lemma {:induction false} NoRendersAmongVisits(trace: seq<Event>)
    requires forall ev :: ev in trace ==> ev.Visit?
    ensures Renders(trace) == 0
  {
    if |trace| > 0 {
      assert trace[|trace| - 1] in trace;
      assert forall ev :: ev in trace[..|trace| - 1] ==> ev in trace;
      NoRendersAmongVisits(trace[..|trace| - 1]);
    }
  }

  /** A round of visits renders nothing. */
  lemma NoRendersInDispatch(annotations: seq<string>, round: map<string, seq<Element>>, registered: set<string>)
    ensures Renders(Dispatch(annotations, round, registered)) == 0
  {
    DispatchOnlyVisits(annotations, round, registered);
    NoRendersAmongVisits(Dispatch(annotations, round, registered));
  }

  /** The generation step renders exactly when the file opens. */
  lemma GenerationRenders(m: RoboModel, b: Boilerplate, file: FileOutcome)
    ensures Renders(Generation(m, b, file)) == if file.Opens? then 1 else 0
    ensures forall i :: 0 <= i < |Generation(m, b, file)| && Generation(m, b, file)[i].Rendered? ==>
              i == 2 && Generation(m, b, file)[0] == Prepare
  {
    var g := Generation(m, b, file);
    assert Renders([Prepare, Note(RenderNote)]) == 0 by {
      assert [Prepare, Note(RenderNote)][..1] == [Prepare];
      assert [Prepare][..0] == [];
    }
    if file.Opens? {
      RendersAppend([Prepare, Note(RenderNote)], [Rendered(ShadowsSource(m, b))]);
      assert [Rendered(ShadowsSource(m, b))][..0] == [];
    } else {
      assert g == [Prepare, Note(RenderNote)];
    }
  }

  /** Joining two traces in which every rendered file follows a
      preparation keeps that property. */
  lemma FollowPrepareAppend(s: seq<Event>, u: seq<Event>)
    requires RendersFollowPrepare(s) && RendersFollowPrepare(u)
    ensures RendersFollowPrepare(s + u)
  {
    var t := s + u;
    forall i | 0 <= i < |t| && t[i].Rendered?
      ensures 2 <= i && t[i - 2] == Prepare
    {
      if i < |s| {
        assert t[i] == s[i];
        assert t[i - 2] == s[i - 2];
      } else {
        assert t[i] == u[i - |s|];
        assert t[i - 2] == u[i - |s| - 2];
      }
    }
  }

  /** A round of visits has no rendered file out of place. */
  lemma DispatchFollowsPrepare(annotations: seq<string>, round: map<string, seq<Element>>, registered: set<string>)
    ensures RendersFollowPrepare(Dispatch(annotations, round, registered))
  {
    var d := Dispatch(annotations, round, registered);
    DispatchOnlyVisits(annotations, round, registered);
    forall i | 0 <= i < |d|
      ensures d[i].Visit?
    {
      assert d[i] in d;
    }
  }

  /** A round keeps the processor's record straight: a trace with one
      rendered file exactly when the processor has generated, each after a
      preparation, still has that shape after the round's visits and, when
      the processor has not generated yet, its generation step. */
  lemma RoundKeepsGenerationOnce(trace: seq<Event>, annotations: seq<string>, round: map<string, seq<Element>>,
                                 registered: set<string>, m: RoboModel, b: Boilerplate, file: FileOutcome,
                                 generated: bool)
    requires Renders(trace) == (if generated then 1 else 0) && RendersFollowPrepare(trace)
    ensures var t := trace + Dispatch(annotations, round, registered)
                     + (if generated then [] else Generation(m, b, file));
            Renders(t) == (if generated || file.Opens? then 1 else 0) && RendersFollowPrepare(t)
  {
    var d := Dispatch(annotations, round, registered);
    var g := if generated then [] else Generation(m, b, file);
    RendersAppend(trace, d);
    RendersAppend(trace + d, g);
    NoRendersInDispatch(annotations, round, registered);
    GenerationRenders(m, b, file);
    if generated {
      assert g == [];
      assert Renders(g) == 0;
    }
    DispatchFollowsPrepare(annotations, round, registered);
    FollowPrepareAppend(trace, d);
    FollowPrepareAppend(trace + d, g);
  }

  // ----- The processor -----

  class RoboProcessor {
    /** The annotation types elementValidators has a validator for. */
    var validators: set<string>
    var generated: bool
    var trace: seq<Event>
    /** The fixed text render prints. */
    var text: Boilerplate

    /** At most one file was rendered, exactly when generated is set, and
        it followed a preparation. */
    predicate Valid()
      reads this
    {
      Renders(trace) == (if generated then 1 else 0) && RendersFollowPrepare(trace)
    }

    /** init: registers the four validators and notes the start. */
    constructor Init()
      ensures validators == Validators && !generated && trace == [Note(InitNote)] && text == Standard
      ensures Valid()
    {
      validators := Validators;
      text := Standard;
      generated := false;
      trace := [Note(InitNote)];
      assert [Note(InitNote)][..0] == [];
    }

    /** The inner loop of process: every element annotated with
        `annotation` is handed to its validator with its enclosing element. */
    method VisitAll(annotation: string, elements: seq<Element>)
      modifies this
      ensures trace == old(trace) + Visits(annotation, elements)
      ensures generated == old(generated) && validators == old(validators) && text == old(text)
    {
      ghost var before := trace;
      for j := 0 to |elements|
        invariant trace == before + Visits(annotation, elements[..j])
        invariant generated == old(generated) && validators == old(validators) && text == old(text)
      {
        assert elements[..j + 1][..j] == elements[..j];
        trace := trace + [Visit(annotation, elements[j].name, elements[j].enclosing)];
      }
      assert elements[..|elements|] == elements;
    }

    /** The outer loop of process, over the round's annotations: those with
        a registered validator have their elements visited. */
    method DispatchRound(annotations: seq<string>, round: map<string, seq<Element>>)
      modifies this
      ensures trace == old(trace) + Dispatch(annotations, round, validators)
      ensures generated == old(generated) && validators == old(validators) && text == old(text)
    {
      ghost var start := trace;
      for i := 0 to |annotations|
        invariant trace == start + Dispatch(annotations[..i], round, validators)
        invariant generated == old(generated) && validators == old(validators) && text == old(text)
      {
        assert annotations[..i + 1][..i] == annotations[..i];
        var annotation := annotations[i];
        if annotation in validators {
          VisitAll(annotation, ElementsOf(round, annotation));
        }
      }
      assert annotations[..|annotations|] == annotations;
    }

    /** process: dispatches the round to the validators, then prepares the
        model and renders the file unless that already happened, and answers
        true. `prepared` is the binding model as model.prepare() leaves it.
        A file that cannot be opened ends the round with the
        RuntimeException, and generated stays unset. */
    method Process(annotations: seq<string>, round: map<string, seq<Element>>, prepared: RoboModel,
                   file: FileOutcome)
      returns (r: Result<bool, Error>)
      requires Valid()
      modifies this
      ensures Valid() && validators == old(validators) && text == old(text)
      ensures r == (if !old(generated) && file.Fails? then Err(RuntimeException(file.reason)) else Ok(true))
      ensures generated == (old(generated) || file.Opens?)
      ensures trace == old(trace) + Dispatch(annotations, round, validators)
                       + (if old(generated) then [] else Generation(prepared, text, file))
    {
      RoundKeepsGenerationOnce(trace, annotations, round, validators, prepared, text, file, generated);
      DispatchRound(annotations, round);
      ghost var dispatched := trace;
      if generated {
        assert trace == dispatched + [];
      } else {
        trace := trace + [Prepare, Note(RenderNote)];
        var out := Render(prepared, text, file);
        if out.Err? {
          assert trace == dispatched + Generation(prepared, text, file);
          return Err(out.error);
        }
        trace := trace + [Rendered(out.value.chunks)];
        assert trace == dispatched + Generation(prepared, text, file);
        generated := true;
      }
      r := Ok(true);
    }
  }
}
