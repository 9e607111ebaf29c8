/**
 The fixed data of the report editor: the catalogue of report names offered by
 the report drop-down, and the one report template the editor knows.
 */
module Catalogue {

  /** The report names the drop-down offers, in display order. */
  const Reports: seq<string> := [
    "CHEST X RAY (PA VIEW)",
    "X-RAY HEEL (AXIAL LAT VIEW)",
    "X-RAY ABDOMEN (SUPINE VIEW)",
    "X-RAY ABDOMEN STANDING VIEW",
    "X-RAY ANKLE JOINT WITH HEEL (LAT VIEW)",
    "X-RAY HEEL"
  ]

  /** The one report name that comes with a template. */
  const ChestXRay: string := "CHEST X RAY (PA VIEW)"

  /** The text loaded for ChestXRay, character for character: it opens with a
      newline, indents every line, and ends with the six spaces that precede
      the closing delimiter of the literal. It is written here as its four
      parts: the title, the observation section, the impression section and
      the advice line. */
  const ChestXRayTemplate: string := TitleBlock + ObservationBlock + ImpressionBlock + AdviceBlock

  const TitleBlock: string :=
    "\n" +
    "      CHEST X RAY (PA VIEW)\n" +
    "\n"

  const ObservationBlock: string :=
    "     OBSERVATION:\n" +
    "        Bronchovascular markings are prominent.\n" +
    "        Bilateral hila are prominent.\n" +
    "        Both costo-phrenic angles appear clear.\n" +
    "        Cardiothoracic ratio is normal.\n" +
    "        Both domes of diaphragm appear normal.\n" +
    "        Thoracic soft tissue and skeletal system appear unremarkable.\n" +
    "\n"

  const ImpressionBlock: string :=
    "     IMPRESSION:\n" +
    "        Bronchovascular markings are prominent.\n" +
    "        Bilateral hila are prominent.\n" +
    "\n"

  const AdviceBlock: string :=
    "     ADVICE: Please Correlate Clinically\n" +
    "      "

  /** `pattern` occurs in `s` starting at position `i`. */
  predicate OccursAt(s: string, pattern: string, i: nat) {
    i <= |s| && pattern <= s[i..]
  }

  /** An occurrence in `a` is an occurrence at the same place in `a + b`. */
  lemma OccursInLeft(a: string, b: string, pattern: string, i: nat)
    requires OccursAt(a, pattern, i)
    ensures OccursAt(a + b, pattern, i)
  {
  }

  /** An occurrence in `b` is an occurrence shifted by `|a|` in `a + b`. */
  lemma OccursInRight(a: string, b: string, pattern: string, i: nat)
    requires OccursAt(b, pattern, i)
    ensures OccursAt(a + b, pattern, |a| + i)
  {
  }

  /** The catalogue holds six distinct, non-empty names, the first of which is
      the one with a template; so no other entry loads it. */
  lemma CatalogueWellFormed()
    ensures |Reports| == 6 && Reports[0] == ChestXRay
    ensures forall i :: 0 <= i < |Reports| ==> Reports[i] != ""
    ensures forall i, j :: 0 <= i < j < |Reports| ==> Reports[i] != Reports[j]
    ensures forall i :: 1 <= i < |Reports| ==> Reports[i] != ChestXRay
  {
  }

  /** Where the title and the three section headings of the template start. */
  const TitlePosition: nat := 7
  const ObservationPosition: nat := |TitleBlock| + 5
  const ImpressionPosition: nat := |TitleBlock + ObservationBlock| + 5
  const AdvicePosition: nat := |TitleBlock + ObservationBlock + ImpressionBlock| + 5

  /** Each of the four headings occurs at its position. */
  lemma TitleOccurs()
    ensures OccursAt(ChestXRayTemplate, ChestXRay, TitlePosition)
  {
  }

  lemma ObservationOccurs()
    ensures OccursAt(ChestXRayTemplate, "OBSERVATION:", ObservationPosition)
  {
  }

  lemma ImpressionOccurs()
    ensures OccursAt(ChestXRayTemplate, "IMPRESSION:", ImpressionPosition)
  {
  }

  lemma AdviceOccurs()
    ensures OccursAt(ChestXRayTemplate, "ADVICE:", AdvicePosition)
  {
    var adviceLine := "     ADVICE: Please Correlate Clinically\n";
    assert OccursAt(adviceLine, "ADVICE:", 5);
    OccursInLeft(adviceLine, "      ", "ADVICE:", 5);
    OccursInRight(TitleBlock + ObservationBlock + ImpressionBlock, AdviceBlock, "ADVICE:", 5);
  }

  /** The template is a chest X-ray report with its sections in the order
      title, OBSERVATION, IMPRESSION, ADVICE. */
  lemma TemplateSectionsInOrder()
    ensures exists title: nat, observation: nat, impression: nat, advice: nat ::
      && title < observation < impression < advice
      && OccursAt(ChestXRayTemplate, ChestXRay, title)
      && OccursAt(ChestXRayTemplate, "OBSERVATION:", observation)
      && OccursAt(ChestXRayTemplate, "IMPRESSION:", impression)
      && OccursAt(ChestXRayTemplate, "ADVICE:", advice)
  {
    TitleOccurs();
    ObservationOccurs();
    ImpressionOccurs();
    AdviceOccurs();
  }
}
