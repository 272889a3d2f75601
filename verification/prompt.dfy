/** The analysis prompt: a fixed instruction template into which the
    technical-data text and the fundamental-data text are inserted verbatim.
    The completion request that sends it is not part of this model. */
module Prompt {
  import opened Templates

  /** The language directive and the task sentence: the first two literals
      of the template, adjacent with no separator between them. */
  const Directive: string := "Answer in bahasa indonesia"
  const Task: string := "Analyze the following stock data using both technical and fundamental analysis:\n"

  /** Text before the technical data. */
  const Opening: string := Directive + Task + "Technical Data (Open and Close prices):\n"

  /** Text between the technical and the fundamental data. */
  const Between: string := "\n\n" + "Fundamental Data:\n"

  /** Text after the fundamental data. */
  const Closing: string :=
    "\n\n"
    + "Provide insights on:\n"
    + "1. Overall trend\n"
    + "2. Key technical indicators\n"
    + "3. Important fundamental metrics\n"
    + "4. Potential strengths and weaknesses\n"
    + "5. Any notable patterns or anomalies"

  /** The template: technical-data slot, then fundamental-data slot. */
  const AnalysisTemplate: seq<Piece> := Interleave([Opening, Between, Closing])

  /** Where the two inserted texts sit in a five-part concatenation. */
  lemma Layout(o: string, t: string, b: string, f: string, c: string)
    ensures (o + (t + (b + (f + c))))[..|o|] == o
    ensures (o + (t + (b + (f + c))))[|o|..|o| + |t|] == t
    ensures (o + (t + (b + (f + c))))[|o| + |t| + |b|..][..|f|] == f
  {
  }

  /** Filling the analysis template, spelled out. */
  lemma FillAnalysis(technical: string, fundamental: string)
    ensures SlotCount(AnalysisTemplate) == 2
    ensures Fill(AnalysisTemplate, [technical, fundamental])
            == Opening + (technical + (Between + (fundamental + Closing)))
  {
    FillInterleave([Opening, Between, Closing], [technical, fundamental]);
    WeaveTwo([Opening, Between, Closing], [technical, fundamental]);
  }

  /** Builds the prompt from the technical and the fundamental text: both
      appear verbatim, technical first, at fixed offsets. */
  function BuildPrompt(technical: string, fundamental: string): (r: string)
    ensures r == Opening + (technical + (Between + (fundamental + Closing)))
    ensures r[|Opening|..|Opening| + |technical|] == technical
    ensures r[|Opening| + |technical| + |Between|..][..|fundamental|] == fundamental
  {
    FillAnalysis(technical, fundamental);
    Layout(Opening, technical, Between, fundamental, Closing);
    Fill(AnalysisTemplate, [technical, fundamental])
  }

  /** The prompt opens with the directive immediately followed by the task
      sentence. */
  lemma DirectiveRunsIntoTask(technical: string, fundamental: string)
    ensures Directive + Task <= BuildPrompt(technical, fundamental)
  {
  }

  /** For a fixed technical text, the prompt determines the fundamental text. */
  lemma PromptDeterminesFundamental(technical: string, f1: string, f2: string)
    requires BuildPrompt(technical, f1) == BuildPrompt(technical, f2)
    ensures f1 == f2
  {
  }

  /** For a fixed fundamental text, the prompt determines the technical text. */
  lemma PromptDeterminesTechnical(t1: string, t2: string, fundamental: string)
    requires BuildPrompt(t1, fundamental) == BuildPrompt(t2, fundamental)
    ensures t1 == t2
  {
  }
}
