/** The fixed instructions that ask the model to turn a meeting summary into script chunks. */
module Prompts {
  import opened Text

  const TargetChunkSeconds: nat := 8

  const JsonLine: string := "Return " + "JSON" + " only. No markdown and no prose outside JSON."
  const DurationLine: string := "      " + DurationField
  const DurationField: string := "\"durationSeconds\": " + NatToString(TargetChunkSeconds) + ","
  const ChunkLengthLine: string := "- Each chunk is approximately " + "8-second" + " narration."
  const VisualPromptLine: string := "- Every " + "visual" + "Prompt must include presenter behavior and text " + "overlay" + " context."
  const SummaryHeading: string := "Meeting summary:"

  /** Every line of the script prompt before the summary; the last is "Meeting summary:". */
  const ScriptPromptLines: seq<string> := [
    "You convert meeting summaries into short video scripts for an AI presenter.",
    JsonLine,
    "",
    "Output schema:",
    "{",
    "  \"chunks\": [",
    "    {",
    "      \"index\": 1,",
    DurationLine,
    "      \"narration\": \"spoken line for the presenter\",",
    "      \"visualPrompt\": \"self-contained Veo scene with presenter gesture, background, and camera framing\",",
    "      \"textOverlay\": \"short on-screen text\"",
    "    }",
    "  ]",
    "}",
    "",
    "Requirements:",
    ChunkLengthLine,
    "- Keep each chunk self-contained. Avoid transitions between chunks.",
    "- Focus on key decisions, action items, and outcomes.",
    VisualPromptLine,
    "",
    SummaryHeading
  ]

  /** `buildScriptPrompt`: the fixed lines and the trimmed summary, joined by newlines. */
  function BuildScriptPrompt(summary: string): (r: string)
    ensures r == Join(ScriptPromptLines, "\n") + "\n" + Trim(summary)
  {
    JoinAppend(ScriptPromptLines, Trim(summary), "\n");
    Join(ScriptPromptLines + [Trim(summary)], "\n")
  }

  /** The prompt ends with the "Meeting summary:" line followed by the trimmed summary. */
  lemma PromptEndsWithSummary(summary: string)
    ensures EndsWith(BuildScriptPrompt(summary), "Meeting summary:\n" + Trim(summary))
  {
    var lines := ScriptPromptLines;
    assert lines[|lines| - 1] == SummaryHeading;
    JoinEndsWithLast(lines, "\n", Trim(summary));
  }

  /** Everything before the summary is the same for every input. */
  lemma PromptPrefixIndependentOfSummary(a: string, b: string)
    ensures var fixed := Join(ScriptPromptLines, "\n") + "\n";
      StartsWith(BuildScriptPrompt(a), fixed) && StartsWith(BuildScriptPrompt(b), fixed)
  {
    var fixed := Join(ScriptPromptLines, "\n") + "\n";
    assert BuildScriptPrompt(a) == fixed + Trim(a);
    assert BuildScriptPrompt(b) == fixed + Trim(b);
    assert (fixed + Trim(a))[..|fixed|] == fixed;
    assert (fixed + Trim(b))[..|fixed|] == fixed;
  }

  /** A fixed line of the prompt occurs in the prompt whatever the summary. */
  lemma PromptContainsLine(summary: string, k: nat)
    requires k < |ScriptPromptLines|
    ensures Contains(BuildScriptPrompt(summary), ScriptPromptLines[k])
  {
    var lines := ScriptPromptLines;
    var tail := "\n" + Trim(summary);
    JoinPartInExtension(lines, "\n", k, tail);
    assert Join(lines, "\n") + "\n" + Trim(summary) == Join(lines, "\n") + tail;
  }

  /** A piece of line `k` of the fixed lines occurs in the prompt. */
  lemma PromptContainsPiece(summary: string, k: nat, before: string, piece: string, after: string)
    requires k < |ScriptPromptLines| && ScriptPromptLines[k] == before + piece + after
    ensures Contains(BuildScriptPrompt(summary), piece)
  {
    ContainsBetween(before, piece, after);
    PromptContainsLine(summary, k);
    ContainsTransitive(BuildScriptPrompt(summary), ScriptPromptLines[k], piece);
  }

  /** The schema example carries the 8-second target chunk duration. */
  lemma PromptCarriesTargetDuration(summary: string)
    ensures Contains(BuildScriptPrompt(summary), "\"durationSeconds\": " + NatToString(TargetChunkSeconds) + ",")
    ensures NatToString(TargetChunkSeconds) == "8"
  {
    assert DurationLine == "      " + DurationField + "";
    PromptContainsPiece(summary, 8, "      ", DurationField, "");
  }

  /** The prompt asks for 8-second chunks. */
  lemma PromptMentionsEightSeconds(summary: string)
    ensures Contains(BuildScriptPrompt(summary), "8-second")
  {
    PromptContainsPiece(summary, 17, "- Each chunk is approximately ", "8-second", " narration.");
  }

  /** The prompt asks for JSON output. */
  lemma PromptMentionsJson(summary: string)
    ensures Contains(BuildScriptPrompt(summary), "JSON")
  {
    PromptContainsPiece(summary, 1, "Return ", "JSON", " only. No markdown and no prose outside JSON.");
  }

  /** The prompt asks for visual prompts with overlay context. */
  lemma PromptMentionsVisualOverlay(summary: string)
    ensures Contains(BuildScriptPrompt(summary), "visual")
    ensures Contains(BuildScriptPrompt(summary), "overlay")
  {
    var head := "- Every ";
    var middle := "Prompt must include presenter behavior and text ";
    var end := " context.";
    assert VisualPromptLine == head + "visual" + (middle + "overlay" + end);
    assert VisualPromptLine == (head + "visual" + middle) + "overlay" + end;
    PromptContainsPiece(summary, 20, head, "visual", middle + "overlay" + end);
    PromptContainsPiece(summary, 20, head + "visual" + middle, "overlay", end);
  }
}
