/** The prompt sent to the language model and the token budget left for the
    dialog inside it. */
module Prompt {

  /** The model's context window, in tokens. */
  const MAX_CONTEXT_SZ: int := 2048

  /** The words both templates open with. */
  const PromptOpening: string := "Please read the "

  /** The rest of the continuation template's first line. */
  const ContinuationAsk: string :=
    "(1) summary" + " (\"SUMMARY\") of previous dialog, and (2) following dialog (\"DIALOG\") and list the main topics succinctly.\n"

  /** The rest of the first-run template's first line. */
  const FirstRunAsk: string := "following" + " dialog and list the main topics succinctly.\n"

  /** The questions and the note on mentions, common to both templates. */
  const TaskLines: string :=
    "Are there any outstanding issues? Is everyone agreeing? Does anyone have outstanding tasks?\n"
    + "People are tagged by the use of the <at> HTML element.\n"

  /** The instructions of the continuation template, up to the summary
      section; its last line holds two spaces. */
  const ContinuationIntro: string := PromptOpening + ContinuationAsk + TaskLines + "  \n"

  /** The label line opening the summary section. */
  const SummaryLabel: string := "SUMMARY\n"

  /** What stands between the summary and the dialog: a blank line and the dialog label line. */
  const DialogLabel: string := "\n\nDIALOG\n"

  /** The instructions of the first-run template, which has no summary section. */
  const FirstRunIntro: string := PromptOpening + FirstRunAsk + TaskLines + "\n"

  /** `prefix` opens `s`. */
  predicate StartsWith(s: string, prefix: string)
  {
    |prefix| <= |s| && s[..|prefix|] == prefix
  }

  /** A prefix of `s` agrees with `s` at each of its positions. */
  lemma PrefixAt(s: string, prefix: string, n: nat)
    requires n < |prefix|
    ensures StartsWith(s, prefix) ==> s[n] == prefix[n]
  {
    if StartsWith(s, prefix) {
      assert s[..|prefix|][n] == s[n];
    }
  }

  /** `formUserPrompt`: the continuation template when a summary exists,
      the first-run template otherwise.  Either way the dialog text stands
      verbatim at `DialogSlot(summary)`, followed by a line break only in the
      continuation template. */
  function FormUserPrompt(summary: string, messageText: string): (prompt: string)
    ensures |prompt| == DialogSlot(summary) + |messageText| + (if |summary| > 0 then 1 else 0)
    ensures prompt[DialogSlot(summary)..DialogSlot(summary) + |messageText|] == messageText
    ensures |summary| > 0 ==> prompt[|prompt| - 1] == '\n'
  {
    if |summary| > 0 then ContinuationIntro + SummaryLabel + summary + DialogLabel + messageText + "\n"
    else FirstRunIntro + messageText
  }

  /** Where the dialog text goes in the prompt skeleton built with `summary`. */
  function DialogSlot(summary: string): nat
  {
    if |summary| > 0 then |ContinuationIntro| + |SummaryLabel| + |summary| + |DialogLabel|
    else |FirstRunIntro|
  }

  /** The template in use: the prompt opens with the continuation
      instructions and the SUMMARY label exactly when the summary is
      non-empty, and with the first-run instructions exactly when it is
      empty.  The two templates part right after their common opening words,
      where only the continuation one has its "(1) summary" request. */
  lemma TemplateChoice(summary: string, messageText: string)
    ensures StartsWith(FormUserPrompt(summary, messageText), ContinuationIntro + SummaryLabel) <==> |summary| > 0
    ensures StartsWith(FormUserPrompt(summary, messageText), FirstRunIntro) <==> |summary| == 0
    ensures |FormUserPrompt(summary, messageText)| > |PromptOpening|
    ensures FormUserPrompt(summary, messageText)[|PromptOpening|] == '(' <==> |summary| > 0
  {
    var p := FormUserPrompt(summary, messageText);
    var n := |PromptOpening|;
    var c := ContinuationIntro + SummaryLabel;
    assert c[n] == ContinuationIntro[n] == (PromptOpening + ContinuationAsk)[n] == ContinuationAsk[0];
    assert ContinuationAsk[0] == "(1) summary"[0] == '(';
    assert FirstRunIntro[n] == (PromptOpening + FirstRunAsk)[n] == FirstRunAsk[0];
    assert FirstRunAsk[0] == "following"[0] == 'f';
    if |summary| > 0 {
      assert p == c + (summary + DialogLabel + messageText + "\n");
    } else {
      assert p == FirstRunIntro + messageText;
    }
    PrefixAt(p, c, n);
    PrefixAt(p, FirstRunIntro, n);
  }

  /** The prompt is the empty-dialog skeleton built with the same summary,
      with the dialog text inserted verbatim at a position that depends on
      the summary alone; in particular it is exactly as much longer. */
  lemma DialogInsertedInSkeleton(summary: string, messageText: string)
    ensures DialogSlot(summary) <= |FormUserPrompt(summary, "")|
    ensures FormUserPrompt(summary, messageText)
            == FormUserPrompt(summary, "")[..DialogSlot(summary)] + messageText
               + FormUserPrompt(summary, "")[DialogSlot(summary)..]
  {
    var skeleton := FormUserPrompt(summary, "");
    if |summary| > 0 {
      var head := ContinuationIntro + SummaryLabel + summary + DialogLabel;
      assert skeleton == head + "" + "\n" == head + "\n";
      assert skeleton[..|head|] == head && skeleton[|head|..] == "\n";
    } else {
      assert skeleton == FirstRunIntro + "" == FirstRunIntro;
    }
  }

  /** With a summary, the prompt holds the SUMMARY label, the summary
      verbatim, the DIALOG label and the dialog text verbatim, in that order,
      and ends with a line break. */
  lemma SummarySectionLayout(summary: string, messageText: string)
    requires |summary| > 0
    ensures var p := FormUserPrompt(summary, messageText);
            var s := |ContinuationIntro| + |SummaryLabel|;
            var d := s + |summary| + |DialogLabel|;
            && |p| == d + |messageText| + 1
            && p[s - |SummaryLabel|..s] == "SUMMARY\n"
            && p[s..s + |summary|] == summary
            && p[d - |DialogLabel|..d] == "\n\nDIALOG\n"
            && p[d..d + |messageText|] == messageText
            && p[|p| - 1] == '\n'
  {
    var p := FormUserPrompt(summary, messageText);
    var s := |ContinuationIntro| + |SummaryLabel|;
    var d := s + |summary| + |DialogLabel|;
    assert p == ((ContinuationIntro + SummaryLabel) + summary + DialogLabel) + messageText + "\n";
    assert p[..s] == ContinuationIntro + SummaryLabel;
    assert p[..d] == ContinuationIntro + SummaryLabel + summary + DialogLabel;
  }

  /** Without a summary, the prompt is the first-run instructions followed by
      the dialog text and nothing else: no summary section at all. */
  lemma FirstRunLayout(messageText: string)
    ensures var p := FormUserPrompt("", messageText);
            && p[..|FirstRunIntro|] == FirstRunIntro
            && p[|FirstRunIntro|..] == messageText
  {
  }

  /** `remainingContextSz` before any message is packed: the context window
      less the token length of the prompt skeleton built with `summary`.
      It never exceeds the window, and it is positive only when the skeleton
      leaves room. */
  function DialogBudget(summary: string, tokens: string -> nat): (budget: int)
    ensures budget <= MAX_CONTEXT_SZ
    ensures budget > 0 <==> tokens(FormUserPrompt(summary, "")) < MAX_CONTEXT_SZ
  {
    MAX_CONTEXT_SZ - tokens(FormUserPrompt(summary, ""))
  }
}
