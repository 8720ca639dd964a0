/** Rendering of the packed messages into the dialog block of the prompt:
    each message becomes a `displayName: content` line, and the lines are
    joined with a blank line between them. */
module Dialog {
  import opened Packer

  /** The separator `Array.prototype.join` is given: one blank line. */
  const Separator: string := "\n\n"

  /** One rendered message: the display name, a colon and a space, then the
      body, each verbatim. */
  function RenderLine(m: Message): (line: string)
    ensures |line| == |m.displayName| + 2 + |m.content|
    ensures line[..|m.displayName|] == m.displayName
    ensures line[|m.displayName|..|m.displayName| + 2] == ": "
    ensures line[|m.displayName| + 2..] == m.content
  {
    m.displayName + ": " + m.content
  }

  /** `Array.prototype.join`: the parts with `sep` between consecutive ones.
      No parts give the empty string, a single part is itself, and more
      start with the first part verbatim. */
  function Join(parts: seq<string>, sep: string): (joined: string)
    ensures parts == [] ==> joined == ""
    ensures parts != [] ==> |parts[0]| <= |joined| && joined[..|parts[0]|] == parts[0]
    ensures |parts| == 1 ==> joined == parts[0]
  {
    if |parts| == 0 then ""
    else if |parts| == 1 then parts[0]
    else parts[0] + sep + Join(parts[1..], sep)
  }

  /** Joining splits at any inner boundary into the join of each side. */
  lemma {:induction false} JoinSplit(parts: seq<string>, sep: string, i: nat)
    requires 0 < i < |parts|
    ensures Join(parts, sep) == Join(parts[..i], sep) + sep + Join(parts[i..], sep)
  {
    if i == 1 {
      assert parts[..1] == [parts[0]] && parts[1..] == parts[i..];
    } else {
      JoinSplit(parts[1..], sep, i - 1);
      assert parts[..i][0] == parts[0];
      assert parts[..i][1..] == parts[1..][..i - 1];
      assert parts[1..][i - 1..] == parts[i..];
    }
  }

  /** The lines of `ms`: one per message, in the same order. */
  function Lines(ms: seq<Message>): (lines: seq<string>)
    ensures |lines| == |ms|
    ensures forall i :: 0 <= i < |ms| ==> lines[i] == RenderLine(ms[i])
  {
    seq(|ms|, i requires 0 <= i < |ms| => RenderLine(ms[i]))
  }

  /** The dialog text: an empty batch renders as the empty string and a
      single message as its own line. */
  function RenderDialog(ms: seq<Message>): (text: string)
    ensures ms == [] ==> text == ""
    ensures |ms| == 1 ==> text == ms[0].displayName + ": " + ms[0].content
  {
    Join(Lines(ms), Separator)
  }

  /** Rendering two non-empty runs of messages one after the other puts a
      blank line between their renderings; with the two cases in
      `RenderDialog`'s contract this determines every rendering. */
  lemma RenderDialogAppend(a: seq<Message>, b: seq<Message>)
    requires a != [] && b != []
    ensures RenderDialog(a + b) == RenderDialog(a) + Separator + RenderDialog(b)
  {
    var lines := Lines(a + b);
    JoinSplit(lines, Separator, |a|);
    assert lines[..|a|] == Lines(a);
    assert lines[|a|..] == Lines(b);
  }

  /** Reversing the newest-first selection puts the newest kept message on
      the last line of the dialog, after the older ones. */
  lemma NewestRenderedLast(kept: seq<Message>)
    requires |kept| >= 2
    ensures RenderDialog(Reversed(kept))
            == RenderDialog(Reversed(kept[1..])) + Separator + RenderLine(kept[0])
  {
    ReversedFirstLast(kept);
    RenderDialogAppend(Reversed(kept[1..]), [kept[0]]);
  }

  /** Lines 91-108 of the script: select the newest messages that fit the
      budget, reverse them in place into chronological order and render
      them.  Also returns how many messages were used. */
  method PackDialog(messagesLastFirst: seq<Message>, budget: int, tokens: string -> nat)
    returns (messageText: string, used: nat)
    ensures used == |KeepNewest(messagesLastFirst, budget, tokens)|
    ensures messageText == RenderDialog(Reversed(KeepNewest(messagesLastFirst, budget, tokens)))
  {
    var toProcess, remaining := SelectNewest(messagesLastFirst, budget, tokens);
    var messages := new Message[|toProcess|](i requires 0 <= i < |toProcess| => toProcess[i]);
    assert messages[..] == toProcess;
    ReverseInPlace(messages);
    messageText := RenderDialog(messages[..]);
    used := |toProcess|;
  }
}
