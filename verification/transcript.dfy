/** A transcript rendered as text: one `<label>: <content>` block per message,
    in order, blocks separated by a blank line. The chat widget renders it with
    the labels `User`/`AI` (ChatBot.tsx:71-73), the summarize route with
    `ผู้ใช้`/`AI` (summarize/route.ts:46-48). */
module Transcript {
  import opened Types
  import opened Text

  const BlankLine := "\n\n"

  /** The block of one message. */
  function Block(m: ChatMessage, userLabel: string, assistantLabel: string): string {
    (if m.role == User then userLabel else assistantLabel) + ": " + m.content
  }

  function Blocks(ms: seq<ChatMessage>, userLabel: string, assistantLabel: string): seq<string> {
    seq(|ms|, i requires 0 <= i < |ms| => Block(ms[i], userLabel, assistantLabel))
  }

  /** `ms.map(block).join('\n\n')`. */
  function Render(ms: seq<ChatMessage>, userLabel: string, assistantLabel: string): string {
    Join(Blocks(ms, userLabel, assistantLabel), BlankLine)
  }

  /** Each message shows up in the rendering as its own labelled block. */
  lemma RenderContainsEach(ms: seq<ChatMessage>, userLabel: string, assistantLabel: string, i: nat)
    requires i < |ms|
    ensures Contains(Render(ms, userLabel, assistantLabel), Block(ms[i], userLabel, assistantLabel))
    ensures Contains(Render(ms, userLabel, assistantLabel), ms[i].content)
  {
    var blocks := Blocks(ms, userLabel, assistantLabel);
    var b := Block(ms[i], userLabel, assistantLabel);
    JoinContainsEach(blocks, BlankLine, i);
    var tag := if ms[i].role == User then userLabel else assistantLabel;
    ContainsSelf(ms[i].content);
    ContainsPrefixed(tag + ": ", ms[i].content, ms[i].content);
    ContainsTransitive(Render(ms, userLabel, assistantLabel), b, ms[i].content);
  }

  /** Every message's content shows up in the rendering. */
  lemma RenderContainsAll(ms: seq<ChatMessage>, userLabel: string, assistantLabel: string)
    ensures forall i :: 0 <= i < |ms| ==> Contains(Render(ms, userLabel, assistantLabel), ms[i].content)
  {
    forall i | 0 <= i < |ms| ensures Contains(Render(ms, userLabel, assistantLabel), ms[i].content) {
      RenderContainsEach(ms, userLabel, assistantLabel, i);
    }
  }

  /** Rendering grows by appending: one more message adds a blank line and its
      block at the end, and leaves the earlier text as a prefix. */
  lemma RenderSnoc(ms: seq<ChatMessage>, m: ChatMessage, userLabel: string, assistantLabel: string)
    ensures |ms| == 0 ==> Render(ms + [m], userLabel, assistantLabel) == Block(m, userLabel, assistantLabel)
    ensures |ms| > 0 ==>
      Render(ms + [m], userLabel, assistantLabel)
        == Render(ms, userLabel, assistantLabel) + BlankLine + Block(m, userLabel, assistantLabel)
  {
    var blocks := Blocks(ms, userLabel, assistantLabel);
    assert Blocks(ms + [m], userLabel, assistantLabel) == blocks + [Block(m, userLabel, assistantLabel)];
    if |ms| > 0 {
      JoinSnoc(blocks, Block(m, userLabel, assistantLabel), BlankLine);
    }
  }
}
