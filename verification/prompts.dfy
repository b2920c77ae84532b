/**
  How the facades of vendors without a native chat interface turn a list of
  chat messages into one prompt text.  A message's role defaults to "user"
  and its content to the empty text when the dict lacks them.

  Bedrock and Together render each turn as `Label: content`, drop turns
  whose role they have no label for, close with an `Assistant:` cue, and
  separate the parts by blank lines.  Hugging Face renders every turn as
  `Role: content` with the role capitalised, one per line, with no cue.
 */
module Prompts {

  import opened Base
  import opened Text
  import opened LlmFacade

  /** `msg.get('role', 'user')`. */
  function Role(m: Message): string {
    m.role.GetOr("user")
  }

  /** `msg.get('content', '')`. */
  function Content(m: Message): string {
    m.content.GetOr("")
  }

  /** The label a turn-based renderer gives a role, or `None` when it skips
      turns with that role. */
  type Labels = string -> Option<string>

  /** Bedrock's labels: user turns are `Human`, assistant turns `Assistant`. */
  function BedrockLabel(role: string): Option<string> {
    if role == "user" then Some("Human")
    else if role == "assistant" then Some("Assistant")
    else None
  }

  /** Together's labels: `System`, `User` and `Assistant`. */
  function TogetherLabel(role: string): Option<string> {
    if role == "system" then Some("System")
    else if role == "user" then Some("User")
    else if role == "assistant" then Some("Assistant")
    else None
  }

  /** One rendered turn. */
  function Turn(name: string, m: Message): string {
    name + ": " + Content(m)
  }

  /** The rendered turns, in message order, skipping unlabelled roles. */
  function Rendered(ms: seq<Message>, labels: Labels): (r: seq<string>)
    ensures |r| <= |ms|
  {
    if |ms| == 0 then []
    else
      (match labels(Role(ms[0]))
       case Some(l) => [Turn(l, ms[0])]
       case None => [])
      + Rendered(ms[1..], labels)
  }

  /** The cue that closes every turn-based prompt. */
  const Cue: string := "Assistant:"

  /** Rendered turns and the closing cue, separated by blank lines. */
  function TurnPrompt(ms: seq<Message>, labels: Labels): string {
    Join("\n\n", Rendered(ms, labels) + [Cue])
  }

  /** Bedrock's `_messages_to_prompt`. */
  function BedrockPrompt(ms: seq<Message>): string {
    TurnPrompt(ms, BedrockLabel)
  }

  /** Together's `_format_chat_prompt`. */
  function TogetherPrompt(ms: seq<Message>): string {
    TurnPrompt(ms, TogetherLabel)
  }

  /** One line of the Hugging Face rendering. */
  function Line(m: Message): string {
    Capitalize(Role(m)) + ": " + Content(m)
  }

  /** Hugging Face's `_format_chat_prompt`: one line per message. */
  function LinePrompt(ms: seq<Message>): string {
    Join("\n", seq(|ms|, i requires 0 <= i < |ms| => Line(ms[i])))
  }

  // ---------------------------------------------------------------------
  // Lemmas.

  /** Rendering a conversation renders its parts one after the other: turns
      are never reordered or merged. */
  lemma {:induction false} RenderedAppend(a: seq<Message>, b: seq<Message>, labels: Labels)
    ensures Rendered(a + b, labels) == Rendered(a, labels) + Rendered(b, labels)
    decreases |a|
  {
    if |a| == 0 {
      assert a + b == b;
    } else {
      assert (a + b)[1..] == a[1..] + b;
      RenderedAppend(a[1..], b, labels);
    }
  }

  /** When every role has a label, each message gives exactly one turn, in
      order. */
  lemma {:induction false} RenderedAllLabelled(ms: seq<Message>, labels: Labels)
    requires forall i :: 0 <= i < |ms| ==> labels(Role(ms[i])).Some?
    ensures |Rendered(ms, labels)| == |ms|
    ensures forall i :: 0 <= i < |ms| ==>
              Rendered(ms, labels)[i] == Turn(labels(Role(ms[i])).value, ms[i])
  {
    if |ms| > 0 {
      RenderedAllLabelled(ms[1..], labels);
    }
  }

  /** When no role has a label, no turn is rendered. */
  lemma {:induction false} RenderedNoneLabelled(ms: seq<Message>, labels: Labels)
    requires forall i :: 0 <= i < |ms| ==> labels(Role(ms[i])).None?
    ensures Rendered(ms, labels) == []
  {
    if |ms| > 0 {
      RenderedNoneLabelled(ms[1..], labels);
    }
  }

  /** Joining with one more part appends the separator and that part. */
  lemma {:induction false} JoinSnoc(sep: string, parts: seq<string>, last: string)
    ensures Join(sep, parts + [last]) == if |parts| == 0 then last else Join(sep, parts) + sep + last
    decreases |parts|
  {
    if |parts| > 1 {
      assert (parts + [last])[1..] == parts[1..] + [last];
      JoinSnoc(sep, parts[1..], last);
    } else if |parts| == 1 {
      assert (parts + [last])[1..] == [last];
    }
  }

  /** A turn-based prompt is the rendered turns followed by the cue; with no
      rendered turn it is the cue alone. */
  lemma TurnPromptShape(ms: seq<Message>, labels: Labels)
    ensures var r := Rendered(ms, labels);
            TurnPrompt(ms, labels) == if |r| == 0 then Cue else Join("\n\n", r) + "\n\n" + Cue
  {
    JoinSnoc("\n\n", Rendered(ms, labels), Cue);
  }

  /** Bedrock's prompt for a single user message. */
  lemma BedrockSingleTurn(content: string)
    ensures BedrockPrompt([UserMessage(content)]) == "Human: " + content + "\n\nAssistant:"
  {
    var ms := [UserMessage(content)];
    assert ms[1..] == [];
    assert BedrockLabel(Role(ms[0])) == Some("Human");
    assert Rendered(ms[1..], BedrockLabel) == [];
    assert "Human" + ": " == "Human: ";
    assert Rendered(ms, BedrockLabel) == ["Human: " + content];
    TurnPromptShape(ms, BedrockLabel);
  }

  /** Together keeps system turns, which Bedrock drops. */
  lemma SystemTurns(content: string)
    ensures TogetherPrompt([Message(Some("system"), Some(content))])
            == "System: " + content + "\n\nAssistant:"
    ensures BedrockPrompt([Message(Some("system"), Some(content))]) == Cue
  {
    TogetherSystemTurn(content);
    BedrockSystemTurn(content);
  }

  /** Together renders a lone system message as a `System:` turn. */
  lemma TogetherSystemTurn(content: string)
    ensures TogetherPrompt([Message(Some("system"), Some(content))])
            == "System: " + content + "\n\nAssistant:"
  {
    var ms := [Message(Some("system"), Some(content))];
    assert ms[1..] == [];
    assert TogetherLabel(Role(ms[0])) == Some("System");
    assert Rendered(ms[1..], TogetherLabel) == [];
    assert "System" + ": " == "System: ";
    assert Rendered(ms, TogetherLabel) == ["System: " + content];
    TurnPromptShape(ms, TogetherLabel);
  }

  /** Bedrock renders nothing for a lone system message. */
  lemma BedrockSystemTurn(content: string)
    ensures BedrockPrompt([Message(Some("system"), Some(content))]) == Cue
  {
    var ms := [Message(Some("system"), Some(content))];
    assert ms[1..] == [];
    assert BedrockLabel(Role(ms[0])) == None;
    assert Rendered(ms[1..], BedrockLabel) == [];
    assert Rendered(ms, BedrockLabel) == [];
    TurnPromptShape(ms, BedrockLabel);
  }

  /** The Hugging Face rendering of a longer conversation extends that of
      its prefix by one line. */
  lemma LinePromptSnoc(ms: seq<Message>, m: Message)
    ensures LinePrompt(ms + [m]) == if |ms| == 0 then Line(m) else LinePrompt(ms) + "\n" + Line(m)
  {
    var ls := seq(|ms|, i requires 0 <= i < |ms| => Line(ms[i]));
    var ms' := ms + [m];
    assert seq(|ms'|, i requires 0 <= i < |ms'| => Line(ms'[i])) == ls + [Line(m)];
    JoinSnoc("\n", ls, Line(m));
  }
}
