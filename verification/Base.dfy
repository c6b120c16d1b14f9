/**
 * The prompt generator every application extends (base/base_class.py):
 * a placeholder system prompt, a placeholder user-prompt builder, and the
 * two-element chat message list sent to the model.
 */
module Base {
  import opened Wrappers

  /** One chat-completion message: `{"role": role, "content": content}`. */
  datatype Message = Message(role: string, content: string)

  const DefaultSystemPrompt: string := "System prompt goes here"
  const UserPromptPrefix: string := "User prompt goes here with following text: "

  class BasePromptGenerator {
    var systemPrompt: string

    constructor ()
      ensures systemPrompt == DefaultSystemPrompt
    {
      systemPrompt := DefaultSystemPrompt;
    }
  }

  /** `get_user_prompt(text)`: the fixed prefix followed by the text. */
  function UserPrompt(text: string): (p: string)
    ensures |p| == |UserPromptPrefix| + |text|
    ensures p[..|UserPromptPrefix|] == UserPromptPrefix && p[|UserPromptPrefix|..] == text
  {
    UserPromptPrefix + text
  }

  /** Reads the text back out of a prompt built by `UserPrompt`. */
  function TextOfUserPrompt(p: string): Option<string>
  {
    if |p| >= |UserPromptPrefix| && p[..|UserPromptPrefix|] == UserPromptPrefix
    then Some(p[|UserPromptPrefix|..])
    else None
  }

  /** The prefix can be taken off again, and only prompts carrying it decode. */
  lemma UserPromptRoundTrip(text: string, p: string)
    ensures TextOfUserPrompt(UserPrompt(text)) == Some(text)
    ensures TextOfUserPrompt(p) == Some(text) <==> p == UserPrompt(text)
  {
    if TextOfUserPrompt(p) == Some(text) {
      assert p == p[..|UserPromptPrefix|] + p[|UserPromptPrefix|..];
    }
  }

  /** `create_message(system_prompt, user_prompt)`. */
  function CreateMessage(systemPrompt: string, userPrompt: string): (m: seq<Message>)
    ensures |m| == 2
    ensures m[0].role == "system" && m[0].content == systemPrompt
    ensures m[1].role == "user" && m[1].content == userPrompt
  {
    [Message("system", systemPrompt), Message("user", userPrompt)]
  }

  /** How a chat endpoint reads a system/user pair back from a message list. */
  function PromptsOf(m: seq<Message>): Option<(string, string)>
  {
    if |m| == 2 && m[0].role == "system" && m[1].role == "user"
    then Some((m[0].content, m[1].content))
    else None
  }

  /** Both prompts pass through `CreateMessage` unchanged, and it builds every well-formed pair. */
  lemma CreateMessageRoundTrip(systemPrompt: string, userPrompt: string, m: seq<Message>)
    ensures PromptsOf(CreateMessage(systemPrompt, userPrompt)) == Some((systemPrompt, userPrompt))
    ensures PromptsOf(m) == Some((systemPrompt, userPrompt)) <==> m == CreateMessage(systemPrompt, userPrompt)
  {
  }
}
