/**
 * The AI tutor (Simple-AI-tutor/ai_tutor.py).
 *
 * The tutor object remembers the last question asked through `/chat` and the
 * last reply; `/stream` asks the model about the remembered question, each
 * time it is called, and answers with the reply when there is one.
 */
module AiTutor {
  import opened Wrappers
  import Base
  import opened Normalise

  /** The model client: (model name, messages, stream flag) to the reply. */
  type Inference = (string, seq<Base.Message>, bool) -> string

  /** The system prompt as written in the constructor, before normalisation. */
  const RawSystemPrompt: string :=
    "\n"
    + "        "
    + "    You "
    + "are an "
    + "AI tutor"
    + " whose "
    + "objective"
    + " is "
    + "answering"
    + " the "
    + "questions"
    + " on "
    + "diverse "
    + "topics, "
    + "such as "
    + "Python "
    + "coding, "
    + "algorithms,"
    + "        "
    + "     "
    + "computer"
    + " vision,"
    + " large "
    + "language"
    + " model, "
    + "academic"
    + " "
    + "research,"
    + " general"
    + " "
    + "knowledge,"
    + " etc. \n"
    + "        "
    + "    Your"
    + " "
    + "response"
    + " should "
    + "be "
    + "clear, "
    + "structured"
    + " and "
    + "engaging"
    + " with "
    + "example "
    + "code "
    + "snippets"
    + " and "
    + "best "
    + "practices"
    + "        "
    + "        "
    + " if the "
    + "question"
    + " is "
    + "about "
    + "coding. "
    + "Use "
    + "examples,"
    + " "
    + "analogies,"
    + " and "
    + "step-by-step"
    + " "
    + "explainations"
    + " when "
    + "needed."
    + "        "
    + "        "
    + " "
    + "Response"
    + " in "
    + "Markdown"
    + " format."
    + "\n"
    + "        "
    + "    "
    + "Below "
    + "are some"
    + " "
    + "examples"
    + " of how "
    + "you "
    + "should "
    + "response:"
    + "\n"
    + "        "
    + "        "
    + "Example "
    + "1: "
    + "Simple "
    + "Factual "
    + "Answer\n"
    + "        "
    + "        "
    + "    "
    + "User: "
    + "What is "
    + "photosynthesis?"
    + "\n"
    + "        "
    + "        "
    + "    "
    + "Tutor: "
    + "Photosynthesis"
    + " is the "
    + "process "
    + "by which"
    + " plants "
    + "convert "
    + "sunlight"
    + " into "
    + "energy."
    + "        "
    + "        "
    + "        "
    + " They "
    + "use "
    + "sunlight,"
    + " water, "
    + "and "
    + "carbon "
    + "dioxide "
    + "to "
    + "produce "
    + "glucose "
    + "and "
    + "oxygen.\n"
    + "        "
    + "        "
    + "\n"
    + "        "
    + "        "
    + "Example "
    + "2: "
    + "Explaining"
    + " a "
    + "Concept "
    + "in "
    + "coding\n"
    + "        "
    + "        "
    + "    "
    + "User: "
    + "What is "
    + "a Python"
    + " "
    + "dictionary?"
    + "\n"
    + "        "
    + "        "
    + "    "
    + "Tutor: A"
    + " "
    + "dictionary"
    + " in "
    + "Python "
    + "is a "
    + "data "
    + "structure"
    + " that "
    + "stores "
    + "key-value"
    + " pairs."
    + "        "
    + "        "
    + "        "
    + " It is "
    + "similar "
    + "to a "
    + "real-world"
    + " "
    + "dictionary"
    + " where "
    + "words "
    + "(keys) "
    + "have "
    + "definitions"
    + " "
    + "(values)."
    + " "
    + "Example:"
    + "\n"
    + "        "
    + "        "
    + "    ```\n"
    + "        "
    + "        "
    + "    "
    + "student "
    + "= "
    + "{\"name\":"
    + " "
    + "\"Alice\","
    + " \"age\": "
    + "20, "
    + "\"grade\":"
    + " \"A\"}\n"
    + "        "
    + "        "
    + "    "
    + "print(student[\"name\"])"
    + "  # "
    + "Output: "
    + "Alice\n"
    + "        "
    + "        "
    + "    ```\n"
    + "        "
    + "        "
    + "\n"
    + "        "
    + "        "
    + "Example "
    + "3: "
    + "Coding a"
    + " "
    + "Function"
    + "\n"
    + "        "
    + "        "
    + "    "
    + "User: "
    + "Write a "
    + "Python "
    + "function"
    + " to "
    + "check if"
    + " a "
    + "number "
    + "is "
    + "prime.\n"
    + "        "
    + "        "
    + "    "
    + "Tutor: "
    + "Here is "
    + "a "
    + "function"
    + " to "
    + "check "
    + "for "
    + "prime "
    + "numbers:"
    + "\n"
    + "        "
    + "        "
    + "    ```\n"
    + "        "
    + "        "
    + "    def "
    + "is_prime(n):"
    + "\n"
    + "        "
    + "        "
    + "        "
    + "if n < "
    + "2:\n"
    + "        "
    + "        "
    + "        "
    + "    "
    + "return "
    + "False\n"
    + "        "
    + "        "
    + "        "
    + "for i in"
    + " "
    + "range(2,"
    + " int(n "
    + "** 0.5) "
    + "+ 1):\n"
    + "        "
    + "        "
    + "        "
    + "    if n"
    + " % i == "
    + "0:\n"
    + "        "
    + "        "
    + "        "
    + "        "
    + "return "
    + "False\n"
    + "        "
    + "        "
    + "        "
    + "return "
    + "True\n"
    + "\n"
    + "        "
    + "        "
    + "    "
    + "print(is_prime(7))"
    + "  # "
    + "Output: "
    + "True\n"
    + "        "
    + "        "
    + "    ```\n"
    + "        "
    + "        "
    + "    This"
    + " "
    + "function"
    + " checks "
    + "divisibility"
    + " up to "
    + "the "
    + "square "
    + "root of "
    + "n, "
    + "optimizing"
    + " "
    + "performance."
    + "\n"
    + "        "
    + "        "
    + "\n"
    + "        "
    + "        "
    + "Example "
    + "4: "
    + "Step-by-Step"
    + " "
    + "Explanation"
    + "\n"
    + "        "
    + "        "
    + "    "
    + "User: "
    + "How does"
    + " the "
    + "Pythagorean"
    + " theorem"
    + " work?\n"
    + "        "
    + "        "
    + "    You:"
    + " The "
    + "Pythagorean"
    + " theorem"
    + " states "
    + "that in "
    + "a right "
    + "triangle,"
    + " the "
    + "square "
    + "of the "
    + "hypotenuse"
    + " is "
    + "equal"
    + "        "
    + "        "
    + "        "
    + " to the "
    + "sum of "
    + "the "
    + "squares "
    + "of the "
    + "other "
    + "two "
    + "sides "
    + "(a² + b²"
    + " = c²).\n"
    + "        "
    + "        "
    + "    For "
    + "example,"
    + " if one "
    + "side is "
    + "3 and "
    + "the "
    + "other is"
    + " 4, "
    + "then:\n"
    + "        "
    + "        "
    + "    3² +"
    + " 4² = 9 "
    + "+ 16 = "
    + "25 → √25"
    + " = 5, so"
    + " the "
    + "hypotenuse"
    + " is 5.\n"
    + "        "
    + "        "
    + "\n"
    + "        "
    + "        "
    + "Example "
    + "5: "
    + "Concept "
    + "Explanation"
    + " with "
    + "Analogy\n"
    + "        "
    + "        "
    + "    "
    + "User: "
    + "What is "
    + "an API?\n"
    + "        "
    + "        "
    + "    Bot:"
    + " An API "
    + "(Application"
    + " "
    + "Programming"
    + " "
    + "Interface)"
    + " is like"
    + " a "
    + "waiter "
    + "in a "
    + "restaurant."
    + "        "
    + "        "
    + "        "
    + " Just "
    + "like a "
    + "waiter "
    + "takes "
    + "your "
    + "order to"
    + " the "
    + "kitchen "
    + "and "
    + "brings "
    + "back "
    + "food, an"
    + " API "
    + "allows"
    + "        "
    + "        "
    + "        "
    + "     "
    + "different"
    + " "
    + "software"
    + " "
    + "applications"
    + " to "
    + "communicate."
    + " It "
    + "sends "
    + "requests"
    + " and "
    + "returns "
    + "responses."
    + "        "
    + "\n"
    + "        "
    + "    "

  /** The system prompt the tutor sends: tab runs and runs of two or more spaces replaced by one space. */
  const SystemPrompt: string := CollapseTabsAndSpaceRuns(RawSystemPrompt)

  /** The literal parts of the f-string in `get_user_prompt`. */
  const QuestionHead: string :=
    "\n"
    + "            Here is my question:\n"
    + "            "
  const QuestionTail: string :=
    "\n"
    + "            Please respond in Markdown format.\n"
    + "        "

  /** `get_user_prompt(question)`. */
  function UserPrompt(question: string): (p: string)
    ensures NoTab(p)
    ensures |p| <= |QuestionHead| + |question| + |QuestionTail|
  {
    CollapseTabsAndSpaceRuns(QuestionHead + question + QuestionTail)
  }

  /** Apart from blanks, the prompt is the template's text with the question in its place. */
  lemma UserPromptKeepsQuestion(question: string)
    ensures Strip(UserPrompt(question)) == Strip(QuestionHead) + Strip(question) + Strip(QuestionTail)
  {
    CollapseTabsAndSpaceRunsKeepsText(QuestionHead + question + QuestionTail);
    StripAppend(QuestionHead + question, QuestionTail);
    StripAppend(QuestionHead, question);
  }

  class AITutor {
    const modelName: string
    const inference: Inference
    /** Set once by the constructor and never reassigned. */
    const systemPrompt: string
    var lastQuestion: Option<string>
    var lastResponse: Option<string>
    /** Every request sent to the model so far, oldest first: the messages and the stream flag. */
    ghost var requests: seq<(seq<Base.Message>, bool)>

    constructor (modelName: string, inference: Inference)
      ensures this.modelName == modelName && this.inference == inference
      ensures systemPrompt == SystemPrompt
      ensures lastQuestion == None && lastResponse == None
      ensures requests == []
    {
      this.modelName := modelName;
      this.inference := inference;
      systemPrompt := SystemPrompt;
      lastQuestion := None;
      lastResponse := None;
      requests := [];
    }

    /** `get_question(question)`: remembers the question and changes nothing else. */
    method GetQuestion(question: string)
      modifies this`lastQuestion
      ensures lastQuestion == Some(question)
    {
      lastQuestion := Some(question);
    }

    /**
     * `get_response(stream)`: without a remembered question nothing is sent
     * and None is returned; otherwise the remembered question is sent and
     * the reply is stored and returned.
     */
    method GetResponse(stream: bool) returns (response: Option<string>)
      modifies this`lastResponse, this`requests
      ensures lastQuestion.None? ==>
        response == None && lastResponse == old(lastResponse) && requests == old(requests)
      ensures lastQuestion.Some? ==>
        var message := Base.CreateMessage(systemPrompt, UserPrompt(lastQuestion.value));
        && response == Some(inference(modelName, message, stream))
        && lastResponse == response
        && requests == old(requests) + [(message, stream)]
    {
      if lastQuestion.None? {
        return None;
      }
      var message := Base.CreateMessage(systemPrompt, UserPrompt(lastQuestion.value));
      requests := requests + [(message, stream)];
      lastResponse := Some(inference(modelName, message, stream));
      response := lastResponse;
    }
  }

  /** `/chat?message=...`: a missing `message` argument counts as the empty string. */
  method Chat(tutor: AITutor, message: Option<string>) returns (status: int, body: string)
    modifies tutor`lastQuestion
    ensures message.None? || message.value == [] ==>
      status == 400 && body == "Error: Empty message" && tutor.lastQuestion == old(tutor.lastQuestion)
    ensures message.Some? && message.value != [] ==>
      status == 200 && body == "Message received" && tutor.lastQuestion == message
  {
    var userMessage := if message.Some? then message.value else "";
    if userMessage == [] {
      return 400, "Error: Empty message";
    }
    tutor.GetQuestion(userMessage);
    return 200, "Message received";
  }

  /**
   * `/stream`: asks for a streamed reply to the remembered question and
   * answers with the stored reply when there is one (None stands for the
   * route's missing response).
   */
  method Stream(tutor: AITutor) returns (reply: Option<string>)
    modifies tutor`lastResponse, tutor`requests
    ensures tutor.lastQuestion.Some? ==>
      var message := Base.CreateMessage(tutor.systemPrompt, UserPrompt(tutor.lastQuestion.value));
      && reply == Some(tutor.inference(tutor.modelName, message, true))
      && tutor.requests == old(tutor.requests) + [(message, true)]
    ensures reply == tutor.lastResponse
    ensures tutor.lastQuestion.None? ==>
      reply == old(tutor.lastResponse) && tutor.requests == old(tutor.requests)
  {
    var _ := tutor.GetResponse(true);
    reply := tutor.lastResponse;
  }

  /**
   * A question sent through `/chat` is the one `/stream` then asks about, and
   * every later `/stream` asks about it again until the next question.
   */
  method AskThenStream(tutor: AITutor, question: string) returns (first: Option<string>, again: Option<string>)
    requires question != []
    modifies tutor`lastQuestion, tutor`lastResponse, tutor`requests
    ensures var message := Base.CreateMessage(tutor.systemPrompt, UserPrompt(question));
      && first == again == Some(tutor.inference(tutor.modelName, message, true))
      && tutor.requests == old(tutor.requests) + [(message, true), (message, true)]
  {
    var status, body := Chat(tutor, Some(question));
    first := Stream(tutor);
    again := Stream(tutor);
  }
}
