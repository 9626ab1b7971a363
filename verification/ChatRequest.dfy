/** The chat-completions request both request translators speak: what the ingress one writes
    and the egress one reads. JSON is a syntax tree; a member's raw text appears only where a
    translator passes it on. */
module ChatRequest {
  import opened Wrappers

  /** Raw JSON by what the translators ask of it; JOther is any other text, valid or not. */
  datatype Json = JAbsent | JNull | JObject(text: string) | JOther(text: string)

  const EMPTY_OBJECT := JObject("{}")

  datatype File = File(fileData: string, fileUrl: string, fileId: string)

  const NO_FILE := File("", "", "")

  /** Absent members read as empty. */
  datatype Part = Part(kind: string, text: string, refusal: string, imageUrl: Option<string>, file: Option<File>)

  function TextPart(text: string): Part { Part("text", text, "", None, None) }

  function ImagePart(url: string): Part { Part("image_url", "", "", Some(url), None) }

  function FilePart(data: string): Part { Part("file", "", "", None, Some(File(data, "", ""))) }

  /** A message's content field. A null reads as an empty string where a string is asked for. */
  datatype Content = Missing | Null | Str(s: string) | Parts(parts: seq<Part>) | Unreadable

  /** `arguments` is the string's own text as a value; JAbsent is the empty string. */
  datatype Call = Call(id: string, name: string, arguments: Json, signature: string)

  datatype Message = Message(role: string, content: Content, calls: seq<Call>, toolCallId: string)

  function Says(role: string, content: Content): Message { Message(role, content, [], "") }

  datatype ToolChoice = NoChoice | Mode(mode: string) | Function(name: string) | OtherChoice

  datatype Tool = Tool(name: string, description: string, parameters: Json)

  datatype Sampling = Sampling(temperature: Option<real>, topP: Option<real>, topK: Option<int>)

  const UNSAMPLED := Sampling(None, None, None)

  /** `formatInstruction` is the prompt instruction the response_format asks for, if any
      (paramrewrite.SchemaPromptInstruction, which is not part of this model). */
  datatype Request = Request(
    model: string, messages: seq<Message>, maxTokens: int, maxCompletionTokens: int, stream: bool, sampling: Sampling,
    stop: seq<string>, tools: seq<Tool>, toolChoice: ToolChoice, parallelToolCalls: Option<bool>,
    reasoningEffort: string, formatInstruction: Option<string>)
}
