/**
 * The language-model service as the core sees it: the requests made to it
 * and the replies it gives. The network call itself is not modelled; a
 * reply is an input of the operation that asks for it.
 */
module Llm {
  import opened Wrappers

  /** One entry of the message list; a nil content is passed through as None. */
  datatype PromptMessage = PromptMessage(role: string, content: Option<string>)

  /**
   * The sampling options beside the temperature: nucleus sampling 0.9 with
   * the given presence and frequency penalties, or a cap on reply tokens.
   */
  datatype Sampling = Penalised(presencePenalty: real, frequencyPenalty: real) | Capped(maxTokens: nat)

  datatype Request = Request(messages: seq<PromptMessage>, model: string, temperature: real, sampling: Sampling)

  /**
   * A streamed reply: all its pieces, or the pieces delivered before the
   * call raised.
   */
  datatype StreamReply = Streamed(chunks: seq<string>) | Failed(chunks: seq<string>)

  /** A one-shot reply: the content field of the response (maybe nil), or an exception. */
  datatype Completion = Completed(content: Option<string>) | Raised
}
