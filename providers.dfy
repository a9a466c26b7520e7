/** The three calls to the external AI provider, seen from the handlers:
    each either returns a value or fails with a message (the wrappers
    re-raise every provider error as a plain exception carrying it). The
    handlers' calls are recorded, with their inputs, so that contracts can
    state which stage ran on what. */
module Providers {
  import opened AudioUtils

  /** What a provider call gives back: a value, or a failure with its message. */
  datatype Outcome<+T> = Value(value: T) | Fault(message: string)

  /** One call made by a handler: transcription of the saved file (its path
      and the bytes it held when the call was made), reply generation from a
      prompt, or speech synthesis of a text. */
  datatype ProviderCall =
    | Transcribe(path: string, audio: seq<byte>)
    | GenerateReply(prompt: string)
    | Synthesize(text: string)
}
