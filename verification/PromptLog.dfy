/** The status column of the prompt-call log, written by every LLM call. */
module PromptLog {
  datatype CallStatus = CallOk | CallFallback | CallError | CallSkipped
}
