/** Chat messages, results and the fixed budgets of the companion's context window. */
module Messages {

  /** One chat turn, tagged by who produced it (LangChain's HumanMessage, AIMessage, SystemMessage). */
  datatype Message = Human(content: string) | AI(content: string) | System(content: string)

  datatype Option<T> = None | Some(value: T)

  datatype Result<T, E> = Ok(value: T) | Err(error: E)

  /** The two exceptions `ask` lets escape: the ValueError for an over-long input and
      the IndexError of `pop(0)` on an emptied window. */
  datatype AskError = TextTooLong | PopFromEmpty

  /** A call recorded at the long-term memory backend (`brain.store_memory`):
      a single summary text, or the chunk list of an imported data set. */
  datatype StoreCall = Summary(text: string) | Chunks(texts: seq<string>)

  /** Counting oracles of the LLM client: tokens of a message list, tokens of a text. */
  type MessageCounter = seq<Message> -> nat
  type TextCounter = string -> nat

  /** Token limits of `ask` and the window sizes kept by `load_memory` and `summarize_memory`. */
  const INPUT_LIMIT: nat := 256
  const WINDOW_BUDGET: nat := 1536
  const SNIPPET_BUDGET: nat := 1024
  const SUMMARY_TRIGGER: nat := 2048
  const PROMPT_LIMIT: nat := 4096
  const LOADED_WINDOW: nat := 6
  const SUMMARIZED_WINDOW: nat := 4

  predicate IsPrefix<T(==)>(a: seq<T>, b: seq<T>) {
    |a| <= |b| && a == b[..|a|]
  }

  predicate IsSuffix<T(==)>(a: seq<T>, b: seq<T>) {
    |a| <= |b| && a == b[|b| - |a|..]
  }
}
