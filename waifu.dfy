/** The companion object: its short-term window, its full history and the calls it
    makes to the long-term memory store. */
module Companion {
  import opened Messages
  import opened Trimming
  import opened Documents
  import opened Retrieval
  import opened Context

  class Waifu {
    const name: string
    /** The persona message that opens every outbound list. */
    const persona: Message
    /** The LLM client's token counters and its non-streaming summary chain. */
    const countMessages: MessageCounter
    const countText: TextCounter
    const summarizer: seq<string> -> string

    /** `chat_memory.messages`: the short-term window sent with each request. */
    var chat: seq<Message>
    /** `history.messages`: every turn of the conversation. */
    var history: seq<Message>
    /** Every call made to `brain.store_memory`, oldest first. */
    var stored: seq<StoreCall>

    /** The window is always the most recent part of the history. */
    predicate Valid()
      reads this
    {
      persona.System? && IsSuffix(chat, history)
    }

    /** The window a new input `m` is sent with: summarised down to four messages when
        input and window reach the window budget, then cut pair by pair until within it. */
    function InputWindow(m: Message, w: seq<Message>): Option<seq<Message>> {
      FitWindow(countMessages, m, if OverWindow(countMessages, m, w) then DropPairs(w, SUMMARIZED_WINDOW) else w)
    }

    /** What `summarize_memory` hands to the memory store for window `w`. */
    function SummaryOf(w: seq<Message>): StoreCall {
      Summary(summarizer(SummaryDocuments(w, name)))
    }

    /** The summary `ask` stores before trimming when input and window `w` reach the window budget. */
    function EarlySummary(m: Message, w: seq<Message>): seq<StoreCall> {
      if OverWindow(countMessages, m, w) then [SummaryOf(w)] else []
    }

    /** The outbound list `ask` builds for `text` from window `w`, when the window fits. */
    function Outbound(text: string, retrieved: seq<string>, question: string, answer: string,
                      gapOverHour: bool, hours: string, w: seq<Message>): seq<Message>
      requires persona.System? && InputWindow(Human(text), w).Some?
    {
      Assemble(persona, CappedSnippets(retrieved, countText), question, answer, gapOverHour, hours,
               InputWindow(Human(text), w).value, Human(text))
    }

    constructor (prompt: string, name: string, countMessages: MessageCounter, countText: TextCounter,
                 summarizer: seq<string> -> string, saved: Option<seq<Message>>)
      ensures Valid()
      ensures this.name == name && persona == Persona(prompt, name)
      ensures this.countMessages == countMessages && this.countText == countText && this.summarizer == summarizer
      ensures saved.Some? ==> history == saved.value && chat == DropPairs(saved.value, LOADED_WINDOW)
      ensures saved.None? ==> history == [] && chat == []
      ensures stored == []
    {
      this.name := name;
      this.persona := Persona(prompt, name);
      this.countMessages := countMessages;
      this.countText := countText;
      this.summarizer := summarizer;
      chat := [];
      history := [];
      stored := [];
      new;
      LoadMemory(saved);
    }

    /** Seeds both lists from a decoded saved log (None: no saved file) and keeps at
        most six messages in the window, dropping pairs from its front. */
    method LoadMemory(saved: Option<seq<Message>>)
      requires Valid()
      modifies this`chat, this`history
      ensures Valid()
      ensures saved.None? ==> chat == old(chat) && history == old(history)
      ensures saved.Some? ==> history == saved.value && chat == DropPairs(saved.value, LOADED_WINDOW)
    {
      if saved.Some? {
        chat := saved.value;
        history := saved.value;
        while |chat| > LOADED_WINDOW
          invariant history == saved.value
          invariant IsSuffix(chat, history)
          invariant DropPairs(chat, LOADED_WINDOW) == DropPairs(history, LOADED_WINDOW)
          decreases |chat|
        {
          assert chat[1..][1..] == chat[2..];
          assert DropPairs(chat, LOADED_WINDOW) == DropPairs(chat[2..], LOADED_WINDOW);
          assert chat[2..] == history[|history| - |chat| + 2..];
          chat := chat[1..];
          chat := chat[1..];
        }
      }
    }

    /** Drops the oldest pair of the window. With fewer than two messages the second
        or first `pop(0)` fails, after emptying the window. */
    method CutMemory() returns (ok: bool)
      requires Valid()
      modifies this`chat
      ensures Valid()
      ensures ok <==> |old(chat)| >= 2
      ensures ok ==> chat == old(chat)[2..]
      ensures !ok ==> chat == []
    {
      var i := 0;
      while i < 2
        invariant 0 <= i <= 2 && i <= |old(chat)|
        invariant chat == old(chat)[i..]
        invariant Valid()
      {
        if chat == [] {
          return false;
        }
        chat := chat[1..];
        i := i + 1;
      }
      return true;
    }

    /** Hands one summary text to the long-term memory store. */
    method SaveMemoryDataset(summary: string)
      modifies this`stored
      ensures stored == old(stored) + [Summary(summary)]
    {
      stored := stored + [Summary(summary)];
    }

    /** Splits a data set at blank lines and hands the chunks to the memory store. */
    method ImportMemoryDataset(text: string)
      modifies this`stored
      ensures stored == old(stored) + [Chunks(SplitBlankLines(text))]
    {
      stored := stored + [Chunks(SplitBlankLines(text))];
    }

    /** Cuts pairs from the front while the window holds more than four messages. */
    method TrimAfterSummary()
      requires Valid()
      modifies this`chat
      ensures Valid()
      ensures chat == DropPairs(old(chat), SUMMARIZED_WINDOW)
    {
      while |chat| > SUMMARIZED_WINDOW
        invariant Valid()
        invariant DropPairs(chat, SUMMARIZED_WINDOW) == DropPairs(old(chat), SUMMARIZED_WINDOW)
        decreases |chat|
      {
        ghost var before := chat;
        var ok := CutMemory();
        assert ok && chat == before[2..];
      }
      assert DropPairs(chat, SUMMARIZED_WINDOW) == chat;
    }

    /** Summarises the whole window into the memory store, then keeps at most four
        of its messages, dropping pairs from the front. */
    method SummarizeMemory()
      requires Valid()
      modifies this`chat, this`stored
      ensures Valid()
      ensures chat == DropPairs(old(chat), SUMMARIZED_WINDOW)
      ensures stored == old(stored) + [SummaryOf(old(chat))]
    {
      var summary := summarizer(SummaryDocuments(chat, name));
      assert Summary(summary) == SummaryOf(chat);
      TrimAfterSummary();
      SaveMemoryDataset(summary);
    }

    /** The second and third checks of `ask`: summarise once if input and window reach
        the window budget, then cut pairs while they still do. */
    method FitInput(m: Message) returns (ok: bool)
      requires Valid()
      modifies this`chat, this`stored
      ensures Valid()
      ensures ok <==> InputWindow(m, old(chat)).Some?
      ensures ok ==> chat == InputWindow(m, old(chat)).value
      ensures !ok ==> chat == []
      ensures stored == old(stored) + EarlySummary(m, old(chat))
    {
      ghost var early := EarlySummary(m, chat);
      if OverWindow(countMessages, m, chat) {
        SummarizeMemory();
      }
      while OverWindow(countMessages, m, chat)
        invariant Valid() && stored == old(stored) + early
        invariant FitWindow(countMessages, m, chat) == InputWindow(m, old(chat))
        decreases |chat|
      {
        var cut := CutMemory();
        if !cut {
          return false;
        }
      }
      return true;
    }

    /** The final loop of `ask`: it cuts the window while the ASSEMBLED list exceeds
        the prompt limit, but the cuts never change that list, so once entered it only
        ends when a pop fails on the emptied window. */
    method CutWhileOverLimit(messages: seq<Message>) returns (ok: bool)
      requires Valid()
      modifies this`chat
      ensures Valid()
      ensures ok <==> countMessages(messages) <= PROMPT_LIMIT
      ensures ok ==> chat == old(chat)
      ensures !ok ==> chat == []
    {
      while countMessages(messages) > PROMPT_LIMIT
        invariant Valid()
        invariant countMessages(messages) > PROMPT_LIMIT || chat == old(chat)
        decreases |chat|
      {
        var cut := CutMemory();
        if !cut {
          return false;
        }
      }
      return true;
    }

    /** The end of `ask`: records the user message in both lists, runs the prompt-limit
        loop over the assembled `messages`, and summarises again when the window has
        reached the summary trigger. */
    method Send(m: Message, messages: seq<Message>) returns (ok: bool)
      requires Valid()
      modifies this`chat, this`history, this`stored
      ensures Valid()
      ensures history == old(history) + [m]
      ensures ok <==> countMessages(messages) <= PROMPT_LIMIT
      ensures !ok ==> chat == [] && stored == old(stored)
      ensures ok && countMessages(old(chat) + [m]) >= SUMMARY_TRIGGER ==>
        chat == DropPairs(old(chat) + [m], SUMMARIZED_WINDOW) && stored == old(stored) + [SummaryOf(old(chat) + [m])]
      ensures ok && countMessages(old(chat) + [m]) < SUMMARY_TRIGGER ==>
        chat == old(chat) + [m] && stored == old(stored)
    {
      chat := chat + [m];
      history := history + [m];
      assert IsSuffix(chat, history) by {
        assert history[|history| - |chat|..] == old(history)[|old(history)| - |old(chat)|..] + [m];
      }
      ok := CutWhileOverLimit(messages);
      if ok && countMessages(chat) >= SUMMARY_TRIGGER {
        SummarizeMemory();
      }
    }

    /** The part of `ask` after the window fits: caps the retrieved snippets, assembles
        the outbound list over the current window and hands it to `Send`. `w0` is the
        window before fitting, of which the current window is the fitted one. */
    method Dispatch(text: string, retrieved: seq<string>, question: string, answer: string,
                    gapOverHour: bool, hours: string, ghost w0: seq<Message>)
      returns (r: Result<seq<Message>, AskError>)
      requires Valid() && InputWindow(Human(text), w0) == Some(chat)
      modifies this`chat, this`history, this`stored
      ensures Valid()
      ensures history == old(history) + [Human(text)]
      ensures var msgs := Outbound(text, retrieved, question, answer, gapOverHour, hours, w0);
        (countMessages(msgs) > PROMPT_LIMIT ==> r == Err(PopFromEmpty) && chat == [] && stored == old(stored)) &&
        (countMessages(msgs) <= PROMPT_LIMIT ==> r == Ok(msgs))
      ensures r.Ok? ==>
        var sent := InputWindow(Human(text), w0).value + [Human(text)];
        if countMessages(sent) >= SUMMARY_TRIGGER
        then chat == DropPairs(sent, SUMMARIZED_WINDOW) && stored == old(stored) + [SummaryOf(sent)]
        else chat == sent && stored == old(stored)
    {
      var m := Human(text);
      var kept := CapSnippets(retrieved, countText);
      var messages := Assemble(persona, kept, question, answer, gapOverHour, hours, chat, m);
      var within := Send(m, messages);
      if !within {
        return Err(PopFromEmpty);
      }
      return Ok(messages);
    }

    /** One user turn: checks, trims, assembles the outbound list and records the input.
        `retrieved` is what `brain.extract_memory` returns, (`question`, `answer`) what
        the fact search returns, `gapOverHour` whether more than an hour passed since the
        window's second-to-last message and `hours` that period as printed. */
    method Ask(text: string, retrieved: seq<string>, question: string, answer: string,
               gapOverHour: bool, hours: string) returns (r: Result<seq<Message>, AskError>)
      requires Valid()
      modifies this`chat, this`history, this`stored
      ensures Valid()
      ensures IsPrefix(old(history), history)
      ensures r == Err(TextTooLong) <==> countMessages([Human(text)]) >= INPUT_LIMIT
      ensures r == Err(TextTooLong) ==> chat == old(chat) && history == old(history) && stored == old(stored)
      ensures r == Err(PopFromEmpty) ==> chat == []
      ensures countMessages([Human(text)]) < INPUT_LIMIT && InputWindow(Human(text), old(chat)).None? ==>
        r == Err(PopFromEmpty) && history == old(history) && stored == old(stored) + EarlySummary(Human(text), old(chat))
      ensures countMessages([Human(text)]) < INPUT_LIMIT && InputWindow(Human(text), old(chat)).Some? ==>
        history == old(history) + [Human(text)] &&
        var msgs := Outbound(text, retrieved, question, answer, gapOverHour, hours, old(chat));
        (countMessages(msgs) > PROMPT_LIMIT ==>
           r == Err(PopFromEmpty) && stored == old(stored) + EarlySummary(Human(text), old(chat))) &&
        (countMessages(msgs) <= PROMPT_LIMIT ==> r == Ok(msgs))
      ensures r.Ok? ==>
        var sent := InputWindow(Human(text), old(chat)).value + [Human(text)];
        var early := old(stored) + EarlySummary(Human(text), old(chat));
        if countMessages(sent) >= SUMMARY_TRIGGER
        then chat == DropPairs(sent, SUMMARIZED_WINDOW) && stored == early + [SummaryOf(sent)]
        else chat == sent && stored == early
    {
      var m := Human(text);
      if countMessages([m]) >= INPUT_LIMIT {
        return Err(TextTooLong);
      }
      ghost var w0 := chat;
      ghost var early := stored + EarlySummary(m, w0);
      var fits := FitInput(m);
      assert stored == early;
      if !fits {
        assert InputWindow(m, w0).None?;
        return Err(PopFromEmpty);
      }
      assert chat == InputWindow(m, w0).value;
      r := Dispatch(text, retrieved, question, answer, gapOverHour, hours, w0);
    }

    /** Records the companion's reply in both the window and the history. */
    method FinishAsk(reply: string)
      requires Valid()
      modifies this`chat, this`history
      ensures Valid()
      ensures chat == old(chat) + [AI(reply)]
      ensures history == old(history) + [AI(reply)]
    {
      chat := chat + [AI(reply)];
      history := history + [AI(reply)];
    }
  }
}
