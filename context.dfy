/** The outbound message list `ask` hands to the LLM, and the texts of its system notes. */
module Context {
  import opened Messages

  /** The memory note and the fact note open with the same words. */
  const CONTEXT_LEAD: string := "This following message is relative context "
  const MEMORY_HEADER: string := CONTEXT_LEAD + "for your response:\n\n"
  const FACT_HEADER: string := CONTEXT_LEAD + "searched in Google:\nQuestion:"
  const TIME_HEADER: string := "Passed "
  const TIME_TRAILER: string :=
    " hours since last conversation. You should simulate what you are doing during this period or make corresponding chat responses based on changes in time."

  /** Every message of `s` is a system message. */
  predicate AllSystem(s: seq<Message>) {
    forall i :: 0 <= i < |s| ==> s[i].System?
  }

  /** The persona message built at construction from the prompt and the companion's name. */
  function Persona(prompt: string, name: string): (p: Message)
    ensures p.System?
    ensures IsPrefix(prompt, p.content)
    ensures IsSuffix(name + ": xxx\"", p.content)
  {
    System(prompt + "\nYour name is \"" + name + "\". Do not response with \"" + name + ": xxx\"")
  }

  /** Python's `str()` of a list of strings, each item in single quotes. */
  function ListRepr(items: seq<string>): string {
    "[" + ListItems(items) + "]"
  }

  function ListItems(items: seq<string>): string {
    if items == [] then ""
    else if |items| == 1 then "'" + items[0] + "'"
    else "'" + items[0] + "', " + ListItems(items[1..])
  }

  function MemoryNote(kept: seq<string>): string {
    MEMORY_HEADER + ListRepr(kept)
  }

  function FactNote(question: string, answer: string): string {
    FACT_HEADER + question + "\nAnswer:" + answer
  }

  /** `hours` is the elapsed time since the window's second-to-last message, as printed. */
  function TimeNote(hours: string): string {
    TIME_HEADER + hours + TIME_TRAILER
  }

  /** The system notes `ask` may insert, in the order it appends them: retrieved
      memory when snippets remain, the searched fact when an answer was found, and
      the elapsed time when the window holds two messages and the gap exceeds an hour. */
  function Notes(kept: seq<string>, question: string, answer: string,
                 showGap: bool, hours: string): (notes: seq<Message>)
    ensures |notes| <= 3
    ensures AllSystem(notes)
  {
    (if |kept| > 0 then [System(MemoryNote(kept))] else [])
    + (if answer != "" then [System(FactNote(question, answer))] else [])
    + (if showGap then [System(TimeNote(hours))] else [])
  }

  /** The list built by `ask`: persona, the notes, then the window `w` followed by
      the new user message `m`. */
  function Assemble(persona: Message, kept: seq<string>, question: string, answer: string,
                    gapOverHour: bool, hours: string, w: seq<Message>, m: Message): (msgs: seq<Message>)
    requires persona.System?
    ensures |w| + 2 <= |msgs| <= |w| + 5
    ensures msgs[0] == persona
    ensures IsSuffix(w + [m], msgs)
    ensures AllSystem(msgs[..|msgs| - |w| - 1])
  {
    [persona] + Notes(kept, question, answer, |w| >= 2 && gapOverHour, hours) + w + [m]
  }

  /** The memory, fact and time notes are pairwise different texts. */
  lemma NotesDiffer(kept: seq<string>, question: string, answer: string, hours: string)
    ensures MemoryNote(kept) != FactNote(question, answer)
    ensures MemoryNote(kept) != TimeNote(hours)
    ensures FactNote(question, answer) != TimeNote(hours)
  {
    var mem, fact, time := MemoryNote(kept), FactNote(question, answer), TimeNote(hours);
    assert |CONTEXT_LEAD| == 43 && CONTEXT_LEAD[0] == 'T';
    assert MEMORY_HEADER[0] == 'T' && MEMORY_HEADER[43] == 'f';
    assert FACT_HEADER[0] == 'T' && FACT_HEADER[43] == 's';
    assert mem[0] == 'T' && mem[43] == 'f';
    assert fact[0] == 'T' && fact[43] == 's';
    assert time[0] == 'P';
  }

  /** Each note is present exactly when its condition holds, in the fixed order
      memory, fact, time, and there is no other note. */
  lemma NotesLayout(kept: seq<string>, question: string, answer: string, showGap: bool, hours: string)
    ensures var notes := Notes(kept, question, answer, showGap, hours);
      var memory, fact, time := System(MemoryNote(kept)), System(FactNote(question, answer)), System(TimeNote(hours));
      |notes| == (if |kept| > 0 then 1 else 0) + (if answer != "" then 1 else 0) + (if showGap then 1 else 0) &&
      (memory in notes <==> |kept| > 0) &&
      (fact in notes <==> answer != "") &&
      (time in notes <==> showGap) &&
      (|kept| > 0 ==> notes[0] == memory) &&
      (answer != "" ==> notes[if |kept| > 0 then 1 else 0] == fact) &&
      (showGap ==> notes[|notes| - 1] == time)
  {
    NotesDiffer(kept, question, answer, hours);
    var memory, fact, time := System(MemoryNote(kept)), System(FactNote(question, answer)), System(TimeNote(hours));
    var withMemory := if |kept| > 0 then [memory] else [];
    var withFact := if answer != "" then [fact] else [];
    var withTime := if showGap then [time] else [];
    assert Notes(kept, question, answer, showGap, hours) == withMemory + withFact + withTime;
    assert memory !in withFact && memory !in withTime;
    assert fact !in withMemory && fact !in withTime;
    assert time !in withMemory && time !in withFact;
  }

  /** In the assembled list, between the persona and the window, the memory note is
      present iff snippets remain, the fact note iff an answer was found, and the time
      note iff the window holds two messages and the gap flag is set, in that order;
      nothing else sits there. */
  lemma AssembledNotes(persona: Message, kept: seq<string>, question: string, answer: string,
                       gapOverHour: bool, hours: string, w: seq<Message>, m: Message)
    requires persona.System?
    ensures var msgs := Assemble(persona, kept, question, answer, gapOverHour, hours, w, m);
      var notes := msgs[1..|msgs| - |w| - 1];
      var memory, fact, time := System(MemoryNote(kept)), System(FactNote(question, answer)), System(TimeNote(hours));
      |notes| == (if |kept| > 0 then 1 else 0) + (if answer != "" then 1 else 0) + (if |w| >= 2 && gapOverHour then 1 else 0) &&
      (memory in notes <==> |kept| > 0) &&
      (fact in notes <==> answer != "") &&
      (time in notes <==> |w| >= 2 && gapOverHour) &&
      (|kept| > 0 ==> notes[0] == memory) &&
      (answer != "" ==> notes[if |kept| > 0 then 1 else 0] == fact) &&
      (|w| >= 2 && gapOverHour ==> notes[|notes| - 1] == time)
  {
    var showGap := |w| >= 2 && gapOverHour;
    NotesLayout(kept, question, answer, showGap, hours);
    var msgs := Assemble(persona, kept, question, answer, gapOverHour, hours, w, m);
    var notes := Notes(kept, question, answer, showGap, hours);
    assert msgs == [persona] + notes + w + [m];
    assert msgs[1..|msgs| - |w| - 1] == notes by {
      assert |msgs| - |w| - 1 == 1 + |notes|;
      forall i | 0 <= i < |notes| ensures msgs[1 + i] == notes[i] {}
    }
  }
}
