/** Pure text projections: the labelled lines handed to the summariser and the
    blank-line chunking of an imported memory data set. */
module Documents {
  import opened Messages

  /** Label that marks a user line in a summary document. */
  const USER_LABEL: string := "用户:"

  /** The two-character separator between chunks of an imported data set. */
  const BLANK_LINE: string := "\n\n"

  predicate IsDialogue(t: Message) {
    t.Human? || t.AI?
  }

  /** The user and companion turns of a window, in window order. */
  function Dialogue(w: seq<Message>): (d: seq<Message>)
    ensures |d| <= |w|
    ensures forall i :: 0 <= i < |d| ==> IsDialogue(d[i])
    ensures (forall i :: 0 <= i < |w| ==> IsDialogue(w[i])) ==> d == w
  {
    if w == [] then []
    else if IsDialogue(w[0]) then [w[0]] + Dialogue(w[1..])
    else Dialogue(w[1..])
  }

  /** Dialogue is a filter: it keeps a single turn iff it is a user or companion
      turn, and distributes over concatenation, so every such turn of the window is
      kept, in window order. */
  lemma {:induction false} DialogueIsFilter(a: seq<Message>, b: seq<Message>, t: Message)
    ensures Dialogue([t]) == if IsDialogue(t) then [t] else []
    ensures Dialogue(a + b) == Dialogue(a) + Dialogue(b)
    decreases |a|
  {
    assert [t][1..] == [];
    if a == [] {
      assert a + b == b;
    } else {
      assert (a + b)[1..] == a[1..] + b;
      DialogueIsFilter(a[1..], b, t);
    }
  }

  /** The document text of one user or companion turn; `name` is the companion's name. */
  function Label(t: Message, name: string): string
    requires IsDialogue(t)
  {
    if t.Human? then USER_LABEL + t.content else name + ":" + t.content
  }

  /** The documents built by the loop over the window: one per user or companion
      turn, system turns skipped. */
  function SummaryDocuments(w: seq<Message>, name: string): (docs: seq<string>)
    ensures |docs| <= |w|
  {
    if w == [] then []
    else match w[0]
      case Human(c) => [USER_LABEL + c] + SummaryDocuments(w[1..], name)
      case AI(c) => [name + ":" + c] + SummaryDocuments(w[1..], name)
      case System(_) => SummaryDocuments(w[1..], name)
  }

  /** The documents are exactly the labelled dialogue turns, in order. */
  lemma {:induction false} SummaryDocumentsLabelDialogue(w: seq<Message>, name: string)
    ensures |SummaryDocuments(w, name)| == |Dialogue(w)|
    ensures forall i :: 0 <= i < |Dialogue(w)| ==>
      SummaryDocuments(w, name)[i] == Label(Dialogue(w)[i], name)
  {
    if w != [] {
      var d, docs := Dialogue(w[1..]), SummaryDocuments(w[1..], name);
      SummaryDocumentsLabelDialogue(w[1..], name);
      var kept := if IsDialogue(w[0]) then [w[0]] else [];
      var labelled := if IsDialogue(w[0]) then [Label(w[0], name)] else [];
      assert Dialogue(w) == kept + d;
      assert SummaryDocuments(w, name) == labelled + docs;
      forall i | 0 <= i < |kept + d| ensures (labelled + docs)[i] == Label((kept + d)[i], name) {
        if i >= |kept| {
          assert (kept + d)[i] == d[i - |kept|];
        }
      }
    }
  }

  /** Whether `s` holds the separator starting at position `i`. */
  predicate SeparatorAt(s: string, i: int) {
    0 <= i && i + 2 <= |s| && s[i..i + 2] == BLANK_LINE
  }

  /** Python's `text.split('\n\n')`: cut at each leftmost non-overlapping separator. */
  function SplitBlankLines(s: string): (chunks: seq<string>)
    ensures |chunks| >= 1
    decreases |s|
  {
    if |s| < 2 then [s]
    else if s[..2] == BLANK_LINE then [""] + SplitBlankLines(s[2..])
    else
      var rest := SplitBlankLines(s[1..]);
      [[s[0]] + rest[0]] + rest[1..]
  }

  /** Python's `'\n\n'.join(chunks)`. */
  function JoinBlankLines(chunks: seq<string>): string
    requires |chunks| >= 1
  {
    if |chunks| == 1 then chunks[0] else chunks[0] + BLANK_LINE + JoinBlankLines(chunks[1..])
  }

  /** Text put in front of the first chunk comes out in front of the joined text. */
  lemma JoinExtendsFirstChunk(c: string, head: string, rest: seq<string>)
    ensures JoinBlankLines([c + head] + rest) == c + JoinBlankLines([head] + rest)
  {
    assert ([c + head] + rest)[1..] == rest == ([head] + rest)[1..];
    if rest != [] {
      var tail := BLANK_LINE + JoinBlankLines(rest);
      assert (c + head) + tail == c + (head + tail);
    }
  }

  /** Joining the chunks back with the separator restores the imported text. */
  lemma {:induction false} JoinSplitBlankLines(s: string)
    ensures JoinBlankLines(SplitBlankLines(s)) == s
    decreases |s|
  {
    if |s| < 2 {
    } else if s[..2] == BLANK_LINE {
      var rest := SplitBlankLines(s[2..]);
      JoinSplitBlankLines(s[2..]);
      assert ([""] + rest)[1..] == rest;
      assert s == s[..2] + s[2..];
    } else {
      var rest := SplitBlankLines(s[1..]);
      JoinSplitBlankLines(s[1..]);
      JoinExtendsFirstChunk([s[0]], rest[0], rest[1..]);
      assert [rest[0]] + rest[1..] == rest;
      assert s == [s[0]] + s[1..];
    }
  }

  /** Whether chunk `c` ends with a newline. */
  predicate EndsWithNewline(c: string) {
    c != "" && c[|c| - 1] == '\n'
  }

  /** Splitting has cut at the leftmost separator of every run of newlines: no chunk
      but the last ends with a newline. */
  lemma {:induction false} ChunksEndWithoutNewline(s: string)
    ensures forall j :: 0 <= j < |SplitBlankLines(s)| - 1 ==> !EndsWithNewline(SplitBlankLines(s)[j])
    decreases |s|
  {
    var chunks := SplitBlankLines(s);
    if |s| < 2 {
    } else if s[..2] == BLANK_LINE {
      var rest := SplitBlankLines(s[2..]);
      ChunksEndWithoutNewline(s[2..]);
      assert chunks == [""] + rest;
      forall j | 1 <= j < |chunks| - 1 ensures !EndsWithNewline(chunks[j]) {
        assert chunks[j] == rest[j - 1];
      }
    } else {
      var rest := SplitBlankLines(s[1..]);
      ChunksEndWithoutNewline(s[1..]);
      var head := [s[0]] + rest[0];
      assert chunks == [head] + rest[1..];
      if |rest| > 1 {
        assert !EndsWithNewline(rest[0]);
        if rest[0] == "" {
          // an empty first chunk is followed by more only when the text opens with a separator
          var t := s[1..];
          assert |t| >= 2 && t[..2] == BLANK_LINE;
          assert s[1] == '\n' && s[..2] != BLANK_LINE;
          assert head == [s[0]] && s[0] != '\n';
        } else {
          assert head[|head| - 1] == rest[0][|rest[0]| - 1];
        }
      }
      forall j | 1 <= j < |chunks| - 1 ensures !EndsWithNewline(chunks[j]) {
        assert chunks[j] == rest[j];
      }
    }
  }

  /** The first chunk is a prefix of the text. */
  lemma {:induction false} FirstChunkIsPrefix(s: string)
    ensures IsPrefix(SplitBlankLines(s)[0], s)
    decreases |s|
  {
    if |s| >= 2 && s[..2] != BLANK_LINE {
      FirstChunkIsPrefix(s[1..]);
    }
  }

  /** No chunk contains the separator. */
  lemma {:induction false} ChunksHoldNoSeparator(s: string)
    ensures forall c, i :: c in SplitBlankLines(s) ==> !SeparatorAt(c, i)
    decreases |s|
  {
    if |s| < 2 {
    } else if s[..2] == BLANK_LINE {
      ChunksHoldNoSeparator(s[2..]);
    } else {
      var rest := SplitBlankLines(s[1..]);
      ChunksHoldNoSeparator(s[1..]);
      FirstChunkIsPrefix(s[1..]);
      var head := [s[0]] + rest[0];
      forall i | 0 <= i && i + 2 <= |head| ensures !SeparatorAt(head, i) {
        if i == 0 {
          assert head[..2] == s[..2];
        } else {
          assert head[i..i + 2] == rest[0][i - 1..i + 1];
          assert !SeparatorAt(rest[0], i - 1);
        }
      }
    }
  }
}
