/** The question-answering page: each run turns the chat history, the data
    context and the new question into one `[INST] ... Answer:` prompt, then
    records the question in the history. */
module ChatPrompt {
  import opened Util

  /** One entry of `chat_history`: a `{"role": ..., "content": ...}` dict. */
  datatype ChatMessage = ChatMessage(role: string, content: string)

  // ---------------------------------------------------------------------
  // Lines
  // ---------------------------------------------------------------------

  /** `"\n".join(lines)`. */
  function JoinLines(lines: seq<string>): string
  {
    if lines == [] then []
    else if |lines| == 1 then lines[0]
    else JoinLines(lines[..|lines| - 1]) + "\n" + lines[|lines| - 1]
  }

  /** `s.split("\n")`: the pieces between line breaks, at least one. */
  function SplitLines(s: string): (lines: seq<string>)
    ensures |lines| >= 1
  {
    if s == [] then [[]] else PushChar(SplitLines(s[..|s| - 1]), s[|s| - 1])
  }

  /** One more character: a line break starts a new piece, anything else
      extends the last one. */
  function PushChar(lines: seq<string>, c: char): (r: seq<string>)
    requires |lines| >= 1
    ensures |r| >= 1
  {
    if c == '\n' then lines + [[]] else lines[..|lines| - 1] + [lines[|lines| - 1] + [c]]
  }

  lemma PushCharAppend(front: seq<string>, lines: seq<string>, c: char)
    requires |lines| >= 1
    ensures PushChar(front + lines, c) == front + PushChar(lines, c)
  {
    var all := front + lines;
    assert all[|all| - 1] == lines[|lines| - 1];
    assert all[..|all| - 1] == front + lines[..|lines| - 1];
  }

  /** Splitting a text that has no line break gives the text. */
  lemma {:induction false} SplitOneLine(s: string)
    requires '\n' !in s
    ensures SplitLines(s) == [s]
  {
    if s != [] {
      SplitOneLine(s[..|s| - 1]);
      assert s[..|s| - 1] + [s[|s| - 1]] == s;
    }
  }

  /** A line break between two texts splits them apart. */
  lemma {:induction false} SplitAround(a: string, b: string)
    ensures SplitLines(a + "\n" + b) == SplitLines(a) + SplitLines(b)
    decreases |b|
  {
    var s := a + "\n" + b;
    if b == [] {
      assert s[..|s| - 1] == a;
    } else {
      var init, c := b[..|b| - 1], b[|b| - 1];
      assert SplitLines(s) == PushChar(SplitLines(a + "\n" + init), c) by {
        assert s[..|s| - 1] == a + "\n" + init;
        assert s[|s| - 1] == c;
      }
      SplitAround(a, init);
      PushCharAppend(SplitLines(a), SplitLines(init), c);
    }
  }

  /** Joining lines without line breaks and splitting again gives the lines
      back, as long as there is at least one. */
  lemma {:induction false} SplitJoin(lines: seq<string>)
    requires lines != []
    requires forall i :: 0 <= i < |lines| ==> '\n' !in lines[i]
    ensures SplitLines(JoinLines(lines)) == lines
  {
    var last := lines[|lines| - 1];
    SplitOneLine(last);
    if |lines| > 1 {
      var init := lines[..|lines| - 1];
      SplitJoin(init);
      SplitAround(JoinLines(init), last);
      assert init + [last] == lines;
    }
  }

  /** A new last line is joined after a line break. */
  lemma JoinLinesSnoc(lines: seq<string>, x: string)
    requires lines != []
    ensures JoinLines(lines + [x]) == JoinLines(lines) + "\n" + x
  {
    assert (lines + [x])[..|lines|] == lines;
  }

  /** A character added to the last line ends up at the end of the text. */
  lemma JoinLinesExtendLast(front: seq<string>, last: string, c: char)
    ensures JoinLines(front + [last + [c]]) == JoinLines(front + [last]) + [c]
  {
    if front == [] {
      assert front + [last + [c]] == [last + [c]];
      assert front + [last] == [last];
    } else {
      var j := JoinLines(front);
      JoinLinesSnoc(front, last + [c]);
      JoinLinesSnoc(front, last);
      assert j + "\n" + (last + [c]) == (j + "\n" + last) + [c];
    }
  }

  /** Joining after one more character adds that character to the text. */
  lemma JoinPushChar(lines: seq<string>, c: char)
    requires lines != []
    ensures JoinLines(PushChar(lines, c)) == JoinLines(lines) + [c]
  {
    if c == '\n' {
      JoinLinesSnoc(lines, []);
    } else {
      var front, last := lines[..|lines| - 1], lines[|lines| - 1];
      assert front + [last] == lines;
      JoinLinesExtendLast(front, last, c);
    }
  }

  /** Splitting a text and joining the pieces gives the text back. */
  lemma {:induction false} JoinSplit(s: string)
    ensures JoinLines(SplitLines(s)) == s
  {
    if s != [] {
      var init, c := s[..|s| - 1], s[|s| - 1];
      var ls := SplitLines(init);
      assert SplitLines(s) == PushChar(ls, c);
      JoinSplit(init);
      JoinPushChar(ls, c);
      assert init + [c] == s;
    }
  }

  // ---------------------------------------------------------------------
  // The history block
  // ---------------------------------------------------------------------

  /** `f"{msg['role']}: {msg['content']}"`. */
  function RenderMessage(m: ChatMessage): string
  {
    m.role + ": " + m.content
  }

  function RenderedLines(history: seq<ChatMessage>): (lines: seq<string>)
    ensures |lines| == |history|
    ensures forall i :: 0 <= i < |history| ==> lines[i] == RenderMessage(history[i])
  {
    if history == [] then [] else RenderedLines(history[..|history| - 1]) + [RenderMessage(history[|history| - 1])]
  }

  /** `history_str`: one `role: content` line per entry, in list order. */
  function HistoryText(history: seq<ChatMessage>): string
  {
    JoinLines(RenderedLines(history))
  }

  /** An entry added to the history becomes one more line at the end of the
      history text; the empty history gives the empty text. */
  lemma HistoryTextAppend(history: seq<ChatMessage>, m: ChatMessage)
    ensures HistoryText([]) == []
    ensures HistoryText(history + [m]) ==
      if history == [] then RenderMessage(m) else HistoryText(history) + "\n" + RenderMessage(m)
  {
    var lines := RenderedLines(history + [m]);
    assert lines[..|lines| - 1] == RenderedLines(history);
  }

  lemma RenderedOneLine(m: ChatMessage)
    requires '\n' !in m.role && '\n' !in m.content
    ensures '\n' !in RenderMessage(m)
  {
    var sep := ": ";
    assert '\n' !in sep;
    assert RenderMessage(m) == m.role + sep + m.content;
  }

  /** When no entry contains a line break, the history text splits back into
      exactly one line per entry. */
  lemma HistoryTextLines(history: seq<ChatMessage>)
    requires history != []
    requires forall i :: 0 <= i < |history| ==> '\n' !in history[i].role && '\n' !in history[i].content
    ensures SplitLines(HistoryText(history)) == RenderedLines(history)
  {
    var lines := RenderedLines(history);
    forall i | 0 <= i < |lines| ensures '\n' !in lines[i] {
      RenderedOneLine(history[i]);
    }
    SplitJoin(lines);
  }

  // ---------------------------------------------------------------------
  // Stripping
  // ---------------------------------------------------------------------

  /** The characters Python's `str.strip()` removes. */
  predicate IsSpace(c: char)
  {
    ('\t' <= c <= '\r') || ('\U{1c}' <= c <= ' ') || c == '\U{85}' || c == '\U{a0}'
    || c == '\U{1680}' || ('\U{2000}' <= c <= '\U{200a}') || c == '\U{2028}' || c == '\U{2029}'
    || c == '\U{202f}' || c == '\U{205f}' || c == '\U{3000}'
  }

  predicate AllSpace(s: string)
  {
    forall i :: 0 <= i < |s| ==> IsSpace(s[i])
  }

  /** A white-space character followed by white space up to `n` is white space up to `n`. */
  lemma SpaceBefore(s: string, n: nat)
    requires 0 < n <= |s| && IsSpace(s[0]) && AllSpace(s[1..][..n - 1])
    ensures AllSpace(s[..n])
  {
    assert s[..n] == [s[0]] + s[1..][..n - 1];
  }

  /** How many white-space characters the text starts with. */
  function LeadingSpace(s: string): (n: nat)
    ensures n <= |s| && AllSpace(s[..n])
    ensures n == |s| || !IsSpace(s[n])
  {
    if s != [] && IsSpace(s[0]) then
      var m := LeadingSpace(s[1..]);
      SpaceBefore(s, m + 1);
      m + 1
    else 0
  }

  /** `lstrip()`: the suffix left after the white space at the start. */
  function StripLeading(s: string): (r: string)
    ensures r == [] || !IsSpace(r[0])
    ensures |r| <= |s| && r == s[|s| - |r|..]
    ensures AllSpace(s[..|s| - |r|])
  {
    s[LeadingSpace(s)..]
  }

  /** `rstrip()`: the prefix left before the white space at the end. */
  function StripTrailing(s: string): (r: string)
    ensures r == [] || !IsSpace(r[|r| - 1])
    ensures |r| <= |s| && r == s[..|r|]
    ensures AllSpace(s[|r|..])
  {
    if s != [] && IsSpace(s[|s| - 1]) then
      var r := StripTrailing(s[..|s| - 1]);
      assert s[|r|..] == s[..|s| - 1][|r|..] + [s[|s| - 1]];
      r
    else s
  }

  /** `s.strip()`: the part of the text between the white space at its start
      and the white space at its end. */
  function Strip(s: string): (r: string)
    ensures r == [] || (!IsSpace(r[0]) && !IsSpace(r[|r| - 1]))
    ensures r == [] <==> AllSpace(s)
  {
    var t := StripLeading(s);
    StripBounds(s, t, StripTrailing(t));
    StripTrailing(t)
  }

  /** Where the two halves of `strip()` cut the text. */
  lemma StripBounds(s: string, t: string, r: string)
    requires |t| <= |s| && t == s[|s| - |t|..] && AllSpace(s[..|s| - |t|]) && (t == [] || !IsSpace(t[0]))
    requires |r| <= |t| && r == t[..|r|] && AllSpace(t[|r|..]) && (r == [] || !IsSpace(r[|r| - 1]))
    ensures r == [] || (!IsSpace(r[0]) && !IsSpace(r[|r| - 1]))
    ensures r == [] <==> AllSpace(s)
    ensures var i := |s| - |t|; s[i..i + |r|] == r && AllSpace(s[..i]) && AllSpace(s[i + |r|..])
  {
    var i := |s| - |t|;
    SuffixSlices(s, i, |r|);
    if r == [] {
      assert t[|r|..] == t;
      assert s[..i] == s;
    } else {
      assert s[i] == r[0];
    }
  }

  /** The first `n` elements of the suffix from `i`, and what follows them. */
  lemma SuffixSlices<T>(s: seq<T>, i: nat, n: nat)
    requires i + n <= |s|
    ensures s[i..][..n] == s[i..i + n] && s[i..][n..] == s[i + n..]
  {
  }

  /** Stripping removes exactly the white space around a text that starts
      and ends with something else. */
  lemma StripFramed(before: string, core: string, after: string)
    requires AllSpace(before) && AllSpace(after)
    requires core != [] && !IsSpace(core[0]) && !IsSpace(core[|core| - 1])
    ensures Strip(before + core + after) == core
  {
    LeadingSpaces(before, core + after);
    assert before + core + after == before + (core + after);
    TrailingSpaces(core, after);
  }

  lemma {:induction false} LeadingSpaces(before: string, rest: string)
    requires AllSpace(before) && rest != [] && !IsSpace(rest[0])
    ensures StripLeading(before + rest) == rest
  {
    if before != [] {
      assert (before + rest)[1..] == before[1..] + rest;
      LeadingSpaces(before[1..], rest);
    } else {
      assert before + rest == rest;
    }
  }

  lemma {:induction false} TrailingSpaces(rest: string, after: string)
    requires AllSpace(after) && rest != [] && !IsSpace(rest[|rest| - 1])
    ensures StripTrailing(rest + after) == rest
    decreases |after|
  {
    if after != [] {
      var s := rest + after;
      assert s[..|s| - 1] == rest + after[..|after| - 1];
      TrailingSpaces(rest, after[..|after| - 1]);
    } else {
      assert rest + after == rest;
    }
  }

  // ---------------------------------------------------------------------
  // The prompt
  // ---------------------------------------------------------------------

  /** The instructions between `[INST]` and the history block. */
  const Instructions: string :=
    "You are a helpful AI chat assistant. Answer the user's question based on the provided\n"
    + "chat history and the context data from datas provided.\n\n"
    + "Use the data in the <context> section to inform your answer about customer reviews or sentiments\n"
    + "if the question relates to it. If the question is general and not answerable from the context\n"
    + "or chat history, answer naturally. Do not explicitly mention \"based on the context\" unless necessary for clarity."

  /** Everything before the history text. */
  const PromptHead: string := "[INST]\n" + Instructions + "\n\n<chat_history>\n"

  /** The tags between the history text and the context. */
  const HistoryToContext: string := "\n</chat_history>\n\n<context>\n"

  /** The tags between the context and the question. */
  const ContextToQuestion: string := "\n</context>\n\n<question>\n"

  /** What follows the question. */
  const PromptEnd: string := "\n</question>\n[/INST]\n\nAnswer:"

  /** Everything after the history text. */
  function PromptTail(context: string, question: string): string
  {
    HistoryToContext + context + ContextToQuestion + question + PromptEnd
  }

  /** The template with its three slots filled, without the line breaks that
      open and close the literal. */
  function Framed(history: string, context: string, question: string): string
  {
    PromptHead + history + PromptTail(context, question)
  }

  lemma HeadOpens()
    ensures |PromptHead| >= 6 && PromptHead[..6] == "[INST]"
  {
    var open := "[INST]\n";
    assert PromptHead == open + (Instructions + "\n\n<chat_history>\n");
    assert open[..6] == "[INST]";
  }

  lemma TailCloses(context: string, question: string)
    ensures var t := PromptTail(context, question); |t| >= 7 && t[|t| - 7..] == "Answer:"
  {
    var front := HistoryToContext + context + ContextToQuestion + question;
    assert PromptTail(context, question) == front + PromptEnd;
    assert PromptEnd[|PromptEnd| - 7..] == "Answer:";
  }

  /** What a text put between a head and a tail starts and ends with. */
  lemma Between(head: string, middle: string, tail: string)
    requires |head| >= 6 && |tail| >= 7
    ensures var s := head + middle + tail;
      s[..6] == head[..6] && s[|s| - 7..] == tail[|tail| - 7..] && s[|head|..|head| + |middle|] == middle
  {
  }

  /** The framed prompt starts with `[INST]`, ends with `Answer:` and holds
      the history text right after the head, which ends with the opening
      `<chat_history>` tag. */
  lemma FramedShape(history: string, context: string, question: string)
    ensures var f := Framed(history, context, question);
      |f| > |PromptHead| + |history| + 7 && f[..6] == "[INST]" && f[|f| - 7..] == "Answer:"
      && f[|PromptHead|..|PromptHead| + |history|] == history
  {
    HeadOpens();
    TailCloses(context, question);
    Between(PromptHead, history, PromptTail(context, question));
  }

  /** A stretch made of two parts: each part sits at its own offset. */
  lemma Piece(s: string, i: nat, j: nat, x: string, y: string)
    requires i <= j <= |s| && j - i == |x| + |y| && s[i..j] == x + y
    ensures s[i..i + |x|] == x && s[i + |x|..j] == y
  {
    assert s[i..i + |x|] == (x + y)[..|x|];
    assert s[i + |x|..j] == (x + y)[|x|..];
  }

  /** Where each piece of a filled template sits, for any head, tags and
      slot values. */
  lemma FilledPieces(head: string, history: string, hc: string, context: string,
                     cq: string, question: string, end: string)
    ensures var s := head + history + (hc + context + cq + question + end);
      var h := |head|;
      var c := h + |history| + |hc|;
      var q := c + |context| + |cq|;
      q + |question| + |end| == |s|
      && s[h..h + |history|] == history
      && s[h + |history|..c] == hc
      && s[c..c + |context|] == context
      && s[c + |context|..q] == cq
      && s[q..q + |question|] == question
      && s[q + |question|..] == end
  {
    var t1 := hc + context;
    var t2 := t1 + cq;
    var t3 := t2 + question;
    var t := t3 + end;
    var s := head + history + t;
    var o := |head| + |history|;
    assert s[0..|s|] == (head + history) + t;
    Piece(s, 0, |s|, head + history, t);
    Piece(s, 0, o, head, history);
    Piece(s, o, |s|, t3, end);
    Piece(s, o, o + |t3|, t2, question);
    Piece(s, o, o + |t2|, t1, cq);
    Piece(s, o, o + |t1|, hc, context);
  }

  /** Each slot holds its own value and nothing else: the history, the
      context and the question appear in that order, each right after its
      opening tag, and the tags between them are fixed text. */
  lemma SlotsInOrder(history: string, context: string, question: string)
    ensures var f := Framed(history, context, question);
      var h := |PromptHead|;
      var c := h + |history| + |HistoryToContext|;
      var q := c + |context| + |ContextToQuestion|;
      q + |question| + |PromptEnd| == |f|
      && f[h..h + |history|] == history
      && f[h + |history|..c] == HistoryToContext
      && f[c..c + |context|] == context
      && f[c + |context|..q] == ContextToQuestion
      && f[q..q + |question|] == question
      && f[q + |question|..] == PromptEnd
  {
    FilledPieces(PromptHead, history, HistoryToContext, context, ContextToQuestion, question, PromptEnd);
  }

  /** The template literal as written: the framed prompt between the line
      breaks that open and close it. */
  function Template(history: string, context: string, question: string): string
  {
    "\n" + Framed(history, context, question) + "\n"
  }

  /** `create_prompt`: the history text, the data context and the question put
      into the template, then stripped. Stripping only removes the line
      breaks that open and close the literal, whatever the history, the
      context and the question hold. */
  function CreatePrompt(userQuestion: string, dataframeContext: string, chatHistory: seq<ChatMessage>): (p: string)
    ensures p == Framed(HistoryText(chatHistory), dataframeContext, userQuestion)
  {
    var framed := Framed(HistoryText(chatHistory), dataframeContext, userQuestion);
    assert framed != [] && framed[0] == '[' && framed[|framed| - 1] == ':' by {
      FramedShape(HistoryText(chatHistory), dataframeContext, userQuestion);
      assert framed[..6][0] == '[';
      assert framed[|framed| - 7..][6] == ':';
    }
    StripFramed("\n", framed, "\n");
    Strip(Template(HistoryText(chatHistory), dataframeContext, userQuestion))
  }

  // ---------------------------------------------------------------------
  // One run of the page
  // ---------------------------------------------------------------------

  /** What `get_gemini_response` returns when the call raises. */
  const Apology: string := "Désolé, je ne peux pas générer de réponse pour le moment."

  /** The context shown before any data was read. */
  const NoContext: string := "Pas de données de contexte pour le moment."

  /** Every entry of the history has the role "user". */
  predicate OnlyUserEntries(history: seq<ChatMessage>)
  {
    history == [] || (OnlyUserEntries(history[..|history| - 1]) && history[|history| - 1].role == "user")
  }

  lemma UserEntryAppended(history: seq<ChatMessage>, question: string)
    requires OnlyUserEntries(history)
    ensures OnlyUserEntries(history + [ChatMessage("user", question)])
  {
    assert (history + [ChatMessage("user", question)])[..|history|] == history;
  }

  /** `OnlyUserEntries` says what its name says: no entry has another role. */
  lemma {:induction false} OnlyUserEntriesAt(history: seq<ChatMessage>, i: nat)
    requires OnlyUserEntries(history) && i < |history|
    ensures history[i].role == "user"
  {
    if i < |history| - 1 {
      OnlyUserEntriesAt(history[..|history| - 1], i);
    }
  }

  /** A run either stops before the prompt (missing API key, unreadable
      data file) or shows an answer to the prompt it built. */
  datatype RunOutcome = Stopped | Answered(prompt: string, answer: string)

  /** The session state of the page: `chat_history` and `df_context`. */
  class ChatSession {
    var chatHistory: seq<ChatMessage>
    var dfContext: string

    /** Only user entries are ever added. */
    predicate Valid()
      reads this
    {
      OnlyUserEntries(chatHistory)
    }

    constructor()
      ensures chatHistory == [] && dfContext == NoContext && Valid()
    {
      chatHistory := [];
      dfContext := NoContext;
    }

    /** One run of the script. `tableHead` is the rendering of the first rows
        of the data file, or `None` when reading it raises; `respond` is the
        model call, `None` when it raises. Without an API key, or when the
        data file cannot be read, the run stops and nothing changes. */
    method Run(hasApiKey: bool, userQuestion: string, tableHead: Option<string>,
               respond: string -> Option<string>) returns (outcome: RunOutcome)
      requires Valid()
      modifies this
      ensures Valid()
      ensures !hasApiKey || tableHead.None? ==>
        outcome == Stopped && chatHistory == old(chatHistory) && dfContext == old(dfContext)
      ensures hasApiKey && tableHead.Some? ==>
        && outcome.Answered?
        && outcome.prompt == CreatePrompt(userQuestion, old(dfContext), old(chatHistory))
        && outcome.answer == (if respond(outcome.prompt).Some? then respond(outcome.prompt).value else Apology)
        && chatHistory == old(chatHistory) + [ChatMessage("user", userQuestion)]
        && dfContext == tableHead.value
    {
      if !hasApiKey || tableHead.None? {
        return Stopped;
      }
      var prompt, answer := Ask(userQuestion, tableHead.value, respond);
      outcome := Answered(prompt, answer);
    }

    /** The part of a run after the data file was read: the prompt is built
        from the context of the previous run and the history before this
        question; then the question is appended as a user entry, even when
        empty, and the new context replaces the old one. */
    method Ask(userQuestion: string, tableHead: string, respond: string -> Option<string>)
      returns (prompt: string, answer: string)
      requires Valid()
      modifies this
      ensures Valid()
      ensures prompt == CreatePrompt(userQuestion, old(dfContext), old(chatHistory))
      ensures answer == (if respond(prompt).Some? then respond(prompt).value else Apology)
      ensures chatHistory == old(chatHistory) + [ChatMessage("user", userQuestion)]
      ensures dfContext == tableHead
    {
      prompt := CreatePrompt(userQuestion, dfContext, chatHistory);
      var response := respond(prompt);
      answer := if response.Some? then response.value else Apology;
      Record(userQuestion, tableHead);
    }

    /** The session updates of a run: the question becomes a user entry and
        the rendering of the data file becomes the next run's context. */
    method Record(userQuestion: string, tableHead: string)
      requires Valid()
      modifies this
      ensures Valid()
      ensures chatHistory == old(chatHistory) + [ChatMessage("user", userQuestion)]
      ensures dfContext == tableHead
    {
      UserEntryAppended(chatHistory, userQuestion);
      chatHistory, dfContext := chatHistory + [ChatMessage("user", userQuestion)], tableHead;
    }
  }
}
