/**
 * The server-push response of a chat completion, line by line: which lines
 * carry a fragment of the model's reasoning or of its answer, and the
 * `StreamingCallback` calls the client makes for them.
 *
 * Parsing a payload as JSON is Gson's work and is not modelled: it is a
 * function parameter `parse` that maps a payload to the shape of what Gson
 * produced, as far as the client looks at it. Every way that shape can make
 * the client's code throw (a part that is present but of the wrong JSON kind)
 * is a constructor of its own, because the client then drops the whole line.
 */
module StreamEvents {
  import opened Wrappers

  /** A member of the message object, as `has`, `isJsonNull` and
      `getAsString` see it: absent, JSON null, a value whose `getAsString`
      yields `text` (a string, a number, a boolean), or one whose
      `getAsString` throws (an object, an array not of exactly one element). */
  datatype Field = Absent | JsonNull | Scalar(text: string) | Unreadable

  /** The `delta` or `message` object of a choice. */
  datatype Container = Container(reasoningContent: Field, content: Field)

  /** The `delta` or `message` member of a choice: absent, present as an
      object, or present as anything else (JSON null included), on which
      `getAsJsonObject` throws. */
  datatype Slot = NoSlot | Obj(container: Container) | NotAnObject

  /** An element of `choices`: an object with its two slots, or not an object. */
  datatype Choice = Choice(delta: Slot, message: Slot) | ChoiceNotAnObject

  /** What Gson made of a payload: a JSON object whose `choices` member is
      absent (`None`) or an array; or anything on which the client's first
      two calls throw or find no object (a syntax error, an empty or `null`
      document, a non-object document, `choices` present but not an array). */
  datatype Chunk = Malformed | Parsed(choices: Option<seq<Choice>>)

  /** How the client treats one line. */
  datatype LineClass =
    | NotData            // no `data:` prefix
    | DoneMarker         // the payload is exactly `[DONE]`
    | Skip               // a payload that yields no fragment
    | Reasoning(text: string)
    | Answer(text: string)

  /** The `StreamingCallback` calls, in the order they are made. */
  datatype Event =
    | OnThinkingProcess(content: string)
    | OnFinalAnswer(content: string)
    | OnComplete(thinkingProcess: string, finalAnswer: string)
    | OnError(error: string)
  {
    predicate IsFragment() {
      OnThinkingProcess? || OnFinalAnswer?
    }
  }

  const DataPrefix: string := "data:"
  const DoneSentinel: string := "[DONE]"

  /** `reasoning_content` when it is present and not null; otherwise `content`
      when it is present and not null. A value that cannot be read as a string
      throws, and the line is dropped. */
  function ClassifyContainer(m: Container): LineClass {
    match m.reasoningContent
    case Scalar(s) => Reasoning(s)
    case Unreadable => Skip
    case _ =>
      match m.content
      case Scalar(s) => Answer(s)
      case _ => Skip
  }

  /** `delta` when the choice has one, else `message`. A member that is
      present but not an object throws; there is then no fallback. */
  function SelectContainer(choice: Choice): Option<Container> {
    match choice
    case ChoiceNotAnObject => None
    case Choice(delta, message) =>
      match delta
      case Obj(m) => Some(m)
      case NotAnObject => None
      case NoSlot => if message.Obj? then Some(message.container) else None
  }

  /** Only the first choice is looked at; no `choices`, or none, yields nothing. */
  function ClassifyChunk(chunk: Chunk): LineClass {
    match chunk
    case Malformed => Skip
    case Parsed(None) => Skip
    case Parsed(Some(choices)) =>
      if choices == [] then Skip
      else
        match SelectContainer(choices[0])
        case Some(m) => ClassifyContainer(m)
        case None => Skip
  }

  /** One line of the response. The payload is what follows the five chars
      `data:`, untrimmed, so `data: [DONE]` is not the sentinel and goes to
      the parser. */
  function ClassifyLine(line: string, parse: string -> Chunk): LineClass {
    if !(DataPrefix <= line) then NotData
    else
      var payload := line[|DataPrefix|..];
      if payload == DoneSentinel then DoneMarker
      else ClassifyChunk(parse(payload))
  }

  /** The callback a line causes: at most one. */
  function FragmentOf(c: LineClass): seq<Event> {
    match c
    case Reasoning(s) => [OnThinkingProcess(s)]
    case Answer(s) => [OnFinalAnswer(s)]
    case _ => []
  }

  /** The fragment callbacks of a sequence of lines, in line order. */
  function Fragments(lines: seq<string>, parse: string -> Chunk): seq<Event>
    decreases |lines|
  {
    if lines == [] then []
    else Fragments(lines[..|lines| - 1], parse) + FragmentOf(ClassifyLine(lines[|lines| - 1], parse))
  }

  /** The thinking fragments of a trace, concatenated in order. */
  function Thoughts(events: seq<Event>): string
    decreases |events|
  {
    if events == [] then ""
    else
      var last := events[|events| - 1];
      Thoughts(events[..|events| - 1]) + (if last.OnThinkingProcess? then last.content else "")
  }

  /** The answer fragments of a trace, concatenated in order. */
  function Answers(events: seq<Event>): string
    decreases |events|
  {
    if events == [] then ""
    else
      var last := events[|events| - 1];
      Answers(events[..|events| - 1]) + (if last.OnFinalAnswer? then last.content else "")
  }

  /** A line that causes no callback. */
  predicate Inert(line: string, parse: string -> Chunk) {
    FragmentOf(ClassifyLine(line, parse)) == []
  }

  /** The shape every call of the client makes: fragments, then exactly one
      `onComplete` or `onError`, and nothing after it. */
  ghost predicate WellFormedTrace(trace: seq<Event>) {
    && |trace| >= 1
    && !trace[|trace| - 1].IsFragment()
    && forall k :: 0 <= k < |trace| - 1 ==> trace[k].IsFragment()
  }

  /** Which lines are inert: those without the prefix, the exact sentinel, and
      payloads that do not parse or have no first choice. */
  lemma InertLines(line: string, parse: string -> Chunk)
    ensures !(DataPrefix <= line) ==> Inert(line, parse)
    ensures line == DataPrefix + DoneSentinel ==> Inert(line, parse)
    ensures DataPrefix <= line && parse(line[5..]) in {Malformed, Parsed(None), Parsed(Some([]))}
            ==> Inert(line, parse)
  {
    if line == DataPrefix + DoneSentinel {
      assert line[5..] == DoneSentinel;
    }
  }

  /** `delta` wins over `message`, and `message` counts only when `delta` is absent. */
  lemma DeltaPreferred(delta: Slot, message: Slot)
    ensures delta.Obj? ==> SelectContainer(Choice(delta, message)) == Some(delta.container)
    ensures delta.NotAnObject? ==> SelectContainer(Choice(delta, message)) == None
    ensures delta.NoSlot? ==> SelectContainer(Choice(delta, message))
                              == if message.Obj? then Some(message.container) else None
  {
  }

  /** A readable `reasoning_content` wins: only the thinking callback fires,
      whatever `content` holds. Even an empty reasoning text hides the answer. */
  lemma ReasoningWins(text: string, content: Field)
    ensures ClassifyContainer(Container(Scalar(text), content)) == Reasoning(text)
    ensures FragmentOf(ClassifyContainer(Container(Scalar(""), Scalar("answer")))) == [OnThinkingProcess("")]
  {
  }

  /** Each line causes at most one callback, and it is a fragment. */
  lemma AtMostOneFragment(line: string, parse: string -> Chunk)
    ensures |FragmentOf(ClassifyLine(line, parse))| <= 1
    ensures forall e :: e in FragmentOf(ClassifyLine(line, parse)) ==> e.IsFragment()
  {
  }

  /** Lines are processed one after the other: the fragments of a concatenation
      are the concatenation of the fragments. */
  lemma {:induction false} FragmentsAppend(xs: seq<string>, ys: seq<string>, parse: string -> Chunk)
    ensures Fragments(xs + ys, parse) == Fragments(xs, parse) + Fragments(ys, parse)
    decreases |ys|
  {
    if ys != [] {
      var init := ys[..|ys| - 1];
      assert (xs + ys)[..|xs + ys| - 1] == xs + init;
      assert (xs + ys)[|xs + ys| - 1] == ys[|ys| - 1];
      FragmentsAppend(xs, init, parse);
    } else {
      assert xs + ys == xs;
    }
  }

  /** Inserting inert lines anywhere (malformed chunks, the sentinel, lines
      without the prefix) changes no callback, and the lines after them are
      still read: the sentinel does not end the stream. */
  lemma {:induction false} InertLinesVanish(xs: seq<string>, noise: seq<string>, ys: seq<string>,
                                            parse: string -> Chunk)
    requires forall k :: 0 <= k < |noise| ==> Inert(noise[k], parse)
    ensures Fragments(xs + noise + ys, parse) == Fragments(xs, parse) + Fragments(ys, parse)
  {
    NoFragments(noise, parse);
    FragmentsAppend(xs + noise, ys, parse);
    FragmentsAppend(xs, noise, parse);
  }

  lemma {:induction false} NoFragments(lines: seq<string>, parse: string -> Chunk)
    requires forall k :: 0 <= k < |lines| ==> Inert(lines[k], parse)
    ensures Fragments(lines, parse) == []
    decreases |lines|
  {
    if lines != [] {
      var init := lines[..|lines| - 1];
      assert forall k :: 0 <= k < |init| ==> init[k] == lines[k];
      NoFragments(init, parse);
    }
  }

  /** Every callback from the lines is a fragment, and there are no more of
      them than lines. */
  lemma {:induction false} FragmentsAreFragments(lines: seq<string>, parse: string -> Chunk)
    ensures |Fragments(lines, parse)| <= |lines|
    ensures forall k :: 0 <= k < |Fragments(lines, parse)| ==> Fragments(lines, parse)[k].IsFragment()
    decreases |lines|
  {
    if lines != [] {
      FragmentsAreFragments(lines[..|lines| - 1], parse);
      AtMostOneFragment(lines[|lines| - 1], parse);
    }
  }

  /** Fragments followed by one final call form a well-formed trace. */
  lemma FinishedTraceIsWellFormed(lines: seq<string>, parse: string -> Chunk, last: Event)
    requires !last.IsFragment()
    ensures WellFormedTrace(Fragments(lines, parse) + [last])
  {
    FragmentsAreFragments(lines, parse);
  }

  /** Reading one more line adds its callback, if any, after the others. */
  lemma FragmentsSnoc(lines: seq<string>, i: nat, parse: string -> Chunk)
    requires i < |lines|
    ensures Fragments(lines[..i + 1], parse) == Fragments(lines[..i], parse) + FragmentOf(ClassifyLine(lines[i], parse))
  {
    assert lines[..i + 1][..i] == lines[..i];
  }

  /** The text a line's callback adds to each buffer. */
  lemma FragmentTexts(c: LineClass)
    ensures Thoughts(FragmentOf(c)) == if c.Reasoning? then c.text else ""
    ensures Answers(FragmentOf(c)) == if c.Answer? then c.text else ""
  {
    if c.Reasoning? || c.Answer? {
      assert FragmentOf(c)[..0] == [];
    }
  }

  /** Accumulation is append-only: the texts of a concatenated trace are the
      concatenated texts. */
  lemma {:induction false} TextsAppend(a: seq<Event>, b: seq<Event>)
    ensures Thoughts(a + b) == Thoughts(a) + Thoughts(b)
    ensures Answers(a + b) == Answers(a) + Answers(b)
    decreases |b|
  {
    if b != [] {
      var init := b[..|b| - 1];
      assert (a + b)[..|a + b| - 1] == a + init;
      assert (a + b)[|a + b| - 1] == b[|b| - 1];
      TextsAppend(a, init);
    } else {
      assert a + b == a;
    }
  }

  /** The final call contributes no text, so the texts of a finished trace are
      those of its fragments. */
  lemma FinalEventAddsNoText(fragments: seq<Event>, last: Event)
    requires !last.IsFragment()
    ensures Thoughts(fragments + [last]) == Thoughts(fragments)
    ensures Answers(fragments + [last]) == Answers(fragments)
  {
    TextsAppend(fragments, [last]);
    assert [last][..0] == [];
  }
}
