/** The values of src/chat-model.ts and the pure specification of what a
    `ChatSession` does with them: the system prompt, prompt assembly,
    observer fan-out, the handling of one streamed chunk, and one whole
    turn. The class itself is in module `ChatSessions`. */
module ChatModel {

  import opened Optional
  import opened Text
  import opened Frames
  import opened Remember

  datatype Role = User | Assistant

  /** `loading` and `error` are optional fields: `None` is `undefined`. */
  datatype Message = Message(
    id: string,
    timestamp: string,
    role: Role,
    text: string,
    loading: Option<bool>,
    error: Option<string>)

  datatype Convo = Convo(id: string, messages: seq<Message>)

  /** A remembered fact; the reserved embedding vector is not modelled. */
  datatype Memory = Memory(id: string, timestamp: string, conversationId: string, text: string)

  datatype BotSummary = BotSummary(slug: string, name: string, system: string)

  /** What `uuid()` and `new Date().toISOString()` produce for one record. */
  datatype Stamp = Stamp(id: string, timestamp: string)

  /** A subscribed callback, known by its identity. */
  type Handler = nat

  datatype Speaker = SystemSpeaker | UserSpeaker | AssistantSpeaker

  /** One `{role, content}` entry of the completion request. */
  datatype Turn = Turn(role: Speaker, content: string)

  /** How the completion call ends: rejected with `err.message` (which may
      be `undefined`), or a stream delivering these chunks in order. */
  datatype Transport = Failed(errMessage: Option<string>) | Streamed(chunks: seq<string>)

  /** What the session does to the outside world, in order: run one
      subscriber, call `saveConvo` under the bot's slug with the
      conversation as it stands at the call, or send a completion request. */
  datatype Event = Notified(handler: Handler) | Saved(slug: string, convo: Convo) | Requested(prompt: seq<Turn>)

  /** What `changed()` reads: the slug, the conversation id and the
      subscribers. */
  datatype Audience = Audience(slug: string, id: string, subscribers: seq<Handler>)

  /** The part of a session a turn changes, with the events so far. */
  datatype Live = Live(messages: seq<Message>, memories: seq<Memory>, events: seq<Event>)

  const ParseError := "Could not parse response from OpenAI"

  /** `!!msg.error`: an empty error string counts as no error. */
  predicate HasError(m: Message)
  {
    m.error.Some? && m.error.value != ""
  }

  predicate IsLoading(m: Message)
  {
    m.loading == Some(true)
  }

  /** The message `sendMessage` pushes: the user's text, neither loading
      nor in error. */
  function UserMessage(stamp: Stamp, input: string): (r: Message)
    ensures r.role == User && r.text == input && r.id == stamp.id && r.timestamp == stamp.timestamp
    ensures !IsLoading(r) && !HasError(r)
  {
    Message(stamp.id, stamp.timestamp, User, input, None, None)
  }

  /** The assistant message `go` opens before calling the API. */
  function Placeholder(stamp: Stamp): (r: Message)
    ensures r.role == Assistant && r.text == "" && r.id == stamp.id && r.timestamp == stamp.timestamp
    ensures IsLoading(r) && !HasError(r)
  {
    Message(stamp.id, stamp.timestamp, Assistant, "", Some(true), None)
  }

  // ---------------------------------------------------------------------
  // System prompt

  /** The third part of the system prompt: the formatted date, then the
      formatted time at its very end. */
  function DateClause(dateString: string, timeString: string): (r: string)
    ensures |r| >= |dateString| + 5 + |timeString|
    ensures r[|r| - |timeString| - 5 - |dateString|..|r| - |timeString| - 5] == dateString
    ensures r[|r| - |timeString| - 5..|r| - |timeString|] == ", at "
    ensures r[|r| - |timeString|..] == timeString
  {
    "You are aware of the date and time \U{2014} it is currently " + dateString + ", at " + timeString
  }

  lemma JoinFour(a: string, b: string, c: string, d: string, sep: string)
    ensures Join([a, b, c, d], sep) == a + sep + b + sep + c + sep + d
  {
    assert [c, d][1..] == [d];
    assert Join([c, d], sep) == c + sep + d;
    assert [b, c, d][1..] == [c, d];
    assert Join([b, c, d], sep) == b + sep + (c + sep + d);
    assert [a, b, c, d][1..] == [b, c, d];
    assert Join([a, b, c, d], sep) == a + sep + (b + sep + (c + sep + d));
  }

  /** `getSystemPrompt()`, with the formatted date and time as parameters:
      four parts joined by `".\n"` and a final `"."`. */
  function SystemPrompt(name: string, system: string, dateString: string, timeString: string, userName: string): (r: string)
    ensures |r| > 8 && r[..8] == "You are " && r[|r| - 1] == '.'
  {
    var persona := "You are " + name;
    var user := "The user's name is " + userName;
    JoinFour(persona, system, DateClause(dateString, timeString), user, ".\n");
    var r := Join([persona, system, DateClause(dateString, timeString), user], ".\n") + ".";
    assert r[..8] == persona[..8];
    r
  }

  /** The prompt spelled out: the clock only enters through the date
      clause, between a part fixed by the bot and a part fixed by the
      user's name. */
  lemma SystemPromptLayout(name: string, system: string, dateString: string, timeString: string, userName: string)
    ensures SystemPrompt(name, system, dateString, timeString, userName)
         == ("You are " + name + ".\n" + system + ".\n")
          + DateClause(dateString, timeString)
          + (".\nThe user's name is " + userName + ".")
  {
    JoinFour("You are " + name, system, DateClause(dateString, timeString), "The user's name is " + userName, ".\n");
  }

  // ---------------------------------------------------------------------
  // Prompt assembly

  /** `messages.filter(msg => !msg.error)`. */
  function Kept(ms: seq<Message>): (r: seq<Message>)
    ensures |r| <= |ms|
    ensures forall m :: m in r <==> m in ms && !HasError(m)
    decreases |ms|
  {
    if |ms| == 0 then []
    else (if HasError(ms[0]) then [] else [ms[0]]) + Kept(ms[1..])
  }

  /** Filtering keeps the original order. */
  lemma {:induction false} KeptAppend(a: seq<Message>, b: seq<Message>)
    ensures Kept(a + b) == Kept(a) + Kept(b)
    decreases |a|
  {
    if |a| > 0 {
      assert (a + b)[0] == a[0];
      assert (a + b)[1..] == a[1..] + b;
      KeptAppend(a[1..], b);
      var head := if HasError(a[0]) then [] else [a[0]];
      assert Kept(a + b) == head + Kept(a[1..] + b);
      assert head + (Kept(a[1..]) + Kept(b)) == (head + Kept(a[1..])) + Kept(b);
    } else {
      assert a + b == b;
    }
  }

  /** `{role: msg.role, content: msg.text}`: a message becomes a user or
      an assistant turn, never a system turn, with its text as content. */
  function TurnOf(m: Message): (r: Turn)
    ensures r.content == m.text
    ensures r.role != SystemSpeaker && (r.role == UserSpeaker <==> m.role == User)
  {
    Turn(if m.role == User then UserSpeaker else AssistantSpeaker, m.text)
  }

  /** The `messages` of the completion request: the system turn, then the
      messages without an error as `{role, content: text}`. */
  function Prompt(systemText: string, ms: seq<Message>): (r: seq<Turn>)
    ensures |r| == 1 + |Kept(ms)|
    ensures r[0] == Turn(SystemSpeaker, systemText)
  {
    var kept := Kept(ms);
    [Turn(SystemSpeaker, systemText)] + seq(|kept|, i requires 0 <= i < |kept| => TurnOf(kept[i]))
  }

  /** A message added to the conversation adds its turn at the end of the
      prompt, unless it carries an error. */
  lemma PromptAppend(systemText: string, ms: seq<Message>, m: Message)
    ensures Prompt(systemText, ms + [m])
         == Prompt(systemText, ms) + (if HasError(m) then [] else [TurnOf(m)])
  {
    KeptAppend(ms, [m]);
    assert Kept([m]) == (if HasError(m) then [] else [m]) by {
      assert [m][1..] == [];
    }
  }

  /** `t` is the turn of some message without an error. */
  predicate TurnOfKept(ms: seq<Message>, t: Turn)
  {
    exists m :: m in ms && !HasError(m) && t == TurnOf(m)
  }

  /** Every message without an error is in the prompt, and every turn after
      the first comes from such a message. */
  lemma PromptMembers(systemText: string, ms: seq<Message>)
    ensures forall m :: m in ms && !HasError(m) ==> TurnOf(m) in Prompt(systemText, ms)[1..]
    ensures forall j :: 1 <= j < |Prompt(systemText, ms)| ==> TurnOfKept(ms, Prompt(systemText, ms)[j])
  {
    var r := Prompt(systemText, ms);
    var kept := Kept(ms);
    forall m | m in ms && !HasError(m)
      ensures TurnOf(m) in r[1..]
    {
      var i :| 0 <= i < |kept| && kept[i] == m;
      assert r[1..][i] == TurnOf(m);
    }
    forall j | 1 <= j < |r|
      ensures TurnOfKept(ms, r[j])
    {
      var m := kept[j - 1];
      assert m in kept;
      assert r[j] == TurnOf(m);
    }
  }

  /** The assistant placeholder, appended before the prompt is built, is
      the prompt's last turn: an empty assistant turn. */
  lemma PromptEndsWithPlaceholder(systemText: string, ms: seq<Message>, reply: Stamp)
    ensures var r := Prompt(systemText, ms + [Placeholder(reply)]);
            r[|r| - 1] == Turn(AssistantSpeaker, "")
  {
    PromptAppend(systemText, ms, Placeholder(reply));
  }

  // ---------------------------------------------------------------------
  // Observers

  /** `subscribers.filter(h => h !== handler)`. */
  function Without(subs: seq<Handler>, h: Handler): (r: seq<Handler>)
    ensures |r| <= |subs|
    ensures forall x :: x in r <==> x in subs && x != h
    decreases |subs|
  {
    if |subs| == 0 then []
    else (if subs[0] == h then [] else [subs[0]]) + Without(subs[1..], h)
  }

  /** Filtering out a handler that is not subscribed changes nothing. */
  lemma {:induction false} WithoutAbsent(subs: seq<Handler>, h: Handler)
    requires h !in subs
    ensures Without(subs, h) == subs
    decreases |subs|
  {
    if |subs| > 0 {
      WithoutAbsent(subs[1..], h);
      assert subs == [subs[0]] + subs[1..];
    }
  }

  /** Unsubscribing twice is unsubscribing once. */
  lemma WithoutIdempotent(subs: seq<Handler>, h: Handler)
    ensures Without(Without(subs, h), h) == Without(subs, h)
  {
    WithoutAbsent(Without(subs, h), h);
  }

  /** The other handlers keep their order. */
  lemma {:induction false} WithoutAppend(a: seq<Handler>, b: seq<Handler>, h: Handler)
    ensures Without(a + b, h) == Without(a, h) + Without(b, h)
    decreases |a|
  {
    if |a| > 0 {
      assert (a + b)[0] == a[0];
      assert (a + b)[1..] == a[1..] + b;
      WithoutAppend(a[1..], b, h);
      var head := if a[0] == h then [] else [a[0]];
      assert head + (Without(a[1..], h) + Without(b, h)) == (head + Without(a[1..], h)) + Without(b, h);
    } else {
      assert a + b == b;
    }
  }

  /** Subscribing and then unsubscribing the same handler removes it, with
      every earlier subscription of it. */
  lemma SubscribeThenUnsubscribe(subs: seq<Handler>, h: Handler)
    ensures Without(subs + [h], h) == Without(subs, h)
  {
    WithoutAppend(subs, [h], h);
    assert Without([h], h) == [] by {
      assert [h][1..] == [];
    }
    assert Without(subs, h) + [] == Without(subs, h);
  }

  /** `subscribers.forEach(handler => handler())`: one call per entry, in
      list order. */
  function Notifications(subs: seq<Handler>): (r: seq<Event>)
    ensures |r| == |subs|
    ensures forall i :: 0 <= i < |r| ==> r[i] == Notified(subs[i])
    decreases |subs|
  {
    if |subs| == 0 then [] else [Notified(subs[0])] + Notifications(subs[1..])
  }

  /** `changed()`: every subscriber, then `saveConvo` with `{id, messages}`. */
  function Fanout(aud: Audience, ms: seq<Message>): (r: seq<Event>)
    ensures |r| == |aud.subscribers| + 1
    ensures forall i :: 0 <= i < |aud.subscribers| ==> r[i] == Notified(aud.subscribers[i])
    ensures r[|aud.subscribers|] == Saved(aud.slug, Convo(aud.id, ms))
  {
    Notifications(aud.subscribers) + [Saved(aud.slug, Convo(aud.id, ms))]
  }

  /** A handler that is no longer subscribed is not called. */
  lemma FanoutSkips(aud: Audience, ms: seq<Message>, h: Handler)
    requires h !in aud.subscribers
    ensures Notified(h) !in Fanout(aud, ms)
  {
  }

  // ---------------------------------------------------------------------
  // Memories

  /** The memories `handleResponse` pushes for these contents, the `j`-th
      stamped with `stamps(base + j)`, its position in the memory list. */
  function NewMemories(contents: seq<string>, conversationId: string, stamps: nat -> Stamp, base: nat): (r: seq<Memory>)
    ensures |r| == |contents|
    ensures forall j :: 0 <= j < |r| ==> r[j].text == contents[j] && r[j].conversationId == conversationId
  {
    seq(|contents|, j requires 0 <= j < |contents| =>
      Memory(stamps(base + j).id, stamps(base + j).timestamp, conversationId, contents[j]))
  }

  lemma NewMemoriesAppend(contents: seq<string>, c: string, conversationId: string, stamps: nat -> Stamp, base: nat)
    ensures NewMemories(contents + [c], conversationId, stamps, base)
         == NewMemories(contents, conversationId, stamps, base)
          + [Memory(stamps(base + |contents|).id, stamps(base + |contents|).timestamp, conversationId, c)]
  {
  }

  // ---------------------------------------------------------------------
  // One chunk of the stream

  /** The `data` handler on one non-blank line, the placeholder being
      message `k`: a delta is appended and notified, a line that does not
      decode records the parse error without notifying, and `[DONE]`
      clears `loading`, extracts memories and notifies. Nothing but the
      placeholder changes, and memories and events only grow. */
  function Step(st: Live, k: nat, line: string, decode: Decoder, aud: Audience, stamps: nat -> Stamp): (r: Live)
    requires k < |st.messages|
    ensures |r.messages| == |st.messages|
    ensures forall i :: 0 <= i < |r.messages| && i != k ==> r.messages[i] == st.messages[i]
    ensures r.messages[k].id == st.messages[k].id && r.messages[k].role == st.messages[k].role
    ensures st.memories <= r.memories && st.events <= r.events
  {
    var m := st.messages[k];
    match Classify(line, decode)
    case Done =>
      var ms := st.messages[k := m.(loading := Some(false))];
      Live(ms, st.memories + NewMemories(Extract(m.text), aud.id, stamps, |st.memories|), st.events + Fanout(aud, ms))
    case Malformed =>
      st.(messages := st.messages[k := m.(error := Some(ParseError))])
    case Delta(d) =>
      var ms := st.messages[k := m.(text := m.text + d)];
      Live(ms, st.memories, st.events + Fanout(aud, ms))
  }

  /** The handler run on the lines of one chunk in order; `[DONE]` ends the
      chunk. */
  function ReadLines(st: Live, k: nat, lines: seq<string>, decode: Decoder, aud: Audience, stamps: nat -> Stamp): (r: Live)
    requires k < |st.messages|
    ensures |r.messages| == |st.messages|
    ensures forall i :: 0 <= i < |r.messages| && i != k ==> r.messages[i] == st.messages[i]
    ensures st.memories <= r.memories && st.events <= r.events
    decreases |lines|
  {
    if |lines| == 0 then st
    else
      var next := Step(st, k, lines[0], decode, aud, stamps);
      if Classify(lines[0], decode) == Done then next
      else ReadLines(next, k, lines[1..], decode, aud, stamps)
  }

  /** `ReadLines` on its first line. */
  lemma ReadLinesFirst(st: Live, k: nat, lines: seq<string>, decode: Decoder, aud: Audience, stamps: nat -> Stamp)
    requires k < |st.messages| && |lines| > 0
    ensures ReadLines(st, k, lines, decode, aud, stamps)
         == if Classify(lines[0], decode) == Done then Step(st, k, lines[0], decode, aud, stamps)
            else ReadLines(Step(st, k, lines[0], decode, aud, stamps), k, lines[1..], decode, aud, stamps)
  {
  }

  function ReadChunk(st: Live, k: nat, chunk: string, decode: Decoder, aud: Audience, stamps: nat -> Stamp): (r: Live)
    requires k < |st.messages|
    ensures |r.messages| == |st.messages|
    ensures forall i :: 0 <= i < |r.messages| && i != k ==> r.messages[i] == st.messages[i]
    ensures st.memories <= r.memories && st.events <= r.events
  {
    ReadLines(st, k, Lines(chunk), decode, aud, stamps)
  }

  /** The handler stays registered, so every chunk of the stream is read. */
  function ReadStream(st: Live, k: nat, chunks: seq<string>, decode: Decoder, aud: Audience, stamps: nat -> Stamp): (r: Live)
    requires k < |st.messages|
    ensures |r.messages| == |st.messages|
    ensures forall i :: 0 <= i < |r.messages| && i != k ==> r.messages[i] == st.messages[i]
    ensures st.memories <= r.memories && st.events <= r.events
    decreases |chunks|
  {
    if |chunks| == 0 then st
    else ReadStream(ReadChunk(st, k, chunks[0], decode, aud, stamps), k, chunks[1..], decode, aud, stamps)
  }

  // Reference view of one chunk.

  /** The deltas read before the first `[DONE]`, concatenated. */
  function DeltaText(lines: seq<string>, decode: Decoder): string
    decreases |lines|
  {
    if |lines| == 0 then ""
    else match Classify(lines[0], decode)
      case Done => ""
      case Malformed => DeltaText(lines[1..], decode)
      case Delta(d) => d + DeltaText(lines[1..], decode)
  }

  predicate Finishes(lines: seq<string>, decode: Decoder)
  {
    exists i :: 0 <= i < |lines| && Classify(lines[i], decode) == Done
  }

  /** Some line before the first `[DONE]` fails to decode. */
  predicate Garbled(lines: seq<string>, decode: Decoder)
  {
    exists i :: 0 <= i < |lines| && Classify(lines[i], decode) == Malformed &&
      forall j :: 0 <= j < i ==> Classify(lines[j], decode) != Done
  }

  lemma FinishesTail(lines: seq<string>, decode: Decoder)
    requires |lines| > 0 && Classify(lines[0], decode) != Done
    ensures Finishes(lines, decode) <==> Finishes(lines[1..], decode)
  {
    if Finishes(lines, decode) {
      var i :| 0 <= i < |lines| && Classify(lines[i], decode) == Done;
      assert lines[1..][i - 1] == lines[i];
    }
    if Finishes(lines[1..], decode) {
      var i :| 0 <= i < |lines| - 1 && Classify(lines[1..][i], decode) == Done;
      assert lines[i + 1] == lines[1..][i];
    }
  }

  lemma GarbledTail(lines: seq<string>, decode: Decoder)
    requires |lines| > 0 && Classify(lines[0], decode).Delta?
    ensures Garbled(lines, decode) <==> Garbled(lines[1..], decode)
  {
    if Garbled(lines, decode) {
      GarbledDrop(lines, decode);
    }
    if Garbled(lines[1..], decode) {
      GarbledKeep(lines, decode);
    }
  }

  lemma GarbledDrop(lines: seq<string>, decode: Decoder)
    requires |lines| > 0 && Classify(lines[0], decode).Delta? && Garbled(lines, decode)
    ensures Garbled(lines[1..], decode)
  {
    var rest := lines[1..];
    var i :| 0 <= i < |lines| && Classify(lines[i], decode) == Malformed &&
      forall j :: 0 <= j < i ==> Classify(lines[j], decode) != Done;
    assert rest[i - 1] == lines[i];
    forall j | 0 <= j < i - 1 ensures Classify(rest[j], decode) != Done {
      assert rest[j] == lines[j + 1];
    }
  }

  lemma GarbledKeep(lines: seq<string>, decode: Decoder)
    requires |lines| > 0 && Classify(lines[0], decode).Delta? && Garbled(lines[1..], decode)
    ensures Garbled(lines, decode)
  {
    var rest := lines[1..];
    var i :| 0 <= i < |rest| && Classify(rest[i], decode) == Malformed &&
      forall j :: 0 <= j < i ==> Classify(rest[j], decode) != Done;
    assert lines[i + 1] == rest[i];
    forall j | 0 <= j < i + 1 ensures Classify(lines[j], decode) != Done {
      if j > 0 { assert lines[j] == rest[j - 1]; }
    }
  }

  /** The reference view of the placeholder after a chunk: the deltas
      appended, `loading` cleared if a `[DONE]` is read, the parse error
      recorded if a line before it fails to decode. */
  function Expected(m: Message, lines: seq<string>, decode: Decoder): Message
  {
    m.(text := m.text + DeltaText(lines, decode),
       loading := if Finishes(lines, decode) then Some(false) else m.loading,
       error := if Garbled(lines, decode) then Some(ParseError) else m.error)
  }

  /** The reference view past one line that is not `[DONE]`. */
  lemma ExpectedTail(m: Message, lines: seq<string>, decode: Decoder)
    requires |lines| > 0 && Classify(lines[0], decode) != Done
    ensures Expected(m, lines, decode)
         == match Classify(lines[0], decode)
            case Malformed => Expected(m.(error := Some(ParseError)), lines[1..], decode)
            case Delta(d) => Expected(m.(text := m.text + d), lines[1..], decode)
            case Done => m
  {
    FinishesTail(lines, decode);
    match Classify(lines[0], decode)
    case Malformed =>
      assert Garbled(lines, decode);
    case Delta(d) =>
      GarbledTail(lines, decode);
      assert m.text + d + DeltaText(lines[1..], decode) == m.text + (d + DeltaText(lines[1..], decode));
  }

  /** What a chunk does to the placeholder: its text grows by exactly the
      deltas read (so the old text is always a prefix of the new), `loading`
      becomes false exactly when a `[DONE]` is read, and `error` becomes the
      parse error exactly when a line before it fails to decode. */
  lemma {:induction false} ReadLinesMessage(st: Live, k: nat, lines: seq<string>, decode: Decoder, aud: Audience, stamps: nat -> Stamp)
    requires k < |st.messages|
    ensures ReadLines(st, k, lines, decode, aud, stamps).messages[k] == Expected(st.messages[k], lines, decode)
    decreases |lines|
  {
    var m := st.messages[k];
    if |lines| == 0 {
      assert m.text + "" == m.text;
    } else if Classify(lines[0], decode) == Done {
      assert Finishes(lines, decode);
      assert m.text + "" == m.text;
    } else {
      var next := Step(st, k, lines[0], decode, aud, stamps);
      ReadLinesFirst(st, k, lines, decode, aud, stamps);
      ReadLinesMessage(next, k, lines[1..], decode, aud, stamps);
      ExpectedTail(m, lines, decode);
    }
  }

  /** One line runs one notification round, unless it fails to decode. */
  lemma StepEvents(st: Live, k: nat, line: string, decode: Decoder, aud: Audience, stamps: nat -> Stamp)
    requires k < |st.messages|
    ensures var r := Step(st, k, line, decode, aud, stamps);
            r.events == if Classify(line, decode) == Malformed then st.events else st.events + Fanout(aud, r.messages)
  {
  }

  /** Memories are added only by `[DONE]`: one per annotation in the final
      text, each tagged with the conversation id, after the existing ones. */
  lemma {:induction false} ReadLinesMemories(st: Live, k: nat, lines: seq<string>, decode: Decoder, aud: Audience, stamps: nat -> Stamp)
    requires k < |st.messages|
    ensures var r := ReadLines(st, k, lines, decode, aud, stamps);
            r.memories == st.memories
              + if Finishes(lines, decode)
                then NewMemories(Extract(r.messages[k].text), aud.id, stamps, |st.memories|)
                else []
    decreases |lines|
  {
    if |lines| > 0 {
      var m := st.messages[k];
      var rest := lines[1..];
      match Classify(lines[0], decode)
      case Done =>
        assert Finishes(lines, decode);
      case Malformed =>
        FinishesTail(lines, decode);
        ReadLinesMemories(st.(messages := st.messages[k := m.(error := Some(ParseError))]), k, rest, decode, aud, stamps);
      case Delta(d) =>
        FinishesTail(lines, decode);
        var ms := st.messages[k := m.(text := m.text + d)];
        ReadLinesMemories(Live(ms, st.memories, st.events + Fanout(aud, ms)), k, rest, decode, aud, stamps);
    } else {
      assert st.memories + [] == st.memories;
    }
  }

  /** Lines after the first `[DONE]` of a chunk are never looked at. */
  lemma {:induction false} ReadLinesStopsAtDone(st: Live, k: nat, before: seq<string>, line: string, after: seq<string>, decode: Decoder, aud: Audience, stamps: nat -> Stamp)
    requires k < |st.messages|
    requires forall i :: 0 <= i < |before| ==> Classify(before[i], decode) != Done
    requires Classify(line, decode) == Done
    ensures ReadLines(st, k, before + [line] + after, decode, aud, stamps)
         == ReadLines(st, k, before + [line], decode, aud, stamps)
    decreases |before|
  {
    var all := before + [line] + after;
    var upTo := before + [line];
    if |before| == 0 {
      assert all[0] == line && upTo[0] == line;
    } else {
      assert all[0] == before[0] && upTo[0] == before[0];
      assert all[1..] == before[1..] + [line] + after;
      assert upTo[1..] == before[1..] + [line];
      var m := st.messages[k];
      match Classify(before[0], decode)
      case Malformed =>
        ReadLinesStopsAtDone(st.(messages := st.messages[k := m.(error := Some(ParseError))]), k, before[1..], line, after, decode, aud, stamps);
      case Delta(d) =>
        var ms := st.messages[k := m.(text := m.text + d)];
        ReadLinesStopsAtDone(Live(ms, st.memories, st.events + Fanout(aud, ms)), k, before[1..], line, after, decode, aud, stamps);
    }
  }

  // ---------------------------------------------------------------------
  // A whole turn

  /** `go()`: open the placeholder and notify, send the prompt built from
      every message including the placeholder, then record the failure or
      read the stream. */
  function Reply(st: Live, reply: Stamp, systemText: string, transport: Transport, decode: Decoder, aud: Audience, stamps: nat -> Stamp): (r: Live)
    ensures |r.messages| == |st.messages| + 1
    ensures r.messages[..|st.messages|] == st.messages
    ensures st.memories <= r.memories && st.events <= r.events
  {
    var ms := st.messages + [Placeholder(reply)];
    var k := |st.messages|;
    var started := Live(ms, st.memories, st.events + Fanout(aud, ms) + [Requested(Prompt(systemText, ms))]);
    match transport
    case Failed(e) =>
      var failed := ms[k := ms[k].(error := e)];
      Live(failed, st.memories, started.events + Fanout(aud, failed))
    case Streamed(chunks) =>
      ReadStream(started, k, chunks, decode, aud, stamps)
  }

  /** `sendMessage(input)`: append the user message, notify, then `go()`. */
  function Exchange(st: Live, input: string, sent: Stamp, reply: Stamp, systemText: string, transport: Transport, decode: Decoder, aud: Audience, stamps: nat -> Stamp): (r: Live)
    ensures |r.messages| == |st.messages| + 2
    ensures r.messages[..|st.messages|] == st.messages
    ensures r.messages[|st.messages|] == UserMessage(sent, input)
  {
    var ms := st.messages + [UserMessage(sent, input)];
    var r := Reply(Live(ms, st.memories, st.events + Fanout(aud, ms)), reply, systemText, transport, decode, aud, stamps);
    assert r.messages[..|st.messages|] == ms[..|st.messages|];
    r
  }

  /** Appending two elements one at a time appends both. */
  lemma AppendTwo(a: seq<Message>, x: Message, y: Message)
    ensures a + [x] + [y] == a + [x, y]
  {
  }

  /** `sendMessage` is `go()` run on the conversation with the user message
      appended and notified. */
  lemma ExchangeThenReply(st: Live, input: string, sent: Stamp, reply: Stamp, systemText: string, transport: Transport, decode: Decoder, aud: Audience, stamps: nat -> Stamp)
    ensures var ms := st.messages + [UserMessage(sent, input)];
            (Exchange(st, input, sent, reply, systemText, transport, decode, aud, stamps)
             == Reply(Live(ms, st.memories, st.events + Fanout(aud, ms)), reply, systemText, transport, decode, aud, stamps))
  {
  }

  /** The start of a turn: the user message then the placeholder are each
      appended and notified before the request, built from both, is sent. */
  lemma ExchangeOpens(st: Live, input: string, sent: Stamp, reply: Stamp, systemText: string, transport: Transport, decode: Decoder, aud: Audience, stamps: nat -> Stamp)
    ensures var r := Exchange(st, input, sent, reply, systemText, transport, decode, aud, stamps);
            var asked := st.messages + [UserMessage(sent, input)];
            var started := asked + [Placeholder(reply)];
            && r.messages[|st.messages| + 1].id == reply.id
            && r.messages[|st.messages| + 1].role == Assistant
            && st.events + Fanout(aud, asked) + Fanout(aud, started) + [Requested(Prompt(systemText, started))] <= r.events
  {
    var asked := st.messages + [UserMessage(sent, input)];
    var started := asked + [Placeholder(reply)];
    var mid := Live(asked, st.memories, st.events + Fanout(aud, asked));
    var start := Live(started, st.memories, mid.events + Fanout(aud, started) + [Requested(Prompt(systemText, started))]);
    match transport
    case Failed(e) =>
    case Streamed(chunks) =>
      assert |start.messages| == |asked| + 1;
      var r := ReadStream(start, |asked|, chunks, decode, aud, stamps);
      assert r.messages[|asked|].id == reply.id && r.messages[|asked|].role == Assistant by {
        ReadStreamPlaceholder(start, |asked|, chunks, decode, aud, stamps);
      }
  }

  /** A rejected request: the placeholder takes the error message, keeps
      its empty text and stays loading; one notification follows. */
  lemma FailedReply(st: Live, reply: Stamp, systemText: string, e: Option<string>, decode: Decoder, aud: Audience, stamps: nat -> Stamp)
    ensures var r := Reply(st, reply, systemText, Failed(e), decode, aud, stamps);
            var ms := st.messages + [Placeholder(reply)];
            && r.messages[|st.messages|] == Placeholder(reply).(error := e)
            && IsLoading(r.messages[|st.messages|]) && r.messages[|st.messages|].text == ""
            && r.memories == st.memories
            && r.events == st.events + Fanout(aud, ms) + [Requested(Prompt(systemText, ms))] + Fanout(aud, r.messages)
  {
  }

  predicate StreamFinishes(chunks: seq<string>, decode: Decoder)
  {
    exists i :: 0 <= i < |chunks| && Finishes(Lines(chunks[i]), decode)
  }

  /** Over a whole stream the placeholder keeps its identity and role, its
      text only grows, and `loading` is cleared exactly when some chunk
      carries `[DONE]`. */
  lemma {:induction false} ReadStreamPlaceholder(st: Live, k: nat, chunks: seq<string>, decode: Decoder, aud: Audience, stamps: nat -> Stamp)
    requires k < |st.messages|
    ensures var m := st.messages[k];
            var r := ReadStream(st, k, chunks, decode, aud, stamps).messages[k];
            && r.id == m.id && r.role == m.role && r.timestamp == m.timestamp
            && m.text <= r.text
            && r.loading == if StreamFinishes(chunks, decode) then Some(false) else m.loading
    decreases |chunks|
  {
    if |chunks| > 0 {
      var next := ReadChunk(st, k, chunks[0], decode, aud, stamps);
      ReadLinesMessage(st, k, Lines(chunks[0]), decode, aud, stamps);
      ReadStreamPlaceholder(next, k, chunks[1..], decode, aud, stamps);
      if StreamFinishes(chunks[1..], decode) {
        var i :| 0 <= i < |chunks| - 1 && Finishes(Lines(chunks[1..][i]), decode);
        assert chunks[i + 1] == chunks[1..][i];
      }
      if StreamFinishes(chunks, decode) && !Finishes(Lines(chunks[0]), decode) {
        var i :| 0 <= i < |chunks| && Finishes(Lines(chunks[i]), decode);
        assert chunks[1..][i - 1] == chunks[i];
      }
    }
  }

  predicate NoneLoading(ms: seq<Message>)
  {
    forall i :: 0 <= i < |ms| ==> !IsLoading(ms[i])
  }

  predicate AtMostOneLoading(ms: seq<Message>)
  {
    forall i, j :: 0 <= i < j < |ms| && IsLoading(ms[i]) ==> !IsLoading(ms[j])
  }

  /** The placeholder of a turn ends loading exactly when the stream
      delivered `[DONE]`; a rejected request leaves it loading. */
  lemma ExchangePlaceholder(st: Live, input: string, sent: Stamp, reply: Stamp, systemText: string, transport: Transport, decode: Decoder, aud: Audience, stamps: nat -> Stamp)
    ensures Exchange(st, input, sent, reply, systemText, transport, decode, aud, stamps).messages[|st.messages| + 1].loading
         == if transport.Streamed? && StreamFinishes(transport.chunks, decode) then Some(false) else Some(true)
  {
    match transport
    case Failed(e) =>
    case Streamed(chunks) =>
      var asked := st.messages + [UserMessage(sent, input)];
      var started := asked + [Placeholder(reply)];
      var start := Live(started, st.memories, st.events + Fanout(aud, asked) + Fanout(aud, started) + [Requested(Prompt(systemText, started))]);
      ReadStreamPlaceholder(start, |asked|, chunks, decode, aud, stamps);
  }

  /** Starting from a conversation with nothing loading, a turn leaves at
      most its own placeholder loading, and none at all once the stream has
      delivered `[DONE]`. A rejected request or a stream that closes without
      `[DONE]` leaves the placeholder loading. */
  lemma ExchangeLoading(st: Live, input: string, sent: Stamp, reply: Stamp, systemText: string, transport: Transport, decode: Decoder, aud: Audience, stamps: nat -> Stamp)
    requires NoneLoading(st.messages)
    ensures AtMostOneLoading(Exchange(st, input, sent, reply, systemText, transport, decode, aud, stamps).messages)
    ensures transport.Streamed? && StreamFinishes(transport.chunks, decode)
        ==> NoneLoading(Exchange(st, input, sent, reply, systemText, transport, decode, aud, stamps).messages)
    ensures transport.Failed?
        ==> IsLoading(Exchange(st, input, sent, reply, systemText, transport, decode, aud, stamps).messages[|st.messages| + 1])
    ensures transport.Streamed? && !StreamFinishes(transport.chunks, decode)
        ==> IsLoading(Exchange(st, input, sent, reply, systemText, transport, decode, aud, stamps).messages[|st.messages| + 1])
  {
    ExchangePlaceholder(st, input, sent, reply, systemText, transport, decode, aud, stamps);
    TurnLoading(st.messages, Exchange(st, input, sent, reply, systemText, transport, decode, aud, stamps).messages);
  }

  /** Two messages appended to a conversation with nothing loading, the
      first not loading: at most the last is loading, and if it is not then
      nothing is. */
  lemma TurnLoading(before: seq<Message>, ms: seq<Message>)
    requires NoneLoading(before)
    requires |ms| == |before| + 2 && ms[..|before|] == before && !IsLoading(ms[|before|])
    ensures AtMostOneLoading(ms)
    ensures !IsLoading(ms[|ms| - 1]) ==> NoneLoading(ms)
  {
    forall i | 0 <= i < |before| ensures !IsLoading(ms[i]) {
      assert ms[i] == ms[..|before|][i];
    }
  }

  // ---------------------------------------------------------------------
  // The completion API's own stream shape

  /** A `data: ` line carrying a JSON object. */
  predicate IsFrameLine(payload: string)
  {
    |payload| > 0 && payload[0] == '{' && '\n' !in payload
  }

  lemma FrameLines(payload: string, decode: Decoder)
    requires IsFrameLine(payload)
    ensures '\n' !in DataPrefix + payload && !IsBlank(DataPrefix + payload)
    ensures Classify(DataPrefix + payload, decode)
         == match decode(payload) case None => Malformed case Some(f) => Delta(DeltaOf(f))
  {
    var line := DataPrefix + payload;
    assert line[0] == 'd';
    assert line[..|DataPrefix|] == DataPrefix;
    assert line[|DataPrefix|..] == payload;
    assert payload != DoneSentinel by { assert DoneSentinel[0] == '['; }
  }

  lemma DoneLine(decode: Decoder)
    ensures '\n' !in DataPrefix + DoneSentinel && !IsBlank(DataPrefix + DoneSentinel)
    ensures Classify(DataPrefix + DoneSentinel, decode) == Done
  {
    DoneLines(decode);
    assert (DataPrefix + DoneSentinel)[0] == 'd';
  }

  /** The reference view of a delta, a delta and `[DONE]`. */
  lemma TwoDeltasThenDone(lines: seq<string>, decode: Decoder, d1: string, d2: string)
    requires |lines| == 3
    requires Classify(lines[0], decode) == Delta(d1) && Classify(lines[1], decode) == Delta(d2)
    requires Classify(lines[2], decode) == Done
    ensures DeltaText(lines, decode) == d1 + d2 && Finishes(lines, decode) && !Garbled(lines, decode)
  {
    assert lines[1..][1..][0] == lines[2];
    assert DeltaText(lines[1..][1..], decode) == "";
    assert DeltaText(lines[1..], decode) == d2 + "";
    assert d2 + "" == d2;
    forall i | 0 <= i < |lines| ensures Classify(lines[i], decode) != Malformed {}
  }

  /** The reference view of a delta, an undecodable line, a delta and
      `[DONE]`. */
  lemma DeltaJunkDeltaDone(lines: seq<string>, decode: Decoder, d1: string, d2: string)
    requires |lines| == 4
    requires Classify(lines[0], decode) == Delta(d1) && Classify(lines[1], decode) == Malformed
    requires Classify(lines[2], decode) == Delta(d2) && Classify(lines[3], decode) == Done
    ensures DeltaText(lines, decode) == d1 + d2 && Finishes(lines, decode) && Garbled(lines, decode)
  {
    var tail := lines[1..][1..];
    assert tail[0] == lines[2] && tail[1..][0] == lines[3];
    assert DeltaText(tail[1..], decode) == "";
    assert DeltaText(tail, decode) == d2 + "";
    assert d2 + "" == d2;
    assert DeltaText(lines[1..], decode) == DeltaText(tail, decode);
    assert Classify(lines[0], decode) != Done;
  }

  /** Two content frames then `[DONE]`, each followed by a blank line, as
      the completion API sends them: the placeholder gains both deltas in
      order, stops loading, and records no error. */
  lemma StreamExample(st: Live, k: nat, first: string, second: string, decode: Decoder, aud: Audience, stamps: nat -> Stamp)
    requires k < |st.messages|
    requires IsFrameLine(first) && IsFrameLine(second)
    requires decode(first).Some? && decode(second).Some?
    ensures var m := st.messages[k];
            var chunk := Framed([DataPrefix + first, DataPrefix + second, DataPrefix + DoneSentinel]);
            var r := ReadChunk(st, k, chunk, decode, aud, stamps).messages[k];
            r == m.(text := m.text + (DeltaOf(decode(first).value) + DeltaOf(decode(second).value)), loading := Some(false))
  {
    var lines := [DataPrefix + first, DataPrefix + second, DataPrefix + DoneSentinel];
    FrameLines(first, decode);
    FrameLines(second, decode);
    DoneLine(decode);
    FramedLines(lines);
    TwoDeltasThenDone(lines, decode, DeltaOf(decode(first).value), DeltaOf(decode(second).value));
    ReadLinesMessage(st, k, lines, decode, aud, stamps);
  }

  /** A line that is not a frame, between two frames: both deltas still
      arrive, and the parse error is recorded. */
  lemma GarbledStreamExample(st: Live, k: nat, first: string, junk: string, second: string, decode: Decoder, aud: Audience, stamps: nat -> Stamp)
    requires k < |st.messages|
    requires IsFrameLine(first) && IsFrameLine(junk) && IsFrameLine(second)
    requires decode(first).Some? && decode(junk).None? && decode(second).Some?
    ensures var m := st.messages[k];
            var chunk := Framed([DataPrefix + first, DataPrefix + junk, DataPrefix + second, DataPrefix + DoneSentinel]);
            var r := ReadChunk(st, k, chunk, decode, aud, stamps).messages[k];
            r == m.(text := m.text + (DeltaOf(decode(first).value) + DeltaOf(decode(second).value)),
                    loading := Some(false), error := Some(ParseError))
  {
    var lines := [DataPrefix + first, DataPrefix + junk, DataPrefix + second, DataPrefix + DoneSentinel];
    FrameLines(first, decode);
    FrameLines(junk, decode);
    FrameLines(second, decode);
    DoneLine(decode);
    FramedLines(lines);
    DeltaJunkDeltaDone(lines, decode, DeltaOf(decode(first).value), DeltaOf(decode(second).value));
    ReadLinesMessage(st, k, lines, decode, aud, stamps);
  }
}
