/** The `ChatSession` class of src/chat-model.ts. Its fields are updated in
    place as in the source; each method is proved against the specification
    functions of module `ChatModel`. The ghost `log` records, in order,
    every subscriber run, every call to `saveConvo` with the conversation
    handed to it, and every completion request sent. */
module ChatSessions {

  import opened Optional
  import opened Text
  import opened Frames
  import opened Remember
  import opened ChatModel

  class ChatSession {
    var slug: string
    var name: string
    var system: string
    var userName: string
    var id: string
    var messages: seq<Message>
    var memories: seq<Memory>
    var subscribers: seq<Handler>
    ghost var log: seq<Event>

    /** Who `changed()` reaches, and under which keys it saves. */
    function CurrentAudience(): Audience
      reads this`slug, this`id, this`subscribers
    {
      Audience(slug, id, subscribers)
    }

    /** `new ChatSession(bot)`, with the fresh `uuid()` as a parameter. */
    constructor (bot: BotSummary, freshId: string)
      ensures slug == bot.slug && name == bot.name && system == bot.system
      ensures userName == "" && id == freshId
      ensures messages == [] && memories == [] && subscribers == [] && log == []
    {
      slug, name, system := bot.slug, bot.name, bot.system;
      userName := "";
      id := freshId;
      messages, memories, subscribers := [], [], [];
      log := [];
    }

    /** `init()`: the user's name from the configuration. */
    method Init(configuredUserName: string)
      modifies this`userName
      ensures userName == configuredUserName
    {
      userName := configuredUserName;
    }

    /** `restoreConvo(convo)`: id and messages replaced wholesale. */
    method RestoreConvo(convo: Convo)
      modifies this`id, this`messages
      ensures id == convo.id && messages == convo.messages
    {
      id := convo.id;
      messages := convo.messages;
    }

    /** `restoreMemories(memories)`: the memory list replaced wholesale. */
    method RestoreMemories(restored: seq<Memory>)
      modifies this`memories
      ensures memories == restored
    {
      memories := restored;
    }

    /** `subscribe(handler)`: the handler joins the end of the list. */
    method Subscribe(h: Handler)
      modifies this`subscribers
      ensures subscribers == old(subscribers) + [h]
    {
      subscribers := subscribers + [h];
    }

    /** The closure `subscribe` returns: every occurrence of the handler
      leaves the list, the others keep their order. */
    method Unsubscribe(h: Handler)
      modifies this`subscribers
      ensures subscribers == Without(old(subscribers), h)
      ensures h !in subscribers
    {
      subscribers := Without(subscribers, h);
    }

    /** `changed()`: run the subscribers in list order, then call
      `saveConvo` with the current conversation. */
    method Changed()
      modifies this`log
      ensures log == old(log) + Fanout(CurrentAudience(), messages)
    {
      for i := 0 to |subscribers|
        invariant log == old(log) + Notifications(subscribers[..i])
      {
        assert subscribers[..i + 1] == subscribers[..i] + [subscribers[i]];
        log := log + [Notified(subscribers[i])];
      }
      assert subscribers[..|subscribers|] == subscribers;
      log := log + [Saved(slug, Convo(id, messages))];
    }

    /** `handleResponse(msg)` on message `k`: one memory pushed per match of
      the annotation in its text, left to right, after the existing ones. */
    method HandleResponse(k: nat, stamps: nat -> Stamp)
      requires k < |messages|
      modifies this`memories
      ensures memories == old(memories) + NewMemories(Extract(messages[k].text), id, stamps, |old(memories)|)
    {
      var matches := Extract(messages[k].text);
      ghost var base := |memories|;
      for i := 0 to |matches|
        invariant memories == old(memories) + NewMemories(matches[..i], id, stamps, base)
      {
        var stamp := stamps(|memories|);
        var memory := Memory(stamp.id, stamp.timestamp, id, matches[i]);
        assert matches[..i + 1] == matches[..i] + [matches[i]];
        NewMemoriesAppend(matches[..i], matches[i], id, stamps, base);
        memories := memories + [memory];
      }
      assert matches[..|matches|] == matches;
    }

    /** The body of the `data` handler for one non-blank line, the
      placeholder being message `k`. Answers whether the line was `[DONE]`,
      after which the handler reads no further line of this chunk. */
    method OnLine(k: nat, line: string, decode: Decoder, stamps: nat -> Stamp) returns (finished: bool)
      requires k < |messages|
      modifies this`messages, this`memories, this`log
      ensures finished <==> Classify(line, decode) == Done
      ensures Live(messages, memories, log) == Step(Live(old(messages), old(memories), old(log)), k, line, decode, CurrentAudience(), stamps)
    {
      var message := StripDataPrefix(line);
      if message == DoneSentinel {
        messages := messages[k := messages[k].(loading := Some(false))];
        HandleResponse(k, stamps);
        Changed();
        return true;
      }
      match decode(message) {
        case Some(frame) =>
          messages := messages[k := messages[k].(text := messages[k].text + DeltaOf(frame))];
          Changed();
        case None =>
          messages := messages[k := messages[k].(error := Some(ParseError))];
      }
      return false;
    }

    /** The `data` handler on one chunk: its non-blank lines in order, up
      to and including the first `[DONE]`. */
    method OnData(k: nat, chunk: string, decode: Decoder, stamps: nat -> Stamp)
      requires k < |messages|
      modifies this`messages, this`memories, this`log
      ensures Live(messages, memories, log) == ReadChunk(Live(old(messages), old(memories), old(log)), k, chunk, decode, CurrentAudience(), stamps)
    {
      var lines := Lines(chunk);
      ghost var aud := CurrentAudience();
      ghost var goal := ReadLines(Live(messages, memories, log), k, lines, decode, aud, stamps);
      var i := 0;
      while i < |lines|
        invariant i <= |lines| && k < |messages| && aud == CurrentAudience()
        invariant goal == ReadLines(Live(messages, memories, log), k, lines[i..], decode, aud, stamps)
        decreases |lines| - i
      {
        ReadLinesFirst(Live(messages, memories, log), k, lines[i..], decode, aud, stamps);
        assert lines[i..][0] == lines[i] && lines[i..][1..] == lines[i + 1..];
        var finished := OnLine(k, lines[i], decode, stamps);
        if finished {
          return;
        }
        i := i + 1;
      }
    }

    /** The `data` handler, which stays registered, run on every chunk of
      the stream in turn. */
    method OnStream(k: nat, chunks: seq<string>, decode: Decoder, stamps: nat -> Stamp)
      requires k < |messages|
      modifies this`messages, this`memories, this`log
      ensures Live(messages, memories, log) == ReadStream(Live(old(messages), old(memories), old(log)), k, chunks, decode, CurrentAudience(), stamps)
    {
      ghost var aud := CurrentAudience();
      ghost var goal := ReadStream(Live(messages, memories, log), k, chunks, decode, aud, stamps);
      for j := 0 to |chunks|
        invariant k < |messages| && aud == CurrentAudience()
        invariant goal == ReadStream(Live(messages, memories, log), k, chunks[j..], decode, aud, stamps)
      {
        assert chunks[j..][0] == chunks[j] && chunks[j..][1..] == chunks[j + 1..];
        OnData(k, chunks[j], decode, stamps);
      }
    }

    /** The opening of `go()`: push the loading placeholder, notify, and
      send the request built from every message, the placeholder included. */
    method Open(reply: Stamp, systemText: string) returns (prompt: seq<Turn>)
      modifies this`messages, this`log
      ensures messages == old(messages) + [Placeholder(reply)]
      ensures prompt == Prompt(systemText, messages)
      ensures log == old(log) + Fanout(CurrentAudience(), messages) + [Requested(prompt)]
    {
      messages := messages + [Placeholder(reply)];
      Changed();
      prompt := Prompt(systemText, messages);
      log := log + [Requested(prompt)];
    }

    /** `go()`: open the placeholder, notify, send the prompt, then record
      the failure or read every chunk of the stream. Returns the request's
      messages. */
    method Go(reply: Stamp, dateString: string, timeString: string, transport: Transport, decode: Decoder, stamps: nat -> Stamp)
      returns (prompt: seq<Turn>)
      modifies this`messages, this`memories, this`log
      ensures prompt == Prompt(SystemPrompt(name, system, dateString, timeString, userName), old(messages) + [Placeholder(reply)])
      ensures Live(messages, memories, log)
           == Reply(Live(old(messages), old(memories), old(log)), reply,
                    SystemPrompt(name, system, dateString, timeString, userName),
                    transport, decode, CurrentAudience(), stamps)
    {
      var systemText := SystemPrompt(name, system, dateString, timeString, userName);
      ghost var started := old(messages) + [Placeholder(reply)];
      prompt := Open(reply, systemText);
      var k := |messages| - 1;
      assert Live(messages, memories, log)
          == Live(started, old(memories), old(log) + Fanout(CurrentAudience(), started) + [Requested(Prompt(systemText, started))]);
      match transport {
        case Failed(e) =>
          messages := messages[k := messages[k].(error := e)];
          Changed();
        case Streamed(chunks) =>
          OnStream(k, chunks, decode, stamps);
      }
    }

    /** `sendMessage(input)`: append the user message, notify, then run
      `go()`. Returns the request's messages. */
    method SendMessage(input: string, sent: Stamp, reply: Stamp, dateString: string, timeString: string, transport: Transport, decode: Decoder, stamps: nat -> Stamp)
      returns (prompt: seq<Turn>)
      modifies this`messages, this`memories, this`log
      ensures prompt == Prompt(SystemPrompt(name, system, dateString, timeString, userName),
                               old(messages) + [UserMessage(sent, input), Placeholder(reply)])
      ensures Live(messages, memories, log)
           == Exchange(Live(old(messages), old(memories), old(log)), input, sent, reply,
                       SystemPrompt(name, system, dateString, timeString, userName),
                       transport, decode, CurrentAudience(), stamps)
    {
      ghost var before := Live(messages, memories, log);
      ghost var asked := messages + [UserMessage(sent, input)];
      ghost var systemText := SystemPrompt(name, system, dateString, timeString, userName);
      messages := messages + [UserMessage(sent, input)];
      Changed();
      assert Live(messages, memories, log) == Live(asked, before.memories, before.events + Fanout(CurrentAudience(), asked));
      prompt := Go(reply, dateString, timeString, transport, decode, stamps);
      ExchangeThenReply(before, input, sent, reply, systemText, transport, decode, CurrentAudience(), stamps);
      AppendTwo(before.messages, UserMessage(sent, input), Placeholder(reply));
    }
  }
}
