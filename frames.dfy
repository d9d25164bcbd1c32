/** The line framing applied to one chunk of the completion stream
    (src/chat-model.ts, the `data` handler): a simplified subset of the
    `data:` field of server-sent events, as in section 9.2 of the WHATWG
    HTML Living Standard. */
module Frames {

  import opened Optional
  import opened Text

  /** What survives of `JSON.parse(message)` once `choices[0].delta.content`
      has been read: the content, or `None` when it is absent or falsy. */
  datatype Frame = Frame(content: Option<string>)

  /** JSON decoding of one frame, abstracted: `None` stands for every way the
      `try` block throws (malformed JSON, or no `choices[0].delta`). */
  type Decoder = string -> Option<Frame>

  /** What one line of a chunk asks the session to do. */
  datatype Line = Delta(text: string) | Malformed | Done

  const DataPrefix := "data: "
  const DoneSentinel := "[DONE]"

  /** `content || ""`: the text a frame appends. */
  function DeltaOf(f: Frame): (r: string)
    ensures f.content.None? ==> r == ""
    ensures f.content.Some? ==> r == f.content.value
  {
    match f.content
    case Some(c) => c
    case None => ""
  }

  /** `data.toString().split("\n").filter(line => line.trim() !== "")`: the
      non-blank lines of a chunk, in order. */
  function Lines(chunk: string): (r: seq<string>)
    ensures forall i :: 0 <= i < |r| ==> !IsBlank(r[i]) && '\n' !in r[i]
  {
    DropBlank(Split(chunk, '\n'))
  }

  predicate HasDataPrefix(line: string)
  {
    |line| >= |DataPrefix| && line[..|DataPrefix|] == DataPrefix
  }

  /** `line.replace(/^data: /, "")`: one leading `data: ` removed, if there. */
  function StripDataPrefix(line: string): (r: string)
    ensures HasDataPrefix(line) ==> DataPrefix + r == line
    ensures !HasDataPrefix(line) ==> r == line
  {
    if HasDataPrefix(line) then line[|DataPrefix|..] else line
  }

  /** The branch the handler takes for one line. */
  function Classify(line: string, decode: Decoder): (r: Line)
    ensures r == Done <==> StripDataPrefix(line) == DoneSentinel
    ensures r == Malformed <==> StripDataPrefix(line) != DoneSentinel && decode(StripDataPrefix(line)).None?
    ensures r.Delta? ==> decode(StripDataPrefix(line)).Some? && r.text == DeltaOf(decode(StripDataPrefix(line)).value)
  {
    var message := StripDataPrefix(line);
    if message == DoneSentinel then Done
    else match decode(message)
      case None => Malformed
      case Some(f) => Delta(DeltaOf(f))
  }

  /** The prefix is removed once only: a doubled prefix leaves one behind. */
  lemma StripOnce(payload: string)
    ensures StripDataPrefix(DataPrefix + DataPrefix + payload) == DataPrefix + payload
  {
    var line := DataPrefix + DataPrefix + payload;
    assert line[..|DataPrefix|] == DataPrefix;
    assert line[|DataPrefix|..] == DataPrefix + payload;
  }

  /** `data:` without the following space is not a prefix: such a line is
      decoded as it stands. */
  lemma NoSpaceNoStrip(payload: string)
    requires |payload| == 0 || payload[0] != ' '
    ensures StripDataPrefix("data:" + payload) == "data:" + payload
  {
    var line := "data:" + payload;
    assert |line| >= |DataPrefix| ==> line[..|DataPrefix|][5] == payload[0];
  }

  /** The sentinel ends the stream with or without the prefix, whatever the
      decoder would make of it. */
  lemma DoneLines(decode: Decoder)
    ensures Classify(DataPrefix + DoneSentinel, decode) == Done
    ensures Classify(DoneSentinel, decode) == Done
  {
    assert (DataPrefix + DoneSentinel)[..|DataPrefix|] == DataPrefix;
    assert (DataPrefix + DoneSentinel)[|DataPrefix|..] == DoneSentinel;
    assert !HasDataPrefix(DoneSentinel) by {
      assert DoneSentinel[0] != DataPrefix[0];
    }
  }

  /** A chunk made of separator-free lines each followed by a blank line
      (the shape of the completion API's stream) yields exactly those
      lines. */
  lemma {:induction false} FramedLines(frames: seq<string>)
    requires forall i :: 0 <= i < |frames| ==> '\n' !in frames[i] && !IsBlank(frames[i])
    ensures Lines(Framed(frames)) == frames
    decreases |frames|
  {
    if |frames| == 0 {
      assert Split("", '\n') == [""];
      assert DropBlank([""]) == [] by {
        assert IsBlank("");
        assert [""][1..] == [];
      }
    } else {
      var f := frames[0];
      var rest := Framed(frames[1..]);
      FramedLines(frames[1..]);
      SplitFrame(f, rest);
      DropBlankFrame(f, Split(rest, '\n'));
      assert frames == [f] + frames[1..];
    }
  }

  lemma SplitFrame(f: string, rest: string)
    requires '\n' !in f
    ensures Split(f + "\n\n" + rest, '\n') == [f, ""] + Split(rest, '\n')
  {
    assert f + "\n\n" + rest == f + ['\n'] + ("" + ['\n'] + rest);
    SplitPiece(f, "" + ['\n'] + rest, '\n');
    SplitPiece("", rest, '\n');
  }

  lemma DropBlankFrame(f: string, rest: seq<string>)
    requires !IsBlank(f)
    ensures DropBlank([f, ""] + rest) == [f] + DropBlank(rest)
  {
    DropBlankAppend([f, ""], rest);
    assert DropBlank([f, ""]) == [f] by {
      assert [f, ""][1..] == [""];
      assert [""][1..] == [];
      assert IsBlank("");
    }
  }

  /** Each frame followed by `\n\n`. */
  function Framed(frames: seq<string>): string
    decreases |frames|
  {
    if |frames| == 0 then "" else frames[0] + "\n\n" + Framed(frames[1..])
  }
}
