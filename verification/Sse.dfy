/** Server-sent events: what the API prints, and the browser's incremental reader of it. */
module Sse {
  import opened Sequences
  import opened Text

  /** An event's type and its JSON payload, which is left as text. */
  datatype Message = Message(event: string, data: string)

  const BLANK := "\n\n"

  // ----------------------------------------------------------------- printing

  /** One frame: its type, its payload, and the blank line that ends it. */
  function Print(m: Message): string {
    "event: " + m.event + "\ndata: " + m.data + BLANK
  }

  /** It is three lines, the last of them empty: the type, the payload, and nothing. */
  lemma PrintIs(m: Message)
    ensures Print(m) == Join(["event: " + m.event, "data: " + m.data, "", ""], "\n")
  {
    var lines := ["event: " + m.event, "data: " + m.data, "", ""];
    assert lines[1..] == ["data: " + m.data, "", ""] && lines[1..][1..] == ["", ""] && lines[1..][1..][1..] == [""];
    assert Join(lines[1..][1..], "\n") == "\n";
    assert Join(lines[1..], "\n") == "data: " + m.data + "\n" + "\n";
    assert lines[0] + "\n" + (lines[1] + "\n" + "\n") == lines[0] + "\ndata: " + m.data + "\n\n";
  }

  function PrintAll(messages: seq<Message>): string {
    if messages == [] then "" else Print(messages[0]) + PrintAll(messages[1..])
  }

  /** An event type is one trimmed line; `json.dumps` of a dict is one line between braces. */
  predicate Printable(m: Message) {
    Trim(m.event) == m.event && '\n' !in m.event &&
    2 <= |m.data| && m.data[0] == '{' && m.data[|m.data| - 1] == '}' && '\n' !in m.data
  }

  // ------------------------------------------------------------------ reading

  /** The frames a text completes, and what is left after the last of them. */
  function Frames(text: string): seq<string> {
    var boundary := IndexOf(text, BLANK);
    if boundary == -1 then [] else [text[..boundary]] + Frames(text[boundary + 2..])
  }

  function Rest(text: string): string {
    var boundary := IndexOf(text, BLANK);
    if boundary == -1 then text else Rest(text[boundary + 2..])
  }

  predicate StartsWith(line: string, prefix: string) {
    prefix <= line
  }

  /** The last `event:` line names the type. */
  function EventIn(lines: seq<string>): string {
    if lines == [] then "message"
    else if StartsWith(lines[|lines| - 1], "event:") then Trim(lines[|lines| - 1][|"event:"|..])
    else EventIn(lines[..|lines| - 1])
  }

  /** Every `data:` line is payload. */
  function DataIn(lines: seq<string>): seq<string> {
    if lines == [] then []
    else
      var line := lines[|lines| - 1];
      DataIn(lines[..|lines| - 1]) + if StartsWith(line, "data:") then [Trim(line[|"data:"|..])] else []
  }

  /** What a frame dispatches: nothing without a `data:` line. */
  function MessageOf(frame: string): seq<Message> {
    var lines := SplitOn(frame, "\n");
    if DataIn(lines) == [] then [] else [Message(EventIn(lines), Join(DataIn(lines), "\n"))]
  }

  function Messages(frames: seq<string>): seq<Message> {
    if frames == [] then [] else Messages(frames[..|frames| - 1]) + MessageOf(frames[|frames| - 1])
  }

  /** Parse one frame line by line. */
  method DispatchFrame(frame: string) returns (dispatched: seq<Message>)
    ensures dispatched == MessageOf(frame)
  {
    hide SplitOn, Trim;
    var event, dataLines := "message", [];
    var lines := SplitOn(frame, "\n");
    for i := 0 to |lines|
      invariant event == EventIn(lines[..i]) && dataLines == DataIn(lines[..i])
    {
      var line := lines[i];
      assert lines[..i + 1][..i] == lines[..i];
      if StartsWith(line, "event:") {
        assert line[0] == 'e';
        event := Trim(line[|"event:"|..]);
      } else if StartsWith(line, "data:") {
        dataLines := dataLines + [Trim(line[|"data:"|..])];
      }
    }
    assert lines[..|lines|] == lines;
    if |dataLines| == 0 {
      return [];
    }
    return [Message(event, Join(dataLines, "\n"))];
  }

  function Concat(parts: seq<string>): string {
    if parts == [] then "" else Concat(parts[..|parts| - 1]) + parts[|parts| - 1]
  }

  /** Read a response body, dispatching each frame as its blank line arrives. */
  method ConsumeSse(parts: seq<string>) returns (dispatched: seq<Message>, buffer: string)
    ensures dispatched == Messages(Frames(Concat(parts)))
    ensures buffer == Rest(Concat(parts))
  {
    hide MessageOf, IndexOf;
    dispatched, buffer := [], "";
    ghost var frames: seq<string> := [];
    NothingYet();
    for i := 0 to |parts|
      invariant frames == Frames(Concat(parts[..i])) && dispatched == Messages(frames)
      invariant buffer == Rest(Concat(parts[..i]))
    {
      ghost var all := Concat(parts[..i + 1]);
      assert parts[..i + 1][..i] == parts[..i];
      FramesAppend(Concat(parts[..i]), parts[i]);
      buffer := buffer + parts[i];
      var boundary := IndexOf(buffer, BLANK);
      while boundary != -1
        invariant boundary == IndexOf(buffer, BLANK)
        invariant frames + Frames(buffer) == Frames(all) && dispatched == Messages(frames)
        invariant Rest(buffer) == Rest(all)
        decreases |buffer|
      {
        IndexInside(buffer, BLANK);
        var messages := DispatchFrame(buffer[..boundary]);
        dispatched := dispatched + messages;
        frames := frames + [buffer[..boundary]];
        buffer := buffer[boundary + 2..];
        boundary := IndexOf(buffer, BLANK);
      }
    }
    assert parts[..|parts|] == parts;
  }

  // ------------------------------------------------------- however it is cut

  lemma NothingYet()
    ensures Frames("") == [] && Rest("") == ""
  {
    assert IndexOf("", BLANK) == -1;
  }

  lemma IndexInside(s: string, pattern: string)
    requires IndexOf(s, pattern) != -1
    ensures 0 <= IndexOf(s, pattern) <= |s| - |pattern|
  {
  }

  /** More text does not move the first blank line. */
  lemma IndexStays(text: string, more: string, pattern: string)
    requires IndexOf(text, pattern) != -1
    ensures IndexOf(text + more, pattern) == IndexOf(text, pattern)
  {
    var all, i := text + more, IndexOf(text, pattern);
    assert OccursAt(text, pattern, i);
    assert all[i..i + |pattern|] == text[i..i + |pattern|];
    assert OccursAt(all, pattern, i);
    forall j: nat | j < i
      ensures !OccursAt(all, pattern, j)
    {
      assert j + |pattern| <= |text| ==> all[j..j + |pattern|] == text[j..j + |pattern|];
      assert !OccursAt(text, pattern, j);
    }
  }

  /** Reading a text in two goes: the second starts from what the first left over. */
  lemma {:induction false} FramesAppend(text: string, more: string)
    ensures Frames(text + more) == Frames(text) + Frames(Rest(text) + more)
    ensures Rest(text + more) == Rest(Rest(text) + more)
    decreases |text|
  {
    hide IndexOf, Frames, Rest;
    var boundary, all := IndexOf(text, BLANK), text + more;
    FirstFrame(text);
    FirstFrame(all);
    if boundary != -1 {
      IndexStays(text, more, BLANK);
      IndexInside(text, BLANK);
      var after := text[boundary + 2..];
      FramesAppend(after, more);
      assert all[..boundary] == text[..boundary] && all[boundary + 2..] == after + more;
      Regroup([text[..boundary]], Frames(after), Frames(Rest(text) + more));
    }
  }

  lemma FirstFrame(text: string)
    ensures var boundary := IndexOf(text, BLANK);
            if boundary == -1 then Frames(text) == [] && Rest(text) == text
            else boundary + 2 <= |text| && Frames(text) == [text[..boundary]] + Frames(text[boundary + 2..]) &&
                 Rest(text) == Rest(text[boundary + 2..])
  {
    hide IndexOf, OccursAt;
    if IndexOf(text, BLANK) != -1 {
      IndexInside(text, BLANK);
    }
  }

  // --------------------------------------------------------------- round trip

  function FrameOf(m: Message): string {
    "event: " + m.event + "\ndata: " + m.data
  }

  lemma TrimPayload(data: string)
    requires 2 <= |data| && data[0] == '{' && data[|data| - 1] == '}'
    ensures Trim(data) == data
  {
    assert Indent(data) == 0 && data[0..] == data;
    assert TrimmedLength(data) == |data| && data[..|data|] == data;
  }

  /** A printed frame dispatches the message it was printed from. */
  lemma PrintedMessage(m: Message)
    requires Printable(m)
    ensures MessageOf(FrameOf(m)) == [m]
  {
    hide Trim, IndexOf, SplitOn;
    var lines := ["event: " + m.event, "data: " + m.data];
    assert FrameOf(m) == Join(lines, "\n") by {
      assert lines[1..] == ["data: " + m.data];
    }
    SplitOnJoin(lines, "\n");
    assert lines[0][|"event:"|..] == " " + m.event && lines[1][|"data:"|..] == " " + m.data;
    TrimSkipsSpace(m.event);
    TrimSkipsSpace(m.data);
    TrimPayload(m.data);
    assert lines[1][0] == 'd' && lines[..1] == [lines[0]] && lines[..0] == [];
    assert EventIn(lines) == EventIn(lines[..1]) == m.event;
    assert lines[0][0] == 'e';
    assert lines[1] == "data:" + (" " + m.data) && StartsWith(lines[1], "data:");
    assert lines[..1][..0] == [] && DataIn(lines[..1]) == [];
    assert DataIn(lines) == [m.data];
  }

  /** A printed frame ends at its own blank line. */
  lemma PrintedFrame(m: Message, more: string)
    requires Printable(m)
    ensures var text, n := Print(m) + more, |FrameOf(m)|;
            IndexOf(text, BLANK) == n && text[..n] == FrameOf(m) && text[n + 2..] == more
  {
    var text, n := Print(m) + more, |FrameOf(m)|;
    assert OccursAt(text, BLANK, n);
    forall j: nat | j < n
      ensures !OccursAt(text, BLANK, j)
    {
      NewlineInFrame(m, j);
      assert text[j] == FrameOf(m)[j];
      if j == |"event: " + m.event| {
        assert text[j + 1] == 'd';
        OccurrenceHas(text, BLANK, j, 1);
      } else {
        OccurrenceHas(text, BLANK, j, 0);
      }
    }
  }

  lemma NewlineInFrame(m: Message, j: nat)
    requires Printable(m) && j < |FrameOf(m)|
    ensures FrameOf(m)[j] == '\n' <==> j == |"event: " + m.event|
  {
    var head, tail := "event: " + m.event, "data: " + m.data;
    assert FrameOf(m) == head + "\n" + tail;
    if j < |head| {
      assert FrameOf(m)[j] == head[j];
    } else if j > |head| {
      assert FrameOf(m)[j] == tail[j - |head| - 1];
    }
  }

  function FramesOf(messages: seq<Message>): (frames: seq<string>)
    ensures |frames| == |messages| && forall i :: 0 <= i < |messages| ==> frames[i] == FrameOf(messages[i])
  {
    if messages == [] then [] else [FrameOf(messages[0])] + FramesOf(messages[1..])
  }

  lemma {:induction false} PrintedAll(messages: seq<Message>)
    requires forall i :: 0 <= i < |messages| ==> Printable(messages[i])
    ensures Frames(PrintAll(messages)) == FramesOf(messages)
    ensures Rest(PrintAll(messages)) == ""
  {
    hide IndexOf, Printable, FrameOf, Print;
    if messages == [] {
      NothingYet();
    } else {
      var m, rest := messages[0], PrintAll(messages[1..]);
      PrintedFrame(m, rest);
      PrintedAll(messages[1..]);
    }
  }

  lemma {:induction false} MessagesPrinted(messages: seq<Message>)
    requires forall i :: 0 <= i < |messages| ==> Printable(messages[i])
    ensures Messages(FramesOf(messages)) == messages
  {
    hide MessageOf, Printable, FrameOf;
    if messages != [] {
      var n := |messages| - 1;
      var frames := FramesOf(messages);
      MessagesPrinted(messages[..n]);
      PrintedMessage(messages[n]);
      assert frames[..n] == FramesOf(messages[..n]);
      assert messages == messages[..n] + [messages[n]];
    }
  }

  /** However the printed stream is cut into reads, exactly its messages are dispatched, and nothing is left over. */
  lemma PrintedStreamIsRead(messages: seq<Message>, parts: seq<string>)
    requires forall i :: 0 <= i < |messages| ==> Printable(messages[i])
    requires Concat(parts) == PrintAll(messages)
    ensures Messages(Frames(Concat(parts))) == messages
    ensures Rest(Concat(parts)) == ""
  {
    PrintedAll(messages);
    MessagesPrinted(messages);
  }

  // ------------------------------------------------------ any text, any frame

  /** Frames, each with the blank line behind it. */
  function Ended(frames: seq<string>): string {
    if frames == [] then "" else frames[0] + "\n\n" + Ended(frames[1..])
  }

  /** The text is cut at every first blank line, and nothing is lost: no frame and no rest holds one. */
  lemma {:induction false} FramesAre(text: string)
    ensures text == Ended(Frames(text)) + Rest(text)
    ensures forall frame :: frame in Frames(text) ==> NoneIn(frame, "\n\n")
    ensures NoneIn(Rest(text), "\n\n")
    decreases |text|
  {
    hide IndexOf, Frames, Rest, NoneIn;
    var boundary := IndexOf(text, BLANK);
    FirstFrame(text);
    if boundary == -1 {
      NoBlankLeft(text);
    } else {
      OccursInside(text, BLANK);
      FirstPiece(text, BLANK);
      var frame, rest := text[..boundary], text[boundary + 2..];
      FramesAre(rest);
      assert text == frame + "\n\n" + rest;
      var frames := [frame] + Frames(rest);
      assert frames[1..] == Frames(rest);
      Regroup(frame + "\n\n", Ended(Frames(rest)), Rest(rest));
    }
  }

  lemma NoBlankLeft(text: string)
    requires IndexOf(text, BLANK) == -1
    ensures NoneIn(text, "\n\n")
  {
  }

  /** The line begins with this field's name. */
  predicate Tells(line: string, field: string) {
    |field| <= |line| && line[..|field|] == field
  }

  /** A frame's type is what its last `event:` line says, trimmed, and `message` without one. */
  lemma {:induction false} EventIs(lines: seq<string>, i: nat)
    ensures (forall j :: 0 <= j < |lines| ==> !Tells(lines[j], "event:")) ==> EventIn(lines) == "message"
    ensures i < |lines| && Tells(lines[i], "event:") && (forall j :: i < j < |lines| ==> !Tells(lines[j], "event:")) ==>
              EventIn(lines) == Trim(lines[i][6..])
  {
    hide Trim;
    if lines != [] {
      var n := |lines| - 1;
      EventIs(lines[..n], i);
      assert StartsWith(lines[n], "event:") <==> Tells(lines[n], "event:");
    }
  }

  /** The line is a `data:` line and this is what it carries. */
  predicate Carries(line: string, payload: string) {
    Tells(line, "data:") && payload == Trim(line[5..])
  }

  /** Its payload lines are the `data:` lines, trimmed, all of them and in order. */
  lemma {:induction false} DataIs(lines: seq<string>) returns (picks: seq<nat>)
    ensures |picks| == |DataIn(lines)| && forall i, j :: 0 <= i < j < |picks| ==> picks[i] < picks[j]
    ensures forall k :: 0 <= k < |picks| ==> picks[k] < |lines| && Carries(lines[picks[k]], DataIn(lines)[k])
    ensures forall j :: 0 <= j < |lines| && Tells(lines[j], "data:") ==> j in picks
  {
    hide Trim, Tells, Carries, DataIn;
    DataStep(lines);
    if lines == [] {
      picks := [];
    } else {
      var n := |lines| - 1;
      var front := lines[..n];
      var before := DataIs(front);
      assert forall k :: 0 <= k < n ==> front[k] == lines[k];
      if Tells(lines[n], "data:") {
        picks := before + [n];
        forall j | 0 <= j < |lines| && Tells(lines[j], "data:")
          ensures j in picks
        {
          assert j < n ==> j in before;
          assert picks[|before|] == n;
        }
      } else {
        picks := before;
      }
    }
  }

  /** One more line is one more payload, or none. */
  lemma DataStep(lines: seq<string>)
    ensures lines == [] ==> DataIn(lines) == []
    ensures lines != [] ==>
              var n := |lines| - 1;
              if Tells(lines[n], "data:") then
                DataIn(lines) == DataIn(lines[..n]) + [Trim(lines[n][5..])] && Carries(lines[n], Trim(lines[n][5..]))
              else DataIn(lines) == DataIn(lines[..n])
  {
    hide Trim;
    if lines != [] {
      assert StartsWith(lines[|lines| - 1], "data:") <==> Tells(lines[|lines| - 1], "data:");
    }
  }

  /** A frame is its lines, and dispatches one message of their type and payload, or nothing without a `data:` line. */
  lemma DispatchIs(frame: string) returns (lines: seq<string>, data: seq<string>)
    ensures Join(lines, "\n") == frame && forall line :: line in lines ==> NoneIn(line, "\n")
    ensures data == DataIn(lines)
    ensures MessageOf(frame) == if data == [] then [] else [Message(EventIn(lines), Join(data, "\n"))]
  {
    lines := SplitOn(frame, "\n");
    data := DataIn(lines);
    SplitOnIs(frame, "\n");
  }
}
