/**
 * The browser side of the chat stream: the body arrives in reads of
 * arbitrary size, is accumulated in a buffer, and every complete frame (a
 * piece ending in a blank line) is examined on its own. A frame starting
 * with `data: ` whose JSON has a truthy `done` ends the reading; one with a
 * truthy `text` hands that text on; everything else is skipped.
 */
module StreamReader {
  import opened Common
  import opened Strings
  import opened Json
  import opened Http

  const FrameSeparator := "\n\n"

  /** What one complete frame makes the reader do. */
  datatype Action = Skip | Emit(text: string) | Stop

  /**
   * One frame. A parse error is caught and skipped, and so is `null`,
   * whose `done` property cannot be read. The text is handed on as the
   * string it becomes when the page appends it.
   */
  function Classify(frame: string, parse: Parser): (a: Action)
    ensures a != Skip ==>
      && StartsWith(frame, DataPrefix)
      && parse(frame[|DataPrefix|..]).Parsed?
      && !parse(frame[|DataPrefix|..]).value.JNull?
    ensures a.Stop? ==> Truthy(Field(parse(frame[|DataPrefix|..]).value, "done"))
    ensures a.Emit? ==>
      && !Truthy(Field(parse(frame[|DataPrefix|..]).value, "done"))
      && Truthy(Field(parse(frame[|DataPrefix|..]).value, "text"))
  {
    if !StartsWith(frame, DataPrefix) then Skip
    else
      match parse(frame[|DataPrefix|..])
      case Unparseable(_) => Skip
      case Parsed(data) =>
        if data.JNull? then Skip
        else if Truthy(Field(data, "done")) then Stop
        else if Truthy(Field(data, "text")) then Emit(ToJsString(Field(data, "text").value))
        else Skip
  }

  /** The texts handed on, and whether a `done` frame ended the reading. */
  datatype Decoded = Decoded(delivered: seq<string>, stopped: bool)

  /** The frames, in order, up to and excluding the first `done`; each frame hands on at most one text. */
  function Dispatch(frames: seq<string>, parse: Parser): (d: Decoded)
    ensures |d.delivered| <= |frames|
    ensures |frames| == 0 ==> d == Decoded([], false)
  {
    if |frames| == 0 then Decoded([], false)
    else
      match Classify(frames[0], parse)
      case Stop => Decoded([], true)
      case Skip => Dispatch(frames[1..], parse)
      case Emit(text) =>
        var rest := Dispatch(frames[1..], parse);
        Decoded([text] + rest.delivered, rest.stopped)
  }

  /** The complete frames of a text: every piece of the split but the unterminated last one. */
  function CompleteFrames(body: string): seq<string> {
    AllButLast(Split(body, FrameSeparator))
  }

  /**
   * The reference reading of a whole body at once: at most one text per
   * complete frame, and nothing at all before the first blank line arrives.
   */
  function Decode(body: string, parse: Parser): (d: Decoded)
    ensures |d.delivered| <= |CompleteFrames(body)|
    ensures IndexOf(body, FrameSeparator).None? ==> d == Decoded([], false)
  {
    Dispatch(CompleteFrames(body), parse)
  }

  /** Dispatching two runs of frames is dispatching the first and, unless it stopped, the second. */
  lemma {:induction false} DispatchAppend(a: seq<string>, b: seq<string>, parse: Parser)
    ensures Dispatch(a + b, parse) ==
      if Dispatch(a, parse).stopped then Dispatch(a, parse)
      else Decoded(Dispatch(a, parse).delivered + Dispatch(b, parse).delivered, Dispatch(b, parse).stopped)
  {
    if |a| == 0 {
      assert a + b == b;
    } else {
      assert (a + b)[0] == a[0];
      assert (a + b)[1..] == a[1..] + b;
      DispatchAppend(a[1..], b, parse);
    }
  }

  /** Nothing after a `done` frame is ever handed on. */
  lemma StopIsFinal(a: seq<string>, b: seq<string>, parse: Parser)
    requires Dispatch(a, parse).stopped
    ensures Dispatch(a + b, parse) == Dispatch(a, parse)
  {
    DispatchAppend(a, b, parse);
  }

  /**
   * A frame that does not start with `data: `, whose payload does not
   * parse, or whose payload is `null` is passed over, and the frames after
   * it are read as if it were not there.
   */
  lemma SkippedFrame(frame: string, rest: seq<string>, parse: Parser)
    requires !StartsWith(frame, DataPrefix) || parse(frame[|DataPrefix|..]).Unparseable?
      || parse(frame[|DataPrefix|..]) == Parsed(JNull)
    ensures Dispatch([frame] + rest, parse) == Dispatch(rest, parse)
  {
    assert ([frame] + rest)[1..] == rest;
  }

  /** A `done` frame hands nothing on, not even a `text` it carries, and ends the reading. */
  lemma DoneFrameStops(frame: string, rest: seq<string>, parse: Parser)
    requires StartsWith(frame, DataPrefix)
    requires parse(frame[|DataPrefix|..]).Parsed?
    requires Truthy(Field(parse(frame[|DataPrefix|..]).value, "done"))
    ensures Dispatch([frame] + rest, parse) == Decoded([], true)
  {
  }

  lemma AllButLastAppend<T>(a: seq<T>, b: seq<T>)
    requires |b| > 0
    ensures AllButLast(a + b) == a + AllButLast(b)
    ensures Last(a + b) == Last(b)
  {
  }

  lemma SplitOffLast<T>(a: seq<T>, b: seq<T>)
    requires |b| > 0
    ensures a + b == (a + AllButLast(b)) + [Last(b)]
  {
    assert b == AllButLast(b) + [Last(b)];
  }

  /** The complete frames of `s + c`: those of `s`, then those the unterminated rest of `s` forms with `c`. */
  lemma CompleteFramesAppend(s: string, c: string)
    ensures CompleteFrames(s + c) == CompleteFrames(s) + CompleteFrames(Last(Split(s, FrameSeparator)) + c)
    ensures Last(Split(s + c, FrameSeparator)) == Last(Split(Last(Split(s, FrameSeparator)) + c, FrameSeparator))
  {
    SplitAppend(s, c, FrameSeparator);
    AllButLastAppend(AllButLast(Split(s, FrameSeparator)), Split(Last(Split(s, FrameSeparator)) + c, FrameSeparator));
  }

  /** `delivered` followed by what a reading `r` hands on. */
  function After(delivered: seq<string>, r: Decoded): Decoded {
    Decoded(delivered + r.delivered, r.stopped)
  }

  /** Splitting the buffer plus the unread pieces: the frames the next read completes come first. */
  lemma NextRead(buffer: string, pieces: seq<string>, i: nat)
    requires i < |pieces|
    ensures var lines := Split(buffer + pieces[i], FrameSeparator);
      CompleteFrames(buffer + Concat(pieces[i..])) ==
        AllButLast(lines) + CompleteFrames(Last(lines) + Concat(pieces[i + 1..]))
  {
    assert pieces[i..][1..] == pieces[i + 1..];
    assert buffer + Concat(pieces[i..]) == (buffer + pieces[i]) + Concat(pieces[i + 1..]);
    CompleteFramesAppend(buffer + pieces[i], Concat(pieces[i + 1..]));
  }

  /** The unterminated last piece of a split holds no complete frame. */
  lemma LastPieceIncomplete(s: string)
    ensures CompleteFrames(Last(Split(s, FrameSeparator))) == []
  {
    var last := Last(Split(s, FrameSeparator));
    IndexOfSpec(last, FrameSeparator);
  }

  lemma {:induction false} JoinAppend(a: seq<string>, b: seq<string>, sep: string)
    requires |a| > 0 && |b| > 0
    ensures Join(a + b, sep) == Join(a, sep) + sep + Join(b, sep)
  {
    if |a| > 1 {
      assert (a + b)[1..] == a[1..] + b;
      JoinAppend(a[1..], b, sep);
    } else {
      assert (a + b)[1..] == b;
    }
  }

  /** Re-splitting the buffer with the next read keeps the frames seen so far, joined back, a prefix of the input. */
  lemma BufferStep(seen: seq<string>, buffer: string, piece: string)
    ensures Join(seen + Split(buffer + piece, FrameSeparator), FrameSeparator)
      == Join(seen + [buffer], FrameSeparator) + piece
  {
    JoinRejoined(seen, Split(buffer + piece, FrameSeparator), buffer, piece);
  }

  lemma JoinRejoined(seen: seq<string>, lines: seq<string>, buffer: string, piece: string)
    requires |lines| > 0 && Join(lines, FrameSeparator) == buffer + piece
    ensures Join(seen + lines, FrameSeparator) == Join(seen + [buffer], FrameSeparator) + piece
  {
    if |seen| == 0 {
      assert seen + lines == lines && seen + [buffer] == [buffer];
    } else {
      var front := Join(seen, FrameSeparator) + FrameSeparator;
      JoinAppend(seen, lines, FrameSeparator);
      JoinAppend(seen, [buffer], FrameSeparator);
      assert Join([buffer], FrameSeparator) == buffer;
      assert front + (buffer + piece) == (front + buffer) + piece;
    }
  }

  lemma ConcatSnoc(pieces: seq<string>, i: nat)
    requires i < |pieces|
    ensures Concat(pieces[..i + 1]) == Concat(pieces[..i]) + pieces[i]
  {
    assert pieces[..i + 1] == pieces[..i] + [pieces[i]];
    ConcatAppend(pieces[..i], [pieces[i]]);
    assert Concat([pieces[i]]) == pieces[i] + Concat([]);
  }

  /**
   * The loop over the complete frames of one read: examine them in order
   * and stop at the first `done`.
   */
  method ExamineFrames(frames: seq<string>, parse: Parser) returns (handed: seq<string>, stopped: bool)
    ensures Decoded(handed, stopped) == Dispatch(frames, parse)
  {
    handed, stopped := [], false;
    var j := 0;
    while j < |frames|
      invariant 0 <= j <= |frames|
      invariant Dispatch(frames, parse) == After(handed, Dispatch(frames[j..], parse))
    {
      assert frames[j..][0] == frames[j] && frames[j..][1..] == frames[j + 1..];
      match Classify(frames[j], parse) {
        case Stop =>
          stopped := true;
          return;
        case Emit(text) =>
          handed := handed + [text];
        case Skip =>
      }
      j := j + 1;
    }
  }

  /**
   * `getGeminiStream`'s reading loop: append each read to the buffer,
   * split at blank lines, keep the last piece as the new buffer and examine
   * the others; return at the first `done`. Whatever way the body was cut
   * into pieces, the outcome is the reading of the whole body at once.
   */
  method ReadEvents(pieces: seq<string>, parse: Parser) returns (delivered: seq<string>, stopped: bool)
    ensures Decoded(delivered, stopped) == Decode(Concat(pieces), parse)
  {
    delivered, stopped := [], false;
    var buffer := "";
    ghost var seen: seq<string> := [];
    var i := 0;
    assert buffer + Concat(pieces[i..]) == Concat(pieces);
    while i < |pieces|
      invariant 0 <= i <= |pieces|
      invariant Join(seen + [buffer], FrameSeparator) == Concat(pieces[..i])
      invariant i > 0 ==> CompleteFrames(buffer) == []
      invariant Decode(Concat(pieces), parse) ==
        After(delivered, Dispatch(CompleteFrames(buffer + Concat(pieces[i..])), parse))
    {
      var lines := Split(buffer + pieces[i], FrameSeparator);
      ghost var unread := CompleteFrames(Last(lines) + Concat(pieces[i + 1..]));
      assert Dispatch(CompleteFrames(buffer + Concat(pieces[i..])), parse)
        == Dispatch(AllButLast(lines) + unread, parse) by {
        NextRead(buffer, pieces, i);
      }
      DispatchAppend(AllButLast(lines), unread, parse);
      var handed, done := ExamineFrames(AllButLast(lines), parse);
      delivered := delivered + handed;
      if done {
        stopped := true;
        return;
      }
      assert CompleteFrames(Last(lines)) == [] by {
        LastPieceIncomplete(buffer + pieces[i]);
      }
      assert Join((seen + AllButLast(lines)) + [Last(lines)], FrameSeparator) == Concat(pieces[..i + 1]) by {
        BufferStep(seen, buffer, pieces[i]);
        ConcatSnoc(pieces, i);
        SplitOffLast(seen, lines);
      }
      seen := seen + AllButLast(lines);
      buffer := Last(lines);
      i := i + 1;
    }
    assert Concat(pieces[i..]) == "" && buffer + "" == buffer;
  }
}
