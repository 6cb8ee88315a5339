/** The line framing of the chat client's streaming reply
    (`openRouter.streamChat` in openrouter-chat/src/services/openrouter.js).

    The response body arrives as decoded text chunks. The client appends
    each chunk to a buffer, splits the buffer on '\n', keeps the last
    (possibly incomplete) piece as the new buffer and handles every complete
    line: only lines that, once trimmed, start with "data: " are read (the
    `data:` field of the server-sent events format, section 9.2 of the WHATWG
    HTML standard), the "[DONE]" marker is skipped, and a payload that does
    not parse is skipped too. Decoding bytes to text and the HTTP exchange
    are outside this module: the chunks are its input. */
module StreamFramer {
  import opened Common
  import opened Text

  /** Token accounting the service attaches to a payload (`json.usage`). */
  datatype Usage = Usage(promptTokens: nat, completionTokens: nat)

  /** What the client reads from one parsed payload:
      `json.choices[0]?.delta?.content` and `json.usage`. */
  datatype Payload = Payload(content: Option<string>, usage: Option<Usage>)

  /** The arguments of one `onChunk(content, usage)` call. */
  datatype Chunk = Chunk(content: string, usage: Option<Usage>)

  /** `JSON.parse` followed by the field reads above, as a partial function:
      `None` when either throws. */
  type Parser = string -> Option<Payload>

  const Newline: char := '\n'
  const DataPrefix: string := "data: "
  const DoneMarker: string := "[DONE]"

  // ---------------------------------------------------------------------
  // Splitting on newlines

  /** `s.split('\n')`: the pieces between newlines, at least one. */
  function Split(s: string): (r: seq<string>)
    ensures |r| >= 1
    ensures forall i :: 0 <= i < |r| ==> Newline !in r[i]
  {
    if |s| == 0 then [""]
    else if s[0] == Newline then [""] + Split(s[1..])
    else
      var t := Split(s[1..]);
      [[s[0]] + t[0]] + t[1..]
  }

  /** `pieces.join('\n')`. */
  function Join(pieces: seq<string>): string
    requires |pieces| >= 1
  {
    if |pieces| == 1 then pieces[0] else pieces[0] + [Newline] + Join(pieces[1..])
  }

  /** Each line followed by its terminating newline. */
  function Terminated(lines: seq<string>): string
  {
    if lines == [] then "" else Terminated(lines[..|lines| - 1]) + lines[|lines| - 1] + [Newline]
  }

  /** The lines of `s` whose terminating newline has arrived. */
  function CompleteLines(s: string): seq<string>
  {
    var p := Split(s); p[..|p| - 1]
  }

  /** The text after the last newline of `s`: the incomplete line. */
  function Tail(s: string): string
  {
    var p := Split(s); p[|p| - 1]
  }

  /** Joining what was split gives the text back. */
  lemma {:induction false} JoinSplit(s: string)
    ensures Join(Split(s)) == s
    decreases |s|
  {
    if |s| == 0 {
    } else if s[0] == Newline {
      JoinSplit(s[1..]);
      assert Split(s)[1..] == Split(s[1..]);
    } else {
      JoinSplit(s[1..]);
      var t := Split(s[1..]);
      if |t| == 1 {
        assert Join(Split(s)) == [s[0]] + t[0];
      } else {
        assert Split(s)[1..] == t[1..];
        assert Join(Split(s)) == [s[0]] + t[0] + [Newline] + Join(t[1..]);
      }
    }
  }

  /** Splitting what was joined gives the pieces back, when no piece holds a newline. */
  lemma {:induction false} SplitJoin(pieces: seq<string>)
    requires |pieces| >= 1
    requires forall i :: 0 <= i < |pieces| ==> Newline !in pieces[i]
    ensures Split(Join(pieces)) == pieces
    decreases |pieces|, |pieces[0]|
  {
    var p := pieces[0];
    if |p| == 0 {
      if |pieces| > 1 {
        SplitJoin(pieces[1..]);
        assert Join(pieces) == [Newline] + Join(pieces[1..]);
        assert Join(pieces)[1..] == Join(pieces[1..]);
      }
    } else {
      var rest := [p[1..]] + pieces[1..];
      assert rest[1..] == pieces[1..];
      assert Join(rest) == Join(pieces)[1..] by {
        if |pieces| == 1 {
        } else {
          assert Join(pieces) == p + [Newline] + Join(pieces[1..]);
        }
      }
      assert Newline !in rest[0];
      assert forall i :: 1 <= i < |rest| ==> rest[i] == pieces[i];
      SplitJoin(rest);
      assert Join(pieces)[0] == p[0];
      assert [p[0]] + p[1..] == p;
      assert [[p[0]] + rest[0]] + pieces[1..] == pieces by {
        assert rest[0] == p[1..];
      }
    }
  }

  /** Joined with newlines, lines and a final piece read as the terminated
      lines followed by that piece. */
  lemma {:induction false} JoinIsTerminated(lines: seq<string>, last: string)
    ensures Join(lines + [last]) == Terminated(lines) + last
    decreases |lines|
  {
    if lines == [] {
      assert lines + [last] == [last];
    } else {
      var n := |lines|;
      assert (lines + [last])[1..] == lines[1..] + [last];
      JoinIsTerminated(lines[1..], last);
      TerminatedCons(lines[0], lines[1..]);
      assert [lines[0]] + lines[1..] == lines;
    }
  }

  lemma {:induction false} TerminatedCons(head: string, lines: seq<string>)
    ensures Terminated([head] + lines) == head + [Newline] + Terminated(lines)
    decreases |lines|
  {
    if lines == [] {
      assert [head] + lines == [head];
      assert [head][..0] == [];
    } else {
      var n := |lines|;
      assert ([head] + lines)[..n] == [head] + lines[..n - 1];
      TerminatedCons(head, lines[..n - 1]);
    }
  }

  /** The framing fact the client relies on after each chunk: the complete
      lines, each with its newline, followed by the incomplete rest, are
      exactly the text; and the rest holds no newline. */
  lemma FramingExact(s: string)
    ensures Terminated(CompleteLines(s)) + Tail(s) == s
    ensures Newline !in Tail(s)
  {
    var p := Split(s);
    assert p == p[..|p| - 1] + [p[|p| - 1]];
    JoinIsTerminated(p[..|p| - 1], p[|p| - 1]);
    JoinSplit(s);
  }

  /** The framing is the only one: any lines without newlines, each
      terminated, followed by a rest without newline, that spell `s` are
      `CompleteLines(s)` and `Tail(s)`. */
  lemma FramingUnique(s: string, lines: seq<string>, rest: string)
    requires forall i :: 0 <= i < |lines| ==> Newline !in lines[i]
    requires Newline !in rest
    requires Terminated(lines) + rest == s
    ensures lines == CompleteLines(s) && rest == Tail(s)
  {
    JoinIsTerminated(lines, rest);
    var pieces := lines + [rest];
    assert forall i :: 0 <= i < |pieces| ==> Newline !in pieces[i] by {
      forall i | 0 <= i < |pieces| ensures Newline !in pieces[i] {
        if i < |lines| { assert pieces[i] == lines[i]; }
      }
    }
    SplitJoin(pieces);
    assert pieces[..|pieces| - 1] == lines;
  }

  /** Appending text never disturbs the lines already complete: the split of
      `a + b` is the complete lines of `a` followed by the split of `a`'s
      incomplete rest with `b` appended. */
  lemma {:induction false} SplitAppend(a: string, b: string)
    ensures Split(a + b) == CompleteLines(a) + Split(Tail(a) + b)
    decreases |a|
  {
    if |a| == 0 {
      assert a + b == b;
    } else if a[0] == Newline {
      assert (a + b)[1..] == a[1..] + b;
      SplitAppend(a[1..], b);
      assert Split(a) == [""] + Split(a[1..]);
    } else {
      assert (a + b)[1..] == a[1..] + b;
      SplitAppend(a[1..], b);
      var t := Split(a[1..]);
      if |t| == 1 {
        assert Tail(a) == [a[0]] + t[0];
        assert Tail(a) == a by { JoinSplit(a); }
        assert CompleteLines(a) == [];
      } else {
        assert CompleteLines(a) == [[a[0]] + t[0]] + t[1..|t| - 1];
        assert Tail(a) == Tail(a[1..]);
      }
    }
  }

  /** A line counts as complete only once its newline has arrived: what is
      complete after a prefix of the stream stays complete, unchanged, after
      the rest of it arrives. */
  lemma CompleteLinesGrow(a: string, b: string)
    ensures CompleteLines(a + b) == CompleteLines(a) + CompleteLines(Tail(a) + b)
    ensures Tail(a + b) == Tail(Tail(a) + b)
    ensures CompleteLines(a) <= CompleteLines(a + b)
  {
    SplitAppend(a, b);
  }

  // ---------------------------------------------------------------------
  // Handling one line

  /** The callback a complete line produces, if any: blank lines and lines
      not starting with "data: " (after trimming) are ignored, the payload
      is the trimmed line less those 6 characters, "[DONE]" and unparsable
      payloads are skipped, and a payload with neither content nor usage
      produces no call. Missing content reads as "". */
  function LineEvent(line: string, parse: Parser): (r: Option<Chunk>)
    ensures r.Some? ==> StartsWith(Trim(line), DataPrefix)
    ensures r.Some? ==> var data := Trim(line)[|DataPrefix|..];
      data != DoneMarker && parse(data).Some?
      && r.value == Chunk(parse(data).value.content.GetOr(""), parse(data).value.usage)
      && (r.value.content != "" || r.value.usage.Some?)
    ensures AllWhitespace(line) ==> r.None?
  {
    var trimmed := Trim(line);
    TrimEmptyIffBlank(line);
    if trimmed == "" || !StartsWith(trimmed, DataPrefix) then None
    else
      var data := trimmed[|DataPrefix|..];
      if data == DoneMarker then None
      else match parse(data)
        case None => None
        case Some(p) =>
          var content := p.content.GetOr("");
          if content != "" || p.usage.Some? then Some(Chunk(content, p.usage)) else None
  }

  /** A payload that parses, with content or usage, on a data line does
      produce its callback: the converse of `LineEvent`'s contract. */
  lemma DataLineProduces(line: string, parse: Parser)
    requires StartsWith(Trim(line), DataPrefix)
    requires Trim(line)[|DataPrefix|..] != DoneMarker
    requires parse(Trim(line)[|DataPrefix|..]).Some?
    requires var p := parse(Trim(line)[|DataPrefix|..]).value;
      p.content.GetOr("") != "" || p.usage.Some?
    ensures LineEvent(line, parse).Some?
  {
  }

  /** The callbacks a sequence of complete lines produces, in order. */
  function Events(lines: seq<string>, parse: Parser): seq<Chunk>
  {
    if lines == [] then []
    else
      var prior := Events(lines[..|lines| - 1], parse);
      match LineEvent(lines[|lines| - 1], parse)
      case Some(c) => prior + [c]
      case None => prior
  }

  lemma {:induction false} EventsAppend(a: seq<string>, b: seq<string>, parse: Parser)
    ensures Events(a + b, parse) == Events(a, parse) + Events(b, parse)
    decreases |b|
  {
    if b == [] {
      assert a + b == a;
    } else {
      assert (a + b)[..|a + b| - 1] == a + b[..|b| - 1];
      EventsAppend(a, b[..|b| - 1], parse);
    }
  }

  /** A line that is not a data line, or that carries the "[DONE]" marker
      or an unparsable payload, can be dropped from the stream without
      changing the callbacks: later lines are still handled. */
  lemma SkippedLineIsInert(before: seq<string>, line: string, after: seq<string>, parse: Parser)
    requires LineEvent(line, parse).None?
    ensures Events(before + [line] + after, parse) == Events(before + after, parse)
  {
    EventsAppend(before + [line], after, parse);
    EventsAppend(before, after, parse);
    assert (before + [line])[..|before|] == before;
  }

  // ---------------------------------------------------------------------
  // The read loop

  /** All chunks received so far, in order. */
  function Concat(chunks: seq<string>): string
  {
    if chunks == [] then "" else Concat(chunks[..|chunks| - 1]) + chunks[|chunks| - 1]
  }

  /** One pass of the read loop: the buffer grows by the chunk and splits
      into the complete lines to handle and the new buffer. */
  method Feed(buffer: string, chunk: string) returns (lines: seq<string>, rest: string)
    ensures Terminated(lines) + rest == buffer + chunk
    ensures Newline !in rest && forall i :: 0 <= i < |lines| ==> Newline !in lines[i]
    ensures lines == CompleteLines(buffer + chunk) && rest == Tail(buffer + chunk)
  {
    var text := buffer + chunk;
    var pieces := Split(text);
    rest := pieces[|pieces| - 1];
    lines := pieces[..|pieces| - 1];
    FramingExact(text);
  }

  /** The inner `for` loop of `streamChat`: every complete line is handled
      in order, each producing at most one callback. */
  method HandleLines(lines: seq<string>, parse: Parser) returns (calls: seq<Chunk>)
    ensures calls == Events(lines, parse)
  {
    calls := [];
    var j := 0;
    while j < |lines|
      invariant 0 <= j <= |lines|
      invariant calls == Events(lines[..j], parse)
    {
      assert lines[..j + 1][..j] == lines[..j];
      var event := LineEvent(lines[j], parse);
      if event.Some? {
        calls := calls + [event.value];
      }
      j := j + 1;
    }
    assert lines[..j] == lines;
  }

  /** The whole loop of `streamChat`. The callbacks are those of the
      complete lines of the concatenated stream, so they do not depend on
      how the stream is cut into chunks, and the unterminated final line
      (`leftover`) is never handled. */
  method StreamChat(chunks: seq<string>, parse: Parser) returns (calls: seq<Chunk>, leftover: string)
    ensures calls == Events(CompleteLines(Concat(chunks)), parse)
    ensures leftover == Tail(Concat(chunks)) && Newline !in leftover
  {
    var buffer := "";
    calls := [];
    var k := 0;
    while k < |chunks|
      invariant 0 <= k <= |chunks|
      invariant buffer == Tail(Concat(chunks[..k]))
      invariant calls == Events(CompleteLines(Concat(chunks[..k])), parse)
    {
      ghost var before := Concat(chunks[..k]);
      assert chunks[..k + 1][..k] == chunks[..k];
      assert Concat(chunks[..k + 1]) == before + chunks[k];
      CompleteLinesGrow(before, chunks[k]);
      var lines;
      lines, buffer := Feed(buffer, chunks[k]);
      var more := HandleLines(lines, parse);
      EventsAppend(CompleteLines(before), lines, parse);
      calls := calls + more;
      k := k + 1;
    }
    assert chunks[..k] == chunks;
    leftover := buffer;
    FramingExact(Concat(chunks));
  }

  /** Cutting one chunk of the stream in two yields the same callbacks. */
  lemma ChunkingIrrelevant(chunks: seq<string>, i: nat, j: nat, parse: Parser)
    requires i < |chunks| && j <= |chunks[i]|
    ensures var cut := chunks[..i] + [chunks[i][..j], chunks[i][j..]] + chunks[i + 1..];
      Events(CompleteLines(Concat(cut)), parse) == Events(CompleteLines(Concat(chunks)), parse)
  {
    ConcatCut(chunks, i, j);
  }

  lemma ConcatCut(chunks: seq<string>, i: nat, j: nat)
    requires i < |chunks| && j <= |chunks[i]|
    ensures Concat(chunks[..i] + [chunks[i][..j], chunks[i][j..]] + chunks[i + 1..]) == Concat(chunks)
  {
    var pre, c, post := chunks[..i], chunks[i], chunks[i + 1..];
    var a, b := c[..j], c[j..];
    var split := pre + [a, b];
    assert split == (pre + [a]) + [b];
    ConcatSnoc(pre + [a], b);
    ConcatSnoc(pre, a);
    ConcatSnoc(pre, c);
    assert a + b == c;
    assert Concat(split) == Concat(pre + [c]);
    ConcatAppend(split, post);
    ConcatAppend(pre + [c], post);
    assert chunks == (pre + [c]) + post;
  }

  lemma ConcatSnoc(s: seq<string>, x: string)
    ensures Concat(s + [x]) == Concat(s) + x
  {
    assert (s + [x])[..|s|] == s;
  }

  lemma {:induction false} ConcatAppend(a: seq<string>, b: seq<string>)
    ensures Concat(a + b) == Concat(a) + Concat(b)
    decreases |b|
  {
    if b == [] {
      assert a + b == a;
    } else {
      var init, last := b[..|b| - 1], b[|b| - 1];
      assert (a + b)[..|a + b| - 1] == a + init;
      assert (a + b)[|a + b| - 1] == last;
      ConcatAppend(a, init);
      calc {
        Concat(a + b);
        Concat(a + init) + last;
        (Concat(a) + Concat(init)) + last;
        Concat(a) + (Concat(init) + last);
        Concat(a) + Concat(b);
      }
    }
  }
}
