/**
  The streaming-response decoder of `GeminiLiveAPI.sendMessage`: the `data`
  handler that buffers the upstream server-sent-event text, splits it on LF,
  keeps the unterminated tail in `buffer`, and reports each `data: ` line whose
  JSON payload carries non-empty text as a fragment. It covers a subset of the
  event-stream format of the WHATWG HTML Living Standard, section 9.2
  "Server-sent events": LF line ends only and the exact prefix "data: ".

  `JSON.parse` followed by the `candidates[0].content.parts[0].text` lookup is
  the parameter `extract`: `None` stands for a parse error or a missing path,
  `Some(t)` for a string `text` equal to `t`. The source forwards any truthy
  `text`; a text that is not a string has no counterpart here.
 */
module EventStream {
  import opened Wrappers
  import opened Text

  type Extractor = string -> Option<string>

  /** The object handed to `onStream`: `{type: 'text', content, conversationId}`. */
  datatype Fragment = TextFragment(content: string, conversationId: string)

  const DataPrefix := "data: "
  const DoneMarker := "[DONE]"

  // ------------------------------------------------------------ line splitting

  /** Index of the first LF in `s`, or `|s|` when there is none. */
  function FirstNewline(s: string): (k: nat)
    ensures k <= |s|
    ensures forall j :: 0 <= j < k ==> s[j] != '\n'
    ensures k < |s| ==> s[k] == '\n'
  {
    if |s| == 0 || s[0] == '\n' then 0 else 1 + FirstNewline(s[1..])
  }

  /** The complete lines of `s`: the pieces before each LF, none of which holds an LF. */
  function Lines(s: string): (lines: seq<string>)
    ensures forall i :: 0 <= i < |lines| ==> '\n' !in lines[i]
    decreases |s|
  {
    var k := FirstNewline(s);
    if k == |s| then [] else [s[..k]] + Lines(s[k + 1..])
  }

  /** The unterminated tail of `s`: what follows its last LF, which holds no LF. */
  function Rest(s: string): (tail: string)
    ensures '\n' !in tail
    ensures |tail| <= |s|
    decreases |s|
  {
    var k := FirstNewline(s);
    if k == |s| then s else Rest(s[k + 1..])
  }

  /** `s.split('\n')`: the complete lines, then the tail (which `lines.pop()` takes back). */
  function SplitLines(s: string): (pieces: seq<string>)
    ensures |pieces| >= 1
  {
    Lines(s) + [Rest(s)]
  }

  /** `pieces.join('\n')`. */
  function JoinLines(pieces: seq<string>): string
    requires |pieces| >= 1
  {
    if |pieces| == 1 then pieces[0] else pieces[0] + "\n" + JoinLines(pieces[1..])
  }

  /** Each line followed by its LF: the text a sequence of complete lines came from. */
  function Terminated(lines: seq<string>): string
  {
    if lines == [] then "" else lines[0] + "\n" + Terminated(lines[1..])
  }

  /** A piece free of LF has no complete line and is its own tail. */
  lemma NoNewline(s: string)
    requires '\n' !in s
    ensures FirstNewline(s) == |s|
    ensures Lines(s) == [] && Rest(s) == s
  {
  }

  /** A piece free of LF followed by LF: the first line is that piece, the rest is split on its own. */
  lemma SplitAfter(head: string, tail: string)
    requires '\n' !in head
    ensures FirstNewline(head + "\n" + tail) == |head|
    ensures Lines(head + "\n" + tail) == [head] + Lines(tail)
    ensures Rest(head + "\n" + tail) == Rest(tail)
  {
    var s := head + "\n" + tail;
    assert s[|head|] == '\n';
    assert s[..|head|] == head;
    assert s[|head| + 1..] == tail;
  }

  /** Splitting on LF undoes joining with LF, for any pieces free of LF. */
  lemma {:induction false} SplitJoinRoundTrip(pieces: seq<string>)
    requires |pieces| >= 1
    requires forall i :: 0 <= i < |pieces| ==> '\n' !in pieces[i]
    ensures SplitLines(JoinLines(pieces)) == pieces
  {
    if |pieces| == 1 {
      NoNewline(pieces[0]);
    } else {
      var head, tail := pieces[0], JoinLines(pieces[1..]);
      SplitAfter(head, tail);
      assert forall i :: 0 <= i < |pieces[1..]| ==> pieces[1..][i] == pieces[i + 1];
      SplitJoinRoundTrip(pieces[1..]);
      AppendAssoc([head], Lines(tail), [Rest(tail)]);
      assert pieces == [head] + pieces[1..];
    }
  }

  /** The buffer never holds an LF, and the text splits into terminated complete lines plus the tail. */
  lemma {:induction false} LinesCover(s: string)
    ensures '\n' !in Rest(s)
    ensures s == Terminated(Lines(s)) + Rest(s)
    decreases |s|
  {
    var k := FirstNewline(s);
    if k < |s| {
      var x, t := s[..k], s[k + 1..];
      LinesStep(s, "");
      assert s + "" == s;
      LinesCover(t);
      var ls := Lines(s);
      assert ls[1..] == Lines(t);
      assert Terminated(ls) == x + "\n" + Terminated(Lines(t));
      AppendAssoc(x + "\n", Terminated(Lines(t)), Rest(t));
      Reassemble(s, k);
    } else {
      assert '\n' !in s by {
        forall i | 0 <= i < |s| ensures s[i] != '\n' { }
      }
    }
  }

  /** Cutting `s` around one of its LFs and gluing the parts back gives `s`. */
  lemma Reassemble(s: string, k: nat)
    requires k < |s| && s[k] == '\n'
    ensures s == s[..k] + "\n" + s[k + 1..]
  {
  }

  /** The first LF of `s + t` is the first LF of `s` when `s` has one. */
  lemma NewlineOfAppend(s: string, t: string)
    requires FirstNewline(s) < |s|
    ensures FirstNewline(s + t) == FirstNewline(s)
  {
    var k, k' := FirstNewline(s), FirstNewline(s + t);
    assert (s + t)[k] == s[k];
    if k' < k {
      assert (s + t)[k'] == s[k'];
    }
  }

  /** Splitting a concatenation: the complete lines of `s`, then those of `s`'s tail followed by `t`. */
  lemma {:induction false} LinesAppend(s: string, t: string)
    ensures Lines(s + t) == Lines(s) + Lines(Rest(s) + t)
    decreases |s|
  {
    var k := FirstNewline(s);
    if k < |s| {
      var u := s[k + 1..];
      LinesStep(s, t);
      LinesAppend(u, t);
      var x, a, b := s[..k], Lines(u), Lines(Rest(u) + t);
      AppendAssoc([x], a, b);
    } else {
      AppendAssoc([], [], Lines(s + t));
    }
  }

  /** Concatenation is associative and has the empty sequence as its unit. */
  lemma AppendAssoc<T>(x: seq<T>, a: seq<T>, b: seq<T>)
    ensures x + (a + b) == (x + a) + b
    ensures [] + b == b
  {
  }

  /** One step of Lines and Rest on `s` and on `s + t` when `s` holds an LF. */
  lemma LinesStep(s: string, t: string)
    requires FirstNewline(s) < |s|
    ensures FirstNewline(s + t) == FirstNewline(s)
    ensures Lines(s + t) == [s[..FirstNewline(s)]] + Lines(s[FirstNewline(s) + 1..] + t)
    ensures Lines(s) == [s[..FirstNewline(s)]] + Lines(s[FirstNewline(s) + 1..])
    ensures Rest(s) == Rest(s[FirstNewline(s) + 1..])
  {
    var k := FirstNewline(s);
    NewlineOfAppend(s, t);
    assert (s + t)[..k] == s[..k];
    assert (s + t)[k + 1..] == s[k + 1..] + t;
  }

  /** The tail of a concatenation is the tail of `s`'s tail followed by `t`. */
  lemma {:induction false} RestAppend(s: string, t: string)
    ensures Rest(s + t) == Rest(Rest(s) + t)
    decreases |s|
  {
    var k := FirstNewline(s);
    if k < |s| {
      NewlineOfAppend(s, t);
      var u := s[k + 1..];
      assert (s + t)[k + 1..] == u + t;
      assert Rest(s + t) == Rest(u + t);
      RestAppend(u, t);
      assert Rest(s) == Rest(u);
    } else {
      assert Rest(s) == s;
    }
  }

  // ---------------------------------------------------------- line decoding

  /** A `data: [DONE]` line: the handler returns on it. */
  predicate IsDone(line: string)
    ensures IsDone(line) <==> line == DataPrefix + DoneMarker
  {
    StartsWith(line, DataPrefix) && line[|DataPrefix|..] == DoneMarker
  }

  /** What one non-[DONE] line contributes: a fragment when it is a `data: ` line whose payload has non-empty text. */
  function LineFragments(line: string, extract: Extractor, conversationId: string): (r: seq<Fragment>)
    ensures |r| <= 1
    ensures r != [] ==>
      && StartsWith(line, DataPrefix)
      && extract(line[|DataPrefix|..]) == Some(r[0].content)
      && r[0].content != ""
      && r[0].conversationId == conversationId
    ensures (StartsWith(line, DataPrefix) && extract(line[|DataPrefix|..]).Some?
             && extract(line[|DataPrefix|..]).value != "") ==> r != []
  {
    if StartsWith(line, DataPrefix) then
      match extract(line[|DataPrefix|..])
      case Some(text) => if text != "" then [TextFragment(text, conversationId)] else []
      case None => []
    else []
  }

  /** The fragments the `for` loop reports for `lines`: in line order, up to the first [DONE] line. */
  function DecodeLines(lines: seq<string>, extract: Extractor, conversationId: string): (frags: seq<Fragment>)
    ensures forall i :: 0 <= i < |frags| ==> frags[i].conversationId == conversationId && frags[i].content != ""
    ensures |frags| <= |lines|
  {
    if lines == [] then []
    else if IsDone(lines[0]) then []
    else LineFragments(lines[0], extract, conversationId) + DecodeLines(lines[1..], extract, conversationId)
  }

  /** One step of DecodeLines from position `i`. */
  lemma DecodeLinesAt(lines: seq<string>, i: int, extract: Extractor, conversationId: string)
    requires 0 <= i < |lines|
    ensures DecodeLines(lines[i..], extract, conversationId)
         == if IsDone(lines[i]) then []
            else LineFragments(lines[i], extract, conversationId) + DecodeLines(lines[i + 1..], extract, conversationId)
  {
    assert lines[i..][1..] == lines[i + 1..];
  }

  /** Decoding lines with no [DONE] among the first ones distributes over concatenation. */
  lemma {:induction false} DecodeLinesAppend(a: seq<string>, b: seq<string>, extract: Extractor, conversationId: string)
    requires forall i :: 0 <= i < |a| ==> !IsDone(a[i])
    ensures DecodeLines(a + b, extract, conversationId)
         == DecodeLines(a, extract, conversationId) + DecodeLines(b, extract, conversationId)
  {
    if a != [] {
      assert (a + b)[1..] == a[1..] + b;
      DecodeLinesAppend(a[1..], b, extract, conversationId);
    } else {
      assert a + b == b;
    }
  }

  /** A line that yields nothing (not `data: `, unparsable, no text path, empty text) does not affect the others. */
  lemma {:induction false} SilentLineIsTransparent(a: seq<string>, line: string, b: seq<string>,
                                                   extract: Extractor, conversationId: string)
    requires !IsDone(line) && LineFragments(line, extract, conversationId) == []
    ensures DecodeLines(a + [line] + b, extract, conversationId) == DecodeLines(a + b, extract, conversationId)
  {
    if a == [] {
      assert a + [line] + b == [line] + b;
      assert ([line] + b)[1..] == b;
      assert a + b == b;
    } else {
      assert (a + [line] + b)[1..] == a[1..] + [line] + b;
      assert (a + b)[1..] == a[1..] + b;
      SilentLineIsTransparent(a[1..], line, b, extract, conversationId);
    }
  }

  // ------------------------------------------------------- chunk by chunk

  /** The decoder's state after some chunks: the buffer and the fragments reported so far. */
  datatype DecoderState = DecoderState(buffer: string, emitted: seq<Fragment>)

  /** All chunks joined, as the stream delivered them. */
  function Concat(chunks: seq<string>): string
  {
    if chunks == [] then "" else Concat(chunks[..|chunks| - 1]) + chunks[|chunks| - 1]
  }

  /** One `data` event: buffer + chunk is split, the tail is kept and the complete lines are decoded. */
  function FeedStep(st: DecoderState, chunk: string, extract: Extractor, conversationId: string): (next: DecoderState)
    ensures '\n' !in next.buffer
    ensures |st.emitted| <= |next.emitted| && next.emitted[..|st.emitted|] == st.emitted
    ensures forall i :: |st.emitted| <= i < |next.emitted| ==>
      next.emitted[i].conversationId == conversationId && next.emitted[i].content != ""
  {
    var text := st.buffer + chunk;
    LinesCover(text);
    DecoderState(Rest(text), st.emitted + DecodeLines(Lines(text), extract, conversationId))
  }

  /** The state after feeding `chunks` one `data` event at a time, from an empty buffer. */
  function FeedAll(chunks: seq<string>, extract: Extractor, conversationId: string): (st: DecoderState)
    ensures '\n' !in st.buffer
    ensures forall i :: 0 <= i < |st.emitted| ==>
      st.emitted[i].conversationId == conversationId && st.emitted[i].content != ""
  {
    if chunks == [] then DecoderState("", [])
    else FeedStep(FeedAll(chunks[..|chunks| - 1], extract, conversationId), chunks[|chunks| - 1], extract, conversationId)
  }

  /** No complete line of `s` is a [DONE] line. */
  predicate NoDoneLine(s: string)
  {
    forall i :: 0 <= i < |Lines(s)| ==> !IsDone(Lines(s)[i])
  }

  /**
    Without a [DONE] line, chunking does not matter: the fragments are those of
    the complete lines of the whole text, and the buffer holds its unterminated
    tail, which is never reported.
   */
  lemma {:induction false} ChunkingIrrelevant(chunks: seq<string>, extract: Extractor, conversationId: string)
    requires NoDoneLine(Concat(chunks))
    ensures FeedAll(chunks, extract, conversationId)
         == DecoderState(Rest(Concat(chunks)), DecodeLines(Lines(Concat(chunks)), extract, conversationId))
  {
    if chunks != [] {
      var front, last := chunks[..|chunks| - 1], chunks[|chunks| - 1];
      var c := Concat(front);
      LinesAppend(c, last);
      RestAppend(c, last);
      assert Lines(c + last) == Lines(c) + Lines(Rest(c) + last);
      assert NoDoneLine(c) by {
        forall i | 0 <= i < |Lines(c)| ensures !IsDone(Lines(c)[i]) {
          assert Lines(c)[i] == Lines(c + last)[i];
        }
      }
      ChunkingIrrelevant(front, extract, conversationId);
      DecodeLinesAppend(Lines(c), Lines(Rest(c) + last), extract, conversationId);
    }
  }

  /** Two chunkings of the same text without [DONE] lines report the same fragments. */
  lemma SameTextSameFragments(a: seq<string>, b: seq<string>, extract: Extractor, conversationId: string)
    requires Concat(a) == Concat(b) && NoDoneLine(Concat(a))
    ensures FeedAll(a, extract, conversationId).emitted == FeedAll(b, extract, conversationId).emitted
  {
    ChunkingIrrelevant(a, extract, conversationId);
    ChunkingIrrelevant(b, extract, conversationId);
  }

  /** After any chunks, the buffer is the unterminated tail of everything received, [DONE] lines or not. */
  lemma {:induction false} BufferIsTail(chunks: seq<string>, extract: Extractor, conversationId: string)
    ensures FeedAll(chunks, extract, conversationId).buffer == Rest(Concat(chunks))
  {
    if chunks != [] {
      var front, last := chunks[..|chunks| - 1], chunks[|chunks| - 1];
      BufferIsTail(front, extract, conversationId);
      RestAppend(Concat(front), last);
    }
  }

  /**
    A last chunk without LF reports nothing and only extends the buffer; as
    `end` does not flush, the line it ends with is never reported.
   */
  lemma UnterminatedLineNotReported(chunks: seq<string>, t: string, extract: Extractor, conversationId: string)
    requires '\n' !in t
    ensures FeedAll(chunks + [t], extract, conversationId).emitted == FeedAll(chunks, extract, conversationId).emitted
    ensures FeedAll(chunks + [t], extract, conversationId).buffer == FeedAll(chunks, extract, conversationId).buffer + t
  {
    var st := FeedAll(chunks, extract, conversationId);
    assert (chunks + [t])[..|chunks|] == chunks;
    NoNewline(st.buffer + t);
    assert st.emitted + [] == st.emitted;
  }

  /** The [DONE] line ends decoding: nothing after it among the same lines is reported. */
  lemma DoneEndsLines(a: seq<string>, b: seq<string>, extract: Extractor, conversationId: string)
    requires forall i :: 0 <= i < |a| ==> !IsDone(a[i])
    ensures DecodeLines(a + [DataPrefix + DoneMarker] + b, extract, conversationId) == DecodeLines(a, extract, conversationId)
  {
    var done := DataPrefix + DoneMarker;
    assert IsDone(done);
    AppendAssoc(a, [done], b);
    DecodeLinesAppend(a, [done] + b, extract, conversationId);
    assert DecodeLines([done] + b, extract, conversationId) == [];
    AppendAssoc(DecodeLines(a, extract, conversationId), [], []);
  }

  /**
    A chunk whose complete lines reach a [DONE] line reports only the lines
    before it; the lines after it in that chunk are dropped.
   */
  lemma DoneEndsChunk(st: DecoderState, chunk: string, a: seq<string>, b: seq<string>, extract: Extractor, conversationId: string)
    requires Lines(st.buffer + chunk) == a + [DataPrefix + DoneMarker] + b
    requires forall i :: 0 <= i < |a| ==> !IsDone(a[i])
    ensures FeedStep(st, chunk, extract, conversationId).emitted == st.emitted + DecodeLines(a, extract, conversationId)
  {
    DoneEndsLines(a, b, extract, conversationId);
  }

  /** Feeding one chunk into a fresh decoder. */
  lemma FeedOne(c: string, extract: Extractor, conversationId: string)
    ensures FeedAll([c], extract, conversationId) == DecoderState(Rest(c), DecodeLines(Lines(c), extract, conversationId))
  {
    assert [c][..0] == [];
    assert "" + c == c;
    AppendAssoc([], [], DecodeLines(Lines(c), extract, conversationId));
  }

  /** Feeding two chunks into a fresh decoder. */
  lemma FeedTwo(c1: string, c2: string, extract: Extractor, conversationId: string)
    ensures FeedAll([c1, c2], extract, conversationId)
         == FeedStep(FeedAll([c1], extract, conversationId), c2, extract, conversationId)
  {
    assert [c1, c2][..1] == [c1];
  }

  /** The [DONE] line and a data line whose payload has text, as the handler sees them. */
  lemma DoneAndDataLines(payload: string, text: string, extract: Extractor, conversationId: string)
    requires '\n' !in payload && payload != DoneMarker
    requires extract(payload) == Some(text) && text != ""
    ensures IsDone(DataPrefix + DoneMarker) && '\n' !in DataPrefix + DoneMarker
    ensures !IsDone(DataPrefix + payload) && '\n' !in DataPrefix + payload
    ensures DecodeLines([DataPrefix + payload], extract, conversationId) == [TextFragment(text, conversationId)]
  {
    var data := DataPrefix + payload;
    assert data[|DataPrefix|..] == payload;
    assert StartsWith(data, DataPrefix);
    assert LineFragments(data, extract, conversationId) == [TextFragment(text, conversationId)];
    var single: seq<string> := [data];
    assert single[1..] == [];
  }

  /** The `return` on [DONE] leaves the handler: a data line after [DONE] in the same chunk is dropped. */
  lemma DoneDropsRestOfChunk(payload: string, text: string, extract: Extractor, conversationId: string)
    requires '\n' !in payload && payload != DoneMarker
    requires extract(payload) == Some(text) && text != ""
    ensures FeedAll([DataPrefix + DoneMarker + "\n" + DataPrefix + payload + "\n"], extract, conversationId).emitted == []
  {
    var done, data := DataPrefix + DoneMarker, DataPrefix + payload;
    DoneAndDataLines(payload, text, extract, conversationId);
    NoNewline("");
    var whole := DataPrefix + DoneMarker + "\n" + DataPrefix + payload + "\n";
    assert whole == done + "\n" + (data + "\n" + "");
    SplitAfter(done, data + "\n" + "");
    SplitAfter(data, "");
    var lines := Lines(whole);
    assert lines[0] == done;
    assert DecodeLines(lines, extract, conversationId) == [];
    FeedOne(whole, extract, conversationId);
  }

  /** ... but the stream goes on: the same data line in the next chunk is reported. */
  lemma DoneSparesNextChunk(payload: string, text: string, extract: Extractor, conversationId: string)
    requires '\n' !in payload && payload != DoneMarker
    requires extract(payload) == Some(text) && text != ""
    ensures FeedAll([DataPrefix + DoneMarker + "\n", DataPrefix + payload + "\n"], extract, conversationId).emitted
         == [TextFragment(text, conversationId)]
  {
    var done, data := DataPrefix + DoneMarker, DataPrefix + payload;
    DoneAndDataLines(payload, text, extract, conversationId);
    NoNewline("");
    var c1, c2 := done + "\n", data + "\n";
    assert c1 == done + "\n" + "" && c2 == data + "\n" + "";
    SplitAfter(done, "");
    SplitAfter(data, "");
    assert Lines(c1) == [done] && Rest(c1) == "";
    assert DecodeLines([done], extract, conversationId) == [];
    FeedOne(c1, extract, conversationId);
    FeedTwo(c1, c2, extract, conversationId);
    assert "" + c2 == c2;
    assert Lines(c2) == [data];
    AppendAssoc([], [], [TextFragment(text, conversationId)]);
  }

  // ------------------------------------------------------------ the handler

  /** The state of one `sendMessage` call's `data` handler: its `buffer` and what it has passed to `onStream`. */
  class LineDecoder {
    var buffer: string
    var emitted: seq<Fragment>
    const conversationId: string
    const extract: Extractor

    constructor (conversationId: string, extract: Extractor)
      ensures buffer == "" && emitted == []
      ensures this.conversationId == conversationId && this.extract == extract
    {
      buffer := "";
      emitted := [];
      this.conversationId := conversationId;
      this.extract := extract;
    }

    /** The `data` handler on one chunk. */
    method Feed(chunk: string)
      modifies this`buffer, this`emitted
      ensures '\n' !in buffer
      ensures old(buffer) + chunk == Terminated(Lines(old(buffer) + chunk)) + buffer
      ensures DecoderState(buffer, emitted)
           == FeedStep(DecoderState(old(buffer), old(emitted)), chunk, extract, conversationId)
    {
      var text := buffer + chunk;
      LinesCover(text);
      var lines := SplitLines(text);
      buffer := lines[|lines| - 1];
      lines := lines[..|lines| - 1];
      assert lines == Lines(text);
      ghost var before := emitted;
      var i := 0;
      while i < |lines|
        invariant 0 <= i <= |lines|
        invariant buffer == Rest(text) && lines == Lines(text)
        invariant before + DecodeLines(lines, extract, conversationId)
               == emitted + DecodeLines(lines[i..], extract, conversationId)
      {
        var line := lines[i];
        DecodeLinesAt(lines, i, extract, conversationId);
        ghost var later := DecodeLines(lines[i + 1..], extract, conversationId);
        if StartsWith(line, DataPrefix) {
          var data := line[|DataPrefix|..];
          if data == DoneMarker {
            AppendAssoc(emitted, [], []);
            return;
          }
          var parsed := extract(data);
          if parsed.Some? && parsed.value != "" {
            AppendAssoc(emitted, [TextFragment(parsed.value, conversationId)], later);
            emitted := emitted + [TextFragment(parsed.value, conversationId)];
          } else {
            AppendAssoc([], [], later);
          }
        } else {
          AppendAssoc([], [], later);
        }
        i := i + 1;
      }
    }
  }
}
