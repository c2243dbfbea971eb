/**
 * The AI assistant's chat: the send guard, the reader of the server-sent
 * event stream, and the fold of streamed tokens into the trailing assistant
 * message (`sendMessage` in src/components/ai/AIAssistant.tsx).
 *
 * The decoded text of the response arrives in chunks. Each chunk is appended
 * to a text buffer; complete lines are cut off at `\n` and classified as
 * comment, blank, `data: …` payload or the `[DONE]` marker, following the
 * event-stream format of the WHATWG HTML Living Standard, section 9.2, in the
 * subset the client reads. `JSON.parse` is the parameter `parse`; `None`
 * stands for a parse that throws. How a number is written as text
 * (`Number.prototype.toString`) is the parameter `num`.
 *
 * `ScanLines` specifies what the inner loop does with one buffer; the class
 * `ChatAssistant` performs the same steps on its fields and is proved to
 * agree with it.
 */
module ChatStream {
  import opened Wrappers
  import opened Strings
  import opened Json

  datatype Role = User | Assistant

  datatype Message = Message(role: Role, content: string)

  /** No line break in `s`. */
  predicate NoNewline(s: string) {
    forall k :: 0 <= k < |s| ==> s[k] != '\n'
  }

  lemma OccursNewline(s: string, j: nat)
    ensures OccursAt(s, "\n", j) <==> j < |s| && s[j] == '\n'
  {
    if j < |s| {
      assert s[j..][..1] == [s[j]];
    }
  }

  /** The position of the first line break in `s`. */
  function FirstNewline(s: string): (r: Option<nat>)
    ensures r.Some? ==> r.value < |s| && s[r.value] == '\n'
    ensures r.Some? ==> forall k :: 0 <= k < r.value ==> s[k] != '\n'
    ensures r.None? ==> NoNewline(s)
    decreases |s|
  {
    if s == [] then None
    else if s[0] == '\n' then Some(0)
    else match FirstNewline(s[1..])
      case None => None
      case Some(j) => Some(j + 1)
  }

  /** `FirstNewline` is `s.indexOf('\n')`. */
  lemma FirstNewlineIsIndexOf(s: string)
    ensures FirstNewline(s) == FindFrom(s, "\n", 0)
  {
    var r := FindFrom(s, "\n", 0);
    FindFromSpec(s, "\n", 0);
    if r.Some? {
      OccursNewline(s, r.value);
      forall k | 0 <= k < r.value ensures s[k] != '\n' {
        OccursNewline(s, k);
      }
    } else {
      forall k | 0 <= k < |s| ensures s[k] != '\n' {
        OccursNewline(s, k);
      }
    }
  }

  /** The first line break of `a + b` when `a` has one. */
  lemma FirstNewlineAppend(a: string, b: string)
    ensures FirstNewline(a).Some? ==> FirstNewline(a + b) == FirstNewline(a)
    ensures FirstNewline(a).None? ==> FirstNewline(a + b) == (match FirstNewline(b) case Some(j) => Some(|a| + j) case None => None)
  {
    assert forall k :: 0 <= k < |a| ==> (a + b)[k] == a[k];
    assert forall k :: 0 <= k < |b| ==> (a + b)[|a| + k] == b[k];
  }

  /** `if (line.endsWith('\r')) line = line.slice(0, -1)`. */
  function StripCR(line: string): (r: string)
    ensures EndsWith(line, "\r") ==> line == r + "\r"
    ensures !EndsWith(line, "\r") ==> r == line
  {
    if EndsWith(line, "\r") then line[..|line| - 1] else line
  }

  /** What one line of the stream is, after its carriage return is removed. */
  datatype Frame = Skip | DoneMarker | Payload(json: string)

  /** The classification of a line. */
  function Classify(line: string): Frame
  {
    if StartsWith(line, ":") || Trim(line) == "" then Skip
    else if !StartsWith(line, "data: ") then Skip
    else if Trim(line[6..]) == "[DONE]" then DoneMarker
    else Payload(Trim(line[6..]))
  }

  /**
   * Comments, blank lines and lines that do not start with `data: ` are
   * skipped; a `data: ` line is the `[DONE]` marker or a payload, whose text
   * is the trimmed rest of the line.
   */
  lemma ClassifyMeaning(line: string)
    ensures Classify(line).Skip? <==> StartsWith(line, ":") || IsBlank(line) || !StartsWith(line, "data: ")
    ensures Classify(line).DoneMarker? <==> !Classify(line).Skip? && Trim(line[6..]) == "[DONE]"
    ensures Classify(line).Payload? ==> Classify(line).json == Trim(line[6..]) && Classify(line).json != "[DONE]"
  {
    TrimEmptyIffBlank(line);
  }

  /** Removing one more trailing `\r` from a payload line does not change it. */
  lemma ClassifyStripCR(line: string)
    requires Classify(line).Payload?
    ensures Classify(StripCR(line)) == Classify(line)
  {
    if EndsWith(line, "\r") {
      var l := StripCR(line);
      assert line[0] == 'd';
      assert |line| > 6 by {
        assert line[5] == ' ';
      }
      assert l[..6] == line[..6] && l[0] == 'd';
      assert line[6..] == l[6..] + ['\r'];
      TrimDropsTrailingSpace(l[6..], '\r');
      assert !IsBlank(l) by {
        assert !IsSpace(l[0]);
      }
    }
  }

  /** `parsed.choices?.[0]?.delta?.content`. */
  function DeltaContent(j: Json): Option<Json> {
    Field(Field(AtZero(Field(Some(j), "choices")), "delta"), "content")
  }

  /**
   * The outcome of the `try` around one payload: it threw (`JSON.parse`
   * failed, the payload was `null`, or the content has no text), its content
   * was falsy and `if (tokenContent)` passed it over, or the content was
   * truthy and `+=` appended its (possibly empty) text.
   */
  datatype Delta = Unparseable | NoContent | Token(text: string)

  /**
   * A falsy content is passed over; a truthy one is appended as its text,
   * which `num` writes for a number.
   */
  function Decode(json: string, parse: string -> Option<Json>, num: real -> string): Delta
  {
    match parse(json)
    case None => Unparseable
    case Some(JNull) => Unparseable
    case Some(j) =>
      var c := DeltaContent(j);
      if !TruthyOpt(c) then NoContent
      else match JsText(c.value, num)
        case None => Unparseable
        case Some(t) => Token(t)
  }

  /**
   * A payload that does not parse, or parses to `null`, lands in the
   * `catch`. Otherwise a falsy content is passed over, a string content
   * is its own token, any other truthy content is appended as its text, and
   * an object content with its own `toString` member throws into the `catch`.
   * Every token, the empty one included, comes from a truthy content.
   */
  lemma DecodeMeaning(json: string, parse: string -> Option<Json>, num: real -> string)
    ensures parse(json).None? || parse(json) == Some(JNull) ==> Decode(json, parse, num) == Unparseable
    ensures parse(json).Some? && parse(json) != Some(JNull) ==>
      var c := DeltaContent(parse(json).value);
      && (!TruthyOpt(c) <==> Decode(json, parse, num) == NoContent)
      && (TruthyOpt(c) && c.value.JStr? ==> Decode(json, parse, num) == Token(c.value.s))
      && (TruthyOpt(c) && c.value.JObj? ==> (Decode(json, parse, num).Unparseable? <==> "toString" in c.value.fields))
      && (TruthyOpt(c) && JsText(c.value, num).Some? ==> Decode(json, parse, num) == Token(JsText(c.value, num).value))
    ensures Decode(json, parse, num).Token? ==>
      parse(json).Some? && parse(json) != Some(JNull) && TruthyOpt(DeltaContent(parse(json).value))
  {
  }

  /** How `+=` writes some contents that are not strings; the last three are truthy yet empty. */
  lemma CoercedTokens(num: real -> string)
    ensures JsText(JBool(true), num) == Some("true")
    ensures JsText(JNum(2.5), num) == Some(num(2.5))
    ensures JsText(JArr([JStr("a"), JNull, JArr([JStr("b"), JStr("c")])]), num) == Some("a,,b,c")
    ensures JsText(JObj(map["text" := JStr("a")]), num) == Some("[object Object]")
    ensures JsText(JObj(map["toString" := JStr("a")]), num).None?
    ensures JsText(JArr([]), num) == Some("")
    ensures JsText(JArr([JStr("")]), num) == Some("")
    ensures JsText(JArr([JNull]), num) == Some("")
  {
    var bc := [JStr("b"), JStr("c")];
    assert bc[1..] == [JStr("c")];
    assert JoinTexts([JStr("c")], num) == Some("c");
    assert JoinTexts(bc, num) == Some("b" + "," + "c");
    assert "b" + "," + "c" == "b,c";
    assert JsText(JArr(bc), num) == Some("b,c");
    var all := [JStr("a"), JNull, JArr(bc)];
    assert all[1..] == [JNull, JArr(bc)] && all[1..][1..] == [JArr(bc)];
    assert JoinTexts([JArr(bc)], num) == Some("b,c");
    assert JoinTexts([JNull, JArr(bc)], num) == Some("" + "," + "b,c");
    assert "" + "," + "b,c" == ",b,c";
    assert "a" + "," + ",b,c" == "a,,b,c";
    assert JoinTexts(all, num) == Some("a" + "," + ",b,c");
  }

  /**
   * What the reader does with one line: go on to the next line, with the
   * token to append and show when there is one (`Some`, possibly empty),
   * stop reading, or push the line back.
   */
  datatype Action = Continue(token: Option<string>) | Stop | PushBack

  /**
   * One line of the main loop: skipped lines and falsy contents change
   * nothing, a truthy content is a token, `[DONE]` stops, a payload that does
   * not parse is pushed back.
   */
  function LineAction(line: string, parse: string -> Option<Json>, num: real -> string): Action {
    match Classify(line)
    case Skip => Continue(None)
    case DoneMarker => Stop
    case Payload(json) =>
      match Decode(json, parse, num)
      case Unparseable => PushBack
      case NoContent => Continue(None)
      case Token(t) => Continue(Some(t))
  }

  /** The line handler of a reader whose `JSON.parse` is `parse`. */
  function Handler(parse: string -> Option<Json>, num: real -> string): string -> Action {
    line => LineAction(line, parse, num)
  }

  /** Removing one more `\r` from a pushed-back line pushes it back again. */
  lemma LineActionStripCR(line: string, parse: string -> Option<Json>, num: real -> string)
    requires LineAction(line, parse, num) == PushBack
    ensures LineAction(StripCR(line), parse, num) == PushBack
  {
    ClassifyStripCR(line);
  }

  /** Why the inner loop stopped. */
  datatype Halt = NeedMore | SawDone | Retry

  /**
   * The inner loop's result: the remaining buffer, the text so far, how it
   * stopped, how much input it consumed, and whether some line brought a
   * token (and so rewrote the conversation).
   */
  datatype Scan = Scan(buffer: string, soFar: string, stop: Halt, cut: nat, updated: bool)

  /**
   * The inner loop of the stream reader on buffer `b`, with line handler
   * `act`: complete lines are cut off in order and their `\r` removed; tokens
   * are appended to the text so far; `Stop` ends reading; `PushBack` puts the
   * line and its `\n` back at the head of the buffer and waits for more text.
   */
  function ScanLines(b: string, soFar: string, act: string -> Action): (r: Scan)
    ensures |r.soFar| >= |soFar| && r.soFar[..|soFar|] == soFar
    ensures r.stop == NeedMore ==> NoNewline(r.buffer)
    decreases |b|
  {
    match FirstNewline(b)
    case None => Scan(b, soFar, NeedMore, 0, false)
    case Some(i) =>
      var line, rest := StripCR(b[..i]), b[i + 1..];
      match act(line)
      case Stop => Scan(rest, soFar, SawDone, i + 1, false)
      case PushBack => Scan(line + "\n" + rest, soFar, Retry, 0, false)
      case Continue(t) =>
        var r := ScanLines(rest, soFar + t.GetOr(""), act);
        assert r.soFar[..|soFar|] == (soFar + t.GetOr(""))[..|soFar|];
        Scan(r.buffer, r.soFar, r.stop, i + 1 + r.cut, t.Some? || r.updated)
  }

  /** What one line does to the scan of a buffer that holds one. */
  lemma ScanStep(b: string, soFar: string, act: string -> Action)
    requires FirstNewline(b).Some?
    ensures var i := FirstNewline(b).value;
      var line, rest, r := StripCR(b[..i]), b[i + 1..], ScanLines(b, soFar, act);
      && (act(line).Stop? ==> r.buffer == rest && r.soFar == soFar && r.stop == SawDone && !r.updated)
      && (act(line).PushBack? ==> r.buffer == line + "\n" + rest && r.soFar == soFar && r.stop == Retry && !r.updated)
      && (act(line).Continue? ==>
        var next := ScanLines(rest, soFar + act(line).token.GetOr(""), act);
        SameOutcome(r, next) && r.updated == (act(line).token.Some? || next.updated))
  {
  }

  /**
   * The inner loop, part way through a scan whose result is `target`: the
   * scan of what is left ends the same way, and `seen` records whether the
   * lines already handled brought a token.
   */
  ghost predicate Tracks(target: Scan, seen: bool, b: string, soFar: string, act: string -> Action) {
    var r := ScanLines(b, soFar, act);
    SameOutcome(r, target) && target.updated == (seen || r.updated)
  }

  /** Without a complete line the scan is over. */
  lemma TracksEnd(target: Scan, seen: bool, b: string, soFar: string, act: string -> Action)
    requires Tracks(target, seen, b, soFar, act) && FirstNewline(b).None?
    ensures target.buffer == b && target.soFar == soFar && target.stop == NeedMore && target.updated == seen
  {
  }

  /** A line that stops reading or is pushed back ends the scan. */
  lemma TracksHalt(target: Scan, seen: bool, b: string, soFar: string, act: string -> Action)
    requires Tracks(target, seen, b, soFar, act) && FirstNewline(b).Some?
    requires var i := FirstNewline(b).value; !act(StripCR(b[..i])).Continue?
    ensures var i := FirstNewline(b).value;
      var line, rest := StripCR(b[..i]), b[i + 1..];
      && target.soFar == soFar && target.updated == seen
      && target.stop == (if act(line).Stop? then SawDone else Retry)
      && target.buffer == (if act(line).Stop? then rest else line + "\n" + rest)
  {
    ScanStep(b, soFar, act);
  }

  /** A line that goes on leaves the rest to scan. */
  lemma TracksContinue(target: Scan, seen: bool, b: string, soFar: string, act: string -> Action)
    requires Tracks(target, seen, b, soFar, act) && FirstNewline(b).Some?
    requires var i := FirstNewline(b).value; act(StripCR(b[..i])).Continue?
    ensures var i := FirstNewline(b).value;
      var t := act(StripCR(b[..i])).token;
      Tracks(target, seen || t.Some?, b[i + 1..], soFar + t.GetOr(""), act)
  {
    ScanStep(b, soFar, act);
  }

  /**
   * No loss, no duplication, for a scan `r` of `b`: it consumed `b[..cut]`, a
   * run of complete lines, and left the rest in the buffer; when it stopped
   * at a line that is pushed back, that line returns without its `\r`, still
   * followed by its `\n` and everything after it.
   */
  predicate NoLoss(b: string, act: string -> Action, r: Scan) {
    && r.cut <= |b| && (r.cut == 0 || b[r.cut - 1] == '\n')
    && LeftOver(b[r.cut..], act, r.stop, r.buffer)
  }

  /** The buffer left after a scan that stopped with `stop`, `tail` being the input it did not consume. */
  predicate LeftOver(tail: string, act: string -> Action, stop: Halt, buffer: string) {
    && (stop != Retry ==> buffer == tail)
    && (stop == Retry ==>
      var j := FirstNewline(tail);
      j.Some? && act(StripCR(tail[..j.value])) == PushBack
      && buffer == StripCR(tail[..j.value]) + "\n" + tail[j.value + 1..])
  }

  /** Every scan loses and duplicates nothing. */
  lemma {:induction false} ScanLinesNoLoss(b: string, soFar: string, act: string -> Action)
    ensures NoLoss(b, act, ScanLines(b, soFar, act))
    decreases |b|
  {
    match FirstNewline(b)
    case None =>
    case Some(i) =>
      match act(StripCR(b[..i]))
      case Stop =>
      case PushBack =>
        assert b[0..] == b;
      case Continue(t) =>
        var rest := b[i + 1..];
        var r := ScanLines(rest, soFar + t.GetOr(""), act);
        ScanLinesNoLoss(rest, soFar + t.GetOr(""), act);
        assert ScanLines(b, soFar, act) == Scan(r.buffer, r.soFar, r.stop, i + 1 + r.cut, t.Some? || r.updated);
        NoLossStep(b, i, act, r, t.Some? || r.updated);
  }

  /** Carries the no-loss facts for the rest of the buffer after the line ending at `i` over to the whole of it. */
  lemma NoLossStep(b: string, i: nat, act: string -> Action, r: Scan, updated: bool)
    requires i < |b| && b[i] == '\n' && NoLoss(b[i + 1..], act, r)
    ensures NoLoss(b, act, Scan(r.buffer, r.soFar, r.stop, i + 1 + r.cut, updated))
  {
    var tail := b[i + 1..][r.cut..];
    assert tail == b[i + 1 + r.cut..];
    if r.cut > 0 {
      assert b[i + 1..][r.cut - 1] == b[i + r.cut];
    }
  }

  /** Equal up to the amount of input consumed. */
  predicate SameOutcome(x: Scan, y: Scan) {
    x.buffer == y.buffer && x.soFar == y.soFar && x.stop == y.stop
  }

  /**
   * Chunk boundaries do not matter: scanning `b + c` at once gives what
   * scanning `b` and then its remaining buffer followed by `c` gives, unless
   * the scan of `b` already stopped, in which case `c` only joins the buffer.
   */
  lemma {:induction false} ScanLinesAppend(b: string, c: string, soFar: string, act: string -> Action)
    ensures var r := ScanLines(b, soFar, act);
      if r.stop == NeedMore then SameOutcome(ScanLines(b + c, soFar, act), ScanLines(r.buffer + c, r.soFar, act))
      else SameOutcome(ScanLines(b + c, soFar, act), Scan(r.buffer + c, r.soFar, r.stop, 0, false))
    decreases |b|
  {
    FirstNewlineAppend(b, c);
    match FirstNewline(b)
    case None =>
    case Some(i) =>
      assert (b + c)[..i] == b[..i] && (b + c)[i + 1..] == b[i + 1..] + c;
      match act(StripCR(b[..i]))
      case Stop =>
      case PushBack =>
      case Continue(t) =>
        ScanLinesAppend(b[i + 1..], c, soFar + t.GetOr(""), act);
  }

  /**
   * A payload that fails to parse is retried on the next chunk and fails
   * again: the lines behind it wait, unread, until the end of the stream.
   */
  lemma RetryStalls(b: string, c: string, soFar: string, parse: string -> Option<Json>, num: real -> string)
    requires ScanLines(b, soFar, Handler(parse, num)).stop == Retry
    ensures var r := ScanLines(b, soFar, Handler(parse, num));
      var r2 := ScanLines(r.buffer + c, r.soFar, Handler(parse, num));
      r2.stop == Retry && r2.soFar == r.soFar && r2.cut == 0
  {
    var act := Handler(parse, num);
    forall l | act(l) == PushBack ensures act(StripCR(l)) == PushBack {
      LineActionStripCR(l, parse, num);
    }
    RetryRepeats(b, c, soFar, act);
  }

  /** The same for any handler that keeps pushing back a line once its `\r` is gone. */
  lemma RetryRepeats(b: string, c: string, soFar: string, act: string -> Action)
    requires forall l {:trigger StripCR(l)} :: act(l) == PushBack ==> act(StripCR(l)) == PushBack
    requires ScanLines(b, soFar, act).stop == Retry
    ensures var r := ScanLines(b, soFar, act);
      var r2 := ScanLines(r.buffer + c, r.soFar, act);
      r2.stop == Retry && r2.soFar == r.soFar && r2.cut == 0
  {
    var line, rest := RetryBuffer(b, soFar, act);
    assert act(StripCR(line)) == PushBack;
    ScanPushedBack(line, rest, c, ScanLines(b, soFar, act).soFar, act);
  }

  /** After a push-back the buffer is the line pushed back, without its `\r`, its `\n` and the rest. */
  lemma RetryBuffer(b: string, soFar: string, act: string -> Action) returns (line: string, rest: string)
    requires ScanLines(b, soFar, act).stop == Retry
    ensures ScanLines(b, soFar, act).buffer == line + "\n" + rest
    ensures NoNewline(line) && act(line) == PushBack
  {
    ScanLinesNoLoss(b, soFar, act);
    var r := ScanLines(b, soFar, act);
    var tail := b[r.cut..];
    var j := FirstNewline(tail).value;
    line, rest := StripCR(tail[..j]), tail[j + 1..];
  }

  /** A buffer that starts with a line the handler pushes back is left as it is. */
  lemma ScanPushedBack(line: string, rest: string, c: string, soFar: string, act: string -> Action)
    requires NoNewline(line) && act(StripCR(line)) == PushBack
    ensures var r := ScanLines(line + "\n" + rest + c, soFar, act);
      r.stop == Retry && r.soFar == soFar && r.cut == 0
  {
    var nb := line + "\n" + rest + c;
    FirstNewlineAt(nb, |line|);
    assert nb[..|line|] == line;
  }

  /** The reader between chunks: its buffer, the text so far, and whether reading has stopped. */
  datatype Reader = Reader(buffer: string, soFar: string, done: bool)

  /** One `reader.read()` that delivers `chunk`; once stopped, nothing more is read. */
  function Feed(rd: Reader, chunk: string, act: string -> Action): (r: Reader)
    ensures rd.done ==> r == rd
    ensures |r.soFar| >= |rd.soFar| && r.soFar[..|rd.soFar|] == rd.soFar
  {
    if rd.done then rd
    else
      var s := ScanLines(rd.buffer + chunk, rd.soFar, act);
      Reader(s.buffer, s.soFar, s.stop == SawDone)
  }

  /** The reader after all of `chunks`. */
  function FeedAll(rd: Reader, chunks: seq<string>, act: string -> Action): (r: Reader)
    ensures |r.soFar| >= |rd.soFar| && r.soFar[..|rd.soFar|] == rd.soFar
    decreases |chunks|
  {
    if chunks == [] then rd
    else
      var r := FeedAll(Feed(rd, chunks[0], act), chunks[1..], act);
      assert r.soFar[..|rd.soFar|] == Feed(rd, chunks[0], act).soFar[..|rd.soFar|];
      r
  }

  /**
   * Reading the text as two chunks gives the same reader as reading it as one,
   * as long as the first chunk neither stops reading nor pushes a line back.
   */
  lemma FeedSplit(rd: Reader, c1: string, c2: string, act: string -> Action)
    requires !rd.done && ScanLines(rd.buffer + c1, rd.soFar, act).stop == NeedMore
    ensures Feed(Feed(rd, c1, act), c2, act) == Feed(rd, c1 + c2, act)
  {
    FeedScans(rd, c1, act);
    FeedScans(rd, c1 + c2, act);
    FeedScans(Feed(rd, c1, act), c2, act);
    ScanTwoChunks(rd.buffer, c1, c2, rd.soFar, act);
  }

  /** `ScanLinesAppend` for a buffer and two chunks, the first of which asks for more text. */
  lemma ScanTwoChunks(b: string, c1: string, c2: string, soFar: string, act: string -> Action)
    requires ScanLines(b + c1, soFar, act).stop == NeedMore
    ensures var r := ScanLines(b + c1, soFar, act);
      SameOutcome(ScanLines(b + (c1 + c2), soFar, act), ScanLines(r.buffer + c2, r.soFar, act))
  {
    assert b + (c1 + c2) == (b + c1) + c2;
    ScanLinesAppend(b + c1, c2, soFar, act);
  }

  /** A read that is not stopped is one scan of the buffer and the chunk. */
  lemma FeedScans(rd: Reader, chunk: string, act: string -> Action)
    requires !rd.done
    ensures var s := ScanLines(rd.buffer + chunk, rd.soFar, act);
      Feed(rd, chunk, act) == Reader(s.buffer, s.soFar, s.stop == SawDone)
  {
  }

  /** Once `[DONE]` has been read, further chunks change nothing. */
  lemma {:induction false} DoneStopsReading(rd: Reader, chunks: seq<string>, act: string -> Action)
    requires rd.done
    ensures FeedAll(rd, chunks, act) == rd
    decreases |chunks|
  {
    if chunks != [] {
      DoneStopsReading(Feed(rd, chunks[0], act), chunks[1..], act);
    }
  }

  /**
   * One line of the final flush: like the main loop, except that `Stop`
   * (a further `[DONE]`) and `PushBack` (a parse failure) are passed over.
   */
  function FlushLine(soFar: string, raw: string, act: string -> Action): (r: string)
    ensures |r| >= |soFar| && r[..|soFar|] == soFar
    ensures r != soFar ==> raw != "" && act(StripCR(raw)) == Continue(Some(r[|soFar|..]))
    ensures !BringsToken(raw, act) ==> r == soFar
  {
    if raw == "" then soFar
    else match act(StripCR(raw))
      case Continue(Some(t)) =>
        assert (soFar + t)[..|soFar|] == soFar && (soFar + t)[|soFar|..] == t;
        soFar + t
      case _ => soFar
  }

  /** A line of the final flush that brings a token, and so rewrites the conversation. */
  predicate BringsToken(raw: string, act: string -> Action) {
    raw != "" && act(StripCR(raw)).Continue? && act(StripCR(raw)).token.Some?
  }

  /** Some line of the final flush brings a token. */
  predicate FlushUpdates(lines: seq<string>, act: string -> Action)
    decreases |lines|
  {
    lines != [] && (FlushUpdates(lines[..|lines| - 1], act) || BringsToken(lines[|lines| - 1], act))
  }

  /** `FlushUpdates` holds exactly when one of the lines brings a token. */
  lemma {:induction false} FlushUpdatesMeaning(lines: seq<string>, act: string -> Action)
    ensures FlushUpdates(lines, act) <==> exists k :: 0 <= k < |lines| && BringsToken(lines[k], act)
    decreases |lines|
  {
    if lines != [] {
      var init, n := lines[..|lines| - 1], |lines| - 1;
      FlushUpdatesMeaning(init, act);
      if FlushUpdates(lines, act) {
        if !BringsToken(lines[n], act) {
          var k :| 0 <= k < |init| && BringsToken(init[k], act);
          assert lines[k] == init[k];
        }
      }
      if exists k :: 0 <= k < |lines| && BringsToken(lines[k], act) {
        var k :| 0 <= k < |lines| && BringsToken(lines[k], act);
        if k < n {
          assert init[k] == lines[k];
        }
      }
    }
  }

  /** The final flush over the lines `lines`, in order. */
  function FlushLines(soFar: string, lines: seq<string>, act: string -> Action): (r: string)
    ensures |r| >= |soFar| && r[..|soFar|] == soFar
    ensures !FlushUpdates(lines, act) ==> r == soFar
    decreases |lines|
  {
    if lines == [] then soFar
    else
      var prev := FlushLines(soFar, lines[..|lines| - 1], act);
      var r := FlushLine(prev, lines[|lines| - 1], act);
      assert r[..|soFar|] == prev[..|soFar|];
      r
  }

  /** The final flush, when it runs, over what is left in the buffer brings a token. */
  predicate BufferUpdates(buffer: string, act: string -> Action) {
    Trim(buffer) != "" && FlushUpdates(Split(buffer, "\n"), act)
  }

  /** The final flush of what is left in the buffer once reading stops. */
  function FlushBuffer(buffer: string, soFar: string, act: string -> Action): (r: string)
    ensures |r| >= |soFar| && r[..|soFar|] == soFar
    ensures !BufferUpdates(buffer, act) ==> r == soFar
  {
    if Trim(buffer) != "" then FlushLines(soFar, Split(buffer, "\n"), act) else soFar
  }

  /** A blank line contributes nothing to the flush. */
  lemma {:induction false} FlushBlankLines(soFar: string, lines: seq<string>, parse: string -> Option<Json>, num: real -> string)
    requires forall k :: 0 <= k < |lines| ==> IsBlank(lines[k])
    ensures FlushLines(soFar, lines, Handler(parse, num)) == soFar
    decreases |lines|
  {
    if lines != [] {
      FlushBlankLines(soFar, lines[..|lines| - 1], parse, num);
      var raw := lines[|lines| - 1];
      if raw != "" {
        var l := StripCR(raw);
        assert IsBlank(l) by {
          assert forall k :: 0 <= k < |l| ==> l[k] == raw[k];
        }
        ClassifyMeaning(l);
      }
    }
  }

  /** The `textBuffer.trim()` guard of the flush changes no result. */
  lemma FlushGuardRedundant(buffer: string, soFar: string, parse: string -> Option<Json>, num: real -> string)
    ensures FlushBuffer(buffer, soFar, Handler(parse, num)) == FlushLines(soFar, Split(buffer, "\n"), Handler(parse, num))
  {
    if Trim(buffer) == "" {
      TrimEmptyIffBlank(buffer);
      SplitBlank(buffer, "\n");
      FlushBlankLines(soFar, Split(buffer, "\n"), parse, num);
    }
  }

  /** The whole reply text: every chunk read, then the final flush. */
  function Reply(chunks: seq<string>, act: string -> Action): string
  {
    var rd := FeedAll(Reader("", "", false), chunks, act);
    FlushBuffer(rd.buffer, rd.soFar, act)
  }

  /**
   * Lines still buffered behind a `[DONE]` of the main loop are read by the
   * final flush after all.
   */
  lemma DoneThenFlush(soFar: string, t: string, parse: string -> Option<Json>, num: real -> string)
    requires Decode("x", parse, num) == Token(t)
    ensures var r := ScanLines("data: [DONE]\ndata: x\n", soFar, Handler(parse, num));
      r.stop == SawDone && r.buffer == "data: x\n" && !r.updated
      && FlushBuffer(r.buffer, r.soFar, Handler(parse, num)) == soFar + t
      && BufferUpdates(r.buffer, Handler(parse, num))
  {
    var act := Handler(parse, num);
    DoneLineStops(parse, num);
    PayloadLineContinues(parse, num, t);
    ScanDoneLine(soFar, act);
    FlushOneLine(soFar, act);
  }

  /** The `data: [DONE]` line stops reading. */
  lemma DoneLineStops(parse: string -> Option<Json>, num: real -> string)
    ensures Handler(parse, num)("data: [DONE]") == Stop
  {
    DataLine("[DONE]");
    assert "data: " + "[DONE]" == "data: [DONE]";
  }

  /** The line `data: x` appends what its payload decodes to. */
  lemma PayloadLineContinues(parse: string -> Option<Json>, num: real -> string, t: string)
    requires Decode("x", parse, num) == Token(t)
    ensures Handler(parse, num)("data: x") == Continue(Some(t))
  {
    DataLine("x");
    assert "data: " + "x" == "data: x";
  }

  /** The classification of `data: ` followed by text with no white space at its ends. */
  lemma DataLine(v: string)
    requires v != [] && !IsSpace(v[0]) && !IsSpace(v[|v| - 1])
    ensures Classify("data: " + v) == if v == "[DONE]" then DoneMarker else Payload(v)
  {
    var l := "data: " + v;
    assert l[..6] == "data: " && l[6..] == v;
    assert l[..1] != ":" by {
      assert l[..1][0] == 'd';
    }
    assert !IsBlank(l) by {
      assert !IsSpace(l[0]);
    }
    TrimEmptyIffBlank(l);
    TrimNoSpaceEnds(v);
  }

  /** The first line break of `s` is at `i`. */
  lemma FirstNewlineAt(s: string, i: nat)
    requires i < |s| && s[i] == '\n' && NoNewline(s[..i])
    ensures FirstNewline(s) == Some(i)
  {
    assert forall k :: 0 <= k < i ==> s[..i][k] == s[k];
  }

  lemma ScanDoneLine(soFar: string, act: string -> Action)
    requires act("data: [DONE]") == Stop
    ensures ScanLines("data: [DONE]\ndata: x\n", soFar, act) == Scan("data: x\n", soFar, SawDone, 13, false)
  {
    var b := "data: [DONE]\ndata: x\n";
    assert b[..12] == "data: [DONE]" && b[13..] == "data: x\n";
    FirstNewlineAt(b, 12);
    assert !EndsWith(b[..12], "\r");
  }

  lemma FlushOneLine(soFar: string, act: string -> Action)
    requires act("data: x").Continue? && act("data: x").token.Some?
    ensures FlushBuffer("data: x\n", soFar, act) == soFar + act("data: x").token.value
    ensures BufferUpdates("data: x\n", act)
  {
    var rest := "data: x\n";
    assert Split(rest, "\n") == ["data: x", ""] by {
      assert FindFrom(rest, "\n", 0) == Some(7) by {
        OccursNewline(rest, 7);
        forall k: nat | k < 7 ensures !OccursAt(rest, "\n", k) {
          OccursNewline(rest, k);
        }
        FindFromIs(rest, "\n", 0, 7);
      }
      assert rest[..7] == "data: x" && rest[8..] == "";
    }
    assert !IsBlank(rest) by {
      assert !IsSpace(rest[0]);
    }
    TrimEmptyIffBlank(rest);
    assert !EndsWith("data: x", "\r");
    assert ["data: x", ""][..1] == ["data: x"];
    assert ["data: x"][..0] == [];
  }

  /**
   * A truthy content without text (`[]`) still rewrites the conversation:
   * after a user turn, a stream of that one payload leaves an empty
   * assistant message.
   */
  lemma EmptyArrayContent(m: seq<Message>, parse: string -> Option<Json>, num: real -> string)
    requires parse("x").Some? && DeltaContent(parse("x").value) == Some(JArr([]))
    requires |m| > 0 && m[|m| - 1].role == User
    ensures var r := ScanLines("data: x\n", "", Handler(parse, num));
      r.stop == NeedMore && r.buffer == "" && r.soFar == "" && r.updated
      && Shown(m, r.updated, r.soFar) == m + [Message(Assistant, "")]
  {
    EmptyArrayDecodes(parse, num);
    PayloadLineContinues(parse, num, "");
    ScanOnePayload("", Handler(parse, num));
  }

  /** The content `[]` is truthy and its text is empty. */
  lemma EmptyArrayDecodes(parse: string -> Option<Json>, num: real -> string)
    requires parse("x").Some? && DeltaContent(parse("x").value) == Some(JArr([]))
    ensures Decode("x", parse, num) == Token("")
  {
    CoercedTokens(num);
  }

  /** The scan of one complete line `data: x` that goes on. */
  lemma ScanOnePayload(soFar: string, act: string -> Action)
    requires act("data: x").Continue?
    ensures var t := act("data: x").token;
      ScanLines("data: x\n", soFar, act) == Scan("", soFar + t.GetOr(""), NeedMore, 8, t.Some?)
  {
    var b := "data: x\n";
    assert b[..7] == "data: x" && b[8..] == "";
    FirstNewlineAt(b, 7);
    assert !EndsWith(b[..7], "\r");
  }

  /**
   * Each streamed token rewrites the conversation: a trailing assistant
   * message is replaced by one holding the whole text so far, otherwise one
   * is appended. Earlier messages are left as they are.
   */
  function ApplyDelta(m: seq<Message>, soFar: string): (r: seq<Message>)
    ensures |r| >= 1 && r[|r| - 1] == Message(Assistant, soFar)
    ensures |m| > 0 && m[|m| - 1].role == Assistant ==> |r| == |m| && r[..|m| - 1] == m[..|m| - 1]
    ensures !(|m| > 0 && m[|m| - 1].role == Assistant) ==> |r| == |m| + 1 && r[..|m|] == m
  {
    if |m| > 0 && m[|m| - 1].role == Assistant then m[..|m| - 1] + [Message(Assistant, soFar)]
    else m + [Message(Assistant, soFar)]
  }

  /** Only the latest text counts: two updates in a row equal the second alone. */
  lemma ApplyDeltaTwice(m: seq<Message>, a: string, b: string)
    ensures ApplyDelta(ApplyDelta(m, a), b) == ApplyDelta(m, b)
  {
    var m1 := ApplyDelta(m, a);
    assert m1[..|m1| - 1] == if |m| > 0 && m[|m| - 1].role == Assistant then m[..|m| - 1] else m;
  }

  /** The conversation `m` after a stretch of the stream that brought a token (`updated`) or none. */
  function Shown(m: seq<Message>, updated: bool, soFar: string): seq<Message> {
    if updated then ApplyDelta(m, soFar) else m
  }

  /** Two stretches of the stream in a row, the second of which appends text only when it brings a token. */
  lemma ShownTwice(m: seq<Message>, a: bool, s1: string, b: bool, s2: string)
    requires !b ==> s2 == s1
    ensures Shown(Shown(m, a, s1), b, s2) == Shown(m, a || b, s2)
  {
    if a && b {
      ApplyDeltaTwice(m, s1, s2);
    }
  }

  /** Where a call to `sendMessage` stands. */
  datatype Phase = Ready | Awaiting | Streaming

  /** The assistant's conversation state and one request in flight. */
  class ChatAssistant {
    var messages: seq<Message>
    var input: string
    var isLoading: bool
    var toasts: seq<string>
    var phase: Phase
    var textBuffer: string
    var assistantSoFar: string

    ghost predicate Valid()
      reads this
    {
      isLoading <==> phase != Ready
    }

    constructor ()
      ensures Valid() && messages == [] && input == "" && !isLoading && toasts == [] && phase == Ready
    {
      messages, input, isLoading, toasts, phase := [], "", false, [], Ready;
      textBuffer, assistantSoFar := "", "";
    }

    /**
     * `sendMessage(content)`: ignored when the trimmed text is empty or a
     * request is in flight; otherwise appends one user message with the
     * trimmed text and starts a request.
     */
    method SendMessage(content: string) returns (sent: bool)
      requires Valid()
      modifies this
      ensures Valid()
      ensures sent <==> Trim(content) != "" && !old(isLoading)
      ensures !sent ==> (messages == old(messages) && input == old(input) && isLoading == old(isLoading)
        && phase == old(phase) && textBuffer == old(textBuffer) && assistantSoFar == old(assistantSoFar))
      ensures sent ==> (messages == old(messages) + [Message(User, Trim(content))]
        && input == "" && isLoading && phase == Awaiting && assistantSoFar == "")
      ensures toasts == old(toasts)
    {
      if Trim(content) == "" || isLoading {
        return false;
      }
      messages := messages + [Message(User, Trim(content))];
      input := "";
      isLoading := true;
      phase := Awaiting;
      assistantSoFar := "";
      return true;
    }

    /**
     * A non-ok response: a toast with the server's `error` text, else the
     * default; no assistant message. `serverError` is the body's `error` when
     * it is a string, and `None` when the body is unreadable (`{}`) or has no
     * such member. A body that parses to `null` makes `errorData.error`
     * throw, which is `ConnectFailed`; a truthy `error` that is not a string
     * is toasted as its raw value, which this text model leaves out.
     */
    method ResponseNotOk(serverError: Option<string>)
      requires Valid() && phase == Awaiting
      modifies this
      ensures Valid() && phase == Ready && !isLoading
      ensures toasts == old(toasts) + [if serverError.Some? && serverError.value != "" then serverError.value else "Failed to get response"]
      ensures messages == old(messages)
    {
      toasts := toasts + [if serverError.Some? && serverError.value != "" then serverError.value else "Failed to get response"];
      isLoading := false;
      phase := Ready;
    }

    /** An ok response without a body. */
    method NoBody()
      requires Valid() && phase == Awaiting
      modifies this
      ensures Valid() && phase == Ready && !isLoading
      ensures toasts == old(toasts) + ["No response stream"] && messages == old(messages)
    {
      toasts := toasts + ["No response stream"];
      isLoading := false;
      phase := Ready;
    }

    /** An ok response with a body: reading starts with an empty buffer. */
    method StreamOpened()
      requires Valid() && phase == Awaiting
      modifies this
      ensures Valid() && phase == Streaming && textBuffer == ""
      ensures messages == old(messages) && assistantSoFar == old(assistantSoFar) && toasts == old(toasts)
    {
      phase := Streaming;
      textBuffer := "";
    }

    /** The request or a read threw: a toast; what was streamed so far stays. */
    method ConnectFailed()
      requires Valid() && phase != Ready
      modifies this
      ensures Valid() && phase == Ready && !isLoading
      ensures toasts == old(toasts) + ["Failed to connect to AI assistant"] && messages == old(messages)
    {
      toasts := toasts + ["Failed to connect to AI assistant"];
      isLoading := false;
      phase := Ready;
    }

    /** The "Clear chat" button. */
    method ClearChat()
      modifies this`messages
      ensures messages == []
    {
      messages := [];
    }

    /**
     * One token of a truthy content: appended to the text so far, and the
     * conversation shows the whole text in its trailing assistant message,
     * even when the token is empty.
     */
    method AddToken(t: string, ghost m0: seq<Message>, ghost updated: bool)
      requires messages == Shown(m0, updated, assistantSoFar)
      modifies this`assistantSoFar, this`messages
      ensures assistantSoFar == old(assistantSoFar) + t
      ensures messages == Shown(m0, true, assistantSoFar)
    {
      ghost var prev := assistantSoFar;
      assistantSoFar := assistantSoFar + t;
      if updated {
        ApplyDeltaTwice(m0, prev, assistantSoFar);
      }
      messages := ApplyDelta(messages, assistantSoFar);
    }

    /** The final flush, then the end of the request. */
    method Finish(parse: string -> Option<Json>, num: real -> string)
      requires Valid() && phase == Streaming
      modifies this
      ensures Valid() && phase == Ready && !isLoading
      ensures assistantSoFar == FlushBuffer(old(textBuffer), old(assistantSoFar), Handler(parse, num))
      ensures messages == Shown(old(messages), BufferUpdates(old(textBuffer), Handler(parse, num)), assistantSoFar)
      ensures textBuffer == old(textBuffer) && toasts == old(toasts)
    {
      ghost var m0 := messages;
      if Trim(textBuffer) != "" {
        FlushLinesInto(Split(textBuffer, "\n"), Handler(parse, num), m0, false);
      }
      isLoading := false;
      phase := Ready;
    }

    /** The loop of the final flush: each line, in order, through `act`. */
    method FlushLinesInto(lines: seq<string>, act: string -> Action, ghost m0: seq<Message>, ghost updated: bool)
      requires messages == Shown(m0, updated, assistantSoFar)
      modifies this`assistantSoFar, this`messages
      ensures assistantSoFar == FlushLines(old(assistantSoFar), lines, act)
      ensures messages == Shown(m0, updated || FlushUpdates(lines, act), assistantSoFar)
    {
      ghost var start := assistantSoFar;
      var k := 0;
      while k < |lines|
        invariant 0 <= k <= |lines|
        invariant assistantSoFar == FlushLines(start, lines[..k], act)
        invariant messages == Shown(m0, updated || FlushUpdates(lines[..k], act), assistantSoFar)
      {
        var raw := lines[k];
        assert lines[..k + 1][..k] == lines[..k];
        ghost var next := FlushLine(assistantSoFar, raw, act);
        assert FlushLines(start, lines[..k + 1], act) == next;
        if raw != "" {
          match act(StripCR(raw)) {
            case Continue(Some(t)) => AddToken(t, m0, updated || FlushUpdates(lines[..k], act));
            case _ =>
          }
        }
        assert assistantSoFar == next;
        k := k + 1;
      }
      assert lines[..|lines|] == lines;
    }

    /**
     * The inner `while (true)` loop: cuts complete lines off the buffer and
     * hands each to `act` until no line break is left, a line ends reading or
     * a line is pushed back.
     */
    method ReadLines(act: string -> Action, ghost m0: seq<Message>, ghost updated: bool) returns (done: bool)
      requires messages == Shown(m0, updated, assistantSoFar)
      modifies this`textBuffer, this`assistantSoFar, this`messages
      ensures var r := ScanLines(old(textBuffer), old(assistantSoFar), act);
        done == (r.stop == SawDone) && textBuffer == r.buffer && assistantSoFar == r.soFar
        && messages == Shown(m0, updated || r.updated, assistantSoFar)
    {
      ghost var target := ScanLines(textBuffer, assistantSoFar, act);
      ghost var seen := false;
      done := false;
      while true
        invariant Tracks(target, seen, textBuffer, assistantSoFar, act)
        invariant messages == Shown(m0, updated || seen, assistantSoFar)
        decreases |textBuffer|
      {
        var nl := FirstNewline(textBuffer);
        if nl.None? {
          TracksEnd(target, seen, textBuffer, assistantSoFar, act);
          break;
        }
        var line := StripCR(textBuffer[..nl.value]);
        var rest := textBuffer[nl.value + 1..];
        var action := act(line);
        if !action.Continue? {
          TracksHalt(target, seen, textBuffer, assistantSoFar, act);
          if action.Stop? {
            textBuffer := rest;
            done := true;
          } else {
            textBuffer := line + "\n" + rest;
          }
          break;
        }
        TracksContinue(target, seen, textBuffer, assistantSoFar, act);
        textBuffer := rest;
        if action.token.Some? {
          AddToken(action.token.value, m0, updated || seen);
          seen := true;
        }
      }
    }

    /**
     * One chunk of decoded text: appended to the buffer, then the inner loop
     * cuts off and handles complete lines. A `[DONE]` payload ends reading and
     * runs the final flush.
     */
    method ReceiveChunk(chunk: string, parse: string -> Option<Json>, num: real -> string) returns (finished: bool)
      requires Valid() && phase == Streaming
      modifies this
      ensures Valid()
      ensures var r := ScanLines(old(textBuffer) + chunk, old(assistantSoFar), Handler(parse, num));
        finished == (r.stop == SawDone)
        && (finished ==>
              (phase == Ready && !isLoading && textBuffer == r.buffer
              && assistantSoFar == FlushBuffer(r.buffer, r.soFar, Handler(parse, num))
              && messages == Shown(old(messages), r.updated || BufferUpdates(r.buffer, Handler(parse, num)), assistantSoFar)))
        && (!finished ==>
              (phase == Streaming && textBuffer == r.buffer && assistantSoFar == r.soFar
              && messages == Shown(old(messages), r.updated, assistantSoFar)))
      ensures toasts == old(toasts)
    {
      ghost var m0 := messages;
      textBuffer := textBuffer + chunk;
      ghost var r := ScanLines(textBuffer, assistantSoFar, Handler(parse, num));
      var done := ReadLines(Handler(parse, num), m0, false);
      if done {
        ghost var sMid := assistantSoFar;
        Finish(parse, num);
        ShownTwice(m0, r.updated, sMid, BufferUpdates(r.buffer, Handler(parse, num)), assistantSoFar);
      }
      finished := done;
    }

    /** `reader.read()` reported the end of the stream: the final flush. */
    method EndOfStream(parse: string -> Option<Json>, num: real -> string)
      requires Valid() && phase == Streaming
      modifies this
      ensures Valid() && phase == Ready && !isLoading
      ensures assistantSoFar == FlushBuffer(old(textBuffer), old(assistantSoFar), Handler(parse, num))
      ensures messages == Shown(old(messages), BufferUpdates(old(textBuffer), Handler(parse, num)), assistantSoFar)
      ensures toasts == old(toasts)
    {
      Finish(parse, num);
    }
  }
}
