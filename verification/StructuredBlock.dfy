/** Tagged blocks in model output: how they are printed, and how they are found again. */
module StructuredBlock {
  import opened Text

  datatype Protocol =
    | AgentAsk | ContextFork | ContinuationDecisions | IdentityAppend
    | MemoryActions | McpCalls | ReplayRecord | TaskPlan

  function Tag(p: Protocol): string {
    match p
    case AgentAsk => "agent_question"
    case ContextFork => "agent_context_branch"
    case ContinuationDecisions => "agent_context_decisions"
    case IdentityAppend => "agent_profile_update"
    case MemoryActions => "agent_memory_update"
    case McpCalls => "agent_tool_calls"
    case ReplayRecord => "agent_replay_summary"
    case TaskPlan => "agent_task_plan"
  }

  function Open(p: Protocol): string { "<" + Tag(p) + ">" }

  function Close(p: Protocol): string { "</" + Tag(p) + ">" }

  /** `body` is the payload's text: a string as it is, anything else as JSON. */
  function RenderStructuredBlock(p: Protocol, body: string): string {
    Open(p) + "\n" + body + "\n" + Close(p)
  }

  predicate Occurs(text: string, pattern: string, at: nat) {
    at + |pattern| <= |text| && text[at..at + |pattern|] == pattern
  }

  /** `text.indexOf(pattern, from)` */
  function IndexOf(text: string, pattern: string, from: nat): (r: int)
    ensures r == -1 || (from <= r && r + |pattern| <= |text|)
    decreases |text| - from
  {
    if from + |pattern| > |text| then -1
    else if Occurs(text, pattern, from) then from
    else IndexOf(text, pattern, from + 1)
  }

  /** It is the first place where the pattern occurs, or -1 when there is none. */
  lemma {:induction false} IndexOfIsFirst(text: string, pattern: string, from: nat)
    ensures var r := IndexOf(text, pattern, from);
            && (r >= 0 ==> Occurs(text, pattern, r))
            && forall i | from <= i :: Occurs(text, pattern, i) ==> 0 <= r <= i
    decreases |text| - from
  {
    if from + |pattern| <= |text| && !Occurs(text, pattern, from) {
      IndexOfIsFirst(text, pattern, from + 1);
    }
  }

  lemma IndexOfOccurs(text: string, pattern: string, from: nat)
    ensures IndexOf(text, pattern, from) >= 0 ==> Occurs(text, pattern, IndexOf(text, pattern, from))
  {
    IndexOfIsFirst(text, pattern, from);
  }

  // ----- the pieces of a text -----

  datatype Piece = Visible(text: string) | Block(content: string)

  /** Where the cursor finds the next block. */
  datatype Place = NoOpen | NoClose(start: nat) | Complete(start: nat, end: nat)

  function Locate(raw: string, cursor: nat, open: string, close: string): Place {
    var start := IndexOf(raw, open, cursor);
    if start < 0 then NoOpen else
      var end := IndexOf(raw, close, start + |open|);
      if end < 0 then NoClose(start) else Complete(start, end)
  }

  /** The place lies behind the cursor, and the tags are there. */
  ghost predicate Fits(place: Place, raw: string, cursor: nat, open: string, close: string) {
    match place
    case NoOpen => true
    case NoClose(start) => cursor <= start && Occurs(raw, open, start)
    case Complete(start, end) =>
      cursor <= start && start + |open| <= end && Occurs(raw, open, start) && Occurs(raw, close, end)
  }

  lemma LocateFits(raw: string, cursor: nat, open: string, close: string)
    ensures Fits(Locate(raw, cursor, open, close), raw, cursor, open, close)
  {
    IndexOfOccurs(raw, open, cursor);
    var start := IndexOf(raw, open, cursor);
    if start >= 0 { IndexOfOccurs(raw, close, start + |open|); }
  }

  /** One turn of the cursor: what it cuts off, and where it goes on. Without a further complete
      block it goes to the end. */
  datatype Cut = Cut(pieces: seq<Piece>, next: nat)

  ghost function BlockCut(raw: string, cursor: nat, start: nat, end: nat, open: string, close: string): Cut
    requires cursor <= start && start + |open| <= end && end + |close| <= |raw|
  {
    Cut([Visible(raw[cursor..start]), Block(raw[start + |open|..end])], end + |close|)
  }

  ghost function CutAt(raw: string, cursor: nat, open: string, close: string, place: Place): (cut: Cut)
    requires open != "" && cursor < |raw| && Fits(place, raw, cursor, open, close)
    ensures cursor < cut.next <= |raw|
  {
    match place
    case NoOpen => Cut([Visible(raw[cursor..])], |raw|)
    case NoClose(start) => Cut([Visible(raw[cursor..start]), Visible(raw[start..])], |raw|)
    case Complete(start, end) => BlockCut(raw, cursor, start, end, open, close)
  }

  ghost function NextCut(raw: string, cursor: nat, open: string, close: string): (cut: Cut)
    requires open != "" && cursor < |raw|
    ensures cursor < cut.next <= |raw|
  {
    LocateFits(raw, cursor, open, close);
    CutAt(raw, cursor, open, close, Locate(raw, cursor, open, close))
  }

  /** The pieces of `raw` from `cursor` on. */
  ghost function Pieces(raw: string, cursor: nat, open: string, close: string): seq<Piece>
    requires open != "" && cursor <= |raw|
    decreases |raw| - cursor
  {
    if cursor == |raw| then [] else
      var cut := NextCut(raw, cursor, open, close);
      cut.pieces + Pieces(raw, cut.next, open, close)
  }

  function Source(piece: Piece, open: string, close: string): string {
    match piece
    case Visible(text) => text
    case Block(content) => open + content + close
  }

  function Rebuild(pieces: seq<Piece>, open: string, close: string): string {
    if pieces == [] then "" else Source(pieces[0], open, close) + Rebuild(pieces[1..], open, close)
  }

  function ShownOf(piece: Piece): string {
    if piece.Visible? then piece.text else ""
  }

  function VisibleText(pieces: seq<Piece>): string {
    if pieces == [] then "" else ShownOf(pieces[0]) + VisibleText(pieces[1..])
  }

  function ContentsOf(piece: Piece): seq<string> {
    if piece.Block? then [Trim(piece.content)] else []
  }

  function Contents(pieces: seq<Piece>): seq<string> {
    if pieces == [] then [] else ContentsOf(pieces[0]) + Contents(pieces[1..])
  }

  /** What the extraction returns: the trimmed payloads in order, and the trimmed rest. */
  datatype Extracted = Extracted(blocks: seq<string>, text: string)

  ghost function Extract(s: string, open: string, close: string): Extracted
    requires open != ""
  {
    Extracted(Contents(Pieces(s, 0, open, close)), Trim(VisibleText(Pieces(s, 0, open, close))))
  }

  /** What has been collected, and what is still to come, give the result. */
  ghost predicate Progress(all: seq<Piece>, rest: seq<Piece>, blocks: seq<string>, visible: string) {
    Contents(all) == blocks + Contents(rest) && VisibleText(all) == visible + VisibleText(rest)
  }

  lemma ShownAdvances(all: seq<Piece>, text: string, rest: seq<Piece>, blocks: seq<string>, visible: string)
    requires Progress(all, [Visible(text)] + rest, blocks, visible)
    ensures Progress(all, rest, blocks, visible + text)
  {
    assert ([Visible(text)] + rest)[1..] == rest;
    assert visible + (text + VisibleText(rest)) == visible + text + VisibleText(rest);
    assert [] + Contents(rest) == Contents(rest);
  }

  lemma ContentAdvances(all: seq<Piece>, content: string, rest: seq<Piece>, blocks: seq<string>, visible: string)
    requires Progress(all, [Block(content)] + rest, blocks, visible)
    ensures Progress(all, rest, blocks + [Trim(content)], visible)
  {
    assert ([Block(content)] + rest)[1..] == rest;
    assert blocks + ([Trim(content)] + Contents(rest)) == blocks + [Trim(content)] + Contents(rest);
    assert "" + VisibleText(rest) == VisibleText(rest);
  }

  method ExtractStructuredBlocks(rawText: string, p: Protocol) returns (r: Extracted)
    ensures r == Extract(rawText, Open(p), Close(p))
  {
    var open, close := Open(p), Close(p);
    r := ExtractBetween(rawText, open, close);
  }

  /** What one turn of the cursor loop cuts off. Without a further complete block the cursor goes
      to the end. */
  method CutNext(rawText: string, cursor: nat, open: string, close: string) returns (cut: seq<Piece>, next: nat)
    requires open != "" && cursor < |rawText|
    ensures Cut(cut, next) == NextCut(rawText, cursor, open, close)
  {
    var start := IndexOf(rawText, open, cursor);
    if start < 0 {
      return [Visible(rawText[cursor..])], |rawText|;
    }
    var contentStart := start + |open|;
    var end := IndexOf(rawText, close, contentStart);
    if end < 0 {
      return [Visible(rawText[cursor..start]), Visible(rawText[start..])], |rawText|;
    }
    return [Visible(rawText[cursor..start]), Block(rawText[contentStart..end])], end + |close|;
  }

  /** Adds a piece to its list. */
  method Push(blocks: seq<string>, visible: string, piece: Piece, ghost all: seq<Piece>, ghost rest: seq<Piece>)
    returns (newBlocks: seq<string>, newVisible: string)
    requires Progress(all, [piece] + rest, blocks, visible)
    ensures Progress(all, rest, newBlocks, newVisible)
  {
    match piece {
      case Visible(text) =>
        ShownAdvances(all, text, rest, blocks, visible);
        return blocks, visible + text;
      case Block(content) =>
        ContentAdvances(all, content, rest, blocks, visible);
        return blocks + [Trim(content)], visible;
    }
  }

  /** Adds the pieces of one turn of the loop, in order. */
  method PushAll(blocks: seq<string>, visible: string, cut: seq<Piece>, ghost all: seq<Piece>, ghost rest: seq<Piece>)
    returns (newBlocks: seq<string>, newVisible: string)
    requires Progress(all, cut + rest, blocks, visible)
    ensures Progress(all, rest, newBlocks, newVisible)
  {
    newBlocks, newVisible := blocks, visible;
    for i := 0 to |cut|
      invariant Progress(all, cut[i..] + rest, newBlocks, newVisible)
    {
      assert cut[i..] + rest == [cut[i]] + (cut[i + 1..] + rest);
      newBlocks, newVisible := Push(newBlocks, newVisible, cut[i], all, cut[i + 1..] + rest);
    }
    assert cut[|cut|..] + rest == rest;
  }

  method ExtractBetween(rawText: string, open: string, close: string) returns (r: Extracted)
    requires open != ""
    ensures r == Extract(rawText, open, close)
  {
    var blocks, visible, cursor := [], "", 0;
    ghost var all := Pieces(rawText, 0, open, close);
    while cursor < |rawText|
      invariant cursor <= |rawText| && Progress(all, Pieces(rawText, cursor, open, close), blocks, visible)
    {
      var cut, next := CutNext(rawText, cursor, open, close);
      blocks, visible := PushAll(blocks, visible, cut, all, Pieces(rawText, next, open, close));
      cursor := next;
    }
    AllDone(all, blocks, visible);
    r := Extracted(blocks, Trim(visible));
  }

  lemma AllDone(all: seq<Piece>, blocks: seq<string>, visible: string)
    requires Progress(all, [], blocks, visible)
    ensures Contents(all) == blocks && VisibleText(all) == visible
  {
  }

  // ----- nothing of the text is lost -----

  lemma {:induction false} RebuildAppend(a: seq<Piece>, b: seq<Piece>, open: string, close: string)
    ensures Rebuild(a + b, open, close) == Rebuild(a, open, close) + Rebuild(b, open, close)
  {
    if a == [] {
      assert a + b == b;
    } else {
      RebuildAppend(a[1..], b, open, close);
      RebuildOneMore(a[0], a[1..], b, open, close);
      HeadAndRest(a, b);
    }
  }

  lemma HeadAndRest(a: seq<Piece>, b: seq<Piece>)
    requires a != []
    ensures [a[0]] + a[1..] == a && [a[0]] + (a[1..] + b) == a + b
  {
  }

  lemma RebuildOneMore(piece: Piece, a: seq<Piece>, b: seq<Piece>, open: string, close: string)
    requires Rebuild(a + b, open, close) == Rebuild(a, open, close) + Rebuild(b, open, close)
    ensures Rebuild([piece] + (a + b), open, close) == Rebuild([piece] + a, open, close) + Rebuild(b, open, close)
  {
    RebuildFirst(piece, a, open, close);
    RebuildFirst(piece, a + b, open, close);
    Associates(Source(piece, open, close), Rebuild(a, open, close), Rebuild(b, open, close));
  }

  lemma RebuildFirst(piece: Piece, rest: seq<Piece>, open: string, close: string)
    ensures Rebuild([piece] + rest, open, close) == Source(piece, open, close) + Rebuild(rest, open, close)
  {
    assert ([piece] + rest)[1..] == rest;
  }

  lemma RebuildTwo(a: Piece, b: Piece, open: string, close: string)
    ensures Rebuild([a], open, close) == Source(a, open, close)
    ensures Rebuild([a, b], open, close) == Source(a, open, close) + Source(b, open, close)
  {
    assert [a][1..] == [] && [a, b][1..] == [b] && [b][1..] == [];
  }

  lemma BlockSpan(raw: string, cursor: nat, start: nat, end: nat, open: string, close: string)
    requires cursor <= start && start + |open| <= end
    requires Occurs(raw, open, start) && Occurs(raw, close, end)
    ensures raw[cursor..start] + (open + raw[start + |open|..end] + close) == raw[cursor..end + |close|]
  {
    var contentStart, next := start + |open|, end + |close|;
    assert raw[start..contentStart] == open && raw[end..next] == close;
    assert raw[start..end] == open + raw[contentStart..end];
    assert raw[start..next] == raw[start..end] + close;
    assert raw[cursor..next] == raw[cursor..start] + raw[start..next];
  }

  lemma BlockCutRebuilds(raw: string, cursor: nat, start: nat, end: nat, open: string, close: string)
    requires cursor <= start && start + |open| <= end
    requires Occurs(raw, open, start) && Occurs(raw, close, end)
    ensures var cut := BlockCut(raw, cursor, start, end, open, close);
            Rebuild(cut.pieces, open, close) == raw[cursor..cut.next]
  {
    var shown, content := raw[cursor..start], raw[start + |open|..end];
    RebuildTwo(Visible(shown), Block(content), open, close);
    BlockSpan(raw, cursor, start, end, open, close);
  }

  lemma TextCutRebuilds(raw: string, cursor: nat, start: nat, open: string, close: string)
    requires cursor <= start <= |raw|
    ensures Rebuild([Visible(raw[cursor..])], open, close) == raw[cursor..]
    ensures Rebuild([Visible(raw[cursor..start]), Visible(raw[start..])], open, close) == raw[cursor..]
  {
    TextsRebuild(raw[cursor..], "", open, close);
    TextsRebuild(raw[cursor..start], raw[start..], open, close);
    CutInTwo(raw, cursor, start);
  }

  lemma TextsRebuild(a: string, b: string, open: string, close: string)
    ensures Rebuild([Visible(a)], open, close) == a
    ensures Rebuild([Visible(a), Visible(b)], open, close) == a + b
  {
    RebuildTwo(Visible(a), Visible(b), open, close);
  }

  lemma CutInTwo(raw: string, from: nat, middle: nat)
    requires from <= middle <= |raw|
    ensures raw[from..] == raw[from..middle] + raw[middle..]
  {
  }

  lemma CutRebuilds(raw: string, cursor: nat, open: string, close: string, place: Place)
    requires open != "" && cursor < |raw| && Fits(place, raw, cursor, open, close)
    ensures var cut := CutAt(raw, cursor, open, close, place);
            Rebuild(cut.pieces, open, close) == raw[cursor..cut.next]
  {
    if place.Complete? {
      BlockCutRebuilds(raw, cursor, place.start, place.end, open, close);
    } else {
      OpenCutRebuilds(raw, cursor, open, close, place);
    }
  }

  lemma OpenCutRebuilds(raw: string, cursor: nat, open: string, close: string, place: Place)
    requires open != "" && cursor < |raw| && Fits(place, raw, cursor, open, close) && !place.Complete?
    ensures var cut := CutAt(raw, cursor, open, close, place);
            Rebuild(cut.pieces, open, close) == raw[cursor..cut.next]
  {
    assert raw[cursor..|raw|] == raw[cursor..];
    match place
    case NoOpen => TextsRebuild(raw[cursor..], "", open, close);
    case NoClose(start) => TextCutRebuilds(raw, cursor, start, open, close);
  }

  /** Every text is its visible pieces and its blocks with their tags, in order. */
  lemma {:induction false} PiecesRebuild(raw: string, cursor: nat, open: string, close: string)
    requires open != "" && cursor <= |raw|
    ensures Rebuild(Pieces(raw, cursor, open, close), open, close) == raw[cursor..]
    decreases |raw| - cursor
  {
    if cursor < |raw| {
      var cut := NextCut(raw, cursor, open, close);
      LocateFits(raw, cursor, open, close);
      CutRebuilds(raw, cursor, open, close, Locate(raw, cursor, open, close));
      PiecesRebuild(raw, cut.next, open, close);
      RebuildAppend(cut.pieces, Pieces(raw, cut.next, open, close), open, close);
      CutInTwo(raw, cursor, cut.next);
    }
  }

  // ----- what is rendered is found again -----

  predicate Contains(text: string, pattern: string) {
    exists i: nat | i <= |text| :: Occurs(text, pattern, i)
  }

  /** Texts with rendered payloads between them. */
  function Compose(texts: seq<string>, payloads: seq<string>, p: Protocol): string
    requires |texts| == |payloads| + 1
    decreases |payloads|
  {
    if payloads == [] then texts[0]
    else texts[0] + (RenderStructuredBlock(p, payloads[0]) + Compose(texts[1..], payloads[1..], p))
  }

  function Concat(texts: seq<string>): string {
    if texts == [] then "" else texts[0] + Concat(texts[1..])
  }

  function Trimmed(payloads: seq<string>): (r: seq<string>)
    ensures |r| == |payloads| && forall i | 0 <= i < |payloads| :: r[i] == Trim(payloads[i])
  {
    if payloads == [] then [] else [Trim(payloads[0])] + Trimmed(payloads[1..])
  }

  /** The first character of the pattern is nowhere else in it. */
  predicate StartsOnce(pattern: string) {
    pattern != "" && forall k | 1 <= k < |pattern| :: pattern[k] != pattern[0]
  }

  lemma TagIsPlain(p: Protocol)
    ensures Tag(p) != "" && forall k | 0 <= k < |Tag(p)| :: Tag(p)[k] != '<' && Tag(p)[k] != '\n'
  {
  }

  lemma TagsStartOnce(p: Protocol)
    ensures StartsOnce(Open(p)) && StartsOnce(Close(p)) && '\n' !in Close(p)
  {
    TagIsPlain(p);
    PlainStartsOnce(Tag(p));
  }

  lemma PlainStartsOnce(tag: string)
    requires tag != "" && forall k | 0 <= k < |tag| :: tag[k] != '<' && tag[k] != '\n'
    ensures StartsOnce("<" + tag + ">") && StartsOnce("</" + tag + ">") && '\n' !in "</" + tag + ">"
  {
  }

  /** A pattern that starts only once is found behind a text that does not contain it. */
  lemma FoundBehind(raw: string, pattern: string, from: nat, at: nat)
    requires StartsOnce(pattern) && from <= at && Occurs(raw, pattern, at)
    requires !Contains(raw[from..at], pattern)
    ensures IndexOf(raw, pattern, from) == at
  {
    IndexOfIsFirst(raw, pattern, from);
    assert raw[at] == raw[at..at + |pattern|][0] == pattern[0];
    forall i: nat | from <= i < at ensures !Occurs(raw, pattern, i) {
      if i + |pattern| <= at {
        OccursInside(raw, pattern, from, at, i);
      } else if i + |pattern| <= |raw| {
        assert raw[i..i + |pattern|][at - i] == raw[at];
      }
    }
  }

  lemma OccursInside(raw: string, pattern: string, from: nat, to: nat, i: nat)
    requires from <= i && i + |pattern| <= to <= |raw|
    ensures Occurs(raw, pattern, i) <==> Occurs(raw[from..to], pattern, i - from)
  {
    var part, n := raw[from..to], |pattern|;
    var j := i - from;
    var here, there := raw[i..i + n], part[j..j + n];
    forall k | 0 <= k < n ensures there[k] == here[k] {
      assert there[k] == part[j + k] == raw[from + (j + k)] == raw[i + k];
    }
    assert there == here;
  }

  lemma NotFound(raw: string, pattern: string, from: nat)
    requires from <= |raw| && !Contains(raw[from..], pattern)
    ensures IndexOf(raw, pattern, from) < 0
  {
    IndexOfIsFirst(raw, pattern, from);
    assert raw[from..|raw|] == raw[from..];
    forall i: nat | from <= i ensures !Occurs(raw, pattern, i) {
      if i + |pattern| <= |raw| { OccursInside(raw, pattern, from, |raw|, i); }
    }
  }

  lemma MarginAddsNone(body: string, pattern: string)
    requires pattern != "" && '\n' !in pattern && !Contains(body, pattern)
    ensures !Contains("\n" + body + "\n", pattern)
  {
    var text := "\n" + body + "\n";
    forall i: nat | i <= |text| ensures !Occurs(text, pattern, i) {
      if i + |pattern| <= |text| {
        var part := text[i..i + |pattern|];
        assert part[0] == text[i] && part[|pattern| - 1] == text[i + |pattern| - 1];
        if 1 <= i && i + |pattern| <= |body| + 1 {
          assert part == body[i - 1..i - 1 + |pattern|];
          assert !Occurs(body, pattern, i - 1);
        }
      }
    }
  }

  /** A text and a rendered payload at the cursor are cut off as they were put there. */
  lemma CutsRendered(raw: string, cursor: nat, text: string, body: string, rest: string, p: Protocol)
    requires cursor <= |raw| && raw[cursor..] == text + (RenderStructuredBlock(p, body) + rest)
    requires !Contains(text, Open(p)) && !Contains(body, Close(p))
    ensures cursor < |raw| && var next := cursor + |text| + |RenderStructuredBlock(p, body)|;
            next <= |raw| && raw[next..] == rest &&
            NextCut(raw, cursor, Open(p), Close(p)) == Cut([Visible(text), Block("\n" + body + "\n")], next)
  {
    TagsStartOnce(p);
    RenderedAt(raw, cursor, text, body, rest, Open(p), Close(p));
  }

  lemma RenderedAt(raw: string, cursor: nat, text: string, body: string, rest: string, open: string, close: string)
    requires cursor <= |raw| && raw[cursor..] == text + ((open + "\n" + body + "\n" + close) + rest)
    requires !Contains(text, open) && !Contains(body, close)
    requires StartsOnce(open) && StartsOnce(close) && '\n' !in close
    ensures cursor < |raw| && var next := cursor + |text| + |open + "\n" + body + "\n" + close|;
            next <= |raw| && raw[next..] == rest &&
            NextCut(raw, cursor, open, close) == Cut([Visible(text), Block("\n" + body + "\n")], next)
  {
    var content := "\n" + body + "\n";
    var start := cursor + |text|;
    var contentStart := start + |open|;
    var end := contentStart + |content|;
    Associates(open, "\n", body);
    Associates(open, "\n" + body, "\n");
    Layout(raw, cursor, text, open, content, close, rest);
    MarginAddsNone(body, close);
    CutBetween(raw, cursor, start, end, open, close);
  }

  lemma CutBetween(raw: string, cursor: nat, start: nat, end: nat, open: string, close: string)
    requires cursor <= start && start + |open| <= end && Occurs(raw, open, start) && Occurs(raw, close, end)
    requires StartsOnce(open) && StartsOnce(close)
    requires !Contains(raw[cursor..start], open) && !Contains(raw[start + |open|..end], close)
    ensures NextCut(raw, cursor, open, close) ==
            Cut([Visible(raw[cursor..start]), Block(raw[start + |open|..end])], end + |close|)
  {
    FoundBehind(raw, open, cursor, start);
    FoundBehind(raw, close, start + |open|, end);
    assert Locate(raw, cursor, open, close) == Complete(start, end);
  }

  /** Where the parts of a concatenation lie. */
  lemma Layout(raw: string, cursor: nat, a: string, b: string, c: string, d: string, rest: string)
    requires cursor <= |raw| && raw[cursor..] == a + ((b + c + d) + rest)
    ensures var i := cursor + |a|; var j := i + |b|; var k := j + |c|; var l := k + |d|;
            l <= |raw| && raw[cursor..i] == a && raw[i..j] == b && raw[j..k] == c && raw[k..l] == d && raw[l..] == rest
  {
    var i := cursor + |a|;
    var j := i + |b|;
    var k := j + |c|;
    var l := k + |d|;
    var tail := raw[cursor..];
    Parts(tail, a, b, c, d, rest);
    SliceOfTail(raw, cursor, cursor, i);
    SliceOfTail(raw, cursor, i, j);
    SliceOfTail(raw, cursor, j, k);
    SliceOfTail(raw, cursor, k, l);
    assert raw[l..] == tail[l - cursor..];
  }

  lemma SliceOfTail(raw: string, cursor: nat, from: nat, to: nat)
    requires cursor <= from <= to <= |raw|
    ensures raw[from..to] == raw[cursor..][from - cursor..to - cursor]
  {
  }

  lemma Parts(tail: string, a: string, b: string, c: string, d: string, rest: string)
    requires tail == a + ((b + c + d) + rest)
    ensures var j := |a| + |b|; var k := j + |c|; var l := k + |d|;
            && |tail| == l + |rest|
            && tail[..|a|] == a && tail[|a|..j] == b && tail[j..k] == c && tail[k..l] == d && tail[l..] == rest
  {
  }

  lemma {:induction false} ComposedPieces(raw: string, cursor: nat, texts: seq<string>, payloads: seq<string>,
                                          p: Protocol)
    requires |texts| == |payloads| + 1 && cursor <= |raw| && raw[cursor..] == Compose(texts, payloads, p)
    requires forall t | t in texts :: !Contains(t, Open(p))
    requires forall b | b in payloads :: !Contains(b, Close(p))
    ensures Contents(Pieces(raw, cursor, Open(p), Close(p))) == Trimmed(payloads)
    ensures VisibleText(Pieces(raw, cursor, Open(p), Close(p))) == Concat(texts)
    decreases |payloads|
  {
    assert texts == [texts[0]] + texts[1..];
    if payloads == [] {
      LastPiece(raw, cursor, Open(p), Close(p));
      assert Concat(texts[1..]) == "";
    } else {
      var rest := Compose(texts[1..], payloads[1..], p);
      var next := RenderedPieces(raw, cursor, texts[0], payloads[0], rest, p);
      ComposedPieces(raw, next, texts[1..], payloads[1..], p);
    }
  }

  lemma RenderedPieces(raw: string, cursor: nat, text: string, body: string, rest: string, p: Protocol)
    returns (next: nat)
    requires cursor <= |raw| && raw[cursor..] == text + (RenderStructuredBlock(p, body) + rest)
    requires !Contains(text, Open(p)) && !Contains(body, Close(p))
    ensures cursor < next <= |raw| && raw[next..] == rest
    ensures Contents(Pieces(raw, cursor, Open(p), Close(p))) ==
            [Trim(body)] + Contents(Pieces(raw, next, Open(p), Close(p)))
    ensures VisibleText(Pieces(raw, cursor, Open(p), Close(p))) ==
            text + VisibleText(Pieces(raw, next, Open(p), Close(p)))
  {
    CutsRendered(raw, cursor, text, body, rest, p);
    next := cursor + |text| + |RenderStructuredBlock(p, body)|;
    CutAddsBoth(raw, cursor, next, Open(p), Close(p), text, body);
  }

  lemma CutAddsBoth(raw: string, cursor: nat, next: nat, open: string, close: string, text: string, body: string)
    requires open != "" && cursor < |raw|
    requires NextCut(raw, cursor, open, close) == Cut([Visible(text), Block("\n" + body + "\n")], next)
    ensures cursor < next <= |raw|
    ensures Contents(Pieces(raw, cursor, open, close)) == [Trim(body)] + Contents(Pieces(raw, next, open, close))
    ensures VisibleText(Pieces(raw, cursor, open, close)) == text + VisibleText(Pieces(raw, next, open, close))
  {
    TextThenBlock(text, body, Pieces(raw, next, open, close));
  }

  lemma LastPiece(raw: string, cursor: nat, open: string, close: string)
    requires open != "" && cursor <= |raw| && !Contains(raw[cursor..], open)
    ensures Contents(Pieces(raw, cursor, open, close)) == [] &&
            VisibleText(Pieces(raw, cursor, open, close)) == raw[cursor..]
  {
    if cursor < |raw| {
      NotFound(raw, open, cursor);
      assert Pieces(raw, cursor, open, close) == [Visible(raw[cursor..])] + [];
      assert [Visible(raw[cursor..])][1..] == [];
    }
  }

  lemma TextThenBlock(text: string, body: string, rest: seq<Piece>)
    ensures Contents([Visible(text), Block("\n" + body + "\n")] + rest) == [Trim(body)] + Contents(rest)
    ensures VisibleText([Visible(text), Block("\n" + body + "\n")] + rest) == text + VisibleText(rest)
  {
    var shown, block := Visible(text), Block("\n" + body + "\n");
    TrimIgnoresMargin(body, '\n', '\n');
    assert ([shown, block] + rest)[1..] == [block] + rest && ([block] + rest)[1..] == rest;
  }

  /** Rendered blocks are found again, whatever stands between them: all payloads come back trimmed
      and in order, and the texts between them come back as one. Only the opening tag in a text and
      the closing tag in a payload are in the way. */
  lemma RoundTrip(texts: seq<string>, payloads: seq<string>, p: Protocol)
    requires |texts| == |payloads| + 1
    requires forall t | t in texts :: !Contains(t, Open(p))
    requires forall b | b in payloads :: !Contains(b, Close(p))
    ensures Extract(Compose(texts, payloads, p), Open(p), Close(p)) == Extracted(Trimmed(payloads), Trim(Concat(texts)))
  {
    var raw := Compose(texts, payloads, p);
    assert raw[0..] == raw;
    ComposedPieces(raw, 0, texts, payloads, p);
  }
}
