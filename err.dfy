/** Parse errors and the helpers that locate them in the source text
    (lang/src/err.rs). */
module Err {
  import opened Base

  /** The parser's error messages, one constructor per message of the
      source; `Text` gives each one's wording, spelling included. */
  datatype Message =
    | MissedOpenSq
    | BadSymbol
    | InputEnded
    | NeedBarItem
    | MissedDash
    | UnknownName
    | UnknownSymbol
    | NeedEq
    | NeedSlotNumber
    | BadSlotNumber
    | NeedCloseAng
    | NeedSlotEq
    | SlotNeedsBar
    | InputRanOut
    | NeedValue
    | NeedCloseCrl
    | NeedSeqValue
    | InputRanOutInBars
    | NeedBars
    | LostOpenParen
    | NoteOutOfRange
    | BadNoteNumber
    | NeedNote
    | VelocityOutOfRange
    | BadVelocityNumber
    | VelocityMissing
    | NeedVelocity
    | MissedCloseParen
    | NeedBpm
    | BadBpm
    | NeedSlot
    | BadSlot
    | NeedDivision
    | BadDivision
    | NeedSyncDivision
    | BadSyncDivision
    | NeedOutput
    | BadOutput
    | NeedChannel
    | BadChannel
    | ChannelOutOfRange
    | NeedOutNumber
    | BadOutNumber
    | NeedLaunchpad
    | BadLaunchpad
    | NeedPath
    | CantOpenFile
    /** No counterpart in the source: the include depth this model bounds
        recursion by ran out. */
    | IncludeTooDeep

  function Text(m: Message): string
  {
    match m
    case MissedOpenSq => "somehow missed the '['"
    case BadSymbol => "we couldn't figure this symbol out"
    case InputEnded => "woah, the input ended"
    case NeedBarItem => "we are working on a bar, meaning we need a name or a - or ]"
    case MissedDash => "somehow missed the first '-'"
    case UnknownName => "we couldn't find a value with this name"
    case UnknownSymbol => "unknown symbol"
    case NeedEq => "we need an '=' to assign a name"
    case NeedSlotNumber => "we need a number for this slot"
    case BadSlotNumber => "coldn't parse this slot number"
    case NeedCloseAng => "we need a closing angle for this slot number"
    case NeedSlotEq => "we are looking for an equals sign to assign a slot"
    case SlotNeedsBar => "you can only assign bars or sequences to a slot"
    case InputRanOut => "woah, the input ran out"
    case NeedValue => "we are looking for a value, like a trigger, a bar or a sequence"
    case NeedCloseCrl => "we need a '}' to finish the sequence"
    case NeedSeqValue => "we are looking for a value, like a trigger or bar, or another sequence"
    case InputRanOutInBars => "woah, teh input ran out"
    case NeedBars => "we are looking for some bars!"
    case LostOpenParen => "somehow we lost the '('"
    case NoteOutOfRange => "this note number is out of range, should be 0-127"
    case BadNoteNumber => "couldn't parse this note number"
    case NeedNote => "we need some numbers or a note like C#4 or something"
    case VelocityOutOfRange => "this velocity is out of range, should be 0-127"
    case BadVelocityNumber => "coudln't parse this velocity"
    case VelocityMissing => "couldn't parse this velocity"
    case NeedVelocity => "we are looking for a trigger velocity, like a number between 0-127"
    case MissedCloseParen => "somehow missed the ')' in a trigger"
    case NeedBpm => "expected a bpm value, like 120"
    case BadBpm => "couldn't parse the bpm number"
    case NeedSlot => "we need a slot number"
    case BadSlot => "couldn't parse this slot number"
    case NeedDivision => "we need a time division"
    case BadDivision => "couldn't parse this time division"
    case NeedSyncDivision => "we need a sync division"
    case BadSyncDivision => "couldn't parse the sync division"
    case NeedOutput => "we need an output number"
    case BadOutput => "couldn't parse this output num"
    case NeedChannel => "we need a channel number"
    case BadChannel => "couldn't parse this channel num"
    case ChannelOutOfRange => "channel is out of range, must be 0 - 15"
    case NeedOutNumber => "we need an out_number"
    case BadOutNumber => "couldn't parse the out numver"
    case NeedLaunchpad => "we need a launchpad number"
    case BadLaunchpad => "couldn't parse this launchpad number"
    case NeedPath => "we need a path to the file"
    case CantOpenFile => "couldn't open file"
    case IncludeTooDeep => "include depth exhausted"
  }

  /** The error the statement parser propagates: a message, or a message from
      an included file together with that file's text and the span of its
      offending token. */
  datatype ParseError =
    | Msg(msg: Message)
    | SubFile(msg: Message, subText: string, start: nat, end: nat)

  /** `From<&'static str>`: a bare message. */
  function FromMsg(m: Message): (r: ParseError)
    ensures r.Msg? && r.msg == m
  {
    Msg(m)
  }

  /** The error `parse` reports: the whole source with the span of the token
      where parsing stopped, or the path of the failing include with that
      file's text and span. */
  datatype Error =
    | Root(src: string, start: nat, end: nat, msg: Message)
    | Sub(path: string, subText: string, start: nat, end: nat, msg: Message)
  {
    /** The text the span refers to. */
    function Text(): string
    {
      match this
      case Root(src, _, _, _) => src
      case Sub(_, sub, _, _, _) => sub
    }

    /** The span lies in the text it refers to (the slicing below would
        panic otherwise). */
    predicate Located()
    {
      start <= end <= |Text()|
    }

    function FilePath(): (r: Option<string>)
      ensures r.Some? <==> this.Sub?
      ensures this.Sub? ==> r.value == path
    {
      match this
      case Sub(p, _, _, _, _) => Some(p)
      case _ => None
    }

    function Msg(): (r: Message)
      ensures this.Root? ==> r == this.msg
      ensures this.Sub? ==> r == this.msg
    {
      match this
      case Root(_, _, _, m) => m
      case Sub(_, _, _, _, m) => m
    }

    /** The number of lines before the span starts. */
    function LineNum(): (r: nat)
      requires Located()
      ensures r == NewlineCount(Text()[..start])
                   + (if start > 0 && Text()[start - 1] != '\n' then 1 else 0)
    {
      var s := Text()[..start];
      LinesCount(s);
      assert start > 0 ==> s[|s| - 1] == Text()[start - 1];
      |Lines(s)|
    }

    /** The start of the line the span starts on, up to the span. */
    function PreTxt(): (r: string)
      requires Located()
      ensures |r| <= start && r == Text()[start - |r|..start]
      ensures '\n' !in r
      ensures |r| == start || Text()[start - |r| - 1] == '\n'
    {
      var src := Text();
      var lnStart := match RFind(src[..start], '\n') case Some(n) => n + 1 case None => 0;
      src[lnStart..start]
    }

    /** The text under the span. */
    function Txt(): (r: string)
      requires Located()
      ensures |r| == end - start
      ensures forall i :: 0 <= i < |r| ==> r[i] == Text()[start + i]
    {
      Text()[start..end]
    }

    /** The rest of the line the span ends on, from the span's end. */
    function PostTxt(): (r: string)
      requires Located()
      ensures end + |r| <= |Text()| && r == Text()[end..end + |r|]
      ensures '\n' !in r
      ensures end + |r| == |Text()| || Text()[end + |r|] == '\n'
    {
      var src := Text();
      var lnEnd := match Find(src[end..], '\n') case Some(n) => n + end case None => |src|;
      src[end..lnEnd]
    }
  }

  /** The three pieces an error display prints side by side are one
      contiguous stretch of the text, from the start of a line to the end of
      one. */
  lemma ContextIsContiguous(e: Error)
    requires e.Located()
    ensures var a := e.start - |e.PreTxt()|;
            var b := e.end + |e.PostTxt()|;
            && a <= b <= |e.Text()|
            && e.PreTxt() + e.Txt() + e.PostTxt() == e.Text()[a..b]
            && (a == 0 || e.Text()[a - 1] == '\n')
            && (b == |e.Text()| || e.Text()[b] == '\n')
  {
    var t := e.Text();
    var pre, mid, post := e.PreTxt(), e.Txt(), e.PostTxt();
    var a := e.start - |pre|;
    var b := e.end + |post|;
    SlicesJoin(t, a, e.start, e.end, b);
  }

  lemma SlicesJoin(t: string, a: nat, m: nat, n: nat, b: nat)
    requires a <= m <= n <= b <= |t|
    ensures t[a..b] == t[a..m] + t[m..n] + t[n..b]
  {
  }

  /** The first index of `c` in `s`. */
  function Find(s: string, c: char): (r: Option<nat>)
    ensures r.Some? ==> r.value < |s| && s[r.value] == c && c !in s[..r.value]
    ensures r.None? ==> c !in s
  {
    if |s| == 0 then None
    else if s[0] == c then Some(0)
    else match Find(s[1..], c)
      case Some(n) => Some(n + 1)
      case None => None
  }

  /** The last index of `c` in `s`. */
  function RFind(s: string, c: char): (r: Option<nat>)
    ensures r.Some? ==> r.value < |s| && s[r.value] == c && c !in s[r.value + 1..]
    ensures r.None? ==> c !in s
  {
    if |s| == 0 then None
    else if s[|s| - 1] == c then Some(|s| - 1)
    else
      var r := RFind(s[..|s| - 1], c);
      assert r.Some? ==> s[r.value + 1..] == s[..|s| - 1][r.value + 1..] + [s[|s| - 1]];
      assert r.None? ==> s == s[..|s| - 1] + [s[|s| - 1]];
      r
  }

  function NewlineCount(s: string): nat
  {
    if |s| == 0 then 0 else NewlineCount(s[..|s| - 1]) + (if s[|s| - 1] == '\n' then 1 else 0)
  }

  /** A trailing carriage return removed, as a "\r\n" line ending is. */
  function StripCr(s: string): string
  {
    if |s| > 0 && s[|s| - 1] == '\r' then s[..|s| - 1] else s
  }

  /** `str::lines`: the pieces between line feeds, each without its "\n" or
      "\r\n" ending; a final line feed does not start an extra empty line. */
  function Lines(s: string): seq<string>
    decreases |s|
  {
    if |s| == 0 then []
    else match Find(s, '\n')
      case None => [s]
      case Some(i) => [StripCr(s[..i])] + Lines(s[i + 1..])
  }

  lemma NewlineCountAppend(a: string, b: string)
    ensures NewlineCount(a + b) == NewlineCount(a) + NewlineCount(b)
    decreases |b|
  {
    if |b| > 0 {
      assert (a + b)[..|a + b| - 1] == a + b[..|b| - 1];
      assert (a + b)[|a + b| - 1] == b[|b| - 1];
      NewlineCountAppend(a, b[..|b| - 1]);
    } else {
      assert a + b == a;
    }
  }

  lemma NoNewlineCount(s: string)
    requires '\n' !in s
    ensures NewlineCount(s) == 0
  {
    if |s| > 0 {
      assert '\n' !in s[..|s| - 1];
      NoNewlineCount(s[..|s| - 1]);
    }
  }

  /** Splitting at the first line feed: one line feed, then the rest. */
  lemma FirstLineCount(s: string, i: nat)
    requires i < |s| && s[i] == '\n' && '\n' !in s[..i]
    ensures NewlineCount(s) == 1 + NewlineCount(s[i + 1..])
  {
    assert s == s[..i] + [s[i]] + s[i + 1..];
    NewlineCountAppend(s[..i] + [s[i]], s[i + 1..]);
    NewlineCountAppend(s[..i], [s[i]]);
    NoNewlineCount(s[..i]);
    assert [s[i]][..0] == [];
  }

  /** `lines().count()` is the number of line feeds, plus one for a
      non-empty last line that has none. */
  lemma {:induction false} LinesCount(s: string)
    ensures |Lines(s)| == NewlineCount(s) + (if |s| > 0 && s[|s| - 1] != '\n' then 1 else 0)
    decreases |s|
  {
    if |s| > 0 {
      match Find(s, '\n')
      case None =>
        NoNewlineCount(s);
      case Some(i) =>
        var rest := s[i + 1..];
        LinesCount(rest);
        FirstLineCount(s, i);
        assert |rest| > 0 ==> s[|s| - 1] == rest[|rest| - 1];
    }
  }
}
