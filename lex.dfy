/** The token stream of the DSL and the one-token-lookahead cursor over it
    (lang/src/lex.rs).

    The regular-expression tokenizer itself is an input here: a `Source`
    carries the text together with the sequence of (token, byte span) pairs
    that the tokenizer produces for it, plus the span it reports once it is
    exhausted. A failed match appears in that sequence as the token `Err`;
    the tokenizer never produces `Eof`, which is what the cursor reports past
    the end. */
module Lex {
  import opened Base
  import opened Text

  datatype Token =
    // keywords
    | Bpm | Div | Sync | Play | Stop | ListOuts | OpenOut | SetOut | FindLps | OpenLp | DoFile
    // punctuation
    | OpenParen | CloseParen | OpenSq | CloseSq | OpenCrl | CloseCrl | OpenAng | CloseAng
    | Eq | Dash | Eol
    // classes of words
    | Note | Digits | Sym
    // never produced by the tokenizer itself
    | Err | Eof

  /** Why `expect` failed. */
  datatype ExpectErr = ExpectEof | LexErr | WrongToken(found: Token)

  /** A half-open byte range `start..end` of the source text. */
  datatype Range = Range(start: nat, end: nat)

  /** The tokens the tokenizer can produce: all but `Eof`. */
  type LexToken = t: Token | t != Eof witness Err

  datatype Lexeme = Lexeme(tok: LexToken, span: Range)

  /** A text and what the tokenizer makes of it. */
  datatype Source = Source(text: string, lexemes: seq<Lexeme>, endSpan: Range)

  predicate SpanIn(sp: Range, text: string)
  {
    sp.start <= sp.end <= |text|
  }

  /** The shape `[a-gA-G][_#b][0-8]` of a pitch-name token. */
  predicate NoteShaped(w: string)
  {
    && |w| == 3
    && (('a' <= w[0] <= 'g') || ('A' <= w[0] <= 'G'))
    && (w[1] == '_' || w[1] == '#' || w[1] == 'b')
    && '0' <= w[2] <= '8'
  }

  /** What the tokenizer guarantees about the lexeme at index `i`: its span
      lies in the text before the final span, a `Note` is pitch-shaped and a
      `Digits` token is a non-empty run of digits. */
  ghost predicate LexemeOk(s: Source, i: nat)
    requires i < |s.lexemes|
  {
    var sp := s.lexemes[i].span;
    && SpanIn(sp, s.text)
    && sp.end <= s.endSpan.start
    && (s.lexemes[i].tok == Note ==> NoteShaped(s.text[sp.start..sp.end]))
    && (s.lexemes[i].tok == Digits ==>
          var w := s.text[sp.start..sp.end];
          |w| > 0 && AllDigits(w))
  }

  /** The lexeme at `i` ends before the one at `j` starts. */
  ghost predicate Precedes(s: Source, i: nat, j: nat)
    requires i < |s.lexemes| && j < |s.lexemes|
  {
    s.lexemes[i].span.end <= s.lexemes[j].span.start
  }

  /** What the tokenizer guarantees about its output: every lexeme is as
      `LexemeOk` says, and spans follow each other. */
  ghost predicate WellFormed(s: Source)
  {
    && SpanIn(s.endSpan, s.text)
    && (forall i :: 0 <= i < |s.lexemes| ==> LexemeOk(s, i))
    && (forall i, j :: 0 <= i < j < |s.lexemes| ==> Precedes(s, i, j))
  }

  /** The token at index `i` of the stream; `Eof` from the end on. */
  function TokAt(s: Source, i: nat): (t: Token)
    ensures t == Eof <==> i >= |s.lexemes|
  {
    if i < |s.lexemes| then s.lexemes[i].tok else Eof
  }

  /** The span of the token at index `i`; the tokenizer's final span from
      the end on. */
  function SpanOf(s: Source, i: nat): (sp: Range)
  {
    if i < |s.lexemes| then s.lexemes[i].span else s.endSpan
  }

  /** The span the tokenizer reports after it has been asked for `n` tokens:
      the empty span at 0 before the first request. */
  function SpanAfter(s: Source, n: nat): (sp: Range)
  {
    if n == 0 then Range(0, 0) else SpanOf(s, n - 1)
  }

  /** Every span a well-formed source reports lies in its text. */
  lemma SpanOfIn(s: Source, i: nat)
    requires WellFormed(s)
    ensures SpanIn(SpanOf(s, i), s.text)
  {
    if i < |s.lexemes| {
      assert LexemeOk(s, i);
    }
  }

  lemma SpanAfterIn(s: Source, n: nat)
    requires WellFormed(s)
    ensures SpanIn(SpanAfter(s, n), s.text)
  {
    if 0 < n <= |s.lexemes| {
      assert LexemeOk(s, n - 1);
    }
  }

  /** The text of the token at index `i` (empty for a span outside the
      text, which a well-formed source does not have). */
  function TextAt(s: Source, i: nat): string
  {
    var sp := SpanOf(s, i);
    if SpanIn(sp, s.text) then s.text[sp.start..sp.end] else ""
  }

  /** The text under a span (empty for a span outside the text). */
  function SpanText(text: string, sp: Range): (w: string)
    ensures SpanIn(sp, text) ==> |w| == sp.end - sp.start
  {
    if SpanIn(sp, text) then text[sp.start..sp.end] else ""
  }

  /** The span reported once `p` tokens have been handed out covers the
      last of them. */
  lemma SpanAfterText(s: Source, p: nat)
    requires p > 0
    ensures SpanText(s.text, SpanAfter(s, p)) == TextAt(s, p - 1)
  {
  }

  /** Every `Note` token of the stream has the pitch-name shape: the one
      guarantee of the tokenizer the statement parser cannot do without
      (it treats any other text under a `Note` as unreachable). */
  ghost predicate NotesShaped(s: Source)
  {
    NotesShapedFrom(s, 0)
  }

  /** Every `Note` token from index `i` on has the pitch-name shape. */
  ghost predicate NotesShapedFrom(s: Source, i: nat)
    decreases |s.lexemes| - i
  {
    i >= |s.lexemes|
    || ((s.lexemes[i].tok == Note ==> NoteShaped(TextAt(s, i))) && NotesShapedFrom(s, i + 1))
  }

  /** A source as the tokenizer hands it over: every `Note` token has the
      pitch-name shape. */
  type Tokenized = s: Source | NotesShaped(s) witness Source("", [], Range(0, 0))

  /** The text of the `Note` token at index `j` is pitch-shaped. */
  lemma {:induction false} NoteShapedAt(s: Source, i: nat, j: nat)
    requires NotesShapedFrom(s, i) && i <= j && TokAt(s, j) == Note
    ensures NoteShaped(TextAt(s, j))
    decreases j - i
  {
    if i < j {
      NoteShapedAt(s, i + 1, j);
    }
  }

  /** The tokenizer's guarantees include the shape of every `Note`. */
  lemma WellFormedNotes(s: Source)
    requires WellFormed(s)
    ensures NotesShaped(s)
  {
    WellFormedNotesFrom(s, 0);
  }

  lemma {:induction false} WellFormedNotesFrom(s: Source, i: nat)
    requires WellFormed(s)
    ensures NotesShapedFrom(s, i)
    decreases |s.lexemes| - i
  {
    if i < |s.lexemes| {
      assert LexemeOk(s, i);
      WellFormedNotesFrom(s, i + 1);
    }
  }

  /** Spans of later tokens never start before earlier ones end. */
  lemma SpansOrdered(s: Source, i: nat, j: nat)
    requires WellFormed(s) && i < j && i < |s.lexemes|
    ensures SpanOf(s, i).end <= SpanOf(s, j).start
  {
    assert LexemeOk(s, i);
    if j < |s.lexemes| {
      assert Precedes(s, i, j);
    }
  }

  /** The outcome of `expect(tk)` when the token consumed is `t`: success on
      equality (tested first), then the lexing-error and end-of-input cases. */
  function ExpectResult(t: Token, tk: Token): (r: Result<(), ExpectErr>)
    ensures r.Ok? <==> t == tk
    ensures t != tk && t == Err ==> r == Fail(LexErr)
    ensures t != tk && t == Eof ==> r == Fail(ExpectEof)
    ensures t != tk && t != Err && t != Eof ==> r == Fail(WrongToken(t))
  {
    if t == tk then Ok(())
    else if t == Err then Fail(LexErr)
    else if t == Eof then Fail(ExpectEof)
    else Fail(WrongToken(t))
  }

  /** The cursor. The source's lexer caches the lookahead token and the
      span of the token last handed out in fields; both are fixed by the
      number of tokens handed out so far, which is all this model keeps. */
  class Lexer {
    const src: Tokenized
    var pos: nat

    /** The number of tokens handed out so far: the index of the lookahead. */
    function Pos(): nat
      reads this
    {
      pos
    }

    /** How many real tokens are left before the end. */
    ghost function Remaining(): nat
      reads this
    {
      if pos <= |src.lexemes| then |src.lexemes| - pos else 0
    }

    /** `Lexer::new`: the first token becomes the lookahead, and the span is
        the tokenizer's initial empty one. */
    constructor (s: Tokenized)
      ensures src == s && Pos() == 0
      ensures Span() == Range(0, 0)
    {
      src := s;
      pos := 0;
    }

    function Lookahead(): (t: Token)
      reads this
      ensures t == TokAt(src, Pos())
    {
      TokAt(src, pos)
    }

    /** Hands out the lookahead and pulls the following token; the span then
        belongs to the token handed out. */
    method Next() returns (t: Token)
      modifies this
      ensures Pos() == old(Pos()) + 1
      ensures t == old(Lookahead()) && t == TokAt(src, old(Pos()))
      ensures Span() == SpanOf(src, old(Pos()))
    {
      t := TokAt(src, pos);
      pos := pos + 1;
    }

    method Advance()
      modifies this
      ensures Pos() == old(Pos()) + 1
      ensures Span() == SpanOf(src, old(Pos()))
    {
      var _ := Next();
    }

    /** Consumes exactly one token and reports whether it was `tk`. */
    method Expect(tk: Token) returns (r: Result<(), ExpectErr>)
      modifies this
      ensures Pos() == old(Pos()) + 1
      ensures Span() == SpanOf(src, old(Pos()))
      ensures r == ExpectResult(TokAt(src, old(Pos())), tk)
    {
      var t := Next();
      r := ExpectResult(t, tk);
    }

    /** The span of the token last handed out. */
    function Span(): (sp: Range)
      reads this
      ensures sp == SpanAfter(src, Pos())
    {
      SpanAfter(src, pos)
    }

    function SpanStart(): nat
      reads this
    {
      Span().start
    }

    function SpanEnd(): nat
      reads this
    {
      Span().end
    }

    /** The text under the current span. The source's slicing panics on a
        span outside the text, which a well-formed source never reports
        (`SpanAfterIn`); here that text is empty. */
    function Slice(): (w: string)
      reads this
      ensures Pos() > 0 ==> w == TextAt(src, Pos() - 1)
    {
      var sp := Span();
      if SpanIn(sp, src.text) then src.text[sp.start..sp.end] else ""
    }

    function Src(): string
      reads this
    {
      src.text
    }

    /** The source with the span of the last token handed out. */
    function Done(): (r: (string, nat, nat))
      reads this
      ensures r.0 == src.text && Range(r.1, r.2) == SpanAfter(src, Pos())
    {
      var sp := Span();
      (src.text, sp.start, sp.end)
    }
  }

  /* How a maximal run of word characters is classified. */

  predicate IsWordChar(c: char)
  {
    IsDigit(c) || ('a' <= c <= 'z') || ('A' <= c <= 'Z') || c == '_'
  }

  predicate IsWord(w: string)
  {
    |w| > 0 && forall i :: 0 <= i < |w| ==> IsWordChar(w[i])
  }

  /** The spelling of each keyword token. */
  function KeywordText(t: Token): string
  {
    match t
    case Bpm => "bpm"
    case Div => "div"
    case Sync => "sync"
    case Play => "play"
    case Stop => "stop"
    case ListOuts => "list_outs"
    case OpenOut => "open_output"
    case SetOut => "set_output"
    case FindLps => "find_lps"
    case OpenLp => "open_lp"
    case DoFile => "do_file"
    case _ => ""
  }

  predicate IsKeyword(t: Token)
  {
    t.Bpm? || t.Div? || t.Sync? || t.Play? || t.Stop? || t.ListOuts? || t.OpenOut?
    || t.SetOut? || t.FindLps? || t.OpenLp? || t.DoFile?
  }

  /** The keyword whose lower-case spelling is `lw`, if any. */
  function KeywordOf(lw: string): (r: Option<Token>)
    ensures r.Some? ==> IsKeyword(r.value) && KeywordText(r.value) == lw
  {
    if lw == "bpm" then Some(Bpm)
    else if lw == "div" then Some(Div)
    else if lw == "sync" then Some(Sync)
    else if lw == "play" then Some(Play)
    else if lw == "stop" then Some(Stop)
    else if lw == "list_outs" then Some(ListOuts)
    else if lw == "open_output" then Some(OpenOut)
    else if lw == "set_output" then Some(SetOut)
    else if lw == "find_lps" then Some(FindLps)
    else if lw == "open_lp" then Some(OpenLp)
    else if lw == "do_file" then Some(DoFile)
    else None
  }

  /** The token of a whole word: a keyword in any letter case, then a run of
      digits as `Digits`, then anything else as `Sym`. A word that is also
      pitch-shaped (`Cb4`, `d_2`) is decided by the tokenizer's priority rules,
      which this model does not reproduce: `None`. */
  function ClassifyWord(w: string): (r: Option<Token>)
    requires IsWord(w)
    ensures r.Some? && IsKeyword(r.value) <==> KeywordOf(ToLower(w)).Some?
    ensures AllDigits(w) ==> r == Some(Digits)
  {
    var kw := KeywordOf(ToLower(w));
    if kw.Some? then kw
    else if AllDigits(w) then Some(Digits)
    else if NoteShaped(w) then None
    else Some(Sym)
  }

  /** Keywords ignore letter case: a word and its lower-case form are the same
      keyword, whichever case the word is written in. */
  lemma KeywordsIgnoreCase(w: string, k: Token)
    requires IsWord(w) && IsKeyword(k)
    ensures ClassifyWord(w) == Some(k) <==> ToLower(w) == KeywordText(k)
  {
    if ToLower(w) == KeywordText(k) {
      var lw := ToLower(w);
      match k {
        case Bpm => assert lw == "bpm";
        case Div => assert lw == "div";
        case Sync => assert lw == "sync";
        case Play => assert lw == "play";
        case Stop => assert lw == "stop";
        case ListOuts => assert lw == "list_outs";
        case OpenOut => assert lw == "open_output";
        case SetOut => assert lw == "set_output";
        case FindLps => assert lw == "find_lps";
        case OpenLp => assert lw == "open_lp";
        case DoFile => assert lw == "do_file";
      }
    }
  }
}
