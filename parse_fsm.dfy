/** The statement parser (lang/src/parse_fsm.rs), together with the two
    places that reach back into it: the `do_file` command
    (lang/src/keywords.rs) and `Env::do_file` (lang/src/env.rs), which
    parses an included file with the same environment.

    As in the other parsers, every source function is a method over the
    lexer and the environment, proved equal to a specification function of
    (token index, scope stack). The specification functions come in two
    mutually recursive groups: values (a value may be a sequence, whose
    local assignments hold values) and statements (a statement may include
    a file of statements). Inclusion is bounded by a depth, which the source
    does not have. */
module ParseFsm {
  import opened Base
  import opened Text
  import opened Lex
  import opened SeqTypes
  import opened Environment
  import opened Err
  import opened BarParser
  import opened Keywords

  /** The tokens left before the end, from index `p` on. */
  function Rem(s: Tokenized, p: nat): nat
  {
    if p < |s.lexemes| then |s.lexemes| - p else 0
  }

  /* ------------------------------------------------------------------ */
  /* Pitch names. */

  /** The pitch class of a note letter, B included as the source has it. */
  function PitchClass(c: char): int
  {
    if c == 'c' || c == 'C' then 0
    else if c == 'd' || c == 'D' then 2
    else if c == 'e' || c == 'E' then 4
    else if c == 'f' || c == 'F' then 5
    else if c == 'g' || c == 'G' then 7
    else if c == 'a' || c == 'A' then 9
    else 1
  }

  /** The shift of an accidental: `b` flat, `_` natural, `#` sharp. */
  function Accidental(c: char): int
  {
    if c == 'b' then -1 else if c == '_' then 0 else 1
  }

  /** `note_to_u8`: 24 + pitch class + 12 * octave + accidental, cast to a
      byte. A pitch name is never range-checked, and its number runs from
      23 (`Cb0`) to 130 (`A#8`), so the cast never wraps. */
  function NoteToU8(w: string): (r: u8)
    requires NoteShaped(w)
    ensures 23 <= r <= 130
  {
    var octave := DigitValue(w[2]);
    assert 0 <= octave <= 8;
    24 + PitchClass(w[0]) + 12 * octave + Accidental(w[1])
  }

  /** Middle C is 72, B sits one semitone above C rather than below the
      next C, and the extremes are 23 and 130. */
  lemma NoteNumbers()
    ensures NoteToU8("C_4") == 72 && NoteToU8("c_4") == 72
    ensures NoteToU8("B_4") == 73 && NoteToU8("C#4") == 73
    ensures NoteToU8("Cb0") == 23 && NoteToU8("A#8") == 130
  {
  }

  /** One octave up is twelve semitones up. */
  lemma OctaveStep(w: string, w': string)
    requires NoteShaped(w) && NoteShaped(w')
    requires w'[0] == w[0] && w'[1] == w[1] && DigitValue(w'[2]) == DigitValue(w[2]) + 1
    ensures NoteToU8(w') == NoteToU8(w) + 12
  {
  }

  /** A sharp is one semitone above the natural, a flat one below. */
  lemma AccidentalStep(w: string, w': string)
    requires NoteShaped(w) && NoteShaped(w') && w'[0] == w[0] && w'[2] == w[2]
    requires w[1] == '_'
    ensures w'[1] == '#' ==> NoteToU8(w') == NoteToU8(w) + 1
    ensures w'[1] == 'b' ==> NoteToU8(w') == NoteToU8(w) - 1
  {
  }

  /* ------------------------------------------------------------------ */
  /* Triggers: `( pitch velocity )`. */

  /** A parse that yields a `T`, and the index of the lookahead after it. */
  datatype Parsed<T> = Parsed(res: Result<T, Message>, pos: nat)

  /** Why the pitch or the velocity of a trigger was refused: a number that
      is not a byte, a byte of 128 or more, a token the lexer could not
      make out, the end of the input, any other token. Each parser has its
      own wording for these (`PitchMessage`, `VelocityMessage`). */
  datatype ByteErr = NotAByte | Above127 | Unlexed | AtEnd | Misplaced

  function PitchMessage(e: ByteErr): Message
  {
    match e
    case NotAByte => BadNoteNumber
    case Above127 => NoteOutOfRange
    case Unlexed => BadSymbol
    case AtEnd => InputRanOut
    case Misplaced => NeedNote
  }

  /** The velocity's wording; the end of the input is reported as an
      unparsable velocity, in different words from a number that does not
      parse. */
  function VelocityMessage(e: ByteErr): Message
  {
    match e
    case NotAByte => BadVelocityNumber
    case Above127 => VelocityOutOfRange
    case Unlexed => BadSymbol
    case AtEnd => VelocityMissing
    case Misplaced => NeedVelocity
  }

  /** The number of the pitch name at index `q`. */
  function NoteAt(s: Tokenized, q: nat): (r: u8)
    requires TokAt(s, q) == Note
    ensures 23 <= r <= 130
  {
    NoteShapedAt(s, 0, q);
    NoteToU8(TextAt(s, q))
  }

  /** A number token read as a byte below 128. */
  function SmallByte(w: string): Result<u8, ByteErr>
  {
    match ParseUnsigned(w, 256)
    case None => Fail(NotAByte)
    case Some(n) => if n < 128 then Ok(n) else Fail(Above127)
  }

  /** The pitch at index `q`: a pitch name, or a number below 128. */
  function PitchAt(s: Tokenized, q: nat): Result<u8, ByteErr>
  {
    var t := TokAt(s, q);
    if t == Note then Ok(NoteAt(s, q))
    else if t == Digits then SmallByte(TextAt(s, q))
    else if t == Err then Fail(Unlexed)
    else if t == Eof then Fail(AtEnd)
    else Fail(Misplaced)
  }

  /** The velocity at index `q`: a number below 128. */
  function VelocityAt(s: Tokenized, q: nat): Result<u8, ByteErr>
  {
    var t := TokAt(s, q);
    if t == Digits then SmallByte(TextAt(s, q))
    else if t == Err then Fail(Unlexed)
    else if t == Eof then Fail(AtEnd)
    else Fail(Misplaced)
  }

  /** `trigger` from index `p`, the `(`: each of the four tokens is
      consumed before it is judged. */
  function TriggerAt(s: Tokenized, p: nat): (o: Parsed<Trigger>)
    ensures o.pos > p
  {
    if TokAt(s, p) != OpenParen then Parsed(Fail(LostOpenParen), p + 1)
    else TriggerArgsAt(s, p + 1)
  }

  /** The rest of a trigger from index `q`, the pitch. */
  function TriggerArgsAt(s: Tokenized, q: nat): (o: Parsed<Trigger>)
    ensures o.pos > q
  {
    var nn := PitchAt(s, q);
    if nn.Fail? then Parsed(Fail(PitchMessage(nn.error)), q + 1)
    else TriggerRestAt(s, q + 1, nn.value)
  }

  /** The rest of a trigger of pitch `nn` from index `q`, the velocity. */
  function TriggerRestAt(s: Tokenized, q: nat, nn: u8): (o: Parsed<Trigger>)
    ensures o.pos > q
  {
    var vel := VelocityAt(s, q);
    if vel.Fail? then Parsed(Fail(VelocityMessage(vel.error)), q + 1)
    else if TokAt(s, q + 1) != CloseParen then Parsed(Fail(MissedCloseParen), q + 2)
    else Parsed(Ok(Trigger(nn, vel.value)), q + 2)
  }

  /** A trigger is four tokens, and its velocity is below 128; so is its
      pitch when given as a number, while a pitch name may give up to 130. */
  lemma TriggerRanges(s: Tokenized, p: nat)
    ensures var o := TriggerAt(s, p);
            o.res.Ok? ==>
              && o.pos == p + 4
              && TokAt(s, p) == OpenParen && TokAt(s, p + 2) == Digits && TokAt(s, p + 3) == CloseParen
              && o.res.value.vel < 128
              && (TokAt(s, p + 1) == Digits ==> o.res.value.nn < 128)
              && (TokAt(s, p + 1) == Note ==> o.res.value.nn == NoteAt(s, p + 1))
  {
  }

  /** A numeric pitch or velocity that parses as a byte but is 128 or more
      is out of range; one that does not parse as a byte is reported as
      unparsable. */
  lemma NumberErrors(s: Tokenized, q: nat, nn: u8)
    requires TokAt(s, q) == Digits
    ensures var n := ParseUnsigned(TextAt(s, q), 256);
            && (n.None? ==>
                  TriggerArgsAt(s, q).res == Fail(BadNoteNumber)
                  && TriggerRestAt(s, q, nn).res == Fail(BadVelocityNumber))
            && (n.Some? && n.value >= 128 ==>
                  TriggerArgsAt(s, q).res == Fail(NoteOutOfRange)
                  && TriggerRestAt(s, q, nn).res == Fail(VelocityOutOfRange))
            && (n.Some? && n.value < 128 ==> PitchAt(s, q) == Ok(n.value) && VelocityAt(s, q) == Ok(n.value))
  {
  }

  /** Running out of input inside a trigger: at the pitch it is reported
      as such, at the velocity as an unparsable velocity. */
  lemma TriggerEndErrors(s: Tokenized, q: nat, nn: u8)
    requires q >= |s.lexemes|
    ensures TriggerArgsAt(s, q) == Parsed(Fail(InputRanOut), q + 1)
    ensures TriggerRestAt(s, q, nn) == Parsed(Fail(VelocityMissing), q + 1)
  {
  }

  /* ------------------------------------------------------------------ */
  /* Values, assignments and sequences. */

  /** The outcome of a value parse: the value or the error, the index of the
      lookahead afterwards, and the scope stack afterwards. */
  datatype VOut = VOut(res: Result<Val, Message>, pos: nat, stack: Stack)

  /** The outcome of the parsers that only bind: an assignment, the local
      assignments of a sequence. */
  datatype AOut = AOut(res: Result<(), Message>, pos: nat, stack: Stack)

  /** The value a finished builder stands for. */
  function BarValue(l: Line): (v: Val)
    ensures v.Bar? && v.len == LineLength(l) && v.evs == l.evs
  {
    var d := Finished(l);
    Bar(d.0, d.1)
  }

  /** `bar` from index `p`: a bar parsed into a fresh builder. */
  function BarAt(s: Tokenized, p: nat, st: Stack): (o: Parsed<Val>)
    ensures o.pos > p
  {
    var b := BarSpec(s, p, st, EmptyLine);
    Parsed(if b.res.Ok? then Ok(BarValue(b.line)) else Fail(b.res.error), b.pos)
  }

  /** `alias` from index `p`: the value bound to the name there. */
  function AliasAt(s: Tokenized, p: nat, st: Stack): (o: Parsed<Val>)
    ensures o.pos == p + 1
    ensures o.res.Ok? <==> Resolve(st, TextAt(s, p)).Some?
    ensures o.res.Ok? ==> o.res.value == Resolve(st, TextAt(s, p)).value
  {
    match Resolve(st, TextAt(s, p))
    case Some(v) => Parsed(Ok(v), p + 1)
    case None => Parsed(Fail(UnknownName), p + 1)
  }

  /** A parse that leaves the scopes alone, as a value parse. */
  function Lift(o: Parsed<Val>, st: Stack): VOut
  {
    VOut(o.res, o.pos, st)
  }

  /** `val` from index `p` under the scopes `st`. */
  function ValueAt(s: Tokenized, p: nat, st: Stack): (o: VOut)
    ensures o.pos >= p && |o.stack| >= |st|
    decreases Rem(s, p), 5
  {
    var t := TokAt(s, p);
    if t == OpenSq then Lift(BarAt(s, p, st), st)
    else if t == OpenCrl then SequenceAt(s, p, st)
    else if t == OpenParen then
      var o := TriggerAt(s, p);
      VOut(if o.res.Ok? then Ok(Trig(o.res.value)) else Fail(o.res.error), o.pos, st)
    else if t == Sym || t == Digits then Lift(AliasAt(s, p, st), st)
    else if t == Eof then VOut(Fail(InputRanOut), p, st)
    else if t == Err then VOut(Fail(BadSymbol), p, st)
    else VOut(Fail(NeedValue), p, st)
  }

  /** `sequence` from index `p`, the `{`: a new scope for the local
      assignments (never popped again), then the rows of bars, layered by a
      shared builder, then the `}`. */
  function SequenceAt(s: Tokenized, p: nat, st: Stack): (o: VOut)
    ensures o.pos >= p && |o.stack| > |st|
    decreases Rem(s, p), 4
  {
    var a := SeqAssignmentsAt(s, p + 1, st + [map[]]);
    if a.res.Fail? then VOut(Fail(a.res.error), a.pos, a.stack)
    else
      var b := SeqBarsAt(s, a.pos, a.stack, EmptyLine);
      if b.res.Fail? then VOut(Fail(b.res.error), b.pos, a.stack)
      else if TokAt(s, b.pos) != CloseCrl then VOut(Fail(NeedCloseCrl), b.pos + 1, a.stack)
      else VOut(Ok(BarValue(b.line)), b.pos + 1, a.stack)
  }

  /** The local assignments of a sequence from index `p`, up to its first
      `[`. */
  function SeqAssignmentsAt(s: Tokenized, p: nat, st: Stack): (o: AOut)
    ensures o.pos >= p && |o.stack| >= |st|
    decreases Rem(s, p), 3
  {
    var (o, more) := SeqAssignStep(s, p, st);
    if more then SeqAssignmentsAt(s, o.pos, o.stack) else o
  }

  /** One round of the loop of `seq_assignments` at index `p`, and whether
      the loop goes on. */
  function SeqAssignStep(s: Tokenized, p: nat, st: Stack): (o: (AOut, bool))
    ensures o.0.pos >= p && |o.0.stack| >= |st|
    ensures o.1 ==> o.0.res.Ok? && o.0.pos > p && p < |s.lexemes|
    decreases Rem(s, p), 2
  {
    var t := TokAt(s, p);
    if t == Eol then (AOut(Ok(()), p + 1, st), true)
    else if t == Sym || t == Digits then
      var a := AssignmentAt(s, p + 1, st);
      (a, a.res.Ok?)
    else if t == OpenSq then (AOut(Ok(()), p, st), false)
    else if t == Err then (AOut(Fail(BadSymbol), p, st), false)
    else if t == Eof then (AOut(Fail(InputRanOut), p, st), false)
    else (AOut(Fail(NeedSeqValue), p, st), false)
  }

  /** The name an assignment binds when its `=` is expected at index `p`:
      the text of the token before. */
  function NameBefore(s: Tokenized, p: nat): string
  {
    SpanText(s.text, SpanAfter(s, p))
  }

  /** `assignment` with the `=` expected at index `p`: the value after it is
      bound to the name in the innermost scope. */
  function AssignmentAt(s: Tokenized, p: nat, st: Stack): (o: AOut)
    ensures o.pos > p && |o.stack| >= |st|
    decreases Rem(s, p), 1
  {
    if TokAt(s, p) != Eq then AOut(Fail(NeedEq), p + 1, st)
    else BindAt(s, p + 1, st, NameBefore(s, p))
  }

  /** The value after the `=` of an assignment, from index `q`, bound to
      `nm` in the innermost scope. */
  function BindAt(s: Tokenized, q: nat, st: Stack, nm: string): (o: AOut)
    ensures o.pos >= q && |o.stack| >= |st|
    decreases Rem(s, q) + 1, 0
  {
    var v := ValueAt(s, q, st);
    if v.res.Fail? then AOut(Fail(v.res.error), v.pos, v.stack)
    else AOut(Ok(()), v.pos, WithBinding(v.stack, nm, v.res.value))
  }

  /** The rows of a sequence from index `p`, each a bar followed by `cr`,
      up to the `}` (not consumed). */
  function SeqBarsAt(s: Tokenized, p: nat, st: Stack, l: Line): (o: BarOut)
    ensures o.pos >= p
    decreases Rem(s, p)
  {
    var (o, more) := SeqBarStep(s, p, st, l);
    if more then SeqBarsAt(s, o.pos, st, o.line) else o
  }

  /** One round of the loop of `seq_bars` at index `p`. */
  function SeqBarStep(s: Tokenized, p: nat, st: Stack, l: Line): (o: (BarOut, bool))
    ensures o.0.pos >= p
    ensures o.1 ==> o.0.res.Ok? && o.0.pos > p && p < |s.lexemes|
  {
    var t := TokAt(s, p);
    if t == Eol then (BarOut(Ok(()), p + 1, l), true)
    else if t == OpenSq then
      var b := BarSpec(s, p, st, l);
      if b.res.Fail? then (b, false) else (BarOut(Ok(()), b.pos, AfterCr(b.line)), true)
    else if t == CloseCrl then (BarOut(Ok(()), p, l), false)
    else if t == Err then (BarOut(Fail(BadSymbol), p, l), false)
    else if t == Eof then (BarOut(Fail(InputRanOutInBars), p, l), false)
    else (BarOut(Fail(NeedBars), p, l), false)
  }

  /* ------------------------------------------------------------------ */
  /* Properties of values. */

  /** After `name = value` the name resolves to the value, and every other
      name resolves as it did after the value was parsed. */
  lemma AssignmentBinds(s: Tokenized, p: nat, st: Stack, other: string)
    requires TokAt(s, p) == Eq
    ensures var v := ValueAt(s, p + 1, st);
            var o := AssignmentAt(s, p, st);
            && (o.res.Ok? <==> v.res.Ok?)
            && (o.res.Ok? ==> Resolve(o.stack, NameBefore(s, p)) == Some(v.res.value))
            && (o.res.Ok? && other != NameBefore(s, p) ==> Resolve(o.stack, other) == Resolve(v.stack, other))
  {
    var v := ValueAt(s, p + 1, st);
    if v.res.Ok? {
      SetThenLookup(v.stack, NameBefore(s, p), v.res.value, other);
    }
  }

  /** A missing `=` is reported right after the token that should have
      been one. */
  lemma AssignmentNeedsEq(s: Tokenized, p: nat, st: Stack)
    requires TokAt(s, p) != Eq
    ensures AssignmentAt(s, p, st) == AOut(Fail(NeedEq), p + 1, st)
  {
  }

  /** The name bound is the text of the token just before the `=`. */
  lemma NameIsPreviousToken(s: Tokenized, p: nat)
    requires p > 0
    ensures NameBefore(s, p) == TextAt(s, p - 1)
  {
    SpanAfterText(s, p);
  }

  /** The local assignments stop only at a `[`: a sequence that gets past
      them has at least one bar. */
  lemma {:induction false} SeqAssignmentsEndAtBar(s: Tokenized, p: nat, st: Stack)
    ensures var o := SeqAssignmentsAt(s, p, st);
            o.res.Ok? ==> TokAt(s, o.pos) == OpenSq
    decreases Rem(s, p)
  {
    var (o, more) := SeqAssignStep(s, p, st);
    if more {
      SeqAssignmentsEndAtBar(s, o.pos, o.stack);
    }
  }

  /** The rows of a sequence end at the `}`; every row is followed by `cr`,
      so once a row has been read the cursor is back at 0 and the length
      recorded is at least what it was. */
  lemma {:induction false} SeqBarsLayer(s: Tokenized, p: nat, st: Stack, l: Line)
    ensures var o := SeqBarsAt(s, p, st, l);
            && (o.res.Ok? ==> TokAt(s, o.pos) == CloseCrl)
            && (o.res.Ok? && (TokAt(s, p) == OpenSq || l.count == 0) ==> o.line.count == 0)
            && (o.res.Ok? ==> o.line.max >= l.max)
    decreases Rem(s, p)
  {
    var (o, more) := SeqBarStep(s, p, st, l);
    if more {
      SeqBarsLayer(s, o.pos, st, o.line);
      BarKeepsMax(s, p, st, l);
    }
  }

  /** A bar never lowers the recorded length of a line. */
  lemma BarKeepsMax(s: Tokenized, p: nat, st: Stack, l: Line)
    ensures BarSpec(s, p, st, l).line.max == l.max
  {
    if TokAt(s, p) == OpenSq {
      ItemsKeepMax(s, p + 1, st, l);
    }
  }

  lemma {:induction false} ItemsKeepMax(s: Tokenized, p: nat, st: Stack, l: Line)
    ensures Items(s, p, st, l).line.max == l.max
    decreases if p < |s.lexemes| then |s.lexemes| - p else 0
  {
    var (o, more) := ItemStep(s, p, st, l);
    if more {
      assert TokAt(s, p) != Eof;
      ItemsKeepMax(s, o.pos, st, o.line);
    }
  }

  /** A sequence that parses leaves its scope behind: the stack is deeper
      than before, and the scope pushed for it is the one its local
      assignments went to. */
  lemma SequenceLeavesScope(s: Tokenized, p: nat, st: Stack)
    ensures var o := SequenceAt(s, p, st);
            var a := SeqAssignmentsAt(s, p + 1, st + [map[]]);
            && |o.stack| > |st|
            && (o.res.Ok? ==> o.stack == a.stack && o.res.value.Bar?)
  {
  }

  /** A trigger or an alias never changes the scopes; a bar does not
      either. */
  lemma ValueKeepsScopes(s: Tokenized, p: nat, st: Stack)
    requires TokAt(s, p) != OpenCrl
    ensures ValueAt(s, p, st).stack == st
  {
  }

  /** The longest of the rows of a sequence from index `p` on: the width of
      each bar up to the `}`, line ends skipped. */
  function RowsLongest(s: Tokenized, p: nat, st: Stack): nat
    decreases Rem(s, p)
  {
    var t := TokAt(s, p);
    if t == Eol then RowsLongest(s, p + 1, st)
    else if t == OpenSq then
      var b := BarSpec(s, p, st, EmptyLine);
      if b.res.Fail? then 0 else Max(BarWidth(s, p, st), RowsLongest(s, b.pos, st))
    else 0
  }

  /** Rows are layered from offset 0: whatever was recorded before, the
      rows leave the cursor at 0 and the length at the larger of what was
      recorded and the longest row. */
  lemma {:induction false} SeqBarsLength(s: Tokenized, p: nat, st: Stack, l: Line)
    requires l.count == 0
    ensures var o := SeqBarsAt(s, p, st, l);
            o.res.Ok? ==> o.line.count == 0 && LineLength(o.line) == Max(l.max, RowsLongest(s, p, st))
    decreases Rem(s, p)
  {
    var (o, more) := SeqBarStep(s, p, st, l);
    if more {
      if TokAt(s, p) == OpenSq {
        BarShift(s, p, st, l);
        BarKeepsMax(s, p, st, l);
      }
      SeqBarsLength(s, o.pos, st, o.line);
    }
  }

  /** A sequence is as long as its longest row. */
  lemma SequenceLength(s: Tokenized, p: nat, st: Stack)
    ensures var o := SequenceAt(s, p, st);
            var a := SeqAssignmentsAt(s, p + 1, st + [map[]]);
            o.res.Ok? ==> o.res.value.len == RowsLongest(s, a.pos, a.stack)
  {
    var a := SeqAssignmentsAt(s, p + 1, st + [map[]]);
    if a.res.Ok? {
      SeqBarsLength(s, a.pos, a.stack, EmptyLine);
    }
  }

  /** Under well-formed scopes the rows of a sequence keep the builder's
      invariant. */
  lemma {:induction false} SeqBarsKeepInvariant(s: Tokenized, p: nat, st: Stack, l: Line)
    requires ScopesOk(st) && LineOk(l)
    ensures LineOk(SeqBarsAt(s, p, st, l).line)
    decreases Rem(s, p)
  {
    var (o, more) := SeqBarStep(s, p, st, l);
    if TokAt(s, p) == OpenSq {
      BarKeepsInvariant(s, p, st, l);
      BuilderKeepsInvariant(BarSpec(s, p, st, l).line, 0, 0, 0, false, 0, 0, map[]);
    }
    if more {
      SeqBarsKeepInvariant(s, o.pos, st, o.line);
    }
  }

  /** Under well-formed scopes every value parsed is well formed, a bar or
      sequence being a compiled one, and the scopes stay well formed. */
  lemma {:induction false} ValueOk(s: Tokenized, p: nat, st: Stack)
    requires ScopesOk(st)
    ensures var o := ValueAt(s, p, st);
            ScopesOk(o.stack) && (o.res.Ok? ==> ValOk(o.res.value))
    decreases Rem(s, p), 5
  {
    var t := TokAt(s, p);
    if t == OpenSq {
      BarKeepsInvariant(s, p, st, EmptyLine);
    } else if t == OpenCrl {
      SequenceOk(s, p, st);
    } else if t == Sym || t == Digits {
      ResolveOk(st, TextAt(s, p));
    }
  }

  lemma {:induction false} SequenceOk(s: Tokenized, p: nat, st: Stack)
    requires ScopesOk(st)
    ensures var o := SequenceAt(s, p, st);
            ScopesOk(o.stack) && (o.res.Ok? ==> ValOk(o.res.value))
    decreases Rem(s, p), 4
  {
    BindingOk(st, "", Trig(Trigger(0, 0)));
    SeqAssignmentsOk(s, p + 1, st + [map[]]);
    var a := SeqAssignmentsAt(s, p + 1, st + [map[]]);
    if a.res.Ok? {
      SeqBarsKeepInvariant(s, a.pos, a.stack, EmptyLine);
    }
  }

  lemma {:induction false} SeqAssignmentsOk(s: Tokenized, p: nat, st: Stack)
    requires ScopesOk(st)
    ensures ScopesOk(SeqAssignmentsAt(s, p, st).stack)
    decreases Rem(s, p), 3
  {
    SeqAssignStepOk(s, p, st);
    var (o, more) := SeqAssignStep(s, p, st);
    if more {
      SeqAssignmentsOk(s, o.pos, o.stack);
    }
  }

  lemma {:induction false} SeqAssignStepOk(s: Tokenized, p: nat, st: Stack)
    requires ScopesOk(st)
    ensures ScopesOk(SeqAssignStep(s, p, st).0.stack)
    decreases Rem(s, p), 2
  {
    var t := TokAt(s, p);
    if t == Sym || t == Digits {
      AssignmentOk(s, p + 1, st);
    }
  }

  /** An assignment binds only well-formed values. */
  lemma {:induction false} AssignmentOk(s: Tokenized, p: nat, st: Stack)
    requires ScopesOk(st)
    ensures ScopesOk(AssignmentAt(s, p, st).stack)
    decreases Rem(s, p), 1
  {
    if TokAt(s, p) == Eq {
      BindOk(s, p + 1, st, NameBefore(s, p));
    }
  }

  lemma {:induction false} BindOk(s: Tokenized, q: nat, st: Stack, nm: string)
    requires ScopesOk(st)
    ensures ScopesOk(BindAt(s, q, st, nm).stack)
    decreases Rem(s, q) + 1, 0
  {
    ValueOk(s, q, st);
    var v := ValueAt(s, q, st);
    if v.res.Ok? {
      BindingOk(v.stack, nm, v.res.value);
    }
  }

  /* ------------------------------------------------------------------ */
  /* Statements. */

  /** The outcome of a slot assignment: the `assign_slot` call or the error,
      the index of the lookahead and the scope stack afterwards. */
  datatype SOut = SOut(res: Result<RtCmd, Message>, pos: nat, stack: Stack)

  /** `slot_assignment` from index `p`, the `<`: a slot number, `>`, `=` and a
      value, which must be a bar. */
  function SlotAssignmentAt(s: Tokenized, p: nat, st: Stack): (o: SOut)
    ensures o.pos > p && |o.stack| >= |st|
  {
    var n := NumAt(s, p + 1, USIZE_LIMIT);
    if n == Fail(Missing) then SOut(Fail(NeedSlotNumber), p + 2, st)
    else if n.Fail? then SOut(Fail(BadSlotNumber), p + 2, st)
    else SlotTargetAt(s, p + 2, st, n.value)
  }

  /** The rest of a slot assignment to slot `n` from index `q`, the `>`. */
  function SlotTargetAt(s: Tokenized, q: nat, st: Stack, n: nat): (o: SOut)
    ensures o.pos > q && |o.stack| >= |st|
  {
    if TokAt(s, q) != CloseAng then SOut(Fail(NeedCloseAng), q + 1, st)
    else if TokAt(s, q + 1) != Eq then SOut(Fail(NeedSlotEq), q + 2, st)
    else SlotValueAt(s, q + 2, st, n)
  }

  /** The value assigned to slot `n`, from index `q`. */
  function SlotValueAt(s: Tokenized, q: nat, st: Stack, n: nat): (o: SOut)
    ensures o.pos >= q && |o.stack| >= |st|
  {
    var v := ValueAt(s, q, st);
    match v.res
    case Fail(e) => SOut(Fail(e), v.pos, v.stack)
    case Ok(Trig(_)) => SOut(Fail(SlotNeedsBar), v.pos, v.stack)
    case Ok(Bar(len, evs)) => SOut(Ok(AssignSlot(n, len, evs)), v.pos, v.stack)
  }

  /** A slot assignment that succeeds assigns the number written between
      the angles the bar or sequence after the `=`; a trigger is refused. */
  lemma SlotAssignmentCalls(s: Tokenized, p: nat, st: Stack)
    ensures var o := SlotAssignmentAt(s, p, st);
            var v := ValueAt(s, p + 4, st);
            && (o.res.Ok? <==> NumAt(s, p + 1, USIZE_LIMIT).Ok? && TokAt(s, p + 2) == CloseAng
                               && TokAt(s, p + 3) == Eq && v.res.Ok? && v.res.value.Bar?)
            && (o.res.Ok? ==> o.res.value == AssignSlot(NumAt(s, p + 1, USIZE_LIMIT).value, v.res.value.len, v.res.value.evs))
            && ((NumAt(s, p + 1, USIZE_LIMIT).Ok? && TokAt(s, p + 2) == CloseAng && TokAt(s, p + 3) == Eq
                 && v.res.Ok? && v.res.value.Trig?) ==> o.res == Fail(SlotNeedsBar))
  {
  }

  /** A slot assignment under well-formed scopes hands the runtime a
      compiled bar: its events lie before its length and every note lasts
      at least one step. */
  lemma SlotAssignmentCompiled(s: Tokenized, p: nat, st: Stack)
    requires ScopesOk(st)
    ensures var o := SlotAssignmentAt(s, p, st);
            && ScopesOk(o.stack)
            && (o.res.Ok? ==> o.res.value.AssignSlot? && BarOk(o.res.value.len, o.res.value.evs))
  {
    var n := NumAt(s, p + 1, USIZE_LIMIT);
    if n.Ok? {
      assert SlotAssignmentAt(s, p, st) == SlotTargetAt(s, p + 2, st, n.value);
      SlotTargetCompiled(s, p + 2, st, n.value);
    }
  }

  /** `SlotAssignmentCompiled` once the slot number is read. */
  lemma SlotTargetCompiled(s: Tokenized, q: nat, st: Stack, n: nat)
    requires ScopesOk(st)
    ensures var o := SlotTargetAt(s, q, st, n);
            && ScopesOk(o.stack)
            && (o.res.Ok? ==> o.res.value.AssignSlot? && BarOk(o.res.value.len, o.res.value.evs))
  {
    if TokAt(s, q) == CloseAng && TokAt(s, q + 1) == Eq {
      SlotValueCompiled(s, q + 2, st, n);
    }
  }

  /** `SlotAssignmentCompiled` once the slot number, `>` and `=` are read. */
  lemma SlotValueCompiled(s: Tokenized, q: nat, st: Stack, n: nat)
    requires ScopesOk(st)
    ensures var o := SlotValueAt(s, q, st, n);
            && ScopesOk(o.stack)
            && (o.res.Ok? ==> o.res.value.AssignSlot? && BarOk(o.res.value.len, o.res.value.evs))
  {
    ValueOk(s, q, st);
  }

  /** The outcome of the statement parser: the result, the index of the
      lookahead, the scope stack afterwards, and the runtime calls made, in
      order (those made before a failure included). */
  datatype ROut = ROut(res: Result<(), ParseError>, pos: nat, stack: Stack, calls: seq<RtCmd>)

  /** The outcome of `Env::do_file`: the result, the scope stack afterwards
      and the runtime calls made. */
  datatype EOut = EOut(res: Result<(), ParseError>, stack: Stack, calls: seq<RtCmd>)

  /** A statement error of the current file. */
  function Local(m: Message): Result<(), ParseError>
  {
    Fail(Msg(m))
  }

  /** `root` from index `p`, with `depth` further levels of inclusion
      allowed and the files `fs` on offer. */
  function RootAt(depth: nat, fs: map<string, Tokenized>, s: Tokenized, p: nat, st: Stack): (o: ROut)
    ensures |o.stack| >= |st|
    decreases depth, Rem(s, p), 3
  {
    var (o, more) := StatementAt(depth, fs, s, p, st);
    if more then
      var r := RootAt(depth, fs, s, o.pos, o.stack);
      ROut(r.res, r.pos, r.stack, o.calls + r.calls)
    else o
  }

  /** One round of the loop of `root` at index `p`: one statement, or a
      skipped line end, and whether the loop goes on. */
  function StatementAt(depth: nat, fs: map<string, Tokenized>, s: Tokenized, p: nat, st: Stack): (o: (ROut, bool))
    ensures |o.0.stack| >= |st|
    ensures o.1 ==> o.0.res.Ok? && o.0.pos > p && p < |s.lexemes|
    decreases depth, Rem(s, p), 2
  {
    if TokAt(s, p) == DoFile then
      var o := DoFileAt(depth, fs, s, p, st);
      (o, o.res.Ok?)
    else LocalStatementAt(s, p, st)
  }

  /** The rounds of `root` that stay within the current file: every
      lookahead but `do_file`, which `StatementAt` handles. */
  function LocalStatementAt(s: Tokenized, p: nat, st: Stack): (o: (ROut, bool))
    ensures |o.0.stack| >= |st|
    ensures o.1 ==> o.0.res.Ok? && o.0.pos > p && p < |s.lexemes|
    ensures o.0.res.Fail? ==> o.0.res.error.Msg?
  {
    var t := TokAt(s, p);
    if t == Eol then (ROut(Ok(()), p + 1, st, []), true)
    else if t == Sym || t == Digits then
      var a := AssignmentAt(s, p + 1, st);
      (ROut(if a.res.Ok? then Ok(()) else Local(a.res.error), a.pos, a.stack, []), a.res.Ok?)
    else if t == OpenAng then
      var a := SlotAssignmentAt(s, p, st);
      (ROut(if a.res.Ok? then Ok(()) else Local(a.res.error), a.pos, a.stack, Issued(a.res)), a.res.Ok?)
    else if IsCommand(t) then
      var k := Command(t, s, p);
      (ROut(if k.res.Ok? then Ok(()) else Local(k.res.error), k.pos, st, Issued(k.res)), k.res.Ok?)
    else if t == Eof then (ROut(Ok(()), p, st, []), false)
    else (ROut(Local(UnknownSymbol), p, st, []), false)
  }

  /** The first index from `i` on holding a line end or the end of input. */
  function PathEnd(s: Tokenized, i: nat): (q: nat)
    ensures q >= i && (TokAt(s, q) == Eol || TokAt(s, q) == Eof)
    decreases Rem(s, i)
  {
    if TokAt(s, i) == Eol || TokAt(s, i) == Eof then i else PathEnd(s, i + 1)
  }

  /** The text from `a` to `b`; `str` slicing panics otherwise, which a
      well-formed source never makes it do. */
  function Cut(text: string, a: nat, b: nat): string
  {
    if a <= b <= |text| then text[a..b] else ""
  }

  /** The path `do_file` reads when its keyword is at index `p`: the text
      from the start of the token after the keyword to the end of the token
      before the first line end found from `p + 3` on. */
  function PathOf(s: Tokenized, p: nat): string
  {
    Cut(s.text, SpanOf(s, p + 1).start, SpanOf(s, PathEnd(s, p + 3) - 1).end)
  }

  /** `keywords::do_file` from index `p`, the keyword. */
  function DoFileAt(depth: nat, fs: map<string, Tokenized>, s: Tokenized, p: nat, st: Stack): (o: ROut)
    ensures |o.stack| >= |st| && o.pos > p
    decreases depth, Rem(s, p), 1
  {
    var t := TokAt(s, p + 1);
    if t == Eol || t == Eof then ROut(Local(NeedPath), p + 1, st, [])
    else
      var e := IncludeFile(depth, fs, PathOf(s, p), st);
      ROut(e.res, PathEnd(s, p + 3) + 1, e.stack, e.calls)
  }

  /** What `Env::do_file` reports for the result `res` of the included
      file `f`, whose lexer stopped at index `pos`: an error of that file
      is tagged with its text and the span of its last token; an error of a
      file it included passes through. */
  function SubResult(res: Result<(), ParseError>, f: Source, pos: nat): (r: Result<(), ParseError>)
    ensures r.Ok? <==> res.Ok?
    ensures res.Fail? && res.error.SubFile? ==> r == res
    ensures res.Fail? && res.error.Msg? ==>
              r == Fail(SubFile(res.error.msg, f.text, SpanAfter(f, pos).start, SpanAfter(f, pos).end))
  {
    match res
    case Ok(_) => Ok(())
    case Fail(Msg(m)) => Fail(SubFile(m, f.text, SpanAfter(f, pos).start, SpanAfter(f, pos).end))
    case Fail(e) => Fail(e)
  }

  /** `Env::do_file(path)`: the file's statements run against the same
      scopes and runtime. */
  function IncludeFile(depth: nat, fs: map<string, Tokenized>, path: string, st: Stack): (o: EOut)
    ensures |o.stack| >= |st|
    decreases depth, 0, 0
  {
    if path !in fs then EOut(Local(CantOpenFile), st, [])
    else if depth == 0 then EOut(Local(IncludeTooDeep), st, [])
    else
      var f := fs[path];
      var r := RootAt(depth - 1, fs, f, 0, st);
      EOut(SubResult(r.res, f, r.pos), r.stack, r.calls)
  }

  /* ------------------------------------------------------------------ */
  /* Properties of statements. */

  /** Every `assign_slot` among `calls` hands over a compiled bar. */
  ghost predicate AssignsCompiled(calls: seq<RtCmd>)
  {
    forall i :: 0 <= i < |calls| && calls[i].AssignSlot? ==> BarOk(calls[i].len, calls[i].evs)
  }

  /** The commands never assign a slot. */
  lemma CommandAssignsNothing(k: Token, s: Tokenized, p: nat)
    requires IsCommand(k)
    ensures AssignsCompiled(Issued(Command(k, s, p).res))
    ensures Command(k, s, p).res.Ok? ==> !Command(k, s, p).res.value.AssignSlot?
  {
    var r := Command(k, s, p).res;
    if NoArg(k) {
    } else if OneArg(k) {
      UnaryAssignsNothing(k, s, p);
    } else {
      BinaryAssignsNothing(k, s, p);
    }
    if r.Ok? {
      assert Issued(r) == [r.value];
    }
  }

  /** A one-argument command never assigns a slot. */
  lemma UnaryAssignsNothing(k: Token, s: Tokenized, p: nat)
    requires OneArg(k)
    ensures Unary(k, s, p).res.Ok? ==> !Unary(k, s, p).res.value.AssignSlot?
  {
  }

  /** A two-argument command never assigns a slot. */
  lemma BinaryAssignsNothing(k: Token, s: Tokenized, p: nat)
    requires TwoArgs(k)
    ensures Binary(k, s, p).res.Ok? ==> !Binary(k, s, p).res.value.AssignSlot?
  {
  }

  /** From well-formed scopes, `root` keeps them well formed, and every
      `assign_slot` it makes, in this file or an included one, hands over a
      compiled bar: the events before the length, every note at least one
      step long. */
  lemma {:induction false} RootOk(depth: nat, fs: map<string, Tokenized>, s: Tokenized, p: nat, st: Stack)
    requires ScopesOk(st)
    ensures var o := RootAt(depth, fs, s, p, st);
            ScopesOk(o.stack) && AssignsCompiled(o.calls)
    decreases depth, Rem(s, p), 3
  {
    StatementOk(depth, fs, s, p, st);
    RootNext(depth, fs, s, p, st);
    var (o, more) := StatementAt(depth, fs, s, p, st);
    if more {
      RootOk(depth, fs, s, o.pos, o.stack);
      AssignsCompiledConcat(o.calls, RootAt(depth, fs, s, o.pos, o.stack).calls);
    }
  }

  /** Two runs of calls that each hand over compiled bars only, one after
      the other, still do. */
  lemma AssignsCompiledConcat(a: seq<RtCmd>, b: seq<RtCmd>)
    requires AssignsCompiled(a) && AssignsCompiled(b)
    ensures AssignsCompiled(a + b)
  {
    forall i | 0 <= i < |a + b| && (a + b)[i].AssignSlot?
      ensures BarOk((a + b)[i].len, (a + b)[i].evs)
    {
      if i >= |a| {
        assert (a + b)[i] == b[i - |a|];
      }
    }
  }

  lemma {:induction false} StatementOk(depth: nat, fs: map<string, Tokenized>, s: Tokenized, p: nat, st: Stack)
    requires ScopesOk(st)
    ensures var o := StatementAt(depth, fs, s, p, st).0;
            ScopesOk(o.stack) && AssignsCompiled(o.calls)
    decreases depth, Rem(s, p), 2
  {
    if TokAt(s, p) == DoFile {
      StatementDoFile(depth, fs, s, p, st);
      DoFileOk(depth, fs, s, p, st);
    } else {
      StatementLocal(depth, fs, s, p, st);
      LocalStatementOk(s, p, st);
    }
  }

  /** A round of `root` at anything but `do_file` stays in the current file. */
  lemma StatementLocal(depth: nat, fs: map<string, Tokenized>, s: Tokenized, p: nat, st: Stack)
    requires TokAt(s, p) != DoFile
    ensures StatementAt(depth, fs, s, p, st) == LocalStatementAt(s, p, st)
  {
  }

  /** `StatementOk` for the rounds that stay in the current file. */
  lemma LocalStatementOk(s: Tokenized, p: nat, st: Stack)
    requires ScopesOk(st)
    ensures var o := LocalStatementAt(s, p, st).0;
            ScopesOk(o.stack) && AssignsCompiled(o.calls)
  {
    var t := TokAt(s, p);
    if t == Sym || t == Digits {
      LocalAssignmentOk(s, p, st);
    } else if t == OpenAng {
      LocalSlotAssignmentOk(s, p, st);
    } else {
      LocalOtherOk(s, p, st);
    }
  }

  /** An assignment keeps the scopes well formed and calls nothing. */
  lemma LocalAssignmentOk(s: Tokenized, p: nat, st: Stack)
    requires ScopesOk(st) && (TokAt(s, p) == Sym || TokAt(s, p) == Digits)
    ensures var o := LocalStatementAt(s, p, st).0;
            ScopesOk(o.stack) && AssignsCompiled(o.calls)
  {
    LocalParts(s, p, st);
    AssignmentOk(s, p + 1, st);
  }

  /** A slot assignment hands over a compiled bar. */
  lemma LocalSlotAssignmentOk(s: Tokenized, p: nat, st: Stack)
    requires ScopesOk(st) && TokAt(s, p) == OpenAng
    ensures var o := LocalStatementAt(s, p, st).0;
            ScopesOk(o.stack) && AssignsCompiled(o.calls)
  {
    LocalParts(s, p, st);
    SlotAssignmentCompiled(s, p, st);
  }

  /** A command never assigns a slot; line ends, the end of input and errors call nothing. */
  lemma LocalOtherOk(s: Tokenized, p: nat, st: Stack)
    requires ScopesOk(st) && TokAt(s, p) != Sym && TokAt(s, p) != Digits && TokAt(s, p) != OpenAng
    ensures var o := LocalStatementAt(s, p, st).0;
            ScopesOk(o.stack) && AssignsCompiled(o.calls)
  {
    LocalParts(s, p, st);
    var t := TokAt(s, p);
    if IsCommand(t) {
      CommandAssignsNothing(t, s, p);
    }
  }

  /** The scopes and calls a round of `root` within the current file
      leaves. */
  lemma LocalParts(s: Tokenized, p: nat, st: Stack)
    ensures var o := LocalStatementAt(s, p, st).0;
            var t := TokAt(s, p);
            if t == Sym || t == Digits then
              o.stack == AssignmentAt(s, p + 1, st).stack && o.calls == []
            else if t == OpenAng then
              var a := SlotAssignmentAt(s, p, st);
              o.stack == a.stack && o.calls == Issued(a.res)
            else if IsCommand(t) then
              o.stack == st && o.calls == Issued(Command(t, s, p).res)
            else o.stack == st && o.calls == []
  {
  }

  lemma {:induction false} DoFileOk(depth: nat, fs: map<string, Tokenized>, s: Tokenized, p: nat, st: Stack)
    requires ScopesOk(st)
    ensures var o := DoFileAt(depth, fs, s, p, st);
            ScopesOk(o.stack) && AssignsCompiled(o.calls)
    decreases depth, Rem(s, p), 1
  {
    var t := TokAt(s, p + 1);
    if t != Eol && t != Eof {
      IncludeOk(depth, fs, PathOf(s, p), st);
    }
  }

  lemma {:induction false} IncludeOk(depth: nat, fs: map<string, Tokenized>, path: string, st: Stack)
    requires ScopesOk(st)
    ensures var o := IncludeFile(depth, fs, path, st);
            ScopesOk(o.stack) && AssignsCompiled(o.calls)
    decreases depth, 0, 0
  {
    IncludeParts(depth, fs, path, st);
    if path in fs && depth > 0 {
      RootOk(depth - 1, fs, fs[path], 0, st);
    }
  }

  /** The scopes and calls an include leaves: those of the included file's
      `root`, or the old scopes and no call when nothing is included. */
  lemma IncludeParts(depth: nat, fs: map<string, Tokenized>, path: string, st: Stack)
    ensures var o := IncludeFile(depth, fs, path, st);
            if path in fs && depth > 0 then
              var r := RootAt(depth - 1, fs, fs[path], 0, st);
              o.stack == r.stack && o.calls == r.calls
            else o.stack == st && o.calls == []
  {
  }


  /** `root` skips line ends. */
  lemma RootSkipsEol(depth: nat, fs: map<string, Tokenized>, s: Tokenized, p: nat, st: Stack)
    requires TokAt(s, p) == Eol
    ensures RootAt(depth, fs, s, p, st) == RootAt(depth, fs, s, p + 1, st)
  {
    LocalAtLineEnds(s, p, st);
    assert StatementAt(depth, fs, s, p, st) == LocalStatementAt(s, p, st);
    var r := RootAt(depth, fs, s, p + 1, st);
    assert [] + r.calls == r.calls;
  }

  /** `root` stops with success at the end of input, having consumed
      nothing. */
  lemma RootStopsAtEof(depth: nat, fs: map<string, Tokenized>, s: Tokenized, p: nat, st: Stack)
    requires TokAt(s, p) == Eof
    ensures RootAt(depth, fs, s, p, st) == ROut(Ok(()), p, st, [])
  {
    LocalAtLineEnds(s, p, st);
    assert StatementAt(depth, fs, s, p, st) == LocalStatementAt(s, p, st);
  }

  /** A line end is skipped; the end of input stops the loop. */
  lemma LocalAtLineEnds(s: Tokenized, p: nat, st: Stack)
    ensures TokAt(s, p) == Eol ==> LocalStatementAt(s, p, st) == (ROut(Ok(()), p + 1, st, []), true)
    ensures TokAt(s, p) == Eof ==> LocalStatementAt(s, p, st) == (ROut(Ok(()), p, st, []), false)
  {
  }

  /** `root` stops without consuming anything at a token no statement starts
      with. */
  lemma RootRejects(depth: nat, fs: map<string, Tokenized>, s: Tokenized, p: nat, st: Stack)
    requires !StartsStatement(TokAt(s, p))
    ensures RootAt(depth, fs, s, p, st) == ROut(Local(UnknownSymbol), p, st, [])
  {
    RootNext(depth, fs, s, p, st);
  }

  /** The tokens `root` accepts at the start of a statement. */
  predicate StartsStatement(t: Token)
  {
    t == Eol || t == Sym || t == Digits || t == OpenAng || IsCommand(t) || t == DoFile || t == Eof
  }

  /** `root` succeeds only by reaching the end of input, and a failure
      tagged with an included file's text is reported with the lexer just
      past the line end (or end of input) of the `do_file` line. */
  lemma {:induction false} RootEnds(depth: nat, fs: map<string, Tokenized>, s: Tokenized, p: nat, st: Stack)
    ensures var o := RootAt(depth, fs, s, p, st);
            && (o.res.Ok? ==> TokAt(s, o.pos) == Eof)
            && (o.res.Fail? && o.res.error.SubFile? ==>
                  o.pos > 0 && (TokAt(s, o.pos - 1) == Eol || TokAt(s, o.pos - 1) == Eof))
    decreases Rem(s, p)
  {
    var (o, more) := StatementAt(depth, fs, s, p, st);
    RootNext(depth, fs, s, p, st);
    if more {
      RootEnds(depth, fs, s, o.pos, o.stack);
    } else {
      StatementEnds(depth, fs, s, p, st);
    }
  }

  /** A statement that stops the loop with success is the end of input;
      one that fails with an included file's error is a `do_file`. */
  lemma StatementEnds(depth: nat, fs: map<string, Tokenized>, s: Tokenized, p: nat, st: Stack)
    ensures var (o, more) := StatementAt(depth, fs, s, p, st);
            && (!more && o.res.Ok? ==> TokAt(s, o.pos) == Eof)
            && (o.res.Fail? && o.res.error.SubFile? ==>
                  TokAt(s, p) == DoFile && o.pos > 0 && (TokAt(s, o.pos - 1) == Eol || TokAt(s, o.pos - 1) == Eof))
  {
    if TokAt(s, p) == DoFile {
      StatementDoFile(depth, fs, s, p, st);
      DoFilePositions(depth, fs, s, p, st);
    }
  }

  /** `do_file` right before a line end or the end of input is an error;
      otherwise the lexer ends up just past the first line end (or end of
      input) found from two tokens after the path's first token on. */
  lemma DoFilePositions(depth: nat, fs: map<string, Tokenized>, s: Tokenized, p: nat, st: Stack)
    ensures var o := DoFileAt(depth, fs, s, p, st);
            && (TokAt(s, p + 1) == Eol || TokAt(s, p + 1) == Eof ==> o == ROut(Local(NeedPath), p + 1, st, []))
            && (TokAt(s, p + 1) != Eol && TokAt(s, p + 1) != Eof ==>
                  && o.pos == PathEnd(s, p + 3) + 1
                  && o.pos >= p + 4
                  && var e := IncludeFile(depth, fs, PathOf(s, p), st);
                  && o.res == e.res && o.stack == e.stack && o.calls == e.calls)
  {
  }

  /** On a well-formed source the path runs from the start of the token
      after the keyword to the end of the token before the line end, and it
      always covers the token after its first one: a one-token path
      followed by a line end takes that line end (and the next line) in. */
  lemma PathOverrun(s: Tokenized, p: nat)
    requires WellFormed(s) && TokAt(s, p + 1) != Eol && TokAt(s, p + 1) != Eof
    ensures var a := SpanOf(s, p + 1).start;
            var b := SpanOf(s, PathEnd(s, p + 3) - 1).end;
            && a <= SpanOf(s, p + 2).start <= SpanOf(s, p + 2).end <= b <= |s.text|
            && PathOf(s, p) == s.text[a..b]
  {
    var q := PathEnd(s, p + 3);
    SpanOfIn(s, p + 1);
    SpanOfIn(s, p + 2);
    SpanOfIn(s, q - 1);
    SpansOrdered(s, p + 1, p + 2);
    if p + 2 < q - 1 {
      SpansOrdered(s, p + 2, q - 1);
    }
  }

  /** An included file runs against the same scopes and runtime: what it
      binds stays bound afterwards, its calls are made, and its errors are
      tagged with its text and the span where it stopped. */
  lemma IncludeShares(depth: nat, fs: map<string, Tokenized>, path: string, st: Stack)
    requires path in fs && depth > 0
    ensures var f := fs[path];
            var r := RootAt(depth - 1, fs, f, 0, st);
            var o := IncludeFile(depth, fs, path, st);
            && o.stack == r.stack && o.calls == r.calls
            && (o.res.Ok? <==> r.res.Ok?)
            && (r.res.Fail? && r.res.error.Msg? ==>
                  o.res == Fail(SubFile(r.res.error.msg, f.text, SpanAfter(f, r.pos).start, SpanAfter(f, r.pos).end)))
            && (r.res.Fail? && r.res.error.SubFile? ==> o.res == r.res)
  {
  }

  /** A file on offer, within the depth bound, runs from its start. */
  lemma IncludeOpens(depth: nat, fs: map<string, Tokenized>, path: string, st: Stack)
    requires path in fs && depth > 0
    ensures var r := RootAt(depth - 1, fs, fs[path], 0, st);
            IncludeFile(depth, fs, path, st) == EOut(SubResult(r.res, fs[path], r.pos), r.stack, r.calls)
  {
  }

  /** A file that is not on offer is an error, and nothing happens. */
  lemma IncludeMissing(depth: nat, fs: map<string, Tokenized>, path: string, st: Stack)
    requires path !in fs
    ensures IncludeFile(depth, fs, path, st) == EOut(Fail(Msg(CantOpenFile)), st, [])
  {
  }

  /** With no depth left, an include is an error, and nothing happens. */
  lemma IncludeBeyondDepth(fs: map<string, Tokenized>, path: string, st: Stack)
    requires path in fs
    ensures IncludeFile(0, fs, path, st) == EOut(Fail(Msg(IncludeTooDeep)), st, [])
  {
  }

  /** Every file on offer came out of the tokenizer well formed. */
  ghost predicate FilesWellFormed(fs: map<string, Tokenized>)
  {
    forall k :: k in fs ==> WellFormed(fs[k])
  }

  /** An error tagged with an included file's text carries a span inside
      that text, so the error display can slice it. */
  lemma {:induction false} SubErrorsLocated(depth: nat, fs: map<string, Tokenized>, s: Tokenized, p: nat, st: Stack)
    requires FilesWellFormed(fs)
    ensures var o := RootAt(depth, fs, s, p, st);
            o.res.Fail? && o.res.error.SubFile? ==> o.res.error.start <= o.res.error.end <= |o.res.error.subText|
    decreases depth, Rem(s, p), 2
  {
    var (o, more) := StatementAt(depth, fs, s, p, st);
    RootNext(depth, fs, s, p, st);
    if more {
      SubErrorsLocated(depth, fs, s, o.pos, o.stack);
    } else if TokAt(s, p) == DoFile {
      StatementDoFile(depth, fs, s, p, st);
      DoFileSubLocated(depth, fs, s, p, st);
    } else {
      StatementEnds(depth, fs, s, p, st);
    }
  }

  /** The same for the error of a `do_file`. */
  lemma {:induction false} DoFileSubLocated(depth: nat, fs: map<string, Tokenized>, s: Tokenized, p: nat, st: Stack)
    requires FilesWellFormed(fs)
    ensures var o := DoFileAt(depth, fs, s, p, st);
            o.res.Fail? && o.res.error.SubFile? ==> o.res.error.start <= o.res.error.end <= |o.res.error.subText|
    decreases depth, Rem(s, p), 1
  {
    DoFilePositions(depth, fs, s, p, st);
    if TokAt(s, p + 1) != Eol && TokAt(s, p + 1) != Eof {
      IncludeSubLocated(depth, fs, PathOf(s, p), st);
    }
  }

  /** The same for the outcome of including one file. */
  lemma {:induction false} IncludeSubLocated(depth: nat, fs: map<string, Tokenized>, path: string, st: Stack)
    requires FilesWellFormed(fs)
    ensures var e := IncludeFile(depth, fs, path, st);
            e.res.Fail? && e.res.error.SubFile? ==> e.res.error.start <= e.res.error.end <= |e.res.error.subText|
    decreases depth, 0, 0
  {
    if path in fs && depth > 0 {
      var f := fs[path];
      var r := RootAt(depth - 1, fs, f, 0, st);
      IncludeShares(depth, fs, path, st);
      if r.res.Fail? {
        if r.res.error.SubFile? {
          SubErrorsLocated(depth - 1, fs, f, 0, st);
        } else {
          assert WellFormed(f);
          SpanAfterIn(f, r.pos);
        }
      }
    }
  }

  /** A statement starting with `do_file` is that command. */
  lemma StatementDoFile(depth: nat, fs: map<string, Tokenized>, s: Tokenized, p: nat, st: Stack)
    requires TokAt(s, p) == DoFile
    ensures StatementAt(depth, fs, s, p, st).0 == DoFileAt(depth, fs, s, p, st)
  {
  }

  /* ------------------------------------------------------------------ */
  /* Unfolding the loops one round at a time. */

  lemma RootNext(depth: nat, fs: map<string, Tokenized>, s: Tokenized, p: nat, st: Stack)
    ensures var (o, more) := StatementAt(depth, fs, s, p, st);
            var r := RootAt(depth, fs, s, o.pos, o.stack);
            && (more ==> RootAt(depth, fs, s, p, st) == ROut(r.res, r.pos, r.stack, o.calls + r.calls))
            && (!more ==> RootAt(depth, fs, s, p, st) == o)
  {
  }

  /** Where the loop of `root` stands: `r0` is the outcome from its start,
      made of the calls `done` so far and the outcome of the rest of the
      loop from index `p`. */
  ghost predicate RootRest(depth: nat, fs: map<string, Tokenized>, s: Tokenized, p: nat, st: Stack,
                           r0: ROut, done: seq<RtCmd>)
  {
    var o := RootAt(depth, fs, s, p, st);
    r0.res == o.res && r0.pos == o.pos && r0.stack == o.stack && r0.calls == done + o.calls
  }

  lemma CallsAssoc(a: seq<RtCmd>, b: seq<RtCmd>, c: seq<RtCmd>)
    ensures a + b + c == a + (b + c)
  {
  }

  /** One round of the loop of `root` keeps its place or ends it. */
  lemma RootLoopStep(depth: nat, fs: map<string, Tokenized>, s: Tokenized, p: nat, st: Stack,
                     r0: ROut, done: seq<RtCmd>)
    requires RootRest(depth, fs, s, p, st, r0, done)
    ensures var (o, more) := StatementAt(depth, fs, s, p, st);
            && (more ==> RootRest(depth, fs, s, o.pos, o.stack, r0, done + o.calls))
            && (!more ==> r0.res == o.res && r0.pos == o.pos && r0.stack == o.stack
                          && r0.calls == done + o.calls)
  {
    var (o, more) := StatementAt(depth, fs, s, p, st);
    RootNext(depth, fs, s, p, st);
    if more {
      var r := RootAt(depth, fs, s, o.pos, o.stack);
      assert done + (o.calls + r.calls) == (done + o.calls) + r.calls;
    }
  }

  lemma SeqAssignmentsNext(s: Tokenized, p: nat, st: Stack)
    ensures var (o, more) := SeqAssignStep(s, p, st);
            && (more ==> SeqAssignmentsAt(s, p, st) == SeqAssignmentsAt(s, o.pos, o.stack))
            && (!more ==> SeqAssignmentsAt(s, p, st) == o)
  {
  }

  lemma SeqBarsNext(s: Tokenized, p: nat, st: Stack, l: Line)
    ensures var (o, more) := SeqBarStep(s, p, st, l);
            && (more ==> SeqBarsAt(s, p, st, l) == SeqBarsAt(s, o.pos, st, o.line))
            && (!more ==> SeqBarsAt(s, p, st, l) == o)
  {
  }

  /* ------------------------------------------------------------------ */
  /* The parsers as the source has them. */

  /** A number token just consumed, read as a byte below 128. */
  method ReadSmallByte(lx: Lexer) returns (r: Result<u8, ByteErr>)
    requires lx.Pos() > 0
    ensures r == SmallByte(TextAt(lx.src, lx.Pos() - 1))
  {
    var n := ParseUnsigned(lx.Slice(), 256);
    if n.None? {
      r := Fail(NotAByte);
    } else if n.value < 128 {
      r := Ok(n.value);
    } else {
      r := Fail(Above127);
    }
  }

  /** The pitch of a trigger: the token is consumed, then judged. */
  method ReadPitch(lx: Lexer) returns (r: Result<u8, ByteErr>)
    modifies lx
    ensures lx.Pos() == old(lx.Pos()) + 1
    ensures r == PitchAt(lx.src, old(lx.Pos()))
  {
    var t := lx.Next();
    if t == Note {
      NoteShapedAt(lx.src, 0, lx.Pos() - 1);
      r := Ok(NoteToU8(lx.Slice()));
    } else if t == Digits {
      r := ReadSmallByte(lx);
    } else if t == Err {
      r := Fail(Unlexed);
    } else if t == Eof {
      r := Fail(AtEnd);
    } else {
      r := Fail(Misplaced);
    }
  }

  /** The velocity of a trigger: the token is consumed, then judged. */
  method ReadVelocity(lx: Lexer) returns (r: Result<u8, ByteErr>)
    modifies lx
    ensures lx.Pos() == old(lx.Pos()) + 1
    ensures r == VelocityAt(lx.src, old(lx.Pos()))
  {
    var t := lx.Next();
    if t == Digits {
      r := ReadSmallByte(lx);
    } else if t == Err {
      r := Fail(Unlexed);
    } else if t == Eof {
      r := Fail(AtEnd);
    } else {
      r := Fail(Misplaced);
    }
  }

  /** `trigger`. */
  method ParseTrigger(lx: Lexer) returns (r: Result<Trigger, Message>)
    modifies lx
    ensures r == TriggerAt(lx.src, old(lx.Pos())).res && lx.Pos() == TriggerAt(lx.src, old(lx.Pos())).pos
  {
    var e := lx.Expect(OpenParen);
    if e.Fail? {
      return Fail(LostOpenParen);
    }
    r := TriggerArgs(lx);
  }

  /** The part of `trigger` after the `(`. */
  method TriggerArgs(lx: Lexer) returns (r: Result<Trigger, Message>)
    modifies lx
    ensures r == TriggerArgsAt(lx.src, old(lx.Pos())).res && lx.Pos() == TriggerArgsAt(lx.src, old(lx.Pos())).pos
  {
    var nn := ReadPitch(lx);
    if nn.Fail? {
      return Fail(PitchMessage(nn.error));
    }
    r := TriggerRest(lx, nn.value);
  }

  /** The part of `trigger` after the pitch `nn`. */
  method TriggerRest(lx: Lexer, nn: u8) returns (r: Result<Trigger, Message>)
    modifies lx
    ensures r == TriggerRestAt(lx.src, old(lx.Pos()), nn).res && lx.Pos() == TriggerRestAt(lx.src, old(lx.Pos()), nn).pos
  {
    var vel := ReadVelocity(lx);
    if vel.Fail? {
      return Fail(VelocityMessage(vel.error));
    }
    var c := lx.Expect(CloseParen);
    if c.Fail? {
      return Fail(MissedCloseParen);
    }
    r := Ok(Trigger(nn, vel.value));
  }

  /** `alias`: the name is consumed and looked up. */
  method ParseAlias(lx: Lexer, env: Env) returns (r: Result<Val, Message>)
    modifies lx
    ensures r == AliasAt(lx.src, old(lx.Pos()), env.stack).res && lx.Pos() == old(lx.Pos()) + 1
  {
    lx.Advance();
    var v := env.Lookup(lx.Slice());
    if v.None? {
      return Fail(UnknownName);
    }
    r := Ok(v.value);
  }

  /** `bar`: a bar parsed into a fresh builder. */
  method ParseBar(lx: Lexer, env: Env) returns (r: Result<Val, Message>)
    modifies lx
    ensures r == BarAt(lx.src, old(lx.Pos()), env.stack).res && lx.Pos() == BarAt(lx.src, old(lx.Pos()), env.stack).pos
  {
    var lb := new LineBuilder();
    var b := BarParser.Parse(lx, env, lb);
    if b.Fail? {
      return Fail(b.error);
    }
    var d := lb.Done();
    r := Ok(Bar(d.0, d.1));
  }

  /** `val`. */
  method Value(lx: Lexer, env: Env) returns (r: Result<Val, Message>)
    modifies lx, env
    ensures r == ValueAt(lx.src, old(lx.Pos()), old(env.stack)).res
    ensures lx.Pos() == ValueAt(lx.src, old(lx.Pos()), old(env.stack)).pos
    ensures env.stack == ValueAt(lx.src, old(lx.Pos()), old(env.stack)).stack
    ensures env.calls == old(env.calls)
    decreases lx.Remaining(), 5
  {
    var t := lx.Lookahead();
    if t == OpenSq {
      r := ParseBar(lx, env);
    } else if t == OpenCrl {
      r := Sequence(lx, env);
    } else if t == OpenParen {
      var o := ParseTrigger(lx);
      r := if o.Ok? then Ok(Trig(o.value)) else Fail(o.error);
    } else if t == Sym || t == Digits {
      r := ParseAlias(lx, env);
    } else if t == Eof {
      r := Fail(InputRanOut);
    } else if t == Err {
      r := Fail(BadSymbol);
    } else {
      r := Fail(NeedValue);
    }
  }

  /** `sequence`. */
  method Sequence(lx: Lexer, env: Env) returns (r: Result<Val, Message>)
    modifies lx, env
    ensures r == SequenceAt(lx.src, old(lx.Pos()), old(env.stack)).res
    ensures lx.Pos() == SequenceAt(lx.src, old(lx.Pos()), old(env.stack)).pos
    ensures env.stack == SequenceAt(lx.src, old(lx.Pos()), old(env.stack)).stack
    ensures env.calls == old(env.calls)
    decreases lx.Remaining(), 4
  {
    ghost var o := SequenceAt(lx.src, lx.Pos(), env.stack);
    ghost var ga := SeqAssignmentsAt(lx.src, lx.Pos() + 1, env.stack + [map[]]);
    lx.Advance();
    var lb := new LineBuilder();
    env.StepIn();
    var a := SeqAssignments(lx, env);
    if a.Fail? {
      assert o == VOut(Fail(ga.res.error), ga.pos, ga.stack);
      return Fail(a.error);
    }
    ghost var gb := SeqBarsAt(lx.src, ga.pos, ga.stack, EmptyLine);
    var b := SeqBars(lx, env, lb);
    if b.Fail? {
      assert o == VOut(Fail(gb.res.error), gb.pos, ga.stack);
      return Fail(b.error);
    }
    var e := lx.Expect(CloseCrl);
    if e.Fail? {
      assert o == VOut(Fail(NeedCloseCrl), gb.pos + 1, ga.stack);
      return Fail(NeedCloseCrl);
    }
    assert o == VOut(Ok(BarValue(gb.line)), gb.pos + 1, ga.stack);
    var d := lb.Done();
    r := Ok(Bar(d.0, d.1));
  }

  /** `seq_assignments`. */
  method SeqAssignments(lx: Lexer, env: Env) returns (r: Result<(), Message>)
    modifies lx, env
    ensures r == SeqAssignmentsAt(lx.src, old(lx.Pos()), old(env.stack)).res
    ensures lx.Pos() == SeqAssignmentsAt(lx.src, old(lx.Pos()), old(env.stack)).pos
    ensures env.stack == SeqAssignmentsAt(lx.src, old(lx.Pos()), old(env.stack)).stack
    ensures env.calls == old(env.calls)
    decreases lx.Remaining(), 3
  {
    ghost var a0 := SeqAssignmentsAt(lx.src, lx.Pos(), env.stack);
    ghost var rem := lx.Remaining();
    while true
      invariant env.calls == old(env.calls)
      invariant lx.Remaining() <= rem
      invariant a0 == SeqAssignmentsAt(lx.src, lx.Pos(), env.stack)
      decreases lx.Remaining()
    {
      SeqAssignmentsNext(lx.src, lx.Pos(), env.stack);
      var more;
      r, more := SeqAssignOnce(lx, env);
      if !more {
        return;
      }
    }
  }

  /** The body of the loop of `seq_assignments`. */
  method SeqAssignOnce(lx: Lexer, env: Env) returns (r: Result<(), Message>, more: bool)
    modifies lx, env
    ensures r == SeqAssignStep(lx.src, old(lx.Pos()), old(env.stack)).0.res
    ensures more == SeqAssignStep(lx.src, old(lx.Pos()), old(env.stack)).1
    ensures lx.Pos() == SeqAssignStep(lx.src, old(lx.Pos()), old(env.stack)).0.pos
    ensures env.stack == SeqAssignStep(lx.src, old(lx.Pos()), old(env.stack)).0.stack
    ensures env.calls == old(env.calls)
    decreases lx.Remaining(), 2
  {
    var t := lx.Lookahead();
    if t == Eol {
      lx.Advance();
      return Ok(()), true;
    } else if t == Sym || t == Digits {
      lx.Advance();
      r := Assignment(lx, env);
      more := r.Ok?;
    } else if t == OpenSq {
      return Ok(()), false;
    } else if t == Err {
      return Fail(BadSymbol), false;
    } else if t == Eof {
      return Fail(InputRanOut), false;
    } else {
      return Fail(NeedSeqValue), false;
    }
  }

  /** `assignment`, called with the name just consumed. */
  method Assignment(lx: Lexer, env: Env) returns (r: Result<(), Message>)
    modifies lx, env
    ensures r == AssignmentAt(lx.src, old(lx.Pos()), old(env.stack)).res
    ensures lx.Pos() == AssignmentAt(lx.src, old(lx.Pos()), old(env.stack)).pos
    ensures env.stack == AssignmentAt(lx.src, old(lx.Pos()), old(env.stack)).stack
    ensures env.calls == old(env.calls)
    decreases lx.Remaining(), 1
  {
    ghost var p := lx.Pos();
    var nmSpan := lx.Span();
    var e := lx.Expect(Eq);
    if e.Fail? {
      return Fail(NeedEq);
    }
    ghost var o := BindAt(lx.src, p + 1, env.stack, NameBefore(lx.src, p));
    assert AssignmentAt(lx.src, p, env.stack) == o;
    r := Bind(lx, env, SpanText(lx.Src(), nmSpan));
  }

  /** The part of `assignment` after the `=`: the value, then `set`. */
  method Bind(lx: Lexer, env: Env, nm: string) returns (r: Result<(), Message>)
    modifies lx, env
    ensures r == BindAt(lx.src, old(lx.Pos()), old(env.stack), nm).res
    ensures lx.Pos() == BindAt(lx.src, old(lx.Pos()), old(env.stack), nm).pos
    ensures env.stack == BindAt(lx.src, old(lx.Pos()), old(env.stack), nm).stack
    ensures env.calls == old(env.calls)
    decreases lx.Remaining() + 1, 0
  {
    var v := Value(lx, env);
    if v.Fail? {
      return Fail(v.error);
    }
    env.Set(nm, v.value);
    r := Ok(());
  }

  /** `seq_bars`, into the sequence's builder. */
  method SeqBars(lx: Lexer, env: Env, lb: LineBuilder) returns (r: Result<(), Message>)
    modifies lx, lb
    ensures r == SeqBarsAt(lx.src, old(lx.Pos()), env.stack, old(lb.View())).res
    ensures lx.Pos() == SeqBarsAt(lx.src, old(lx.Pos()), env.stack, old(lb.View())).pos
    ensures lb.View() == SeqBarsAt(lx.src, old(lx.Pos()), env.stack, old(lb.View())).line
  {
    ghost var b0 := SeqBarsAt(lx.src, lx.Pos(), env.stack, lb.View());
    while true
      invariant b0 == SeqBarsAt(lx.src, lx.Pos(), env.stack, lb.View())
      decreases lx.Remaining()
    {
      SeqBarsNext(lx.src, lx.Pos(), env.stack, lb.View());
      var more;
      r, more := SeqBarOnce(lx, env, lb);
      if !more {
        return;
      }
    }
  }

  /** The body of the loop of `seq_bars`. */
  method SeqBarOnce(lx: Lexer, env: Env, lb: LineBuilder) returns (r: Result<(), Message>, more: bool)
    modifies lx, lb
    ensures r == SeqBarStep(lx.src, old(lx.Pos()), env.stack, old(lb.View())).0.res
    ensures more == SeqBarStep(lx.src, old(lx.Pos()), env.stack, old(lb.View())).1
    ensures lx.Pos() == SeqBarStep(lx.src, old(lx.Pos()), env.stack, old(lb.View())).0.pos
    ensures lb.View() == SeqBarStep(lx.src, old(lx.Pos()), env.stack, old(lb.View())).0.line
  {
    var t := lx.Lookahead();
    if t == Eol {
      lx.Advance();
      return Ok(()), true;
    } else if t == OpenSq {
      r := BarParser.Parse(lx, env, lb);
      if r.Fail? {
        return r, false;
      }
      lb.Cr();
      r, more := Ok(()), true;
    } else if t == CloseCrl {
      return Ok(()), false;
    } else if t == Err {
      return Fail(BadSymbol), false;
    } else if t == Eof {
      return Fail(InputRanOutInBars), false;
    } else {
      return Fail(NeedBars), false;
    }
  }

  /** `slot_assignment`: on success the bar goes to the runtime. */
  method SlotAssignment(lx: Lexer, env: Env) returns (r: Result<(), Message>)
    modifies lx, env
    ensures r == Outcome(SlotAssignmentAt(lx.src, old(lx.Pos()), old(env.stack)).res)
    ensures lx.Pos() == SlotAssignmentAt(lx.src, old(lx.Pos()), old(env.stack)).pos
    ensures env.stack == SlotAssignmentAt(lx.src, old(lx.Pos()), old(env.stack)).stack
    ensures env.calls == old(env.calls) + Issued(SlotAssignmentAt(lx.src, old(lx.Pos()), old(env.stack)).res)
  {
    ghost var p := lx.Pos();
    ghost var o := SlotAssignmentAt(lx.src, p, env.stack);
    lx.Advance();
    var n := ReadNum(lx, USIZE_LIMIT);
    if n == Fail(Missing) {
      assert o == SOut(Fail(NeedSlotNumber), p + 2, env.stack);
      return Fail(NeedSlotNumber);
    } else if n.Fail? {
      assert o == SOut(Fail(BadSlotNumber), p + 2, env.stack);
      return Fail(BadSlotNumber);
    }
    assert o == SlotTargetAt(lx.src, p + 2, env.stack, n.value);
    r := SlotTarget(lx, env, n.value);
  }

  /** The part of `slot_assignment` after the slot number `n`. */
  method SlotTarget(lx: Lexer, env: Env, n: nat) returns (r: Result<(), Message>)
    modifies lx, env
    ensures r == Outcome(SlotTargetAt(lx.src, old(lx.Pos()), old(env.stack), n).res)
    ensures lx.Pos() == SlotTargetAt(lx.src, old(lx.Pos()), old(env.stack), n).pos
    ensures env.stack == SlotTargetAt(lx.src, old(lx.Pos()), old(env.stack), n).stack
    ensures env.calls == old(env.calls) + Issued(SlotTargetAt(lx.src, old(lx.Pos()), old(env.stack), n).res)
  {
    var c := lx.Expect(CloseAng);
    if c.Fail? {
      return Fail(NeedCloseAng);
    }
    var e := lx.Expect(Eq);
    if e.Fail? {
      return Fail(NeedSlotEq);
    }
    r := SlotValue(lx, env, n);
  }

  /** The value of a slot assignment to slot `n`, which goes to the runtime
      when it is a bar. */
  method SlotValue(lx: Lexer, env: Env, n: nat) returns (r: Result<(), Message>)
    modifies lx, env
    ensures r == Outcome(SlotValueAt(lx.src, old(lx.Pos()), old(env.stack), n).res)
    ensures lx.Pos() == SlotValueAt(lx.src, old(lx.Pos()), old(env.stack), n).pos
    ensures env.stack == SlotValueAt(lx.src, old(lx.Pos()), old(env.stack), n).stack
    ensures env.calls == old(env.calls) + Issued(SlotValueAt(lx.src, old(lx.Pos()), old(env.stack), n).res)
  {
    var v := Value(lx, env);
    match v {
      case Fail(m) =>
        r := Fail(m);
      case Ok(Trig(_)) =>
        r := Fail(SlotNeedsBar);
      case Ok(Bar(len, evs)) =>
        env.Forward(AssignSlot(n, len, evs));
        r := Ok(());
    }
  }

  /** `root`: statements until the end of input or the first error. */
  method Root(lx: Lexer, env: Env, depth: nat) returns (r: Result<(), ParseError>)
    modifies lx, env
    ensures var o := RootAt(depth, env.files, lx.src, old(lx.Pos()), old(env.stack));
            && r == o.res && lx.Pos() == o.pos && env.stack == o.stack
            && env.calls == old(env.calls) + o.calls
    decreases depth, lx.Remaining(), 3
  {
    ghost var r0 := RootAt(depth, env.files, lx.src, lx.Pos(), env.stack);
    ghost var rem := lx.Remaining();
    ghost var done: seq<RtCmd> := [];
    while true
      invariant lx.Remaining() <= rem
      invariant env.calls == old(env.calls) + done
      invariant RootRest(depth, env.files, lx.src, lx.Pos(), env.stack, r0, done)
      decreases lx.Remaining()
    {
      ghost var so := StatementAt(depth, env.files, lx.src, lx.Pos(), env.stack).0;
      RootLoopStep(depth, env.files, lx.src, lx.Pos(), env.stack, r0, done);
      var more;
      r, more := Statement(lx, env, depth);
      CallsAssoc(old(env.calls), done, so.calls);
      if !more {
        return;
      }
      done := done + so.calls;
    }
  }

  /** One round of the loop of `root`. */
  method Statement(lx: Lexer, env: Env, depth: nat) returns (r: Result<(), ParseError>, more: bool)
    modifies lx, env
    ensures var (o, m) := StatementAt(depth, env.files, lx.src, old(lx.Pos()), old(env.stack));
            && r == o.res && more == m && lx.Pos() == o.pos && env.stack == o.stack
            && env.calls == old(env.calls) + o.calls
    decreases depth, lx.Remaining(), 2
  {
    var t := lx.Lookahead();
    ghost var p, st := lx.Pos(), env.stack;
    if t != DoFile {
      assert StatementAt(depth, env.files, lx.src, p, st) == LocalStatementAt(lx.src, p, st);
    }
    if t == Eol {
      lx.Advance();
      return Ok(()), true;
    } else if t == Sym || t == Digits {
      lx.Advance();
      var a := Assignment(lx, env);
      r, more := if a.Ok? then Ok(()) else Local(a.error), a.Ok?;
    } else if t == OpenAng {
      var a := SlotAssignment(lx, env);
      r, more := if a.Ok? then Ok(()) else Local(a.error), a.Ok?;
    } else if IsCommand(t) {
      var a := RunCommand(lx, env, t);
      r, more := if a.Ok? then Ok(()) else Local(a.error), a.Ok?;
    } else if t == DoFile {
      StatementDoFile(depth, env.files, lx.src, lx.Pos(), env.stack);
      r := KwDoFile(lx, env, depth);
      more := r.Ok?;
    } else if t == Eof {
      return Ok(()), false;
    } else {
      return Local(UnknownSymbol), false;
    }
  }

  /** `keywords::do_file`: the path runs from the token after the keyword
      to the line end; the loop that finds the line end consumes one token
      before it first looks. */
  method KwDoFile(lx: Lexer, env: Env, depth: nat) returns (r: Result<(), ParseError>)
    modifies lx, env
    ensures var o := DoFileAt(depth, env.files, lx.src, old(lx.Pos()), old(env.stack));
            && r == o.res && lx.Pos() == o.pos && env.stack == o.stack
            && env.calls == old(env.calls) + o.calls
    decreases depth, lx.Remaining(), 1
  {
    ghost var p := lx.Pos();
    DoFilePositions(depth, env.files, lx.src, p, env.stack);
    lx.Advance();
    var t := lx.Lookahead();
    if t == Eof || t == Eol {
      return Local(NeedPath);
    }
    lx.Advance();
    var start := lx.SpanStart();
    assert start == SpanOf(lx.src, p + 1).start;
    var end := ScanToLineEnd(lx);
    assert end == SpanOf(lx.src, PathEnd(lx.src, p + 3) - 1).end;
    lx.Advance();
    assert Cut(lx.Src(), start, end) == PathOf(lx.src, p);
    r := EnvDoFile(env, Cut(lx.Src(), start, end), depth);
  }

  /** The loop of `do_file` that finds the end of the path: it advances
      before it first looks, stops with a line end or the end of input as
      the lookahead, and yields the end of the token handed out last. */
  method ScanToLineEnd(lx: Lexer) returns (end: nat)
    modifies lx
    ensures lx.Pos() == PathEnd(lx.src, old(lx.Pos()) + 1)
    ensures end == SpanAfter(lx.src, lx.Pos()).end
  {
    lx.Advance();
    while lx.Lookahead() != Eof && lx.Lookahead() != Eol
      invariant old(lx.Pos()) + 1 <= lx.Pos()
      invariant PathEnd(lx.src, lx.Pos()) == PathEnd(lx.src, old(lx.Pos()) + 1)
      decreases lx.Remaining()
    {
      lx.Advance();
    }
    end := lx.SpanEnd();
  }

  /** `Env::do_file`: the file is tokenized afresh and its statements run
      against the same environment; an error of its own is tagged with its
      text and the span where its lexer stopped. */
  method EnvDoFile(env: Env, path: string, depth: nat) returns (r: Result<(), ParseError>)
    modifies env
    ensures var o := IncludeFile(depth, env.files, path, old(env.stack));
            && r == o.res && env.stack == o.stack
            && env.calls == old(env.calls) + o.calls
    decreases depth, 0, 0
  {
    if path !in env.files {
      IncludeMissing(depth, env.files, path, env.stack);
      return Local(CantOpenFile);
    }
    if depth == 0 {
      IncludeBeyondDepth(env.files, path, env.stack);
      return Local(IncludeTooDeep);
    }
    r := RunFile(env, path, depth);
  }

  /** The included file's statements, each error of its own tagged with
      its text and the span where its lexer stopped. */
  method RunFile(env: Env, path: string, depth: nat) returns (r: Result<(), ParseError>)
    requires path in env.files && depth > 0
    modifies env
    ensures var o := IncludeFile(depth, env.files, path, old(env.stack));
            && r == o.res && env.stack == o.stack
            && env.calls == old(env.calls) + o.calls
    decreases depth - 1, |env.files[path].lexemes| + 1, 0
  {
    IncludeOpens(depth, env.files, path, env.stack);
    var f := env.files[path];
    var sub := new Lexer(f);
    var res := Root(sub, env, depth - 1);
    r := SubResult(res, sub.src, sub.Pos());
  }
}
