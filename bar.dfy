/** The bar parser (lang/src/bar.rs): `[ ... ]` holding rests (`-`), and
    names of triggers or bars followed by ties (`=`) and an optional legato
    mark (`>`), compiled into a `LineBuilder`.

    Each parser is a method over the lexer and the builder, proved equal to
    a specification function on (token index, builder state). */
module BarParser {
  import opened Base
  import opened Lex
  import opened SeqTypes
  import opened Environment
  import opened Err

  /** The outcome of a parse: the result, the index of the lookahead
      afterwards, and the builder state afterwards. */
  datatype BarOut = BarOut(res: Result<(), Message>, pos: nat, line: Line)

  /** The number of consecutive `t` tokens from index `p` on. */
  function Run(s: Source, p: nat, t: Token): nat
    decreases |s.lexemes| - p
  {
    if p < |s.lexemes| && s.lexemes[p].tok == t then 1 + Run(s, p + 1, t) else 0
  }

  /** A run is non-empty exactly when it starts with `t`, stays inside the
      stream, and is followed by something else. */
  lemma {:induction false} RunEnds(s: Source, p: nat, t: Token)
    requires t != Eof
    ensures var n := Run(s, p, t);
            && (n > 0 <==> TokAt(s, p) == t)
            && (n == 0 || p + n <= |s.lexemes|)
            && TokAt(s, p + n) != t
    decreases |s.lexemes| - p
  {
    if p < |s.lexemes| && s.lexemes[p].tok == t {
      RunEnds(s, p + 1, t);
    }
  }

  /** Every token of a run is `t`. */
  lemma {:induction false} RunTokens(s: Source, p: nat, t: Token, i: nat)
    requires t != Eof
    requires p <= i < p + Run(s, p, t)
    ensures TokAt(s, i) == t
    decreases |s.lexemes| - p
  {
    if i > p {
      RunTokens(s, p + 1, t, i);
    }
  }

  /** A stretch of `n` tokens `t` followed by another token is a run of
      length `n`. */
  lemma {:induction false} RunOfPrefix(s: Source, p: nat, n: nat, t: Token)
    requires t != Eof
    requires forall i :: p <= i < p + n ==> TokAt(s, i) == t
    requires TokAt(s, p + n) != t
    ensures Run(s, p, t) == n
    decreases n
  {
    if n > 0 {
      assert TokAt(s, p) == t;
      RunOfPrefix(s, p + 1, n - 1, t);
    } else {
      assert TokAt(s, p) != t;
    }
  }

  lemma RunStep(s: Source, p: nat, t: Token)
    requires t != Eof && TokAt(s, p) == t
    ensures Run(s, p, t) == 1 + Run(s, p + 1, t)
  {
  }

  /** `bar_rests` from index `p`: a run of N dashes is N steps of rest. */
  function RestsStep(s: Source, p: nat, l: Line): (o: BarOut)
    ensures o.pos > p
    ensures o.res.Ok? <==> TokAt(s, p) == Dash
    ensures o.res.Ok? ==> o.pos == p + Run(s, p, Dash) && o.line == AfterRests(l, Run(s, p, Dash))
    ensures o.res.Fail? ==> o.line == l
  {
    if TokAt(s, p) != Dash then BarOut(Fail(MissedDash), p + 1, l)
    else
      var n := Run(s, p, Dash);
      BarOut(Ok(()), p + n, AfterRests(l, n))
  }

  /** The builder change for one named value followed by `ties` ties. */
  function Place(l: Line, v: Val, ties: nat, legato: bool): Line
  {
    match v
    case Trig(t) => AfterTrig(l, t.nn, t.vel, ties, legato)
    case Bar(len, evs) => AfterRests(AfterMerge(l, len, evs), ties)
  }

  /** `bar_trigger` from index `p` (the name), under the scopes `st`. */
  function TriggerStep(s: Source, p: nat, st: seq<Scope>, l: Line): (o: BarOut)
    ensures o.pos > p
    ensures o.res.Ok? <==> Resolve(st, TextAt(s, p)).Some?
    ensures o.res.Fail? ==> o.line == l && o.pos == p + 1
  {
    match Resolve(st, TextAt(s, p))
    case None => BarOut(Fail(UnknownName), p + 1, l)
    case Some(v) => TiesStep(s, p + 1, v, l)
  }

  /** What follows a resolved name from index `p`: its ties and legato mark. */
  function TiesStep(s: Source, p: nat, v: Val, l: Line): (o: BarOut)
    ensures o.res.Ok? && o.pos >= p
  {
    var ties := Run(s, p, Eq);
    if TokAt(s, p + ties) == CloseAng then BarOut(Ok(()), p + ties + 1, Place(l, v, ties, true))
    else BarOut(Ok(()), p + ties, Place(l, v, ties, false))
  }

  /** A trigger named with k ties and an optional `>` is placed as one note
      of duration k + 1, legato exactly when the `>` is there; a bar is
      merged and followed by k steps of rest, the `>` being consumed but
      ignored. */
  lemma TriggerPlacement(s: Source, p: nat, st: seq<Scope>, l: Line)
    requires Resolve(st, TextAt(s, p)).Some?
    ensures var v := Resolve(st, TextAt(s, p)).value;
            var k := Run(s, p + 1, Eq);
            var legato := TokAt(s, p + 1 + k) == CloseAng;
            var o := TriggerStep(s, p, st, l);
            && o.res.Ok?
            && o.pos == p + 1 + k + (if legato then 1 else 0)
            && (v.Trig? ==> o.line == AfterTrig(l, v.trig.nn, v.trig.vel, k, legato))
            && (v.Bar? ==> o.line == AfterRests(AfterMerge(l, v.len, v.evs), k))
  {
  }

  /** One round of the item loop of `parse` at index `p`, and whether the
      loop goes on. */
  function ItemStep(s: Source, p: nat, st: seq<Scope>, l: Line): (o: (BarOut, bool))
    ensures o.1 ==> o.0.res.Ok? && o.0.pos > p
  {
    var t := TokAt(s, p);
    if t == CloseSq then (BarOut(Ok(()), p + 1, l), false)
    else if t == Dash then
      var o := RestsStep(s, p, l);
      (o, o.res.Ok?)
    else if t == Sym || t == Digits then
      var o := TriggerStep(s, p, st, l);
      (o, o.res.Ok?)
    else if t == Err then (BarOut(Fail(BadSymbol), p, l), false)
    else if t == Eof then (BarOut(Fail(InputEnded), p, l), false)
    else (BarOut(Fail(NeedBarItem), p + 1, l), false)
  }

  /** The item loop of `parse` from index `p` up to the closing `]`. */
  function Items(s: Source, p: nat, st: seq<Scope>, l: Line): (o: BarOut)
    ensures o.pos >= p
    decreases if p < |s.lexemes| then |s.lexemes| - p else 0
  {
    var (o, more) := ItemStep(s, p, st, l);
    if more then
      assert TokAt(s, p) != Eof;
      Items(s, o.pos, st, o.line)
    else o
  }

  lemma ItemsNext(s: Source, p: nat, st: seq<Scope>, l: Line)
    ensures var o := ItemStep(s, p, st, l);
            && Items(s, p, st, l) == (if o.1 then Items(s, o.0.pos, st, o.0.line) else o.0)
            && (o.1 ==> p < |s.lexemes|)
  {
  }

  /** `bar::parse` from index `p`. */
  function BarSpec(s: Source, p: nat, st: seq<Scope>, l: Line): (o: BarOut)
    ensures TokAt(s, p) != OpenSq ==> o == BarOut(Fail(MissedOpenSq), p + 1, l)
    ensures o.pos > p
  {
    if TokAt(s, p) != OpenSq then BarOut(Fail(MissedOpenSq), p + 1, l)
    else Items(s, p + 1, st, l)
  }

  /** A bar that parses ends just after a `]`, and ends at the first `]`
      that is not inside a run it consumed. */
  lemma {:induction false} ItemsEndAtClose(s: Source, p: nat, st: seq<Scope>, l: Line)
    requires Items(s, p, st, l).res.Ok?
    ensures var o := Items(s, p, st, l); o.pos > p && TokAt(s, o.pos - 1) == CloseSq
    decreases if p < |s.lexemes| then |s.lexemes| - p else 0
  {
    var (o, more) := ItemStep(s, p, st, l);
    if more {
      assert TokAt(s, p) != Eof;
      ItemsEndAtClose(s, o.pos, st, o.line);
    }
  }

  /** Errors leave the position where the source says: `Err` and end of
      input are not consumed, any other unexpected token is. */
  lemma ItemErrors(s: Source, p: nat, st: seq<Scope>, l: Line)
    ensures TokAt(s, p) == Err ==> Items(s, p, st, l) == BarOut(Fail(BadSymbol), p, l)
    ensures TokAt(s, p) == Eof ==> Items(s, p, st, l) == BarOut(Fail(InputEnded), p, l)
    ensures TokAt(s, p) !in {CloseSq, Dash, Sym, Digits, Err, Eof} ==>
              Items(s, p, st, l)
              == BarOut(Fail(NeedBarItem), p + 1, l)
  {
  }

  /** Placing a well-formed value keeps the builder's invariant. */
  lemma PlaceKeepsInvariant(l: Line, v: Val, ties: nat, legato: bool)
    requires LineOk(l) && ValOk(v)
    ensures LineOk(Place(l, v, ties, legato))
  {
    match v
    case Trig(t) => TrigKeepsInvariant(l, t.nn, t.vel, ties, legato);
    case Bar(len, evs) =>
      MergeKeepsInvariant(l, len, evs);
      BuilderKeepsInvariant(AfterMerge(l, len, evs), 0, 0, 0, false, ties, 0, map[]);
  }

  /** Under well-formed scopes, the item loop keeps the builder's
      invariant: a bar compiles to events before its length, each at least
      one step long. */
  lemma {:induction false} ItemsKeepInvariant(s: Source, p: nat, st: seq<Scope>, l: Line)
    requires ScopesOk(st) && LineOk(l)
    ensures LineOk(Items(s, p, st, l).line)
    decreases if p < |s.lexemes| then |s.lexemes| - p else 0
  {
    ItemStepKeepsInvariant(s, p, st, l);
    ItemsNext(s, p, st, l);
    var (o, more) := ItemStep(s, p, st, l);
    if more {
      ItemsKeepInvariant(s, o.pos, st, o.line);
    }
  }

  /** One item keeps a builder well formed. */
  lemma ItemStepKeepsInvariant(s: Source, p: nat, st: seq<Scope>, l: Line)
    requires ScopesOk(st) && LineOk(l)
    ensures LineOk(ItemStep(s, p, st, l).0.line)
  {
    var t := TokAt(s, p);
    if t == Dash {
      ItemIsRests(s, p, st, l);
      RestsKeepInvariant(s, p, l);
    } else if t == Sym || t == Digits {
      ItemIsTrigger(s, p, st, l);
      TriggerKeepsInvariant(s, p, st, l);
    }
  }

  /** A `-` item is a run of rests. */
  lemma ItemIsRests(s: Source, p: nat, st: seq<Scope>, l: Line)
    requires TokAt(s, p) == Dash
    ensures ItemStep(s, p, st, l).0 == RestsStep(s, p, l)
  {
  }

  /** A name item is a trigger or a bar placed. */
  lemma ItemIsTrigger(s: Source, p: nat, st: seq<Scope>, l: Line)
    requires TokAt(s, p) == Sym || TokAt(s, p) == Digits
    ensures ItemStep(s, p, st, l).0 == TriggerStep(s, p, st, l)
  {
  }

  /** A run of rests keeps a builder well formed. */
  lemma RestsKeepInvariant(s: Source, p: nat, l: Line)
    requires LineOk(l)
    ensures LineOk(RestsStep(s, p, l).line)
  {
    BuilderKeepsInvariant(l, 0, 0, 0, false, Run(s, p, Dash), 0, map[]);
  }

  /** Under well-formed scopes, a named item keeps a builder well formed. */
  lemma TriggerKeepsInvariant(s: Source, p: nat, st: seq<Scope>, l: Line)
    requires ScopesOk(st) && LineOk(l)
    ensures LineOk(TriggerStep(s, p, st, l).line)
  {
    var name := TextAt(s, p);
    if Resolve(st, name).Some? {
      var v := Resolve(st, name).value;
      var k := Run(s, p + 1, Eq);
      var legato := TokAt(s, p + 1 + k) == CloseAng;
      ResolveOk(st, name);
      PlaceKeepsInvariant(l, v, k, legato);
      TriggerIsPlace(s, p, st, l);
    }
  }

  /** A name that resolves is placed with the ties and `>` after it. */
  lemma TriggerIsPlace(s: Source, p: nat, st: seq<Scope>, l: Line)
    requires Resolve(st, TextAt(s, p)).Some?
    ensures var k := Run(s, p + 1, Eq);
            TriggerStep(s, p, st, l).line
            == Place(l, Resolve(st, TextAt(s, p)).value, k, TokAt(s, p + 1 + k) == CloseAng)
  {
    assert TriggerStep(s, p, st, l) == TiesStep(s, p + 1, Resolve(st, TextAt(s, p)).value, l);
  }

  lemma BarKeepsInvariant(s: Source, p: nat, st: seq<Scope>, l: Line)
    requires ScopesOk(st) && LineOk(l)
    ensures LineOk(BarSpec(s, p, st, l).line)
  {
    if TokAt(s, p) == OpenSq {
      BarIsItems(s, p, st, l);
      ItemsKeepInvariant(s, p + 1, st, l);
    }
  }

  /** A bar that opens with `[` is the item loop after it. */
  lemma BarIsItems(s: Source, p: nat, st: seq<Scope>, l: Line)
    requires TokAt(s, p) == OpenSq
    ensures BarSpec(s, p, st, l) == Items(s, p + 1, st, l)
  {
  }

  /** One item moves the cursor by the same amount, succeeds or fails alike
      and stops at the same token whatever the builder held before. */
  lemma ItemStepShift(s: Source, p: nat, st: seq<Scope>, l1: Line, l2: Line)
    ensures var (o1, m1) := ItemStep(s, p, st, l1);
            var (o2, m2) := ItemStep(s, p, st, l2);
            && o1.res == o2.res && o1.pos == o2.pos && m1 == m2
            && o1.line.count + l2.count == o2.line.count + l1.count
  {
  }

  /** The same for the whole item loop: what a bar does to the cursor does
      not depend on where the cursor was. */
  lemma {:induction false} ItemsShift(s: Source, p: nat, st: seq<Scope>, l1: Line, l2: Line)
    ensures var o1 := Items(s, p, st, l1);
            var o2 := Items(s, p, st, l2);
            && o1.res == o2.res && o1.pos == o2.pos
            && o1.line.count + l2.count == o2.line.count + l1.count
    decreases if p < |s.lexemes| then |s.lexemes| - p else 0
  {
    ItemStepShift(s, p, st, l1, l2);
    var (o1, more) := ItemStep(s, p, st, l1);
    var (o2, _) := ItemStep(s, p, st, l2);
    if more {
      assert TokAt(s, p) != Eof;
      ItemsShift(s, o1.pos, st, o1.line, o2.line);
    }
  }

  /** The number of steps the bar at index `p` spans: how far it moves the
      cursor of a fresh builder. */
  function BarWidth(s: Source, p: nat, st: seq<Scope>): nat
  {
    BarSpec(s, p, st, EmptyLine).line.count
  }

  /** A bar parsed into any builder succeeds or fails as it does into a
      fresh one, stops at the same token, and moves the cursor by its
      width. */
  lemma {:induction false} BarShift(s: Source, p: nat, st: seq<Scope>, l: Line)
    ensures var o := BarSpec(s, p, st, l);
            var e := BarSpec(s, p, st, EmptyLine);
            && o.res == e.res && o.pos == e.pos
            && o.line.count == l.count + BarWidth(s, p, st)
  {
    if TokAt(s, p) == OpenSq {
      OpenBarShift(s, p, st, l);
    }
  }

  /** `BarShift` for a bar that opens with `[`: both builders run the same
      item loop. */
  lemma OpenBarShift(s: Source, p: nat, st: seq<Scope>, l: Line)
    requires TokAt(s, p) == OpenSq
    ensures var o := BarSpec(s, p, st, l);
            var e := BarSpec(s, p, st, EmptyLine);
            && o.res == e.res && o.pos == e.pos
            && o.line.count == l.count + e.line.count
  {
    ItemsShift(s, p + 1, st, l, EmptyLine);
  }

  /** An item that succeeds hands the rest of the bar to the next one. */
  lemma ItemsVia(s: Source, p: nat, st: seq<Scope>, l: Line, q: nat, m: Line)
    requires ItemStep(s, p, st, l) == (BarOut(Ok(()), q, m), true)
    ensures Items(s, p, st, l) == Items(s, q, st, m)
  {
    ItemsNext(s, p, st, l);
  }

  /** An item that ends the loop is what the bar comes to. */
  lemma ItemsStop(s: Source, p: nat, st: seq<Scope>, l: Line, o: BarOut)
    requires ItemStep(s, p, st, l) == (o, false)
    ensures Items(s, p, st, l) == o
  {
    ItemsNext(s, p, st, l);
  }

  /** `[X - - -]`, the first bar of the source's test. */
  const RestsBar: Source :=
    Source("[X - - -]",
           [Lexeme(OpenSq, Range(0, 1)), Lexeme(Sym, Range(1, 2)), Lexeme(Dash, Range(3, 4)),
            Lexeme(Dash, Range(5, 6)), Lexeme(Dash, Range(7, 8)), Lexeme(CloseSq, Range(8, 9))],
           Range(9, 9))

  /** `X` bound to a trigger, as the test binds it. */
  const TestScopes: seq<Scope> := [map["X" := Trig(Trigger(1, 1))]]

  /** The note `X` places when it is not tied: one step long. */
  const TestNote: SeqNote := SeqNote(1, 1, 1, false)

  /** `X` with no tie after it places one note of one step at offset 0. */
  lemma RestsFirstItem()
    ensures ItemStep(RestsBar, 1, TestScopes, EmptyLine)
            == (BarOut(Ok(()), 2, Line(1, 0, map[0 := [TestNote]])), true)
  {
    TextIs(RestsBar, 1, "X");
    assert Run(RestsBar, 2, Eq) == 0;
    assert [] + [TestNote] == [TestNote];
  }

  /** The three dashes are one run of three steps of rest. */
  lemma RestsDashItem(l: Line)
    ensures ItemStep(RestsBar, 2, TestScopes, l) == (BarOut(Ok(()), 5, AfterRests(l, 3)), true)
  {
    assert Run(RestsBar, 5, Dash) == 0;
    assert Run(RestsBar, 2, Dash) == 3;
  }

  /** Dashes are rests, not holds: `[X - - -]` is four steps long with one
      note, of one step, at offset 0. */
  lemma RestsBarScenario()
    ensures var o := BarSpec(RestsBar, 0, TestScopes, EmptyLine);
            && o.res.Ok? && o.pos == 6
            && LineLength(o.line) == 4
            && o.line.evs == map[0 := [SeqNote(1, 1, 1, false)]]
  {
    var s, st := RestsBar, TestScopes;
    var l1 := Line(1, 0, map[0 := [TestNote]]);
    var l2 := Line(4, 0, map[0 := [TestNote]]);
    RestsFirstItem();
    RestsDashItem(l1);
    ItemsVia(s, 1, st, EmptyLine, 2, l1);
    ItemsVia(s, 2, st, l1, 5, l2);
    ItemsStop(s, 5, st, l2, BarOut(Ok(()), 6, l2));
  }

  /** `[bounce bounce bounce bounce]`, the second bar of the test. */
  const BounceBar: Source :=
    Source("[bounce bounce bounce bounce]",
           [Lexeme(OpenSq, Range(0, 1)), Lexeme(Sym, Range(1, 7)), Lexeme(Sym, Range(8, 14)),
            Lexeme(Sym, Range(15, 21)), Lexeme(Sym, Range(22, 28)), Lexeme(CloseSq, Range(28, 29))],
           Range(29, 29))

  /** The scopes of the test once `bounce` is bound to what `[X - - -]`
      compiles to. */
  const BounceScopes: seq<Scope> := [TestScopes[0]["bounce" := Bar(4, map[0 := [TestNote]])]]

  /** What the four `bounce` items build: one note at each of 0, 4, 8 and
      12, the cursor at 16. */
  const BounceLine: Line :=
    Line(16, 0, map[0 := [TestNote], 4 := [TestNote], 8 := [TestNote], 12 := [TestNote]])

  /** The first two `bounce` items of `BounceBar`. */
  lemma BounceFirstItems()
    ensures Items(BounceBar, 1, BounceScopes, EmptyLine)
            == Items(BounceBar, 3, BounceScopes, Line(8, 0, map[0 := [TestNote], 4 := [TestNote]]))
  {
    var l1 := Line(4, 0, map[0 := [TestNote]]);
    BounceItem(1, EmptyLine, l1);
    BounceItem(2, l1, Line(8, 0, map[0 := [TestNote], 4 := [TestNote]]));
  }

  /** The last two `bounce` items of `BounceBar` and its `]`. */
  lemma BounceLastItems()
    ensures Items(BounceBar, 3, BounceScopes, Line(8, 0, map[0 := [TestNote], 4 := [TestNote]]))
            == BarOut(Ok(()), 6, BounceLine)
  {
    var l2 := Line(8, 0, map[0 := [TestNote], 4 := [TestNote]]);
    var l3 := Line(12, 0, map[0 := [TestNote], 4 := [TestNote], 8 := [TestNote]]);
    BounceItem(3, l2, l3);
    BounceItem(4, l3, BounceLine);
    ItemsStop(BounceBar, 5, BounceScopes, BounceLine, BarOut(Ok(()), 6, BounceLine));
  }

  /** A bar used as an item is merged whole: with `bounce` bound to what
      `[X - - -]` compiles to (`RestsBarScenario`), four times `bounce` is
      sixteen steps with one note at each of 0, 4, 8 and 12. */
  lemma BounceBarScenario()
    ensures var st := [TestScopes[0]["bounce" := Bar(4, map[0 := [SeqNote(1, 1, 1, false)]])]];
            var o := BarSpec(BounceBar, 0, st, EmptyLine);
            && o.res.Ok? && o.pos == 6
            && LineLength(o.line) == 16
            && o.line.evs == map[0 := [SeqNote(1, 1, 1, false)], 4 := [SeqNote(1, 1, 1, false)],
                                 8 := [SeqNote(1, 1, 1, false)], 12 := [SeqNote(1, 1, 1, false)]]
  {
    BounceFirstItems();
    BounceLastItems();
  }

  /** Tokens 1 to 4 of `BounceBar` are the name `bounce`. */
  lemma BounceTokens(p: nat)
    requires 1 <= p <= 4
    ensures TokAt(BounceBar, p) == Sym && TextAt(BounceBar, p) == "bounce"
  {
    if p == 1 {
      TextIs(BounceBar, 1, "bounce");
    } else if p == 2 {
      TextIs(BounceBar, 2, "bounce");
    } else if p == 3 {
      TextIs(BounceBar, 3, "bounce");
    } else {
      TextIs(BounceBar, 4, "bounce");
    }
  }

  /** No `bounce` of `BounceBar` is followed by a tie. */
  lemma BounceUntied(p: nat)
    requires 1 <= p <= 4
    ensures TokAt(BounceBar, p + 1) != Eq && Run(BounceBar, p + 1, Eq) == 0
  {
  }

  /** The text of token `i` is `w` when its span covers `w` character by
      character. */
  lemma TextIs(s: Source, i: nat, w: string)
    requires i < |s.lexemes| && SpanIn(s.lexemes[i].span, s.text)
    requires s.lexemes[i].span.end - s.lexemes[i].span.start == |w|
    requires forall k :: 0 <= k < |w| ==> s.text[s.lexemes[i].span.start + k] == w[k]
    ensures TextAt(s, i) == w
  {
  }

  /** Merging the one-note bar of length 4 at a free cursor adds that note
      there and moves the cursor by 4. */
  lemma MergeOneNote(l: Line, n: SeqNote)
    requires l.count !in l.evs
    ensures AfterMerge(l, 4, map[0 := [n]]) == Line(l.count + 4, l.max, l.evs[l.count := [n]])
  {
    var other := map[0 := [n]];
    assert NotesAt(l.evs, l.count) + [n] == [n];
    var e := l.evs[l.count := [n]];
    assert AfterMerge(l, 1, other) == Line(l.count + 1, l.max, e);
    assert AfterMerge(l, 2, other) == Line(l.count + 2, l.max, e);
    assert AfterMerge(l, 3, other) == Line(l.count + 3, l.max, e);
  }

  /** One `bounce` item of `BounceBar`: the one-note bar merged at the
      cursor. */
  lemma BounceItem(p: nat, l: Line, m: Line)
    requires 1 <= p <= 4
    requires l.count !in l.evs
    requires m == Line(l.count + 4, l.max, l.evs[l.count := [TestNote]])
    ensures ItemStep(BounceBar, p, BounceScopes, l) == (BarOut(Ok(()), p + 1, m), true)
    ensures Items(BounceBar, p, BounceScopes, l) == Items(BounceBar, p + 1, BounceScopes, m)
  {
    BounceTokens(p);
    BounceUntied(p);
    MergeOneNote(l, TestNote);
    assert Resolve(BounceScopes, "bounce") == Some(Bar(4, map[0 := [TestNote]]));
    ItemsVia(BounceBar, p, BounceScopes, l, p + 1, m);
  }

  /* ------------------------------------------------------------------ */
  /* The parsers as the source has them. */

  /** The counting loops of `bar_rests` and `bar_trigger`: consume the run
      of `t` tokens at the lookahead and return its length. */
  method CountRun(lx: Lexer, t: Token) returns (n: nat)
    requires t != Eof
    modifies lx
    ensures n == Run(lx.src, old(lx.Pos()), t) && lx.Pos() == old(lx.Pos()) + n
  {
    ghost var p := lx.Pos();
    n := 0;
    while lx.Lookahead() == t
      invariant lx.Pos() == p + n
      invariant forall i :: p <= i < p + n ==> TokAt(lx.src, i) == t
      decreases lx.Remaining()
    {
      n := n + 1;
      lx.Advance();
    }
    RunOfPrefix(lx.src, p, n, t);
  }

  method BarRests(lx: Lexer, line: LineBuilder) returns (r: Result<(), Message>)
    modifies lx, line
    ensures r == RestsStep(lx.src, old(lx.Pos()), old(line.View())).res
    ensures lx.Pos() == RestsStep(lx.src, old(lx.Pos()), old(line.View())).pos
    ensures line.View() == RestsStep(lx.src, old(lx.Pos()), old(line.View())).line
  {
    ghost var p := lx.Pos();
    var e := lx.Expect(Dash);
    if e.Fail? {
      return Fail(MissedDash);
    }
    RunStep(lx.src, p, Dash);
    var more := CountRun(lx, Dash);
    ghost var n := Run(lx.src, p, Dash);
    assert 1 + more == n;
    line.Rests(1 + more);
    r := Ok(());
  }

  /** The builder calls `bar_trigger` ends with. */
  method PlaceValue(line: LineBuilder, v: Val, ties: nat, legato: bool)
    modifies line
    ensures line.View() == Place(old(line.View()), v, ties, legato)
  {
    match v {
      case Trig(t) =>
        line.Trig(t.nn, t.vel, ties, legato);
      case Bar(len, evs) =>
        line.Merge(len, evs);
        line.Rests(ties);
    }
  }

  method BarTrigger(lx: Lexer, env: Env, line: LineBuilder) returns (r: Result<(), Message>)
    modifies lx, line
    ensures r == TriggerStep(lx.src, old(lx.Pos()), env.stack, old(line.View())).res
    ensures lx.Pos() == TriggerStep(lx.src, old(lx.Pos()), env.stack, old(line.View())).pos
    ensures line.View() == TriggerStep(lx.src, old(lx.Pos()), env.stack, old(line.View())).line
  {
    lx.Advance();
    var nm := lx.Slice();
    var val := env.Lookup(nm);
    if val.None? {
      return Fail(UnknownName);
    }
    TiesAndPlace(lx, line, val.value);
    r := Ok(());
  }

  /** The ties after a resolved name, and the legato mark after them. */
  method ReadTies(lx: Lexer) returns (ties: nat, legato: bool)
    modifies lx
    ensures ties == Run(lx.src, old(lx.Pos()), Eq)
    ensures legato == (TokAt(lx.src, old(lx.Pos()) + ties) == CloseAng)
    ensures legato ==> lx.Pos() == old(lx.Pos()) + ties + 1
    ensures !legato ==> lx.Pos() == old(lx.Pos()) + ties
  {
    ties := CountRun(lx, Eq);
    legato := lx.Lookahead() == CloseAng;
    if legato {
      lx.Advance();
    }
  }

  /** The part of `bar_trigger` after a successful lookup. */
  method TiesAndPlace(lx: Lexer, line: LineBuilder, v: Val)
    modifies lx, line
    ensures lx.Pos() == TiesStep(lx.src, old(lx.Pos()), v, old(line.View())).pos
    ensures line.View() == TiesStep(lx.src, old(lx.Pos()), v, old(line.View())).line
  {
    var ties, legato := ReadTies(lx);
    PlaceValue(line, v, ties, legato);
  }

  /** The body of the item loop of `parse`. */
  method ParseItem(lx: Lexer, env: Env, line: LineBuilder) returns (r: Result<(), Message>, more: bool)
    modifies lx, line
    ensures r == ItemStep(lx.src, old(lx.Pos()), env.stack, old(line.View())).0.res
    ensures lx.Pos() == ItemStep(lx.src, old(lx.Pos()), env.stack, old(line.View())).0.pos
    ensures line.View() == ItemStep(lx.src, old(lx.Pos()), env.stack, old(line.View())).0.line
    ensures more == ItemStep(lx.src, old(lx.Pos()), env.stack, old(line.View())).1
  {
    var t := lx.Lookahead();
    if t == CloseSq {
      lx.Advance();
      return Ok(()), false;
    } else if t == Dash {
      r := BarRests(lx, line);
      more := r.Ok?;
    } else if t == Sym || t == Digits {
      r := BarTrigger(lx, env, line);
      more := r.Ok?;
    } else if t == Err {
      return Fail(BadSymbol), false;
    } else if t == Eof {
      return Fail(InputEnded), false;
    } else {
      lx.Advance();
      return Fail(NeedBarItem), false;
    }
  }

  /** `bar::parse`: the environment is only read. */
  method Parse(lx: Lexer, env: Env, line: LineBuilder) returns (r: Result<(), Message>)
    modifies lx, line
    ensures r == BarSpec(lx.src, old(lx.Pos()), env.stack, old(line.View())).res
    ensures lx.Pos() == BarSpec(lx.src, old(lx.Pos()), env.stack, old(line.View())).pos
    ensures line.View() == BarSpec(lx.src, old(lx.Pos()), env.stack, old(line.View())).line
  {
    ghost var p := lx.Pos();
    ghost var l0 := line.View();
    var e := lx.Expect(OpenSq);
    if e.Fail? {
      return Fail(MissedOpenSq);
    }
    while true
      invariant Items(lx.src, p + 1, env.stack, l0) == Items(lx.src, lx.Pos(), env.stack, line.View())
      decreases lx.Remaining()
    {
      ItemsNext(lx.src, lx.Pos(), env.stack, line.View());
      var more;
      r, more := ParseItem(lx, env, line);
      if !more {
        return;
      }
    }
  }
}
