/** The values the language computes (lang/src/seq_types.rs): triggers,
    sounding notes, the line builder that compiles bars into a step-indexed
    event map, and the textual rendering of a value. */
module SeqTypes {
  import opened Base
  import opened Text

  /** A pitch and a velocity. */
  datatype Trigger = Trigger(nn: u8, vel: u8)

  /** One sounding event of a compiled bar; `duration` is in steps. */
  datatype SeqNote = SeqNote(nn: u8, vel: u8, duration: nat, legato: bool)

  /** Step offset to the notes that start there, in insertion order. */
  type Events = map<nat, seq<SeqNote>>

  /** The value the language binds to a name: a compiled bar (its length and
      events) or a trigger. */
  datatype Val = Bar(len: nat, evs: Events) | Trig(trig: Trigger)

  /** The notes at offset `k`, none when the offset has no entry. */
  function NotesAt(evs: Events, k: nat): seq<SeqNote>
  {
    if k in evs then evs[k] else []
  }

  /** Every note lasts at least one step (the builder always stores dur + 1). */
  ghost predicate PositiveDurations(evs: Events)
  {
    forall k, i :: k in evs && 0 <= i < |evs[k]| ==> evs[k][i].duration >= 1
  }

  /** A compiled bar: every offset lies before its length. */
  ghost predicate BarOk(len: nat, evs: Events)
  {
    (forall k :: k in evs ==> k < len) && PositiveDurations(evs)
  }

  ghost predicate ValOk(v: Val)
  {
    v.Bar? ==> BarOk(v.len, v.evs)
  }

  /* ------------------------------------------------------------------ */
  /* The line builder, first as a value with one function per operation. */

  /** The state of a `LineBuilder`: the cursor `count`, the longest line
      recorded by `cr`, and the events placed so far. */
  datatype Line = Line(count: nat, max: nat, evs: Events)

  const EmptyLine: Line := Line(0, 0, map[])

  /** The length `done` reports. */
  function LineLength(l: Line): nat
  {
    Max(l.count, l.max)
  }

  /** The builder's invariant: every offset is below the reported length. */
  ghost predicate LineOk(l: Line)
  {
    BarOk(LineLength(l), l.evs)
  }

  /** `trig(nn, vel, dur, leg)`: one note of duration dur + 1 appended at
      the cursor, which then moves past it. */
  function AfterTrig(l: Line, nn: u8, vel: u8, dur: nat, leg: bool): (r: Line)
    ensures r.count == l.count + dur + 1 && r.max == l.max
  {
    Line(l.count + dur + 1, l.max,
         l.evs[l.count := NotesAt(l.evs, l.count) + [SeqNote(nn, vel, dur + 1, leg)]])
  }

  /** `trig` adds exactly one note, at the old cursor, after the notes
      already there, and touches no other offset. */
  lemma TrigEffect(l: Line, nn: u8, vel: u8, dur: nat, leg: bool)
    ensures var r := AfterTrig(l, nn, vel, dur, leg);
            && r.evs.Keys == l.evs.Keys + {l.count}
            && NotesAt(r.evs, l.count) == NotesAt(l.evs, l.count) + [SeqNote(nn, vel, dur + 1, leg)]
            && (forall k :: k != l.count ==> NotesAt(r.evs, k) == NotesAt(l.evs, k))
  {
  }

  /** `rests(n)`: the cursor moves by n; no event changes. */
  function AfterRests(l: Line, n: nat): (r: Line)
    ensures r.count == l.count + n && r.max == l.max && r.evs == l.evs
  {
    l.(count := l.count + n)
  }

  /** `cr()`: the longest line so far is recorded and the cursor returns to 0. */
  function AfterCr(l: Line): (r: Line)
    ensures r.count == 0 && r.max == LineLength(l) && r.evs == l.evs
    ensures LineLength(r) == LineLength(l)
  {
    Line(0, Max(l.count, l.max), l.evs)
  }

  /** `done()`: the length and the events. */
  function Finished(l: Line): (r: (nat, Events))
    ensures r.0 >= l.count && r.0 >= l.max && r.1 == l.evs
    ensures LineOk(l) ==> BarOk(r.0, r.1)
  {
    (Max(l.count, l.max), l.evs)
  }

  /** `merge(len, other)`, one offset of `other` at a time: the notes of
      `other` at i go after those at the cursor, which then moves by one. */
  function AfterMerge(l: Line, len: nat, other: Events): (r: Line)
    ensures r.count == l.count + len && r.max == l.max
  {
    if len == 0 then l
    else
      var m := AfterMerge(l, len - 1, other);
      var i := len - 1;
      Line(m.count + 1, m.max,
           if i in other then m.evs[m.count := NotesAt(m.evs, m.count) + other[i]] else m.evs)
  }

  /** The notes a merge of `other` (length `len`) at cursor `at` adds at `k`. */
  function Incoming(at: nat, len: nat, other: Events, k: nat): seq<SeqNote>
  {
    if at <= k < at + len && (k - at) in other then other[k - at] else []
  }

  /** What `merge` does, offset by offset: for every i < len the notes of
      `other` at i end up after the notes already at count + i; offsets of
      `other` from len on are ignored; no other offset changes. */
  lemma {:induction false} MergeEffect(l: Line, len: nat, other: Events, k: nat)
    ensures var r := AfterMerge(l, len, other);
            && (k in r.evs <==> k in l.evs || (l.count <= k < l.count + len && (k - l.count) in other))
            && NotesAt(r.evs, k) == NotesAt(l.evs, k) + Incoming(l.count, len, other, k)
  {
    if len > 0 {
      MergeEffect(l, len - 1, other, k);
      var m := AfterMerge(l, len - 1, other);
      if k == m.count && len - 1 in other {
        assert Incoming(l.count, len, other, k) == other[len - 1];
        assert Incoming(l.count, len - 1, other, k) == [];
      } else {
        assert Incoming(l.count, len, other, k) == Incoming(l.count, len - 1, other, k);
      }
    }
  }

  /** Every builder operation keeps every offset below the reported length
      (merging needs the merged notes to have positive durations). */
  lemma BuilderKeepsInvariant(l: Line, nn: u8, vel: u8, dur: nat, leg: bool, n: nat,
                              len: nat, other: Events)
    requires LineOk(l)
    ensures LineOk(AfterTrig(l, nn, vel, dur, leg))
    ensures LineOk(AfterRests(l, n))
    ensures LineOk(AfterCr(l))
    ensures PositiveDurations(other) ==> LineOk(AfterMerge(l, len, other))
  {
    TrigKeepsInvariant(l, nn, vel, dur, leg);
    if PositiveDurations(other) {
      MergeKeepsInvariant(l, len, other);
    }
  }

  lemma TrigKeepsInvariant(l: Line, nn: u8, vel: u8, dur: nat, leg: bool)
    requires LineOk(l)
    ensures LineOk(AfterTrig(l, nn, vel, dur, leg))
  {
    var t := AfterTrig(l, nn, vel, dur, leg);
    TrigEffect(l, nn, vel, dur, leg);
    forall k, i | k in t.evs && 0 <= i < |t.evs[k]|
      ensures t.evs[k][i].duration >= 1
    {
      if k != l.count {
        assert t.evs[k] == NotesAt(l.evs, k);
      }
    }
  }

  lemma MergeKeepsInvariant(l: Line, len: nat, other: Events)
    requires LineOk(l) && PositiveDurations(other)
    ensures LineOk(AfterMerge(l, len, other))
  {
    var m := AfterMerge(l, len, other);
    forall k, i | k in m.evs && 0 <= i < |m.evs[k]|
      ensures m.evs[k][i].duration >= 1
    {
      MergeEffect(l, len, other, k);
      assert m.evs[k] == NotesAt(l.evs, k) + Incoming(l.count, len, other, k);
      if i >= |NotesAt(l.evs, k)| {
        assert m.evs[k][i] == Incoming(l.count, len, other, k)[i - |NotesAt(l.evs, k)|];
      }
    }
    forall k | k in m.evs
      ensures k < Max(m.count, m.max)
    {
      MergeEffect(l, len, other, k);
    }
  }

  /** Merging a compiled bar of length M at cursor C puts each of its events
      at C + its offset, after what was there, and moves the cursor by M. */
  lemma MergeShifts(l: Line, m: nat, other: Events, i: nat)
    requires forall k :: k in other ==> k < m
    ensures AfterMerge(l, m, other).count == l.count + m
    ensures i in other ==>
              NotesAt(AfterMerge(l, m, other).evs, l.count + i) == NotesAt(l.evs, l.count + i) + other[i]
    ensures i !in other ==>
              NotesAt(AfterMerge(l, m, other).evs, l.count + i) == NotesAt(l.evs, l.count + i)
  {
    MergeEffect(l, m, other, l.count + i);
    assert Incoming(l.count, m, other, l.count + i) == (if i in other then other[i] else []);
  }

  /* ------------------------------------------------------------------ */
  /* The builder as the source has it: an object updated in place. */

  class LineBuilder {
    var count: nat
    var max: nat
    var evs: Events

    function View(): Line
      reads this
    {
      Line(count, max, evs)
    }

    /** `LineBuilder::default()`. */
    constructor ()
      ensures View() == EmptyLine
    {
      count, max, evs := 0, 0, map[];
    }

    method Cr()
      modifies this
      ensures View() == AfterCr(old(View()))
    {
      max := Max(count, max);
      count := 0;
    }

    function Done(): (r: (nat, Events))
      reads this
      ensures r == Finished(View())
    {
      (Max(count, max), evs)
    }

    method Trig(nn: u8, vel: u8, dur: nat, legato: bool)
      modifies this
      ensures View() == AfterTrig(old(View()), nn, vel, dur, legato)
    {
      var note := SeqNote(nn, vel, dur + 1, legato);
      evs := evs[count := NotesAt(evs, count) + [note]];
      count := count + dur + 1;
    }

    method Rests(len: nat)
      modifies this
      ensures View() == AfterRests(old(View()), len)
    {
      count := count + len;
    }

    method Merge(otherLen: nat, otherNotes: Events)
      modifies this
      ensures View() == AfterMerge(old(View()), otherLen, otherNotes)
    {
      ghost var l0 := View();
      for i := 0 to otherLen
        invariant View() == AfterMerge(l0, i, otherNotes)
      {
        if i in otherNotes {
          var v := otherNotes[i];
          evs := evs[count := NotesAt(evs, count) + v];
        }
        count := count + 1;
      }
    }
  }

  /** The builder test of the source: trig/rests/trig, cr, trig/rests gives
      length 20, the two first notes of each line layered at offset 0 in
      insertion order, and the second note of the first line at offset 10. */
  method LineBuilderScenario() returns (len: nat, evs: Events)
    ensures len == 20
    ensures evs == map[0 := [SeqNote(10, 10, 5, true), SeqNote(12, 12, 5, false)],
                       10 := [SeqNote(11, 11, 5, false)]]
  {
    var a, b, c := SeqNote(10, 10, 5, true), SeqNote(11, 11, 5, false), SeqNote(12, 12, 5, false);
    var bld := new LineBuilder();
    bld.Trig(10, 10, 4, true);
    assert [] + [a] == [a];
    assert bld.evs == map[0 := [a]];
    bld.Rests(5);
    bld.Trig(11, 11, 4, false);
    assert [] + [b] == [b];
    assert bld.evs == map[0 := [a], 10 := [b]];
    bld.Cr();
    bld.Trig(12, 12, 4, false);
    assert [a] + [c] == [a, c];
    assert bld.evs == map[0 := [a, c], 10 := [b]];
    bld.Rests(15);
    var r := bld.Done();
    len, evs := r.0, r.1;
  }

  /* ------------------------------------------------------------------ */
  /* Rendering a value as text (the `Display` implementation). */

  /** The carry of the renderer: outstanding ties of the last printed note and
      whether it was legato. It is never reset, not even between lines. */
  datatype Pen = Pen(ties: nat, leg: bool)

  function TriggerText(t: Trigger): string
  {
    "(" + NatToString(t.nn) + " " + NatToString(t.vel) + ")"
  }

  function NoteCell(n: SeqNote): string
  {
    "(" + NatToString(n.nn) + " " + NatToString(n.vel) + ") "
  }

  /** The cell printed for offset `idx` of line `ln`, and the carry after it. */
  function CellAt(evs: Events, ln: nat, idx: nat, pen: Pen): (string, Pen)
    requires PositiveDurations(evs)
  {
    if idx in evs then
      var ts := evs[idx];
      if ln < |ts| then (NoteCell(ts[ln]), Pen(ts[ln].duration - 1, ts[ln].legato))
      else ("- ", pen)
    else if pen.ties == 0 then ("- ", pen)
    else if pen.ties == 1 && pen.leg then ("=>", Pen(0, pen.leg))
    else ("= ", Pen(pen.ties - 1, pen.leg))
  }

  /** The first `n` cells of line `ln`, and the carry after them. */
  function RowPrefix(evs: Events, ln: nat, n: nat, pen: Pen): (seq<string>, Pen)
    requires PositiveDurations(evs)
  {
    if n == 0 then ([], pen)
    else
      var (cells, p) := RowPrefix(evs, ln, n - 1, pen);
      var (c, p') := CellAt(evs, ln, n - 1, p);
      (cells + [c], p')
  }

  /** The cells of the first `n` lines of a bar of length `len`. */
  function RowsPrefix(len: nat, evs: Events, n: nat, pen: Pen): (seq<seq<string>>, Pen)
    requires PositiveDurations(evs)
  {
    if n == 0 then ([], pen)
    else
      var (rows, p) := RowsPrefix(len, evs, n - 1, pen);
      var (cells, p') := RowPrefix(evs, n - 1, len, p);
      (rows + [cells], p')
  }

  /** The largest chord among the first `n` offsets. */
  function MaxChord(evs: Events, n: nat): nat
  {
    if n == 0 then 0 else Max(MaxChord(evs, n - 1), |NotesAt(evs, n - 1)|)
  }

  /** How many lines a bar prints: one per voice of its largest chord, at
      least one. */
  function LineTotal(len: nat, evs: Events): nat
  {
    Max(1, MaxChord(evs, len))
  }

  function Concat(cells: seq<string>): string
  {
    if |cells| == 0 then "" else Concat(cells[..|cells| - 1]) + cells[|cells| - 1]
  }

  /** One printed line around its cells' text. */
  function Bracketed(text: string): string
  {
    "[" + text + "]\n"
  }

  function RowText(cells: seq<string>): string
  {
    Bracketed(Concat(cells))
  }

  function RowsText(rows: seq<seq<string>>): string
  {
    if |rows| == 0 then "" else RowsText(rows[..|rows| - 1]) + RowText(rows[|rows| - 1])
  }

  /** The text `{}` produces for a value. */
  function Render(v: Val): string
    requires v.Bar? ==> PositiveDurations(v.evs)
  {
    match v
    case Trig(t) => TriggerText(t)
    case Bar(len, evs) => RowsText(RowsPrefix(len, evs, LineTotal(len, evs), Pen(0, false)).0)
  }

  predicate IsCellShape(c: string, notes: seq<SeqNote>)
  {
    c == "- " || c == "= " || c == "=>" || exists i :: 0 <= i < |notes| && c == NoteCell(notes[i])
  }

  /** Line `ln` of a bar has one cell per offset; a cell is the `ln`-th note
      of its offset when there is one, and otherwise a rest `- `, a tie `= `
      or a legato tie `=>`. */
  lemma RowShape(evs: Events, ln: nat, n: nat, pen: Pen)
    requires PositiveDurations(evs)
    ensures var cells := RowPrefix(evs, ln, n, pen).0;
            && |cells| == n
            && (forall idx :: 0 <= idx < n ==> IsCellShape(cells[idx], NotesAt(evs, idx)))
            && (forall idx :: 0 <= idx < n && ln < |NotesAt(evs, idx)| ==>
                  cells[idx] == NoteCell(NotesAt(evs, idx)[ln]))
  {
    RowLength(evs, ln, n, pen);
    forall idx | 0 <= idx < n
      ensures IsCellShape(RowPrefix(evs, ln, n, pen).0[idx], NotesAt(evs, idx))
      ensures ln < |NotesAt(evs, idx)| ==> RowPrefix(evs, ln, n, pen).0[idx] == NoteCell(NotesAt(evs, idx)[ln])
    {
      RowCell(evs, ln, n, pen, idx);
    }
  }

  lemma {:induction false} RowLength(evs: Events, ln: nat, n: nat, pen: Pen)
    requires PositiveDurations(evs)
    ensures |RowPrefix(evs, ln, n, pen).0| == n
  {
    if n > 0 {
      RowLength(evs, ln, n - 1, pen);
    }
  }

  /** The cell at `idx` of a line, once the line is long enough to have it. */
  lemma {:induction false} RowCell(evs: Events, ln: nat, n: nat, pen: Pen, idx: nat)
    requires PositiveDurations(evs) && idx < n
    ensures var cells := RowPrefix(evs, ln, n, pen).0;
            && |cells| == n
            && IsCellShape(cells[idx], NotesAt(evs, idx))
            && (ln < |NotesAt(evs, idx)| ==> cells[idx] == NoteCell(NotesAt(evs, idx)[ln]))
  {
    var (cells, p) := RowPrefix(evs, ln, n - 1, pen);
    RowLength(evs, ln, n - 1, pen);
    if idx == n - 1 {
      CellShape(evs, ln, n - 1, p);
    } else {
      RowCell(evs, ln, n - 1, pen, idx);
    }
  }

  /** One cell: the `ln`-th note of its offset when there is one, and
      otherwise a rest, a tie or a legato tie. */
  lemma CellShape(evs: Events, ln: nat, idx: nat, pen: Pen)
    requires PositiveDurations(evs)
    ensures IsCellShape(CellAt(evs, ln, idx, pen).0, NotesAt(evs, idx))
    ensures ln < |NotesAt(evs, idx)| ==> CellAt(evs, ln, idx, pen).0 == NoteCell(NotesAt(evs, idx)[ln])
  {
    if idx in evs && ln < |evs[idx]| {
      assert CellAt(evs, ln, idx, pen).0 == NoteCell(NotesAt(evs, idx)[ln]);
    }
  }

  /** A bar prints `LineTotal` lines of `len` cells each. */
  lemma {:induction false} RowsShape(len: nat, evs: Events, n: nat, pen: Pen)
    requires PositiveDurations(evs)
    ensures var rows := RowsPrefix(len, evs, n, pen).0;
            && |rows| == n
            && (forall ln :: 0 <= ln < n ==> |rows[ln]| == len)
  {
    if n > 0 {
      RowsShape(len, evs, n - 1, pen);
      var (rows, p) := RowsPrefix(len, evs, n - 1, pen);
      RowShape(evs, n - 1, len, p);
    }
  }

  lemma ConcatSnoc(cells: seq<string>, c: string)
    ensures Concat(cells + [c]) == Concat(cells) + c
  {
    assert (cells + [c])[..|cells|] == cells;
  }

  lemma RowsTextSnoc(rows: seq<seq<string>>, cells: seq<string>)
    ensures RowsText(rows + [cells]) == RowsText(rows) + RowText(cells)
  {
    assert (rows + [cells])[..|rows|] == rows;
  }

  /** One more line of a bar: its text is appended and the carry moves on. */
  lemma RowsNext(len: nat, evs: Events, ln: nat, pen: Pen)
    requires PositiveDurations(evs)
    ensures RowsText(RowsPrefix(len, evs, ln + 1, pen).0)
            == RowsText(RowsPrefix(len, evs, ln, pen).0)
               + RowText(RowPrefix(evs, ln, len, RowsPrefix(len, evs, ln, pen).1).0)
    ensures RowsPrefix(len, evs, ln + 1, pen).1 == RowPrefix(evs, ln, len, RowsPrefix(len, evs, ln, pen).1).1
  {
    var (rows, p) := RowsPrefix(len, evs, ln, pen);
    RowsTextSnoc(rows, RowPrefix(evs, ln, len, p).0);
  }

  lemma ChordBound(evs: Events, n: nat, idx: nat)
    requires idx < n
    ensures |NotesAt(evs, idx)| <= MaxChord(evs, n)
  {
    if idx < n - 1 {
      ChordBound(evs, n - 1, idx);
    }
  }

  /** One line of a bar, written after `out0`: the loop across its
      offsets. `lines` grows to the largest chord seen so far; the carry
      goes in and comes out. */
  method DisplayLine(len: nat, evs: Events, ln: nat, lines0: nat, pen: Pen, out0: string)
      returns (out: string, lines: nat, ties: nat, leg: bool)
    requires PositiveDurations(evs)
    requires lines0 >= 1
    ensures out == out0 + RowText(RowPrefix(evs, ln, len, pen).0)
    ensures Pen(ties, leg) == RowPrefix(evs, ln, len, pen).1
    ensures lines == Max(lines0, MaxChord(evs, len))
  {
    lines, ties, leg := lines0, pen.ties, pen.leg;
    var text := "";
    for idx := 0 to len
      invariant lines == Max(lines0, MaxChord(evs, idx))
      invariant var (cells, p) := RowPrefix(evs, ln, idx, pen);
                text == Concat(cells) && p == Pen(ties, leg)
    {
      ghost var mid := text;
      ghost var step := CellAt(evs, ln, idx, Pen(ties, leg));
      ghost var (cells, _) := RowPrefix(evs, ln, idx, pen);
      ConcatSnoc(cells, step.0);
      if idx in evs {
        var ts := evs[idx];
        lines := Max(lines, |ts|);
        if ln < |ts| {
          var n := ts[ln];
          text := text + NoteCell(n);
          ties := n.duration - 1;
          leg := n.legato;
        } else {
          text := text + "- ";
        }
      } else {
        if ties == 0 {
          text := text + "- ";
        } else if ties == 1 && leg {
          text := text + "=>";
          ties := ties - 1;
        } else {
          text := text + "= ";
          ties := ties - 1;
        }
      }
      assert text == mid + step.0 && Pen(ties, leg) == step.1;
    }
    out := out0 + Bracketed(text);
  }

  /** `Display for Val`: a trigger prints as `(nn vel)`; a bar prints one
      bracketed line per voice, the number of lines settled by the first. */
  method Display(v: Val) returns (out: string)
    requires v.Bar? ==> PositiveDurations(v.evs)
    ensures out == Render(v)
  {
    match v
    case Trig(t) =>
      out := TriggerText(t);
    case Bar(len, evs) =>
      out := DisplayBar(len, evs);
  }

  /** The bar case of `Display`. */
  method DisplayBar(len: nat, evs: Events) returns (out: string)
    requires PositiveDurations(evs)
    ensures out == RowsText(RowsPrefix(len, evs, LineTotal(len, evs), Pen(0, false)).0)
  {
    ghost var total := LineTotal(len, evs);
    var lines := 1;
    var ln := 0;
    var ties: nat := 0;
    var leg := false;
    out := "";
    while ln < lines
      invariant 1 <= total && ln <= total
      invariant ln == 0 ==> lines == 1
      invariant ln > 0 ==> lines == total
      invariant out == RowsText(RowsPrefix(len, evs, ln, Pen(0, false)).0)
      invariant RowsPrefix(len, evs, ln, Pen(0, false)).1 == Pen(ties, leg)
      decreases total - ln
    {
      RowsNext(len, evs, ln, Pen(0, false));
      out, lines, ties, leg := DisplayLine(len, evs, ln, lines, Pen(ties, leg), out);
      ln := ln + 1;
    }
    assert ln == total;
  }

}
