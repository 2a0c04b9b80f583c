/** One slot of the player (src/player/slot.rs): a sequence, a transport
    state, and the cursor that walks the sequence, one step every `tps`
    ticks, sending each step's notes to a voicer.

    The slot's fields are a class whose methods are proved against
    functions on `SlotView`, the value of those fields; what the source
    promises is proved about the functions. */
module Slots {
  import opened Base
  import opened SeqTypes
  import opened SequenceTypes
  import opened Voicers

  datatype Transport = Stop | StopSync | Play | PlaySync

  /** What `state` reports; `Empty` when no sequence is assigned. */
  datatype SlotState = Empty | Stopped | StopSyncing | Playing | PlaySyncing

  datatype TickError = Bad

  /** The fields of a slot: its output, its sequence, its transport, the
      cursor (`tick` within the step, `step` within the sequence), the
      ticks per step and the sync period (0 for none). */
  datatype SlotView = SlotView(out: nat, current: Option<MapSeq>, tpt: Transport,
                               tick: nat, step: nat, tps: nat, syncPt: nat)

  /** `Slot::default`. */
  const DefaultSlot := SlotView(0, None, Stop, 0, 0, 6, 0)

  function AfterPlay(s: SlotView): (r: SlotView)
    ensures r.tpt == Play && r.(tpt := s.tpt) == s
  {
    s.(tpt := Play)
  }

  /** `stop` also rewinds the cursor. */
  function AfterStop(s: SlotView): (r: SlotView)
    ensures r.tpt == Stop && r.tick == 0 && r.step == 0
    ensures r.(tpt := s.tpt, tick := s.tick, step := s.step) == s
  {
    s.(tpt := Stop, tick := 0, step := 0)
  }

  /** `toggle`. Without a sync period it starts or stops at once; with one
      it asks for the change at the next boundary, except that a slot
      waiting for a boundary toggles to playing at once. */
  function AfterToggle(s: SlotView): (r: SlotView)
    ensures r.tpt != StopSync
    ensures s.syncPt == 0 && s.tpt == Stop ==> r == AfterPlay(s)
    ensures s.syncPt == 0 && s.tpt == Play ==> r == AfterStop(s)
    ensures s.syncPt != 0 && (s.tpt == Stop || s.tpt == Play) ==> r == s.(tpt := PlaySync)
    ensures s.tpt == StopSync || s.tpt == PlaySync ==> r == s.(tpt := Play)
  {
    match (s.tpt, s.syncPt)
    case (Stop, 0) => AfterPlay(s)
    case (Stop, _) => s.(tpt := PlaySync)
    case (StopSync, _) => s.(tpt := Play)
    case (Play, 0) => AfterStop(s)
    case (Play, _) => s.(tpt := PlaySync)
    case (PlaySync, _) => s.(tpt := Play)
  }

  /** Whether `sync` acts at sync tick `t`: a period is set and `t` is a
      multiple of it. */
  predicate AtBoundary(s: SlotView, t: nat)
  {
    s.syncPt != 0 && t % s.syncPt == 0
  }

  /** `sync(t)`: at a boundary a slot waiting to stop starts, and one
      waiting to play stops. */
  function AfterSync(s: SlotView, t: nat): (r: SlotView)
    ensures !AtBoundary(s, t) || (s.tpt != StopSync && s.tpt != PlaySync) ==> r == s
    ensures AtBoundary(s, t) && s.tpt == StopSync ==> r == AfterPlay(s)
    ensures AtBoundary(s, t) && s.tpt == PlaySync ==> r == AfterStop(s)
    ensures r.out == s.out && r.current == s.current && r.tps == s.tps && r.syncPt == s.syncPt
  {
    if !AtBoundary(s, t) then s
    else match s.tpt
      case StopSync => AfterPlay(s)
      case PlaySync => AfterStop(s)
      case _ => s
  }

  /** `assign`: a new sequence from its first step; the transport, output,
      division and sync period stay. */
  function AfterAssign(s: SlotView, sq: MapSeq): (r: SlotView)
    ensures r.current == Some(sq) && r.tick == 0 && r.step == 0
    ensures r.tpt == s.tpt && r.out == s.out && r.tps == s.tps && r.syncPt == s.syncPt
  {
    s.(current := Some(sq), tick := 0, step := 0)
  }

  /** `set_sync`: a zero period settles a pending change at once. */
  function AfterSetSync(s: SlotView, n: nat): (r: SlotView)
    ensures r.syncPt == n
    ensures n != 0 ==> r == s.(syncPt := n)
    ensures n == 0 ==> r == AfterSync(s.(syncPt := 1), 0).(syncPt := 0)
  {
    var s' := s.(syncPt := n);
    if n != 0 then s'
    else match s.tpt
      case StopSync => AfterPlay(s')
      case PlaySync => AfterStop(s')
      case _ => s'
  }

  /** `state`. */
  function StateOf(s: SlotView): (r: SlotState)
    ensures r == Empty <==> s.current.None?
    ensures s.current.Some? && s.tpt == Play ==> r == Playing
    ensures s.current.Some? && s.tpt == Stop ==> r == Stopped
  {
    if s.current.None? then Empty
    else match s.tpt
      case Stop => Stopped
      case Play => Playing
      case StopSync => StopSyncing
      case PlaySync => PlaySyncing
  }

  /** Whether `tick` moves the cursor: the slot plays a sequence. */
  predicate Running(s: SlotView)
  {
    s.current.Some? && s.tpt == Play
  }

  /** What `tick` needs in order not to panic: a running slot divides by
      its ticks per step and by its sequence's length. */
  predicate TickDefined(s: SlotView)
  {
    Running(s) ==> s.tps > 0 && s.current.value.len > 0
  }

  /** The cursor after one `tick`: one tick further, and at the end of a
      step the first tick of the next step, wrapping at the length. */
  function AfterTick(s: SlotView): (r: SlotView)
    requires TickDefined(s)
    ensures !Running(s) ==> r == s
    ensures r.out == s.out && r.current == s.current && r.tpt == s.tpt
    ensures r.tps == s.tps && r.syncPt == s.syncPt
    ensures Running(s) && s.step < s.current.value.len ==> r.step < s.current.value.len
    ensures Running(s) && s.tick < s.tps ==>
              && r.tick < s.tps
              && if s.tick + 1 < s.tps then r.tick == s.tick + 1 && r.step == s.step
                 else r.tick == 0 && r.step == (s.step + 1) % s.current.value.len
  {
    if !Running(s) then s
    else
      var t := s.tick + 1;
      if t % s.tps == 0 then s.(tick := 0, step := (s.step + 1) % s.current.value.len)
      else s.(tick := t)
  }

  /** Whether this `tick` plays the current step: a running slot at the
      first tick of a step. */
  predicate Sounds(s: SlotView)
  {
    Running(s) && s.tick == 0
  }

  /** The notes of step `step` of `sq`. */
  function StepNotes(sq: MapSeq, step: nat): seq<SeqNote>
  {
    match sq.EventsAt(step)
    case Some(ns) => ns
    case None => []
  }

  /** What `play_note` records for each note, `duration` steps made ticks. */
  function HeldOf(ns: seq<SeqNote>, tps: nat): (r: seq<Held>)
    ensures |r| == |ns|
    ensures forall j :: 0 <= j < |ns| ==>
              r[j] == Held(ns[j].nn, ns[j].vel, ns[j].duration * tps, ns[j].legato)
  {
    if |ns| == 0 then []
    else
      var n := ns[|ns| - 1];
      HeldOf(ns[..|ns| - 1], tps) + [Held(n.nn, n.vel, n.duration * tps, n.legato)]
  }

  /** The note-ons `play_note` sends for the notes. */
  function OnsOf(ch: u8, ns: seq<SeqNote>): (r: seq<Msg>)
    ensures |r| == |ns|
    ensures forall j :: 0 <= j < |ns| ==> r[j] == NoteOn(ch, ns[j].nn, ns[j].vel)
  {
    if |ns| == 0 then [] else OnsOf(ch, ns[..|ns| - 1]) + [NoteOn(ch, ns[|ns| - 1].nn, ns[|ns| - 1].vel)]
  }

  /** The notes a `tick` of `s` gives a voicer on channel `ch`: the step's
      notes when the slot sounds and the voicer takes note-ons. */
  function HeldBy(s: SlotView, online: bool): seq<Held>
  {
    if Sounds(s) && online then HeldOf(StepNotes(s.current.value, s.step), s.tps) else []
  }

  function OnsBy(s: SlotView, ch: u8, online: bool): seq<Msg>
  {
    if Sounds(s) && online then OnsOf(ch, StepNotes(s.current.value, s.step)) else []
  }

  /** The result of `tick`: an error when the step has notes and the voicer
      refuses the first note-on. */
  function TickResult(s: SlotView, online: bool): Result<(), TickError>
  {
    if Sounds(s) && !online && StepNotes(s.current.value, s.step) != [] then Fail(Bad) else Ok(())
  }

  class Slot {
    var out: nat
    var current: Option<MapSeq>
    var tpt: Transport
    var tick: nat
    var step: nat
    var tps: nat
    var syncPt: nat

    function View(): SlotView
      reads this
    {
      SlotView(out, current, tpt, tick, step, tps, syncPt)
    }

    /** `Slot::default`. */
    constructor ()
      ensures View() == DefaultSlot
    {
      out, current, tpt := 0, None, Transport.Stop;
      tick, step, tps, syncPt := 0, 0, 6, 0;
    }

    /** `tick`, with the voicer of the slot's output if there is one. */
    method Tick(v: Voicer?) returns (r: Result<(), TickError>)
      requires TickDefined(View())
      modifies this, v
      ensures View() == AfterTick(old(View()))
      ensures v != null ==> && v.buffer == old(v.buffer) + HeldBy(old(View()), v.online)
                            && v.sent == old(v.sent) + OnsBy(old(View()), v.channel, v.online)
                            && r == TickResult(old(View()), v.online)
      ensures v == null ==> r == Ok(())
    {
      if current.None? || tpt != Transport.Play {
        return Ok(());
      }
      r := Ok(());
      if tick == 0 && v != null {
        r := PlayStep(step, tps, current.value, v);
      }
      tick := tick + 1;
      if tick % tps == 0 {
        tick := 0;
        step := (step + 1) % current.value.len;
      }
    }

    method Sync(t: nat)
      modifies this
      ensures View() == AfterSync(old(View()), t)
    {
      if syncPt == 0 {
        return;
      }
      if t % syncPt == 0 {
        if tpt == StopSync {
          Play();
        } else if tpt == PlaySync {
          Stop();
        }
      }
    }

    method Assign(sq: MapSeq)
      modifies this
      ensures View() == AfterAssign(old(View()), sq)
    {
      current := Some(sq);
      tick := 0;
      step := 0;
    }

    method Play()
      modifies this
      ensures View() == AfterPlay(old(View()))
    {
      tpt := Transport.Play;
    }

    method Stop()
      modifies this
      ensures View() == AfterStop(old(View()))
    {
      tpt := Transport.Stop;
      tick := 0;
      step := 0;
    }

    method Toggle()
      modifies this
      ensures View() == AfterToggle(old(View()))
    {
      match (tpt, syncPt)
      case (Stop, 0) => Play();
      case (Stop, _) => tpt := PlaySync;
      case (StopSync, _) => tpt := Transport.Play;
      case (Play, 0) => Stop();
      case (Play, _) => tpt := PlaySync;
      case (PlaySync, _) => tpt := Transport.Play;
    }

    function State(): (r: SlotState)
      reads this
      ensures r == StateOf(View())
    {
      if current.None? then Empty
      else match tpt
        case Stop => Stopped
        case Play => Playing
        case StopSync => StopSyncing
        case PlaySync => PlaySyncing
    }

    method SetDiv(d: nat)
      modifies this
      ensures View() == old(View()).(tps := d)
    {
      tps := d;
    }

    method SetSync(n: nat)
      modifies this
      ensures View() == AfterSetSync(old(View()), n)
    {
      syncPt := n;
      if syncPt == 0 {
        if tpt == StopSync {
          Play();
        } else if tpt == PlaySync {
          Stop();
        }
      }
    }
  }

  /** `play_step`: each note of the step to the voicer, its duration in
      ticks, stopping at the first refused note-on. */
  method PlayStep(step: nat, tps: nat, sq: MapSeq, v: Voicer) returns (r: Result<(), TickError>)
    modifies v
    ensures var ns := StepNotes(sq, step);
            && (v.online ==> r == Ok(()) && v.buffer == old(v.buffer) + HeldOf(ns, tps)
                              && v.sent == old(v.sent) + OnsOf(v.channel, ns))
            && (!v.online ==> v.buffer == old(v.buffer) && v.sent == old(v.sent)
                               && r == if ns == [] then Ok(()) else Fail(Bad))
  {
    var evs := sq.EventsAt(step);
    if evs.None? {
      return Ok(());
    }
    var ns := evs.value;
    var i := 0;
    while i < |ns|
      invariant i <= |ns|
      invariant v.buffer == old(v.buffer) + HeldOf(ns[..i], tps)
      invariant v.sent == old(v.sent) + OnsOf(v.channel, ns[..i])
      invariant !v.online ==> i == 0
    {
      assert ns[..i + 1][..i] == ns[..i];
      var p := v.PlayNote(ns[i].nn, ns[i].vel, ns[i].vel, ns[i].duration * tps, ns[i].legato);
      if p.Fail? {
        return Fail(Bad);
      }
      i := i + 1;
    }
    assert ns[..i] == ns;
    r := Ok(());
  }

  /** The quirk of `toggle` under a sync period: a stopped slot asks to
      stop again (`PlaySync`), so at the next boundary it is still stopped,
      rewound, and has not played. */
  lemma StoppedSyncedSlotStaysStopped(s: SlotView, t: nat)
    requires s.tpt == Stop && s.syncPt != 0 && AtBoundary(s, t)
    ensures AfterToggle(s).tpt == PlaySync
    ensures AfterSync(AfterToggle(s), t) == AfterStop(s)
  {
  }

  /** Without a sync period, toggling twice from stopped leaves the slot
      stopped and rewound, and from playing leaves it playing from the
      start. */
  lemma ToggleTwice(s: SlotView)
    requires s.syncPt == 0 && (s.tpt == Stop || s.tpt == Play)
    ensures AfterToggle(AfterToggle(s)) == AfterStop(s).(tpt := s.tpt)
  {
  }

  /** The operations a slot's owner can apply. */
  datatype Op = OpPlay | OpStop | OpToggle | OpSync(t: nat) | OpAssign(sq: MapSeq)
              | OpSetDiv(d: nat) | OpSetSync(n: nat) | OpTick

  /** One operation; `None` when `tick` would divide by zero. */
  function Apply(s: SlotView, op: Op): Option<SlotView>
  {
    match op
    case OpPlay => Some(AfterPlay(s))
    case OpStop => Some(AfterStop(s))
    case OpToggle => Some(AfterToggle(s))
    case OpSync(t) => Some(AfterSync(s, t))
    case OpAssign(sq) => Some(AfterAssign(s, sq))
    case OpSetDiv(d) => Some(s.(tps := d))
    case OpSetSync(n) => Some(AfterSetSync(s, n))
    case OpTick => if TickDefined(s) then Some(AfterTick(s)) else None
  }

  function Run(s: SlotView, ops: seq<Op>): Option<SlotView>
    decreases |ops|
  {
    if |ops| == 0 then Some(s)
    else match Apply(s, ops[0])
      case None => None
      case Some(s') => Run(s', ops[1..])
  }

  /** `StopSync` is never entered: no operation leads into it from any
      other transport. */
  lemma ApplyAvoidsStopSync(s: SlotView, op: Op)
    requires s.tpt != StopSync
    ensures Apply(s, op).Some? ==> Apply(s, op).value.tpt != StopSync
  {
  }

  /** Hence no slot that starts as `Slot::default` is ever waiting to
      start at a boundary, and the `StopSync` arms of `toggle`, `sync`,
      `set_sync` and `state` are unreachable. */
  lemma {:induction false} NeverStopSync(s: SlotView, ops: seq<Op>)
    requires s.tpt != StopSync
    ensures Run(s, ops).Some? ==> Run(s, ops).value.tpt != StopSync
    decreases |ops|
  {
    if |ops| > 0 {
      ApplyAvoidsStopSync(s, ops[0]);
      if Apply(s, ops[0]).Some? {
        NeverStopSync(Apply(s, ops[0]).value, ops[1..]);
      }
    }
  }

  lemma DefaultNeverStopSync(ops: seq<Op>)
    ensures Run(DefaultSlot, ops).Some? ==> StateOf(Run(DefaultSlot, ops).value) != StopSyncing
  {
    NeverStopSync(DefaultSlot, ops);
  }

  /** `n` ticks in a row. */
  function Ticks(s: SlotView, n: nat): SlotView
    requires TickDefined(s)
    decreases n
  {
    if n == 0 then s else Ticks(AfterTick(s), n - 1)
  }

  /** A running slot at the start of a step stays on that step for `tps`
      ticks, sounding only on the first, and then moves to the next step,
      wrapping at the sequence's length. */
  lemma {:induction false} TicksWithinStep(s: SlotView, k: nat)
    requires Running(s) && TickDefined(s) && s.tick == 0
    requires k <= s.tps
    ensures Ticks(s, k).tick == if k < s.tps then k else 0
    ensures Ticks(s, k).step == if k < s.tps then s.step else (s.step + 1) % s.current.value.len
    ensures 0 < k < s.tps ==> !Sounds(Ticks(s, k))
  {
    if k > 0 {
      TicksWithinStep(s, k - 1);
      TickThrough(s, k - 1);
      var t := Ticks(s, k - 1);
      assert t.tick == k - 1 && t.step == s.step;
      assert Running(t) && t.tick < t.tps;
    }
  }

  /** Unfolds `Ticks` from the far end. */
  lemma {:induction false} TickThrough(s: SlotView, n: nat)
    requires TickDefined(s)
    ensures TickDefined(Ticks(s, n))
    ensures Ticks(s, n + 1) == AfterTick(Ticks(s, n))
    ensures Ticks(s, n).current == s.current && Ticks(s, n).tpt == s.tpt && Ticks(s, n).tps == s.tps
    decreases n
  {
    if n > 0 {
      TickThrough(AfterTick(s), n - 1);
    }
  }

  /** Every note a compiled bar (as every bar the language hands the player
      is: `Lib.ParseAssignsCompiled`) gives a slot lasts at least one step
      of ticks in the voicer's buffer. */
  lemma StepNotesLast(len: nat, evs: Events, step: nat, tps: nat)
    requires BarOk(len, evs)
    ensures forall h :: h in HeldOf(StepNotes(FromPair((len, evs)), step), tps) ==> h.dur >= tps
  {
    var ns := StepNotes(FromPair((len, evs)), step);
    CompiledBarSteps(len, evs, step);
    forall h | h in HeldOf(ns, tps)
      ensures h.dur >= tps
    {
      var j :| 0 <= j < |ns| && HeldOf(ns, tps)[j] == h;
      assert ns[j].duration >= 1;
    }
  }
}
