/** The sequencer (src/player/sequencer.rs): the outputs, the slots, the
    sync counter and the optional Launchpad, and the fixed-order tick that
    drives them. Every method is proved against a function on `SeqView`,
    the value of the sequencer and of the objects it owns. */
module Sequencers {
  import opened Base
  import opened SequenceTypes
  import opened Voicers
  import opened Slots
  import opened Controllers

  /** One sync cycle: four bars of 96 ticks. */
  const SYNC_CYCLE: nat := 96 * 4

  /** The fields of a voicer. */
  datatype VoiceView = VoiceView(channel: u8, online: bool, buffer: seq<Held>, sent: seq<Msg>)

  /** The sequencer's state: its outputs and slots as values, the tempo its
      timer was made for, the messages written to the Launchpad if one is
      attached, and the sync counter. */
  datatype SeqView = SeqView(outs: seq<VoiceView>, slots: seq<SlotView>, bpm: nat,
                             lp: Option<seq<Msg>>, syncTicks: nat)

  /** `pre_tick` on a voicer's value: the note-offs of its run-out notes
      that are not legato. */
  function PreTickOne(v: VoiceView): (r: VoiceView)
    ensures r.buffer == v.buffer && r.channel == v.channel && r.online == v.online
  {
    v.(sent := v.sent + PreTickOffs(v.channel, v.buffer))
  }

  /** `tick` on a voicer's value: its notes aged, run-out legato ones ended. */
  function TickOne(v: VoiceView): (r: VoiceView)
    ensures r.channel == v.channel && r.online == v.online
  {
    v.(buffer := Aged(v.buffer), sent := v.sent + TickOffs(v.channel, v.buffer))
  }

  /** `kill_all` on a voicer's value: a note-off for every note, none left. */
  function KillOne(v: VoiceView): (r: VoiceView)
    ensures r.buffer == [] && r.channel == v.channel && r.online == v.online
  {
    v.(buffer := [], sent := v.sent + AllOffs(v.channel, v.buffer))
  }

  // ---- The tick, phase by phase ----

  /** Phase 1: every voicer ends its run-out notes that are not legato. */
  function PreTicked(vs: seq<VoiceView>): (r: seq<VoiceView>)
    ensures |r| == |vs|
    ensures forall j :: 0 <= j < |vs| ==> r[j] == PreTickOne(vs[j])
  {
    if |vs| == 0 then [] else PreTicked(vs[..|vs| - 1]) + [PreTickOne(vs[|vs| - 1])]
  }

  /** A voicer after a slot's tick: what `play_step` gave it. */
  function Fed(v: VoiceView, s: SlotView): (r: VoiceView)
    ensures r.channel == v.channel && r.online == v.online
  {
    v.(buffer := v.buffer + HeldBy(s, v.online), sent := v.sent + OnsBy(s, v.channel, v.online))
  }

  /** Whether the tick can go through every slot: each slot, once synced,
      has what its own tick divides by. */
  predicate SlotsReady(ss: seq<SlotView>, t: nat)
  {
    forall j :: 0 <= j < |ss| ==> TickDefined(AfterSync(ss[j], t))
  }

  /** Phase 2 as the outputs see it: in slot order, each slot, synced to
      `t`, feeds the output it names, none when there is no such output. */
  function Feed(vs: seq<VoiceView>, ss: seq<SlotView>, t: nat): (r: seq<VoiceView>)
    ensures |r| == |vs|
  {
    if |ss| == 0 then vs else FeedOne(Feed(vs, ss[..|ss| - 1], t), AfterSync(ss[|ss| - 1], t))
  }

  /** One slot feeding the output it names, if there is one. */
  function FeedOne(vs: seq<VoiceView>, s: SlotView): (r: seq<VoiceView>)
    ensures |r| == |vs|
  {
    if s.out < |vs| then vs[s.out := Fed(vs[s.out], s)] else vs
  }

  /** Phase 2 over one more slot. */
  lemma FeedStep(vs: seq<VoiceView>, ss: seq<SlotView>, i: nat, t: nat)
    requires i < |ss|
    ensures Feed(vs, ss[..i + 1], t) == FeedOne(Feed(vs, ss[..i], t), AfterSync(ss[i], t))
  {
    assert ss[..i + 1][..i] == ss[..i];
  }

  /** Phase 2 as the slots see it: each synced, then ticked. */
  function SlotsTicked(ss: seq<SlotView>, t: nat): (r: seq<SlotView>)
    requires SlotsReady(ss, t)
    ensures |r| == |ss| && forall j :: 0 <= j < |ss| ==> r[j] == AfterTick(AfterSync(ss[j], t))
  {
    if |ss| == 0 then [] else SlotsTicked(ss[..|ss| - 1], t) + [AfterTick(AfterSync(ss[|ss| - 1], t))]
  }

  /** Phase 3: every voicer ages its notes, ending the run-out legato ones. */
  function Ticked(vs: seq<VoiceView>): (r: seq<VoiceView>)
    ensures |r| == |vs|
    ensures forall j :: 0 <= j < |vs| ==> r[j] == TickOne(vs[j])
  {
    if |vs| == 0 then [] else Ticked(vs[..|vs| - 1]) + [TickOne(vs[|vs| - 1])]
  }

  /** Phase 4: the sync counter moves on, wrapping at one cycle. */
  function NextSync(t: nat): (r: nat)
    ensures t < SYNC_CYCLE ==> r < SYNC_CYCLE && r == (t + 1) % SYNC_CYCLE
  {
    if t + 1 == SYNC_CYCLE then 0 else t + 1
  }

  /** `tick`: the four phases in order. */
  function TickOf(v: SeqView): (r: SeqView)
    requires SlotsReady(v.slots, v.syncTicks)
    ensures |r.outs| == |v.outs| && |r.slots| == |v.slots|
    ensures r.bpm == v.bpm && r.lp == v.lp && r.syncTicks == NextSync(v.syncTicks)
  {
    v.(outs := Ticked(Feed(PreTicked(v.outs), v.slots, v.syncTicks)),
       slots := SlotsTicked(v.slots, v.syncTicks), syncTicks := NextSync(v.syncTicks))
  }

  // ---- What one voicer receives in phase 2 ----

  /** The notes the slots give output `k` in phase 2, in slot order. */
  function HeldFor(k: nat, online: bool, ss: seq<SlotView>, t: nat): seq<Held>
  {
    if |ss| == 0 then []
    else
      var s := AfterSync(ss[|ss| - 1], t);
      HeldFor(k, online, ss[..|ss| - 1], t) + (if s.out == k then HeldBy(s, online) else [])
  }

  function OnsFor(k: nat, ch: u8, online: bool, ss: seq<SlotView>, t: nat): seq<Msg>
  {
    if |ss| == 0 then []
    else
      var s := AfterSync(ss[|ss| - 1], t);
      OnsFor(k, ch, online, ss[..|ss| - 1], t) + (if s.out == k then OnsBy(s, ch, online) else [])
  }

  /** Output `k` ends phase 2 with its own notes followed by those of every
      slot that names it, in slot order, and with their note-ons sent. */
  /** Output `k`'s value fed by every slot that names it, in slot order. */
  function FedBy(v: VoiceView, k: nat, ss: seq<SlotView>, t: nat): VoiceView
  {
    if |ss| == 0 then v
    else
      var v' := FedBy(v, k, ss[..|ss| - 1], t);
      var s := AfterSync(ss[|ss| - 1], t);
      if s.out == k then Fed(v', s) else v'
  }

  lemma {:induction false} FeedReaches(vs: seq<VoiceView>, ss: seq<SlotView>, t: nat, k: nat)
    requires k < |vs|
    ensures Feed(vs, ss, t)[k] == FedBy(vs[k], k, ss, t)
    decreases |ss|
  {
    if |ss| > 0 {
      FeedReaches(vs, ss[..|ss| - 1], t, k);
    }
  }

  lemma {:induction false} FedByParts(v: VoiceView, k: nat, ss: seq<SlotView>, t: nat)
    ensures FedBy(v, k, ss, t).channel == v.channel && FedBy(v, k, ss, t).online == v.online
    ensures FedBy(v, k, ss, t).buffer == v.buffer + HeldFor(k, v.online, ss, t)
    ensures FedBy(v, k, ss, t).sent == v.sent + OnsFor(k, v.channel, v.online, ss, t)
    decreases |ss|
  {
    if |ss| > 0 {
      FedByParts(v, k, ss[..|ss| - 1], t);
    }
  }

  /** A whole tick as output `k` sees it: the note-offs of phase 1, the
      note-ons of the slots that name it, then the note-offs of phase 3
      over the notes it held plus the new ones; its notes are those aged
      once. */
  lemma TickForVoicer(v: SeqView, k: nat)
    requires SlotsReady(v.slots, v.syncTicks) && k < |v.outs|
    ensures var o := v.outs[k];
            var b := o.buffer + HeldFor(k, o.online, v.slots, v.syncTicks);
            && TickOf(v).outs[k].buffer == Aged(b)
            && TickOf(v).outs[k].sent == o.sent + PreTickOffs(o.channel, o.buffer)
                 + OnsFor(k, o.channel, o.online, v.slots, v.syncTicks) + TickOffs(o.channel, b)
  {
    FeedReaches(PreTicked(v.outs), v.slots, v.syncTicks, k);
    FedByParts(PreTicked(v.outs)[k], k, v.slots, v.syncTicks);
  }

  /** The sync counter starts at 0 and stays within one cycle. */
  lemma SyncTicksBounded(v: SeqView)
    requires SlotsReady(v.slots, v.syncTicks) && v.syncTicks < SYNC_CYCLE
    ensures TickOf(v).syncTicks < SYNC_CYCLE
    ensures TickOf(v).syncTicks == 0 <==> v.syncTicks == SYNC_CYCLE - 1
  {
  }

  /** A slot with no output, or with one past the last output, still moves
      its cursor but gives no voicer anything. */
  lemma {:induction false} UnroutedSlotSilent(k: nat, ch: u8, online: bool, ss: seq<SlotView>, t: nat)
    requires forall j :: 0 <= j < |ss| ==> ss[j].out != k
    ensures HeldFor(k, online, ss, t) == [] && OnsFor(k, ch, online, ss, t) == []
    decreases |ss|
  {
    if |ss| > 0 {
      UnroutedSlotSilent(k, ch, online, ss[..|ss| - 1], t);
    }
  }

  // ---- Commands ----

  /** `kill_all`: every slot stopped and rewound, every voicer silenced. */
  function KillAllOf(v: SeqView): (r: SeqView)
    ensures |r.slots| == |v.slots| && |r.outs| == |v.outs|
    ensures forall j :: 0 <= j < |v.slots| ==> r.slots[j] == AfterStop(v.slots[j])
    ensures forall j :: 0 <= j < |v.outs| ==>
              (&& r.outs[j].buffer == []
               && r.outs[j].sent == v.outs[j].sent + AllOffs(v.outs[j].channel, v.outs[j].buffer)
               && r.outs[j].channel == v.outs[j].channel && r.outs[j].online == v.outs[j].online)
    ensures r.bpm == v.bpm && r.lp == v.lp && r.syncTicks == v.syncTicks
  {
    v.(slots := StopAll(v.slots), outs := KillAllOuts(v.outs))
  }

  function StopAll(ss: seq<SlotView>): (r: seq<SlotView>)
    ensures |r| == |ss| && forall j :: 0 <= j < |ss| ==> r[j] == AfterStop(ss[j])
  {
    if |ss| == 0 then [] else StopAll(ss[..|ss| - 1]) + [AfterStop(ss[|ss| - 1])]
  }

  function KillAllOuts(vs: seq<VoiceView>): (r: seq<VoiceView>)
    ensures |r| == |vs| && forall j :: 0 <= j < |vs| ==> r[j] == KillOne(vs[j])
  {
    if |vs| == 0 then [] else KillAllOuts(vs[..|vs| - 1]) + [KillOne(vs[|vs| - 1])]
  }

  /** After `kill_all` no slot plays and no note sounds. */
  lemma KillAllSilences(v: SeqView, j: nat, k: nat)
    ensures j < |v.slots| ==> StateOf(KillAllOf(v).slots[j]) in {SlotState.Empty, SlotState.Stopped}
    ensures k < |v.outs| ==> KillAllOf(v).outs[k].buffer == []
  {
  }

  /** The pad colour of each slot state. */
  function StateColor(st: SlotState): (c: Color)
    ensures st == SlotState.Empty <==> c == Off
  {
    match st
    case Empty => Off
    case Stopped => Red3
    case StopSyncing => Red1
    case Playing => Green3
    case PlaySyncing => Green1
  }

  /** The pad shows the state: different states, different codes. */
  lemma StateColorsDistinct(a: SlotState, b: SlotState)
    ensures ColorCode(StateColor(a)) == ColorCode(StateColor(b)) ==> a == b
  {
    ColorCodesDistinct(StateColor(a), StateColor(b));
  }

  /** What `sync_lp` writes: slot `i` to cell (i / 8, i % 8) in its
      state's colour. */
  function LpFrame(ss: seq<SlotView>): (r: seq<Msg>)
    ensures |r| == |ss|
  {
    if |ss| == 0 then [] else LpFrame(ss[..|ss| - 1]) + [Cell(|ss| - 1, ss[|ss| - 1])]
  }

  /** What `sync_lp` writes for slot `i` in state `s`. */
  function Cell(i: nat, s: SlotView): Msg
  {
    GridMessage(i / 8, i % 8, ColorCode(StateColor(StateOf(s))))
  }

  /** `sync_lp`: nothing without a Launchpad. */
  function SyncLpOf(v: SeqView): (r: SeqView)
    ensures v.lp.None? ==> r == v
    ensures v.lp.Some? ==> r == v.(lp := Some(v.lp.value + LpFrame(v.slots)))
  {
    match v.lp
    case None => v
    case Some(log) => v.(lp := Some(log + LpFrame(v.slots)))
  }

  /** Slot `i`'s message in the frame. */
  lemma {:induction false} LpFrameAt(ss: seq<SlotView>, i: nat)
    requires i < |ss|
    ensures LpFrame(ss)[i] == GridMessage(i / 8, i % 8, ColorCode(StateColor(StateOf(ss[i]))))
    decreases |ss|
  {
    if i < |ss| - 1 {
      LpFrameAt(ss[..|ss| - 1], i);
    }
  }

  /** Pressing the pad lit for one of the first 64 slots toggles that
      slot. */
  lemma PadTogglesItsSlot(ss: seq<SlotView>, i: nat, vel: u8)
    requires i < |ss| && i < 64 && vel != 0
    ensures |LpFrame(ss)[i]| == 3 && Decode(LpFrame(ss)[i][2 := vel]) == Ok(Some(i))
  {
    LpFrameAt(ss, i);
    SlotPadRoundTrip(i, ColorCode(StateColor(StateOf(ss[i]))), vel);
  }

  /** The commands that address one slot. */
  datatype SlotCmd = CAssign(sq: MapSeq) | COut(out: nat) | CSetSync(n: nat) | CSetDiv(d: nat)
                   | CPlay | CStop | CToggle

  function SlotAfter(s: SlotView, c: SlotCmd): SlotView
  {
    match c
    case CAssign(sq) => AfterAssign(s, sq)
    case COut(o) => s.(out := o)
    case CSetSync(n) => AfterSetSync(s, n)
    case CSetDiv(d) => s.(tps := d)
    case CPlay => AfterPlay(s)
    case CStop => AfterStop(s)
    case CToggle => AfterToggle(s)
  }

  /** Whether the command refreshes the Launchpad afterwards. */
  predicate Shows(c: SlotCmd)
  {
    c.CSetSync? || c.CPlay? || c.CStop? || c.CToggle?
  }

  /** A command to slot `i`: a slot index past the end does nothing;
      otherwise only slot `i` changes, and the Launchpad is refreshed after
      the transport and sync commands. */
  function SlotCmdOf(v: SeqView, i: nat, c: SlotCmd): (r: SeqView)
    ensures i >= |v.slots| ==> r == v
    ensures i < |v.slots| ==>
              var v' := v.(slots := v.slots[i := SlotAfter(v.slots[i], c)]);
              r == if Shows(c) then SyncLpOf(v') else v'
    ensures |r.slots| == |v.slots| && r.outs == v.outs && r.bpm == v.bpm && r.syncTicks == v.syncTicks
    ensures forall j :: 0 <= j < |v.slots| && j != i ==> r.slots[j] == v.slots[j]
  {
    if i >= |v.slots| then v
    else
      var v' := v.(slots := v.slots[i := SlotAfter(v.slots[i], c)]);
      if Shows(c) then SyncLpOf(v') else v'
  }

  /** `init`: `slot_count` default slots, no outputs, the counter at 0. */
  function InitOf(bpm: nat, slotCount: nat, lp: Option<seq<Msg>>): (r: SeqView)
    ensures |r.slots| == slotCount && r.outs == [] && r.syncTicks == 0
    ensures forall j :: 0 <= j < slotCount ==> r.slots[j] == DefaultSlot
  {
    SeqView([], Defaults(slotCount), bpm, lp, 0)
  }

  function Defaults(n: nat): (r: seq<SlotView>)
    ensures |r| == n && forall j :: 0 <= j < n ==> r[j] == DefaultSlot
  {
    if n == 0 then [] else Defaults(n - 1) + [DefaultSlot]
  }

  /** A slot whose tick can never divide by zero: a positive division
      and, if it has a sequence, a non-empty one. */
  predicate Sane(s: SlotView)
  {
    s.tps > 0 && (s.current.Some? ==> s.current.value.len > 0)
  }

  predicate AllSane(ss: seq<SlotView>)
  {
    forall j :: 0 <= j < |ss| ==> Sane(ss[j])
  }

  /** Sane slots can always tick, whatever the sync counter. */
  lemma SaneReady(ss: seq<SlotView>, t: nat)
    requires AllSane(ss)
    ensures SlotsReady(ss, t)
  {
  }

  /** A fresh sequencer's slots are sane. */
  lemma InitSane(tempo: nat, slotCount: nat, pad: Option<seq<Msg>>)
    ensures AllSane(InitOf(tempo, slotCount, pad).slots)
  {
  }

  /** Ticking and `kill_all` keep the slots sane, and so does every command
      except a zero division or an empty sequence: a sequencer driven only
      by those never panics in `tick`. */
  lemma TickKeepsSane(v: SeqView)
    requires AllSane(v.slots)
    ensures SlotsReady(v.slots, v.syncTicks) && AllSane(TickOf(v).slots)
  {
    SaneReady(v.slots, v.syncTicks);
  }

  lemma KillAllKeepsSane(v: SeqView)
    requires AllSane(v.slots)
    ensures AllSane(KillAllOf(v).slots)
  {
  }

  lemma CommandKeepsSane(v: SeqView, i: nat, c: SlotCmd)
    requires AllSane(v.slots)
    requires c.CSetDiv? ==> c.d > 0
    requires c.CAssign? ==> c.sq.len > 0
    ensures AllSane(SlotCmdOf(v, i, c).slots)
  {
    if i < |v.slots| {
      assert Sane(SlotAfter(v.slots[i], c));
    }
  }

  // ---- The class ----

  /** The sequencer. It owns its outputs and slots (they are moved into
      its vectors and never shared), so it holds their values and updates
      them in place, each by the same function the `Voicer` and `Slot`
      methods are proved against. */
  class Sequencer {
    var outs: seq<VoiceView>
    var slots: seq<SlotView>
    /** `timer`: the tempo it was made for. */
    var bpm: nat
    /** `lp`: the messages written to the Launchpad, if one is attached. */
    var lp: Option<seq<Msg>>
    var syncTicks: nat

    function View(): SeqView
      reads this
    {
      SeqView(outs, slots, bpm, lp, syncTicks)
    }

    /** `init`. */
    constructor Init(tempo: nat, slotCount: nat, pad: Option<seq<Msg>>)
      ensures View() == InitOf(tempo, slotCount, pad)
    {
      var ss: seq<SlotView> := [];
      while |ss| < slotCount
        invariant |ss| <= slotCount && ss == Defaults(|ss|)
      {
        ss := ss + [DefaultSlot];
      }
      outs := [];
      slots := ss;
      bpm := tempo;
      lp := pad;
      syncTicks := 0;
    }

    /** `set_bpm`: a new timer; nothing else changes. */
    method SetBpm(tempo: nat)
      modifies this
      ensures View() == old(View()).(bpm := tempo)
    {
      bpm := tempo;
    }

    /** `tick`, which always reports success. */
    method Tick() returns (r: Result<(), nat>)
      requires SlotsReady(slots, syncTicks)
      modifies this
      ensures View() == TickOf(old(View())) && r == Ok(())
    {
      PreTickAll();
      SlotsPhase();
      TickAll();
      syncTicks := syncTicks + 1;
      if syncTicks == SYNC_CYCLE {
        syncTicks := 0;
      }
      r := Ok(());
    }

    /** Phase 1 of `tick`. */
    method PreTickAll()
      modifies this
      ensures View() == old(View()).(outs := PreTicked(old(outs)))
    {
      var i := 0;
      while i < |outs|
        invariant i <= |outs| == |old(outs)|
        invariant forall j :: 0 <= j < i ==> outs[j] == PreTickOne(old(outs)[j])
        invariant forall j :: i <= j < |outs| ==> outs[j] == old(outs)[j]
        invariant unchanged(this`slots, this`syncTicks, this`bpm, this`lp)
      {
        outs := outs[i := PreTickOne(outs[i])];
        i := i + 1;
      }
    }

    /** Phase 2 of `tick`. */
    method SlotsPhase()
      requires SlotsReady(slots, syncTicks)
      modifies this
      ensures View() == old(View()).(outs := Feed(old(outs), old(slots), old(syncTicks)),
                                      slots := SlotsTicked(old(slots), old(syncTicks)))
    {
      var vs, ss := outs, slots;
      var i := 0;
      while i < |ss|
        invariant unchanged(this) && i <= |ss| == |slots|
        invariant vs == Feed(outs, slots[..i], syncTicks)
        invariant forall j :: 0 <= j < i ==> ss[j] == AfterTick(AfterSync(slots[j], syncTicks))
        invariant forall j :: i <= j < |ss| ==> ss[j] == slots[j]
      {
        FeedStep(outs, slots, i, syncTicks);
        var s := AfterSync(ss[i], syncTicks);
        if s.out < |vs| {
          vs := vs[s.out := Fed(vs[s.out], s)];
        }
        assert vs == FeedOne(Feed(outs, slots[..i], syncTicks), s);
        ss := ss[i := AfterTick(s)];
        i := i + 1;
      }
      assert slots[..i] == slots;
      assert ss == SlotsTicked(slots, syncTicks);
      outs, slots := vs, ss;
    }

    /** Phase 3 of `tick`. */
    method TickAll()
      modifies this
      ensures View() == old(View()).(outs := Ticked(old(outs)))
    {
      var i := 0;
      while i < |outs|
        invariant i <= |outs| == |old(outs)|
        invariant forall j :: 0 <= j < i ==> outs[j] == TickOne(old(outs)[j])
        invariant forall j :: i <= j < |outs| ==> outs[j] == old(outs)[j]
        invariant unchanged(this`slots, this`syncTicks, this`bpm, this`lp)
      {
        outs := outs[i := TickOne(outs[i])];
        i := i + 1;
      }
    }

    /** `kill_all`: the slots stopped first, then the voicers silenced. */
    method KillAll()
      modifies this
      ensures View() == KillAllOf(old(View()))
    {
      var i := 0;
      while i < |slots|
        invariant i <= |slots| == |old(slots)|
        invariant forall j :: 0 <= j < i ==> slots[j] == AfterStop(old(slots)[j])
        invariant forall j :: i <= j < |slots| ==> slots[j] == old(slots)[j]
        invariant unchanged(this`outs, this`syncTicks, this`bpm, this`lp)
      {
        slots := slots[i := AfterStop(slots[i])];
        i := i + 1;
      }
      i := 0;
      while i < |outs|
        invariant i <= |outs| == |old(outs)|
        invariant forall j :: 0 <= j < i ==> outs[j] == KillOne(old(outs)[j])
        invariant forall j :: i <= j < |outs| ==> outs[j] == old(outs)[j]
        invariant slots == StopAll(old(slots))
        invariant unchanged(this`syncTicks, this`bpm, this`lp)
      {
        outs := outs[i := KillOne(outs[i])];
        i := i + 1;
      }
    }

    /** `push_output`: the voicer becomes the last output; the new count is
        returned. */
    method PushOutput(v: VoiceView) returns (n: nat)
      modifies this
      ensures View() == old(View()).(outs := old(outs) + [v])
      ensures n == |outs| == |old(outs)| + 1
    {
      outs := outs + [v];
      n := |outs|;
    }

    /** `sync_lp`. */
    method SyncLp()
      modifies this
      ensures View() == SyncLpOf(old(View()))
    {
      if lp.None? {
        return;
      }
      var log := lp.value;
      var i := 0;
      while i < |slots|
        invariant i <= |slots|
        invariant log == lp.value + LpFrame(slots[..i])
      {
        assert slots[..i + 1][..i] == slots[..i];
        log := log + [Cell(i, slots[i])];
        i := i + 1;
      }
      assert slots[..i] == slots;
      lp := Some(log);
    }

    /** `add_lp`: a Launchpad attached, then shown every slot. */
    method AddLp()
      modifies this
      ensures View() == SyncLpOf(old(View()).(lp := Some([])))
    {
      lp := Some([]);
      SyncLp();
    }

    /** `drop_lp`. */
    method DropLp()
      modifies this
      ensures View() == old(View()).(lp := None)
    {
      lp := None;
    }

    /** The commands to one slot: `assign_slot`, `assign_slot_output`,
        `set_sync`, `set_div`, `play_slot`, `stop_slot`, `toggle_slot`. */
    method Command(i: nat, c: SlotCmd)
      modifies this
      ensures View() == SlotCmdOf(old(View()), i, c)
    {
      if i >= |slots| {
        return;
      }
      slots := slots[i := SlotAfter(slots[i], c)];
      if Shows(c) {
        SyncLp();
      }
    }
  }
}
