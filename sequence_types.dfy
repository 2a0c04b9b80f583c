/** The player's sequences (src/sequence_types/mod.rs): a compiled bar as
    the player holds it, a length and the notes starting at each step. The
    source reaches it through the `Sequence` trait, of which `MapSeq` is the
    one implementation; `events` takes `&mut self` but changes nothing,
    which a value here makes plain. */
module SequenceTypes {
  import opened Base
  import opened SeqTypes

  datatype MapSeq = MapSeq(notes: Events, len: nat)
  {
    function Len(): nat
    {
      len
    }

    /** The notes starting at `step`, `None` when none are recorded. */
    function EventsAt(step: nat): (r: Option<seq<SeqNote>>)
      ensures r.Some? <==> step in notes
      ensures r.Some? ==> r.value == notes[step]
    {
      if step in notes then Some(notes[step]) else None
    }
  }

  /** `MapSeq::new(notes, len)`. */
  function New(notes: Events, len: nat): (m: MapSeq)
    ensures m.Len() == len
    ensures forall step :: m.EventsAt(step) == if step in notes then Some(notes[step]) else None
  {
    MapSeq(notes, len)
  }

  /** `From<(usize, HashMap)>`: the pair comes length first, `new` takes
      the notes first. */
  function FromPair(p: (nat, Events)): (m: MapSeq)
    ensures m == New(p.1, p.0)
  {
    New(p.1, p.0)
  }

  /** A compiled bar (`BarOk`, which every bar the language hands the
      player meets: `Lib.ParseAssignsCompiled`) plays only within its
      length once it is a `MapSeq`: no step at or past the length has
      notes, and every note lasts at least one step. */
  lemma CompiledBarSteps(len: nat, evs: Events, step: nat)
    requires BarOk(len, evs)
    ensures FromPair((len, evs)).EventsAt(step).Some? ==> step < len
    ensures match FromPair((len, evs)).EventsAt(step)
            case Some(ns) => forall j :: 0 <= j < |ns| ==> ns[j].duration >= 1
            case None => true
  {
  }
}
