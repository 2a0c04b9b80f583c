/** One MIDI output of the player (src/player/voicer.rs): the notes sounding
    on one channel, each with the steps it has left, and the connection the
    note-on and note-off messages go to.

    The connection is the log of the messages sent on it. Sending a note-on
    can fail, and `play_note` reports that; the note-offs the source sends
    with `expect` are taken to go through. */
module Voicers {
  import opened Base

  /** A MIDI message, as the bytes sent. */
  type Msg = seq<u8>

  /** A channel-voice status byte: the message kind in the high nibble or'ed
      with the channel. */
  function Status(kind: bv8, ch: u8): u8
  {
    (kind | ch as bv8) as int
  }

  /** On the sixteen MIDI channels the or is an addition: the channel
      fills the low nibble. A larger channel would change the message
      kind. */
  lemma ChannelStatus(ch: u8)
    ensures ch < 16 ==> Status(0x90, ch) == 0x90 + ch && Status(0x80, ch) == 0x80 + ch
    ensures ch == 0x20 ==> Status(0x90, ch) == 0xB0
  {
    if ch < 16 {
      var c := ch as bv8;
      assert c < 16;
      assert 0x90 | c == 0x90 + c;
      assert 0x80 | c == 0x80 + c;
    }
  }

  /** Note-on (status 0x9n) with key `nn` and velocity `v`, as in the
      Channel Voice Messages section of the MIDI 1.0 Detailed
      Specification. */
  function NoteOn(ch: u8, nn: u8, v: u8): (m: Msg)
    ensures |m| == 3 && m[1] == nn && m[2] == v
    ensures ch < 16 ==> m[0] == 0x90 + ch
  {
    ChannelStatus(ch);
    [Status(0x90, ch), nn, v]
  }

  /** Note-off (status 0x8n) with key `nn` and release velocity `ov`. */
  function NoteOff(ch: u8, nn: u8, ov: u8): (m: Msg)
    ensures |m| == 3 && m[1] == nn && m[2] == ov
    ensures ch < 16 ==> m[0] == 0x80 + ch
  {
    ChannelStatus(ch);
    [Status(0x80, ch), nn, ov]
  }

  /** A sounding note: key, release velocity, steps left, legato. */
  datatype Held = Held(nn: u8, ov: u8, dur: nat, leg: bool)

  function Off(ch: u8, h: Held): Msg
  {
    NoteOff(ch, h.nn, h.ov)
  }

  /** The note-offs `pre_tick` sends: one per note with no step left that is
      not legato, in buffer order. */
  function PreTickOffs(ch: u8, b: seq<Held>): seq<Msg>
  {
    if |b| == 0 then []
    else
      var h := b[|b| - 1];
      PreTickOffs(ch, b[..|b| - 1]) + (if h.dur == 0 && !h.leg then [Off(ch, h)] else [])
  }

  /** The note-offs `tick` sends: one per legato note with no step left. */
  function TickOffs(ch: u8, b: seq<Held>): seq<Msg>
  {
    if |b| == 0 then []
    else
      var h := b[|b| - 1];
      TickOffs(ch, b[..|b| - 1]) + (if h.dur == 0 && h.leg then [Off(ch, h)] else [])
  }

  /** The buffer `tick` keeps: the notes with steps left, one step older,
      in their order. */
  function Aged(b: seq<Held>): (r: seq<Held>)
    ensures |r| <= |b|
  {
    if |b| == 0 then []
    else
      var h := b[|b| - 1];
      Aged(b[..|b| - 1]) + (if h.dur > 0 then [Held(h.nn, h.ov, h.dur - 1, h.leg)] else [])
  }

  /** A note-off for every note, in buffer order. */
  function AllOffs(ch: u8, b: seq<Held>): (r: seq<Msg>)
    ensures |r| == |b|
  {
    if |b| == 0 then [] else AllOffs(ch, b[..|b| - 1]) + [Off(ch, b[|b| - 1])]
  }

  /** The note-off of each note sits at that note's place. */
  lemma {:induction false} AllOffsAt(ch: u8, b: seq<Held>, i: nat)
    requires i < |b|
    ensures AllOffs(ch, b)[i] == Off(ch, b[i])
  {
    if i < |b| - 1 {
      AllOffsAt(ch, b[..|b| - 1], i);
    }
  }

  lemma AllOffsSnoc(ch: u8, b: seq<Held>, h: Held)
    ensures AllOffs(ch, b + [h]) == AllOffs(ch, b) + [Off(ch, h)]
  {
    assert (b + [h])[..|b + [h]| - 1] == b;
  }

  /* ------------------------------------------------------------------ */
  /* The life of a note. */

  /** `pre_tick` then `tick`, `k` times over, from the buffer `b`: the
      buffer left and the messages sent, in order. */
  function Cycles(ch: u8, b: seq<Held>, k: nat): (seq<Held>, seq<Msg>)
  {
    if k == 0 then (b, [])
    else
      var (b', m) := Cycles(ch, b, k - 1);
      (Aged(b'), m + PreTickOffs(ch, b') + TickOffs(ch, b'))
  }

  /** The notes of `b` with at least `k` steps left, `k` steps older. */
  function AgedBy(b: seq<Held>, k: nat): seq<Held>
  {
    if |b| == 0 then []
    else
      var h := b[|b| - 1];
      AgedBy(b[..|b| - 1], k) + (if h.dur >= k then [Held(h.nn, h.ov, h.dur - k, h.leg)] else [])
  }

  /** The notes of `b` with exactly `k` steps left and legato `leg`. */
  function Due(b: seq<Held>, k: nat, leg: bool): seq<Held>
  {
    if |b| == 0 then []
    else
      var h := b[|b| - 1];
      Due(b[..|b| - 1], k, leg) + (if h.dur == k && h.leg == leg then [h] else [])
  }

  /** The note-offs of the first `k` rounds, told from the starting buffer:
      round `j + 1` ends the notes that had `j` steps left, the plain ones
      first and then the legato ones, each in buffer order. */
  function Rounds(ch: u8, b: seq<Held>, k: nat): seq<Msg>
  {
    if k == 0 then []
    else Rounds(ch, b, k - 1) + AllOffs(ch, Due(b, k - 1, false)) + AllOffs(ch, Due(b, k - 1, true))
  }

  /** One more `tick` ages the survivors by one more step. */
  lemma {:induction false} AgedStep(b: seq<Held>, k: nat)
    ensures Aged(AgedBy(b, k)) == AgedBy(b, k + 1)
  {
    if |b| > 0 {
      var b', h := b[..|b| - 1], b[|b| - 1];
      AgedStep(b', k);
      var a := AgedBy(b', k);
      if h.dur >= k {
        var x := Held(h.nn, h.ov, h.dur - k, h.leg);
        assert (a + [x])[..|a + [x]| - 1] == a;
      } else {
        assert a + [] == a;
      }
    }
  }

  /** After `k` rounds `pre_tick` ends the plain notes that had `k` steps
      left, and `tick` the legato ones. */
  lemma {:induction false} RoundOffs(ch: u8, b: seq<Held>, k: nat)
    ensures PreTickOffs(ch, AgedBy(b, k)) == AllOffs(ch, Due(b, k, false))
    ensures TickOffs(ch, AgedBy(b, k)) == AllOffs(ch, Due(b, k, true))
  {
    if |b| > 0 {
      var b', h := b[..|b| - 1], b[|b| - 1];
      RoundOffs(ch, b', k);
      var a := AgedBy(b', k);
      var dp, dl := Due(b', k, false), Due(b', k, true);
      if h.dur >= k {
        var x := Held(h.nn, h.ov, h.dur - k, h.leg);
        assert (a + [x])[..|a + [x]| - 1] == a;
        if h.dur == k {
          if h.leg {
            AllOffsSnoc(ch, dl, h);
            assert dp + [] == dp;
          } else {
            AllOffsSnoc(ch, dp, h);
            assert dl + [] == dl;
          }
        } else {
          assert dp + [] == dp && dl + [] == dl;
        }
      } else {
        assert a + [] == a;
        assert dp + [] == dp && dl + [] == dl;
      }
    }
  }

  /** With `pre_tick` and `tick` alternating, after `k` rounds the buffer
      holds the notes that had at least `k` steps left, aged by `k` and in
      their order, and the note-offs sent are those of `Rounds`. */
  lemma {:induction false} NoteLifetimes(ch: u8, b: seq<Held>, k: nat)
    ensures Cycles(ch, b, k) == (AgedBy(b, k), Rounds(ch, b, k))
  {
    if k == 0 {
      NothingAged(b);
    } else {
      NoteLifetimes(ch, b, k - 1);
      AgedStep(b, k - 1);
      RoundOffs(ch, b, k - 1);
    }
  }

  lemma {:induction false} NothingAged(b: seq<Held>)
    ensures AgedBy(b, 0) == b
  {
    if |b| > 0 {
      NothingAged(b[..|b| - 1]);
      assert b[..|b| - 1] + [b[|b| - 1]] == b;
    }
  }

  /** A single note with `d` steps left is ended exactly once, in round
      `d + 1`, and sounds, aging, until then. */
  lemma {:induction false} OneNoteOff(ch: u8, h: Held, k: nat)
    ensures k <= h.dur ==> Cycles(ch, [h], k) == ([Held(h.nn, h.ov, h.dur - k, h.leg)], [])
    ensures k > h.dur ==> Cycles(ch, [h], k) == ([], [Off(ch, h)])
  {
    NoteLifetimes(ch, [h], k);
    OneNoteRounds(ch, h, k);
    assert [h][..0] == [];
    assert AgedBy([h], k) == if h.dur >= k then [Held(h.nn, h.ov, h.dur - k, h.leg)] else [];
  }

  lemma {:induction false} OneNoteRounds(ch: u8, h: Held, k: nat)
    ensures Rounds(ch, [h], k) == if k > h.dur then [Off(ch, h)] else []
  {
    assert [h][..0] == [];
    if k > 0 {
      OneNoteRounds(ch, h, k - 1);
      if k - 1 == h.dur {
        if h.leg {
          assert Due([h], k - 1, true) == [h];
          assert Due([h], k - 1, false) == [];
        } else {
          assert Due([h], k - 1, false) == [h];
          assert Due([h], k - 1, true) == [];
        }
      } else {
        assert Due([h], k - 1, true) == [] && Due([h], k - 1, false) == [];
      }
    }
  }

  /** A run-out plain note that meets `tick` without a `pre_tick` before
      it, as a note played between the two does, is dropped and never
      ended. */
  lemma UnendedNote(ch: u8, b: seq<Held>, h: Held)
    requires h.dur == 0 && !h.leg
    ensures Aged(b + [h]) == Aged(b) && TickOffs(ch, b + [h]) == TickOffs(ch, b)
  {
    assert (b + [h])[..|b + [h]| - 1] == b;
  }

  datatype VoiceError = NoteOnFailed | NoteOffFailed | CouldntFindDevice | NoMidi | NoConnect | NoDevice

  class Voicer {
    /** The MIDI channel, or'ed into every status byte. */
    const channel: u8
    /** Whether the connection takes a note-on. */
    const online: bool
    /** The notes sounding, oldest first. */
    var buffer: seq<Held>
    /** Every message sent on the connection, oldest first. */
    var sent: seq<Msg>

    /** `Voicer::new`: nothing sounding, nothing sent. */
    constructor (ch: u8, up: bool)
      ensures channel == ch && online == up && buffer == [] && sent == []
    {
      channel := ch;
      online := up;
      buffer := [];
      sent := [];
    }

    /** Sends the note-on, then records the note; when the send fails
        nothing is recorded. */
    method PlayNote(nn: u8, v: u8, ov: u8, dur: nat, leg: bool) returns (r: Result<(), VoiceError>)
      modifies this
      ensures online ==> r == Ok(()) && sent == old(sent) + [NoteOn(channel, nn, v)]
                         && buffer == old(buffer) + [Held(nn, ov, dur, leg)]
      ensures !online ==> r == Fail(NoteOnFailed) && sent == old(sent) && buffer == old(buffer)
    {
      if !online {
        return Fail(NoteOnFailed);
      }
      sent := sent + [NoteOn(channel, nn, v)];
      buffer := buffer + [Held(nn, ov, dur, leg)];
      r := Ok(());
    }

    /** Ends the notes that have run out and are not legato; the buffer is
        left as it is. */
    method PreTick()
      modifies this
      ensures buffer == old(buffer)
      ensures sent == old(sent) + PreTickOffs(channel, old(buffer))
    {
      var i := 0;
      while i < |buffer|
        invariant i <= |buffer| && buffer == old(buffer)
        invariant sent == old(sent) + PreTickOffs(channel, buffer[..i])
      {
        assert buffer[..i + 1][..i] == buffer[..i];
        var h := buffer[i];
        if h.dur == 0 && !h.leg {
          sent := sent + [NoteOff(channel, h.nn, h.ov)];
        }
        i := i + 1;
      }
      assert buffer[..i] == buffer;
    }

    /** `retain_mut` over the buffer: a run-out legato note is ended and
        dropped, a run-out plain note is dropped silently, every other note
        loses a step. */
    method Tick()
      modifies this
      ensures buffer == Aged(old(buffer))
      ensures sent == old(sent) + TickOffs(channel, old(buffer))
    {
      var kept := [];
      var i := 0;
      while i < |buffer|
        invariant i <= |buffer| && buffer == old(buffer)
        invariant kept == Aged(buffer[..i])
        invariant sent == old(sent) + TickOffs(channel, buffer[..i])
      {
        assert buffer[..i + 1][..i] == buffer[..i];
        var h := buffer[i];
        if h.dur == 0 && h.leg {
          sent := sent + [NoteOff(channel, h.nn, h.ov)];
        } else if h.dur > 0 {
          kept := kept + [Held(h.nn, h.ov, h.dur - 1, h.leg)];
        }
        i := i + 1;
      }
      assert buffer[..i] == buffer;
      buffer := kept;
    }

    /** Ends every note, whatever it has left, and empties the buffer. The
        source also runs this when a voicer is dropped. */
    method KillAll()
      modifies this
      ensures buffer == []
      ensures sent == old(sent) + AllOffs(channel, old(buffer))
    {
      var i := 0;
      while i < |buffer|
        invariant i <= |buffer| && buffer == old(buffer)
        invariant sent == old(sent) + AllOffs(channel, buffer[..i])
      {
        assert buffer[..i + 1][..i] == buffer[..i];
        sent := sent + [NoteOff(channel, buffer[i].nn, buffer[i].ov)];
        i := i + 1;
      }
      assert buffer[..i] == buffer;
      buffer := [];
    }
  }
}
