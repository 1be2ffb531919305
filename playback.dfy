/**
 * The player base of the radio client: the integer command codes, the one-slot command
 * mailbox that every user-facing wrapper writes to, and the audio backend reduced to the
 * log of instructions it receives.
 */
module Playback {
  import opened Wrappers

  // Command codes. Codes below CmdChannel are channel numbers.
  const CmdChannel := 100
  const CmdStop := 101
  const CmdPlay := 102
  const CmdLoop := 103
  const CmdPause := 104
  const CmdNext := 105
  const CmdPrev := 106
  const CmdSkip := 107
  const CmdLike := 108
  const CmdUnlike := 109
  const CmdTrash := 110
  const CmdTune := 111
  const CmdLogin := 112

  /** All command codes, in declaration order. */
  function Codes(): (cs: seq<int>)
    ensures |cs| == 13
  {
    [CmdChannel, CmdStop, CmdPlay, CmdLoop, CmdPause, CmdNext, CmdPrev,
     CmdSkip, CmdLike, CmdUnlike, CmdTrash, CmdTune, CmdLogin]
  }

  /** The codes are consecutive from CmdChannel, hence distinct and never a channel number. */
  lemma CodesConsecutive()
    ensures forall i :: 0 <= i < |Codes()| ==> Codes()[i] == CmdChannel + i
    ensures forall i, j :: 0 <= i < j < |Codes()| ==> Codes()[i] != Codes()[j]
    ensures forall i :: 0 <= i < |Codes()| ==> Codes()[i] >= 100
  {
  }

  /**
   * What a non-blocking send does to a channel of capacity one: an empty slot takes the
   * command, a full slot keeps the pending one and the new command is dropped.
   */
  function Offer(slot: Option<int>, cmd: int): (r: Option<int>)
    ensures r.Some?
    ensures slot.None? ==> r == Some(cmd)
    ensures slot.Some? ==> r == slot
  {
    if slot.None? then Some(cmd) else slot
  }

  /**
   * Two commands sent before the consumer takes one: only the first is ever delivered,
   * whatever the slot held before.
   */
  lemma OfferCoalesces(slot: Option<int>, a: int, b: int)
    ensures Offer(Offer(slot, a), b) == Offer(slot, a)
    ensures slot.None? ==> Offer(Offer(slot, a), b) == Some(a)
  {
  }

  /** The embedded player: a command mailbox with one slot. */
  class Player {
    var slot: Option<int>

    /** make(chan int, 1) */
    constructor ()
      ensures slot == None
    {
      slot := None;
    }

    method SendCmd(cmd: int)
      modifies this
      ensures slot == Offer(old(slot), cmd)
    {
      if slot.None? {
        slot := Some(cmd);
      }
    }

    /** The consumer's receive: takes the pending command, if any, and empties the slot. */
    method Receive() returns (cmd: Option<int>)
      modifies this
      ensures cmd == old(slot) && slot == None
    {
      cmd := slot;
      slot := None;
    }

    method Stop()
      modifies this
      ensures slot == Offer(old(slot), CmdStop)
    {
      SendCmd(CmdStop);
    }

    method Play()
      modifies this
      ensures slot == Offer(old(slot), CmdPlay)
    {
      SendCmd(CmdPlay);
    }

    method Pause()
      modifies this
      ensures slot == Offer(old(slot), CmdPause)
    {
      SendCmd(CmdPause);
    }

    method Next()
      modifies this
      ensures slot == Offer(old(slot), CmdNext)
    {
      SendCmd(CmdNext);
    }

    method Prev()
      modifies this
      ensures slot == Offer(old(slot), CmdPrev)
    {
      SendCmd(CmdPrev);
    }

    method Loop()
      modifies this
      ensures slot == Offer(old(slot), CmdLoop)
    {
      SendCmd(CmdLoop);
    }

    method Skip()
      modifies this
      ensures slot == Offer(old(slot), CmdSkip)
    {
      SendCmd(CmdSkip);
    }

    method Like()
      modifies this
      ensures slot == Offer(old(slot), CmdLike)
    {
      SendCmd(CmdLike);
    }

    method Unlike()
      modifies this
      ensures slot == Offer(old(slot), CmdUnlike)
    {
      SendCmd(CmdUnlike);
    }

    method Trash()
      modifies this
      ensures slot == Offer(old(slot), CmdTrash)
    {
      SendCmd(CmdTrash);
    }

    /** A channel change sends the bare channel number, not a command code. */
    method Tune(ch: int)
      modifies this
      ensures slot == Offer(old(slot), ch)
    {
      SendCmd(ch);
    }

    method Login()
      modifies this
      ensures slot == Offer(old(slot), CmdLogin)
    {
      SendCmd(CmdLogin);
    }

    /** The base player has no playlist, catalog or current track to show. */
    function Playlist(): (r: string)
      ensures r == ""
    {
      ""
    }

    function Channels(): (r: string)
      ensures r == ""
    {
      ""
    }

    function Current(): (r: string)
      ensures r == ""
    {
      ""
    }
  }

  /** An instruction to the audio pipeline. */
  datatype Instr = Stop | Play | Pause | SetUri(uri: string)

  /** What NewSource asks of the pipeline: stop, point it at uri, start playing. */
  function NewSourceInstrs(uri: string): seq<Instr>
  {
    [Stop, SetUri(uri), Play]
  }

  /** The audio backend, observed through the instructions it has received so far. */
  class Gstreamer {
    var log: seq<Instr>

    constructor ()
      ensures log == []
    {
      log := [];
    }

    method Stop()
      modifies this
      ensures log == old(log) + [Instr.Stop]
    {
      log := log + [Instr.Stop];
    }

    method Play()
      modifies this
      ensures log == old(log) + [Instr.Play]
    {
      log := log + [Instr.Play];
    }

    method Pause()
      modifies this
      ensures log == old(log) + [Instr.Pause]
    {
      log := log + [Instr.Pause];
    }

    method NewSource(uri: string)
      modifies this
      ensures log == old(log) + NewSourceInstrs(uri)
    {
      Stop();
      log := log + [SetUri(uri)];
      Play();
    }
  }
}
