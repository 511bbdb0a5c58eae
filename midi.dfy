/**
 * The MIDI receiver's state: normalised control-change values, held notes,
 * and the debounced switch of input device. Device I/O and the background
 * read loop are not modelled; each message is handled as one atomic step.
 */
module Midi {
  import opened Wrappers
  import Debounce

  /** The MIDI messages the receiver distinguishes; every other type is ignored. */
  datatype Message =
    | ControlChange(control: int, value: int)
    | NoteOn(note: int, velocity: int)
    | NoteOff(note: int)
    | OtherMessage(kind: string)

  /** The controller and note tables `_cc` and `_notes`. */
  datatype Tables = Tables(cc: map<int, real>, notes: map<int, bool>)

  /** One message applied to the tables, as `_handle_message` does. */
  function Handle(t: Tables, msg: Message): (r: Tables)
    ensures msg.ControlChange? ==>
              r.notes == t.notes && r.cc.Keys == t.cc.Keys + {msg.control} &&
              r.cc[msg.control] == msg.value as real / 127.0 &&
              forall c :: c in t.cc && c != msg.control ==> r.cc[c] == t.cc[c]
    ensures msg.NoteOn? ==>
              r.cc == t.cc && r.notes.Keys == t.notes.Keys + {msg.note} &&
              (r.notes[msg.note] <==> msg.velocity > 0) &&
              forall n :: n in t.notes && n != msg.note ==> r.notes[n] == t.notes[n]
    ensures msg.NoteOff? ==>
              r.cc == t.cc && r.notes == t.notes[msg.note := false]
    ensures msg.OtherMessage? ==> r == t
  {
    match msg
    case ControlChange(control, value) => t.(cc := t.cc[control := value as real / 127.0])
    case NoteOn(note, velocity) => t.(notes := t.notes[note := velocity > 0])
    case NoteOff(note) => t.(notes := t.notes[note := false])
    case OtherMessage(_) => t
  }

  /** The tables after the messages, handled in order. */
  function HandleAll(t: Tables, msgs: seq<Message>): Tables
    decreases |msgs|
  {
    if msgs == [] then t else Handle(HandleAll(t, msgs[..|msgs| - 1]), msgs[|msgs| - 1])
  }

  /** Whether the last note_on/note_off for `note` left it held, if any such message came. */
  function LastNoteState(msgs: seq<Message>, note: int): Option<bool>
    decreases |msgs|
  {
    if msgs == [] then None
    else
      var m := msgs[|msgs| - 1];
      if m.NoteOn? && m.note == note then Some(m.velocity > 0)
      else if m.NoteOff? && m.note == note then Some(false)
      else LastNoteState(msgs[..|msgs| - 1], note)
  }

  /** `get_note(n)`: unseen notes are not held. */
  function NoteHeld(t: Tables, note: int): bool
  {
    note in t.notes && t.notes[note]
  }

  /** A note is held exactly when its last note message was a note_on with positive velocity. */
  lemma {:induction false} NoteFollowsLastMessage(t: Tables, msgs: seq<Message>, note: int)
    ensures NoteHeld(HandleAll(t, msgs), note) ==
              match LastNoteState(msgs, note)
              case Some(held) => held
              case None => NoteHeld(t, note)
    decreases |msgs|
  {
    if msgs != [] {
      NoteFollowsLastMessage(t, msgs[..|msgs| - 1], note);
    }
  }

  /** Every stored controller value lies in [0, 1]. */
  predicate Normalised(t: Tables)
  {
    forall c :: c in t.cc ==> 0.0 <= t.cc[c] <= 1.0
  }

  /** Controller values on the wire are 7-bit. */
  predicate SevenBit(msgs: seq<Message>)
  {
    forall k :: 0 <= k < |msgs| && msgs[k].ControlChange? ==> 0 <= msgs[k].value <= 127
  }

  /** With 7-bit controller values, the table stays normalised to [0, 1]. */
  lemma {:induction false} HandleAllNormalised(t: Tables, msgs: seq<Message>)
    requires Normalised(t) && SevenBit(msgs)
    ensures Normalised(HandleAll(t, msgs))
    decreases |msgs|
  {
    if msgs != [] {
      var front := msgs[..|msgs| - 1];
      assert SevenBit(front) by {
        forall k | 0 <= k < |front| && front[k].ControlChange?
          ensures 0 <= front[k].value <= 127
        {
          assert front[k] == msgs[k];
        }
      }
      HandleAllNormalised(t, front);
      var m := msgs[|msgs| - 1];
      if m.ControlChange? {
        assert 0 <= m.value <= 127;
      }
    }
  }

  /** The device name in use: `port_name or "auto"`. */
  function CurrentName(portName: Option<string>): (r: string)
    ensures portName.Some? && portName.value != "" ==> r == portName.value
    ensures (portName.None? || portName == Some("")) ==> r == "auto"
  {
    if portName.Some? && portName.value != "" then portName.value else "auto"
  }

  datatype PortState = PortState(portName: Option<string>, pending: Option<string>, changedAt: real)

  /** One call of `update_port(name)` at time `now`. */
  function ProposePort(s: PortState, name: string, now: real): (r: PortState)
    ensures name == CurrentName(s.portName) ==> r == s.(pending := None)
    ensures name != CurrentName(s.portName) && s.pending != Some(name) ==>
              r == s.(pending := Some(name), changedAt := now)
    ensures name != CurrentName(s.portName) && s.pending == Some(name) ==>
              r == if now - s.changedAt >= Debounce.RebindDelay
                   then PortState(Some(name), None, s.changedAt) else s
  {
    if name == CurrentName(s.portName) then s.(pending := None)
    else if s.pending != Some(name) then s.(pending := Some(name), changedAt := now)
    else if now - s.changedAt >= Debounce.RebindDelay then PortState(Some(name), None, s.changedAt)
    else s
  }

  /** The MIDI switch seen through the name in use. */
  function View(s: PortState): Debounce.State<string>
  {
    Debounce.State(CurrentName(s.portName), s.pending, s.changedAt)
  }

  /** The device switch follows the shared debounce rule, for any name other than "" (which also means "auto"). */
  lemma ProposePortIsDebounce(s: PortState, name: string, now: real)
    requires name != ""
    ensures View(ProposePort(s, name, now)) == Debounce.Propose(View(s), name, now)
  {
  }

  function RunPorts(s: PortState, proposals: seq<(string, real)>): PortState
    decreases |proposals|
  {
    if proposals == [] then s
    else
      var last := proposals[|proposals| - 1];
      ProposePort(RunPorts(s, proposals[..|proposals| - 1]), last.0, last.1)
  }

  /** Hence every property of the shared debounce (stability, oscillation) holds for device switching. */
  lemma {:induction false} RunPortsIsDebounce(s: PortState, proposals: seq<(string, real)>)
    requires forall k :: 0 <= k < |proposals| ==> proposals[k].0 != ""
    ensures View(RunPorts(s, proposals)) == Debounce.Run(View(s), proposals)
    decreases |proposals|
  {
    if proposals != [] {
      var last := proposals[|proposals| - 1];
      RunPortsIsDebounce(s, proposals[..|proposals| - 1]);
      ProposePortIsDebounce(RunPorts(s, proposals[..|proposals| - 1]), last.0, last.1);
    }
  }

  class MIDIReceiver {
    var cc: map<int, real>
    var notes: map<int, bool>
    var portName: Option<string>
    var pendingPort: Option<string>
    var portChangedAt: real

    function CurrentTables(): Tables
      reads this
    {
      Tables(cc, notes)
    }

    function Ports(): PortState
      reads this
    {
      PortState(portName, pendingPort, portChangedAt)
    }

    /** Opens `portName` (or the first available device); both tables start empty. */
    constructor(portName: Option<string>)
      ensures cc == map[] && notes == map[]
      ensures Ports() == PortState(portName, None, 0.0)
    {
      cc := map[];
      notes := map[];
      this.portName := portName;
      pendingPort := None;
      portChangedAt := 0.0;
    }

    method HandleMessage(msg: Message)
      modifies this
      ensures CurrentTables() == Handle(old(CurrentTables()), msg)
      ensures Ports() == old(Ports())
    {
      match msg
      case ControlChange(control, value) =>
        cc := cc[control := value as real / 127.0];
      case NoteOn(note, velocity) =>
        notes := notes[note := velocity > 0];
      case NoteOff(note) =>
        notes := notes[note := false];
      case OtherMessage(_) =>
    }

    /** `get_cc(control, default)`. */
    function GetCc(control: int, default: real): (r: real)
      reads this
      ensures control in cc ==> r == cc[control]
      ensures control !in cc ==> r == default
    {
      if control in cc then cc[control] else default
    }

    /** `get_note(note)`. */
    function GetNote(note: int): (r: bool)
      reads this
      ensures r == NoteHeld(CurrentTables(), note)
    {
      if note in notes then notes[note] else false
    }

    /** Debounced device switch; on commit the named device is opened (not modelled). */
    method UpdatePort(name: string, now: real)
      modifies this
      ensures Ports() == ProposePort(old(Ports()), name, now)
      ensures CurrentTables() == old(CurrentTables())
    {
      var current := if portName.Some? && portName.value != "" then portName.value else "auto";
      if name == current {
        pendingPort := None;
        return;
      }
      if Some(name) != pendingPort {
        pendingPort := Some(name);
        portChangedAt := now;
        return;
      }
      if now - portChangedAt >= Debounce.RebindDelay {
        portName := Some(name);
        pendingPort := None;
      }
    }
  }
}
