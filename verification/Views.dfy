/** What a controller thread sends to a view, and what a view has seen (fomalhaut-gtk, ControllerOutput). */
module Views {
  import opened Prelude
  import opened Frontend

  datatype Output =
    | Ready
    | Answered(epoch: nat, response: Response, events: seq<Envelope>, terminal: bool)
    | Told(events: seq<Envelope>)
    | FatalView
  {
    function Envelopes(): seq<Envelope> {
      match this
      case Answered(_, _, events, _) => events
      case Told(events) => events
      case _ => []
    }
  }

  /** The events a channel has carried, in order. */
  ghost function Delivered(log: seq<Output>): seq<Envelope> {
    if log == [] then [] else Delivered(log[..|log| - 1]) + log[|log| - 1].Envelopes()
  }

  /** A snapshot comes alone and names the last event published before it. */
  ghost predicate Places(output: Output, sequence: nat) {
    output.Answered? && output.response.State? ==>
      output.response.snapshot.sequence == sequence && output.events == []
  }

  /** Every snapshot on a channel names exactly the last event published before it. */
  ghost predicate Aligned(from: nat, log: seq<Output>) {
    log == [] ||
    (Aligned(from, log[..|log| - 1]) && Places(log[|log| - 1], from + |Delivered(log[..|log| - 1])|))
  }

  lemma ReadyCarriesNothing(from: nat)
    ensures Delivered([Ready]) == [] && Aligned(from, [Ready])
  {
    var log: seq<Output> := [Ready];
    assert log[..0] == [];
    assert Delivered(log) == Delivered(log[..0]) + [];
    assert Aligned(from, log[..0]);
  }

  /** Events of one mode carrying the numbers 1, 2, 3, ... */
  ghost predicate Numbered(mode: Mode, published: seq<Envelope>) {
    forall i :: 0 <= i < |published| ==> published[i].sequence == i + 1 && BelongsTo(mode, published[i].event)
  }

  lemma NumbersGoOn(mode: Mode, published: seq<Envelope>, before: Public, after: Public, events: seq<Envelope>)
    requires Numbered(mode, published) && before.next == |published| + 1
    requires Continues(before, after, events) && AllBelong(mode, EventsOf(events))
    ensures Numbered(mode, published + events) && after.next == |published + events| + 1
  {
    forall i | 0 <= i < |published + events|
      ensures (published + events)[i].sequence == i + 1 && BelongsTo(mode, (published + events)[i].event)
    {
      if i >= |published| {
        assert (published + events)[i] == events[i - |published|];
        assert EventsOf(events)[i - |published|] in EventsOf(events);
      }
    }
  }

  /** A snapshot on a channel separates exactly the events before it from those after it. */
  lemma {:induction false} SnapshotSeparates(from: nat, log: seq<Output>, p: nat)
    requires Aligned(from, log) && p < |log| && log[p].Answered? && log[p].response.State?
    ensures log[p].response.snapshot.sequence == from + |Delivered(log[..p])|
    ensures Delivered(log[..p + 1]) == Delivered(log[..p])
  {
    if p < |log| - 1 {
      SnapshotSeparates(from, log[..|log| - 1], p);
      assert log[..|log| - 1][..p] == log[..p] && log[..|log| - 1][..p + 1] == log[..p + 1];
    } else {
      assert log[..p + 1] == log;
      assert log[..p + 1][..p] == log[..p];
    }
  }
}
