/**
 * The response store: an append-only list of submitted responses kept,
 * serialised, in one local-storage slot under the key
 * 'school_survey_responses' (script.js:5, 592-626, 814-820).
 *
 * Serialisation is abstracted: a slot either is absent, holds text that
 * does not parse, or holds a list of responses that reads back as written.
 */
module ResponseLog {
  import opened FormEntries

  /** One stored submission: its id, its ISO timestamp and the collected form object. */
  datatype Response = Response(id: real, timestamp: string, data: map<string, Value>)

  /** What the storage slot holds. */
  datatype Slot = Absent | Corrupt | Stored(responses: seq<Response>)

  /**
   * getAllResponses: the list a read of the slot yields. An absent slot
   * (or an empty string) and text that does not parse both read as the
   * empty list; reading never fails.
   */
  function Readable(slot: Slot): (rs: seq<Response>)
    ensures slot.Stored? ==> rs == slot.responses
    ensures !slot.Stored? ==> rs == []
  {
    match slot
    case Stored(rs) => rs
    case _ => []
  }

  /**
   * The slot after saveResponseToStorage(data) with the given id and
   * timestamp: the readable list plus the new response written back when the
   * write is accepted, the slot untouched when the write throws.
   */
  function Saved(slot: Slot, r: Response, writeOk: bool): (after: Slot)
    ensures writeOk ==> after.Stored? && Readable(after) == Readable(slot) + [r]
    ensures !writeOk ==> after == slot
  {
    if writeOk then Stored(Readable(slot) + [r]) else slot
  }

  /** The slot after clearAllResponses, given the answer to the confirmation dialog. */
  function Cleared(slot: Slot, confirmed: bool): (after: Slot)
    ensures confirmed ==> Readable(after) == []
    ensures !confirmed ==> after == slot
  {
    if confirmed then Absent else slot
  }

  /** The store as the page sees it: one slot that every operation re-reads. */
  class ResponseStore {
    var slot: Slot

    /** A page load over whatever the slot already holds. */
    constructor (initial: Slot)
      ensures slot == initial
    {
      slot := initial;
    }

    /** getAllResponses (script.js:618-626). */
    method GetAllResponses() returns (rs: seq<Response>)
      ensures rs == Readable(slot)
    {
      match slot
      case Stored(stored) =>
        rs := stored;
      case _ =>
        rs := [];
    }

    /**
     * saveResponseToStorage (script.js:592-615): re-read the slot, push one
     * record, write the whole list back; a failed write is swallowed.
     */
    method SaveResponseToStorage(data: map<string, Value>, id: real, timestamp: string, writeOk: bool)
      modifies this
      ensures slot == Saved(old(slot), Response(id, timestamp, data), writeOk)
    {
      var existing := GetAllResponses();
      existing := existing + [Response(id, timestamp, data)];
      if writeOk {
        slot := Stored(existing);
      }
    }

    /** clearAllResponses (script.js:814-820): remove the slot once confirmed. */
    method ClearAllResponses(confirmed: bool)
      modifies this
      ensures slot == Cleared(old(slot), confirmed)
    {
      if confirmed {
        slot := Absent;
      }
    }
  }

  /** A store operation the page can perform. */
  datatype Action =
    | Submit(data: map<string, Value>, id: real, timestamp: string, writeOk: bool)
    | Clear(confirmed: bool)

  /** The slot after one action. */
  function Apply(slot: Slot, a: Action): Slot
  {
    match a
    case Submit(data, id, timestamp, writeOk) => Saved(slot, Response(id, timestamp, data), writeOk)
    case Clear(confirmed) => Cleared(slot, confirmed)
  }

  /** The slot after a run of actions, first to last. */
  function Replay(slot: Slot, actions: seq<Action>): Slot
    decreases |actions|
  {
    if actions == [] then slot else Replay(Apply(slot, actions[0]), actions[1..])
  }

  /** The response an action writes: one for an accepted submission, none otherwise. */
  function Logged(a: Action): seq<Response>
  {
    if a.Submit? && a.writeOk then [Response(a.id, a.timestamp, a.data)] else []
  }

  /** The responses of the submissions in `actions` whose write was accepted, in order. */
  function Accepted(actions: seq<Action>): (rs: seq<Response>)
    ensures |rs| <= |actions|
  {
    if actions == [] then [] else Logged(actions[0]) + Accepted(actions[1..])
  }

  /** Any action other than a confirmed clear appends what it logs to the readable list. */
  lemma ApplyAppends(slot: Slot, a: Action)
    requires !(a.Clear? && a.confirmed)
    ensures Readable(Apply(slot, a)) == Readable(slot) + Logged(a)
  {
  }

  /** True when no action in the run is a confirmed clear. */
  predicate NoConfirmedClear(actions: seq<Action>)
  {
    forall i :: 0 <= i < |actions| ==> !(actions[i].Clear? && actions[i].confirmed)
  }

  /**
   * Append-only growth: without a confirmed clear, reading the slot after a
   * run gives the list read before it followed by every accepted submission,
   * in call order; earlier responses are unchanged.
   */
  lemma {:induction false} ReplayAppends(slot: Slot, actions: seq<Action>)
    requires NoConfirmedClear(actions)
    ensures Readable(Replay(slot, actions)) == Readable(slot) + Accepted(actions)
    decreases |actions|
  {
    if actions != [] {
      var rest := actions[1..];
      assert NoConfirmedClear(rest) by {
        forall i | 0 <= i < |rest| ensures !(rest[i].Clear? && rest[i].confirmed) {
          assert rest[i] == actions[i + 1];
        }
      }
      ApplyAppends(slot, actions[0]);
      ReplayAppends(Apply(slot, actions[0]), rest);
      assert Readable(slot) + Logged(actions[0]) + Accepted(rest)
          == Readable(slot) + (Logged(actions[0]) + Accepted(rest));
    }
  }

  /** N accepted submissions on an empty slot read back as exactly N responses in call order. */
  lemma SubmissionsReadBack(slot: Slot, actions: seq<Action>)
    requires Readable(slot) == []
    requires forall i :: 0 <= i < |actions| ==> actions[i].Submit? && actions[i].writeOk
    ensures |Readable(Replay(slot, actions))| == |actions|
    ensures forall i :: 0 <= i < |actions| ==>
      Readable(Replay(slot, actions))[i] == Response(actions[i].id, actions[i].timestamp, actions[i].data)
  {
    ReplayAppends(slot, actions);
    AcceptedAllSubmits(actions);
  }

  /** When every action is an accepted submission, Accepted keeps all of them. */
  lemma {:induction false} AcceptedAllSubmits(actions: seq<Action>)
    requires forall i :: 0 <= i < |actions| ==> actions[i].Submit? && actions[i].writeOk
    ensures |Accepted(actions)| == |actions|
    ensures forall i :: 0 <= i < |actions| ==>
      Accepted(actions)[i] == Response(actions[i].id, actions[i].timestamp, actions[i].data)
  {
    if actions != [] {
      var rest := actions[1..];
      assert forall i :: 0 <= i < |rest| ==> rest[i] == actions[i + 1];
      AcceptedAllSubmits(rest);
    }
  }

  /** A confirmed clear empties what a read returns, whatever came before it. */
  lemma ClearedReadsEmpty(slot: Slot, actions: seq<Action>)
    ensures Readable(Replay(slot, actions + [Clear(true)])) == []
  {
    ReplayLast(slot, actions, Clear(true));
  }

  /** Replaying one more action applies it to the slot the run left. */
  lemma {:induction false} ReplayLast(slot: Slot, actions: seq<Action>, a: Action)
    ensures Replay(slot, actions + [a]) == Apply(Replay(slot, actions), a)
    decreases |actions|
  {
    if actions != [] {
      assert (actions + [a])[1..] == actions[1..] + [a];
      ReplayLast(Apply(slot, actions[0]), actions[1..], a);
    }
  }

  /**
   * Saving onto a slot whose text does not parse starts over: the slot then
   * holds just the new response.
   */
  lemma SaveOntoCorrupt(r: Response)
    ensures Readable(Saved(Corrupt, r, true)) == [r]
  {
  }
}
