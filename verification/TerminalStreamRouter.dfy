/**
 * The router between terminals and stream slots: two maps that are to be inverse to each other,
 * so that what arrives on a slot goes to the terminal whose input leaves on that slot.
 */
module TerminalStreamRouter {
  import opened Wrappers

  datatype Router = Router(terminalSlots: map<string, int>, slotTerminals: map<int, string>)

  const EMPTY: Router := Router(map[], map[])

  datatype Operation = SetSlot(terminalId: string, slot: int) | RemoveTerminal(terminalId: string) | ClearSlots

  function Without<K, V>(m: map<K, V>, k: K): map<K, V> { m - {k} }

  /** An empty terminal id counts as none. */
  function Occupant(r: Router, slot: int): Option<string> {
    if slot in r.slotTerminals && r.slotTerminals[slot] != "" then Some(r.slotTerminals[slot]) else None
  }

  function Assign(r: Router, terminalId: string, slot: int): Router {
    var evicted := Occupant(r, slot);
    var terminals := if evicted.Some? && evicted.value != terminalId then Without(r.terminalSlots, evicted.value)
                     else r.terminalSlots;
    var slots := if terminalId in terminals && terminals[terminalId] != slot
                 then Without(r.slotTerminals, terminals[terminalId]) else r.slotTerminals;
    Router(terminals[terminalId := slot], slots[slot := terminalId])
  }

  function Remove(r: Router, terminalId: string): Router {
    if terminalId !in r.terminalSlots then r
    else
      var slot := r.terminalSlots[terminalId];
      Router(Without(r.terminalSlots, terminalId),
             if slot in r.slotTerminals && r.slotTerminals[slot] == terminalId
             then Without(r.slotTerminals, slot) else r.slotTerminals)
  }

  function Apply(r: Router, op: Operation): Router {
    match op
    case SetSlot(terminalId, slot) => Assign(r, terminalId, slot)
    case RemoveTerminal(terminalId) => Remove(r, terminalId)
    case ClearSlots => EMPTY
  }

  function ApplyAll(r: Router, ops: seq<Operation>): Router {
    if ops == [] then r else Apply(ApplyAll(r, ops[..|ops| - 1]), ops[|ops| - 1])
  }

  // ---------------------------------------------------------------------------
  // The maps are inverse
  // ---------------------------------------------------------------------------

  predicate Inverse(r: Router) {
    && (forall t :: t in r.terminalSlots ==>
          r.terminalSlots[t] in r.slotTerminals && r.slotTerminals[r.terminalSlots[t]] == t)
    && (forall s :: s in r.slotTerminals ==>
          r.slotTerminals[s] in r.terminalSlots && r.terminalSlots[r.slotTerminals[s]] == s)
  }

  /** The slot is held by the empty id, which is not recognised as an occupant to evict. */
  predicate HeldByNobody(r: Router, slot: int) {
    slot in r.slotTerminals && r.slotTerminals[slot] == ""
  }

  /**
   * Assigning a slot keeps the maps inverse, except exactly when another terminal takes a slot
   * that the empty id holds; and it does what it says, evicting only the slot's occupant.
   */
  lemma AssignKeepsInverse(r: Router, terminalId: string, slot: int)
    requires Inverse(r)
    ensures Inverse(Assign(r, terminalId, slot)) <==> !HeldByNobody(r, slot) || terminalId == ""
    ensures var a := Assign(r, terminalId, slot);
            && a.terminalSlots[terminalId] == slot && a.slotTerminals[slot] == terminalId
            && (forall t :: t != terminalId && Occupant(r, slot) != Some(t) ==>
                  (t in a.terminalSlots <==> t in r.terminalSlots)
                  && (t in r.terminalSlots ==> a.terminalSlots[t] == r.terminalSlots[t]))
  {
    var a := Assign(r, terminalId, slot);
    if HeldByNobody(r, slot) && terminalId != "" {
      assert "" in a.terminalSlots && a.terminalSlots[""] == slot && a.slotTerminals[slot] != "";
    }
  }

  /** The empty id takes a slot and is not evicted when another terminal takes it. */
  lemma EmptyIdKeepsSlot(terminalId: string, slot: int)
    requires terminalId != ""
    ensures var r := ApplyAll(EMPTY, [SetSlot("", slot), SetSlot(terminalId, slot)]);
            r == Router(map["" := slot, terminalId := slot], map[slot := terminalId]) && !Inverse(r)
  {
    var first, second := SetSlot("", slot), SetSlot(terminalId, slot);
    assert [first][..0] == [] && ApplyAll(EMPTY, []) == EMPTY;
    assert ApplyAll(EMPTY, [first]) == Router(map["" := slot], map[slot := ""]);
    assert [first, second][..1] == [first];
    var r := ApplyAll(EMPTY, [first, second]);
    assert r.terminalSlots[""] == slot && r.slotTerminals[slot] == terminalId;
  }

  /** A terminal without a slot gets nothing. */
  predicate Detached(r: Router, terminalId: string) {
    terminalId !in r.terminalSlots && forall s :: s in r.slotTerminals ==> r.slotTerminals[s] != terminalId
  }

  lemma RemoveKeepsInverse(r: Router, terminalId: string)
    requires Inverse(r)
    ensures Inverse(Remove(r, terminalId))
    ensures var a := Remove(r, terminalId);
            && Detached(a, terminalId)
            && (forall t :: t != terminalId ==>
                  (t in a.terminalSlots <==> t in r.terminalSlots)
                  && (t in r.terminalSlots ==> a.terminalSlots[t] == r.terminalSlots[t]))
  {
  }

  /** Removing a terminal takes its entry, and the one of its slot if that is still its own; clearing takes all. */
  lemma RemovalExactly(r: Router, terminalId: string)
    ensures var a := Apply(r, RemoveTerminal(terminalId));
            && a.terminalSlots == r.terminalSlots - {terminalId}
            && (forall s :: s in a.slotTerminals <==>
                  s in r.slotTerminals
                  && !(terminalId in r.terminalSlots && r.terminalSlots[terminalId] == s
                       && r.slotTerminals[s] == terminalId))
            && (forall s :: s in a.slotTerminals ==> a.slotTerminals[s] == r.slotTerminals[s])
    ensures Apply(r, ClearSlots) == Router(map[], map[])
  {
    if terminalId !in r.terminalSlots {
      assert r.terminalSlots - {terminalId} == r.terminalSlots;
    }
  }

  predicate NamesTerminal(op: Operation) {
    op.SetSlot? ==> op.terminalId != ""
  }

  /** No slot is ever held by the empty id if no operation names it. */
  predicate Proper(r: Router) {
    Inverse(r) && "" !in r.terminalSlots && forall s :: s in r.slotTerminals ==> r.slotTerminals[s] != ""
  }

  /** After any run of operations on nonempty ids the two maps are inverse to each other. */
  lemma {:induction false} RunIsInverse(ops: seq<Operation>)
    requires forall i :: 0 <= i < |ops| ==> NamesTerminal(ops[i])
    ensures Proper(ApplyAll(EMPTY, ops))
  {
    if ops != [] {
      var before := ApplyAll(EMPTY, ops[..|ops| - 1]);
      RunIsInverse(ops[..|ops| - 1]);
      assert NamesTerminal(ops[|ops| - 1]);
      StepIsProper(before, ops[|ops| - 1]);
    }
  }

  lemma StepIsProper(r: Router, op: Operation)
    requires Proper(r) && NamesTerminal(op)
    ensures Proper(Apply(r, op))
  {
    match op {
      case SetSlot(terminalId, slot) =>
        AssignKeepsInverse(r, terminalId, slot);
        assert Occupant(r, slot) != Some("");
      case RemoveTerminal(terminalId) =>
        RemoveKeepsInverse(r, terminalId);
      case ClearSlots =>
    }
  }

  // ---------------------------------------------------------------------------
  // Routing
  // ---------------------------------------------------------------------------

  datatype Input = Keys(data: string) | Resize(rows: int, cols: int) | OtherInput

  datatype Tagged = Tagged(slot: int, input: Input)

  /** The frame that carries an input, tagged with the terminal's slot. */
  function Encode(r: Router, terminalId: string, input: Input): Option<Tagged> {
    if terminalId !in r.terminalSlots || input.OtherInput? then None
    else Some(Tagged(r.terminalSlots[terminalId], input))
  }

  /** A frame's content; a snapshot may fail to decode. */
  datatype Content = Output(data: string) | Restore(data: string) | SnapshotFrame(state: Option<string>) | OtherContent

  datatype TerminalEvent = TerminalEvent(terminalId: string, content: Content)

  predicate Deliverable(c: Content) {
    !c.OtherContent? && (c.SnapshotFrame? ==> c.state.Some?)
  }

  function Route(r: Router, slot: int, content: Content): Option<TerminalEvent> {
    if Occupant(r, slot).None? || !Deliverable(content) then None
    else Some(TerminalEvent(Occupant(r, slot).value, content))
  }

  /**
   * After any run: a frame on a slot reaches a terminal exactly if that terminal's input would be
   * tagged with the slot, and no other terminal.
   */
  lemma RoutingMatchesTagging(ops: seq<Operation>, slot: int, content: Content, terminalId: string, input: Input)
    requires forall i :: 0 <= i < |ops| ==> NamesTerminal(ops[i])
    requires Deliverable(content) && !input.OtherInput?
    ensures var r := ApplyAll(EMPTY, ops);
            (Route(r, slot, content) == Some(TerminalEvent(terminalId, content)))
              == (Encode(r, terminalId, input) == Some(Tagged(slot, input)))
  {
    RunIsInverse(ops);
    hide ApplyAll;
  }

  /** What is delivered: output, restored text and decoded snapshots, to the slot's terminal; nothing else. */
  lemma DeliveredExactly(r: Router, slot: int, content: Content)
    ensures Route(r, slot, content).Some? <==>
              && slot in r.slotTerminals && r.slotTerminals[slot] != ""
              && match content
                 case Output(_) => true
                 case Restore(_) => true
                 case SnapshotFrame(state) => state.Some?
                 case OtherContent => false
    ensures Route(r, slot, content).Some? ==>
              Route(r, slot, content).value == TerminalEvent(r.slotTerminals[slot], content)
  {
  }

  predicate Assigns(ops: seq<Operation>, terminalId: string) {
    exists i :: 0 <= i < |ops| && ops[i].SetSlot? && ops[i].terminalId == terminalId
  }

  lemma DetachedStep(r: Router, op: Operation, terminalId: string)
    requires Detached(r, terminalId) && (op.SetSlot? ==> op.terminalId != terminalId)
    ensures Detached(Apply(r, op), terminalId)
  {
  }

  /** A removed terminal receives nothing, on any slot, until it is given a slot again. */
  lemma {:induction false} RemovedIsSilent(before: seq<Operation>, terminalId: string, after: seq<Operation>,
                                           slot: int, content: Content)
    requires forall i :: 0 <= i < |before| ==> NamesTerminal(before[i])
    requires !Assigns(after, terminalId)
    ensures var r := ApplyAll(Remove(ApplyAll(EMPTY, before), terminalId), after);
            Detached(r, terminalId) && Route(r, slot, content) != Some(TerminalEvent(terminalId, content))
  {
    var removed := Remove(ApplyAll(EMPTY, before), terminalId);
    if after == [] {
      RunIsInverse(before);
      RemoveKeepsInverse(ApplyAll(EMPTY, before), terminalId);
    } else {
      var earlier := after[..|after| - 1];
      assert forall i :: 0 <= i < |earlier| ==> after[i] == earlier[i];
      RemovedIsSilent(before, terminalId, earlier, slot, content);
      DetachedStep(ApplyAll(removed, earlier), after[|after| - 1], terminalId);
    }
  }

  // ---------------------------------------------------------------------------
  // The router object
  // ---------------------------------------------------------------------------

  class TerminalStreamRouter {
    var terminalSlots: map<string, int>
    var slotTerminals: map<int, string>

    function View(): Router
      reads this
    {
      Router(terminalSlots, slotTerminals)
    }

    constructor ()
      ensures View() == EMPTY
    {
      terminalSlots, slotTerminals := map[], map[];
    }

    method SetSlot(terminalId: string, slot: int)
      modifies this
      ensures View() == Assign(old(View()), terminalId, slot)
    {
      if slot in slotTerminals {
        var existing := slotTerminals[slot];
        if existing != "" && existing != terminalId {
          terminalSlots := terminalSlots - {existing};
        }
      }
      if terminalId in terminalSlots && terminalSlots[terminalId] != slot {
        slotTerminals := slotTerminals - {terminalSlots[terminalId]};
      }
      terminalSlots := terminalSlots[terminalId := slot];
      slotTerminals := slotTerminals[slot := terminalId];
    }

    method RemoveTerminal(terminalId: string)
      modifies this
      ensures View() == Remove(old(View()), terminalId)
    {
      if terminalId !in terminalSlots {
        return;
      }
      var slot := terminalSlots[terminalId];
      terminalSlots := terminalSlots - {terminalId};
      if slot in slotTerminals && slotTerminals[slot] == terminalId {
        slotTerminals := slotTerminals - {slot};
      }
    }

    method ClearSlots()
      modifies this
      ensures View() == EMPTY
    {
      terminalSlots := map[];
      slotTerminals := map[];
    }

    method EncodeInput(terminalId: string, input: Input) returns (frame: Option<Tagged>)
      ensures frame == Encode(View(), terminalId, input)
    {
      if terminalId !in terminalSlots {
        return None;
      }
      var slot := terminalSlots[terminalId];
      match input {
        case Keys(_) => return Some(Tagged(slot, input));
        case Resize(_, _) => return Some(Tagged(slot, input));
        case OtherInput => return None;
      }
    }

    method HandleFrame(slot: int, content: Content) returns (event: Option<TerminalEvent>)
      ensures event == Route(View(), slot, content)
    {
      if slot !in slotTerminals || slotTerminals[slot] == "" {
        return None;
      }
      var terminalId := slotTerminals[slot];
      match content {
        case Output(_) => return Some(TerminalEvent(terminalId, content));
        case Restore(_) => return Some(TerminalEvent(terminalId, content));
        case SnapshotFrame(state) => return if state.Some? then Some(TerminalEvent(terminalId, content)) else None;
        case OtherContent => return None;
      }
    }
  }
}
