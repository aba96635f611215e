/**
  The table page's cell edits: each save is queued behind the ones before it, and the same value
  is not sent twice while its write is on its way or has succeeded.
 */
module EditQueue {
  import opened Basics

  type Cell = (int, string)

  datatype Write = Write(cell: Cell, value: string)

  /** How a write ended: stored, refused without effect, or stored with its response lost. */
  datatype Fate = Stored | Refused | Lost

  /** The write being sent, if any, is the first one without a fate. */
  datatype Wire = Idle | Sent | Arrived

  /** The page's `_savedEdit`; `ticket` is its write's place among the submitted ones. */
  datatype Saved = Saved(cell: Cell, value: string, ticket: nat)

  datatype Page = Page(editing: Option<Cell>, value: string, saved: Option<Saved>, cancelling: bool,
                       submitted: seq<Write>, fates: seq<Fate>, wire: Wire, server: seq<Write>)

  datatype Action = StartEdit(cell: Cell, value: string) | Input(value: string) | Cancel | Save(cell: Cell, known: bool)
                  | Send | Arrive | Settle(fate: Fate)

  predicate Pending(p: Page) {
    p.saved.Some? && p.saved.value.ticket >= |p.fates|
  }

  predicate SavedMatches(p: Page, cell: Cell) {
    p.saved.Some? && p.saved.value.cell == cell && p.saved.value.value == p.value
  }

  predicate Enabled(p: Page, a: Action) {
    match a
    case Send => p.wire.Idle? && |p.fates| < |p.submitted|
    case Arrive => p.wire.Sent? && |p.fates| < |p.submitted|
    case Settle(fate) => if fate.Refused? then p.wire.Sent? else p.wire.Arrived?
    case _ => true
  }

  function Step(p: Page, a: Action): Page
    requires Enabled(p, a)
  {
    match a
    case StartEdit(cell, value) => p.(editing := Some(cell), value := value, saved := None, cancelling := false)
    case Input(value) => p.(value := value)
    case Cancel => if Pending(p) then p else p.(editing := None, value := "", saved := None, cancelling := true)
    case Save(cell, known) =>
      if p.editing != Some(cell) || !known || SavedMatches(p, cell) then p
      else p.(submitted := p.submitted + [Write(cell, p.value)], saved := Some(Saved(cell, p.value, |p.submitted|)))
    case Send => p.(wire := Sent)
    case Arrive => p.(wire := Arrived, server := p.server + [p.submitted[|p.fates|]])
    case Settle(fate) =>
      p.(wire := Idle, fates := p.fates + [fate],
         saved := if !fate.Stored? && p.saved.Some? && p.saved.value.ticket == |p.fates| then None else p.saved)
  }

  /** The page with its edit fields and the chain of promises behind `_editWriteQueue`. */
  class Editor {
    var p: Page

    constructor ()
      ensures p == Page(None, "", None, false, [], [], Idle, [])
    {
      p := Page(None, "", None, false, [], [], Idle, []);
    }

    method StartEdit(cell: Cell, value: string)
      modifies this
      ensures p == Step(old(p), Action.StartEdit(cell, value))
    {
      p := p.(cancelling := false);
      p := p.(saved := None);
      p := p.(editing := Some(cell), value := value);
    }

    /** A submitted write is never taken back: with one pending the edit stays as it was. */
    method CancelEdit()
      requires Valid(p)
      modifies this
      ensures p == Step(old(p), Cancel) && Valid(p)
      ensures p.submitted == old(p).submitted && p.fates == old(p).fates && p.server == old(p).server
      ensures Pending(old(p)) ==> p.editing == old(p).editing && p.value == old(p).value && Pending(p)
      ensures !Pending(old(p)) ==> p.editing == None && p.saved == None
      ensures !Pending(old(p)) && old(p).saved.Some? ==>
                |p.fates| == |p.submitted| && p.fates[|p.fates| - 1].Stored?
                && p.submitted[|p.submitted| - 1] == Write(old(p).saved.value.cell, old(p).saved.value.value)
    {
      StepKeepsValid(p, Cancel);
      if p.saved.Some? && p.saved.value.ticket >= |p.fates| { return; }
      p := p.(cancelling := true);
      p := p.(editing := None, value := "");
      p := p.(saved := None);
    }

    /** `ticket` stands for the promise; `known` says whether the row is loaded. */
    method SaveEdit(cell: Cell, known: bool) returns (ticket: Option<nat>)
      requires Valid(p)
      modifies this
      ensures p == Step(old(p), Save(cell, known)) && Valid(p)
      ensures ticket.Some? <==> old(p).editing == Some(cell) && known
      ensures ticket.Some? ==>
                ticket.value == |p.submitted| - 1 && p.submitted[ticket.value] == Write(cell, old(p).value)
    {
      StepKeepsValid(p, Save(cell, known));
      if p.editing != Some(cell) { return None; }
      if !known { return None; }
      var value := p.value;
      if p.saved.Some? && p.saved.value.cell == cell && p.saved.value.value == value {
        return Some(p.saved.value.ticket);
      }
      ticket := Some(|p.submitted|);
      p := p.(submitted := p.submitted + [Write(cell, value)]);
      p := p.(saved := Some(Saved(cell, value, ticket.value)));
    }
  }

  // ---------- what every step keeps ----------

  /** The writes that reached the server among those settled. */
  function Received(submitted: seq<Write>, fates: seq<Fate>): seq<Write>
    requires |fates| <= |submitted|
  {
    if fates == [] then []
    else
      var k := |fates| - 1;
      Received(submitted[..k], fates[..k]) + if fates[k].Refused? then [] else [submitted[k]]
  }

  /**
    The server got the unrefused writes in submission order, one at a time; the saved edit is the last
    one submitted and has not failed.
   */
  predicate Valid(p: Page) {
    && |p.fates| <= |p.submitted| && (!p.wire.Idle? ==> |p.fates| < |p.submitted|)
    && p.server == Received(p.submitted, p.fates) + (if p.wire.Arrived? then [p.submitted[|p.fates|]] else [])
    && (p.saved.Some? ==>
          && p.submitted != [] && p.saved.value.ticket == |p.submitted| - 1
          && p.submitted[|p.submitted| - 1] == Write(p.saved.value.cell, p.saved.value.value)
          && (|p.fates| == |p.submitted| ==> p.fates[|p.fates| - 1].Stored?))
  }

  lemma ReceivedNext(submitted: seq<Write>, fates: seq<Fate>, w: Write, fate: Fate)
    requires |fates| <= |submitted|
    ensures Received(submitted + [w], fates) == Received(submitted, fates)
    ensures |fates| < |submitted| ==>
              Received(submitted, fates + [fate]) ==
                  Received(submitted, fates) + if fate.Refused? then [] else [submitted[|fates|]]
  {
    var k := |fates|;
    if k > 0 { assert (submitted + [w])[..k - 1] == submitted[..k - 1]; }
    if k < |submitted| {
      assert (fates + [fate])[..k] == fates;
      ReceivedPrefix(submitted, fates);
    }
  }

  lemma ReceivedPrefix(submitted: seq<Write>, fates: seq<Fate>)
    requires |fates| <= |submitted|
    ensures Received(submitted[..|fates|], fates) == Received(submitted, fates)
  {
    var k := |fates|;
    if k > 0 { assert submitted[..k][..k - 1] == submitted[..k - 1]; }
  }

  lemma StepKeepsValid(p: Page, a: Action)
    requires Valid(p) && Enabled(p, a)
    ensures Valid(Step(p, a))
    ensures p.submitted <= Step(p, a).submitted && p.fates <= Step(p, a).fates && p.server <= Step(p, a).server
  {
    hide Received;
    match a
    case Save(cell, known) => ReceivedNext(p.submitted, p.fates, Write(cell, p.value), Refused);
    case Settle(fate) => ReceivedNext(p.submitted, p.fates, p.submitted[|p.fates|], fate);
    case _ =>
  }

  /**
    Saving an unchanged value sends nothing while its write is pending or has succeeded, and sends it
    again once it has failed.
   */
  lemma SaveAgain(p: Page, cell: Cell, known: bool)
    requires Valid(p) && known && p.editing == Some(cell)
    ensures var q := Step(p, Save(cell, known));
            && (SavedMatches(p, cell) <==> q.submitted == p.submitted)
            && q.submitted != [] && q.submitted[|q.submitted| - 1] == Write(cell, p.value)
            && Step(q, Save(cell, known)) == q
  {
  }

  // ---------- what the server ends up with ----------

  function ValueOf(writes: seq<Write>, cell: Cell): Option<string> {
    if writes == [] then None
    else
      var k := |writes| - 1;
      if writes[k].cell == cell then Some(writes[k].value) else ValueOf(writes[..k], cell)
  }

  lemma {:induction false} ReceivedAll(submitted: seq<Write>, fates: seq<Fate>)
    requires |fates| == |submitted| && Refused !in fates
    ensures Received(submitted, fates) == submitted
  {
    if fates != [] {
      var k := |fates| - 1;
      assert forall f :: f in fates[..k] ==> f in fates;
      ReceivedAll(submitted[..k], fates[..k]);
      assert fates[k] in fates;
    }
  }

  predicate CanRun(p: Page, actions: seq<Action>)
    decreases |actions|
  {
    actions == [] || (Enabled(p, actions[0]) && CanRun(Step(p, actions[0]), actions[1..]))
  }

  function After(p: Page, actions: seq<Action>): Page
    requires CanRun(p, actions)
    decreases |actions|
  {
    if actions == [] then p else After(Step(p, actions[0]), actions[1..])
  }

  /**
    Over any run the server's writes are the submitted ones that were not refused, in their order, but
    for one not settled yet.
   */
  lemma {:induction false} RunKeepsOrder(p: Page, actions: seq<Action>)
    requires Valid(p) && CanRun(p, actions)
    ensures Valid(After(p, actions))
    ensures p.submitted <= After(p, actions).submitted && p.server <= After(p, actions).server
    decreases |actions|
  {
    hide Valid, Step, Enabled;
    if actions != [] {
      StepKeepsValid(p, actions[0]);
      RunKeepsOrder(Step(p, actions[0]), actions[1..]);
    }
  }

  /** Once all writes are settled and none was refused, every cell holds the value submitted for it last. */
  lemma DrainedKeepsLast(p: Page, actions: seq<Action>, cell: Cell)
    requires Valid(p) && CanRun(p, actions)
    requires var q := After(p, actions); |q.fates| == |q.submitted| && Refused !in q.fates
    ensures ValueOf(After(p, actions).server, cell) == ValueOf(After(p, actions).submitted, cell)
  {
    hide CanRun, After, Received, ValueOf;
    RunKeepsOrder(p, actions);
    var q := After(p, actions);
    ReceivedAll(q.submitted, q.fates);
    assert q.wire.Idle?;
    assert q.server == q.submitted;
  }
}
