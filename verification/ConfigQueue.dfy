/**
  The table page's config queue: one write at a time, each merged onto the cached config when its
  turn comes and stored wholesale by the server, whose schema response replaces the cache.
 */
module ConfigQueue {
  import opened Basics

  type Config = map<string, string>

  /** A field set to None is undefined, which JSON drops. */
  type Update = map<string, Option<string>>

  datatype Patch = Fixed(update: Update) | Computed(updateOf: Config -> Update)

  /** A queued action: a view-config patch, or another schema write, whose response carries the config too. */
  datatype Job = Write(patch: Patch) | Other

  datatype Active = Idle | Sent(job: Job, body: Option<Config>) | Answered(job: Job, schema: Config) | Refused(job: Job)

  /** `aside` holds the responses, still on their way, of schema requests that do not go through the queue. */
  datatype World = World(server: Config, cache: Config, waiting: seq<Job>, active: Active, aside: seq<Config>,
                         settled: seq<(Job, bool)>)

  /** `Lose` is a write that takes effect although the client sees it fail. */
  datatype Action = Submit(job: Job) | Begin | Serve | Refuse | Lose | Deliver | AsideServe | AsideDeliver(i: nat)

  // ---------- the queue ----------

  function Merge(current: Config, update: Update): Config {
    map k | k in current.Keys + update.Keys && (k in update ==> update[k].Some?)
      :: if k in update then update[k].value else current[k]
  }

  function Patched(current: Config, patch: Patch): Config {
    Merge(current, if patch.Fixed? then patch.update else patch.updateOf(current))
  }

  predicate Enabled(w: World, a: Action) {
    match a
    case Submit(_) => true
    case Begin => w.active.Idle? && w.waiting != []
    case Serve => w.active.Sent?
    case Refuse => w.active.Sent?
    case Lose => w.active.Sent?
    case Deliver => w.active.Answered? || w.active.Refused?
    case AsideServe => true
    case AsideDeliver(i) => i < |w.aside|
  }

  function Step(w: World, a: Action): World
    requires Enabled(w, a)
  {
    match a
    case Submit(job) => w.(waiting := w.waiting + [job])
    case Begin =>
      var job := w.waiting[0];
      w.(waiting := w.waiting[1..], active := Sent(job, if job.Write? then Some(Patched(w.cache, job.patch)) else None))
    case Serve =>
      var server := if w.active.body.Some? then w.active.body.value else w.server;
      w.(server := server, active := Answered(w.active.job, server))
    case Refuse => w.(active := Refused(w.active.job))
    case Lose =>
      w.(server := if w.active.body.Some? then w.active.body.value else w.server, active := Refused(w.active.job))
    case Deliver =>
      if w.active.Answered?
      then w.(cache := w.active.schema, active := Idle, settled := w.settled + [(w.active.job, true)])
      else w.(active := Idle, settled := w.settled + [(w.active.job, false)])
    case AsideServe => w.(aside := w.aside + [w.server])
    case AsideDeliver(i) => w.(cache := w.aside[i], aside := w.aside[..i] + w.aside[i + 1..])
  }

  /** The page, its cache and its queue, and the server behind them. */
  class TablePage {
    var w: World

    constructor (config: Config)
      ensures w == Start(config)
    {
      w := World(config, config, [], Idle, [], []);
    }

    method PersistViewConfigPatch(patch: Patch)
      modifies this
      ensures w == Step(old(w), Submit(Write(patch)))
    {
      EnqueueConfigWrite(Write(patch));
    }

    method EnqueueConfigWrite(job: Job)
      modifies this
      ensures w == Step(old(w), Submit(job))
    {
      w := w.(waiting := w.waiting + [job]);
    }

    /** The queue's next action: reads the cache, merges, and sends the whole config. */
    method RunNext()
      requires Enabled(w, Begin)
      modifies this
      ensures w == Step(old(w), Begin)
      ensures forall config :: InStep(config, old(w)) ==> InStep(config, w)
      ensures forall config :: InStep(config, old(w)) && old(w).waiting[0].Write? ==>
                w.active.body == Some(Patched(w.server, old(w).waiting[0].patch))
    {
      forall config | InStep(config, w) ensures InStep(config, Step(w, Begin)) { StepInStepIff(config, w, Begin); }
      var job := w.waiting[0];
      var body: Option<Config> := None;
      if job.Write? {
        var current := w.cache;
        var update := if job.patch.Fixed? then job.patch.update else job.patch.updateOf(current);
        body := Some(Merge(current, update));
      }
      w := w.(waiting := w.waiting[1..], active := Sent(job, body));
    }

    method UpdateViewConfig()
      requires Enabled(w, Serve)
      modifies this
      ensures w == Step(old(w), Serve)
      ensures forall config :: InStep(config, old(w)) ==> InStep(config, w) && w.server == Fold(config, Taken(w))
    {
      forall config | InStep(config, w) ensures InStep(config, Step(w, Serve)) { StepInStepIff(config, w, Serve); }
      if w.active.body.Some? { w := w.(server := w.active.body.value); }
      w := w.(active := Answered(w.active.job, w.server));
    }

    method ApplySchema(schema: Config)
      modifies this
      ensures w == old(w).(cache := schema)
    {
      w := w.(cache := schema);
    }

    method Settle() returns (ok: bool)
      requires Enabled(w, Deliver)
      modifies this
      ensures w == Step(old(w), Deliver) && ok == old(w).active.Answered?
      ensures forall config :: InStep(config, old(w)) ==>
                InStep(config, w) && w.cache == w.server == Fold(config, Successes(w.settled))
    {
      forall config | InStep(config, w) ensures InStep(config, Step(w, Deliver)) { StepInStepIff(config, w, Deliver); }
      assert Successes(Step(w, Deliver).settled) + [] == Successes(Step(w, Deliver).settled);
      var active := w.active;
      ok := active.Answered?;
      if ok { ApplySchema(active.schema); }
      w := w.(active := Idle, settled := w.settled + [(active.job, ok)]);
    }
  }

  // ---------- what the runs keep ----------

  function Start(config: Config): World {
    World(config, config, [], Idle, [], [])
  }

  function Fold(config: Config, patches: seq<Patch>): Config {
    if patches == [] then config else Patched(Fold(config, patches[..|patches| - 1]), patches[|patches| - 1])
  }

  /** The patches among settled jobs that succeeded. */
  function Successes(settled: seq<(Job, bool)>): seq<Patch> {
    if settled == [] then []
    else
      var (job, ok) := settled[|settled| - 1];
      Successes(settled[..|settled| - 1]) + if ok && job.Write? then [job.patch] else []
  }

  /** The patches the server has taken. */
  function Taken(w: World): seq<Patch> {
    Successes(w.settled) + if w.active.Answered? && w.active.job.Write? then [w.active.job.patch] else []
  }

  function Jobs(settled: seq<(Job, bool)>): seq<Job> {
    if settled == [] then [] else Jobs(settled[..|settled| - 1]) + [settled[|settled| - 1].0]
  }

  function Current(active: Active): seq<Job> {
    if active.Idle? then [] else [active.job]
  }

  /** Every job not yet forgotten, oldest first. */
  function Queue(w: World): seq<Job> {
    Jobs(w.settled) + Current(w.active) + w.waiting
  }

  /** The server holds the fold of the patches it has taken. */
  predicate Folded(config: Config, w: World) {
    w.server == Fold(config, Taken(w)) && (w.active.Answered? ==> w.active.schema == w.server)
  }

  /** A patch stored now was merged onto what the server holds, or comes out the same; a lost one changes nothing. */
  predicate Fresh(w: World, a: Action) {
    && (a.Serve? && w.active.Sent? && w.active.job.Write? && w.active.body.Some? ==>
          w.active.body.value == Patched(w.server, w.active.job.patch))
    && (a.Lose? && w.active.Sent? && w.active.body.Some? ==> w.active.body.value == w.server)
  }

  predicate WellSent(w: World) {
    w.active.Sent? ==> (w.active.body.Some? <==> w.active.job.Write?)
  }

  lemma SuccessesNext(settled: seq<(Job, bool)>, job: Job, ok: bool)
    ensures Successes(settled + [(job, ok)]) == Successes(settled) + if ok && job.Write? then [job.patch] else []
    ensures Jobs(settled + [(job, ok)]) == Jobs(settled) + [job]
  {
    assert (settled + [(job, ok)])[..|settled|] == settled;
  }

  lemma FoldNext(config: Config, patches: seq<Patch>, patch: Patch)
    ensures Fold(config, patches + [patch]) == Patched(Fold(config, patches), patch)
  {
    assert (patches + [patch])[..|patches|] == patches;
  }

  /** One step leaves the fold exactly if it does not store a patch that was merged onto something else. */
  lemma StepFoldedIff(config: Config, w: World, a: Action)
    requires Folded(config, w) && WellSent(w) && Enabled(w, a)
    ensures WellSent(Step(w, a))
    ensures Folded(config, Step(w, a)) <==> Fresh(w, a)
  {
    hide Fold, Patched, Successes;
    match a
    case Serve =>
      if w.active.job.Write? { FoldNext(config, Successes(w.settled), w.active.job.patch); }
      assert Successes(w.settled) + [] == Successes(w.settled);
    case Deliver =>
      SuccessesNext(w.settled, w.active.job, w.active.Answered?);
      assert Successes(w.settled) + [] == Successes(w.settled);
      assert Taken(Step(w, a)) == Taken(w);
    case _ =>
  }

  predicate CanRun(w: World, actions: seq<Action>)
    decreases |actions|
  {
    actions == [] || (Enabled(w, actions[0]) && CanRun(Step(w, actions[0]), actions[1..]))
  }

  function After(w: World, actions: seq<Action>): World
    requires CanRun(w, actions)
    decreases |actions|
  {
    if actions == [] then w else After(Step(w, actions[0]), actions[1..])
  }

  function Submits(actions: seq<Action>): seq<Job> {
    if actions == [] then []
    else (if actions[0].Submit? then [actions[0].job] else []) + Submits(actions[1..])
  }

  lemma StepQueue(w: World, a: Action)
    requires Enabled(w, a)
    ensures Queue(Step(w, a)) == Queue(w) + Submits([a])
  {
    hide Successes, Jobs, Submits, Patched;
    OneSubmit(a);
    var done := Jobs(w.settled);
    match a
    case Submit(job) => Regroup(done, Current(w.active), w.waiting, [job]);
    case Begin => Regroup(done, [w.waiting[0]], w.waiting[1..], []);
    case Deliver =>
      SuccessesNext(w.settled, w.active.job, w.active.Answered?);
      Regroup(done, [w.active.job], w.waiting, []);
    case _ => Regroup(done, Current(w.active), w.waiting, []);
  }

  lemma OneSubmit(a: Action)
    ensures Submits([a]) == if a.Submit? then [a.job] else []
  {
    assert [a][1..] == [];
  }

  lemma Regroup(a: seq<Job>, b: seq<Job>, c: seq<Job>, d: seq<Job>)
    ensures a + b + c + d == a + b + (c + d) && a + (b + c) == a + b + c
    ensures a + b + c + [] == a + b + c && (a + b) + [] == a + b && a + [] == a
  {
  }

  lemma SubmitsNext(actions: seq<Action>)
    ensures actions == [] ==> Submits(actions) == []
    ensures actions != [] ==> Submits(actions) == Submits([actions[0]]) + Submits(actions[1..])
  {
    if actions != [] { assert [actions[0]][1..] == []; }
  }

  /** Jobs are settled one at a time in the order they were submitted. */
  lemma {:induction false} RunQueue(w: World, actions: seq<Action>)
    requires CanRun(w, actions)
    ensures Queue(After(w, actions)) == Queue(w) + Submits(actions)
    decreases |actions|
  {
    hide Queue, Enabled, Step, Submits;
    SubmitsNext(actions);
    if actions != [] {
      var next, rest := Step(w, actions[0]), actions[1..];
      StepQueue(w, actions[0]);
      RunQueue(next, rest);
      assert Queue(w) + Submits([actions[0]]) + Submits(rest) == Queue(w) + (Submits([actions[0]]) + Submits(rest));
    } else {
      assert Queue(w) + [] == Queue(w);
    }
  }

  /** Between responses the cache is what the server holds, and what is on the wire was merged onto it. */
  predicate InStep(config: Config, w: World) {
    && Folded(config, w) && WellSent(w)
    && (!w.active.Answered? ==> w.cache == w.server)
    && (w.active.Sent? && w.active.job.Write? ==> w.active.body == Some(Patched(w.server, w.active.job.patch)))
  }

  /**
    A response from outside the queue does no harm: a response of the queue is on its way and will
    replace it, or it carries the config that the server holds.
   */
  predicate Timely(w: World, a: Action) {
    a.AsideDeliver? && a.i < |w.aside| ==> w.active.Answered? || w.aside[a.i] == w.server
  }

  /** A write whose answer is lost does no harm if it changes nothing. */
  predicate Harmless(w: World, a: Action) {
    Timely(w, a) && (a.Lose? && w.active.Sent? && w.active.body.Some? ==> w.active.body.value == w.server)
  }

  /** A step leaves server and cache in step exactly if it neither delivers a late response nor loses a change. */
  lemma StepInStepIff(config: Config, w: World, a: Action)
    requires InStep(config, w) && Enabled(w, a)
    ensures InStep(config, Step(w, a)) <==> Harmless(w, a)
  {
    hide Fold, Patched, Successes;
    assert Fresh(w, a) <==> Harmless(w, a) || a.AsideDeliver?;
    StepFoldedIff(config, w, a);
  }

  predicate AllHarmless(w: World, actions: seq<Action>)
    requires CanRun(w, actions)
    decreases |actions|
  {
    actions != [] ==> Harmless(w, actions[0]) && AllHarmless(Step(w, actions[0]), actions[1..])
  }

  /** At every moment of the run the server holds the fold, and so does the cache unless a response is on its way. */
  predicate AlwaysInStep(config: Config, w: World, actions: seq<Action>)
    requires CanRun(w, actions)
    decreases |actions|
  {
    InStep(config, w) && (actions != [] ==> AlwaysInStep(config, Step(w, actions[0]), actions[1..]))
  }

  /**
    Over a whole run server and cache are the in-order fold at every moment exactly if nothing came late
    or was lost.
   */
  lemma {:induction false} RunInStepIff(config: Config, w: World, actions: seq<Action>)
    requires InStep(config, w) && CanRun(w, actions)
    ensures AlwaysInStep(config, w, actions) <==> AllHarmless(w, actions)
    ensures AllHarmless(w, actions) ==> InStep(config, After(w, actions))
    decreases |actions|
  {
    hide InStep, Harmless, Enabled, Step;
    if actions != [] {
      var next, rest := Step(w, actions[0]), actions[1..];
      StepInStepIff(config, w, actions[0]);
      if Harmless(w, actions[0]) {
        RunInStepIff(config, next, rest);
      } else {
        assert !AlwaysInStep(config, next, rest);
      }
    }
  }

  /**
    When the queue has drained, every job is settled in order, and server and cache are the fold of the
    successful patches.
   */
  lemma DrainedIsFold(config: Config, actions: seq<Action>)
    requires CanRun(Start(config), actions) && AllHarmless(Start(config), actions)
    requires var w := After(Start(config), actions); w.active.Idle? && w.waiting == []
    ensures var w := After(Start(config), actions);
            && w.cache == w.server == Fold(config, Successes(w.settled))
            && Jobs(w.settled) == Submits(actions)
  {
    hide CanRun, After, AllHarmless, Successes, Fold, Submits, Jobs;
    var w := After(Start(config), actions);
    StartInStep(config);
    RunInStepIff(config, Start(config), actions);
    RunQueue(Start(config), actions);
    assert Successes(w.settled) + [] == Successes(w.settled);
    assert Jobs(w.settled) + [] + [] == Jobs(w.settled);
    NoJobs();
    assert [] + Submits(actions) == Submits(actions);
  }

  lemma NoJobs()
    ensures Jobs([]) == []
  {
  }

  lemma StartInStep(config: Config)
    ensures InStep(config, Start(config))
  {
  }

  // ---------- exactly when a drained queue leaves the fold ----------

  /** The last write to take effect: the cache it was merged onto, the patches taken before it, if its answer came. */
  datatype Last = Never | Last(base: Config, taken: seq<Patch>, patch: Patch, heard: bool)

  predicate TakesEffect(w: World, a: Action) {
    (a.Serve? || a.Lose?) && w.active.Sent? && w.active.job.Write?
  }

  function BaseNext(w: World, a: Action, base: Config): Config {
    if a.Begin? then w.cache else base
  }

  function LastNext(w: World, a: Action, base: Config, last: Last): Last {
    if TakesEffect(w, a) then Last(base, Successes(w.settled), w.active.job.patch, a.Serve?) else last
  }

  /** The last write of a run to take effect; `base` is what the write on the wire was merged onto. */
  function LastWrite(w: World, actions: seq<Action>, base: Config, last: Last): Last
    requires CanRun(w, actions)
    decreases |actions|
  {
    if actions == [] then last
    else
      var a := actions[0];
      LastWrite(Step(w, a), actions[1..], BaseNext(w, a, base), LastNext(w, a, base, last))
  }

  /**
    The last write's cache and the fold before it come to the same under its patch; one whose answer
    was lost has left that fold.
   */
  predicate MadeGood(config: Config, last: Last) {
    match last
    case Never => true
    case Last(base, taken, patch, heard) =>
      Patched(base, patch) == if heard then Patched(Fold(config, taken), patch) else Fold(config, taken)
  }

  ghost predicate Tracked(config: Config, w: World, base: Config, last: Last) {
    && WellSent(w)
    && (w.active.Sent? && w.active.job.Write? ==> w.active.body == Some(Patched(base, w.active.job.patch)))
    && match last
       case Never => w.server == config && Taken(w) == []
       case Last(cache, taken, patch, heard) =>
         w.server == Patched(cache, patch) && Taken(w) == taken + if heard then [patch] else []
  }

  lemma StepTracks(config: Config, w: World, a: Action, base: Config, last: Last)
    requires Tracked(config, w, base, last) && Enabled(w, a)
    ensures Tracked(config, Step(w, a), BaseNext(w, a, base), LastNext(w, a, base, last))
  {
    hide Patched, Successes;
    assert Successes(w.settled) + [] == Successes(w.settled);
    if a.Deliver? {
      DeliverKeepsTaken(w);
    } else if a.Serve? || a.Lose? {
      hide Fold;
    } else {
      assert Taken(Step(w, a)) == Taken(w);
    }
  }

  lemma DeliverKeepsTaken(w: World)
    requires Enabled(w, Deliver)
    ensures Taken(Step(w, Deliver)) == Taken(w)
  {
    hide Successes;
    SuccessesNext(w.settled, w.active.job, w.active.Answered?);
    assert Successes(w.settled) + [] == Successes(w.settled);
    var after := Step(w, Deliver);
    assert Successes(after.settled) + [] == Successes(after.settled);
  }

  lemma {:induction false} RunTracks(config: Config, w: World, actions: seq<Action>, base: Config, last: Last)
    returns (end: Config)
    requires Tracked(config, w, base, last) && CanRun(w, actions)
    ensures Tracked(config, After(w, actions), end, LastWrite(w, actions, base, last))
    decreases |actions|
  {
    hide Tracked, Enabled, Step, BaseNext, LastNext;
    if actions != [] {
      var a := actions[0];
      StepTracks(config, w, a, base, last);
      end := RunTracks(config, Step(w, a), actions[1..], BaseNext(w, a, base), LastNext(w, a, base, last));
    } else {
      end := base;
    }
  }

  /**
    Whatever came late or was lost, the server of a drained queue is the fold of the successful patches
    exactly if the last write that took effect made it good.
   */
  lemma DrainedIsFoldIff(config: Config, actions: seq<Action>)
    requires CanRun(Start(config), actions)
    requires var w := After(Start(config), actions); w.active.Idle? && w.waiting == []
    ensures var w := After(Start(config), actions);
            w.server == Fold(config, Successes(w.settled)) <==>
            MadeGood(config, LastWrite(Start(config), actions, config, Never))
  {
    hide CanRun, After, LastWrite, Patched, Successes;
    var w := After(Start(config), actions);
    StartTracks(config);
    var base := RunTracks(config, Start(config), actions, config, Never);
    LastDecides(config, w, base, LastWrite(Start(config), actions, config, Never));
  }

  lemma StartTracks(config: Config)
    ensures Tracked(config, Start(config), config, Never)
  {
  }

  lemma LastDecides(config: Config, w: World, base: Config, last: Last)
    requires Tracked(config, w, base, last) && w.active.Idle?
    ensures w.server == Fold(config, Successes(w.settled)) <==> MadeGood(config, last)
  {
    hide Patched, Successes;
    assert Successes(w.settled) + [] == Successes(w.settled);
    if last.Last? {
      FoldNext(config, last.taken, last.patch);
      assert last.taken + [] == last.taken;
    }
  }

  /** A patch of fixed fields makes two configs the same exactly if they agree on all other fields. */
  lemma PatchedAlikeIff(a: Config, b: Config, update: Update)
    ensures Patched(a, Fixed(update)) == Patched(b, Fixed(update)) <==>
            forall k :: k !in update ==> (k in a <==> k in b) && (k in a ==> a[k] == b[k])
  {
    var (x, y) := (Patched(a, Fixed(update)), Patched(b, Fixed(update)));
    forall k | k !in update
      ensures (k in x <==> k in a) && (k in x ==> x[k] == a[k]) && (k in y <==> k in b) && (k in y ==> y[k] == b[k])
    {
    }
    if forall k :: k !in update ==> (k in a <==> k in b) && (k in a ==> a[k] == b[k]) {
      assert x.Keys == y.Keys;
      assert x == y;
    }
  }

  predicate OnlyQueue(actions: seq<Action>) {
    forall i :: 0 <= i < |actions| ==> !actions[i].AsideDeliver? && !actions[i].Lose?
  }

  /** Without requests outside the queue and lost answers nothing does harm, whatever the delays and failures. */
  lemma {:induction false} QueueAloneIsHarmless(w: World, actions: seq<Action>)
    requires CanRun(w, actions) && OnlyQueue(actions)
    ensures AllHarmless(w, actions)
    decreases |actions|
  {
    hide Enabled, Step;
    if actions != [] {
      assert forall i :: 0 <= i < |actions| - 1 ==> actions[1..][i] == actions[i + 1];
      QueueAloneIsHarmless(Step(w, actions[0]), actions[1..]);
    }
  }

  // ---------- a response from outside the queue ----------

  /** A write of its own, from its submission to its response. */
  function Whole(w: World, patch: Patch): World
    requires w.active.Idle? && w.waiting == []
  {
    var config := Patched(w.cache, patch);
    w.(server := config, cache := config, settled := w.settled + [(Write(patch), true)])
  }

  function WholeRun(patch: Patch): seq<Action> {
    [Submit(Write(patch)), Begin, Serve, Deliver]
  }

  lemma RunWhole(w: World, patch: Patch, more: seq<Action>)
    requires w.active.Idle? && w.waiting == [] && CanRun(Whole(w, patch), more)
    ensures CanRun(w, WholeRun(patch) + more) && After(w, WholeRun(patch) + more) == After(Whole(w, patch), more)
  {
    hide Patched;
    var r0 := WholeRun(patch) + more;
    var r1, r2, r3 := r0[1..], r0[2..], r0[3..];
    assert r1[1..] == r2 && r2[1..] == r3 && r3[1..] == more;
    assert r0[0] == Submit(Write(patch)) && r1[0] == Begin && r2[0] == Serve && r3[0] == Deliver;
    var w1 := Step(w, r0[0]);
    assert w1.waiting == [Write(patch)];
    var w2 := Step(w1, r1[0]);
    var w3 := Step(w2, r2[0]);
    assert w2.waiting == [] && Step(w3, r3[0]) == Whole(w, patch);
    assert CanRun(w3, r3) && After(w3, r3) == After(Whole(w, patch), more);
    assert CanRun(w2, r2) && After(w2, r2) == After(w3, r3);
    assert CanRun(w1, r1) && After(w1, r1) == After(w2, r2);
  }

  function LosingRun(first: Patch, second: Patch): seq<Action> {
    [AsideServe] + (WholeRun(first) + ([AsideDeliver(0)] + (WholeRun(second) + [])))
  }

  /**
    A schema response served before a patch and delivered after it brings the old config back, and
    the next patch then erases the first one on the server.
   */
  lemma LateResponseLosesPatch(config: Config, first: Patch, second: Patch)
    ensures CanRun(Start(config), LosingRun(first, second))
    ensures var w := After(Start(config), LosingRun(first, second));
            && w.active.Idle? && w.waiting == []
            && Successes(w.settled) == [first, second]
            && w.cache == w.server == Patched(config, second)
  {
    hide Patched;
    var w0 := Start(config);
    var w1 := Step(w0, AsideServe);
    assert w1.aside == [config];
    var w2 := Whole(w1, first);
    var w3 := Step(w2, AsideDeliver(0));
    var w4 := Whole(w3, second);
    RunWhole(w3, second, []);
    var tail := [AsideDeliver(0)] + (WholeRun(second) + []);
    assert tail[1..] == WholeRun(second) + [];
    RunWhole(w1, first, tail);
    var run := [AsideServe] + (WholeRun(first) + tail);
    assert run[1..] == WholeRun(first) + tail;
    TwoSuccesses(w4.settled, first, second);
  }

  /**
    Two patches, each setting a field of its own, and each reported as a success: after such a run
    the first field is not on the server, and the server's config is not the fold of the two.
   */
  lemma LostPatchIsNotFold(config: Config, first: string, x: string, second: string, y: string)
    requires first != second && !(first in config && config[first] == x)
    ensures var (p, q) := (Fixed(map[first := Some(x)]), Fixed(map[second := Some(y)]));
            var run := LosingRun(p, q);
            && CanRun(Start(config), run)
            && var w := After(Start(config), run);
               && w.active.Idle? && w.waiting == [] && w.cache == w.server
               && Successes(w.settled) == [p, q]
               && w.server != Fold(config, Successes(w.settled))
               && !(first in w.server && w.server[first] == x)
  {
    hide CanRun, After, Successes;
    var (p, q) := (Fixed(map[first := Some(x)]), Fixed(map[second := Some(y)]));
    LateResponseLosesPatch(config, p, q);
    NoFold(config, []);
    FoldNext(config, [], p);
    FoldNext(config, [p], q);
    assert [] + [p] == [p] && [p] + [q] == [p, q];
    assert first in Patched(Patched(config, p), q) && Patched(Patched(config, p), q)[first] == x;
  }

  lemma NoFold(config: Config, patches: seq<Patch>)
    requires |patches| == 0
    ensures Fold(config, patches) == config
  {
  }

  lemma TwoSuccesses(settled: seq<(Job, bool)>, first: Patch, second: Patch)
    requires settled == [(Write(first), true)] + [(Write(second), true)]
    ensures Successes(settled) == [first, second]
  {
    SuccessesNext([], Write(first), true);
    assert [] + [(Write(first), true)] == [(Write(first), true)];
    SuccessesNext([(Write(first), true)], Write(second), true);
  }
}
