/** Whole runs of the store: any number of puts and deletes, done, undone, or
    cut short by a crash and a restart. */
module Runs {
  import opened Basics
  import opened Disks
  import opened Plans
  import opened Recovery
  import opened Guarantees

  datatype Step =
    | PutDone(q: Request, plan: Plan)
    | PutCrash(q: Request, plan: Plan, k: nat)
    | Deleted(rows: seq<Id>)
    | DeleteCrash(rows: seq<Id>, next: Id, k: nat)
    | Undone

  /** The disk after a step, restarts included; each case is what the methods
      of the store manager guarantee. */
  ghost predicate Next(t: Tools, d: Disk, e: Disk, step: Step)
  {
    match step
    case PutDone(q, plan) => Fits(t, d, q, plan) && !Refuses(d, plan) && SameButTemps(Done(t, d, q, plan), e)
    case PutCrash(q, plan, k) =>
      && Fits(t, d, q, plan) && k < |Passed(t, d, q, plan)|
      && exists now :: Offstage(Stages(t, d, q, plan)[k], now) && e == Recover(now)
    case Deleted(rows) => SomeLinks(d.links, rows) && DeletableInTurn(t, d, rows) && e == DeleteAll(d, rows)
    case DeleteCrash(rows, l, k) =>
      && SomeLinks(d.links, rows + [l]) && DeletableInTurn(t, d, rows) && l in DeleteAll(d, rows).links
      && DeleteAll(d, rows).links[l].source in DeleteAll(d, rows).sources && k < |DeletePassed(DeleteAll(d, rows), l)|
      && exists now :: Offstage(DeleteStages(DeleteAll(d, rows), l)[k], now) && e == Recover(now)
    case Undone => SameButTemps(d, e)
  }

  ghost predicate Run(t: Tools, ds: seq<Disk>, steps: seq<Step>)
  {
    && |ds| == |steps| + 1
    && forall i {:trigger Next(t, ds[i], ds[i + 1], steps[i])} | 0 <= i < |steps| ::
         Next(t, ds[i], ds[i + 1], steps[i])
  }

  /** The contents that a step brings in are known. */
  ghost predicate StepInvolved(t: Tools, step: Step, known: iset<Bytes>)
  {
    && (step.PutDone? ==> step.q.data in known)
    && (step.PutCrash? ==> InvolvedAt(t, step.q, step.plan, step.k, known))
  }

  // ----------------------------------------------------- the map they refine

  /** A plain map doing the same: a crash happens before or after, never in between. */
  ghost predicate MapNext(links: map<Id, Link>, v: View, w: View, step: Step)
  {
    match step
    case PutDone(q, _) => w == v[q.name := Some(q.data)]
    case PutCrash(q, _, _) => BeforeOrAfter(v, w, q)
    case Deleted(rows) => w == v - NamesOf(links, rows)
    case DeleteCrash(rows, l, _) => w == v - NamesOf(links, rows) || w == v - NamesOf(links, rows + [l])
    case Undone => w == v
  }

  /** The two crashes that do not end in the map before or after. */
  ghost predicate Gap(t: Tools, d: Disk, step: Step)
  {
    step.PutCrash? && (CountLost(d, step.plan, step.k) || Tears(t, d, step.q, step.plan, step.k))
  }

  /** The hashes of contents that a step tears. */
  ghost function TornAt(t: Tools, d: Disk, step: Step): set<Digest>
  {
    if step.PutCrash? && Tears(t, d, step.q, step.plan, step.k)
    then {d.sources[d.links[step.plan.link].source].hash} else {}
  }

  /** The names that a put touches read its data, or as corrupt if its hash is
      that of torn contents. */
  ghost predicate PutShows(t: Tools, v: View, w: View, q: Request, names: set<Name>, torn: set<Digest>)
  {
    w == Setting(v, names, Some(q.data)) || (t.hash(q.data) in torn && w == Setting(v, names, None))
  }

  /** They read as corrupt, or again as contents torn before. */
  ghost predicate TornShows(t: Tools, v: View, w: View, n: Name, names: set<Name>, torn: set<Digest>)
  {
    n in w && w == Setting(v, names, w[n]) && (w[n].Some? ==> t.hash(w[n].value) in torn)
  }

  /** The same map with lost counts and torn contents about. */
  ghost predicate TornNext(t: Tools, links: map<Id, Link>, v: View, w: View, step: Step, torn: set<Digest>)
  {
    match step
    case PutDone(q, plan) => PutShows(t, v, w, q, Touched(links, q.name, plan), torn)
    case PutCrash(q, plan, k) =>
      || w == v
      || PutShows(t, v, w, q, Touched(links, q.name, plan), torn)
      || (Torn(plan, k) && TornShows(t, v, w, q.name, Touched(links, q.name, plan), torn))
    case _ => MapNext(links, v, w, step)
  }

  // --------------------------------------------------------- sound payloads

  lemma HealthyMore(t: Tools, d: Disk, w: World, torn: set<Digest>)
    requires Healthy(t, d, w) && w.torn <= torn
    ensures Healthy(t, d, World(w.known, torn))
  {
    forall s | s in d.sources ensures Sound(t, d.sources[s], Stored(d, s), World(w.known, torn)) {
      assert Sound(t, d.sources[s], Stored(d, s), w);
    }
  }

  lemma MoveStageHealthy(t: Tools, d: Disk, q: Request, l: Id, s: Id, k: nat, w: World)
    requires t.Lossless() && Layout(t, d) && Fits(t, d, q, Move(l, s)) && Healthy(t, d, w) && q.data in w.known
              && 0 < k < 3
    ensures Healthy(t, Stages(t, d, q, Move(l, s))[k], w)
  {
    var stored := WithSource(d, s, RowFor(t, q), RawFor(t, q));
    assert Healthy(t, stored, w) by {
      FreshRowSound(t, q, 1, w);
      StoredHealthy(t, d, s, RowFor(t, q), RawFor(t, q), w);
    }
    if k == 2 { HealthyFiles(t, stored, WithLink(stored, l, d.links[l].(source := s)), w); } else {}
  }

  lemma TornStageHealthy(t: Tools, d: Disk, q: Request, l: Id, w: World)
    requires Layout(t, d) && Fits(t, d, q, Overwrite(l)) && Healthy(t, d, w) && Involved(t, q, w.known)
    ensures var torn := w.torn + TornAt(t, d, PutCrash(q, Overwrite(l), 1));
            Healthy(t, Stages(t, d, q, Overwrite(l))[1], World(w.known, torn))
  {
    var o, more := d.links[l].source, World(w.known, w.torn + TornAt(t, d, PutCrash(q, Overwrite(l), 1)));
    HealthyMore(t, d, w, more.torn);
    assert Sound(t, d.sources[o], Stored(d, o), more);
    if Decode(t, d.sources[o], RawFor(t, q)).Some? { TornReadsKnown(t, q, d.sources[o], w.known); }
    StoredHealthy(t, d, o, d.sources[o], RawFor(t, q), more);
  }

  /** Every stage holds known bytes, but for what it tears. */
  lemma StageHealthy(t: Tools, d: Disk, q: Request, plan: Plan, k: nat, w: World)
    requires t.Lossless() && Layout(t, d) && Fits(t, d, q, plan) && k < |Stages(t, d, q, plan)|
    requires Healthy(t, d, w) && InvolvedAt(t, q, plan, k, w.known)
    ensures Healthy(t, Stages(t, d, q, plan)[k], World(w.known, w.torn + TornAt(t, d, PutCrash(q, plan, k))))
  {
    if Torn(plan, k) {
      TornStageHealthy(t, d, q, plan.link, w);
    } else {
      WholeStageHealthy(t, d, q, plan, k, w);
      assert w.torn + {} == w.torn;
    }
  }

  lemma WholeStageHealthy(t: Tools, d: Disk, q: Request, plan: Plan, k: nat, w: World)
    requires t.Lossless() && Layout(t, d) && Fits(t, d, q, plan) && k < |Stages(t, d, q, plan)|
    requires Healthy(t, d, w) && q.data in w.known && !Torn(plan, k)
    ensures Healthy(t, Stages(t, d, q, plan)[k], w)
  {
    if k == |Stages(t, d, q, plan)| - 1 {
      DoneHealthy(t, d, q, plan, w);
    } else if k > 0 {
      match plan {
        case Move(l, s) => MoveStageHealthy(t, d, q, l, s, k, w);
        case Share(l, s) => HealthyFiles(t, d, WithLink(d, l, NewLink(t, q, s)), w);
        case Fresh(l, s) =>
          FreshRowSound(t, q, 1, w);
          StoredHealthy(t, d, s, RowFor(t, q), RawFor(t, q), w);
      }
    }
  }

  // ------------------------------------------------------------- one put

  /** A reused source reads the put's data, or it is torn. */
  lemma ReusedShows(t: Tools, d: Disk, q: Request, plan: Plan, w: World)
    requires Layout(t, d) && Fits(t, d, q, plan) && Healthy(t, d, w) && Unambiguous(t, w.known) && q.data in w.known
    ensures var r := PutResult(t, d, q, plan); r == Some(q.data) || (t.hash(q.data) in w.torn && r == None)
  {
    match plan {
      case Keep(l) => assert Sound(t, d.sources[d.links[l].source], Stored(d, d.links[l].source), w);
      case Share(_, s) => assert Sound(t, d.sources[s], Stored(d, s), w);
      case _ =>
    }
  }

  lemma PutDoneStep(t: Tools, d: Disk, e: Disk, q: Request, plan: Plan, w: World)
    requires t.Lossless() && Layout(t, d) && Healthy(t, d, w) && Unambiguous(t, w.known) && q.data in w.known
    requires Next(t, d, e, PutDone(q, plan))
    ensures Layout(t, e) && Healthy(t, e, w)
    ensures PutShows(t, ViewOf(t, d), ViewOf(t, e), q, Touched(d.links, q.name, plan), w.torn)
  {
    PutIsMapUpdate(t, d, e, q, plan);
    assert Healthy(t, e, w) by {
      DoneHealthy(t, d, q, plan, w);
      SameButTempsHealthy(t, Done(t, d, q, plan), e, w);
    }
    ReusedShows(t, d, q, plan, w);
  }

  /** What is left of a put at stage `k`. */
  lemma StageShows(t: Tools, d: Disk, q: Request, plan: Plan, k: nat, w: World)
    requires t.Lossless() && Layout(t, d) && Healthy(t, d, w) && Unambiguous(t, w.known)
    requires InvolvedAt(t, q, plan, k, w.known)
    requires Fits(t, d, q, plan) && k < |Passed(t, d, q, plan)|
    ensures TornNext(t, d.links, ViewOf(t, d), ViewOf(t, Stages(t, d, q, plan)[k]), PutCrash(q, plan, k), w.torn)
  {
    var v := ViewOf(t, d);
    StageView(t, d, q, plan, k);
    if Torn(plan, k) {
      TornStageShows(t, d, q, plan.link, w);
    } else {
      ReusedShows(t, d, q, plan, w);
      WrittenShows(t, v, q, Touched(d.links, q.name, plan), StageResult(t, d, q, plan, k), w.torn);
    }
  }

  lemma WrittenShows(
    t: Tools, v: View, q: Request, names: set<Name>, r: Option<Option<Bytes>>, torn: set<Digest>)
    requires r == None || r == Some(Some(q.data)) || (t.hash(q.data) in torn && r == Some(None))
    ensures var w := WrittenAll(v, names, r); w == v || PutShows(t, v, w, q, names, torn)
  {
  }

  lemma TornStageShows(t: Tools, d: Disk, q: Request, l: Id, w: World)
    requires Layout(t, d) && Healthy(t, d, w) && Unambiguous(t, w.known) && Involved(t, q, w.known)
    requires Fits(t, d, q, Overwrite(l))
    ensures var v, names := ViewOf(t, d), NamesOn(d.links, d.links[l].source);
            var after := Setting(v, names, Decode(t, d.sources[d.links[l].source], RawFor(t, q)));
            after == v || TornShows(t, v, after, q.name, names, w.torn)
  {
    var o := d.links[l].source;
    var names, r := NamesOn(d.links, o), Decode(t, d.sources[o], RawFor(t, q));
    NamesOnShared(d.links, l);
    assert Sound(t, d.sources[o], Stored(d, o), w);
    if r.Some? && t.hash(r.value) !in w.torn {
      TornReadsKnown(t, q, d.sources[o], w.known);
      NamesKeep(t, d, o, r);
    } else {
      TornSetShows(t, ViewOf(t, d), q.name, names, r, w.torn);
    }
  }

  lemma TornSetShows(t: Tools, v: View, n: Name, names: set<Name>, r: Option<Bytes>, torn: set<Digest>)
    requires n in names && (r.Some? ==> t.hash(r.value) in torn)
    ensures TornShows(t, v, Setting(v, names, r), n, names, torn)
  {
  }

  lemma PutCrashStep(t: Tools, d: Disk, e: Disk, q: Request, plan: Plan, k: nat, w: World)
    requires t.Lossless() && Layout(t, d) && Healthy(t, d, w) && Unambiguous(t, w.known)
    requires InvolvedAt(t, q, plan, k, w.known)
    requires Next(t, d, e, PutCrash(q, plan, k))
    ensures Layout(t, e) && Healthy(t, e, World(w.known, w.torn + TornAt(t, d, PutCrash(q, plan, k))))
    ensures ViewOf(t, e) == ViewOf(t, Stages(t, d, q, plan)[k])
    ensures TornNext(t, d.links, ViewOf(t, d), ViewOf(t, e), PutCrash(q, plan, k), w.torn)
  {
    var stage := Stages(t, d, q, plan)[k];
    var now :| Offstage(stage, now) && e == Recover(now);
    assert Layout(t, stage) by { StageLayout(t, d, q, plan, k); }
    Restarted(t, stage, now);
    SameButTempsKeeps(t, stage, e);
    StageHealthy(t, d, q, plan, k, w);
    SameButTempsHealthy(t, stage, e, World(w.known, w.torn + TornAt(t, d, PutCrash(q, plan, k))));
    StageShows(t, d, q, plan, k, w);
  }

  // ----------------------------------------------------------- one delete

  lemma DeletedStep(t: Tools, d: Disk, rows: seq<Id>, w: World)
    requires Layout(t, d) && Healthy(t, d, w) && DeletableInTurn(t, d, rows)
    ensures Layout(t, DeleteAll(d, rows)) && Healthy(t, DeleteAll(d, rows), w)
    ensures ViewOf(t, DeleteAll(d, rows)) == ViewOf(t, d) - NamesOf(d.links, rows)
  {
    DeleteAllLayout(t, d, rows);
    DeleteAllHealthy(t, d, rows, w);
    DeleteAllView(t, d, rows);
  }

  lemma DeleteStageHealthy(t: Tools, d: Disk, l: Id, k: nat, w: World)
    requires Layout(t, d) && Healthy(t, d, w) && l in d.links && k < 3
    ensures Healthy(t, DeleteStages(d, l)[k], w)
  {
    DeleteHealthy(t, d, l, w);
    if k == 0 {} else if k == 1 {} else {}
  }

  lemma DeleteCrashStep(t: Tools, d: Disk, e: Disk, rows: seq<Id>, l: Id, k: nat, w: World)
    requires Layout(t, d) && Healthy(t, d, w) && Next(t, d, e, DeleteCrash(rows, l, k))
    ensures Layout(t, e) && Healthy(t, e, w)
    ensures MapNext(d.links, ViewOf(t, d), ViewOf(t, e), DeleteCrash(rows, l, k))
  {
    DeletedStep(t, d, rows, w);
    var m := DeleteAll(d, rows);
    var now :| Offstage(DeleteStages(m, l)[k], now) && e == Recover(now);
    CrashedDelete(t, m, l, k, now);
    DeleteStageHealthy(t, m, l, k, w);
    SameButTempsHealthy(t, DeleteStages(m, l)[k], e, w);
    DeleteAllLinks(d, rows);
    NamesOfSnoc(d.links, rows, l);
    LessNames(ViewOf(t, d), NamesOf(d.links, rows), d.links[l].name);
  }

  lemma SomeLinksFront(links: map<Id, Link>, rows: seq<Id>, l: Id)
    requires SomeLinks(links, rows + [l])
    ensures SomeLinks(links, rows) && l in links
  {
    var all := rows + [l];
    assert all[|rows|] == l;
    assert forall i | 0 <= i < |rows| :: all[i] == rows[i];
  }

  // ------------------------------------------------------------- one step

  /** One step on any disk that a restart can find: it keeps the layout and
      does what the map with torn contents does. */
  lemma StepShows(t: Tools, d: Disk, e: Disk, step: Step, w: World)
    requires t.Lossless() && Layout(t, d) && Healthy(t, d, w) && Unambiguous(t, w.known)
    requires Next(t, d, e, step) && StepInvolved(t, step, w.known)
    ensures Layout(t, e) && Healthy(t, e, World(w.known, w.torn + TornAt(t, d, step)))
    ensures TornNext(t, d.links, ViewOf(t, d), ViewOf(t, e), step, w.torn)
  {
    if step.PutCrash? {
      PutCrashStep(t, d, e, step.q, step.plan, step.k, w);
    } else {
      assert World(w.known, w.torn + TornAt(t, d, step)) == w by { assert w.torn + {} == w.torn; }
      WholeStepShows(t, d, e, step, w);
    }
  }

  /** A step that tears nothing. */
  lemma WholeStepShows(t: Tools, d: Disk, e: Disk, step: Step, w: World)
    requires t.Lossless() && Layout(t, d) && Healthy(t, d, w) && Unambiguous(t, w.known) && !step.PutCrash?
    requires Next(t, d, e, step) && StepInvolved(t, step, w.known)
    ensures Layout(t, e) && Healthy(t, e, w)
    ensures TornNext(t, d.links, ViewOf(t, d), ViewOf(t, e), step, w.torn)
  {
    match step {
      case PutDone(q, plan) => PutDoneStep(t, d, e, q, plan, w);
      case Deleted(rows) => DeletedStep(t, d, rows, w);
      case DeleteCrash(rows, l, k) => DeleteCrashStep(t, d, e, rows, l, k, w);
      case Undone =>
        SameButTempsKeeps(t, d, e);
        SameButTempsHealthy(t, d, e, w);
    }
  }

  lemma PutCrashKeepsInv(t: Tools, d: Disk, e: Disk, q: Request, plan: Plan, k: nat)
    requires Inv(t, d) && Next(t, d, e, PutCrash(q, plan, k))
    ensures Inv(t, e) <==> !CountLost(d, plan, k)
  {
    var stage := Stages(t, d, q, plan)[k];
    var now :| Offstage(stage, now) && e == Recover(now);
    StageShape(t, d, q, plan, k);
    assert Layout(t, stage) by { StageLayout(t, d, q, plan, k); }
    Restarted(t, stage, now);
    SameButTempsKeeps(t, stage, e);
    SameButTempsKeeps(t, e, stage);
  }

  lemma DeleteCrashKeepsInv(t: Tools, d: Disk, e: Disk, rows: seq<Id>, l: Id, k: nat)
    requires Inv(t, d) && Next(t, d, e, DeleteCrash(rows, l, k))
    ensures Inv(t, e)
  {
    SomeLinksFront(d.links, rows, l);
    DeleteAllInv(t, d, rows);
    var m := DeleteAll(d, rows);
    var now :| Offstage(DeleteStages(m, l)[k], now) && e == Recover(now);
    CrashedDelete(t, m, l, k, now);
  }

  /** Exactly one kind of step can lose a count. */
  lemma StepKeepsInv(t: Tools, d: Disk, e: Disk, step: Step)
    requires Inv(t, d) && Next(t, d, e, step)
    ensures Inv(t, e) <==> !(step.PutCrash? && CountLost(d, step.plan, step.k))
  {
    match step {
      case PutDone(q, plan) =>
        DoneInv(t, d, q, plan);
        SameButTempsKeeps(t, Done(t, d, q, plan), e);
      case PutCrash(q, plan, k) => PutCrashKeepsInv(t, d, e, q, plan, k);
      case Deleted(rows) => DeleteAllInv(t, d, rows);
      case DeleteCrash(rows, l, k) => DeleteCrashKeepsInv(t, d, e, rows, l, k);
      case Undone => SameButTempsKeeps(t, d, e);
    }
  }

  /** Without a lost count a put touches its own name only. */
  lemma OwnNameOnly(t: Tools, d: Disk, q: Request, plan: Plan)
    requires Inv(t, d) && Fits(t, d, q, plan)
    ensures Touched(d.links, q.name, plan) == {q.name} && !Clobbers(d, plan)
  {
    if plan.Overwrite? { NothingPinned(t, d, plan.link); }
    TouchedIffClobbers(t, d, q, plan);
  }

  /** Off the two gaps a step is the map's step, atomic crashes included. */
  lemma StepRefines(t: Tools, d: Disk, e: Disk, step: Step, known: iset<Bytes>)
    requires t.Lossless() && Inv(t, d) && Healthy(t, d, World(known, {})) && Unambiguous(t, known)
    requires Next(t, d, e, step) && StepInvolved(t, step, known) && !Gap(t, d, step)
    ensures Inv(t, e) && Healthy(t, e, World(known, {})) && MapNext(d.links, ViewOf(t, d), ViewOf(t, e), step)
  {
    assert Inv(t, e) by { StepKeepsInv(t, d, e, step); }
    if step.PutCrash? {
      OwnNameOnly(t, d, step.q, step.plan);
      CrashRefines(t, d, e, step.q, step.plan, step.k, known);
    } else {
      WholeStepShows(t, d, e, step, World(known, {}));
      if step.PutDone? {
        OwnNameOnly(t, d, step.q, step.plan);
        SettingOne(ViewOf(t, d), step.q.name, Some(step.q.data));
      }
    }
  }

  lemma CrashRefines(t: Tools, d: Disk, e: Disk, q: Request, plan: Plan, k: nat, known: iset<Bytes>)
    requires t.Lossless() && Layout(t, d) && Healthy(t, d, World(known, {})) && Unambiguous(t, known)
    requires Next(t, d, e, PutCrash(q, plan, k)) && InvolvedAt(t, q, plan, k, known)
    requires !Clobbers(d, plan) && !Tears(t, d, q, plan, k)
    ensures Healthy(t, e, World(known, {})) && BeforeOrAfter(ViewOf(t, d), ViewOf(t, e), q)
  {
    assert {} + TornAt(t, d, PutCrash(q, plan, k)) == {};
    assert Healthy(t, e, World(known, {})) && ViewOf(t, e) == ViewOf(t, Stages(t, d, q, plan)[k]) by {
      PutCrashStep(t, d, e, q, plan, k, World(known, {}));
    }
    StageIsAtomicIff(t, d, q, plan, k, known);
  }

  // ----------------------------------------------------------- whole runs

  /** A run whose contents are known and which avoids the two gaps. */
  ghost predicate Gapless(t: Tools, ds: seq<Disk>, steps: seq<Step>, known: iset<Bytes>)
  {
    && Run(t, ds, steps)
    && Inv(t, ds[0]) && Healthy(t, ds[0], World(known, {})) && Unambiguous(t, known)
    && (forall i {:trigger StepInvolved(t, steps[i], known)} | 0 <= i < |steps| :: StepInvolved(t, steps[i], known))
    && (forall i {:trigger Gap(t, ds[i], steps[i])} | 0 <= i < |steps| :: !Gap(t, ds[i], steps[i]))
  }

  ghost predicate Refined(ds: seq<Disk>, steps: seq<Step>, t: Tools, i: nat)
    requires i < |steps| < |ds|
  {
    MapNext(ds[i].links, ViewOf(t, ds[i]), ViewOf(t, ds[i + 1]), steps[i])
  }

  lemma GaplessNext(t: Tools, ds: seq<Disk>, steps: seq<Step>, known: iset<Bytes>, n: nat)
    requires t.Lossless() && Gapless(t, ds, steps, known) && n < |steps|
    requires Inv(t, ds[n]) && Healthy(t, ds[n], World(known, {}))
    ensures Inv(t, ds[n + 1]) && Healthy(t, ds[n + 1], World(known, {})) && Refined(ds, steps, t, n)
  {
    assert Next(t, ds[n], ds[n + 1], steps[n]) && StepInvolved(t, steps[n], known) && !Gap(t, ds[n], steps[n]);
    StepRefines(t, ds[n], ds[n + 1], steps[n], known);
  }

  lemma {:induction false} GaplessKeeps(t: Tools, ds: seq<Disk>, steps: seq<Step>, known: iset<Bytes>, n: nat)
    requires t.Lossless() && Gapless(t, ds, steps, known) && n <= |steps|
    ensures Inv(t, ds[n]) && Healthy(t, ds[n], World(known, {}))
  {
    if n > 0 {
      GaplessKeeps(t, ds, steps, known, n - 1);
      GaplessNext(t, ds, steps, known, n - 1);
    }
  }

  /** Over every run, crashes and restarts included, that avoids the two gaps,
      the store is a map from names to bytes with atomic puts and deletes. Of
      the contents only this is asked: that no two of those stored at first or
      put on the way have one hash. */
  lemma RunRefinesMap(t: Tools, ds: seq<Disk>, steps: seq<Step>, known: iset<Bytes>)
    requires t.Lossless() && Gapless(t, ds, steps, known)
    ensures forall i | 0 <= i <= |steps| :: Inv(t, ds[i]) && Healthy(t, ds[i], World(known, {}))
    ensures forall i | 0 <= i < |steps| :: Refined(ds, steps, t, i)
  {
    forall i | 0 <= i <= |steps| ensures Inv(t, ds[i]) && Healthy(t, ds[i], World(known, {})) {
      GaplessKeeps(t, ds, steps, known, i);
    }
    forall i | 0 <= i < |steps| ensures Refined(ds, steps, t, i) {
      GaplessNext(t, ds, steps, known, i);
    }
  }

  /** The hashes of the contents torn in the first `n` steps. */
  ghost function TornBy(t: Tools, ds: seq<Disk>, steps: seq<Step>, n: nat): set<Digest>
    requires n <= |steps| <= |ds|
  {
    if n == 0 then {} else TornBy(t, ds, steps, n - 1) + TornAt(t, ds[n - 1], steps[n - 1])
  }

  /** Disk `i` has the layout, and its payloads are known or torn on the way. */
  ghost predicate Stands(t: Tools, ds: seq<Disk>, steps: seq<Step>, known: iset<Bytes>, i: nat)
    requires i <= |steps| < |ds|
  {
    Layout(t, ds[i]) && Healthy(t, ds[i], World(known, TornBy(t, ds, steps, i)))
  }

  /** Step `i` does what the map with torn contents does. */
  ghost predicate Follows(t: Tools, ds: seq<Disk>, steps: seq<Step>, i: nat)
    requires i < |steps| < |ds|
  {
    TornNext(t, ds[i].links, ViewOf(t, ds[i]), ViewOf(t, ds[i + 1]), steps[i], TornBy(t, ds, steps, i))
  }

  lemma NextStands(t: Tools, ds: seq<Disk>, steps: seq<Step>, known: iset<Bytes>, i: nat)
    requires t.Lossless() && i < |steps| < |ds| && Next(t, ds[i], ds[i + 1], steps[i])
    requires Stands(t, ds, steps, known, i) && Unambiguous(t, known)
    requires StepInvolved(t, steps[i], known)
    ensures Stands(t, ds, steps, known, i + 1) && Follows(t, ds, steps, i)
  {
    StepShows(t, ds[i], ds[i + 1], steps[i], World(known, TornBy(t, ds, steps, i)));
  }

  /** A run whose contents are known. */
  ghost predicate Orderly(t: Tools, ds: seq<Disk>, steps: seq<Step>, known: iset<Bytes>)
  {
    && Run(t, ds, steps)
    && Layout(t, ds[0]) && Healthy(t, ds[0], World(known, {})) && Unambiguous(t, known)
    && (forall i {:trigger StepInvolved(t, steps[i], known)} | 0 <= i < |steps| :: StepInvolved(t, steps[i], known))
  }

  lemma {:induction false} OrderlyStands(t: Tools, ds: seq<Disk>, steps: seq<Step>, known: iset<Bytes>, n: nat)
    requires t.Lossless() && Orderly(t, ds, steps, known) && n <= |steps|
    ensures Stands(t, ds, steps, known, n)
  {
    if n > 0 {
      OrderlyStands(t, ds, steps, known, n - 1);
      OrderlyNext(t, ds, steps, known, n - 1);
    } else {
      OrderlyBegins(t, ds, steps, known);
    }
  }

  lemma OrderlyBegins(t: Tools, ds: seq<Disk>, steps: seq<Step>, known: iset<Bytes>)
    requires Orderly(t, ds, steps, known)
    ensures Stands(t, ds, steps, known, 0)
  {
    assert TornBy(t, ds, steps, 0) == {};
  }

  lemma OrderlyNext(t: Tools, ds: seq<Disk>, steps: seq<Step>, known: iset<Bytes>, n: nat)
    requires t.Lossless() && Orderly(t, ds, steps, known) && n < |steps| && Stands(t, ds, steps, known, n)
    ensures Stands(t, ds, steps, known, n + 1) && Follows(t, ds, steps, n)
  {
    assert Next(t, ds[n], ds[n + 1], steps[n]) && StepInvolved(t, steps[n], known);
    NextStands(t, ds, steps, known, n);
  }

  /** Over every run, lost counts, clobbering covers and torn payloads included:
      a step changes at most the names it touches, all of them alike, and a put
      reads back unless its hash is that of contents torn before. */
  lemma RunPastCrashes(t: Tools, ds: seq<Disk>, steps: seq<Step>, known: iset<Bytes>)
    requires t.Lossless() && Orderly(t, ds, steps, known)
    ensures forall i | 0 <= i <= |steps| :: Stands(t, ds, steps, known, i)
    ensures forall i | 0 <= i < |steps| :: Follows(t, ds, steps, i)
  {
    forall i | 0 <= i <= |steps| ensures Stands(t, ds, steps, known, i) {
      OrderlyStands(t, ds, steps, known, i);
    }
    forall i | 0 <= i < |steps| ensures Follows(t, ds, steps, i) {
      OrderlyStands(t, ds, steps, known, i);
      OrderlyNext(t, ds, steps, known, i);
    }
  }

  /** Over every run without crashes the counts are the numbers of links, so
      no count of zero is ever met. */
  lemma CountsStayExact(t: Tools, ds: seq<Disk>, steps: seq<Step>)
    requires t.Lossless() && Run(t, ds, steps)
    requires forall i | 0 <= i < |steps| :: !steps[i].PutCrash? && !steps[i].DeleteCrash?
    requires Inv(t, ds[0]) && Exact(ds[0].links, ds[0].sources)
    ensures forall i | 0 <= i < |ds| :: Inv(t, ds[i]) && Exact(ds[i].links, ds[i].sources)
    ensures forall i, s | 0 <= i < |ds| && s in ds[i].sources :: LinksTo(ds[i].links, s) != {}
  {
    forall i | 0 <= i < |ds|
      ensures Inv(t, ds[i]) && Exact(ds[i].links, ds[i].sources)
      ensures forall s | s in ds[i].sources :: LinksTo(ds[i].links, s) != {}
    {
      ExactAt(t, ds, steps, i);
      ExactIsLinked(t, ds[i]);
    }
  }

  lemma {:induction false} ExactAt(t: Tools, ds: seq<Disk>, steps: seq<Step>, n: nat)
    requires t.Lossless() && Run(t, ds, steps) && n <= |steps|
    requires forall i | 0 <= i < |steps| :: !steps[i].PutCrash? && !steps[i].DeleteCrash?
    requires Inv(t, ds[0]) && Exact(ds[0].links, ds[0].sources)
    ensures Inv(t, ds[n]) && Exact(ds[n].links, ds[n].sources)
  {
    if n > 0 {
      var m := n - 1;
      ExactAt(t, ds, steps, m);
      assert Next(t, ds[m], ds[m + 1], steps[m]);
      ExactStep(t, ds[m], ds[m + 1], steps[m]);
    }
  }

  lemma ExactIsLinked(t: Tools, d: Disk)
    requires Inv(t, d) && Exact(d.links, d.sources)
    ensures forall s | s in d.sources :: LinksTo(d.links, s) != {}
  {
  }

  /** From the empty store nothing is left to ask of the first disk. */
  lemma EmptyIsGapless(t: Tools, ds: seq<Disk>, steps: seq<Step>, known: iset<Bytes>)
    requires Run(t, ds, steps) && ds[0] == EMPTY && Unambiguous(t, known)
    requires forall i | 0 <= i < |steps| :: StepInvolved(t, steps[i], known)
    requires forall i | 0 <= i < |steps| :: !Gap(t, ds[i], steps[i])
    ensures Gapless(t, ds, steps, known) && ViewOf(t, ds[0]) == map[]
  {
    EmptyIsSound(t, World(known, {}));
  }

  lemma ExactStep(t: Tools, d: Disk, e: Disk, step: Step)
    requires t.Lossless() && Inv(t, d) && Exact(d.links, d.sources) && Next(t, d, e, step)
    requires !step.PutCrash? && !step.DeleteCrash?
    ensures Inv(t, e) && Exact(e.links, e.sources)
  {
    StepKeepsInv(t, d, e, step);
    match step {
      case PutDone(q, plan) => DoneInv(t, d, q, plan);
      case Deleted(rows) => DeleteAllInv(t, d, rows);
      case Undone =>
    }
  }
}
