/** What the store promises: a map from names to bytes, reference counts, and
    what is left after a crash at any step. */
module Guarantees {
  import opened Basics
  import opened Disks
  import opened Plans
  import opened Recovery

  // --------------------------------------------------------- one put, done

  /** What the name reads after a put: its data, or, when a source was reused
      on the strength of its hash, whatever that source reads. */
  function PutResult(t: Tools, d: Disk, q: Request, plan: Plan): Option<Bytes>
    requires plan.Keep? ==> plan.link in d.links
  {
    match plan
    case Keep(l) => ReadAt(t, d, d.links[l].source)
    case Share(_, s) => ReadAt(t, d, s)
    case _ => Some(q.data)
  }

  lemma SameButTempsKeeps(t: Tools, d: Disk, e: Disk)
    requires SameButTemps(d, e)
    ensures Layout(t, d) ==> Layout(t, e)
    ensures Inv(t, d) ==> Inv(t, e)
    ensures ViewOf(t, d) == ViewOf(t, e)
  {
    assert forall s :: Stored(d, s) == Stored(e, s);
    ViewSame(t, d, e);
  }

  lemma SameButTempsHealthy(t: Tools, d: Disk, e: Disk, w: World)
    requires SameButTemps(d, e) && Healthy(t, d, w)
    ensures Healthy(t, e, w)
  {
    assert forall s :: Stored(d, s) == Stored(e, s);
  }

  lemma DoneInv(t: Tools, d: Disk, q: Request, plan: Plan)
    requires Inv(t, d) && Fits(t, d, q, plan)
    ensures Inv(t, Done(t, d, q, plan))
    ensures var e := Done(t, d, q, plan); Exact(d.links, d.sources) ==> Exact(e.links, e.sources)
  {
    match plan {
      case Keep(l) =>
      case Move(l, s) =>
        MoveInv(t, d, q, l, s);
        if Exact(d.links, d.sources) { MoveExact(t, d, q, l, s); }
      case Overwrite(l) =>
        RewrittenLayout(t, d, d.links[l].source, RowFor(t, q).(count := d.sources[d.links[l].source].count),
            RawFor(t, q));
      case Share(l, s) =>
        SharedInv(t, d, q, l, s);
        if Exact(d.links, d.sources) { SharedExact(t, d, q, l, s); }
      case Fresh(l, s) =>
        FreshInv(t, d, q, l, s);
        if Exact(d.links, d.sources) { FreshExact(t, d, q, l, s); }
    }
  }

  /** What names read after a put, whichever branch it took. */
  lemma DoneView(t: Tools, d: Disk, q: Request, plan: Plan)
    requires t.Lossless() && Layout(t, d) && Fits(t, d, q, plan) && !Refuses(d, plan)
    ensures ViewOf(t, Done(t, d, q, plan)) ==
            Setting(ViewOf(t, d), Touched(d.links, q.name, plan), PutResult(t, d, q, plan))
  {
    if plan.Overwrite? {
      OverwriteStages(t, d, q, plan.link);
    } else {
      PlainDoneView(t, d, q, plan);
      SettingOne(ViewOf(t, d), q.name, PutResult(t, d, q, plan));
    }
  }

  lemma PlainDoneView(t: Tools, d: Disk, q: Request, plan: Plan)
    requires t.Lossless() && Layout(t, d) && Fits(t, d, q, plan) && !Refuses(d, plan) && !plan.Overwrite?
    ensures ViewOf(t, Done(t, d, q, plan)) == ViewOf(t, d)[q.name := PutResult(t, d, q, plan)]
  {
    match plan {
      case Keep(l) => ViewAt(t, d, l); SetAgain(ViewOf(t, d), q.name);
      case Move(l, s) => MoveDoneView(t, d, q, l, s);
      case Share(l, s) => ShareView(t, d, q, l, s);
      case Fresh(l, s) => FreshView(t, d, q, l, s);
    }
  }

  lemma MoveDoneView(t: Tools, d: Disk, q: Request, l: Id, s: Id)
    requires t.Lossless() && Layout(t, d) && Fits(t, d, q, Move(l, s)) && !Pinned(d, l)
    ensures ViewOf(t, Done(t, d, q, Move(l, s))) == ViewOf(t, d)[q.name := Some(q.data)]
  {
    MoveView(t, d, q, l, s);
  }

  lemma SetAgain(v: View, n: Name)
    requires n in v
    ensures v == v[n := v[n]]
  {
  }

  lemma DoneHealthy(t: Tools, d: Disk, q: Request, plan: Plan, w: World)
    requires t.Lossless() && Layout(t, d) && Fits(t, d, q, plan) && Healthy(t, d, w) && q.data in w.known
    ensures Healthy(t, Done(t, d, q, plan), w)
  {
    match plan {
      case Keep(l) =>
      case Move(l, s) => MoveHealthy(t, d, q, l, s, w);
      case Overwrite(l) => OverwriteHealthy(t, d, q, l, w);
      case Share(l, s) => HealthyFiles(t, d, Done(t, d, q, plan), w);
      case Fresh(l, s) => FreshHealthy(t, d, q, l, s, w);
    }
  }

  /** Every branch of put sets the names it touches to one reading and leaves
      every other name alone; these are its own name, unless it clobbers. It
      keeps the layout, and with it counts that are not lost and exact counts. */
  lemma PutIsMapUpdate(t: Tools, d: Disk, e: Disk, q: Request, plan: Plan)
    requires t.Lossless() && Layout(t, d) && Fits(t, d, q, plan) && SameButTemps(Done(t, d, q, plan), e)
    requires !Refuses(d, plan)
    ensures Layout(t, e)
    ensures ViewOf(t, e) == Setting(ViewOf(t, d), Touched(d.links, q.name, plan), PutResult(t, d, q, plan))
    ensures !Clobbers(d, plan) ==> ViewOf(t, e) == ViewOf(t, d)[q.name := PutResult(t, d, q, plan)]
    ensures Inv(t, d) ==> Inv(t, e) && (Exact(d.links, d.sources) ==> Exact(e.links, e.sources))
  {
    var last := |Stages(t, d, q, plan)| - 1;
    StageLayout(t, d, q, plan, last);
    DoneView(t, d, q, plan);
    TouchedIffClobbers(t, d, q, plan);
    SettingOne(ViewOf(t, d), q.name, PutResult(t, d, q, plan));
    if Inv(t, d) { DoneInv(t, d, q, plan); }
    SameButTempsKeeps(t, Done(t, d, q, plan), e);
  }

  /** A cover in place that changes what another name reads. */
  ghost predicate Spoils(t: Tools, d: Disk, q: Request, plan: Plan)
  {
    Clobbers(d, plan) && ReadAt(t, d, d.links[plan.link].source) != Some(q.data)
  }

  /** A put leaves what every other name reads exactly when it does not cover,
      in place, different bytes that another name reads too. */
  lemma OthersUnchangedIff(t: Tools, d: Disk, q: Request, plan: Plan)
    requires t.Lossless() && Layout(t, d) && Fits(t, d, q, plan) && !Refuses(d, plan)
    ensures Elsewhere(ViewOf(t, d), ViewOf(t, Done(t, d, q, plan)), q.name) <==> !Spoils(t, d, q, plan)
  {
    var v, w := ViewOf(t, d), ViewOf(t, Done(t, d, q, plan));
    if Clobbers(d, plan) {
      assert w == Setting(v, NamesOn(d.links, d.links[plan.link].source), Some(q.data)) by { DoneView(t, d, q, plan); }
      SharedChangesIff(t, d, plan.link, q.data);
    } else {
      assert w == v[q.name := PutResult(t, d, q, plan)] by { PutIsMapUpdate(t, d, Done(t, d, q, plan), q, plan); }
      UpdateElsewhere(v, q.name, PutResult(t, d, q, plan));
    }
  }

  lemma UpdateElsewhere(v: View, n: Name, r: Option<Bytes>)
    ensures Elsewhere(v, v[n := r], n)
  {
  }

  lemma SharedChangesIff(t: Tools, d: Disk, l: Id, data: Bytes)
    requires OneLinkPerName(d.links) && l in d.links && Shared(d.links, l)
    ensures var v, o := ViewOf(t, d), d.links[l].source;
            && var w := Setting(v, NamesOn(d.links, o), Some(data));
            && (Elsewhere(v, w, d.links[l].name) <==> ReadAt(t, d, o) == Some(data))
  {
    var v, o := ViewOf(t, d), d.links[l].source;
    var names := NamesOn(d.links, o);
    var w := Setting(v, names, Some(data));
    if ReadAt(t, d, o) == Some(data) {
      forall n | n in names ensures n in v && v[n] == Some(data) { NamesRead(t, d, o, n); }
      SettingSame(v, names, Some(data));
    } else {
      var m :| m in d.links && m != l && d.links[m].source == o;
      var n := d.links[m].name;
      assert n in names;
      NamesRead(t, d, o, n);
      assert n in v - {d.links[l].name} && n in w - {d.links[l].name} && v[n] != w[n];
    }
  }

  // --------------------------------------------------- read your own write

  /** The sources whose bytes a put may take for its own: the name's, when hash
      and encoding match and cover is off; for a new name any with the hash. */
  ghost predicate Reusable(t: Tools, d: Disk, q: Request, s: Id)
  {
    && s in d.sources && d.sources[s].hash == t.hash(q.data)
    && (q.name in Names(d.links) ==>
          && !q.cover && d.sources[s].compressed == q.compressed
          && s == d.links[LinkOf(d.links, q.name)].source)
  }

  ghost predicate Collide(t: Tools, x: Bytes, y: Bytes)
  {
    x != y && t.hash(x) == t.hash(y)
  }

  /** A payload passes the check that a get makes. */
  predicate Intact(t: Tools, d: Disk, s: Id)
  {
    ReadAt(t, d, s).Some?
  }

  /** No source that may be reused is torn or holds colliding bytes. */
  ghost predicate SafeToReuse(t: Tools, d: Disk, q: Request)
  {
    forall s | Reusable(t, d, q, s) :: Intact(t, d, s) && !Collide(t, ReadAt(t, d, s).value, q.data)
  }

  lemma ReusedReads(t: Tools, d: Disk, q: Request, s: Id)
    requires Reusable(t, d, q, s)
    ensures ReadAt(t, d, s) == Some(q.data) <==> Intact(t, d, s) && !Collide(t, ReadAt(t, d, s).value, q.data)
  {
  }

  lemma ResultIfSafe(t: Tools, d: Disk, q: Request, plan: Plan)
    requires OneLinkPerName(d.links) && Fits(t, d, q, plan) && SafeToReuse(t, d, q)
    ensures PutResult(t, d, q, plan) == Some(q.data)
  {
    match plan {
      case Keep(l) =>
        assert q.name in Names(d.links) && LinkOf(d.links, q.name) == l;
        assert Reusable(t, d, q, d.links[l].source);
      case Share(_, s) => assert Reusable(t, d, q, s);
      case _ =>
    }
  }

  /** The branch that reuses source `s`. */
  lemma ReusingPlan(t: Tools, d: Disk, q: Request, s: Id, l: Id) returns (plan: Plan)
    requires Reusable(t, d, q, s) && l !in d.links
    ensures Fits(t, d, q, plan) && (plan.Keep? || plan.Share?) && PutResult(t, d, q, plan) == ReadAt(t, d, s)
  {
    if q.name in Names(d.links) {
      plan := Keep(LinkOf(d.links, q.name));
    } else {
      plan := Share(l, s);
    }
  }

  /** After a put a get returns its data, whichever branch is taken, exactly
      when no source that it may reuse is torn or holds colliding bytes. `l` is
      any identifier free for a new link. */
  lemma PutReadsBackIff(t: Tools, d: Disk, q: Request, l: Id)
    requires t.Lossless() && Layout(t, d) && l !in d.links
    ensures SafeToReuse(t, d, q) <==>
            forall plan | Fits(t, d, q, plan) && !Refuses(d, plan) ::
              At(ViewOf(t, Done(t, d, q, plan)), q.name) == Some(Some(q.data))
  {
    forall plan | Fits(t, d, q, plan) && !Refuses(d, plan)
      ensures At(ViewOf(t, Done(t, d, q, plan)), q.name) == Some(PutResult(t, d, q, plan))
    {
      PutShowsResult(t, d, q, plan);
    }
    if SafeToReuse(t, d, q) {
      forall plan | Fits(t, d, q, plan) ensures PutResult(t, d, q, plan) == Some(q.data) {
        ResultIfSafe(t, d, q, plan);
      }
    } else {
      var s :| Reusable(t, d, q, s) && !(Intact(t, d, s) && !Collide(t, ReadAt(t, d, s).value, q.data));
      ReusedReads(t, d, q, s);
      var plan := ReusingPlan(t, d, q, s, l);
      assert At(ViewOf(t, Done(t, d, q, plan)), q.name) != Some(Some(q.data));
    }
  }

  lemma PutShowsResult(t: Tools, d: Disk, q: Request, plan: Plan)
    requires t.Lossless() && Layout(t, d) && Fits(t, d, q, plan) && !Refuses(d, plan)
    ensures At(ViewOf(t, Done(t, d, q, plan)), q.name) == Some(PutResult(t, d, q, plan))
  {
    DoneView(t, d, q, plan);
    TouchedIffClobbers(t, d, q, plan);
  }

  /** Where no two known contents collide, only a torn payload is unsafe. */
  lemma KnownIsSafe(t: Tools, d: Disk, q: Request, w: World)
    requires Healthy(t, d, w) && Unambiguous(t, w.known) && q.data in w.known && t.hash(q.data) !in w.torn
    ensures SafeToReuse(t, d, q)
  {
    forall s | Reusable(t, d, q, s) ensures Intact(t, d, s) && !Collide(t, ReadAt(t, d, s).value, q.data) {
      assert Sound(t, d.sources[s], Stored(d, s), w);
    }
  }

  // ------------------------------------------------------- a put that crashed

  /** The one crash that leaves a source with more links than it counts:
      between the new link and the count, when the count was tight. */
  ghost predicate CountLost(d: Disk, plan: Plan, k: nat)
  {
    plan.Share? && k == 1 && plan.source in d.sources && |LinksTo(d.links, plan.source)| == d.sources[plan.source].count
  }

  /** The one crash between the bytes and the row of a payload: the bytes of a
      source overwritten in place before its row. */
  predicate Torn(plan: Plan, k: nat)
  {
    plan.Overwrite? && k == 1
  }

  /** It tears the payload where the new bytes fail the old row's check. */
  predicate Tears(t: Tools, d: Disk, q: Request, plan: Plan, k: nat)
  {
    && Torn(plan, k) && plan.link in d.links && d.links[plan.link].source in d.sources
    && Decode(t, d.sources[d.links[plan.link].source], RawFor(t, q)).None?
  }

  // The layout of every stage, and its counts.

  lemma MoveStageLayout(t: Tools, d: Disk, q: Request, l: Id, s: Id, k: nat)
    requires Layout(t, d) && Fits(t, d, q, Move(l, s)) && k < |Passed(t, d, q, Move(l, s))|
    ensures Layout(t, Stages(t, d, q, Move(l, s))[k])
  {
    MoveLayout(t, d, l, s, RowFor(t, q), RawFor(t, q));
    if k == 0 {} else if k == 1 {} else if k == 2 {} else {
      MoveReleasedLayout(t, d, l, s, RowFor(t, q), RawFor(t, q));
    }
  }

  lemma OverwriteStageLayout(t: Tools, d: Disk, q: Request, l: Id, k: nat)
    requires Layout(t, d) && Fits(t, d, q, Overwrite(l)) && k < 3
    ensures Layout(t, Stages(t, d, q, Overwrite(l))[k])
    ensures Inv(t, d) ==> Inv(t, Stages(t, d, q, Overwrite(l))[k])
  {
    var o := d.links[l].source;
    if k == 1 {
      RewrittenLayout(t, d, o, d.sources[o], RawFor(t, q));
    } else if k == 2 {
      RewrittenLayout(t, d, o, RowFor(t, q).(count := d.sources[o].count), RawFor(t, q));
    } else {
    }
  }

  /** Every stage of every branch has the layout. */
  lemma StageLayout(t: Tools, d: Disk, q: Request, plan: Plan, k: nat)
    requires Layout(t, d) && Fits(t, d, q, plan) && k < |Passed(t, d, q, plan)|
    ensures Layout(t, Stages(t, d, q, plan)[k])
  {
    match plan {
      case Keep(l) =>
      case Move(l, s) => MoveStageLayout(t, d, q, l, s, k);
      case Overwrite(l) => OverwriteStageLayout(t, d, q, l, k);
      case Share(l, s) => ShareLayout(t, d, q, l, s);
      case Fresh(l, s) => FreshLayout(t, d, q, l, s);
    }
  }

  lemma MoveShape(t: Tools, d: Disk, q: Request, l: Id, s: Id, k: nat)
    requires Inv(t, d) && Fits(t, d, q, Move(l, s)) && k < 4
    ensures Inv(t, Stages(t, d, q, Move(l, s))[k])
  {
    MoveInv(t, d, q, l, s);
    if k == 0 {} else if k == 1 {} else if k == 2 {} else {}
  }

  lemma ShareShape(t: Tools, d: Disk, q: Request, l: Id, s: Id, k: nat)
    requires Inv(t, d) && Fits(t, d, q, Share(l, s)) && k < 3
    ensures Inv(t, Stages(t, d, q, Share(l, s))[k]) <==> !CountLost(d, Share(l, s), k)
  {
    if k == 1 {
      ShareTable(t, d, q, l, s);
      WindowCount(d.links, WithLink(d, l, NewLink(t, q, s)).links, d.sources, s);
    } else if k == 2 {
      SharedInv(t, d, q, l, s);
    }
  }

  lemma WindowCount(links: map<Id, Link>, after: map<Id, Link>, sources: map<Id, Source>, s: Id)
    requires Counted(links, sources) && s in sources && |LinksTo(after, s)| == |LinksTo(links, s)| + 1
    requires forall r | r != s :: LinksTo(after, r) == LinksTo(links, r)
    ensures Counted(after, sources) <==> |LinksTo(links, s)| != sources[s].count
  {
  }

  /** No stage has a source with more links than it counts, but for the one
      that loses a count. */
  lemma StageShape(t: Tools, d: Disk, q: Request, plan: Plan, k: nat)
    requires Inv(t, d) && Fits(t, d, q, plan) && k < |Stages(t, d, q, plan)|
    ensures Inv(t, Stages(t, d, q, plan)[k]) <==> !CountLost(d, plan, k)
  {
    match plan {
      case Keep(l) =>
      case Move(l, s) => MoveShape(t, d, q, l, s, k);
      case Overwrite(l) => OverwriteStageLayout(t, d, q, l, k);
      case Share(l, s) => ShareShape(t, d, q, l, s, k);
      case Fresh(l, s) => FreshInv(t, d, q, l, s);
    }
  }

  // What names read at every stage.

  /** What name `n` reads, or None when there is no such name. */
  function At(v: View, n: Name): Option<Option<Bytes>>
  {
    if n in v then Some(v[n]) else None
  }

  /** The stage at which the put becomes visible; before it nothing shows. */
  function Visible(plan: Plan): nat
  {
    match plan
    case Keep(_) => 0
    case Share(_, _) => 1
    case _ => 2
  }

  /** What the touched name reads at stage `k`. */
  function StageResult(t: Tools, d: Disk, q: Request, plan: Plan, k: nat): Option<Option<Bytes>>
    requires plan.Keep? || plan.Overwrite? ==> plan.link in d.links && d.links[plan.link].source in d.sources
  {
    if Torn(plan, k) then Some(Decode(t, d.sources[d.links[plan.link].source], RawFor(t, q)))
    else if k < Visible(plan) then None
    else Some(PutResult(t, d, q, plan))
  }

  function Written(v: View, n: Name, r: Option<Option<Bytes>>): View
  {
    match r case None => v case Some(x) => v[n := x]
  }

  lemma MoveStageView(t: Tools, d: Disk, q: Request, l: Id, s: Id, k: nat)
    requires t.Lossless() && Layout(t, d) && Fits(t, d, q, Move(l, s)) && 0 < k < |Passed(t, d, q, Move(l, s))|
    ensures ViewOf(t, Stages(t, d, q, Move(l, s))[k])
              == Written(ViewOf(t, d), q.name, StageResult(t, d, q, Move(l, s), k))
  {
    var v := ViewOf(t, d);
    assert StageResult(t, d, q, Move(l, s), k) == if k == 1 then None else Some(Some(q.data));
    MoveView(t, d, q, l, s);
    if k == 1 {
    } else if k == 2 {
      assert Written(v, q.name, Some(Some(q.data))) == v[q.name := Some(q.data)];
    } else {
      assert Written(v, q.name, Some(Some(q.data))) == v[q.name := Some(q.data)];
    }
  }

  lemma ShareLinked(t: Tools, d: Disk, q: Request, l: Id, s: Id)
    requires Layout(t, d) && Fits(t, d, q, Share(l, s))
    ensures ViewOf(t, Stages(t, d, q, Share(l, s))[1])
              == Written(ViewOf(t, d), q.name, StageResult(t, d, q, Share(l, s), 1))
  {
    ShareView(t, d, q, l, s);
  }

  lemma ShareCounted(t: Tools, d: Disk, q: Request, l: Id, s: Id)
    requires Layout(t, d) && Fits(t, d, q, Share(l, s))
    ensures ViewOf(t, Stages(t, d, q, Share(l, s))[2])
              == Written(ViewOf(t, d), q.name, StageResult(t, d, q, Share(l, s), 2))
  {
    assert StageResult(t, d, q, Share(l, s), 2) == Some(ReadAt(t, d, s));
    ShareView(t, d, q, l, s);
  }

  lemma FreshStored(t: Tools, d: Disk, q: Request, l: Id, s: Id)
    requires t.Lossless() && Layout(t, d) && Fits(t, d, q, Fresh(l, s))
    ensures ViewOf(t, Stages(t, d, q, Fresh(l, s))[1])
              == Written(ViewOf(t, d), q.name, StageResult(t, d, q, Fresh(l, s), 1))
  {
    FreshView(t, d, q, l, s);
  }

  lemma FreshLinked(t: Tools, d: Disk, q: Request, l: Id, s: Id)
    requires t.Lossless() && Layout(t, d) && Fits(t, d, q, Fresh(l, s))
    ensures ViewOf(t, Stages(t, d, q, Fresh(l, s))[2]) ==
            Written(ViewOf(t, d), q.name, StageResult(t, d, q, Fresh(l, s), 2))
  {
    assert StageResult(t, d, q, Fresh(l, s), 2) == Some(Some(q.data));
    FreshView(t, d, q, l, s);
  }

  lemma PlainStageView(t: Tools, d: Disk, q: Request, plan: Plan, k: nat)
    requires t.Lossless() && Layout(t, d) && Fits(t, d, q, plan) && !plan.Overwrite? && k < |Passed(t, d, q, plan)|
    ensures ViewOf(t, Stages(t, d, q, plan)[k]) == Written(ViewOf(t, d), q.name, StageResult(t, d, q, plan, k))
  {
    if k == 0 {
      if plan.Keep? { PlainDoneView(t, d, q, plan); }
    } else {
      match plan {
        case Move(l, s) => MoveStageView(t, d, q, l, s, k);
        case Share(l, s) =>
          if k == 1 {
            ShareLinked(t, d, q, l, s);
          } else {
            assert k == 2;
            ShareCounted(t, d, q, l, s);
          }
        case Fresh(l, s) =>
          if k == 1 {
            FreshStored(t, d, q, l, s);
          } else {
            assert k == 2;
            FreshLinked(t, d, q, l, s);
          }
      }
    }
  }

  /** The view in which all of `names` have been set, if they have. */
  function WrittenAll(v: View, names: set<Name>, r: Option<Option<Bytes>>): View
  {
    match r case None => v case Some(x) => Setting(v, names, x)
  }

  lemma WrittenOne(v: View, n: Name, r: Option<Option<Bytes>>)
    ensures WrittenAll(v, {n}, r) == Written(v, n, r)
  {
    if r.Some? { SettingOne(v, n, r.value); }
  }

  lemma OverwriteResult(t: Tools, d: Disk, q: Request, l: Id, k: nat)
    requires l in d.links && d.links[l].source in d.sources
    ensures var r, o := StageResult(t, d, q, Overwrite(l), k), d.links[l].source;
            && (k == 0 ==> r == None) && (k == 1 ==> r == Some(Decode(t, d.sources[o], RawFor(t, q))))
            && (k >= 2 ==> r == Some(Some(q.data)))
  {
  }

  lemma OverwriteStageView(t: Tools, d: Disk, q: Request, l: Id, k: nat)
    requires t.Lossless() && Layout(t, d) && Fits(t, d, q, Overwrite(l)) && k < 3
    ensures ViewOf(t, Stages(t, d, q, Overwrite(l))[k]) ==
            WrittenAll(ViewOf(t, d), NamesOn(d.links, d.links[l].source), StageResult(t, d, q, Overwrite(l), k))
  {
    OverwriteStages(t, d, q, l);
    OverwriteResult(t, d, q, l, k);
  }

  /** At every stage the view is the old one, but for the touched names, which
      all read the same. */
  lemma StageView(t: Tools, d: Disk, q: Request, plan: Plan, k: nat)
    requires t.Lossless() && Layout(t, d) && Fits(t, d, q, plan) && k < |Passed(t, d, q, plan)|
    ensures ViewOf(t, Stages(t, d, q, plan)[k]) ==
            WrittenAll(ViewOf(t, d), Touched(d.links, q.name, plan), StageResult(t, d, q, plan, k))
  {
    if plan.Overwrite? {
      OverwriteStageView(t, d, q, plan.link, k);
    } else {
      PlainStageView(t, d, q, plan, k);
      WrittenOne(ViewOf(t, d), q.name, StageResult(t, d, q, plan, k));
    }
  }

  /** A restart from the neighbourhood of a stage is that stage. */
  lemma Restarted(t: Tools, stage: Disk, now: Disk)
    requires Clean(stage) && Offstage(stage, now)
    ensures var r := Recover(now);
            && SameButTemps(stage, r) && r.temps == map[] && Clean(r) && Recover(r) == r
            && ViewOf(t, r) == ViewOf(t, stage)
  {
    RecoverStage(stage, now);
    RecoverTwice(now);
    SameButTempsKeeps(t, stage, Recover(now));
  }

  /** A put stopped at any step, then restarted: the files are exactly the
      rows; every name reads as before, or the names that the put touches all
      read its result, or, between bytes and row, what the old row makes of the
      new bytes; the touched names are the put's own unless it clobbers; no
      count is lost but in one case; and a second restart would change nothing. */
  lemma CrashedPut(t: Tools, d: Disk, q: Request, plan: Plan, k: nat, now: Disk)
    requires t.Lossless() && Layout(t, d) && Fits(t, d, q, plan)
    requires k < |Passed(t, d, q, plan)| && Offstage(Stages(t, d, q, plan)[k], now)
    ensures var r, names := Recover(now), Touched(d.links, q.name, plan);
            var v, w := ViewOf(t, d), ViewOf(t, r);
            && SameButTemps(Stages(t, d, q, plan)[k], r) && r.temps == map[]
            && Layout(t, r)
            && (Inv(t, d) ==> (Inv(t, r) <==> !CountLost(d, plan, k)))
            && (|| w == v
                || w == Setting(v, names, PutResult(t, d, q, plan))
                || (&& Torn(plan, k)
                    && w == Setting(v, names, Decode(t, d.sources[d.links[plan.link].source], RawFor(t, q)))))
            && q.name in names && (names == {q.name} <==> !Clobbers(d, plan))
            && Recover(r) == r
  {
    var stage := Stages(t, d, q, plan)[k];
    StageLayout(t, d, q, plan, k);
    if Inv(t, d) { StageShape(t, d, q, plan, k); }
    Restarted(t, stage, now);
    SameButTempsKeeps(t, stage, Recover(now));
    SameButTempsKeeps(t, Recover(now), stage);
    StageView(t, d, q, plan, k);
    TouchedIffClobbers(t, d, q, plan);
  }

  // --------------------------------------------------- atomic or torn

  ghost predicate BeforeOrAfter(v: View, w: View, q: Request)
  {
    w == v || w == v[q.name := Some(q.data)]
  }

  /** The data of a request and its stored bytes as either encoding reads them. */
  ghost predicate Involved(t: Tools, q: Request, known: iset<Bytes>)
  {
    && q.data in known && RawFor(t, q) in known
    && (t.unpack(RawFor(t, q)).Some? ==> t.unpack(RawFor(t, q)).value in known)
  }

  /** The contents that stage `k` of a put brings in: its data, and where an old
      row meets new bytes what they may read as. */
  ghost predicate InvolvedAt(t: Tools, q: Request, plan: Plan, k: nat, known: iset<Bytes>)
  {
    q.data in known && (Torn(plan, k) ==> Involved(t, q, known))
  }

  /** What an old row makes of new bytes is known. */
  lemma TornReadsKnown(t: Tools, q: Request, row: Source, known: iset<Bytes>)
    requires Involved(t, q, known) && Decode(t, row, RawFor(t, q)).Some?
    ensures Decode(t, row, RawFor(t, q)).value in known
  {
  }

  /** Under one encoding the new bytes pass the old check when the hash is the same. */
  lemma TearsSameEncoding(t: Tools, q: Request, row: Source)
    requires t.Lossless() && row.compressed == q.compressed
    ensures Decode(t, row, RawFor(t, q)).None? <==> row.hash != t.hash(q.data)
  {
    if q.compressed { var packed := t.pack(q.data); assert t.unpack(packed) == Some(q.data); }
  }

  /** A stage of a put shows the map before it or after it exactly when it does
      not tear a payload and does not, at its end, spoil another name. */
  lemma StageIsAtomicIff(t: Tools, d: Disk, q: Request, plan: Plan, k: nat, known: iset<Bytes>)
    requires t.Lossless() && Layout(t, d) && Fits(t, d, q, plan) && k < |Passed(t, d, q, plan)|
    requires Healthy(t, d, World(known, {})) && Unambiguous(t, known) && InvolvedAt(t, q, plan, k, known)
    ensures BeforeOrAfter(ViewOf(t, d), ViewOf(t, Stages(t, d, q, plan)[k]), q)
            <==> !Tears(t, d, q, plan, k) && !(k == 2 && Spoils(t, d, q, plan))
  {
    if plan.Overwrite? {
      if k == 1 {
        TornIsAtomicIff(t, d, q, plan.link, known);
      } else if k == 2 {
        CoverIsAtomicIff(t, d, q, plan.link);
      }
    } else {
      assert PutResult(t, d, q, plan) == Some(q.data) by {
        KnownIsSafe(t, d, q, World(known, {}));
        ResultIfSafe(t, d, q, plan);
      }
      PlainStageView(t, d, q, plan, k);
      WrittenIsAtomic(ViewOf(t, d), q, StageResult(t, d, q, plan, k));
    }
  }

  lemma WrittenIsAtomic(v: View, q: Request, r: Option<Option<Bytes>>)
    requires r == None || r == Some(Some(q.data))
    ensures BeforeOrAfter(v, Written(v, q.name, r), q)
  {
  }

  /** A finished cover in place is the map update exactly when it spoils nothing. */
  lemma CoverIsAtomicIff(t: Tools, d: Disk, q: Request, l: Id)
    requires t.Lossless() && Layout(t, d) && Fits(t, d, q, Overwrite(l))
    ensures BeforeOrAfter(ViewOf(t, d), ViewOf(t, Stages(t, d, q, Overwrite(l))[2]), q)
            <==> !Spoils(t, d, q, Overwrite(l))
  {
    var v, w := ViewOf(t, d), ViewOf(t, Stages(t, d, q, Overwrite(l))[2]);
    OthersUnchangedIff(t, d, q, Overwrite(l));
    PutShowsResult(t, d, q, Overwrite(l));
    ElsewhereIsAtomic(v, w, q);
  }

  lemma ElsewhereIsAtomic(v: View, w: View, q: Request)
    requires q.name in w && w[q.name] == Some(q.data)
    ensures BeforeOrAfter(v, w, q) <==> Elsewhere(v, w, q.name)
  {
    if Elsewhere(v, w, q.name) { ViewUpdated(v, w, q.name, Some(q.data)); }
  }

  lemma TornIsAtomicIff(t: Tools, d: Disk, q: Request, l: Id, known: iset<Bytes>)
    requires t.Lossless() && Layout(t, d) && Fits(t, d, q, Overwrite(l))
    requires Healthy(t, d, World(known, {})) && Unambiguous(t, known) && Involved(t, q, known)
    ensures BeforeOrAfter(ViewOf(t, d), ViewOf(t, Stages(t, d, q, Overwrite(l))[1]), q)
            <==> Decode(t, d.sources[d.links[l].source], RawFor(t, q)).Some?
  {
    var o := d.links[l].source;
    var v, names, r := ViewOf(t, d), NamesOn(d.links, o), Decode(t, d.sources[o], RawFor(t, q));
    OverwriteStages(t, d, q, l);
    NamesOnShared(d.links, l);
    NamesRead(t, d, o, q.name);
    assert Sound(t, d.sources[o], Stored(d, o), World(known, {}));
    if r.Some? {
      TornReadsKnown(t, q, d.sources[o], known);
      NamesKeep(t, d, o, r);
    } else {
      TornIsNotAtomic(v, names, q);
    }
  }

  lemma TornIsNotAtomic(v: View, names: set<Name>, q: Request)
    requires q.name in names && q.name in v && v[q.name].Some?
    ensures !BeforeOrAfter(v, Setting(v, names, None), q)
  {
    assert Setting(v, names, None)[q.name] == None;
  }

  /** Setting the names on a source to what they read changes nothing. */
  lemma NamesKeep(t: Tools, d: Disk, s: Id, r: Option<Bytes>)
    requires OneLinkPerName(d.links) && ReadAt(t, d, s) == r
    ensures Setting(ViewOf(t, d), NamesOn(d.links, s), r) == ViewOf(t, d)
  {
    forall n | n in NamesOn(d.links, s) ensures n in ViewOf(t, d) && ViewOf(t, d)[n] == r { NamesRead(t, d, s, n); }
    SettingSame(ViewOf(t, d), NamesOn(d.links, s), r);
  }

  // ------------------------------------------------------ the two exceptions

  /** Why a lost count matters: on any disk where two links share a source that
      counts one, covering the one name makes the other read the covering data. */
  lemma LostCountIsUnsafe(t: Tools, d: Disk, q: Request, l: Id, m: Id)
    requires t.Lossless() && Layout(t, d)
    requires l in d.links && m in d.links && l != m && d.links[l].source == d.links[m].source
    requires d.sources[d.links[l].source].count <= 1 && d.links[l].name == q.name && q.cover
    ensures Fits(t, d, q, Overwrite(l)) && Clobbers(d, Overwrite(l)) && d.links[m].name != q.name
    ensures At(ViewOf(t, Done(t, d, q, Overwrite(l))), d.links[m].name) == Some(Some(q.data))
  {
    var o := d.links[l].source;
    var e := Done(t, d, q, Overwrite(l));
    FreshRowReadsBack(t, q, d.sources[o].count);
    ViewAt(t, e, m);
  }

  /** A crash leads there from a consistent disk: a put of stored contents under
      a new name, stopped between link and count, then a restart, then a cover
      of the old name, and the new name reads the covering data. */
  lemma LostCountIsReached(t: Tools, d: Disk, q: Request, l: Id, m: Id, now: Disk, p: Request)
    requires t.Lossless() && Inv(t, d) && l in d.links && d.sources[d.links[l].source].count == 1
    requires Fits(t, d, q, Share(m, d.links[l].source))
    requires Offstage(Stages(t, d, q, Share(m, d.links[l].source))[1], now)
    requires p.name == d.links[l].name && p.cover
    ensures var r := Recover(now);
            && Layout(t, r) && !Inv(t, r)
            && Fits(t, r, p, Overwrite(l))
            && p.name != q.name
            && At(ViewOf(t, r), q.name) == Some(ReadAt(t, d, d.links[l].source))
            && At(ViewOf(t, Done(t, r, p, Overwrite(l))), q.name) == Some(Some(p.data))
  {
    var s, r := d.links[l].source, Recover(now);
    var stage := Stages(t, d, q, Share(m, s))[1];
    TightCount(t, d, q, l, m);
    Restarted(t, stage, now);
    SameButTempsKeeps(t, stage, r);
    SameButTempsKeeps(t, r, stage);
    ShareView(t, d, q, m, s);
    LostCountIsUnsafe(t, r, p, l, m);
  }

  /** A source that counts one has no room for a second link. */
  lemma TightCount(t: Tools, d: Disk, q: Request, l: Id, m: Id)
    requires Inv(t, d) && l in d.links && d.sources[d.links[l].source].count == 1
    requires Fits(t, d, q, Share(m, d.links[l].source))
    ensures var stage := Stages(t, d, q, Share(m, d.links[l].source))[1];
            && Layout(t, stage) && !Inv(t, stage) && q.name != d.links[l].name
  {
    var s := d.links[l].source;
    assert {l} <= LinksTo(d.links, s);
    SubsetSize({l}, LinksTo(d.links, s));
    ShareLayout(t, d, q, m, s);
    ShareShape(t, d, q, m, s, 1);
    assert d.links[l].name in Names(d.links);
  }

  /** What a torn payload does to later puts of its old contents. Stored under
      a new name they share the torn source, and put again under their own name
      without cover they are taken to be there: both succeed and read as corrupt. */
  lemma TornIsReused(t: Tools, d: Disk, q: Request, l: Id, p: Request, m: Id)
    requires t.Lossless() && Inv(t, d) && Fits(t, d, q, Overwrite(l)) && Tears(t, d, q, Overwrite(l), 1)
    requires At(ViewOf(t, d), q.name) == Some(Some(p.data))
    requires if p.name == q.name then !p.cover && p.compressed == d.sources[d.links[l].source].compressed
             else p.name !in Names(d.links) && m !in d.links
    ensures var e, o := Stages(t, d, q, Overwrite(l))[1], d.links[l].source;
            var plan := if p.name == q.name then Keep(l) else Share(m, o);
            && At(ViewOf(t, e), q.name) == Some(None)
            && Fits(t, e, p, plan)
            && At(ViewOf(t, Done(t, e, p, plan)), p.name) == Some(None)
  {
    var o := d.links[l].source;
    var e := Stages(t, d, q, Overwrite(l))[1];
    NothingPinned(t, d, l);
    OverwriteStages(t, d, q, l);
    OverwriteStageLayout(t, d, q, l, 1);
    NamesOnShared(d.links, l);
    LinkShows(t, d, l);
    var plan := if p.name == q.name then Keep(l) else Share(m, o);
    assert Fits(t, e, p, plan);
    PlainDoneView(t, e, p, plan);
    ViewAt(t, e, l);
  }

  // --------------------------------------------------- a delete that crashed

  /** A delete stopped at any step, then restarted: the link is gone or whole,
      and every other name reads as before. */
  lemma CrashedDelete(t: Tools, d: Disk, l: Id, k: nat, now: Disk)
    requires Layout(t, d) && l in d.links && k < |DeletePassed(d, l)| && Offstage(DeleteStages(d, l)[k], now)
    ensures var r := Recover(now);
            && Layout(t, r) && SameButTemps(DeleteStages(d, l)[k], r)
            && (Inv(t, d) ==> Inv(t, r))
            && ViewOf(t, r) == (if k == 0 then ViewOf(t, d) else ViewOf(t, d) - {d.links[l].name})
            && Recover(r) == r
  {
    DeleteStageAt(t, d, l, k);
    Restarted(t, DeleteStages(d, l)[k], now);
    SameButTempsKeeps(t, DeleteStages(d, l)[k], Recover(now));
  }

  lemma DeleteStageAt(t: Tools, d: Disk, l: Id, k: nat)
    requires Layout(t, d) && l in d.links && k < |DeletePassed(d, l)|
    ensures var stage := DeleteStages(d, l)[k];
            && Layout(t, stage) && (Inv(t, d) ==> Inv(t, stage))
            && ViewOf(t, stage) == (if k == 0 then ViewOf(t, d) else ViewOf(t, d) - {d.links[l].name})
  {
    if Inv(t, d) { DeleteKeepsInv(t, d, l); }
    DroppedInv(t, d, l);
    DroppedView(t, d, l);
    if k == 0 {} else if k == 1 {} else { DeleteStagesLayout(t, d, l); }
  }

  /** Under exact counts a payload is kept exactly as long as some link needs it. */
  lemma PayloadsAreTheLinkedSources(t: Tools, d: Disk, rows: seq<Id>)
    requires Inv(t, d) && Exact(d.links, d.sources) && SomeLinks(d.links, rows)
    ensures var e := DeleteAll(d, rows);
            && e.payloads.Keys == e.sources.Keys
            && forall s :: s in e.sources <==> LinksTo(e.links, s) != {}
  {
    DeleteAllInv(t, d, rows);
    var e := DeleteAll(d, rows);
    forall s ensures s in e.sources <==> LinksTo(e.links, s) != {} {
      if s in e.sources { assert |LinksTo(e.links, s)| >= 1; } else { Unlinked(t, e.links, e.sources, s); }
    }
  }

  // ------------------------------------------------------- where runs begin

  const EMPTY := Disk(map[], map[], map[], map[], map[])

  lemma EmptyIsSound(t: Tools, w: World)
    ensures Inv(t, EMPTY) && Exact(EMPTY.links, EMPTY.sources) && Healthy(t, EMPTY, w) && ViewOf(t, EMPTY) == map[]
  {
  }

  lemma FreshShows(t: Tools, d: Disk, q: Request, l: Id, s: Id)
    requires t.Lossless() && Layout(t, d) && Fits(t, d, q, Fresh(l, s))
    ensures At(ViewOf(t, Done(t, d, q, Fresh(l, s))), q.name) == Some(Some(q.data))
  {
    var w := ViewOf(t, Done(t, d, q, Fresh(l, s)));
    assert w == ViewOf(t, d)[q.name := Some(q.data)] by { FreshView(t, d, q, l, s); }
  }

  lemma FreshInvShows(t: Tools, d: Disk, q: Request, l: Id, s: Id)
    requires t.Lossless() && Inv(t, d) && Fits(t, d, q, Fresh(l, s))
    ensures Inv(t, Done(t, d, q, Fresh(l, s)))
    ensures At(ViewOf(t, Done(t, d, q, Fresh(l, s))), q.name) == Some(Some(q.data))
  {
    assert Inv(t, Done(t, d, q, Fresh(l, s))) by { FreshInv(t, d, q, l, s); }
    FreshShows(t, d, q, l, s);
  }

  lemma FirstTables(t: Tools, q: Request, l: Id, s: Id)
    ensures Fits(t, EMPTY, q, Fresh(l, s))
    ensures var d := Done(t, EMPTY, q, Fresh(l, s));
            d.links == map[l := NewLink(t, q, s)] && d.sources == map[s := RowFor(t, q)]
  {
  }

  lemma FirstPut(t: Tools, a: Name, x: Bytes, l: Id, s: Id)
    requires t.Lossless()
    ensures var q := Request(a, x, false, false);
            var d := Done(t, EMPTY, q, Fresh(l, s));
            && Inv(t, d) && At(ViewOf(t, d), a) == Some(Some(x))
            && d.links == map[l := NewLink(t, q, s)] && d.sources == map[s := RowFor(t, q)]
  {
    EmptyIsSound(t, World(iset{}, {}));
    FirstTables(t, Request(a, x, false, false), l, s);
    FreshInvShows(t, EMPTY, Request(a, x, false, false), l, s);
  }

  /** From the empty store: put `x` as `a`; put it as `b` and crash; restart;
      cover `a` with `y`: now `b` reads `y`. */
  lemma LostCountHappens(t: Tools, a: Name, b: Name, x: Bytes, y: Bytes, l: Id, m: Id, s: Id)
    requires t.Lossless() && a != b && l != m
    ensures var d := Done(t, EMPTY, Request(a, x, false, false), Fresh(l, s));
            var r := Recover(Stages(t, d, Request(b, x, false, false), Share(m, s))[1]);
            && At(ViewOf(t, r), b) == Some(Some(x))
            && At(ViewOf(t, Done(t, r, Request(a, y, true, false), Overwrite(l))), b) == Some(Some(y))
  {
    FirstPut(t, a, x, l, s);
    var d := Done(t, EMPTY, Request(a, x, false, false), Fresh(l, s));
    var q, stage := Request(b, x, false, false), Stages(t, d, Request(b, x, false, false), Share(m, s))[1];
    assert Fits(t, d, q, Share(m, s));
    LinkShows(t, d, l);
    LostCountIsReached(t, d, q, l, m, stage, Request(a, y, true, false));
  }

  /** From the empty store: put `x` as `a`; cover it with `y` and crash;
      restart: now `a` fails its check. */
  lemma TornHappens(t: Tools, a: Name, x: Bytes, y: Bytes, l: Id, s: Id)
    requires t.Lossless() && t.hash(x) != t.hash(y)
    ensures var d := Done(t, EMPTY, Request(a, x, false, false), Fresh(l, s));
            At(ViewOf(t, Recover(Stages(t, d, Request(a, y, true, false), Overwrite(l))[1])), a) == Some(None)
  {
    FirstPut(t, a, x, l, s);
    var d, q := Done(t, EMPTY, Request(a, x, false, false), Fresh(l, s)), Request(a, y, true, false);
    assert Fits(t, d, q, Overwrite(l));
    NothingPinned(t, d, l);
    OverwriteStages(t, d, q, l);
    OverwriteStageLayout(t, d, q, l, 1);
    NamesOnShared(d.links, l);
    TearsSameEncoding(t, q, d.sources[s]);
    Restarted(t, Stages(t, d, q, Overwrite(l))[1], Stages(t, d, q, Overwrite(l))[1]);
  }
}
