/** From an event to the browsing view, end to end: the outbox pollers put event rows in the
    log, each log record is a notification that some projection serves, and rebuilds may run in
    between. Pollers, projections and commands share one database. */
module Browsing {
  import opened Base
  import opened Seat
  import opened EventStore
  import opened Engine
  import opened Invariants
  import opened Runs
  import Relay
  import opened Projection
  import ViewRuns

  datatype Service = Service(
    world: Relay.World,          // the database, the pollers and the log
    site: ViewRuns.Site,         // the same database, the view, projections and rebuilds
    serving: map<nat, nat>,      // history: which notification a projection serves
    handled: set<nat>)           // history: notifications served since the last rebuild

  datatype Move =
    | Database(action: Action)
    | Pollers(poll: Relay.Move)
    | Views(view: ViewRuns.Move)
    | Notify(job: nat, index: nat)   // a projection for the log record at index loads its seat

  function Start(now: Instant): Service { Service(Relay.Start(now), ViewRuns.Start(now), map[], {}) }

  predicate CanNotify(s: Service, j: nat, k: nat) {
    k < |s.world.log| && ViewRuns.CanProject(s.site, j, s.world.log[k].message.envelope.subject)
  }

  /** A view move; a projection that commits has served its notification, and a rebuild that
      commits starts the count again. */
  function Viewed(s: Service, m: ViewRuns.Move): Service
    requires !m.Database?
  {
    var site := ViewRuns.Apply(s.site, m);
    var serving := map j | j in s.serving && j in site.jobs :: s.serving[j];
    match m
    case Write(j) =>
      Service(s.world, site, serving,
              if ViewRuns.CanWrite(s.site, j) && j in s.serving then s.handled + {s.serving[j]} else s.handled)
    case Finish(j) => Service(s.world, site, serving, if ViewRuns.CanFinish(s.site, j) then {} else s.handled)
    case _ => Service(s.world, site, serving, s.handled)
  }

  function Apply(s: Service, m: Move): Service {
    match m
    case Database(a) =>
      s.(world := Relay.Apply(s.world, Relay.Database(a)), site := ViewRuns.Apply(s.site, ViewRuns.Database(a)))
    case Pollers(p) => if p.Database? then s else s.(world := Relay.Apply(s.world, p))
    case Views(v) => if v.Database? then s else Viewed(s, v)
    case Notify(j, k) =>
      if CanNotify(s, j, k) then
        s.(site := ViewRuns.Apply(s.site, ViewRuns.Project(j, s.world.log[k].message.envelope.subject)),
           serving := s.serving[j := k])
      else s
  }

  function After(s: Service, moves: seq<Move>): Service {
    if moves == [] then s else Apply(After(s, moves[..|moves| - 1]), moves[|moves| - 1])
  }

  // ---- what holds ----

  ghost predicate Tells(s: Service, k: nat, r: Ref) {
    k < |s.world.log| && r in s.world.db.store.mail.rowOf && s.world.db.store.mail.rowOf[r] == s.world.log[k].row
  }

  /** The load of a serving projection saw the event its notification tells of. */
  ghost predicate ServingOk(s: Service) {
    forall j | j in s.serving ::
      && j in s.site.jobs && s.site.jobs[j].Projecting? && s.serving[j] < |s.world.log|
      && (forall r | Tells(s, s.serving[j], r) ::
            r.seat == s.site.jobs[j].load.seat && r.version <= s.site.jobs[j].load.folded.version)
  }

  /** The view shows every event a handled notification told of. */
  ghost predicate HandledOk(s: Service) {
    forall k | k in s.handled ::
      k < |s.world.log| && forall r | Tells(s, k, r) :: r.version <= VersionIn(s.site.view, r.seat)
  }

  ghost predicate ServiceOk(s: Service) {
    && Relay.ReachableWorld(s.world) && ViewRuns.ReachableSite(s.site) && s.world.db == s.site.db
    && ServingOk(s) && HandledOk(s)
  }

  lemma StartOk(now: Instant)
    ensures ServiceOk(Start(now))
  {
    assert Relay.Start(now) == Relay.After(Relay.Start(now), []);
    assert ViewRuns.Start(now) == ViewRuns.After(ViewRuns.Start(now), []);
  }

  /** What a log record tells of never changes. */
  lemma ToldStays(s: Service, s': Service, m: Relay.Move, k: nat, r: Ref)
    requires Relay.ReachableWorld(s.world) && s'.world == Relay.Apply(s.world, m)
    requires k < |s.world.log| && Tells(s', k, r)
    ensures Tells(s, k, r)
  {
    Relay.ReachableWorldOk(s.world);
    if m.Database? { Relay.StepKeepsMail(s.world.db, m.action); }
    assert s.world.log[k].row in Relay.Rows(s.world);
  }

  lemma LogOnlyGrows(w: Relay.World, m: Relay.Move)
    ensures w.log <= Relay.Apply(w, m).log
  {
  }

  lemma WorldMoveKeepsService(s: Service, s': Service, m: Relay.Move)
    requires ServiceOk(s) && s'.world == Relay.Apply(s.world, m)
    requires ViewRuns.ReachableSite(s'.site) && s'.world.db == s'.site.db
    requires s'.site.jobs == s.site.jobs && s'.site.view == s.site.view
    requires s'.serving == s.serving && s'.handled == s.handled
    ensures ServiceOk(s')
  {
    Relay.MoveIsReachable(s.world, m);
    LogOnlyGrows(s.world, m);
    forall j | j in s'.serving
      ensures && s'.serving[j] < |s'.world.log|
              && (forall r | Tells(s', s'.serving[j], r) ::
                    r.seat == s'.site.jobs[j].load.seat && r.version <= s'.site.jobs[j].load.folded.version)
    {
      forall r | Tells(s', s'.serving[j], r) ensures Tells(s, s.serving[j], r) {
        ToldStays(s, s', m, s.serving[j], r);
      }
    }
    forall k | k in s'.handled
      ensures k < |s'.world.log| && forall r | Tells(s', k, r) :: r.version <= VersionIn(s'.site.view, r.seat)
    {
      forall r | Tells(s', k, r) ensures Tells(s, k, r) { ToldStays(s, s', m, k, r); }
    }
  }

  lemma DatabaseKeepsService(s: Service, a: Action)
    requires ServiceOk(s)
    ensures ServiceOk(Apply(s, Database(a)))
  {
    ViewRuns.MoveIsReachable(s.site, ViewRuns.Database(a));
    WorldMoveKeepsService(s, Apply(s, Database(a)), Relay.Database(a));
  }

  /** An event in the log was committed before its notification: a load made now sees it. */
  lemma NoticedInTime(s: Service, k: nat, r: Ref)
    requires ServiceOk(s) && Tells(s, k, r)
    ensures r.seat == s.world.log[k].message.envelope.subject && r.version <= Length(s.site.db.store.streams, r.seat)
  {
    Relay.ReachableWorldOk(s.world);
    ReachableMail(s.world.db);
    assert RowOk(s.world.db.store.streams, s.world.db.store.mail, r);
  }

  lemma NotifyKeepsService(s: Service, j: nat, k: nat)
    requires ServiceOk(s) && CanNotify(s, j, k)
    ensures ServiceOk(Apply(s, Notify(j, k)))
  {
    var s', seat := Apply(s, Notify(j, k)), s.world.log[k].message.envelope.subject;
    ViewRuns.MoveIsReachable(s.site, ViewRuns.Project(j, seat));
    ViewRuns.ReachableSiteOk(s.site);
    ViewRuns.LoadIsTrue(s.site.db, seat);
    forall i, r | i in s'.serving && Tells(s', s'.serving[i], r)
      ensures r.seat == s'.site.jobs[i].load.seat && r.version <= s'.site.jobs[i].load.folded.version
    {
      assert Tells(s, s'.serving[i], r);
      if i == j { NoticedInTime(s, k, r); }
    }
    forall i, r | i in s'.handled && Tells(s', i, r) ensures r.version <= VersionIn(s'.site.view, r.seat) {
      assert Tells(s, i, r);
    }
  }

  /** Unless a rebuild commits, no version in the view falls. */
  lemma VersionStays(site: ViewRuns.Site, m: ViewRuns.Move, seat: string)
    requires ViewRuns.ReachableSite(site) && !(m.Finish? && ViewRuns.CanFinish(site, m.job))
    ensures VersionIn(site.view, seat) <= VersionIn(ViewRuns.Apply(site, m).view, seat)
  {
    if seat in site.view { ViewRuns.VersionsNeverFall(site, m, seat); }
  }

  /** A projection's commit shows what it loaded. */
  lemma WriteShows(site: ViewRuns.Site, j: nat)
    requires ViewRuns.CanWrite(site, j)
    ensures site.jobs[j].load.folded.version <=
            VersionIn(ViewRuns.DoWrite(site, j).view, site.jobs[j].load.seat)
  {
  }

  lemma JobsStay(site: ViewRuns.Site, m: ViewRuns.Move, j: nat)
    requires !m.Database? && j in site.jobs && site.jobs[j].Projecting? && j in ViewRuns.Apply(site, m).jobs
    ensures ViewRuns.Apply(site, m).jobs[j] == site.jobs[j]
  {
  }

  lemma ViewKeepsHandled(s: Service, m: ViewRuns.Move)
    requires ServiceOk(s) && !m.Database?
    ensures HandledOk(Viewed(s, m))
  {
    var s' := Viewed(s, m);
    forall k | k in s'.handled
      ensures k < |s'.world.log| && forall r | Tells(s', k, r) :: r.version <= VersionIn(s'.site.view, r.seat)
    {
      forall r | Tells(s', k, r) ensures r.version <= VersionIn(s'.site.view, r.seat) {
        assert Tells(s, k, r);
        if k in s.handled {
          VersionStays(s.site, m, r.seat);
        } else {
          WriteShows(s.site, m.job);
        }
      }
    }
  }

  lemma ViewKeepsService(s: Service, m: ViewRuns.Move)
    requires ServiceOk(s) && !m.Database?
    ensures ServiceOk(Viewed(s, m))
  {
    var s' := Viewed(s, m);
    ViewRuns.MoveIsReachable(s.site, m);
    ViewKeepsHandled(s, m);
    forall j | j in s'.serving
      ensures && s'.site.jobs[j] == s.site.jobs[j]
              && (forall r | Tells(s', s'.serving[j], r) :: Tells(s, s.serving[j], r))
    {
      JobsStay(s.site, m, j);
    }
  }

  lemma MoveKeepsService(s: Service, m: Move)
    requires ServiceOk(s)
    ensures ServiceOk(Apply(s, m))
  {
    match m
    case Database(a) => DatabaseKeepsService(s, a);
    case Pollers(p) => if !p.Database? { WorldMoveKeepsService(s, Apply(s, m), p); }
    case Views(v) => if !v.Database? { ViewKeepsService(s, v); }
    case Notify(j, k) => if CanNotify(s, j, k) { NotifyKeepsService(s, j, k); }
  }

  lemma {:induction false} AfterKeepsService(s: Service, moves: seq<Move>)
    requires ServiceOk(s)
    ensures ServiceOk(After(s, moves))
  {
    if moves != [] {
      AfterKeepsService(s, moves[..|moves| - 1]);
      MoveKeepsService(After(s, moves[..|moves| - 1]), moves[|moves| - 1]);
    }
  }

  // ---- end to end ----

  /** Every event ever committed is in the log, and some record of it has been handled. */
  ghost predicate AllHandled(s: Service) {
    forall r | r in s.world.db.store.mail.rowOf :: exists k :: k in s.handled && Tells(s, k, r)
  }

  lemma HandledEventsShow(s: Service, seat: string)
    requires HandledOk(s) && AllHandled(s) && s.world.db == s.site.db
    requires RowsOk(s.site.db.store.streams, s.site.db.store.mail) && ViewTrue(s.site.db.store.streams, s.site.view)
    ensures VersionIn(s.site.view, seat) == Length(s.site.db.store.streams, seat)
  {
    var n := Length(s.site.db.store.streams, seat);
    if n > 0 {
      var last := Ref(seat, n);
      assert ValidRef(s.site.db.store.streams, last);
      var k :| k in s.handled && Tells(s, k, last);
    }
    if seat in s.site.view { assert RowTrue(s.site.db.store.streams, seat, s.site.view[seat]); }
  }

  /** In every run, with any number of pollers, projections and rebuilds, late, repeated and out
      of order: once every committed event is in the log and a projection of its notification
      has committed since the last rebuild, the view is exactly the fold of every stream. */
  lemma HandledViewIsRebuilt(now: Instant, moves: seq<Move>)
    ensures var s := After(Start(now), moves);
      AllHandled(s) ==> s.site.view == Rebuilt(s.site.db.store.streams)
  {
    StartOk(now);
    AfterKeepsService(Start(now), moves);
    var s := After(Start(now), moves);
    if AllHandled(s) {
      ViewRuns.ReachableSiteOk(s.site);
      ViewRuns.SiteStreamsAlternate(s.site);
      ReachableMail(s.world.db);
      RebuiltShowsAll(s.site.db.store.streams);
      forall seat ensures VersionIn(s.site.view, seat) == VersionIn(Rebuilt(s.site.db.store.streams), seat) {
        HandledEventsShow(s, seat);
      }
      VersionsDecide(s.site.db.store.streams, s.site.view, Rebuilt(s.site.db.store.streams));
    }
  }
}
