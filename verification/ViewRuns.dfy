/** The view beside the database: any number of projections and rebuilds run while streams
    grow, each statement seeing what is committed when it runs. A projection loads, then
    upserts and commits. A rebuild lists the streams, clears the view, and loads and upserts
    each listed seat; what it deleted or wrote stays locked, and unseen, until it commits. */
module ViewRuns {
  import opened Base
  import opened Seat
  import opened EventStore
  import opened Engine
  import opened Runs
  import opened Projection
  import Invariants
  import Postgres

  datatype Loading = Loading(seat: string, folded: SeatState)

  datatype Job =
    | Projecting(load: Loading)
    | Rebuilding(listed: set<string>, left: set<string>, cleared: bool,
                 gone: set<string>,     // seats whose rows it deleted
                 mine: View,            // rows it wrote
                 locked: set<string>,   // seats whose rows it touched
                 pending: Option<Loading>)

  datatype Site = Site(
    db: State,
    view: View,
    jobs: map<nat, Job>,
    base: View,          // history: the view when the last rebuild committed
    done: seq<Call>)     // history: the projections committed since

  datatype Move =
    | Database(action: Action)
    | Project(job: nat, seat: string)
    | Write(job: nat)
    | List(job: nat)
    | Clear(job: nat)
    | Refold(job: nat, seat: string)
    | Rewrite(job: nat)
    | Finish(job: nat)
    | Stop(job: nat)

  function Start(now: Instant): Site { Site(Init(now), map[], map[], map[], []) }

  function StreamsIn(s: Site): Streams { s.db.store.streams }

  predicate LockedBy(s: Site, j: nat, seat: string) {
    j in s.jobs && s.jobs[j].Rebuilding? && seat in s.jobs[j].locked
  }

  predicate LockedByOthers(s: Site, me: nat, seat: string) {
    exists j | j in s.jobs && j != me :: LockedBy(s, j, seat)
  }

  /** Loads and folds a seat from what is committed now. */
  function LoadNow(db: State, seat: string): Option<Loading> {
    match Fold(Bodies(Loaded(db.store.events, seat)))
    case Err(_) => None
    case Ok(s) => Some(Loading(seat, s))
  }

  /** The view as a rebuild's own transaction sees it. */
  function Own(view: View, r: Job): View
    requires r.Rebuilding?
  {
    (view - r.gone) + r.mine
  }

  predicate CanProject(s: Site, j: nat, seat: string) { j !in s.jobs && LoadNow(s.db, seat).Some? }

  predicate CanWrite(s: Site, j: nat) {
    j in s.jobs && s.jobs[j].Projecting? && !LockedByOthers(s, j, s.jobs[j].load.seat)
  }

  predicate CanClear(s: Site, j: nat) {
    && j in s.jobs && s.jobs[j].Rebuilding? && !s.jobs[j].cleared
    && forall seat | seat in s.view :: !LockedByOthers(s, j, seat)
  }

  predicate CanRefold(s: Site, j: nat, seat: string) {
    && j in s.jobs && s.jobs[j].Rebuilding? && s.jobs[j].cleared && s.jobs[j].pending.None?
    && seat in s.jobs[j].left && LoadNow(s.db, seat).Some?
  }

  predicate CanRewrite(s: Site, j: nat) {
    && j in s.jobs && s.jobs[j].Rebuilding? && s.jobs[j].pending.Some?
    && !LockedByOthers(s, j, s.jobs[j].pending.value.seat)
  }

  predicate CanFinish(s: Site, j: nat) {
    && j in s.jobs && s.jobs[j].Rebuilding? && s.jobs[j].cleared
    && s.jobs[j].left == {} && s.jobs[j].pending.None?
  }

  function DoWrite(s: Site, j: nat): Site
    requires CanWrite(s, j)
  {
    var load := s.jobs[j].load;
    s.(view := Projection.Write(s.view, load.seat, load.folded), jobs := s.jobs - {j},
       done := s.done + [Call(load.seat, load.folded.version)])
  }

  /** DELETE takes every row it can see. */
  function Cleared(s: Site, r: Job): Job
    requires r.Rebuilding?
  {
    r.(cleared := true, gone := s.view.Keys, locked := s.view.Keys)
  }

  function Refolded(s: Site, r: Job, seat: string): Job
    requires r.Rebuilding?
  {
    r.(left := r.left - {seat}, pending := LoadNow(s.db, seat))
  }

  /** The guarded upsert inside the rebuild's transaction. */
  function Rewritten(s: Site, r: Job): Job
    requires r.Rebuilding? && r.pending.Some?
  {
    var load := r.pending.value;
    if load.folded.version == 0 then r.(pending := None)
    else
      r.(pending := None, locked := r.locked + {load.seat},
         mine := if load.folded.version <= VersionIn(Own(s.view, r), load.seat) then r.mine
                 else r.mine[load.seat := RowOf(load.folded)])
  }

  function CommitRebuild(s: Site, j: nat): Site
    requires CanFinish(s, j)
  {
    var after := Own(s.view, s.jobs[j]);
    s.(view := after, jobs := s.jobs - {j}, base := after, done := [])
  }

  function Apply(s: Site, m: Move): Site {
    match m
    case Database(a) => s.(db := Step(s.db, a))
    case Project(j, seat) =>
      if CanProject(s, j, seat) then s.(jobs := s.jobs[j := Projecting(LoadNow(s.db, seat).value)]) else s
    case Write(j) => if CanWrite(s, j) then DoWrite(s, j) else s
    case List(j) =>
      if j in s.jobs then s
      else
        var ids := StreamIds(s.db.store.events);
        s.(jobs := s.jobs[j := Rebuilding(ids, ids, false, {}, map[], {}, None)])
    case Clear(j) => if CanClear(s, j) then s.(jobs := s.jobs[j := Cleared(s, s.jobs[j])]) else s
    case Refold(j, seat) =>
      if CanRefold(s, j, seat) then s.(jobs := s.jobs[j := Refolded(s, s.jobs[j], seat)]) else s
    case Rewrite(j) => if CanRewrite(s, j) then s.(jobs := s.jobs[j := Rewritten(s, s.jobs[j])]) else s
    case Finish(j) => if CanFinish(s, j) then CommitRebuild(s, j) else s
    case Stop(j) => s.(jobs := s.jobs - {j})
  }

  function After(s: Site, moves: seq<Move>): Site {
    if moves == [] then s else Apply(After(s, moves[..|moves| - 1]), moves[|moves| - 1])
  }

  // ---- what every reachable site keeps ----

  ghost predicate LoadTrue(streams: Streams, load: Loading) {
    load.folded.version <= Length(streams, load.seat)
    && load.folded == SeatAt(streams, load.seat, load.folded.version)
  }

  ghost predicate PendingTrue(streams: Streams, view: View, r: Job)
    requires r.Rebuilding?
  {
    r.pending.Some? ==>
      var load := r.pending.value;
      && LoadTrue(streams, load) && load.seat in r.listed && load.folded.version > 0
      && (load.seat in r.gone ==> VersionIn(view, load.seat) <= load.folded.version)
  }

  /** What a rebuild wrote is true and at least as new as what it will replace, and every
      listed seat it is done with has a row again. */
  ghost predicate RebuildTrue(streams: Streams, view: View, r: Job)
    requires r.Rebuilding?
  {
    && PendingTrue(streams, view, r) && ViewTrue(streams, r.mine)
    && r.gone <= r.locked && r.mine.Keys <= r.locked && r.mine.Keys <= r.listed && r.left <= r.listed
    && r.gone <= view.Keys
    && (forall seat | seat in r.mine :: VersionIn(view, seat) <= r.mine[seat].version)
    && (forall seat | seat in r.listed :: Length(streams, seat) > 0)
    && (forall seat | seat in r.listed && seat in r.gone && seat !in r.mine ::
          seat in r.left || (r.pending.Some? && r.pending.value.seat == seat))
    && (!r.cleared ==> r.locked == {} && r.pending.None? && r.left == r.listed)
  }

  ghost predicate JobTrue(streams: Streams, view: View, job: Job) {
    match job
    case Projecting(load) => LoadTrue(streams, load)
    case Rebuilding(_, _, _, _, _, _, _) => RebuildTrue(streams, view, job)
  }

  ghost predicate JobsTrue(s: Site) {
    && (forall j | j in s.jobs :: JobTrue(StreamsIn(s), s.view, s.jobs[j]))
    && (forall j, k, seat | LockedBy(s, j, seat) && LockedBy(s, k, seat) :: j == k)
  }

  ghost predicate ViewsTrue(s: Site) {
    && ViewTrue(StreamsIn(s), s.view) && ViewTrue(StreamsIn(s), s.base)
    && CallsTrue(StreamsIn(s), s.done) && ShowsHighest(s.view, s.base, s.done)
  }

  ghost predicate SiteOk(s: Site) { Reachable(s.db) && ViewsTrue(s) && JobsTrue(s) }

  /** Some run of the database, its projections and its rebuilds leads here. */
  ghost predicate ReachableSite(s: Site) {
    exists now, moves :: s == After(Start(now), moves)
  }

  // ---- the view is never wrong, only old ----

  /** In every reachable site each row is the fold of exactly the first version events of its
      stream, and reading it gives the seat as it then was. */
  lemma RowsAreNeverInvented(s: Site, seat: string)
    requires ReachableSite(s) && seat in s.view
    ensures RowTrue(StreamsIn(s), seat, s.view[seat])
    ensures var was := SeatAt(StreamsIn(s), seat, s.view[seat].version);
      LoadAvailability(s.view, seat) ==
      Ok(Some(Availability(seat, was.status, was.holdId, was.bookingId, was.expiresAt, was.version)))
  {
    ReachableSiteOk(s);
    SiteStreamsAlternate(s);
    SeatAtVersion(StreamsIn(s), seat, s.view[seat].version);
    RowReadsBack(s.view, seat, SeatAt(StreamsIn(s), seat, s.view[seat].version));
    assert s.view[seat := s.view[seat]] == s.view;
  }

  /** What a stored row says, column by column. After an event that ends a hold the seat is
      free, with no hold, no booking and no deadline; after a SeatHeld it is held, by that hold,
      for that booking, until its deadline, which is NULL only for the zero instant of year 1. A
      missing deadline reads as the epoch. */
  lemma RowsShowTheirLastEvent(s: Site, seat: string)
    requires ReachableSite(s) && seat in s.view
    ensures var row, stream := s.view[seat], StreamOf(StreamsIn(s), seat);
      && 1 <= row.version <= |stream|
      && var last := stream[row.version - 1].body;
      && (last.SeatHeld? || last.SeatHoldReleased? || last.SeatHoldExpired?)
      && (!last.SeatHeld? ==> row == Row("free", "", "", None, row.version))
      && (last.SeatHeld? ==>
            var due := if last.expiresAt.Some? then last.expiresAt.value else 0;
            row == Row("held", last.holdId, last.bookingId,
                       if due == -62135596800000000000 then None else Some(due), row.version))
  {
    ReachableSiteOk(s);
    SiteStreamsAlternate(s);
    var stream, n := StreamOf(StreamsIn(s), seat), s.view[seat].version;
    SeatAtVersion(StreamsIn(s), seat, n);
    FoldMeaning(Bodies(stream[..n]));
    assert Bodies(stream[..n])[n - 1] == stream[n - 1].body;
    assert LegalAt(Bodies(stream), n - 1);
  }

  /** No projection and no rebuild ever takes a row back to an older version. The one way a
      row goes away is a rebuild that deleted it without having listed its stream. */
  lemma VersionsNeverFall(s: Site, m: Move, seat: string)
    requires ReachableSite(s) && seat in s.view
    ensures if m.Finish? && CanFinish(s, m.job) && seat in s.jobs[m.job].gone && seat !in s.jobs[m.job].listed
            then seat !in Apply(s, m).view
            else seat in Apply(s, m).view && s.view[seat].version <= Apply(s, m).view[seat].version
  {
    if m.Finish? && CanFinish(s, m.job) {
      ReachableRebuild(s, m.job);
      FinishedRow(StreamsIn(s), s.view, s.jobs[m.job], seat);
    }
  }

  /** What a rebuild deleted comes back exactly when its stream had been listed. */
  lemma RebuildRestoresWhatItListed(s: Site, j: nat)
    requires ReachableSite(s) && CanFinish(s, j)
    ensures forall seat | seat in s.jobs[j].gone ::
      seat in CommitRebuild(s, j).view <==> seat in s.jobs[j].listed
  {
    ReachableRebuild(s, j);
  }

  /** Whatever ran since the last rebuild, in whatever order, the view is the rebuilt view
      exactly when every stream was read in full by one of the projections that committed. */
  lemma ViewConverges(s: Site)
    requires ReachableSite(s)
    ensures CoversAll(StreamsIn(s), s.base, s.done) <==> s.view == Rebuilt(StreamsIn(s))
  {
    ReachableSiteOk(s);
    SiteStreamsAlternate(s);
    CoveredIsRebuilt(StreamsIn(s), s.view, s.base, s.done);
  }

  // ---- every move keeps the site in order ----

  lemma StartOk(now: Instant)
    ensures SiteOk(Start(now))
  {
    assert Run(Init(now), []) == Init(now);
  }

  // ---- streams grow ----

  ghost predicate StreamsGrow(a: Streams, b: Streams) {
    forall seat :: StreamOf(a, seat) <= StreamOf(b, seat)
  }

  lemma StepGrowsStreams(c: State, a: Action)
    requires Reachable(c)
    ensures StreamsGrow(c.store.streams, Step(c, a).store.streams)
  {
    Postgres.StepGrows(c, a);
  }

  lemma LoadStaysTrue(a: Streams, b: Streams, load: Loading)
    requires LoadTrue(a, load) && StreamsGrow(a, b)
    ensures LoadTrue(b, load)
  {
    assert StreamOf(b, load.seat)[..load.folded.version] == StreamOf(a, load.seat)[..load.folded.version];
  }

  lemma ViewStaysTrue(a: Streams, b: Streams, view: View)
    requires ViewTrue(a, view) && StreamsGrow(a, b)
    ensures ViewTrue(b, view)
  {
    forall seat | seat in view ensures RowTrue(b, seat, view[seat]) {
      RowStaysTrue(a, b, seat, view[seat]);
    }
  }

  lemma JobStaysTrue(a: Streams, b: Streams, view: View, job: Job)
    requires JobTrue(a, view, job) && StreamsGrow(a, b)
    ensures JobTrue(b, view, job)
  {
    match job
    case Projecting(load) => LoadStaysTrue(a, b, load);
    case Rebuilding(_, _, _, _, mine, _, pending) =>
      ViewStaysTrue(a, b, mine);
      if pending.Some? { LoadStaysTrue(a, b, pending.value); }
      forall seat | seat in job.listed ensures Length(b, seat) > 0 {
        assert StreamOf(a, seat) <= StreamOf(b, seat);
      }
  }

  lemma DatabaseKeepsSite(s: Site, a: Action)
    requires SiteOk(s)
    ensures SiteOk(Apply(s, Database(a)))
  {
    var s' := Apply(s, Database(a));
    StepIsReachable(s.db, a);
    StepGrowsStreams(s.db, a);
    ViewStaysTrue(StreamsIn(s), StreamsIn(s'), s.view);
    ViewStaysTrue(StreamsIn(s), StreamsIn(s'), s.base);
    forall j | j in s'.jobs ensures JobTrue(StreamsIn(s'), s'.view, s'.jobs[j]) {
      JobStaysTrue(StreamsIn(s), StreamsIn(s'), s.view, s.jobs[j]);
    }
    forall c | c in s.done ensures c.version <= Length(StreamsIn(s'), c.seat) {
      assert StreamOf(StreamsIn(s), c.seat) <= StreamOf(StreamsIn(s'), c.seat);
    }
    forall j, k, seat | LockedBy(s', j, seat) && LockedBy(s', k, seat) ensures j == k {
      assert LockedBy(s, j, seat) && LockedBy(s, k, seat);
    }
  }

  // ---- one job moves ----

  lemma LoadIsTrue(db: State, seat: string)
    requires Reachable(db)
    ensures LoadNow(db, seat).Some? && LoadTrue(db.store.streams, LoadNow(db, seat).value)
    ensures LoadNow(db, seat).value.seat == seat
    ensures LoadNow(db, seat).value.folded.version == Length(db.store.streams, seat)
  {
    ReachableStreams(db);
    LoadFolds(db, seat);
    var whole := StreamOf(db.store.streams, seat);
    assert whole[..|whole|] == whole;
  }

  /** The other jobs do not mind a job that changes without touching what they locked. */
  lemma JobMoves(s: Site, s': Site, j: nat)
    requires SiteOk(s) && s' == s.(jobs := s'.jobs) && j in s'.jobs && s'.jobs == s.jobs[j := s'.jobs[j]]
    requires JobTrue(StreamsIn(s), s.view, s'.jobs[j])
    requires s'.jobs[j].Rebuilding? ==> forall seat | seat in s'.jobs[j].locked :: !LockedByOthers(s, j, seat)
    ensures SiteOk(s')
  {
    forall k, l, seat | LockedBy(s', k, seat) && LockedBy(s', l, seat) ensures k == l {
      assert k != j ==> LockedBy(s, k, seat);
      assert l != j ==> LockedBy(s, l, seat);
    }
  }

  lemma ListedHaveStreams(db: State, seat: string)
    requires Reachable(db)
    ensures seat in StreamIds(db.store.events) <==> Length(db.store.streams, seat) > 0
  {
    ReachableStreams(db);
    assert Length(db.store.streams, seat) > 0 ==> Key(seat, 1) in db.store.events;
  }

  lemma ListKeepsSite(s: Site, j: nat)
    requires SiteOk(s) && j !in s.jobs
    ensures SiteOk(Apply(s, List(j)))
  {
    forall seat | seat in StreamIds(s.db.store.events) ensures Length(StreamsIn(s), seat) > 0 {
      ListedHaveStreams(s.db, seat);
    }
    JobMoves(s, Apply(s, List(j)), j);
  }

  lemma ClearedTrue(s: Site, r: Job)
    requires r.Rebuilding? && RebuildTrue(StreamsIn(s), s.view, r) && !r.cleared
    ensures RebuildTrue(StreamsIn(s), s.view, Cleared(s, r))
  {
    assert r.mine.Keys == {};
  }

  lemma ClearKeepsSite(s: Site, j: nat)
    requires SiteOk(s) && CanClear(s, j)
    ensures SiteOk(Apply(s, Clear(j)))
  {
    assert JobTrue(StreamsIn(s), s.view, s.jobs[j]);
    ClearedTrue(s, s.jobs[j]);
    JobMoves(s, Apply(s, Clear(j)), j);
  }

  lemma RefoldedTrue(s: Site, r: Job, seat: string)
    requires r.Rebuilding? && RebuildTrue(StreamsIn(s), s.view, r) && seat in r.left && r.pending.None?
    requires r.cleared && Reachable(s.db) && ViewTrue(StreamsIn(s), s.view)
    ensures RebuildTrue(StreamsIn(s), s.view, Refolded(s, r, seat))
  {
    LoadIsTrue(s.db, seat);
  }

  lemma RefoldKeepsSite(s: Site, j: nat, seat: string)
    requires SiteOk(s) && CanRefold(s, j, seat)
    ensures SiteOk(Apply(s, Refold(j, seat)))
  {
    assert JobTrue(StreamsIn(s), s.view, s.jobs[j]);
    RefoldedTrue(s, s.jobs[j], seat);
    LocksAreOwn(s, j);
    JobMoves(s, Apply(s, Refold(j, seat)), j);
  }

  lemma LocksAreOwn(s: Site, j: nat)
    requires JobsTrue(s) && j in s.jobs && s.jobs[j].Rebuilding?
    ensures forall seat | seat in s.jobs[j].locked :: !LockedByOthers(s, j, seat)
  {
    forall seat, k | seat in s.jobs[j].locked && LockedBy(s, k, seat) ensures k == j {
      assert LockedBy(s, j, seat);
    }
  }

  lemma RewrittenTrue(s: Site, r: Job)
    requires r.Rebuilding? && RebuildTrue(StreamsIn(s), s.view, r) && r.pending.Some?
    ensures RebuildTrue(StreamsIn(s), s.view, Rewritten(s, r))
  {
    var r', load := Rewritten(s, r), r.pending.value;
    forall seat | seat in r'.mine
      ensures RowTrue(StreamsIn(s), seat, r'.mine[seat]) && VersionIn(s.view, seat) <= r'.mine[seat].version
    {
      if seat != load.seat { assert seat in r.mine && r'.mine[seat] == r.mine[seat]; }
    }
    assert r'.gone == r.gone && r'.left == r.left && r'.listed == r.listed && r'.pending.None?;
  }

  lemma RewriteKeepsSite(s: Site, j: nat)
    requires SiteOk(s) && CanRewrite(s, j)
    ensures SiteOk(Apply(s, Rewrite(j)))
  {
    assert JobTrue(StreamsIn(s), s.view, s.jobs[j]);
    RewrittenTrue(s, s.jobs[j]);
    LocksAreOwn(s, j);
    JobMoves(s, Apply(s, Rewrite(j)), j);
  }

  // ---- a job ends ----

  /** A job ends, changing only rows that no other job has locked. */
  lemma JobEnds(s: Site, s': Site, j: nat)
    requires SiteOk(s) && s'.db == s.db && s'.jobs == s.jobs - {j} && ViewsTrue(s')
    requires forall k, seat | k != j && LockedBy(s, k, seat) ::
      (seat in s.view <==> seat in s'.view) && VersionIn(s'.view, seat) == VersionIn(s.view, seat)
    ensures SiteOk(s')
  {
    forall k | k in s'.jobs ensures JobTrue(StreamsIn(s'), s'.view, s'.jobs[k]) {
      assert JobTrue(StreamsIn(s), s.view, s.jobs[k]);
      assert s.jobs[k].Rebuilding? ==> forall seat | seat in s.jobs[k].locked :: LockedBy(s, k, seat);
    }
    forall k, l, seat | LockedBy(s', k, seat) && LockedBy(s', l, seat) ensures k == l {
      assert LockedBy(s, k, seat) && LockedBy(s, l, seat);
    }
  }

  lemma WriteKeepsSite(s: Site, j: nat)
    requires SiteOk(s) && CanWrite(s, j)
    ensures SiteOk(DoWrite(s, j))
  {
    var load := s.jobs[j].load;
    assert JobTrue(StreamsIn(s), s.view, s.jobs[j]);
    WriteKeepsTruth(StreamsIn(s), s.view, load.seat, load.folded);
    WriteShowsHighest(s.view, s.base, s.done, Call(load.seat, load.folded.version), load.folded);
    JobEnds(s, DoWrite(s, j), j);
  }

  lemma FinishKeepsSite(s: Site, j: nat)
    requires SiteOk(s) && CanFinish(s, j)
    ensures SiteOk(CommitRebuild(s, j))
  {
    assert JobTrue(StreamsIn(s), s.view, s.jobs[j]);
    LocksAreOwn(s, j);
    JobEnds(s, CommitRebuild(s, j), j);
  }

  lemma MoveKeepsSite(s: Site, m: Move)
    requires SiteOk(s)
    ensures SiteOk(Apply(s, m))
  {
    match m
    case Database(a) => DatabaseKeepsSite(s, a);
    case Project(j, seat) =>
      LoadIsTrue(s.db, seat);
      if j !in s.jobs { JobMoves(s, Apply(s, m), j); }
    case Write(j) => if CanWrite(s, j) { WriteKeepsSite(s, j); }
    case List(j) => if j !in s.jobs { ListKeepsSite(s, j); }
    case Clear(j) => if CanClear(s, j) { ClearKeepsSite(s, j); }
    case Refold(j, seat) => if CanRefold(s, j, seat) { RefoldKeepsSite(s, j, seat); }
    case Rewrite(j) => if CanRewrite(s, j) { RewriteKeepsSite(s, j); }
    case Finish(j) => if CanFinish(s, j) { FinishKeepsSite(s, j); }
    case Stop(j) => JobEnds(s, Apply(s, m), j);
  }

  lemma {:induction false} AfterKeepsSite(s: Site, moves: seq<Move>)
    requires SiteOk(s)
    ensures SiteOk(After(s, moves))
  {
    if moves != [] {
      AfterKeepsSite(s, moves[..|moves| - 1]);
      MoveKeepsSite(After(s, moves[..|moves| - 1]), moves[|moves| - 1]);
    }
  }

  lemma ReachableSiteOk(s: Site)
    requires ReachableSite(s)
    ensures SiteOk(s)
  {
    var now, moves :| s == After(Start(now), moves);
    StartOk(now);
    AfterKeepsSite(Start(now), moves);
  }

  lemma MoveIsReachable(s: Site, m: Move)
    requires ReachableSite(s)
    ensures ReachableSite(Apply(s, m))
  {
    var now, moves :| s == After(Start(now), moves);
    assert (moves + [m])[..|moves|] == moves;
    assert Apply(s, m) == After(Start(now), moves + [m]);
  }

  lemma SiteStreamsAlternate(s: Site)
    requires Reachable(s.db)
    ensures Alternating(StreamsIn(s))
  {
    ReachableStreams(s.db);
  }

  lemma ReachableRebuild(s: Site, j: nat)
    requires ReachableSite(s) && j in s.jobs && s.jobs[j].Rebuilding?
    ensures RebuildTrue(StreamsIn(s), s.view, s.jobs[j])
  {
    ReachableSiteOk(s);
    assert JobTrue(StreamsIn(s), s.view, s.jobs[j]);
  }

  lemma FinishedRow(streams: Streams, view: View, r: Job, seat: string)
    requires r.Rebuilding? && RebuildTrue(streams, view, r) && r.left == {} && r.pending.None?
    requires seat in view
    ensures if seat in r.gone && seat !in r.listed then seat !in Own(view, r)
            else seat in Own(view, r) && view[seat].version <= Own(view, r)[seat].version
  {
  }
}
