/** The projector's two operations as code, each a sequence of statements between which
    everybody else may move. */
module Projector {
  import opened Base
  import opened Seat
  import opened EventStore
  import opened Engine
  import opened Projection
  import opened ViewRuns
  import opened Envelopes
  import opened Handlers
  import Runs

  predicate By(m: Move, me: nat) { !m.Database? && m.job == me }

  /** What a job can count on while it is not moving: streams grow, its own record stays, and
      the rows it locked stay as they are. */
  ghost predicate Elsewhere(a: Site, b: Site, me: nat) {
    && StreamsGrow(StreamsIn(a), StreamsIn(b))
    && (me in a.jobs <==> me in b.jobs) && (me in a.jobs ==> b.jobs[me] == a.jobs[me])
    && (forall seat | LockedBy(a, me, seat) ::
          (seat in a.view <==> seat in b.view) && (seat in a.view ==> b.view[seat] == a.view[seat]))
  }

  lemma GrowTrans(a: Streams, b: Streams, c: Streams)
    requires StreamsGrow(a, b) && StreamsGrow(b, c)
    ensures StreamsGrow(a, c)
  {
    forall seat ensures StreamOf(a, seat) <= StreamOf(c, seat) {
      assert StreamOf(a, seat) <= StreamOf(b, seat);
    }
  }

  lemma ElsewhereTrans(a: Site, b: Site, c: Site, me: nat)
    requires Elsewhere(a, b, me) && Elsewhere(b, c, me)
    ensures Elsewhere(a, c, me)
  {
    GrowTrans(StreamsIn(a), StreamsIn(b), StreamsIn(c));
    assert forall seat | LockedBy(a, me, seat) :: LockedBy(b, me, seat);
  }

  lemma FinishIsElsewhere(s: Site, j: nat, me: nat)
    requires ReachableSite(s) && CanFinish(s, j) && j != me
    ensures Elsewhere(s, CommitRebuild(s, j), me)
  {
    ReachableRebuild(s, j);
    forall seat | LockedBy(s, me, seat) ensures seat !in s.jobs[j].locked {
      ReachableSiteOk(s);
      assert seat in s.jobs[j].locked ==> LockedBy(s, j, seat);
    }
  }

  lemma WriteIsElsewhere(s: Site, j: nat, me: nat)
    requires CanWrite(s, j) && j != me
    ensures Elsewhere(s, DoWrite(s, j), me)
  {
  }

  /** A job that changes itself changes nothing for me. */
  lemma OtherJobMoves(s: Site, s': Site, me: nat)
    requires s'.db == s.db && s'.view == s.view
    requires (me in s.jobs <==> me in s'.jobs) && (me in s.jobs ==> s'.jobs[me] == s.jobs[me])
    ensures Elsewhere(s, s', me)
  {
  }

  lemma MoveIsElsewhere(s: Site, m: Move, me: nat)
    requires ReachableSite(s) && !By(m, me)
    ensures Elsewhere(s, Apply(s, m), me)
  {
    match m
    case Database(a) =>
      ReachableSiteOk(s);
      StepGrowsStreams(s.db, a);
    case Write(j) => if CanWrite(s, j) { WriteIsElsewhere(s, j, me); }
    case Finish(j) => if CanFinish(s, j) { FinishIsElsewhere(s, j, me); }
    case _ => OtherJobMoves(s, Apply(s, m), me);
  }

  lemma LengthsGrow(a: Streams, b: Streams, seat: string)
    requires StreamsGrow(a, b)
    ensures Length(a, seat) <= Length(b, seat)
  {
    assert StreamOf(a, seat) <= StreamOf(b, seat);
  }

  // ---- how far a rebuild has come ----

  /** The rebuild's own view shows at least what the streams held when it began, for every
      listed seat it has done. */
  ghost predicate CaughtUp(start: Streams, view: View, r: Job)
    requires r.Rebuilding?
  {
    forall seat | seat in r.listed && seat !in r.left ::
      seat in r.locked && Length(start, seat) <= VersionIn(Own(view, r), seat)
  }

  lemma CaughtUpStays(start: Streams, a: Site, b: Site, me: nat)
    requires Elsewhere(a, b, me) && me in a.jobs && a.jobs[me].Rebuilding?
    requires CaughtUp(start, a.view, a.jobs[me])
    ensures CaughtUp(start, b.view, b.jobs[me])
  {
    var r := a.jobs[me];
    forall seat | seat in r.listed && seat !in r.left
      ensures VersionIn(Own(b.view, r), seat) == VersionIn(Own(a.view, r), seat)
    {
      assert LockedBy(a, me, seat);
    }
  }

  /** Loading and upserting one more seat. */
  lemma OneMoreCaughtUp(start: Streams, s: Site, r: Job)
    requires r.Rebuilding? && r.pending.Some? && r.pending.value.folded.version > 0
    requires Length(start, r.pending.value.seat) <= r.pending.value.folded.version
    requires forall seat | seat in r.listed && seat !in r.left && seat != r.pending.value.seat ::
      seat in r.locked && Length(start, seat) <= VersionIn(Own(s.view, r), seat)
    ensures CaughtUp(start, s.view, Rewritten(s, r))
  {
    var r' := Rewritten(s, r);
    assert VersionIn(Own(s.view, r'), r.pending.value.seat) >= r.pending.value.folded.version;
  }

  /** With nobody else around the rebuild has deleted everything and written exactly the full
      folds of the seats it has done. */
  ghost predicate AloneSoFar(start: Site, s: Site, me: nat) {
    && s.db == start.db && s.view == start.view && s.jobs.Keys == {me}
    && var r := s.jobs[me];
    && r.Rebuilding? && r.gone == start.view.Keys
    && (forall seat :: seat in r.mine <==> seat in r.listed && seat !in r.left)
    && (forall seat | seat in r.mine ::
          r.mine[seat] == RowOf(SeatAt(StreamsIn(start), seat, Length(StreamsIn(start), seat))))
  }

  /** A cleared rebuild with nothing loaded may load any seat it has left. */
  predicate Refillable(s: Site, me: nat, seat: string) {
    && me in s.jobs && s.jobs[me].Rebuilding? && s.jobs[me].cleared && s.jobs[me].pending.None?
    && seat in s.jobs[me].left
  }

  lemma NextAlone(start: Site, s: Site, me: nat, seat: string)
    requires ReachableSite(s) && AloneSoFar(start, s, me) && Refillable(s, me, seat)
    ensures LoadNow(s.db, seat).Some?
    ensures var r := Rewritten(s, Refolded(s, s.jobs[me], seat));
      AloneSoFar(start, s.(jobs := s.jobs[me := r]), me)
  {
    ReachableRebuild(s, me);
    ReachableSiteOk(s);
    LoadIsTrue(s.db, seat);
    OneMoreAlone(start, s, me, seat);
  }

  lemma OneMoreAlone(start: Site, s: Site, me: nat, seat: string)
    requires AloneSoFar(start, s, me) && seat in s.jobs[me].left
    requires s.jobs[me].left <= s.jobs[me].listed && Runs.Reachable(s.db) && Length(StreamsIn(s), seat) > 0
    requires LoadNow(s.db, seat).Some?
    ensures var r := Rewritten(s, Refolded(s, s.jobs[me], seat));
      AloneSoFar(start, s.(jobs := s.jobs[me := r]), me)
  {
    LoadIsTrue(s.db, seat);
    var r, r' := s.jobs[me], Rewritten(s, Refolded(s, s.jobs[me], seat));
    assert VersionIn(Own(s.view, r), seat) == 0;
    assert r'.mine == r.mine[seat := RowOf(LoadNow(s.db, seat).value.folded)];
  }

  lemma AloneAtTheEnd(start: Site, s: Site, me: nat)
    requires Runs.Reachable(s.db) && AloneSoFar(start, s, me) && s.jobs[me].left == {}
    requires s.jobs[me].listed == StreamIds(s.db.store.events)
    ensures Own(s.view, s.jobs[me]) == Rebuilt(StreamsIn(start))
  {
    forall seat ensures seat in s.jobs[me].listed <==> Length(StreamsIn(start), seat) > 0 {
      ListedHaveStreams(s.db, seat);
    }
  }

  lemma ListedHasStream(start: Site, s: Site, me: nat, seat: string)
    requires ReachableSite(s) && Refillable(s, me, seat) && StreamsGrow(StreamsIn(start), StreamsIn(s))
    ensures Length(StreamsIn(s), seat) > 0 && Length(StreamsIn(start), seat) <= Length(StreamsIn(s), seat)
  {
    ReachableRebuild(s, me);
    LengthsGrow(StreamsIn(start), StreamsIn(s), seat);
  }

  lemma RefillCatchesUp(start: Streams, a: Site, b: Site, c: Site, me: nat, load: Loading)
    requires me in a.jobs && a.jobs[me].Rebuilding? && CaughtUp(start, a.view, a.jobs[me])
    requires b == a.(jobs := a.jobs[me := a.jobs[me].(left := a.jobs[me].left - {load.seat}, pending := Some(load))])
    requires Elsewhere(b, c, me) && load.folded.version > 0 && Length(start, load.seat) <= load.folded.version
    ensures CaughtUp(start, c.view, Rewritten(c, c.jobs[me]))
  {
    CaughtUpExcept(start, a, b, c, me, load);
    OneMoreCaughtUp(start, c, c.jobs[me]);
  }

  lemma CaughtUpExcept(start: Streams, a: Site, b: Site, c: Site, me: nat, load: Loading)
    requires me in a.jobs && a.jobs[me].Rebuilding? && CaughtUp(start, a.view, a.jobs[me])
    requires b == a.(jobs := a.jobs[me := a.jobs[me].(left := a.jobs[me].left - {load.seat}, pending := Some(load))])
    requires Elsewhere(b, c, me)
    ensures forall seat | seat in c.jobs[me].listed && seat !in c.jobs[me].left && seat != load.seat ::
      seat in c.jobs[me].locked && Length(start, seat) <= VersionIn(Own(c.view, c.jobs[me]), seat)
  {
    var r := c.jobs[me];
    forall seat | seat in r.listed && seat !in r.left && seat != load.seat
      ensures VersionIn(Own(c.view, r), seat) == VersionIn(Own(a.view, r), seat)
    {
      assert LockedBy(b, me, seat);
    }
  }

  class Projector {
    var site: Site
    /** Nobody else is connected and nothing fails. */
    const quiet: bool

    constructor (site: Site, quiet: bool)
      requires ReachableSite(site)
      ensures Valid() && this.site == site && this.quiet == quiet
    {
      this.site, this.quiet := site, quiet;
    }

    ghost predicate Valid()
      reads this
    {
      ReachableSite(site)
    }

    method Interleave(me: nat)
      requires Valid()
      modifies this
      ensures Valid() && Elsewhere(old(site), site, me)
      ensures quiet ==> site == old(site)
    {
      if quiet { return; }
      var moves: seq<Move> := *;
      for i := 0 to |moves|
        invariant Valid() && Elsewhere(old(site), site, me)
      {
        if !By(moves[i], me) {
          MoveIsElsewhere(site, moves[i], me);
          MoveIsReachable(site, moves[i]);
          ElsewhereTrans(old(site), site, Apply(site, moves[i]), me);
          site := Apply(site, moves[i]);
        }
      }
    }

    /** Everybody else moves, and then the connection may turn out broken, which rolls the
        job back. */
    method BetweenStatements(me: nat) returns (ok: bool)
      requires Valid()
      modifies this
      ensures Valid() && StreamsGrow(StreamsIn(old(site)), StreamsIn(site))
      ensures ok ==> Elsewhere(old(site), site, me)
      ensures !ok ==> me !in site.jobs
      ensures quiet ==> ok && site == old(site)
    {
      Interleave(me);
      var broken := *;
      ok := quiet || !broken;
      if !ok { Rollback(me); }
    }

    method Rollback(me: nat)
      requires Valid()
      modifies this
      ensures Valid() && site == old(site).(jobs := old(site).jobs - {me})
    {
      MoveIsReachable(site, Stop(me));
      site := site.(jobs := site.jobs - {me});
    }

    /** Loads and folds a seat from what is committed now. */
    method LoadSeat(seat: string) returns (load: Loading)
      requires Valid()
      ensures LoadNow(site.db, seat) == Some(load) && load.seat == seat
      ensures LoadTrue(StreamsIn(site), load) && load.folded.version == Length(StreamsIn(site), seat)
    {
      ReachableSiteOk(site);
      LoadIsTrue(site.db, seat);
      var recs := EventStore.Read(site.db.store.events, seat);
      var folded := Replay(Bodies(recs));
      load := Loading(seat, folded.value);
    }

    /** Brings one seat's row up to date: once it succeeds the row shows at least everything
        its stream held when the call began, whatever else ran meanwhile. */
    method Project(me: nat, seat: string) returns (ok: bool)
      requires Valid() && me !in site.jobs
      modifies this
      ensures Valid() && me !in site.jobs && StreamsGrow(StreamsIn(old(site)), StreamsIn(site))
      ensures ok ==> Length(StreamsIn(old(site)), seat) <= VersionIn(site.view, seat)
      ensures quiet && old(site).jobs == map[] ==>
        && ok && site.db == old(site).db && site.jobs == map[]
        && site.view == Projection.Write(old(site).view, seat,
             SeatAt(StreamsIn(old(site)), seat, Length(StreamsIn(old(site)), seat)))
    {
      ghost var start := site;
      ok := BetweenStatements(me);
      if !ok { return; }
      var load := LoadSeat(seat);
      LengthsGrow(StreamsIn(start), StreamsIn(site), seat);
      MoveIsReachable(site, Move.Project(me, seat));
      site := site.(jobs := site.jobs[me := Projecting(load)]);

      ghost var loaded := site;
      ok := BetweenStatements(me);
      GrowTrans(StreamsIn(start), StreamsIn(loaded), StreamsIn(site));
      if !ok { return; }
      if LockedByOthers(site, me, seat) {
        Rollback(me);
        return false;
      }
      MoveIsReachable(site, Move.Write(me));
      site := DoWrite(site, me);
    }

    /** Clears the view in the rebuild's transaction; it waits for nobody. */
    method ClearView(me: nat) returns (ok: bool)
      requires Valid() && me in site.jobs && site.jobs[me].Rebuilding? && !site.jobs[me].cleared
      modifies this
      ensures Valid() && site.db == old(site).db && site.view == old(site).view
      ensures ok ==> site.jobs == old(site).jobs[me := Cleared(old(site), old(site).jobs[me])]
      ensures !ok ==> me !in site.jobs
      ensures old(site).jobs.Keys == {me} ==> ok
    {
      if exists seat | seat in site.view :: LockedByOthers(site, me, seat) {
        Rollback(me);
        return false;
      }
      MoveIsReachable(site, Clear(me));
      site := site.(jobs := site.jobs[me := Cleared(site, site.jobs[me])]);
      return true;
    }

    /** Loads a listed seat. */
    method Reload(me: nat, seat: string)
      requires Valid() && Refillable(site, me, seat)
      modifies this
      ensures Valid() && LoadNow(site.db, seat).Some?
      ensures site == old(site).(jobs := old(site).jobs[me := Refolded(old(site), old(site).jobs[me], seat)])
      ensures LoadNow(site.db, seat).value.seat == seat
      ensures LoadNow(site.db, seat).value.folded.version == Length(StreamsIn(site), seat)
    {
      var load := LoadSeat(seat);
      MoveIsReachable(site, Refold(me, seat));
      var r := site.jobs[me];
      site := site.(jobs := site.jobs[me := r.(left := r.left - {seat}, pending := Some(load))]);
    }

    /** Upserts the loaded seat, seeing what the rebuild itself deleted and wrote. */
    method Upsert(me: nat) returns (ok: bool)
      requires Valid() && me in site.jobs && site.jobs[me].Rebuilding? && site.jobs[me].pending.Some?
      modifies this
      ensures Valid() && site.db == old(site).db && site.view == old(site).view
      ensures !ok ==> me !in site.jobs
      ensures ok ==> site.jobs == old(site).jobs[me := Rewritten(old(site), old(site).jobs[me])]
      ensures old(site).jobs.Keys == {me} ==> ok
    {
      if LockedByOthers(site, me, site.jobs[me].pending.value.seat) {
        Rollback(me);
        return false;
      }
      MoveIsReachable(site, Rewrite(me));
      site := site.(jobs := site.jobs[me := Rewritten(site, site.jobs[me])]);
      return true;
    }

    /** Loads one listed seat and upserts it. */
    method Refill(me: nat, seat: string, ghost start: Site) returns (ok: bool)
      requires Valid() && Refillable(site, me, seat)
      requires StreamsGrow(StreamsIn(start), StreamsIn(site))
      requires CaughtUp(StreamsIn(start), site.view, site.jobs[me])
      requires quiet && start.jobs == map[] ==> AloneSoFar(start, site, me)
      modifies this
      ensures Valid() && StreamsGrow(StreamsIn(start), StreamsIn(site))
      ensures !ok ==> me !in site.jobs
      ensures ok ==> me in site.jobs && site.jobs[me].Rebuilding? && site.jobs[me].cleared
      ensures ok ==> site.jobs[me].pending.None? && site.jobs[me].listed == old(site).jobs[me].listed
      ensures ok ==> site.jobs[me].left == old(site).jobs[me].left - {seat}
      ensures ok ==> CaughtUp(StreamsIn(start), site.view, site.jobs[me])
      ensures quiet && start.jobs == map[] ==> ok && AloneSoFar(start, site, me)
    {
      if quiet && start.jobs == map[] { NextAlone(start, site, me, seat); }
      ListedHasStream(start, site, me, seat);
      ghost var loading := site;
      Reload(me, seat);
      ghost var loaded := site;
      ok := BetweenStatements(me);
      GrowTrans(StreamsIn(start), StreamsIn(loaded), StreamsIn(site));
      if !ok { return; }
      RefillCatchesUp(StreamsIn(start), loading, loaded, site, me, loaded.jobs[me].pending.value);
      ok := Upsert(me);
    }

    /** Lists the streams and clears the view. */
    method ListAndClear(me: nat) returns (ok: bool, ids: set<string>)
      requires Valid() && me !in site.jobs
      modifies this
      ensures Valid() && StreamsGrow(StreamsIn(old(site)), StreamsIn(site))
      ensures ids == StreamIds(old(site).db.store.events)
      ensures forall seat :: seat in ids <==> Length(StreamsIn(old(site)), seat) > 0
      ensures !ok ==> me !in site.jobs
      ensures ok ==> me in site.jobs && site.jobs[me].Rebuilding? && site.jobs[me].cleared
      ensures ok ==> site.jobs[me].pending.None? && site.jobs[me].listed == site.jobs[me].left == ids
      ensures quiet && old(site).jobs == map[] ==> ok && AloneSoFar(old(site), site, me)
    {
      ReachableSiteOk(site);
      ids := StreamIds(site.db.store.events);
      forall seat ensures seat in ids <==> Length(StreamsIn(site), seat) > 0 { ListedHaveStreams(site.db, seat); }
      MoveIsReachable(site, List(me));
      site := site.(jobs := site.jobs[me := Rebuilding(ids, ids, false, {}, map[], {}, None)]);
      ok := BetweenStatements(me);
      if !ok { return; }
      ok := ClearView(me);
    }

    /** Throws the view away and folds it again from the streams. Once it succeeds every seat
        whose stream existed when the call began has a row at least as new as its stream was
        then; with nobody else around the view is exactly the fold of every stream. */
    method Rebuild(me: nat) returns (ok: bool)
      requires Valid() && me !in site.jobs
      modifies this
      ensures Valid() && me !in site.jobs && StreamsGrow(StreamsIn(old(site)), StreamsIn(site))
      ensures ok ==> forall seat :: Length(StreamsIn(old(site)), seat) <= VersionIn(site.view, seat)
      ensures quiet && old(site).jobs == map[] ==>
        ok && site.db == old(site).db && site.view == Rebuilt(StreamsIn(old(site)))
    {
      ghost var start := site;
      var ids;
      ok, ids := ListAndClear(me);
      if !ok { return; }
      var left := ids;
      while left != {}
        invariant Valid() && StreamsGrow(StreamsIn(start), StreamsIn(site)) && me in site.jobs
        invariant site.jobs[me].Rebuilding? && site.jobs[me].cleared && site.jobs[me].pending.None?
        invariant site.jobs[me].listed == ids && site.jobs[me].left == left <= ids
        invariant CaughtUp(StreamsIn(start), site.view, site.jobs[me])
        invariant quiet && start.jobs == map[] ==> AloneSoFar(start, site, me)
        decreases left
      {
        ghost var before := site;
        ok := BetweenStatements(me);
        GrowTrans(StreamsIn(start), StreamsIn(before), StreamsIn(site));
        if !ok { return; }
        CaughtUpStays(StreamsIn(start), before, site, me);
        var id :| id in left;
        ok := Refill(me, id, start);
        if !ok { return; }
        left := left - {id};
      }
      ghost var before := site;
      ok := BetweenStatements(me);
      GrowTrans(StreamsIn(start), StreamsIn(before), StreamsIn(site));
      if !ok { return; }
      CaughtUpStays(StreamsIn(start), before, site, me);
      if quiet && start.jobs == map[] {
        ReachableSiteOk(site);
        AloneAtTheEnd(start, site, me);
      }
      MoveIsReachable(site, Move.Finish(me));
      site := CommitRebuild(site, me);
    }
  }

  /** The consumer's handler for seat events: the envelope's subject names the seat, and the
      payload is never read. Headers that are no CloudEvent, or that name no seat, fail for
      good; anything else that fails may be tried again. */
  method Notify(p: Projector, me: nat, headers: Headers) returns (r: Verdict)
    requires p.Valid() && me !in p.site.jobs
    modifies p
    ensures p.Valid() && me !in p.site.jobs
    ensures r.Permanent? <==> Parse(headers).Err? || Parse(headers).value.subject == ""
    ensures r.Done? ==>
      var seat := Parse(headers).value.subject;
      Length(StreamsIn(old(p.site)), seat) <= VersionIn(p.site.view, seat)
  {
    var parsed := ParseHeaders(headers);
    if parsed.Err? || parsed.value.subject == "" { return Permanent; }
    var ok := p.Project(me, parsed.value.subject);
    return if ok then Done else Transient;
  }
}
