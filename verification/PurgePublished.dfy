/** Deleting published rows past their retention, page by page, until a page comes back short. */
module PurgePublisheds {
  import opened Wrappers
  import opened Ordering
  import opened Protocol
  import opened Clusters

  datatype PurgeResult = PurgeResult(deleted: nat, passes: nat)

  datatype PurgeError = Cancelled | DeleteFailed

  // The DELETE is a transaction of its own: an error may come after it has committed.
  datatype DeleteReply = DeleteOk | DeleteError(applied: bool)

  // status = 'published' AND published_at < cutoff.
  function Eligible(rows: map<RowId, Row>, cutoff: Instant): set<RowId> {
    set id | id in rows && Purgeable(rows[id], cutoff)
  }

  // now() minus the retention.
  function Cutoff(s: State, retention: nat): Instant {
    s.clock - retention
  }

  // These are the lowest of all the ids.
  ghost predicate LowestPart(ids: set<RowId>, all: set<RowId>) {
    ids <= all && forall x, y :: x in ids && y in all && y !in ids ==> x < y
  }

  // t is s without these rows; apart from the history of purged rows nothing else has changed.
  ghost predicate Without(s: State, t: State, gone: set<RowId>) {
    t.rows == s.rows - gone && t == s.(rows := t.rows, purged := t.purged)
  }

  lemma WithoutBoth(s: State, t: State, u: State, a: set<RowId>, b: set<RowId>)
    requires Without(s, t, a) && Without(t, u, b)
    ensures Without(s, u, a + b)
  {
    assert s.rows - a - b == s.rows - (a + b);
  }

  // One page: the lowest eligible rows, at most `limit` of them, are gone.
  ghost predicate PageTaken(s: State, t: State, cutoff: Instant, limit: nat, page: set<RowId>) {
    && LowestPart(page, Eligible(s.rows, cutoff)) && Without(s, t, page)
    && |page| == if |Eligible(s.rows, cutoff)| < limit then |Eligible(s.rows, cutoff)| else limit
  }

  // What one DELETE with this reply did to the table.
  ghost predicate Deleted(s: State, t: State, cutoff: Instant, limit: nat, reply: DeleteReply, page: set<RowId>) {
    if reply == DeleteError(false) then t == s && page == {} else PageTaken(s, t, cutoff, limit, page)
  }

  // How many of the `left` rows it took.
  function Taken(reply: DeleteReply, left: nat, limit: nat): nat {
    if reply == DeleteError(false) then 0 else if left < limit then left else limit
  }

  // n pages of `batch` rows each.
  function PageRows(n: nat, batch: nat): nat {
    if n == 0 then 0 else PageRows(n - 1, batch) + batch
  }

  lemma QuotientIs(n: nat, q: nat, r: nat, batch: nat)
    requires n == batch * q + r && r < batch
    ensures n / batch == q
  {
    var d := n / batch - q;
    assert batch * d == r - n % batch by {
      assert n == batch * (n / batch) + n % batch;
      assert batch * d == batch * (n / batch) - batch * q;
    }
    assert d >= 1 ==> batch * d >= batch;
    assert d <= -1 ==> batch * d + batch <= 0;
  }

  lemma DivideOnce(x: nat, batch: nat)
    requires batch > 0
    ensures (x + batch) / batch == x / batch + 1
  {
    var q, r := x / batch, x % batch;
    assert x + batch == batch * (q + 1) + r;
    QuotientIs(x + batch, q + 1, r, batch);
  }

  lemma {:induction false} FullPagesThenShort(pages: nat, batch: nat, last: nat)
    requires last < batch
    ensures (PageRows(pages, batch) + last) / batch == pages
  {
    if pages > 0 {
      FullPagesThenShort(pages - 1, batch, last);
      DivideOnce(PageRows(pages - 1, batch) + last, batch);
    }
  }

  class OutboxPurger {
    const cluster: Cluster

    constructor (cluster: Cluster)
      ensures this.cluster == cluster
    {
      this.cluster := cluster;
    }

    // One bounded DELETE, its own transaction: the lowest eligible ids, at most `limit` of them, are
    // gone. On an error either they are as well, or nothing has happened.
    method PurgePage(cutoff: Instant, limit: nat, reply: DeleteReply)
      returns (deleted: nat, err: Option<PurgeError>, ghost page: set<RowId>)
      requires cluster.Valid()
      modifies cluster`state, cluster`run, cluster`calm
      ensures cluster.Valid() && Continues(old(cluster.run), cluster.run)
      ensures Deleted(old(cluster.state), cluster.state, cutoff, limit, reply, page)
      ensures if reply.DeleteOk? then err == None && deleted == |page| else err == Some(DeleteFailed) && deleted == 0
    {
      page := {};
      if reply == DeleteError(false) {
        return 0, Some(DeleteFailed), page;
      }
      var ids := Lowest(Eligible(cluster.state.rows, cutoff), limit);
      AscendingCardinality(ids);
      page := Elements(ids);
      cluster.Perform(Step.PurgePage(Elements(ids), cutoff));
      deleted, err := if reply.DeleteOk? then |ids| else 0, if reply.DeleteOk? then None else Some(DeleteFailed);
    }
  }

  // ---------------------------------------------------------------- page after page

  // What is gone from the table since the start is the lowest part of what was eligible.
  ghost predicate PurgedSoFar(start: State, now: State, cutoff: Instant, gone: set<RowId>) {
    LowestPart(gone, Eligible(start.rows, cutoff)) && Without(start, now, gone)
  }

  // The next page continues where the rows already gone end; a short one is the last.
  lemma NextPage(rows: map<RowId, Row>, cutoff: Instant, gone: set<RowId>, page: set<RowId>, batch: nat)
    requires LowestPart(gone, Eligible(rows, cutoff)) && LowestPart(page, Eligible(rows - gone, cutoff))
    requires var e := |Eligible(rows - gone, cutoff)|; |page| == if e < batch then e else batch
    ensures LowestPart(gone + page, Eligible(rows, cutoff)) && |gone + page| == |gone| + |page|
    ensures |gone + page| <= |Eligible(rows, cutoff)|
    ensures |page| < batch ==> gone + page == Eligible(rows, cutoff)
  {
    var eligible, rest := Eligible(rows, cutoff), Eligible(rows - gone, cutoff);
    assert rest == eligible - gone;
    NotLarger(gone + page, eligible);
    if |page| < batch && page != rest {
      Smaller(page, rest);
      assert false;
    }
  }

  lemma NothingGone(s: State, cutoff: Instant)
    ensures PurgedSoFar(s, s, cutoff, {})
  {
    assert s.rows - {} == s.rows;
  }

  lemma PageGone(start: State, before: State, after: State, cutoff: Instant, gone: set<RowId>, page: set<RowId>,
                 batch: nat, reply: DeleteReply)
    requires PurgedSoFar(start, before, cutoff, gone) && |gone| <= |Eligible(start.rows, cutoff)|
    requires Deleted(before, after, cutoff, batch, reply, page)
    ensures PurgedSoFar(start, after, cutoff, gone + page) && after.clock == start.clock
    ensures |page| == Taken(reply, |Eligible(start.rows, cutoff)| - |gone|, batch) && |gone + page| == |gone| + |page|
    ensures !reply.DeleteError? && |page| < batch ==> gone + page == Eligible(start.rows, cutoff)
  {
    if reply == DeleteError(false) {
      assert gone + page == gone;
    } else {
      WithoutBoth(start, before, after, gone, page);
      NextPage(start.rows, cutoff, gone, page, batch);
    }
  }

  // Of n eligible rows, a complete purge reports all, in n / batch + 1 pages; one that stopped
  // early reports full pages only.
  ghost predicate Reports(res: PurgeResult, n: nat, batch: nat, complete: bool)
    requires batch > 0
  {
    if complete then res == PurgeResult(n, n / batch + 1)
    else res.deleted == PageRows(res.passes, batch) && res.deleted <= n
  }

  lemma OneMoreReport(res: PurgeResult, deleted: nat, n: nat, batch: nat)
    requires batch > 0 && Reports(res, n, batch, false)
    requires deleted <= batch && res.deleted + deleted <= n && (deleted < batch ==> res.deleted + deleted == n)
    ensures Reports(PurgeResult(res.deleted + deleted, res.passes + 1), n, batch, deleted < batch)
  {
    if deleted < batch {
      FullPagesThenShort(res.passes, batch, deleted);
    }
  }

  // Between two pages: the lowest eligible rows are gone, as many as are reported.
  ghost predicate BetweenPages(start: State, now: State, cutoff: Instant, batch: nat, res: PurgeResult,
                               gone: set<RowId>)
    requires batch > 0
  {
    && PurgedSoFar(start, now, cutoff, gone) && now.clock == start.clock
    && |gone| == res.deleted && Reports(res, |Eligible(start.rows, cutoff)|, batch, false)
  }

  // At the end: without an error everything eligible is gone; with one, the lowest rows, as many as
  // are reported and as the DELETE that failed has taken all the same.
  ghost predicate PurgeOutcome(start: State, now: State, cutoff: Instant, batch: nat, res: PurgeResult,
                               err: Option<PurgeError>, reply: DeleteReply, gone: set<RowId>)
    requires batch > 0
  {
    var eligible := Eligible(start.rows, cutoff);
    && PurgedSoFar(start, now, cutoff, gone) && (err.None? ==> gone == eligible)
    && Reports(res, |eligible|, batch, err.None?) && res.deleted <= |eligible|
    && |gone| == res.deleted + if err == Some(DeleteFailed) then Taken(reply, |eligible| - res.deleted, batch) else 0
  }

  lemma StoppedBetweenPages(start: State, now: State, cutoff: Instant, batch: nat, res: PurgeResult,
                            reply: DeleteReply, gone: set<RowId>)
    requires batch > 0 && BetweenPages(start, now, cutoff, batch, res, gone)
    ensures PurgeOutcome(start, now, cutoff, batch, res, Some(Cancelled), reply, gone)
  {
  }

  // One page further: between pages again, at the end, or stopped by an error.
  lemma PageDone(start: State, before: State, after: State, cutoff: Instant, batch: nat, res: PurgeResult,
                 reply: DeleteReply, gone: set<RowId>, page: set<RowId>)
    requires batch > 0 && BetweenPages(start, before, cutoff, batch, res, gone)
    requires Deleted(before, after, cutoff, batch, reply, page)
    ensures reply.DeleteError? ==>
      PurgeOutcome(start, after, cutoff, batch, res, Some(DeleteFailed), reply, gone + page)
    ensures reply.DeleteOk? ==>
      var res' := PurgeResult(res.deleted + |page|, res.passes + 1);
      && |page| <= batch && res'.deleted <= |Eligible(start.rows, cutoff)|
      && if |page| < batch then PurgeOutcome(start, after, cutoff, batch, res', None, reply, gone + page)
         else BetweenPages(start, after, cutoff, batch, res', gone + page)
  {
    PageGone(start, before, after, cutoff, gone, page, batch, reply);
    if reply.DeleteOk? {
      OneMoreReport(res, |page|, |Eligible(start.rows, cutoff)|, batch);
    }
  }

  // Published longer ago than the retention.
  predicate Overdue(row: Row, retention: nat, clock: Instant) {
    row.status == Published && row.publishedAt.Some? && row.publishedAt.value + retention < clock
  }

  // What is gone was overdue, every other row is as it was, and a complete purge leaves none overdue.
  ghost predicate RetentionKept(s: State, t: State, retention: nat, gone: set<RowId>, complete: bool) {
    && t.clock == s.clock
    && (forall id :: id in gone ==> id in s.rows && Overdue(s.rows[id], retention, s.clock) && id !in t.rows)
    && (forall id :: id in s.rows && id !in gone ==> id in t.rows && t.rows[id] == s.rows[id])
    && (forall id :: id in t.rows ==> id in s.rows && !(complete && Overdue(t.rows[id], retention, s.clock)))
  }

  lemma OnlyOverdueRows(start: State, now: State, retention: nat, batch: nat, res: PurgeResult,
                        err: Option<PurgeError>, reply: DeleteReply, gone: set<RowId>)
    requires batch > 0
    requires PurgeOutcome(start, now, Cutoff(start, retention), batch, res, err, reply, gone)
    ensures RetentionKept(start, now, retention, gone, err.None?)
  {
  }

  class PurgePublished {
    const outbox: OutboxPurger
    const retention: nat
    const batch: nat

    constructor (outbox: OutboxPurger, retention: nat, batch: nat)
      ensures this.outbox == outbox && this.retention == retention && this.batch == batch
    {
      this.outbox, this.retention, this.batch := outbox, retention, batch;
    }

    // Deletes until a page is short. `cancelled` and `replies` say what happens around each page. Run
    // to its end it removes exactly the eligible rows; stopped early, exactly the lowest ones that it
    // reports - or, if the failed DELETE was applied, those and exactly one page more.
    method Execute(cancelled: nat -> bool, replies: nat -> DeleteReply)
      returns (res: PurgeResult, err: Option<PurgeError>, ghost gone: set<RowId>, ghost reply: DeleteReply)
      requires outbox.cluster.Valid() && batch > 0
      modifies outbox.cluster`state, outbox.cluster`run, outbox.cluster`calm
      ensures outbox.cluster.Valid() && Continues(old(outbox.cluster.run), outbox.cluster.run)
      ensures PurgeOutcome(old(outbox.cluster.state), outbox.cluster.state,
                           Cutoff(old(outbox.cluster.state), retention), batch, res, err, reply, gone)
      ensures RetentionKept(old(outbox.cluster.state), outbox.cluster.state, retention, gone, err.None?)
      ensures err == Some(DeleteFailed) ==> reply == replies(res.passes) && reply.DeleteError?
      ensures err == Some(Cancelled) ==> cancelled(res.passes)
    {
      res, gone, reply := PurgeResult(0, 0), {}, DeleteOk;
      ghost var start, cutoff := outbox.cluster.state, Cutoff(outbox.cluster.state, retention);
      NothingGone(start, cutoff);
      while true
        invariant outbox.cluster.Valid() && Continues(old(outbox.cluster.run), outbox.cluster.run)
        invariant BetweenPages(start, outbox.cluster.state, cutoff, batch, res, gone)
        decreases |Eligible(start.rows, cutoff)| - res.deleted
      {
        if cancelled(res.passes) {
          StoppedBetweenPages(start, outbox.cluster.state, cutoff, batch, res, reply, gone);
          err := Some(Cancelled);
          OnlyOverdueRows(start, outbox.cluster.state, retention, batch, res, err, reply, gone);
          return;
        }
        ghost var before := outbox.cluster.state;
        assert Cutoff(before, retention) == cutoff;
        var answer := replies(res.passes);
        var deleted;
        ghost var page;
        deleted, err, page := outbox.PurgePage(Cutoff(outbox.cluster.state, retention), batch, answer);
        PageDone(start, before, outbox.cluster.state, cutoff, batch, res, answer, gone, page);
        reply, gone := answer, gone + page;
        if err.Some? {
          OnlyOverdueRows(start, outbox.cluster.state, retention, batch, res, err, reply, gone);
          return;
        }
        res := PurgeResult(res.deleted + deleted, res.passes + 1);
        if deleted < batch {
          OnlyOverdueRows(start, outbox.cluster.state, retention, batch, res, err, reply, gone);
          return;
        }
      }
    }
  }
}
