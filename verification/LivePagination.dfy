/** Paging while the delivery protocol runs. */
module LivePagination {
  import opened Domain
  import opened Protocol
  import opened Fencing
  import opened Pagination

  /** The filters on client, target and batch look only at columns that no transaction changes. */
  lemma RowsKeepMatching(cfg: Config, s: State, script: seq<Move>, batches: map<Id, Id>, client: string, f: Filter,
      id: Id)
    requires Reachable(cfg, s) && Legal(cfg, s, script) && f.status.None? && id in s.db.tasks
    ensures var z := Run(cfg, s, script);
            id in z.db.tasks && (id in Matching(z.db.tasks, batches, client, f)
                <==> id in Matching(s.db.tasks, batches, client, f))
  {
    hide Fence, Legal, Run, Reachable;
    ReachableFenced(cfg, s);
    RunFenced(cfg, s, script);
    assert RowEvolves(s.db.tasks[id], Run(cfg, s, script).db.tasks[id], s.issued);
  }

  /** A client that pages by client, target and batch sees every row that was there when it began exactly
      once, in descending order, whatever workers, dispatchers, recovery and other clients do between and
      during its requests: page k is read after some run scripts[k] of the protocol. */
  lemma OldRowsAreReturnedOnce(cfg: Config, s: State, scripts: seq<seq<Move>>, batches: map<Id, Id>, client: string,
      f: Filter,
                               limit: nat, snaps: seq<set<Id>>, pages: seq<Page>, id: Id)
    requires Reachable(cfg, s) && f.status.None? && |snaps| == |scripts|
    requires forall k :: 0 <= k < |scripts| ==>
          Legal(cfg, s, scripts[k]) && snaps[k] == Matching(Run(cfg, s, scripts[k]).db.tasks, batches, client, f)
    requires Follows(snaps, limit, None, pages) && Finished(pages)
    requires id in Matching(s.db.tasks, batches, client, f)
    ensures id in Items(pages) && Descending(Items(pages))
  {
    hide Legal, Run, Reachable, Matching;
    assert id in s.db.tasks by { MatchingIsTasks(s, batches, client, f); }
    forall k | 0 <= k < |snaps| ensures id in snaps[k] {
      RowsKeepMatching(cfg, s, scripts[k], batches, client, f, id);
    }
    FollowedInOrder(snaps, limit, None, pages);
    FollowedCompletely(snaps, limit, None, pages, id);
  }

  lemma MatchingIsTasks(s: State, batches: map<Id, Id>, client: string, f: Filter)
    ensures Matching(s.db.tasks, batches, client, f) <= s.db.tasks.Keys
  {
  }
}
