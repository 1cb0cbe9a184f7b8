/** Merging rebuild answers into a partition (`merge_rebuild_candidates` in
    `pyleans/cluster/directory_rebuild.py`). */
module RebuildMerge {
  import opened Identity
  import opened Directory

  /** An activation told to stand down. */
  datatype Loser = Loser(silo: SiloAddress, grain: GrainId, epoch: int)

  function AsLoser(e: DirectoryEntry): Loser {
    Loser(e.silo, e.grain, e.epoch)
  }

  /** The order winners are picked by: lower epoch, then smaller silo id. */
  predicate Beats(a: DirectoryEntry, b: DirectoryEntry) {
    a.epoch < b.epoch || (a.epoch == b.epoch && SiloLess(a.silo, b.silo))
  }

  function MergeStep(best: Partition, losers: seq<Loser>, entry: DirectoryEntry): (Partition, seq<Loser>) {
    if entry.grain !in best then (best[entry.grain := entry], losers)
    else
      var current := best[entry.grain];
      if entry.epoch < current.epoch then (best[entry.grain := entry], losers + [AsLoser(current)])
      else if entry.epoch > current.epoch then
        (best, if entry.silo != current.silo then losers + [AsLoser(entry)] else losers)
      else if entry.silo != current.silo then
        if SiloLess(entry.silo, current.silo) then (best[entry.grain := entry], losers + [AsLoser(current)])
        else (best, losers + [AsLoser(entry)])
      else (best, losers)
  }

  function Merge(candidates: seq<DirectoryEntry>, existing: Partition): (Partition, seq<Loser>) {
    if candidates == [] then (existing, [])
    else
      var (best, losers) := Merge(candidates[..|candidates| - 1], existing);
      MergeStep(best, losers, candidates[|candidates| - 1])
  }

  /** Meeting an entry for a held grain tells the worse of the two to stand down, unless it is a later one of the same
      silo; nobody else is ever told. */
  lemma StepTellsTheWorse(best: Partition, losers: seq<Loser>, entry: DirectoryEntry)
    ensures var told := MergeStep(best, losers, entry).1;
            if entry.grain !in best then told == losers
            else
              var current := best[entry.grain];
              if entry.silo == current.silo && entry.epoch >= current.epoch then told == losers
              else told == losers + [AsLoser(if Beats(entry, current) then current else entry)]
  {
    hide SiloLess;
  }

  method MergeRebuildCandidates(candidates: seq<DirectoryEntry>, existing: Partition)
    returns (best: Partition, losers: seq<Loser>)
    ensures (best, losers) == Merge(candidates, existing)
  {
    hide SiloLess;
    best, losers := existing, [];
    for i := 0 to |candidates|
      invariant (best, losers) == Merge(candidates[..i], existing)
    {
      assert candidates[..i + 1][..i] == candidates[..i];
      var entry := candidates[i];
      if entry.grain !in best {
        best := best[entry.grain := entry];
      } else {
        var current := best[entry.grain];
        if entry.epoch < current.epoch {
          losers := losers + [Loser(current.silo, current.grain, current.epoch)];
          best := best[entry.grain := entry];
        } else if entry.epoch > current.epoch {
          if entry.silo != current.silo {
            losers := losers + [Loser(entry.silo, entry.grain, entry.epoch)];
          }
        } else if entry.silo != current.silo {
          if SiloLess(entry.silo, current.silo) {
            losers := losers + [Loser(current.silo, current.grain, current.epoch)];
            best := best[entry.grain := entry];
          } else {
            losers := losers + [Loser(entry.silo, entry.grain, entry.epoch)];
          }
        }
      }
    }
    assert candidates[..|candidates|] == candidates;
  }

  /** `e` was in the partition or in one of the answers. */
  predicate Reported(candidates: seq<DirectoryEntry>, existing: Partition, e: DirectoryEntry) {
    (e.grain in existing && existing[e.grain] == e) || e in candidates
  }

  /** Of what was reported for its grain, `w` is the least by epoch and then silo id. */
  ghost predicate Least(candidates: seq<DirectoryEntry>, existing: Partition, w: DirectoryEntry) {
    && Reported(candidates, existing, w)
    && forall e :: Reported(candidates, existing, e) && e.grain == w.grain ==> e == w || Beats(w, e)
  }

  ghost predicate Winners(candidates: seq<DirectoryEntry>, existing: Partition, best: Partition) {
    && WellKeyed(best)
    && (forall g :: g in best ==> Least(candidates, existing, best[g]))
    && (forall e :: Reported(candidates, existing, e) ==> e.grain in best)
  }

  ghost predicate Losers(candidates: seq<DirectoryEntry>, existing: Partition, best: Partition, losers: seq<Loser>) {
    && (forall l :: l in losers ==>
          && l.grain in best
          && Beats(best[l.grain], DirectoryEntry(l.grain, l.silo, l.epoch))
          && Reported(candidates, existing, DirectoryEntry(l.grain, l.silo, l.epoch)))
    && (forall e :: Reported(candidates, existing, e) && e.grain in best && e.silo != best[e.grain].silo ==>
          StandsDown(losers, e))
  }

  predicate StandsDown(losers: seq<Loser>, e: DirectoryEntry) {
    exists l :: l in losers && l.silo == e.silo && l.grain == e.grain
  }

  lemma BeatsTrans(a: DirectoryEntry, b: DirectoryEntry, c: DirectoryEntry)
    requires Beats(a, b) && Beats(b, c)
    ensures Beats(a, c)
  {
    hide SiloLess;
    if SiloLess(a.silo, b.silo) && SiloLess(b.silo, c.silo) {
      SiloLessTrans(a.silo, b.silo, c.silo);
    }
  }

  lemma BeatsTotal(a: DirectoryEntry, b: DirectoryEntry)
    requires a.grain == b.grain
    ensures !(Beats(a, b) && Beats(b, a)) && !Beats(a, a)
    ensures a == b || Beats(a, b) || Beats(b, a)
  {
    hide SiloLess;
    SiloLessTotal(a.silo, b.silo);
  }

  /** What one more candidate does: either it takes the place of the current winner or it does not. */
  lemma StepWinners(candidates: seq<DirectoryEntry>, existing: Partition, best: Partition, losers: seq<Loser>,
                    entry: DirectoryEntry)
    requires Winners(candidates, existing, best)
    ensures Winners(candidates + [entry], existing, MergeStep(best, losers, entry).0)
  {
    hide SiloLess, Beats;
    var after := MergeStep(best, losers, entry).0;
    StepPicksBetter(best, losers, entry);
    var w := after[entry.grain];
    assert w == entry || (entry.grain in best && w == best[entry.grain]);
    forall e | Reported(candidates + [entry], existing, e) && e.grain == entry.grain
      ensures e == w || Beats(w, e)
    {
      if e != entry {
        assert Reported(candidates, existing, e);
        var c := best[e.grain];
        assert e == c || Beats(c, e);
        if Beats(w, c) && Beats(c, e) {
          BeatsTrans(w, c, e);
        }
      }
    }
    forall g | g in after
      ensures Least(candidates + [entry], existing, after[g])
    {
      if g != entry.grain {
        assert Least(candidates, existing, best[g]);
      }
    }
  }

  lemma StepPicksBetter(best: Partition, losers: seq<Loser>, entry: DirectoryEntry)
    requires WellKeyed(best)
    ensures var after := MergeStep(best, losers, entry).0;
            && WellKeyed(after)
            && after.Keys == best.Keys + {entry.grain}
            && (forall g :: g in best && g != entry.grain ==> after[g] == best[g])
            && (after[entry.grain] == entry || (entry.grain in best && after[entry.grain] == best[entry.grain]))
            && (after[entry.grain] != entry ==> Beats(after[entry.grain], entry))
            && (entry.grain in best && after[entry.grain] != best[entry.grain] ==> Beats(entry, best[entry.grain]))
  {
    hide SiloLess;
    if entry.grain in best {
      SiloLessTotal(entry.silo, best[entry.grain].silo);
    }
  }

  /** Of the current winner and a new candidate, the one that does not stay. */
  function Rejected(best: Partition, after: Partition, entry: DirectoryEntry): DirectoryEntry
    requires entry.grain in best && entry.grain in after
  {
    if after[entry.grain] == entry then best[entry.grain] else entry
  }

  lemma StepTellsRejected(best: Partition, losers: seq<Loser>, entry: DirectoryEntry)
    requires WellKeyed(best) && entry.grain in best
    ensures var (after, losers') := MergeStep(best, losers, entry);
            var x := Rejected(best, after, entry);
            && losers' == (if losers' == losers then losers else losers + [AsLoser(x)])
            && (losers' != losers ==> Beats(after[entry.grain], x))
            && (x.silo != after[entry.grain].silo ==> losers' == losers + [AsLoser(x)])
  {
    hide SiloLess;
    SiloLessTotal(entry.silo, best[entry.grain].silo);
  }

  lemma StepLosers(candidates: seq<DirectoryEntry>, existing: Partition, best: Partition, losers: seq<Loser>,
                   entry: DirectoryEntry)
    requires Winners(candidates, existing, best) && Losers(candidates, existing, best, losers)
    ensures var (best', losers') := MergeStep(best, losers, entry);
            Losers(candidates + [entry], existing, best', losers')
  {
    hide SiloLess, Beats, MergeStep, Least;
    var (best', losers') := MergeStep(best, losers, entry);
    StepPicksBetter(best, losers, entry);
    if entry.grain in best {
      StepTellsRejected(best, losers, entry);
    } else {
      StepOfNewGrain(best, losers, entry);
    }
    assert forall l :: l in losers ==> l in losers';
    forall l | l in losers'
      ensures l.grain in best'
      ensures Beats(best'[l.grain], DirectoryEntry(l.grain, l.silo, l.epoch))
      ensures Reported(candidates + [entry], existing, DirectoryEntry(l.grain, l.silo, l.epoch))
    {
      var e := DirectoryEntry(l.grain, l.silo, l.epoch);
      if l in losers {
        if best'[l.grain] != best[l.grain] {
          BeatsTrans(best'[l.grain], best[l.grain], e);
        }
      } else {
        assert e == Rejected(best, best', entry);
        WinnerReported(candidates, existing, best, entry.grain);
      }
    }
    forall e | Reported(candidates + [entry], existing, e) && e.grain in best' && e.silo != best'[e.grain].silo
      ensures StandsDown(losers', e)
    {
      if Reported(candidates, existing, e) && e.silo != best[e.grain].silo {
        assert StandsDown(losers, e);
        var l :| l in losers && l.silo == e.silo && l.grain == e.grain;
        assert l in losers';
      } else {
        assert losers'[|losers'| - 1] in losers';
      }
    }
  }

  lemma WinnerReported(candidates: seq<DirectoryEntry>, existing: Partition, best: Partition, g: GrainId)
    requires Winners(candidates, existing, best) && g in best
    ensures Reported(candidates, existing, best[g]) && best[g].grain == g
  {
  }

  lemma StepOfNewGrain(best: Partition, losers: seq<Loser>, entry: DirectoryEntry)
    requires entry.grain !in best
    ensures MergeStep(best, losers, entry).1 == losers
  {
  }

  lemma {:induction false} MergeCorrect(candidates: seq<DirectoryEntry>, existing: Partition)
    requires WellKeyed(existing)
    ensures Winners(candidates, existing, Merge(candidates, existing).0)
    ensures Losers(candidates, existing, Merge(candidates, existing).0, Merge(candidates, existing).1)
  {
    hide SiloLess, Beats, MergeStep;
    if candidates != [] {
      var front := candidates[..|candidates| - 1];
      var (best, losers) := Merge(front, existing);
      MergeCorrect(front, existing);
      assert candidates == front + [candidates[|candidates| - 1]];
      StepWinners(front, existing, best, losers, candidates[|candidates| - 1]);
      StepLosers(front, existing, best, losers, candidates[|candidates| - 1]);
    }
  }

  /** Per grain, the least reported entry by epoch and then silo id wins, and nothing else is installed. */
  lemma WinnerIsLeast(candidates: seq<DirectoryEntry>, existing: Partition, g: GrainId)
    requires WellKeyed(existing)
    ensures var best := Merge(candidates, existing).0;
            && (g in best <==> exists e :: Reported(candidates, existing, e) && e.grain == g)
            && (g in best ==> best[g].grain == g && Least(candidates, existing, best[g]))
            && (g in best ==> forall e :: Reported(candidates, existing, e) && e.grain == g ==>
                  || best[g].epoch < e.epoch
                  || (best[g].epoch == e.epoch && (best[g].silo == e.silo || SiloLess(best[g].silo, e.silo))))
  {
    hide SiloLess, Merge;
    MergeCorrect(candidates, existing);
  }

  /** The winners do not depend on the order or repetition of the answers. */
  lemma MergeIgnoresOrder(xs: seq<DirectoryEntry>, ys: seq<DirectoryEntry>, existing: Partition)
    requires WellKeyed(existing)
    requires forall e :: e in xs <==> e in ys
    ensures Merge(xs, existing).0 == Merge(ys, existing).0
  {
    hide Beats, Merge;
    var a, b := Merge(xs, existing).0, Merge(ys, existing).0;
    assert forall e :: Reported(xs, existing, e) == Reported(ys, existing, e);
    forall g
      ensures g in a <==> g in b
      ensures g in a && g in b ==> a[g] == b[g]
    {
      WinnerIsLeast(xs, existing, g);
      WinnerIsLeast(ys, existing, g);
      if g in a && g in b {
        BeatsTotal(a[g], b[g]);
        assert Reported(xs, existing, b[g]);
        assert Reported(ys, existing, a[g]);
      }
    }
  }

  /** Every activation told to stand down was reported and is strictly worse than its grain's winner; and
      every silo that reported a grain is told to, unless it is the winner's own silo. */
  lemma ExactlyTheLosersStandDown(candidates: seq<DirectoryEntry>, existing: Partition)
    requires WellKeyed(existing)
    ensures var (best, losers) := Merge(candidates, existing);
            && (forall l :: l in losers ==>
                  && l.grain in best
                  && Beats(best[l.grain], DirectoryEntry(l.grain, l.silo, l.epoch))
                  && Reported(candidates, existing, DirectoryEntry(l.grain, l.silo, l.epoch)))
            && (forall e :: Reported(candidates, existing, e) ==>
                  e.grain in best && (e.silo != best[e.grain].silo ==> StandsDown(losers, e)))
  {
    hide Beats, Merge;
    MergeCorrect(candidates, existing);
  }
}
