/** What completing a scan writes, in terms of the scan, the classification and the catalogue. */
module ScanFacts {
  import opened Prelude
  import opened Freshness
  import opened ScanWorker

  /** A spoilage alert is raised exactly when the label is spoiled and the scan ends up with a product and a
      batch that has no such alert. */
  lemma SpoilageRaisedIff(t: Tables, c: Catalogue, scan: Scan, job: Job)
    ensures var t' := WithCompleted(t, c, scan, job);
            var scan' := t'.scans[job.scan];
            && scan'.status == Completed && scan'.grade == job.result.grade
            && t'.spoilage ==
               if job.result.grade == Some(Spoiled) && scan'.product.Some? && scan'.batch.Some? && scan'.batch.value !in t.spoilage
               then t.spoilage[scan'.batch.value := job.alertId] else t.spoilage
  {}

  /** Completing a scan changes no scan but the caller's own, and inserts only for the caller's tenant. */
  lemma OtherScansUntouched(t: Tables, c: Catalogue, job: Job)
    ensures var t' := Complete(t, c, job);
            && t'.scans.Keys == t.scans.Keys
            && (forall id :: id in t.scans && (id != job.scan || t.scans[id].tenant != job.tenant) ==> t'.scans[id] == t.scans[id])
            && (job.scan in t.scans && t.scans[job.scan].tenant == job.tenant ==> t'.scans[job.scan].status == Completed)
            && (job.scan !in t.scans || t.scans[job.scan].tenant != job.tenant ==> t' == t)
            && (t'.batches != t.batches ==> job.batchId in t'.batches && t'.batches[job.batchId].tenant == job.tenant)
  {}

  // ----- over runs -----

  /** The batch was inserted by action `m`, as its intake says, for a scan of the initial tables. */
  ghost predicate InsertedBy(jobs: seq<Job>, t: Tables, a: Action, scan: Uuid, batch: Uuid, b: StockBatch) {
    && a.Commit? && a.i < |jobs| && jobs[a.i].scan == scan && jobs[a.i].batchId == batch
    && scan in t.scans
    && exists row: Scan ::
         IntakeOf(a.catalogue, row, jobs[a.i], b) && row.quantity == t.scans[scan].quantity && row.tenant == t.scans[scan].tenant
  }

  lemma CommitInsertsIntake(jobs: seq<Job>, t: Tables, s: Pool, a: Action)
    requires RowsHeld(jobs, s) && Grows(t, s.tables) && Enabled(jobs, s, a) && a.Commit?
    requires Next(jobs, s, a).attached != s.attached
    ensures var s', job := Next(jobs, s, a), jobs[a.i];
            && s'.attached == s.attached + [(job.scan, job.batchId)] && job.batchId in s'.tables.batches
            && InsertedBy(jobs, t, a, job.scan, job.batchId, s'.tables.batches[job.batchId])
  {
    var row := s.runs[a.i].row;
    assert Visible(s.tables, jobs[a.i]) == Some(row);
    CommitInserts(jobs, s, a);
    BatchInsertedIff(s.tables, a.catalogue, row, jobs[a.i]);
    assert IntakeOf(a.catalogue, row, jobs[a.i], Next(jobs, s, a).tables.batches[jobs[a.i].batchId]);
  }

  lemma QuietAttaches(jobs: seq<Job>, s: Pool, a: Action)
    requires RowsHeld(jobs, s) && Enabled(jobs, s, a)
    ensures s.attached <= Next(jobs, s, a).attached
    ensures |Next(jobs, s, a).attached| > |s.attached| ==> a.Commit? && |Next(jobs, s, a).attached| == |s.attached| + 1
  {}

  /** Every batch that was inserted in a run is, and stays, as its intake says: its product, quantity, label and
      deadlines are those of the scan, the classification and the catalogue of the commit that inserted it. */
  lemma {:induction false} InsertedAsIntakeSays(jobs: seq<Job>, t: Tables, actions: seq<Action>, k: nat) returns (m: nat)
    requires CanRun(jobs, t, actions) && k < |Reached(jobs, t, actions).attached|
    ensures m < |actions|
    ensures var s := Reached(jobs, t, actions); var entry := s.attached[k];
            entry.1 in s.tables.batches && InsertedBy(jobs, t, actions[m], entry.0, entry.1, s.tables.batches[entry.1])
  {
    var front, last := actions[..|actions| - 1], actions[|actions| - 1];
    var s := Reached(jobs, t, front);
    RunKeepsInv(jobs, t, front);
    StepGrows(jobs, s, last);
    QuietAttaches(jobs, s, last);
    if k < |s.attached| {
      m := InsertedAsIntakeSays(jobs, t, front, k);
    } else {
      m := |front|;
      CommitInsertsIntake(jobs, t, s, last);
    }
  }
}
