/** When the streams a report reads may have been deleted already: the sequencer does not wait for the timer
    before it deletes the workers of a test. */
module Lifetimes {
  import opened Protocol
  import opened Timer
  import opened Session
  import opened Invariants
  import opened Conformance
  import opened Witnesses

  /** The client goes on, and no error is flagged. */
  predicate Clean(f: Flags) {
    f.running && !f.hasError
  }

  /** Workers are deleted behind their ends, and when the result is there or not waited for. */
  ghost predicate Deletable(s: State) {
    && (s.seqr.Preparing? ==> !s.released)
    && (s.seqr.Joining? && s.released ==>
          AllEnded(s.workers) && (TestAt(s.seqr.k) in s.performed || !Clean(s.sh.flags)))
  }

  lemma EndedStays(c: Config, t: Test, w: Worker, sh: Shared, now: nat, m: Move)
    requires w.place.Ended?
    ensures WorkerMove(c, t, w, sh, now, m).w == w
  {
  }

  lemma DeletableStep(c: Config, s: State, a: Action)
    requires Deletable(s)
    ensures Deletable(Do(c, s, a))
  {
    match a
    case Work(i, m) =>
      if s.seqr.Joining? && i < |s.workers| {
        WorkerFlags(c, CurrentTest(s), s.workers[i], s.sh, s.now, m);
        if s.released {
          EndedStays(c, CurrentTest(s), s.workers[i], s.sh, s.now, m);
        }
      }
    case TimerStep => TimerFrame(Result(s.sh, s.timer, []), s.now);
    case _ =>
  }

  lemma {:induction false} DeletableAlways(c: Config, zero: nat, acts: seq<Action>)
    ensures Deletable(After(c, zero, acts))
  {
    if acts != [] {
      DeletableAlways(c, zero, acts[..|acts| - 1]);
      DeletableStep(c, After(c, zero, acts[..|acts| - 1]), acts[|acts| - 1]);
    }
  }

  /** Inside a callback its test has not been performed. */
  lemma NotPerformed(c: Config, s: State)
    requires Conforms(c, s) && s.seqr.Joining? && InCallback(s)
    ensures TestAt(s.seqr.k) !in s.performed
  {
    assert Position(TestAt(s.seqr.k)) == s.seqr.k;
  }

  /** In every run, at any moment inside a callback: the streams it reads may have been deleted exactly if all
      workers have ended and an error is flagged or the client was stopped. */
  lemma DeletedInCallback(c: Config, zero: nat, acts: seq<Action>)
    requires Sane(c) && After(c, zero, acts).seqr.Joining? && InCallback(After(c, zero, acts))
    ensures var s := After(c, zero, acts);
            Do(c, s, Release).released <==> AllEnded(s.workers) && !Clean(s.sh.flags)
  {
    ConformsAlways(c, zero, acts);
    DeletableAlways(c, zero, acts);
    NotPerformed(c, After(c, zero, acts));
  }

  /** In every run, a test is left only by joining its timer: when all its workers have ended, its timer is done,
      and its result is there, an error is flagged or the client was stopped. */
  lemma TestLeft(c: Config, zero: nat, acts: seq<Action>, a: Action, k: nat)
    requires After(c, zero, acts).seqr == Joining(k) && Do(c, After(c, zero, acts), a).seqr != Joining(k)
    ensures var s := After(c, zero, acts);
            && a == Join && Do(c, s, a).seqr == Deciding(k + 1)
            && AllEnded(s.workers) && s.timer.at.Done?
            && (TestAt(k) in s.performed || s.sh.flags.hasError || !s.sh.flags.running)
  {
    DeletableAlways(c, zero, acts);
  }

  // ----- the rows of a report

  lemma CleanBefore(c: Config, s: State, a: Action)
    ensures Clean(Do(c, s, a).sh.flags) ==> Clean(s.sh.flags)
  {
    match a
    case Work(i, m) =>
      if s.seqr.Joining? && i < |s.workers| {
        WorkerFlags(c, CurrentTest(s), s.workers[i], s.sh, s.now, m);
      }
    case TimerStep => TimerFrame(Result(s.sh, s.timer, []), s.now);
    case _ =>
  }

  lemma {:induction false} CleanSince(c: Config, zero: nat, acts: seq<Action>, n: nat)
    requires n <= |acts| && Clean(After(c, zero, acts).sh.flags)
    ensures Clean(After(c, zero, acts[..n]).sh.flags)
  {
    if n == |acts| {
      assert acts[..n] == acts;
    } else {
      var init := acts[..|acts| - 1];
      assert init[..n] == acts[..n];
      CleanBefore(c, After(c, zero, init), acts[|acts| - 1]);
      CleanSince(c, zero, init, n);
    }
  }

  /** The client was still clean at moment m. */
  ghost predicate CleanAt(c: Config, zero: nat, acts: seq<Action>, m: nat) {
    m <= |acts| && Clean(After(c, zero, acts[..m]).sh.flags)
  }

  /** A stream that was read at moment n had not been deleted, unless all had ended and the client was not
      clean any more; so it had not if the client is clean at that moment or any later one. */
  ghost predicate ReadAlive(c: Config, zero: nat, acts: seq<Action>, n: nat)
    requires n <= |acts|
  {
    var s := After(c, zero, acts[..n]);
    && (s.released ==> AllEnded(s.workers) && !Clean(s.sh.flags))
    && forall m | n <= m && CleanAt(c, zero, acts, m) :: !s.released
  }

  lemma MomentAlive(c: Config, zero: nat, acts: seq<Action>, n: nat)
    requires Sane(c) && n <= |acts|
    requires After(c, zero, acts[..n]).seqr.Joining? && InCallback(After(c, zero, acts[..n]))
    ensures ReadAlive(c, zero, acts, n)
  {
    DeletedInCallback(c, zero, acts[..n]);
    forall m | n <= m && CleanAt(c, zero, acts, m) ensures Clean(After(c, zero, acts[..n]).sh.flags) {
      assert acts[..m][..n] == acts[..n];
      CleanSince(c, zero, acts[..m], n);
    }
  }

  /** In every run, the moments at which a report or final result read a stream. */
  lemma RowsReadAlive(c: Config, zero: nat, acts: seq<Action>, j: nat, k: nat) returns (mark: Mark, ns: seq<nat>)
    requires Sane(c) && j < |Trace(c, zero, acts)|
    requires Trace(c, zero, acts)[j].Report? || Trace(c, zero, acts)[j].Finish?
    requires k < Instances(c, Trace(c, zero, acts)[j].test)
    ensures ColumnRead(c, zero, acts, Trace(c, zero, acts)[j].test, k, Trace(c, zero, acts)[j].readings, mark, ns)
    ensures forall i | 0 <= i < |ns| :: ns[i] <= |acts| && ReadAlive(c, zero, acts, ns[i])
  {
    var e := Trace(c, zero, acts)[j];
    mark, ns := EntriesWitnessed(c, zero, acts, j, k);
    forall i | 0 <= i < |ns| ensures ns[i] <= |acts| && ReadAlive(c, zero, acts, ns[i]) {
      assert ReadAt(c, zero, acts, e.test, k, e.readings[i], mark, ns[i]);
      MomentAlive(c, zero, acts, ns[i]);
    }
  }
}
