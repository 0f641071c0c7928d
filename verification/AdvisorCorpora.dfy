/** The revisions of a corpus over every run of the kernel. */
module AdvisorCorpora {
  import opened Prelude
  import opened AdvisorTypes
  import opened AdvisorFacts
  import opened AdvisorKernel

  type Corpora = map<Id, StoredCorpus>

  ghost predicate SameCorpus(m: Corpora, j: Id, k: Id) {
    j in m && k in m && m[j].corpus.corpusId == m[k].corpus.corpusId
  }

  /** Revision numbers of a corpus are never shared. */
  ghost predicate Unshared(m: Corpora) {
    forall j, k :: SameCorpus(m, j, k) && m[j].corpus.revision == m[k].corpus.revision ==> j == k
  }

  ghost predicate HasRevision(m: Corpora, k: Id, n: nat) {
    exists j :: SameCorpus(m, j, k) && m[j].corpus.revision == n
  }

  ghost predicate AllBelow(m: Corpora, k: Id)
    requires k in m
  {
    m[k].corpus.revision >= 1 && forall n: nat :: 1 <= n <= m[k].corpus.revision ==> HasRevision(m, k, n)
  }

  ghost predicate Highest(m: Corpora, k: Id)
    requires k in m
  {
    forall j :: SameCorpus(m, j, k) ==> m[j].corpus.revision <= m[k].corpus.revision
  }

  ghost predicate HasCurrent(m: Corpora, k: Id) {
    exists j :: SameCorpus(m, j, k) && m[j].supersededAt.None?
  }

  /** Seen from one revision: all lower numbers exist, it is current exactly if it is the highest, and some revision is current. */
  ghost predicate InPlace(m: Corpora, k: Id) {
    k in m ==> AllBelow(m, k) && (m[k].supersededAt.None? <==> Highest(m, k)) && HasCurrent(m, k)
  }

  /** Each corpus has exactly one current revision, and it is the highest of 1..n. */
  ghost predicate Chained(m: Corpora) {
    Unshared(m) && forall k :: InPlace(m, k)
  }

  /* ---------- one approval ---------- */

  /** Every known revision of the corpus lies below the new one. */
  lemma NewIsHigher(r: Records, e: Event, k: Id)
    requires Chained(r.corpora) && e.CorpusApproved? && CorpusAllowed(r, e)
    requires k in r.corpora && r.corpora[k].corpus.corpusId == e.corpus.corpusId
    ensures e.supersededCorpus.Some? && r.corpora[k].corpus.revision < e.corpus.revision
  {
    assert InPlace(r.corpora, k);
    var j :| SameCorpus(r.corpora, j, k) && r.corpora[j].supersededAt.None?;
    var current := e.supersededCorpus.value;
    assert InPlace(r.corpora, current) && SameCorpus(r.corpora, k, current);
  }

  lemma ApprovalUnshared(r: Records, e: Event, after: Records)
    requires Chained(r.corpora) && CorpusStep(r, e, after)
    ensures Unshared(after.corpora)
  {
    forall j, k | SameCorpus(after.corpora, j, k) && after.corpora[j].corpus.revision == after.corpora[k].corpus.revision ensures j == k {
      if j in r.corpora && k in r.corpora {
        assert SameCorpus(r.corpora, j, k);
      } else if j in r.corpora {
        NewIsHigher(r, e, j);
      } else if k in r.corpora {
        NewIsHigher(r, e, k);
      }
    }
  }

  lemma RevisionKept(m: Corpora, k: Id, n: nat, after: Corpora, l: Id)
    requires HasRevision(m, k, n) && l in after && m.Keys <= after.Keys && (forall j :: j in m ==> after[j].corpus == m[j].corpus)
    requires k in m && after[l].corpus.corpusId == m[k].corpus.corpusId
    ensures HasRevision(after, l, n)
  {
    var j :| SameCorpus(m, j, k) && m[j].corpus.revision == n;
    assert SameCorpus(after, j, l);
  }

  /** The new revision sits on top of all the others. */
  lemma NewestInPlace(r: Records, e: Event, after: Records)
    requires Chained(r.corpora) && CorpusStep(r, e, after)
    ensures InPlace(after.corpora, e.corpus.corpusRevisionId)
  {
    var m, n, newest := r.corpora, after.corpora, e.corpus.corpusRevisionId;
    assert SameCorpus(n, newest, newest);
    forall i: nat | 1 <= i <= e.corpus.revision ensures HasRevision(n, newest, i) {
      if i < e.corpus.revision {
        var earlier := e.supersededCorpus.value;
        assert InPlace(m, earlier);
        RevisionKept(m, earlier, i, n, newest);
      }
    }
    forall j | SameCorpus(n, j, newest) ensures n[j].corpus.revision <= n[newest].corpus.revision {
      if j in m { NewIsHigher(r, e, j); }
    }
  }

  /** An older revision of the same corpus is not current any more. */
  lemma OlderInPlace(r: Records, e: Event, after: Records, k: Id)
    requires Chained(r.corpora) && CorpusStep(r, e, after) && k in r.corpora && r.corpora[k].corpus.corpusId == e.corpus.corpusId
    ensures InPlace(after.corpora, k)
  {
    var m, n, newest := r.corpora, after.corpora, e.corpus.corpusRevisionId;
    assert InPlace(m, k);
    NewIsHigher(r, e, k);
    assert SameCorpus(n, newest, k);
    forall i: nat | 1 <= i <= n[k].corpus.revision ensures HasRevision(n, k, i) { RevisionKept(m, k, i, n, k); }
    if m[k].supersededAt.None? { CurrentIsSuperseded(r, e, k); }
  }

  /** The only current revision of the corpus is the one the approval supersedes. */
  lemma CurrentIsSuperseded(r: Records, e: Event, k: Id)
    requires Chained(r.corpora) && e.CorpusApproved? && CorpusAllowed(r, e)
    requires k in r.corpora && r.corpora[k].corpus.corpusId == e.corpus.corpusId && r.corpora[k].supersededAt.None?
    ensures e.supersededCorpus == Some(k)
  {
    NewIsHigher(r, e, k);
    var earlier := e.supersededCorpus.value;
    assert SameCorpus(r.corpora, k, earlier) && SameCorpus(r.corpora, earlier, k);
    assert InPlace(r.corpora, k) && InPlace(r.corpora, earlier);
  }

  /** Other corpora are left alone. */
  lemma OtherInPlace(r: Records, e: Event, after: Records, k: Id)
    requires Chained(r.corpora) && CorpusStep(r, e, after) && k in r.corpora && r.corpora[k].corpus.corpusId != e.corpus.corpusId
    ensures InPlace(after.corpora, k)
  {
    var m, n := r.corpora, after.corpora;
    assert InPlace(m, k);
    forall i: nat | 1 <= i <= n[k].corpus.revision ensures HasRevision(n, k, i) { RevisionKept(m, k, i, n, k); }
    assert forall j :: SameCorpus(n, j, k) <==> SameCorpus(m, j, k);
    assert Highest(n, k) <==> Highest(m, k);
    var j :| SameCorpus(m, j, k) && m[j].supersededAt.None?;
    assert SameCorpus(n, j, k) && n[j].supersededAt.None?;
  }

  lemma ApprovalChains(r: Records, e: Event, after: Records)
    requires Chained(r.corpora) && CorpusStep(r, e, after)
    ensures Chained(after.corpora)
  {
    ApprovalUnshared(r, e, after);
    forall k ensures InPlace(after.corpora, k) {
      if k in after.corpora {
        if k == e.corpus.corpusRevisionId {
          NewestInPlace(r, e, after);
        } else if r.corpora[k].corpus.corpusId == e.corpus.corpusId {
          OlderInPlace(r, e, after, k);
        } else {
          OtherInPlace(r, e, after, k);
        }
      }
    }
  }

  /* ---------- every run ---------- */

  lemma BatchChains(k: Kernel, n: int)
    requires Linked(k) && 0 <= n < |k.log| && Chained(At(k, n).records.corpora)
    ensures Chained(At(k, n + 1).records.corpora)
  {
    assert ExplainedAt(k, n);
    var before, after, events := At(k, n).records, At(k, n + 1).records, k.log[n].events;
    if after.corpora != before.corpora { ApprovalChains(before, events[0], after); }
  }

  lemma {:induction false} ChainedAt(k: Kernel, n: int)
    requires Linked(k) && 0 <= n <= |k.log|
    ensures Chained(At(k, n).records.corpora)
  {
    if n > 0 {
      ChainedAt(k, n - 1);
      BatchChains(k, n - 1);
    }
  }

  /** In every reachable state each corpus has exactly one current revision, the highest of 1..n. */
  lemma CorporaAreChainedInEveryRun(clock: Time, steps: seq<Step>)
    ensures Chained(Run(Genesis(clock), steps).state.records.corpora)
  {
    var k := Run(Genesis(clock), steps);
    RunLinked(clock, steps);
    ChainedAt(k, |k.log|);
  }
}
