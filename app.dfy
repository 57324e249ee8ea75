/**
 * The orchestrator: the per-technique result table, the "analysis in
 * progress" flag and the current image, and how selecting an image drives
 * one invocation per technique. The concurrent requests are modelled as
 * resolution events that arrive in an order chosen by the environment.
 */
module App {
  import opened Wrappers
  import opened Js
  import opened Types
  import opened Constants
  import opened GeminiService

  // ---------------------------------------------------------------------------
  // The table and its updaters
  // ---------------------------------------------------------------------------

  /** The idle cell of a technique: catalog name and description, nothing else. */
  function IdleEntry(t: Technique): TechniqueResult
  {
    TechniqueResult(t, Config(t).name, Config(t).description, None, false, None)
  }

  /** `INITIAL_RESULTS`. */
  const InitialResults: seq<TechniqueResult> := [IdleEntry(RapidScan), IdleEntry(DeepAnalysis), IdleEntry(HealthOptimized)]

  /** One cell per technique, in enumeration order, carrying the catalog's name and description. */
  ghost predicate WellFormed(rs: seq<TechniqueResult>)
  {
    && |rs| == |AllTechniques|
    && forall i :: 0 <= i < |rs| ==>
         && rs[i].technique == AllTechniques[i]
         && rs[i].techniqueName == Config(AllTechniques[i]).name
         && rs[i].techniqueDescription == Config(AllTechniques[i]).description
  }

  predicate Idle(e: TechniqueResult)
  {
    e.data.None? && !e.loading && e.error.None?
  }

  /** The initial table is well formed and every cell in it is idle. */
  lemma InitialResultsIdle()
    ensures WellFormed(InitialResults)
    ensures forall i :: 0 <= i < |InitialResults| ==> Idle(InitialResults[i])
  {
  }

  /** `{ ...r, loading: true, error: null, data: null }`. */
  function ResetEntry(e: TechniqueResult): TechniqueResult
  {
    e.(loading := true, error := None, data := None)
  }

  /** The updater applied when analysis starts: every cell goes back to loading. */
  function ResetLoading(rs: seq<TechniqueResult>): (r: seq<TechniqueResult>)
    ensures |r| == |rs|
    ensures forall i :: 0 <= i < |rs| ==>
      && r[i].technique == rs[i].technique
      && r[i].techniqueName == rs[i].techniqueName
      && r[i].techniqueDescription == rs[i].techniqueDescription
      && r[i].loading && r[i].data.None? && r[i].error.None?
  {
    seq(|rs|, i requires 0 <= i < |rs| => ResetEntry(rs[i]))
  }

  /** One request settling: the technique it was for and what it returned or threw. */
  datatype Resolution = Resolution(technique: Technique, outcome: Result<AnalysisData, Error>)

  /**
   * The effect of a resolution on one cell. A success stores the data and
   * leaves `error` as it was; a failure stores the message and leaves `data`
   * as it was. Cells of other techniques are untouched.
   */
  function Resolve(e: TechniqueResult, ev: Resolution): TechniqueResult
  {
    if e.technique != ev.technique then e
    else
      match ev.outcome
      case Success(d) => e.(data := Some(d), loading := false)
      case Failure(err) => e.(error := Some(err.message), loading := false)
  }

  /** The updater `prev.map(r => r.technique === tech ? ... : r)` for one resolution. */
  function Apply(rs: seq<TechniqueResult>, ev: Resolution): (r: seq<TechniqueResult>)
    ensures |r| == |rs|
    ensures forall i :: 0 <= i < |rs| ==>
      && r[i].technique == rs[i].technique
      && r[i].techniqueName == rs[i].techniqueName
      && r[i].techniqueDescription == rs[i].techniqueDescription
    ensures forall i :: 0 <= i < |rs| && rs[i].technique != ev.technique ==> r[i] == rs[i]
    ensures forall i :: 0 <= i < |rs| && rs[i].technique == ev.technique ==> !r[i].loading
    ensures forall i :: 0 <= i < |rs| && rs[i].technique == ev.technique ==>
      && (ev.outcome.Success? ==> r[i].data == Some(ev.outcome.value) && r[i].error == rs[i].error)
      && (ev.outcome.Failure? ==> r[i].error == Some(ev.outcome.error.message) && r[i].data == rs[i].data)
  {
    seq(|rs|, i requires 0 <= i < |rs| => Resolve(rs[i], ev))
  }

  /** Resolutions for different techniques commute. */
  lemma ApplyCommutes(rs: seq<TechniqueResult>, e1: Resolution, e2: Resolution)
    requires e1.technique != e2.technique
    ensures Apply(Apply(rs, e1), e2) == Apply(Apply(rs, e2), e1)
  {
  }

  /** The table after resolutions arrive in the given order. */
  function ApplyAll(rs: seq<TechniqueResult>, evs: seq<Resolution>): (r: seq<TechniqueResult>)
    ensures |r| == |rs|
    ensures forall i :: 0 <= i < |rs| ==>
      && r[i].technique == rs[i].technique
      && r[i].techniqueName == rs[i].techniqueName
      && r[i].techniqueDescription == rs[i].techniqueDescription
    decreases |evs|
  {
    if evs == [] then rs else ApplyAll(Apply(rs, evs[0]), evs[1..])
  }

  /** The same resolutions applied to a single cell. */
  function ResolveAll(e: TechniqueResult, evs: seq<Resolution>): TechniqueResult
    decreases |evs|
  {
    if evs == [] then e else ResolveAll(Resolve(e, evs[0]), evs[1..])
  }

  /** Resolving a batch acts on each cell independently of the others. */
  lemma {:induction false} ApplyAllPointwise(rs: seq<TechniqueResult>, evs: seq<Resolution>, i: int)
    requires 0 <= i < |rs|
    ensures ApplyAll(rs, evs)[i] == ResolveAll(rs[i], evs)
    decreases |evs|
  {
    if evs != [] {
      ApplyAllPointwise(Apply(rs, evs[0]), evs[1..], i);
    }
  }

  /** Appending one resolution to a batch applies it last. */
  lemma {:induction false} ApplyAllSnoc(rs: seq<TechniqueResult>, evs: seq<Resolution>, ev: Resolution)
    ensures ApplyAll(rs, evs + [ev]) == Apply(ApplyAll(rs, evs), ev)
    decreases |evs|
  {
    if evs == [] {
      assert evs + [ev] == [ev];
    } else {
      assert (evs + [ev])[1..] == evs[1..] + [ev];
      ApplyAllSnoc(Apply(rs, evs[0]), evs[1..], ev);
    }
  }

  /** A cell is touched only by the one resolution for its technique. */
  lemma {:induction false} ResolveAllOnce(e: TechniqueResult, evs: seq<Resolution>, k: int)
    requires 0 <= k < |evs| && evs[k].technique == e.technique
    requires forall j :: 0 <= j < |evs| && j != k ==> evs[j].technique != e.technique
    ensures ResolveAll(e, evs) == Resolve(e, evs[k])
    decreases |evs|
  {
    if k == 0 {
      ResolveAllUntouched(Resolve(e, evs[0]), evs[1..]);
    } else {
      ResolveAllOnce(e, evs[1..], k - 1);
    }
  }

  lemma {:induction false} ResolveAllUntouched(e: TechniqueResult, evs: seq<Resolution>)
    requires forall j :: 0 <= j < |evs| ==> evs[j].technique != e.technique
    ensures ResolveAll(e, evs) == e
    decreases |evs|
  {
    if evs != [] {
      ResolveAllUntouched(e, evs[1..]);
    }
  }

  /** Every technique appears exactly once. */
  predicate OncePerTechnique(ts: seq<Technique>)
  {
    && (forall t: Technique :: t in ts)
    && (forall j, k :: 0 <= j < k < |ts| ==> ts[j] != ts[k])
  }

  /** A permutation of the dispatched techniques lists every technique exactly once. */
  lemma {:induction false} PermutationOncePerTechnique(ts: seq<Technique>)
    requires multiset(ts) == multiset(AllTechniques)
    ensures OncePerTechnique(ts)
  {
    AllTechniquesOnce();
    forall t: Technique ensures t in ts {
      assert t in multiset(ts);
    }
    forall j, k | 0 <= j < k < |ts| ensures ts[j] != ts[k] {
      DuplicateCounted(ts, j, k);
    }
  }

  /** Two equal entries make that value occur at least twice in the multiset. */
  lemma DuplicateCounted<T>(ts: seq<T>, j: nat, k: nat)
    requires j < k < |ts|
    ensures ts[j] == ts[k] ==> multiset(ts)[ts[j]] >= 2
  {
    assert ts == ts[..j] + [ts[j]] + ts[j + 1..k] + [ts[k]] + ts[k + 1..];
  }

  function EventTechniques(evs: seq<Resolution>): (ts: seq<Technique>)
    ensures |ts| == |evs| && forall k :: 0 <= k < |evs| ==> ts[k] == evs[k].technique
  {
    seq(|evs|, k requires 0 <= k < |evs| => evs[k].technique)
  }

  /** A cell after loading has been resolved: not loading, and exactly one of data and error. */
  predicate Settled(e: TechniqueResult)
  {
    !e.loading && (e.data.Some? <==> e.error.None?)
  }

  /** The cell a loading cell becomes when its own request settles with `outcome`. */
  lemma ResolvedCell(e: TechniqueResult, outcome: Result<AnalysisData, Error>)
    ensures var r := Resolve(ResetEntry(e), Resolution(e.technique, outcome));
      && Settled(r)
      && (outcome.Success? ==> r.data == Some(outcome.value) && r.error.None?)
      && (outcome.Failure? ==> r.error == Some(outcome.error.message) && r.data.None?)
  {
  }

  /**
   * After a reset, one resolution per technique, in any order, settles every
   * cell with exactly its own technique's outcome.
   */
  lemma {:induction false} BatchSettles(rs: seq<TechniqueResult>, evs: seq<Resolution>)
    requires WellFormed(rs)
    requires OncePerTechnique(EventTechniques(evs))
    ensures forall i :: 0 <= i < |rs| ==> Settled(ApplyAll(ResetLoading(rs), evs)[i])
    ensures forall i, k :: 0 <= i < |rs| && 0 <= k < |evs| && evs[k].technique == rs[i].technique ==>
      ApplyAll(ResetLoading(rs), evs)[i] == Resolve(ResetEntry(rs[i]), evs[k])
  {
    var reset := ResetLoading(rs);
    var ts := EventTechniques(evs);
    forall i, k | 0 <= i < |rs| && 0 <= k < |evs| && evs[k].technique == rs[i].technique
      ensures ApplyAll(reset, evs)[i] == Resolve(ResetEntry(rs[i]), evs[k])
    {
      assert reset[i] == ResetEntry(rs[i]);
      forall j | 0 <= j < |evs| && j != k ensures evs[j].technique != reset[i].technique {
        if j < k { assert ts[j] != ts[k]; } else { assert ts[k] != ts[j]; }
      }
      ApplyAllPointwise(reset, evs, i);
      ResolveAllOnce(reset[i], evs, k);
    }
    forall i | 0 <= i < |rs| ensures Settled(ApplyAll(reset, evs)[i]) {
      var t := rs[i].technique;
      assert t in ts;
      var k :| 0 <= k < |ts| && ts[k] == t;
      assert reset[i] == ResetEntry(rs[i]);
      ResolvedCell(rs[i], evs[k].outcome);
    }
  }

  /**
   * The order in which the requests settle does not matter: two arrival
   * orders of the same resolutions leave the same table.
   */
  lemma ArrivalOrderIrrelevant(rs: seq<TechniqueResult>, evs1: seq<Resolution>, evs2: seq<Resolution>)
    requires OncePerTechnique(EventTechniques(evs1)) && OncePerTechnique(EventTechniques(evs2))
    requires forall ev :: ev in evs1 <==> ev in evs2
    ensures ApplyAll(rs, evs1) == ApplyAll(rs, evs2)
  {
    var ts1, ts2 := EventTechniques(evs1), EventTechniques(evs2);
    forall i | 0 <= i < |rs| ensures ApplyAll(rs, evs1)[i] == ApplyAll(rs, evs2)[i] {
      var t := rs[i].technique;
      assert t in ts1 && t in ts2;
      var k1 :| 0 <= k1 < |ts1| && ts1[k1] == t;
      var k2 :| 0 <= k2 < |ts2| && ts2[k2] == t;
      assert evs1[k1] in evs2;
      var m :| 0 <= m < |evs2| && evs2[m] == evs1[k1];
      assert ts2[m] == ts2[k2];
      forall j | 0 <= j < |evs1| && j != k1 ensures evs1[j].technique != t {
        if j < k1 { assert ts1[j] != ts1[k1]; } else { assert ts1[k1] != ts1[j]; }
      }
      forall j | 0 <= j < |evs2| && j != k2 ensures evs2[j].technique != t {
        if j < k2 { assert ts2[j] != ts2[k2]; } else { assert ts2[k2] != ts2[j]; }
      }
      ApplyAllPointwise(rs, evs1, i);
      ApplyAllPointwise(rs, evs2, i);
      ResolveAllOnce(rs[i], evs1, k1);
      ResolveAllOnce(rs[i], evs2, k2);
    }
  }

  /**
   * Without a generation guard, a request for a superseded image can settle
   * into the new batch: a late success followed by the current failure
   * leaves both data and error set.
   */
  lemma StaleSuccessThenFailure(e: TechniqueResult, stale: AnalysisData, err: Error)
    ensures var r := Resolve(Resolve(ResetEntry(e), Resolution(e.technique, Success(stale))), Resolution(e.technique, Failure(err)));
      r.data == Some(stale) && r.error == Some(err.message) && !r.loading && !Settled(r)
  {
  }

  /** Extending the applied prefix by one event applies that event last. */
  lemma ApplyAllPrefixStep(rs: seq<TechniqueResult>, evs: seq<Resolution>, k: nat)
    requires k < |evs|
    ensures ApplyAll(rs, evs[..k + 1]) == Apply(ApplyAll(rs, evs[..k]), evs[k])
  {
    assert evs[..k + 1] == evs[..k] + [evs[k]];
    ApplyAllSnoc(rs, evs[..k], evs[k]);
  }

  /** The resolutions produced when the requests for `arrivals` settle in that order. */
  function Arrivals(rt: Runtime, image: string, arrivals: seq<Technique>,
                    startTimes: Technique -> real, endTimes: Technique -> real): (evs: seq<Resolution>)
    ensures EventTechniques(evs) == arrivals
    ensures forall k :: 0 <= k < |arrivals| ==>
      evs[k].outcome == Invoke(rt, image, arrivals[k], startTimes(arrivals[k]), endTimes(arrivals[k]))
  {
    seq(|arrivals|, k requires 0 <= k < |arrivals| =>
      Resolution(arrivals[k], Invoke(rt, image, arrivals[k], startTimes(arrivals[k]), endTimes(arrivals[k]))))
  }

  // ---------------------------------------------------------------------------
  // The component's state
  // ---------------------------------------------------------------------------

  /** The three state cells of the `App` component. */
  class AppState {
    var results: seq<TechniqueResult>
    var isAnalyzing: bool
    var currentImage: Option<string>

    ghost predicate Valid()
      reads this
    {
      WellFormed(results)
    }

    constructor()
      ensures Valid()
      ensures results == InitialResults && !isAnalyzing && currentImage == None
    {
      results := InitialResults;
      isAnalyzing := false;
      currentImage := None;
    }

    /** Selecting no image: forget the image and restore the idle table. */
    method Clear()
      modifies this
      ensures Valid()
      ensures currentImage == None && results == InitialResults
      ensures isAnalyzing == old(isAnalyzing)
    {
      currentImage := None;
      results := InitialResults;
    }

    /**
     * Selecting an image: remember it, raise the flag, put every cell back to
     * loading and dispatch one request per technique.
     */
    method Submit(image: string) returns (dispatched: seq<Technique>)
      requires Valid()
      modifies this
      ensures Valid()
      ensures currentImage == Some(image) && isAnalyzing
      ensures results == ResetLoading(old(results))
      ensures dispatched == AllTechniques
    {
      currentImage := Some(image);
      isAnalyzing := true;
      results := ResetLoading(results);
      dispatched := AllTechniques;
    }

    /** A request succeeded: store its data in its own cell. */
    method ResolveSuccess(t: Technique, data: AnalysisData)
      requires Valid()
      modifies this`results
      ensures Valid()
      ensures results == Apply(old(results), Resolution(t, Success(data)))
    {
      results := Apply(results, Resolution(t, Success(data)));
    }

    /** A request failed: store its message in its own cell. */
    method ResolveError(t: Technique, err: Error)
      requires Valid()
      modifies this`results
      ensures Valid()
      ensures results == Apply(old(results), Resolution(t, Failure(err)))
    {
      results := Apply(results, Resolution(t, Failure(err)));
    }

    /** Route a settled request to the success or the failure handler. */
    method Settle(t: Technique, outcome: Result<AnalysisData, Error>)
      requires Valid()
      modifies this`results
      ensures Valid()
      ensures results == Apply(old(results), Resolution(t, outcome))
    {
      match outcome {
        case Success(data) =>
          ResolveSuccess(t, data);
        case Failure(err) =>
          ResolveError(t, err);
      }
    }

    /**
     * Run the dispatched requests, each settling into its own cell in the
     * order given by `arrivals`.
     */
    method RunRequests(rt: Runtime, image: string, arrivals: seq<Technique>,
                       startTimes: Technique -> real, endTimes: Technique -> real)
      requires Valid()
      modifies this`results
      ensures Valid()
      ensures results == ApplyAll(old(results), Arrivals(rt, image, arrivals, startTimes, endTimes))
    {
      ghost var evs := Arrivals(rt, image, arrivals, startTimes, endTimes);
      var k := 0;
      while k < |arrivals|
        invariant 0 <= k <= |arrivals|
        invariant Valid()
        invariant results == ApplyAll(old(results), evs[..k])
      {
        var t := arrivals[k];
        var outcome, _ := AnalyzeImage(rt, image, t, startTimes(t), endTimes(t));
        Settle(t, outcome);
        assert evs[k] == Resolution(t, outcome);
        ApplyAllPrefixStep(old(results), evs, k);
        k := k + 1;
      }
      assert evs[..k] == evs;
    }

    /** Every request of the batch has settled. */
    method FinishAll()
      requires Valid()
      modifies this`isAnalyzing
      ensures Valid()
      ensures !isAnalyzing
    {
      isAnalyzing := false;
    }

    /**
     * `handleImageSelected`, run to completion with no other selection in
     * between. `arrivals` is the order in which the requests settle;
     * `startTimes` and `endTimes` are the clock readings each request takes.
     */
    method HandleImageSelected(rt: Runtime, image: string, arrivals: seq<Technique>,
                               startTimes: Technique -> real, endTimes: Technique -> real)
      requires Valid()
      requires image != "" ==> multiset(arrivals) == multiset(AllTechniques)
      modifies this
      ensures Valid()
      ensures image == "" ==> currentImage == None && results == InitialResults && isAnalyzing == old(isAnalyzing)
      ensures image != "" ==> currentImage == Some(image) && !isAnalyzing
      ensures image != "" ==> results == ApplyAll(ResetLoading(old(results)), Arrivals(rt, image, arrivals, startTimes, endTimes))
      ensures image != "" ==> forall i :: 0 <= i < |results| ==>
        && Settled(results[i])
        && results[i] == Resolve(ResetEntry(old(results)[i]),
             Resolution(AllTechniques[i], Invoke(rt, image, AllTechniques[i], startTimes(AllTechniques[i]), endTimes(AllTechniques[i]))))
    {
      if image == "" {
        Clear();
      } else {
        // The requests settle in some order of the dispatched techniques.
        PermutationOncePerTechnique(arrivals);
        Analyze(rt, image, arrivals, startTimes, endTimes);
      }
    }

    /**
     * The path of `handleImageSelected` for a selected image: submit, let every
     * dispatched request settle in the order of `arrivals`, lower the flag.
     */
    method Analyze(rt: Runtime, image: string, arrivals: seq<Technique>,
                   startTimes: Technique -> real, endTimes: Technique -> real)
      requires Valid()
      requires OncePerTechnique(arrivals)
      modifies this
      ensures Valid()
      ensures currentImage == Some(image) && !isAnalyzing
      ensures results == ApplyAll(ResetLoading(old(results)), Arrivals(rt, image, arrivals, startTimes, endTimes))
      ensures forall i :: 0 <= i < |results| ==>
        && Settled(results[i])
        && results[i] == Resolve(ResetEntry(old(results)[i]),
             Resolution(AllTechniques[i], Invoke(rt, image, AllTechniques[i], startTimes(AllTechniques[i]), endTimes(AllTechniques[i]))))
    {
      ghost var before := results;
      var dispatched := Submit(image);
      // Every dispatched request settles, once.
      assert forall t :: t in dispatched ==> t in arrivals;
      RunRequests(rt, image, arrivals, startTimes, endTimes);
      FinishAll();
      SelectionOutcome(before, rt, image, arrivals, startTimes, endTimes);
    }
  }

  /** Each cell ends with the outcome of its own technique's invocation, whatever the arrival order. */
  lemma SelectionOutcome(rs: seq<TechniqueResult>, rt: Runtime, image: string, arrivals: seq<Technique>,
                         startTimes: Technique -> real, endTimes: Technique -> real)
    requires WellFormed(rs)
    requires OncePerTechnique(arrivals)
    ensures var r := ApplyAll(ResetLoading(rs), Arrivals(rt, image, arrivals, startTimes, endTimes));
      forall i :: 0 <= i < |r| ==>
        && Settled(r[i])
        && r[i] == Resolve(ResetEntry(rs[i]),
             Resolution(AllTechniques[i], Invoke(rt, image, AllTechniques[i], startTimes(AllTechniques[i]), endTimes(AllTechniques[i]))))
  {
    var evs := Arrivals(rt, image, arrivals, startTimes, endTimes);
    BatchSettles(rs, evs);
    forall i | 0 <= i < |rs|
      ensures ApplyAll(ResetLoading(rs), evs)[i] == Resolve(ResetEntry(rs[i]),
           Resolution(AllTechniques[i], Invoke(rt, image, AllTechniques[i], startTimes(AllTechniques[i]), endTimes(AllTechniques[i]))))
    {
      var t := AllTechniques[i];
      assert t in arrivals;
      var m :| 0 <= m < |arrivals| && arrivals[m] == t;
      assert evs[m].technique == rs[i].technique;
    }
  }

  /** Without a key, every technique's cell ends with the missing-key message and no data. */
  lemma NoKeyEveryTechniqueFails(rt: Runtime, rs: seq<TechniqueResult>, image: string, arrivals: seq<Technique>,
                                 startTimes: Technique -> real, endTimes: Technique -> real)
    requires rt.apiKey == ""
    requires WellFormed(rs)
    requires OncePerTechnique(arrivals)
    ensures var r := ApplyAll(ResetLoading(rs), Arrivals(rt, image, arrivals, startTimes, endTimes));
      forall i :: 0 <= i < |r| ==> r[i].error == Some(ApiKeyMissing) && r[i].data.None? && !r[i].loading
  {
    var evs := Arrivals(rt, image, arrivals, startTimes, endTimes);
    BatchSettles(rs, evs);
    forall i | 0 <= i < |rs|
      ensures ApplyAll(ResetLoading(rs), evs)[i].error == Some(ApiKeyMissing)
    {
      var t := rs[i].technique;
      assert t in arrivals;
      var m :| 0 <= m < |arrivals| && arrivals[m] == t;
      assert evs[m].technique == t;
    }
  }
}
