/** The Cucumber result tree that setStats (lib/generator.js) walks, and the
    specification of what the pass computes: per-step classification,
    per-element counters and time, per-element bucket, per-feature roll-up
    and the suite totals. The imperative pass in module Generator is proved
    against these functions; the lemmas here state what they mean. */
module StatsModel {
  import opened JsValues
  import Screenshots

  // ---------------------------------------------------------------------
  // Buckets and counters
  // ---------------------------------------------------------------------

  /** The five counters a step or an element can land in. `NotDefined` is
      the bucket of steps whose status is "undefined". */
  datatype Bucket = NotDefined | Failed | Skipped | Pending | Passed

  /** Position of a bucket in the order in which an element is classified:
      the first non-zero counter in this order wins. */
  function Rank(b: Bucket): nat
  {
    match b
    case NotDefined => 0
    case Failed => 1
    case Skipped => 2
    case Pending => 3
    case Passed => 4
  }

  /** The counters `passed`, `failed`, `notdefined`, `skipped`, `pending`
      that setStats writes on every element and, under `scenarios`, on every
      feature. */
  datatype Counts = Counts(passed: nat, failed: nat, notdefined: nat, skipped: nat, pending: nat) {

    function Get(b: Bucket): nat
    {
      match b
      case Passed => passed
      case Failed => failed
      case NotDefined => notdefined
      case Skipped => skipped
      case Pending => pending
    }

    function Total(): nat
    {
      passed + failed + notdefined + skipped + pending
    }

    /** `++` on the counter of bucket `b`. */
    function Bump(b: Bucket): (r: Counts)
      ensures r.Get(b) == Get(b) + 1
      ensures forall o :: o != b ==> r.Get(o) == Get(o)
    {
      match b
      case Passed => this.(passed := passed + 1)
      case Failed => this.(failed := failed + 1)
      case NotDefined => this.(notdefined := notdefined + 1)
      case Skipped => this.(skipped := skipped + 1)
      case Pending => this.(pending := pending + 1)
    }

    function Plus(c: Counts): Counts
    {
      Counts(passed + c.passed, failed + c.failed, notdefined + c.notdefined,
             skipped + c.skipped, pending + c.pending)
    }
  }

  const Zero: Counts := Counts(0, 0, 0, 0, 0)

  lemma PlusZero(c: Counts)
    ensures c.Plus(Zero) == c
  {
  }

  lemma ZeroPlus(c: Counts)
    ensures Zero.Plus(c) == c
  {
  }

  /** Every `++` adds one to the sum of the counters. */
  lemma BumpTotal(c: Counts, b: Bucket)
    ensures c.Bump(b).Total() == c.Total() + 1
  {
  }

  // ---------------------------------------------------------------------
  // The result tree
  // ---------------------------------------------------------------------

  /** An embedded attachment; its base64 `data` is what would be decoded and
      written to disk, which is not modelled. */
  datatype Embedding = Embedding(data: string)

  /** `step.result`: the status string and the optional duration (integer
      nanoseconds). */
  datatype StepResult = StepResult(status: string, duration: Option<int>)

  /** A step; `image` is the property setStats writes when the step has
      embeddings. */
  datatype Step = Step(result: Option<StepResult>, embeddings: Option<seq<Embedding>>, image: Option<string>)

  /** A scenario; `counts` and `time` are the properties setStats writes
      (their previous values are irrelevant: they are reset first). */
  datatype Element = Element(name: Option<string>, steps: seq<Step>, counts: Counts, time: int)

  /** A feature; `scenarios` and `time` are written by setStats. */
  datatype Feature = Feature(elements: Option<seq<Element>>, scenarios: Counts, time: int)

  /** The prefix of a sequence up to its length is the sequence itself; the
      loops of module Generator end with it. */
  lemma WholePrefix<T>(s: seq<T>)
    ensures s[..|s|] == s
  {
  }

  /** A non-empty sequence is its prefix followed by its last element. */
  lemma SplitLast<T>(s: seq<T>)
    requires s != []
    ensures s == s[..|s| - 1] + [s[|s| - 1]]
  {
  }

  /** The prefixes of `s + [x]` up to and including `x`. */
  lemma SnocPrefix<T>(s: seq<T>, x: T)
    ensures (s + [x])[..|s|] == s && (s + [x])[..|s| + 1] == s + [x] && (s + [x])[|s|] == x
  {
  }

  /** Dropping the head commutes with appending at the end. */
  lemma DropSnoc<T>(s: seq<T>, x: T)
    requires s != []
    ensures (s + [x])[1..] == s[1..] + [x]
  {
  }

  // ---------------------------------------------------------------------
  // Steps
  // ---------------------------------------------------------------------

  /** The counter a step with a result lands in: exact string comparison
      against the four recognised statuses, everything else is skipped. */
  function StatusBucket(status: string): (b: Bucket)
    ensures b == Passed <==> status == "passed"
    ensures b == Failed <==> status == "failed"
    ensures b == NotDefined <==> status == "undefined"
    ensures b == Pending <==> status == "pending"
    ensures b == Skipped <==> status !in ["passed", "failed", "undefined", "pending"]
  {
    if status == "passed" then Passed
    else if status == "failed" then Failed
    else if status == "undefined" then NotDefined
    else if status == "pending" then Pending
    else Skipped
  }

  /** The element counters after processing `steps`, in order. */
  function Tally(steps: seq<Step>): Counts
  {
    if steps == [] then Zero
    else
      var c := Tally(steps[..|steps| - 1]);
      var st := steps[|steps| - 1];
      if st.result.Some? then c.Bump(StatusBucket(st.result.value.status)) else c
  }

  /** The element time after processing `steps`, in order. */
  function StepTime(steps: seq<Step>): int
  {
    if steps == [] then 0
    else
      var t := StepTime(steps[..|steps| - 1]);
      var st := steps[|steps| - 1];
      if st.result.Some? && Truthy(st.result.value.duration) then t + st.result.value.duration.value else t
  }

  /** Processing step `i` after the steps before it. */
  lemma StepPrefix(steps: seq<Step>, i: nat)
    requires i < |steps|
    ensures Tally(steps[..i + 1]) == if steps[i].result.Some? then Tally(steps[..i]).Bump(StatusBucket(steps[i].result.value.status)) else Tally(steps[..i])
    ensures StepTime(steps[..i + 1]) == if steps[i].result.Some? && Truthy(steps[i].result.value.duration) then StepTime(steps[..i]) + steps[i].result.value.duration.value else StepTime(steps[..i])
  {
    assert steps[..i + 1][..i] == steps[..i];
  }

  /** Reference view: how many steps carry a result. */
  function CountResults(steps: seq<Step>): nat
  {
    if steps == [] then 0
    else (if steps[0].result.Some? then 1 else 0) + CountResults(steps[1..])
  }

  /** Reference view: how many steps carry a result whose status lands in
      `b`. */
  function CountStatus(steps: seq<Step>, b: Bucket): nat
  {
    if steps == [] then 0
    else
      (if steps[0].result.Some? && StatusBucket(steps[0].result.value.status) == b then 1 else 0)
      + CountStatus(steps[1..], b)
  }

  /** Reference view: the sum of the truthy durations of the steps that carry
      a result. */
  function SumDurations(steps: seq<Step>): int
  {
    if steps == [] then 0
    else
      (if steps[0].result.Some? && Truthy(steps[0].result.value.duration) then steps[0].result.value.duration.value else 0)
      + SumDurations(steps[1..])
  }

  lemma {:induction false} CountResultsSnoc(s: seq<Step>, x: Step)
    ensures CountResults(s + [x]) == CountResults(s) + (if x.result.Some? then 1 else 0)
  {
    if s == [] {
      assert s + [x] == [x];
    } else {
      DropSnoc(s, x);
      CountResultsSnoc(s[1..], x);
    }
  }

  lemma {:induction false} CountStatusSnoc(s: seq<Step>, x: Step, b: Bucket)
    ensures CountStatus(s + [x], b) == CountStatus(s, b) + (if x.result.Some? && StatusBucket(x.result.value.status) == b then 1 else 0)
  {
    if s == [] {
      assert s + [x] == [x];
    } else {
      DropSnoc(s, x);
      CountStatusSnoc(s[1..], x, b);
    }
  }

  lemma {:induction false} SumDurationsSnoc(s: seq<Step>, x: Step)
    ensures SumDurations(s + [x]) == SumDurations(s) + (if x.result.Some? && Truthy(x.result.value.duration) then x.result.value.duration.value else 0)
  {
    if s == [] {
      assert s + [x] == [x];
    } else {
      DropSnoc(s, x);
      SumDurationsSnoc(s[1..], x);
    }
  }

  /** Each element counter equals the number of steps WITH a result whose
      status lands in that counter; steps without a result count nowhere. */
  lemma {:induction false} TallyCountsResults(steps: seq<Step>, b: Bucket)
    ensures Tally(steps).Get(b) == CountStatus(steps, b)
  {
    if steps != [] {
      var init, st := steps[..|steps| - 1], steps[|steps| - 1];
      SplitLast(steps);
      TallyCountsResults(init, b);
      CountStatusSnoc(init, st, b);
    }
  }

  /** The five element counters sum to the number of steps with a result. */
  lemma {:induction false} TallyTotal(steps: seq<Step>)
    ensures Tally(steps).Total() == CountResults(steps)
  {
    if steps != [] {
      var init, st := steps[..|steps| - 1], steps[|steps| - 1];
      SplitLast(steps);
      TallyTotal(init);
      CountResultsSnoc(init, st);
      if st.result.Some? {
        BumpTotal(Tally(init), StatusBucket(st.result.value.status));
      }
    }
  }

  /** The element time is the sum of the truthy durations of the steps with a
      result: steps without a result, or with an absent or zero duration, add
      nothing. */
  lemma {:induction false} StepTimeSumsResults(steps: seq<Step>)
    ensures StepTime(steps) == SumDurations(steps)
  {
    if steps != [] {
      var init, st := steps[..|steps| - 1], steps[|steps| - 1];
      SplitLast(steps);
      StepTimeSumsResults(init);
      SumDurationsSnoc(init, st);
    }
  }

  /** Worked example: an unknown status is counted as skipped and nothing
      else. */
  lemma UnknownStatusIsSkipped(st: Step)
    requires st.result == Some(StepResult("weirdstatus", None))
    ensures Tally([st]) == Zero.Bump(Skipped)
  {
    assert [st][..0] == [];
    assert StatusBucket("weirdstatus") == Skipped;
  }

  // ---------------------------------------------------------------------
  // Elements
  // ---------------------------------------------------------------------

  /** The scenario bucket an element with counters `c` is counted in: the
      first non-zero counter in the order notdefined, failed, skipped,
      pending, passed; none at all when every counter is zero. */
  function Classify(c: Counts): (r: Option<Bucket>)
    ensures r.None? <==> c == Zero
    ensures r.Some? ==> c.Get(r.value) > 0
    ensures r.Some? ==> forall b :: Rank(b) < Rank(r.value) ==> c.Get(b) == 0
  {
    if c.notdefined > 0 then Some(NotDefined)
    else if c.failed > 0 then Some(Failed)
    else if c.skipped > 0 then Some(Skipped)
    else if c.pending > 0 then Some(Pending)
    else if c.passed > 0 then Some(Passed)
    else None
  }

  /** An element is classified exactly when one of its counters is non-zero. */
  lemma ClassifiedIff(c: Counts)
    ensures Classify(c).Some? <==> c.Total() > 0
  {
  }

  /** Converse of Classify's contract: a non-zero bucket with all buckets of
      higher priority at zero is the one chosen. */
  lemma ClassifyFirstNonZero(c: Counts, b: Bucket)
    requires c.Get(b) > 0
    requires forall o :: Rank(o) < Rank(b) ==> c.Get(o) == 0
    ensures Classify(c) == Some(b)
  {
    assert Rank(NotDefined) == 0 && Rank(Failed) == 1 && Rank(Skipped) == 2 && Rank(Pending) == 3;
  }

  /** Worked example: notdefined=1, failed=1, passed=1 counts only as
      notdefined. */
  lemma PriorityExample()
    ensures Classify(Counts(1, 1, 1, 0, 0)) == Some(NotDefined)
  {
  }

  /** The bucket element `e` is counted in, computed from its steps. */
  function Outcome(e: Element): Option<Bucket>
  {
    Classify(Tally(e.steps))
  }

  /** A step as setStats leaves it: every embedding sets `image` to the same
      path, so a step with at least one embedding gets that path and any
      other step keeps its previous `image`. */
  function AnnotateStep(st: Step, name: Option<string>): Step
  {
    if st.embeddings.Some? && st.embeddings.value != [] then st.(image := Some(Screenshots.ImageRef(name)))
    else st
  }

  /** Every step of a scenario called `name`, as setStats leaves it. */
  function AnnotateSteps(steps: seq<Step>, name: Option<string>): (r: seq<Step>)
    ensures |r| == |steps|
    ensures forall k :: 0 <= k < |steps| ==> r[k] == AnnotateStep(steps[k], name)
  {
    if steps == [] then []
    else AnnotateSteps(steps[..|steps| - 1], name) + [AnnotateStep(steps[|steps| - 1], name)]
  }

  /** An element as setStats leaves it. */
  function AnnotateElement(e: Element): Element
  {
    e.(steps := AnnotateSteps(e.steps, e.name),
       counts := Tally(e.steps),
       time := StepTime(e.steps))
  }

  // ---------------------------------------------------------------------
  // Features
  // ---------------------------------------------------------------------

  /** `feature.scenarios` after processing elements `es`, in order. */
  function FeatureScenarios(es: seq<Element>): Counts
  {
    if es == [] then Zero
    else
      var c := FeatureScenarios(es[..|es| - 1]);
      var o := Outcome(es[|es| - 1]);
      if o.Some? then c.Bump(o.value) else c
  }

  /** `feature.time` after processing elements `es`: only positive element
      times are added. */
  function FeatureTime(es: seq<Element>): (t: int)
    ensures t >= 0
  {
    if es == [] then 0
    else
      var t := FeatureTime(es[..|es| - 1]);
      var et := StepTime(es[|es| - 1].steps);
      if et > 0 then t + et else t
  }

  /** The shared `isFailed` flag after processing elements `es` (it was reset
      to false when the feature started). */
  predicate FeatureFailed(es: seq<Element>)
  {
    es != [] && (FeatureFailed(es[..|es| - 1]) || Outcome(es[|es| - 1]) == Some(Failed))
  }

  /** Processing element `j` after the elements before it. */
  lemma ElementPrefix(es: seq<Element>, j: nat)
    requires j < |es|
    ensures FeatureScenarios(es[..j + 1]) == if Outcome(es[j]).Some? then FeatureScenarios(es[..j]).Bump(Outcome(es[j]).value) else FeatureScenarios(es[..j])
    ensures FeatureTime(es[..j + 1]) == if StepTime(es[j].steps) > 0 then FeatureTime(es[..j]) + StepTime(es[j].steps) else FeatureTime(es[..j])
    ensures FeatureFailed(es[..j + 1]) == (FeatureFailed(es[..j]) || Outcome(es[j]) == Some(Failed))
  {
    assert es[..j + 1][..j] == es[..j];
  }

  /** Every element of a feature, as setStats leaves it. */
  function AnnotateElements(es: seq<Element>): (r: seq<Element>)
    ensures |r| == |es|
    ensures forall k :: 0 <= k < |es| ==> r[k] == AnnotateElement(es[k])
  {
    if es == [] then []
    else AnnotateElements(es[..|es| - 1]) + [AnnotateElement(es[|es| - 1])]
  }

  /** A feature as setStats leaves it. A feature without `elements` keeps
      zeroed scenario counters and time. */
  function AnnotateFeature(f: Feature): Feature
  {
    match f.elements
    case None => f.(scenarios := Zero, time := 0)
    case Some(es) =>
      f.(elements := Some(AnnotateElements(es)),
         scenarios := FeatureScenarios(es),
         time := FeatureTime(es))
  }

  /** Reference view: how many of `es` are classified into bucket `b`. */
  function CountOutcome(es: seq<Element>, b: Bucket): nat
  {
    if es == [] then 0
    else (if Outcome(es[0]) == Some(b) then 1 else 0) + CountOutcome(es[1..], b)
  }

  /** Reference view: how many of `es` have at least one step with a result. */
  function CountClassified(es: seq<Element>): nat
  {
    if es == [] then 0
    else (if Tally(es[0].steps).Total() > 0 then 1 else 0) + CountClassified(es[1..])
  }

  /** Reference view: the sum of the positive element times of `es`. */
  function SumPositiveTimes(es: seq<Element>): int
  {
    if es == [] then 0
    else (if StepTime(es[0].steps) > 0 then StepTime(es[0].steps) else 0) + SumPositiveTimes(es[1..])
  }

  lemma {:induction false} CountOutcomeSnoc(es: seq<Element>, e: Element, b: Bucket)
    ensures CountOutcome(es + [e], b) == CountOutcome(es, b) + (if Outcome(e) == Some(b) then 1 else 0)
  {
    if es == [] {
      assert es + [e] == [e];
    } else {
      DropSnoc(es, e);
      CountOutcomeSnoc(es[1..], e, b);
    }
  }

  lemma {:induction false} CountClassifiedSnoc(es: seq<Element>, e: Element)
    ensures CountClassified(es + [e]) == CountClassified(es) + (if Tally(e.steps).Total() > 0 then 1 else 0)
  {
    if es == [] {
      assert es + [e] == [e];
    } else {
      DropSnoc(es, e);
      CountClassifiedSnoc(es[1..], e);
    }
  }

  lemma {:induction false} SumPositiveTimesSnoc(es: seq<Element>, e: Element)
    ensures SumPositiveTimes(es + [e]) == SumPositiveTimes(es) + (if StepTime(e.steps) > 0 then StepTime(e.steps) else 0)
  {
    if es == [] {
      assert es + [e] == [e];
    } else {
      DropSnoc(es, e);
      SumPositiveTimesSnoc(es[1..], e);
    }
  }

  /** Each feature scenario counter is the number of its elements classified
      into that bucket: every element increments at most one bucket. */
  lemma {:induction false} FeatureScenariosCountOutcomes(es: seq<Element>, b: Bucket)
    ensures FeatureScenarios(es).Get(b) == CountOutcome(es, b)
  {
    if es != [] {
      var init, e := es[..|es| - 1], es[|es| - 1];
      SplitLast(es);
      FeatureScenariosCountOutcomes(init, b);
      CountOutcomeSnoc(init, e, b);
    }
  }

  /** The feature scenario counters sum to the number of elements with at
      least one step result: an element whose counters are all zero is in no
      bucket. */
  lemma {:induction false} FeatureScenariosTotal(es: seq<Element>)
    ensures FeatureScenarios(es).Total() == CountClassified(es)
  {
    if es != [] {
      var init, e := es[..|es| - 1], es[|es| - 1];
      SplitLast(es);
      FeatureScenariosTotal(init);
      CountClassifiedSnoc(init, e);
      ClassifiedIff(Tally(e.steps));
      if Outcome(e).Some? {
        BumpTotal(FeatureScenarios(init), Outcome(e).value);
      }
    }
  }

  /** The feature time is the sum of the element times that are positive. */
  lemma {:induction false} FeatureTimeSumsPositive(es: seq<Element>)
    ensures FeatureTime(es) == SumPositiveTimes(es)
  {
    if es != [] {
      var init, e := es[..|es| - 1], es[|es| - 1];
      SplitLast(es);
      FeatureTimeSumsPositive(init);
      SumPositiveTimesSnoc(init, e);
    }
  }

  /** The feature is failed exactly when one of its elements is classified
      into the failed bucket; an element that also has undefined steps is
      classified as notdefined and does not set the flag. */
  lemma {:induction false} FeatureFailedIff(es: seq<Element>)
    ensures FeatureFailed(es) <==> exists k :: 0 <= k < |es| && Outcome(es[k]) == Some(Failed)
  {
    if es != [] {
      var init := es[..|es| - 1];
      FeatureFailedIff(init);
      if FeatureFailed(init) {
        var k :| 0 <= k < |init| && Outcome(init[k]) == Some(Failed);
        assert es[k] == init[k];
      }
      if exists k :: 0 <= k < |es| && Outcome(es[k]) == Some(Failed) {
        var k :| 0 <= k < |es| && Outcome(es[k]) == Some(Failed);
        if k < |init| {
          assert init[k] == es[k];
        }
      }
    }
  }

  /** Worked example: an element with an undefined and a failed step does
      not make its feature failed. */
  lemma UndefinedMasksFailed(e: Element)
    requires e.steps == [Step(Some(StepResult("undefined", None)), None, None),
                         Step(Some(StepResult("failed", None)), None, None)]
    ensures Outcome(e) == Some(NotDefined)
    ensures !FeatureFailed([e])
  {
    var s := e.steps;
    assert s[..1][..0] == [];
    assert StatusBucket(s[0].result.value.status) == NotDefined;
    assert Tally(s[..1]) == Zero.Bump(NotDefined);
    assert s[..|s| - 1] == s[..1];
    assert Tally(s) == Zero.Bump(NotDefined).Bump(StatusBucket(s[1].result.value.status));
    assert [e][..0] == [];
  }

  // ---------------------------------------------------------------------
  // The suite
  // ---------------------------------------------------------------------

  /** `suite.scenarios`: four counters initialised to 0, and `pending`, which
      is never initialised. */
  datatype SuiteScenarios = SuiteScenarios(passed: nat, failed: nat, skipped: nat, notdefined: nat, pending: Counter) {

    /** `suite.scenarios.<b>++` */
    function Bump(b: Bucket): SuiteScenarios
    {
      match b
      case Passed => this.(passed := passed + 1)
      case Failed => this.(failed := failed + 1)
      case NotDefined => this.(notdefined := notdefined + 1)
      case Skipped => this.(skipped := skipped + 1)
      case Pending => this.(pending := pending.Incremented())
    }

    /** The counters after adding the feature-level counts `c` one by one. */
    function Add(c: Counts): SuiteScenarios
    {
      SuiteScenarios(passed + c.passed, failed + c.failed, skipped + c.skipped,
                     notdefined + c.notdefined, pending.Plus(c.pending))
    }
  }

  /** `suite.scenarios` as the suite object is created. */
  const InitialScenarios: SuiteScenarios := SuiteScenarios(0, 0, 0, 0, Undefined)

  /** `featuresSummary` (`data.summary`): the shared flag and feature counts. */
  datatype Summary = Summary(isFailed: bool, passed: nat, failed: nat)

  const InitialSummary: Summary := Summary(false, 0, 0)

  /** A feature with `elements` that setStats counts as failed. */
  predicate IsFailedFeature(f: Feature)
  {
    f.elements.Some? && FeatureFailed(f.elements.value)
  }

  /** A feature with `elements` that setStats counts as passed. */
  predicate IsPassedFeature(f: Feature)
  {
    f.elements.Some? && !FeatureFailed(f.elements.value)
  }

  /** Increment of `suite.passed` over features `fs`. */
  function PassedFeatures(fs: seq<Feature>): nat
  {
    if fs == [] then 0
    else PassedFeatures(fs[..|fs| - 1]) + (if IsPassedFeature(fs[|fs| - 1]) then 1 else 0)
  }

  /** Increment of `suite.failed` over features `fs`. */
  function FailedFeatures(fs: seq<Feature>): nat
  {
    if fs == [] then 0
    else FailedFeatures(fs[..|fs| - 1]) + (if IsFailedFeature(fs[|fs| - 1]) then 1 else 0)
  }

  /** Increment of `suite.totalTime` over features `fs`. */
  function TotalTime(fs: seq<Feature>): (t: int)
    ensures t >= 0
  {
    if fs == [] then 0
    else TotalTime(fs[..|fs| - 1]) + AnnotateFeature(fs[|fs| - 1]).time
  }

  /** The scenario counts added to `suite.scenarios` over features `fs`. */
  function ScenarioTotals(fs: seq<Feature>): Counts
  {
    if fs == [] then Zero
    else ScenarioTotals(fs[..|fs| - 1]).Plus(AnnotateFeature(fs[|fs| - 1]).scenarios)
  }

  /** The shared flag after processing features `fs`: it is reset for every
      feature, so only the last feature decides it. */
  function FinalFlag(flag: bool, fs: seq<Feature>): bool
  {
    if fs == [] then flag else IsFailedFeature(fs[|fs| - 1])
  }

  /** All features as setStats leaves them. */
  function AnnotateFeatures(fs: seq<Feature>): (r: seq<Feature>)
    ensures |r| == |fs|
    ensures forall k :: 0 <= k < |fs| ==> r[k] == AnnotateFeature(fs[k])
  {
    if fs == [] then []
    else AnnotateFeatures(fs[..|fs| - 1]) + [AnnotateFeature(fs[|fs| - 1])]
  }

  /** One more feature: each suite increment grows by that feature's share,
      and the flag is that feature's verdict. */
  lemma SuitePrefix(flag: bool, fs: seq<Feature>, i: nat)
    requires i < |fs|
    ensures PassedFeatures(fs[..i + 1]) == PassedFeatures(fs[..i]) + (if IsPassedFeature(fs[i]) then 1 else 0)
    ensures FailedFeatures(fs[..i + 1]) == FailedFeatures(fs[..i]) + (if IsFailedFeature(fs[i]) then 1 else 0)
    ensures TotalTime(fs[..i + 1]) == TotalTime(fs[..i]) + AnnotateFeature(fs[i]).time
    ensures FinalFlag(flag, fs[..i + 1]) == IsFailedFeature(fs[i])
  {
    assert fs[..i + 1][..i] == fs[..i];
  }

  lemma ScenarioTotalsPrefix(fs: seq<Feature>, i: nat)
    requires i < |fs|
    ensures ScenarioTotals(fs[..i + 1]) == ScenarioTotals(fs[..i]).Plus(AnnotateFeature(fs[i]).scenarios)
  {
    assert fs[..i + 1][..i] == fs[..i];
  }

  /** Adding the counts of one more feature to the suite counters. */
  lemma SuiteScenariosPrefix(s: SuiteScenarios, fs: seq<Feature>, i: nat)
    requires i < |fs|
    ensures s.Add(ScenarioTotals(fs[..i + 1])) == s.Add(ScenarioTotals(fs[..i])).Add(AnnotateFeature(fs[i]).scenarios)
  {
    ScenarioTotalsPrefix(fs, i);
    AddPlus(s, ScenarioTotals(fs[..i]), AnnotateFeature(fs[i]).scenarios);
  }

  /** Reference view: how many features of `fs` have `elements`. */
  function CountWithElements(fs: seq<Feature>): nat
  {
    if fs == [] then 0
    else (if fs[0].elements.Some? then 1 else 0) + CountWithElements(fs[1..])
  }

  lemma {:induction false} CountWithElementsSnoc(fs: seq<Feature>, f: Feature)
    ensures CountWithElements(fs + [f]) == CountWithElements(fs) + (if f.elements.Some? then 1 else 0)
  {
    if fs == [] {
      assert fs + [f] == [f];
    } else {
      DropSnoc(fs, f);
      CountWithElementsSnoc(fs[1..], f);
    }
  }

  /** Every feature with `elements` (an empty array included) is counted as
      exactly one of passed or failed; a feature without `elements` is
      counted as neither. */
  lemma {:induction false} FeatureCountsPartition(fs: seq<Feature>)
    ensures PassedFeatures(fs) + FailedFeatures(fs) == CountWithElements(fs)
  {
    if fs != [] {
      var init, f := fs[..|fs| - 1], fs[|fs| - 1];
      SplitLast(fs);
      FeatureCountsPartition(init);
      CountWithElementsSnoc(init, f);
    }
  }

  /** A feature without `elements` contributes nothing to any suite total. */
  lemma NoElementsContributesNothing(fs: seq<Feature>, f: Feature)
    requires f.elements.None?
    ensures PassedFeatures(fs + [f]) == PassedFeatures(fs)
    ensures FailedFeatures(fs + [f]) == FailedFeatures(fs)
    ensures TotalTime(fs + [f]) == TotalTime(fs)
    ensures ScenarioTotals(fs + [f]) == ScenarioTotals(fs)
  {
    SnocPrefix(fs, f);
    SuitePrefix(false, fs + [f], |fs|);
    NoElementsAddsZero(fs, f);
  }

  lemma NoElementsAddsZero(fs: seq<Feature>, f: Feature)
    requires f.elements.None?
    ensures ScenarioTotals(fs + [f]) == ScenarioTotals(fs)
  {
    SnocPrefix(fs, f);
    ScenarioTotalsPrefix(fs + [f], |fs|);
    assert AnnotateFeature(f).scenarios == Zero;
    PlusZero(ScenarioTotals(fs));
  }

  /** Adding one element's bucket to the feature counts and then folding
      them into the suite is bumping the suite counter directly. */
  lemma AddBump(s: SuiteScenarios, c: Counts, b: Bucket)
    ensures s.Add(c.Bump(b)) == s.Add(c).Bump(b)
  {
  }

  lemma AddPlus(s: SuiteScenarios, c: Counts, d: Counts)
    ensures s.Add(c.Plus(d)) == s.Add(c).Add(d)
  {
    PlusPlus(s.pending, c.pending, d.pending);
  }

  /** The total of `k` runs, each adding `x`. */
  function Repeat(x: int, k: nat): (r: int)
    ensures x >= 0 ==> r >= 0
  {
    if k == 0 then 0 else Repeat(x, k - 1) + x
  }

  lemma {:induction false} RepeatIsProduct(x: int, k: nat)
    ensures Repeat(x, k) == k * x
  {
    if k > 0 {
      RepeatIsProduct(x, k - 1);
    }
  }

  /** `suite.scenarios.pending` is never a number: it stays absent while no
      element is classified as pending and is NaN as soon as one is. */
  lemma SuitePendingNeverCounts(c: Counts)
    ensures InitialScenarios.Add(c).pending == if c.pending == 0 then Undefined else NaN
  {
    PlusClosedForm(Undefined, c.pending);
  }

  // ---------------------------------------------------------------------
  // Running the pass again
  // ---------------------------------------------------------------------

  /** The counters and time of a step sequence depend only on the results. */
  lemma {:induction false} SameResultsSameStats(a: seq<Step>, b: seq<Step>)
    requires |a| == |b|
    requires forall k :: 0 <= k < |a| ==> a[k].result == b[k].result
    ensures Tally(a) == Tally(b) && StepTime(a) == StepTime(b)
  {
    if a != [] {
      SameResultsSameStats(a[..|a| - 1], b[..|b| - 1]);
    }
  }

  /** Annotating an element keeps every step result, hence its statistics. */
  lemma AnnotateElementKeepsStats(e: Element)
    ensures Tally(AnnotateElement(e).steps) == Tally(e.steps)
    ensures StepTime(AnnotateElement(e).steps) == StepTime(e.steps)
    ensures AnnotateElement(e).name == e.name
  {
    SameResultsSameStats(AnnotateElement(e).steps, e.steps);
  }

  lemma AnnotateElementIdempotent(e: Element)
    ensures AnnotateElement(AnnotateElement(e)) == AnnotateElement(e)
  {
    AnnotateElementKeepsStats(e);
  }

  /** The feature roll-up depends only on each element's bucket and time. */
  lemma {:induction false} SameElementStatsSameRollup(a: seq<Element>, b: seq<Element>)
    requires |a| == |b|
    requires forall k :: 0 <= k < |a| ==> Tally(a[k].steps) == Tally(b[k].steps) && StepTime(a[k].steps) == StepTime(b[k].steps)
    ensures FeatureScenarios(a) == FeatureScenarios(b)
    ensures FeatureTime(a) == FeatureTime(b)
    ensures FeatureFailed(a) == FeatureFailed(b)
  {
    if a != [] {
      SameElementStatsSameRollup(a[..|a| - 1], b[..|b| - 1]);
    }
  }

  lemma AnnotateFeatureIdempotent(f: Feature)
    ensures AnnotateFeature(AnnotateFeature(f)) == AnnotateFeature(f)
    ensures IsPassedFeature(AnnotateFeature(f)) == IsPassedFeature(f)
    ensures IsFailedFeature(AnnotateFeature(f)) == IsFailedFeature(f)
  {
    if f.elements.Some? {
      var es := f.elements.value;
      var es' := AnnotateElements(es);
      var g := AnnotateFeature(f);
      assert g == f.(elements := Some(es'), scenarios := FeatureScenarios(es), time := FeatureTime(es));
      forall k | 0 <= k < |es|
        ensures Tally(es'[k].steps) == Tally(es[k].steps) && StepTime(es'[k].steps) == StepTime(es[k].steps)
        ensures AnnotateElement(es'[k]) == es'[k]
      {
        AnnotateElementKeepsStats(es[k]);
        AnnotateElementIdempotent(es[k]);
      }
      SameElementStatsSameRollup(es', es);
      var es'' := AnnotateElements(es');
      assert es'' == es';
      assert AnnotateFeature(g) == g.(elements := Some(es''), scenarios := FeatureScenarios(es'), time := FeatureTime(es'));
    }
  }

  /** The suite increments depend only on each feature's verdict, time and
      scenario counts. */
  lemma {:induction false} SameFeatureStatsSameTotals(a: seq<Feature>, b: seq<Feature>)
    requires |a| == |b|
    requires forall k :: 0 <= k < |a| ==> AnnotateFeature(a[k]) == AnnotateFeature(b[k])
    requires forall k :: 0 <= k < |a| ==> IsPassedFeature(a[k]) == IsPassedFeature(b[k]) && IsFailedFeature(a[k]) == IsFailedFeature(b[k])
    ensures PassedFeatures(a) == PassedFeatures(b)
    ensures FailedFeatures(a) == FailedFeatures(b)
    ensures TotalTime(a) == TotalTime(b)
    ensures ScenarioTotals(a) == ScenarioTotals(b)
  {
    if a != [] {
      SameFeatureStatsSameTotals(a[..|a| - 1], b[..|b| - 1]);
    }
  }

  /** Running setStats on its own output: the tree does not change and the
      suite increments are the same as on the first run, so totals that are
      not reset accumulate. */
  lemma RerunSameIncrements(fs: seq<Feature>)
    ensures AnnotateFeatures(AnnotateFeatures(fs)) == AnnotateFeatures(fs)
    ensures PassedFeatures(AnnotateFeatures(fs)) == PassedFeatures(fs)
    ensures FailedFeatures(AnnotateFeatures(fs)) == FailedFeatures(fs)
    ensures TotalTime(AnnotateFeatures(fs)) == TotalTime(fs)
    ensures ScenarioTotals(AnnotateFeatures(fs)) == ScenarioTotals(fs)
    ensures FinalFlag(false, AnnotateFeatures(fs)) == FinalFlag(false, fs)
  {
    var fs' := AnnotateFeatures(fs);
    forall k | 0 <= k < |fs|
      ensures AnnotateFeature(fs'[k]) == AnnotateFeature(fs[k])
      ensures IsPassedFeature(fs'[k]) == IsPassedFeature(fs[k]) && IsFailedFeature(fs'[k]) == IsFailedFeature(fs[k])
    {
      AnnotateFeatureIdempotent(fs[k]);
    }
    SameFeatureStatsSameTotals(fs', fs);
  }

  // ---------------------------------------------------------------------
  // A worked run
  // ---------------------------------------------------------------------

  /** A step that carries a result and no embeddings. */
  function ResultStep(status: string, duration: int): Step
  {
    Step(Some(StepResult(status, Some(duration))), None, None)
  }

  /** Scenario A of the worked run: two passed steps of 5 and 3. */
  lemma WorkedScenarioA(sa: seq<Step>)
    requires sa == [ResultStep("passed", 5), ResultStep("passed", 3)]
    ensures Tally(sa) == Counts(2, 0, 0, 0, 0) && StepTime(sa) == 8
  {
    StepPrefix(sa, 0);
    assert sa[..0] == [];
    assert sa[..1][..0] == [] && sa[..|sa| - 1] == sa[..1];
    assert Tally(sa[..1]) == Counts(1, 0, 0, 0, 0) && StepTime(sa[..1]) == 5;
  }

  /** Scenario B of the worked run: one failed step of 2. */
  lemma WorkedScenarioB(sb: seq<Step>)
    requires sb == [ResultStep("failed", 2)]
    ensures Tally(sb) == Counts(0, 1, 0, 0, 0) && StepTime(sb) == 2
  {
    assert sb[..0] == [];
  }

  /** The roll-up of a passed element of time 8 followed by a failed element
      of time 2. */
  lemma WorkedRollup(es: seq<Element>)
    requires |es| == 2
    requires Tally(es[0].steps) == Counts(2, 0, 0, 0, 0) && StepTime(es[0].steps) == 8
    requires Tally(es[1].steps) == Counts(0, 1, 0, 0, 0) && StepTime(es[1].steps) == 2
    ensures FeatureScenarios(es) == Counts(1, 1, 0, 0, 0) && FeatureTime(es) == 10
    ensures FeatureFailed(es)
  {
    assert es[..0] == [] && es[..2] == es;
    assert Outcome(es[0]) == Some(Passed) && Outcome(es[1]) == Some(Failed);
    ElementPrefix(es, 0);
    ElementPrefix(es, 1);
  }

  /** A run over a single feature adds exactly that feature's scenario
      counts. */
  lemma SingleFeatureTotals(f: Feature)
    ensures ScenarioTotals([f]) == AnnotateFeature(f).scenarios
  {
    var fs := [f];
    assert fs[..0] == [] && fs[..1] == fs;
    ScenarioTotalsPrefix(fs, 0);
    ZeroPlus(AnnotateFeature(f).scenarios);
  }

  /** One passed and one failed scenario added to the initial suite
      counters leave `pending` absent. */
  lemma WorkedSuiteScenarios(c: Counts)
    requires c == Counts(1, 1, 0, 0, 0)
    ensures InitialScenarios.Add(c) == SuiteScenarios(1, 1, 0, 0, Undefined)
  {
    PlusClosedForm(Undefined, 0);
  }

  /** The suite increments of a run over one failed feature with two
      scenarios (one passed, one failed) and a time of 10. */
  lemma WorkedSuite(f: Feature)
    requires IsFailedFeature(f)
    requires AnnotateFeature(f).scenarios == Counts(1, 1, 0, 0, 0) && AnnotateFeature(f).time == 10
    ensures PassedFeatures([f]) == 0 && FailedFeatures([f]) == 1 && TotalTime([f]) == 10
    ensures InitialScenarios.Add(ScenarioTotals([f])) == SuiteScenarios(1, 1, 0, 0, Undefined)
  {
    var fs := [f];
    assert fs[..0] == [] && fs[..1] == fs;
    SuitePrefix(false, fs, 0);
    SingleFeatureTotals(f);
    WorkedSuiteScenarios(ScenarioTotals(fs));
  }

  /** One feature with scenario A (two passed steps of 5 and 3) and scenario
      B (one failed step of 2): A is counted as passed, B as failed, the
      feature is failed, and the run adds one failed feature, one passed and
      one failed scenario and a total time of 10 to the suite. */
  lemma WorkedRun(f: Feature, a: Element, b: Element)
    requires a.steps == [ResultStep("passed", 5), ResultStep("passed", 3)]
    requires b.steps == [ResultStep("failed", 2)]
    requires f.elements == Some([a, b])
    ensures AnnotateElement(a).counts == Counts(2, 0, 0, 0, 0) && AnnotateElement(a).time == 8
    ensures AnnotateElement(b).counts == Counts(0, 1, 0, 0, 0) && AnnotateElement(b).time == 2
    ensures AnnotateFeature(f).scenarios == Counts(1, 1, 0, 0, 0) && AnnotateFeature(f).time == 10
    ensures IsFailedFeature(f) && !IsPassedFeature(f)
    ensures PassedFeatures([f]) == 0 && FailedFeatures([f]) == 1 && TotalTime([f]) == 10
    ensures InitialScenarios.Add(ScenarioTotals([f])) == SuiteScenarios(1, 1, 0, 0, Undefined)
  {
    WorkedScenarioA(a.steps);
    WorkedScenarioB(b.steps);
    WorkedRollup([a, b]);
    WorkedSuite(f);
  }
}
