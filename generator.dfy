/** The statistics pass `setStats` of lib/generator.js as the program runs
    it: nested loops over features, elements and steps that overwrite the
    counters of each node and accumulate into the suite object. Each loop is
    proved against the specification functions of module StatsModel. */
module Generator {
  import opened JsValues
  import opened StatsModel
  import Screenshots

  /** The embedding loop of one step: every embedding writes its screenshot
      and sets `step.image` to the same path. */
  method RecordScreenshots(step: Step, scenarioName: Option<string>) returns (r: Step)
    ensures r == AnnotateStep(step, scenarioName)
  {
    r := step;
    if step.embeddings.Some? {
      var embeddings := step.embeddings.value;
      var j := 0;
      while j < |embeddings|
        invariant 0 <= j <= |embeddings|
        invariant r == if j == 0 then step else step.(image := Some(Screenshots.ImageRef(scenarioName)))
      {
        var name := Screenshots.FileName(scenarioName);
        r := r.(image := Some(Screenshots.ImageDirectory + name));
        j := j + 1;
      }
    }
  }

  /** The body of the step loop: record the screenshot path, then, if the
      step has a result, add a truthy duration to the element time and count
      the status with a chain of early returns. */
  method ProcessStep(step: Step, scenarioName: Option<string>, counts: Counts, time: int)
    returns (r: Step, counts': Counts, time': int)
    ensures r == AnnotateStep(step, scenarioName)
    ensures counts' == if step.result.Some? then counts.Bump(StatusBucket(step.result.value.status)) else counts
    ensures time' == if step.result.Some? && Truthy(step.result.value.duration) then time + step.result.value.duration.value else time
  {
    r := RecordScreenshots(step, scenarioName);
    counts', time' := counts, time;
    if step.result.None? {
      return;
    }
    var result := step.result.value;
    if Truthy(result.duration) {
      time' := time + result.duration.value;
    }
    if result.status == "passed" {
      counts' := counts.(passed := counts.passed + 1);
    } else if result.status == "failed" {
      counts' := counts.(failed := counts.failed + 1);
    } else if result.status == "undefined" {
      counts' := counts.(notdefined := counts.notdefined + 1);
    } else if result.status == "pending" {
      counts' := counts.(pending := counts.pending + 1);
    } else {
      counts' := counts.(skipped := counts.skipped + 1);
    }
  }

  /** The body of the element loop: reset the element's counters and time,
      walk its steps and return the element with its new properties. */
  method ProcessElement(element: Element) returns (r: Element)
    ensures r == AnnotateElement(element)
  {
    var counts := Zero;
    var time := 0;
    var scenarioName := element.name;
    var steps := element.steps;
    var i := 0;
    while i < |steps|
      invariant 0 <= i <= |steps| == |element.steps|
      invariant forall k :: 0 <= k < i ==> steps[k] == AnnotateStep(element.steps[k], scenarioName)
      invariant forall k :: i <= k < |steps| ==> steps[k] == element.steps[k]
      invariant counts == Tally(element.steps[..i])
      invariant time == StepTime(element.steps[..i])
    {
      StepPrefix(element.steps, i);
      var step;
      step, counts, time := ProcessStep(steps[i], scenarioName, counts, time);
      steps := steps[i := step];
      i := i + 1;
    }
    WholePrefix(element.steps);
    r := element.(steps := steps, counts := counts, time := time);
  }

  /** The chain of early returns that picks the one bucket an element is
      counted in, from the counters ProcessElement wrote on it. It is the
      program's form of `Classify`, which carries the priority property
      (first non-zero bucket, and its converse `ClassifyFirstNonZero`); this
      method only has to agree with it. */
  method ElementBucket(element: Element) returns (bucket: Option<Bucket>)
    ensures bucket == Classify(element.counts)
  {
    if element.counts.notdefined > 0 {
      return Some(NotDefined);
    }
    if element.counts.failed > 0 {
      return Some(Failed);
    }
    if element.counts.skipped > 0 {
      return Some(Skipped);
    }
    if element.counts.pending > 0 {
      return Some(Pending);
    }
    if element.counts.passed > 0 {
      return Some(Passed);
    }
    return None;
  }

  /** The suite object of lib/generator.js together with the
      `featuresSummary` object attached to its feature array. */
  class Suite {
    var features: seq<Feature>
    var reportAs: Option<string>
    var passed: nat
    var failed: nat
    var totalTime: int
    var scenarios: SuiteScenarios
    var summary: Summary

    /** The suite as `run` builds it around the loaded features, with
        `data.summary` injected. */
    constructor (data: seq<Feature>)
      ensures features == data && reportAs == None
      ensures passed == 0 && failed == 0 && totalTime == 0
      ensures scenarios == InitialScenarios && summary == InitialSummary
    {
      features := data;
      reportAs := None;
      passed := 0;
      failed := 0;
      totalTime := 0;
      scenarios := InitialScenarios;
      summary := InitialSummary;
    }

    /** The body of the feature loop: reset the feature's counters and the
        shared flag, walk its elements (if any) and count the feature as
        passed or failed. A feature without `elements` returns before it is
        counted. */
    method ProcessFeature(feature: Feature) returns (r: Feature)
      modifies this
      ensures r == AnnotateFeature(feature)
      ensures features == old(features) && reportAs == old(reportAs)
      ensures passed == old(passed) + (if IsPassedFeature(feature) then 1 else 0)
      ensures failed == old(failed) + (if IsFailedFeature(feature) then 1 else 0)
      ensures totalTime == old(totalTime) + r.time
      ensures scenarios == old(scenarios).Add(r.scenarios)
      ensures summary.isFailed == IsFailedFeature(feature)
      ensures summary.passed == old(summary.passed) + (if IsPassedFeature(feature) then 1 else 0)
      ensures summary.failed == old(summary.failed) + (if IsFailedFeature(feature) then 1 else 0)
    {
      summary := summary.(isFailed := false);
      if feature.elements.None? {
        r := feature.(scenarios := Zero, time := 0);
        return;
      }
      var elements, featureScenarios, time := ProcessElements(feature.elements.value);
      if summary.isFailed {
        summary := summary.(failed := summary.failed + 1);
        failed := failed + 1;
      } else {
        summary := summary.(passed := summary.passed + 1);
        passed := passed + 1;
      }
      if time != 0 {
        totalTime := totalTime + time;
      }
      r := feature.(elements := Some(elements), scenarios := featureScenarios, time := time);
    }

    /** The tail of the element loop: add a positive element time to the
        feature time and count the element in the bucket ElementBucket picks,
        on the feature and on the suite, raising the shared flag for the
        failed bucket. */
    method CountElement(element: Element, featureScenarios: Counts, featureTime: int)
      returns (featureScenarios': Counts, featureTime': int)
      modifies this
      ensures featureTime' == if element.time > 0 then featureTime + element.time else featureTime
      ensures featureScenarios' == if Classify(element.counts).Some? then featureScenarios.Bump(Classify(element.counts).value) else featureScenarios
      ensures scenarios == if Classify(element.counts).Some? then old(scenarios).Bump(Classify(element.counts).value) else old(scenarios)
      ensures summary.isFailed == (old(summary.isFailed) || Classify(element.counts) == Some(Failed))
      ensures summary.passed == old(summary.passed) && summary.failed == old(summary.failed)
      ensures features == old(features) && reportAs == old(reportAs)
      ensures passed == old(passed) && failed == old(failed) && totalTime == old(totalTime)
    {
      featureScenarios', featureTime' := featureScenarios, featureTime;
      if element.time > 0 {
        featureTime' := featureTime + element.time;
      }
      var bucket := ElementBucket(element);
      if bucket.None? {
        return;
      }
      if bucket == Some(Failed) {
        summary := summary.(isFailed := true);
      }
      featureScenarios' := featureScenarios.Bump(bucket.value);
      scenarios := scenarios.Bump(bucket.value);
    }

    /** One pass of the element loop: annotate element `j` and count it,
        given the counts of the elements before it. */
    method ElementStep(input: seq<Element>, j: nat, elements: seq<Element>, featureScenarios: Counts, time: int,
                       ghost base: SuiteScenarios)
      returns (elements': seq<Element>, featureScenarios': Counts, time': int)
      requires j < |elements| == |input| && elements[j] == input[j]
      requires featureScenarios == FeatureScenarios(input[..j]) && time == FeatureTime(input[..j])
      requires summary.isFailed == FeatureFailed(input[..j])
      requires scenarios == base.Add(featureScenarios)
      modifies this
      ensures elements' == elements[j := AnnotateElement(input[j])]
      ensures featureScenarios' == FeatureScenarios(input[..j + 1]) && time' == FeatureTime(input[..j + 1])
      ensures summary.isFailed == FeatureFailed(input[..j + 1])
      ensures summary.passed == old(summary.passed) && summary.failed == old(summary.failed)
      ensures scenarios == base.Add(featureScenarios')
      ensures features == old(features) && reportAs == old(reportAs)
      ensures passed == old(passed) && failed == old(failed) && totalTime == old(totalTime)
    {
      ElementPrefix(input, j);
      ghost var outcome := Outcome(input[j]);
      if outcome.Some? {
        AddBump(base, featureScenarios, outcome.value);
      }
      var element := ProcessElement(elements[j]);
      assert element.time == StepTime(input[j].steps) && Classify(element.counts) == outcome;
      elements' := elements[j := element];
      featureScenarios', time' := CountElement(element, featureScenarios, time);
    }

    /** The element loop of one feature: annotate every element and count
        it. */
    method ProcessElements(input: seq<Element>) returns (elements: seq<Element>, featureScenarios: Counts, time: int)
      requires !summary.isFailed
      modifies this
      ensures elements == AnnotateElements(input)
      ensures featureScenarios == FeatureScenarios(input)
      ensures time == FeatureTime(input)
      ensures summary.isFailed == FeatureFailed(input)
      ensures summary.passed == old(summary.passed) && summary.failed == old(summary.failed)
      ensures scenarios == old(scenarios).Add(featureScenarios)
      ensures features == old(features) && reportAs == old(reportAs)
      ensures passed == old(passed) && failed == old(failed) && totalTime == old(totalTime)
    {
      featureScenarios, time := Zero, 0;
      elements := input;
      var j := 0;
      while j < |elements|
        invariant 0 <= j <= |elements| == |input|
        invariant forall k :: 0 <= k < j ==> elements[k] == AnnotateElement(input[k])
        invariant forall k :: j <= k < |elements| ==> elements[k] == input[k]
        invariant featureScenarios == FeatureScenarios(input[..j])
        invariant time == FeatureTime(input[..j])
        invariant summary.isFailed == FeatureFailed(input[..j])
        invariant summary.passed == old(summary.passed) && summary.failed == old(summary.failed)
        invariant scenarios == old(scenarios).Add(featureScenarios)
        invariant features == old(features) && reportAs == old(reportAs)
        invariant passed == old(passed) && failed == old(failed) && totalTime == old(totalTime)
      {
        elements, featureScenarios, time := ElementStep(input, j, elements, featureScenarios, time, old(scenarios));
        j := j + 1;
      }
      WholePrefix(input);
    }

    /** `setStats(suite)`: annotate every feature in place and add this
        run's counts to the suite totals, which are never reset. */
    method SetStats()
      modifies this
      ensures features == AnnotateFeatures(old(features))
      ensures reportAs == Some("features")
      ensures passed == old(passed) + PassedFeatures(old(features))
      ensures failed == old(failed) + FailedFeatures(old(features))
      ensures totalTime == old(totalTime) + TotalTime(old(features))
      ensures scenarios == old(scenarios).Add(ScenarioTotals(old(features)))
      ensures summary == Summary(FinalFlag(old(summary.isFailed), old(features)),
                                 old(summary.passed) + PassedFeatures(old(features)),
                                 old(summary.failed) + FailedFeatures(old(features)))
    {
      reportAs := Some("features");
      ghost var input := features;
      var i := 0;
      while i < |features|
        invariant 0 <= i <= |features| == |input|
        invariant forall k :: 0 <= k < i ==> features[k] == AnnotateFeature(input[k])
        invariant forall k :: i <= k < |features| ==> features[k] == input[k]
        invariant reportAs == Some("features")
        invariant passed == old(passed) + PassedFeatures(input[..i])
        invariant failed == old(failed) + FailedFeatures(input[..i])
        invariant totalTime == old(totalTime) + TotalTime(input[..i])
        invariant scenarios == old(scenarios).Add(ScenarioTotals(input[..i]))
        invariant summary.isFailed == FinalFlag(old(summary.isFailed), input[..i])
        invariant summary.passed == old(summary.passed) + PassedFeatures(input[..i])
        invariant summary.failed == old(summary.failed) + FailedFeatures(input[..i])
      {
        SuitePrefix(old(summary.isFailed), input, i);
        SuiteScenariosPrefix(old(scenarios), input, i);
        assert features[i] == input[i];
        var feature := ProcessFeature(features[i]);
        features := features[i := feature];
        i := i + 1;
      }
      WholePrefix(input);
    }
  }

  /** How many times the format list asks for the HTML report, each of
      which runs setStats on the same suite. */
  function HtmlRuns(formats: seq<string>): nat
  {
    if formats == [] then 0
    else HtmlRuns(formats[..|formats| - 1]) + (if formats[|formats| - 1] == "html" then 1 else 0)
  }

  lemma HtmlRunsPrefix(formats: seq<string>, i: nat)
    requires i < |formats|
    ensures HtmlRuns(formats[..i + 1]) == HtmlRuns(formats[..i]) + (if formats[i] == "html" then 1 else 0)
  {
    assert formats[..i + 1][..i] == formats[..i];
  }

  /** The tree an HTML run starts from, the loaded one or the one a previous
      run annotated, gives the same annotation, increments and final flag. */
  lemma RunStart(data: seq<Feature>, features: seq<Feature>, flag: bool, n: nat)
    requires features == if n == 0 then data else AnnotateFeatures(data)
    requires flag == (n != 0 && FinalFlag(false, data))
    ensures AnnotateFeatures(features) == AnnotateFeatures(data)
    ensures PassedFeatures(features) == PassedFeatures(data)
    ensures FailedFeatures(features) == FailedFeatures(data)
    ensures TotalTime(features) == TotalTime(data)
    ensures ScenarioTotals(features) == ScenarioTotals(data)
    ensures FinalFlag(flag, features) == FinalFlag(false, data)
  {
    RerunSameIncrements(data);
  }

  /** `htmlReport`, reduced to its effect on the statistics: run setStats on
      the suite. Before any HTML run the suite holds the loaded tree `data`,
      afterwards the annotated one; either way this run adds the same
      increments, so after `n + 1` runs every total is `n + 1` times the
      increment of one run. */
  method HtmlReport(suite: Suite, ghost data: seq<Feature>, ghost n: nat)
    modifies suite
    requires suite.features == if n == 0 then data else AnnotateFeatures(data)
    requires suite.passed == Repeat(PassedFeatures(data), n)
    requires suite.failed == Repeat(FailedFeatures(data), n)
    requires suite.totalTime == Repeat(TotalTime(data), n)
    requires suite.scenarios.passed == Repeat(ScenarioTotals(data).passed, n)
    requires suite.scenarios.failed == Repeat(ScenarioTotals(data).failed, n)
    requires suite.scenarios.skipped == Repeat(ScenarioTotals(data).skipped, n)
    requires suite.scenarios.notdefined == Repeat(ScenarioTotals(data).notdefined, n)
    requires suite.scenarios.pending == if n == 0 || ScenarioTotals(data).pending == 0 then Undefined else NaN
    requires suite.summary.passed == suite.passed && suite.summary.failed == suite.failed
    requires suite.reportAs == if n == 0 then None else Some("features")
    requires suite.summary.isFailed == (n != 0 && FinalFlag(false, data))
    ensures suite.features == AnnotateFeatures(data)
    ensures suite.passed == Repeat(PassedFeatures(data), n + 1)
    ensures suite.failed == Repeat(FailedFeatures(data), n + 1)
    ensures suite.totalTime == Repeat(TotalTime(data), n + 1)
    ensures suite.scenarios.passed == Repeat(ScenarioTotals(data).passed, n + 1)
    ensures suite.scenarios.failed == Repeat(ScenarioTotals(data).failed, n + 1)
    ensures suite.scenarios.skipped == Repeat(ScenarioTotals(data).skipped, n + 1)
    ensures suite.scenarios.notdefined == Repeat(ScenarioTotals(data).notdefined, n + 1)
    ensures suite.scenarios.pending == if ScenarioTotals(data).pending == 0 then Undefined else NaN
    ensures suite.summary.passed == suite.passed && suite.summary.failed == suite.failed
    ensures suite.reportAs == Some("features")
    ensures suite.summary.isFailed == FinalFlag(false, data)
  {
    RunStart(data, suite.features, suite.summary.isFailed, n);
    PlusClosedForm(suite.scenarios.pending, ScenarioTotals(data).pending);
    suite.SetStats();
  }

  /** The format dispatch of `run`, reduced to its effect on the statistics:
      "html" runs setStats, "xlsx" only reads the tree, anything else is
      ignored. After `n` HTML runs every suite total is `n` times the
      increment of one run, while the tree holds the one-run annotation. */
  method Run(data: seq<Feature>, formats: seq<string>) returns (suite: Suite)
    ensures suite.features == if HtmlRuns(formats) == 0 then data else AnnotateFeatures(data)
    ensures suite.passed == HtmlRuns(formats) * PassedFeatures(data)
    ensures suite.failed == HtmlRuns(formats) * FailedFeatures(data)
    ensures suite.totalTime == HtmlRuns(formats) * TotalTime(data)
    ensures suite.scenarios.passed == HtmlRuns(formats) * ScenarioTotals(data).passed
    ensures suite.scenarios.failed == HtmlRuns(formats) * ScenarioTotals(data).failed
    ensures suite.scenarios.skipped == HtmlRuns(formats) * ScenarioTotals(data).skipped
    ensures suite.scenarios.notdefined == HtmlRuns(formats) * ScenarioTotals(data).notdefined
    ensures suite.scenarios.pending ==
      if HtmlRuns(formats) == 0 || ScenarioTotals(data).pending == 0 then Undefined else NaN
    ensures suite.summary.passed == suite.passed && suite.summary.failed == suite.failed
    ensures suite.reportAs == if HtmlRuns(formats) == 0 then None else Some("features")
    ensures suite.summary.isFailed == (HtmlRuns(formats) != 0 && FinalFlag(false, data))
  {
    suite := new Suite(data);
    ghost var t := ScenarioTotals(data);
    var i := 0;
    ghost var n := 0;
    while i < |formats|
      invariant 0 <= i <= |formats| && n == HtmlRuns(formats[..i])
      invariant suite.features == if n == 0 then data else AnnotateFeatures(data)
      invariant suite.passed == Repeat(PassedFeatures(data), n)
      invariant suite.failed == Repeat(FailedFeatures(data), n)
      invariant suite.totalTime == Repeat(TotalTime(data), n)
      invariant suite.scenarios.passed == Repeat(t.passed, n)
      invariant suite.scenarios.failed == Repeat(t.failed, n)
      invariant suite.scenarios.skipped == Repeat(t.skipped, n)
      invariant suite.scenarios.notdefined == Repeat(t.notdefined, n)
      invariant suite.scenarios.pending == if n == 0 || t.pending == 0 then Undefined else NaN
      invariant suite.summary.passed == suite.passed && suite.summary.failed == suite.failed
      invariant suite.reportAs == if n == 0 then None else Some("features")
      invariant suite.summary.isFailed == (n != 0 && FinalFlag(false, data))
    {
      HtmlRunsPrefix(formats, i);
      if formats[i] == "html" {
        HtmlReport(suite, data, n);
        n := n + 1;
      }
      i := i + 1;
    }
    WholePrefix(formats);
    RepeatIsProduct(PassedFeatures(data), n);
    RepeatIsProduct(FailedFeatures(data), n);
    RepeatIsProduct(TotalTime(data), n);
    RepeatIsProduct(t.passed, n);
    RepeatIsProduct(t.failed, n);
    RepeatIsProduct(t.skipped, n);
    RepeatIsProduct(t.notdefined, n);
  }
}
