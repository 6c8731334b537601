// The pipeline of scripts/linkChecker.js around the per-link verdict: loading
// the resources from the data files (with the built-in sample as fallback),
// the test-mode sample drawn with a Fisher–Yates shuffle, and the batched
// run of `checkLink` over every resource.

module LinkPipeline {
  import opened Wrappers
  import opened Seqs
  import opened LinkConfig
  import opened LinkChecker

  // ---------------------------------------------------------------------
  // Loading (`extractItemsFromFile`, `loadData`, `getAllResources`)

  /**
   * One object the extraction pattern found in a data file, with the value
   * each field pattern captured (None when it found none).
   */
  datatype ObjectMatch = ObjectMatch(id: Option<string>, title: Option<string>, link: Option<string>,
                                     category: Option<string>)

  /**
   * What reading a data file yields: nothing when reading throws, otherwise
   * the objects of the main pattern and the triples of the fallback pattern.
   */
  datatype FileScan = Unreadable | Scanned(objects: seq<ObjectMatch>, fallback: seq<Resource>)

  datatype DataFile = DataFile(present: bool, scan: FileScan)

  /** An object is kept when id, title and link were all found; category is optional. */
  predicate Complete(o: ObjectMatch)
  {
    o.id.Some? && o.title.Some? && o.link.Some?
  }

  function ToResource(o: ObjectMatch): Resource
  {
    Resource(o.id.GetOr(""), o.title.GetOr(""), o.link.GetOr(""), o.category)
  }

  /** The items the first pass keeps. */
  function Kept(objects: seq<ObjectMatch>): seq<Resource>
  {
    Map(Filter(objects, Complete), ToResource)
  }

  /** What `extractItemsFromFile` returns: the kept items, the fallback triples when none was kept. */
  function Extracted(scan: FileScan): seq<Resource>
  {
    match scan
    case Unreadable => []
    case Scanned(objects, fallback) => if Kept(objects) == [] then fallback else Kept(objects)
  }

  method ExtractItemsFromFile(scan: FileScan) returns (items: seq<Resource>)
    ensures items == Extracted(scan)
    ensures scan.Scanned? && Count(scan.objects, Complete) > 0 ==>
      |items| == Count(scan.objects, Complete)
      && forall k :: 0 <= k < |items| ==> items[k].category == Filter(scan.objects, Complete)[k].category
  {
    if scan.Unreadable? {
      return [];
    }
    var objects := scan.objects;
    items := [];
    var i := 0;
    while i < |objects|
      invariant 0 <= i <= |objects|
      invariant items == Kept(objects[..i])
    {
      var o := objects[i];
      assert objects[..i + 1] == objects[..i] + [o];
      FilterAppend(objects[..i], [o], Complete);
      MapAppend(Filter(objects[..i], Complete), Filter([o], Complete), ToResource);
      if o.id.Some? && o.title.Some? && o.link.Some? {
        items := items + [Resource(o.id.value, o.title.value, o.link.value, o.category)];
      }
      i := i + 1;
    }
    assert objects[..i] == objects;
    if items == [] {
      items := scan.fallback;
    }
  }

  /** The five collections `loadData` returns. */
  datatype Data = Data(models: seq<Resource>, datasets: seq<Resource>, tutorials: seq<Resource>,
                       frameworks: seq<Resource>, specialResources: seq<Resource>)

  /** The built-in sample used whenever the data files cannot be used. */
  const Sample: Data := Data(
    [Resource("gpt4", "GPT-4", "https://openai.com/gpt-4", Some("Natural Language Processing")),
     Resource("llama2", "LLaMA 2", "https://ai.meta.com/llama/", Some("Natural Language Processing")),
     Resource("stable-diffusion", "Stable Diffusion", "https://stability.ai/stable-diffusion", Some("Generative AI"))],
    [Resource("imagenet", "ImageNet", "https://www.image-net.org/", Some("Computer Vision")),
     Resource("coco", "COCO", "https://cocodataset.org/", Some("Computer Vision"))],
    [Resource("pytorch-basics", "PyTorch Basics", "https://pytorch.org/tutorials/beginner/basics/intro.html",
              Some("Frameworks"))],
    [Resource("tensorflow", "TensorFlow", "https://www.tensorflow.org/", Some("Frameworks")),
     Resource("pytorch", "PyTorch", "https://pytorch.org/", Some("Frameworks"))],
    [Resource("huggingface", "Hugging Face", "https://huggingface.co/", Some("Platforms"))])

  /** `getAllResources`: the five collections in order. */
  function GetAllResources(data: Data): (r: seq<Resource>)
    ensures |r| == |data.models| + |data.datasets| + |data.tutorials| + |data.frameworks| + |data.specialResources|
    ensures r[..|data.models|] == data.models
  {
    data.models + data.datasets + data.tutorials + data.frameworks + data.specialResources
  }

  method LoadData(models: DataFile, datasets: DataFile, tutorials: DataFile, frameworks: DataFile, special: DataFile)
    returns (data: Data)
    ensures !(models.present && datasets.present && tutorials.present && frameworks.present && special.present) ==> data == Sample
    ensures models.present && datasets.present && tutorials.present && frameworks.present && special.present ==>
      var extracted := Data(Extracted(models.scan), Extracted(datasets.scan), Extracted(tutorials.scan),
                            Extracted(frameworks.scan), Extracted(special.scan));
      data == if GetAllResources(extracted) == [] then Sample else extracted
    ensures |GetAllResources(data)| > 0
  {
    if !(models.present && datasets.present && tutorials.present && frameworks.present && special.present) {
      return Sample;
    }
    data := Data([], [], [], [], []);
    var items := ExtractItemsFromFile(models.scan);
    if |items| > 0 {
      data := data.(models := items);
    }
    items := ExtractItemsFromFile(datasets.scan);
    if |items| > 0 {
      data := data.(datasets := items);
    }
    items := ExtractItemsFromFile(tutorials.scan);
    if |items| > 0 {
      data := data.(tutorials := items);
    }
    items := ExtractItemsFromFile(frameworks.scan);
    if |items| > 0 {
      data := data.(frameworks := items);
    }
    items := ExtractItemsFromFile(special.scan);
    if |items| > 0 {
      data := data.(specialResources := items);
    }
    var dataCount := |data.models| + |data.datasets| + |data.tutorials| + |data.frameworks| + |data.specialResources|;
    if dataCount == 0 {
      return Sample;
    }
  }

  // ---------------------------------------------------------------------
  // Test mode (`shuffleArray` and the slice in `main`)

  function Swap<T>(s: seq<T>, i: nat, j: nat): (r: seq<T>)
    requires i < |s| && j < |s|
    ensures |r| == |s|
  {
    s[i := s[j]][j := s[i]]
  }

  lemma SwapPermutes<T>(s: seq<T>, i: nat, j: nat)
    requires i < |s| && j < |s|
    ensures multiset(Swap(s, i, j)) == multiset(s)
  {
  }

  /** Steps `i`, `i-1`, …, 1 of the shuffle, step `i` swapping cell `i` with cell `pick(i)`. */
  function ShuffleDown<T>(s: seq<T>, pick: nat -> nat, i: nat): seq<T>
    requires i < |s|
    requires forall k: nat :: pick(k) <= k
    decreases i
  {
    if i == 0 then s else ShuffleDown(Swap(s, i, pick(i)), pick, i - 1)
  }

  /** The order `shuffleArray` produces when `Math.floor(Math.random() * (i + 1))` yields `pick(i)`. */
  function Shuffled<T>(s: seq<T>, pick: nat -> nat): seq<T>
    requires forall k: nat :: pick(k) <= k
  {
    if s == [] then [] else ShuffleDown(s, pick, |s| - 1)
  }

  lemma {:induction false} ShuffleDownPermutes<T>(s: seq<T>, pick: nat -> nat, i: nat)
    requires i < |s|
    requires forall k: nat :: pick(k) <= k
    ensures |ShuffleDown(s, pick, i)| == |s|
    ensures multiset(ShuffleDown(s, pick, i)) == multiset(s)
    decreases i
  {
    if i > 0 {
      SwapPermutes(s, i, pick(i));
      ShuffleDownPermutes(Swap(s, i, pick(i)), pick, i - 1);
    }
  }

  /** The shuffle is a permutation of its input. */
  lemma ShuffledPermutes<T>(s: seq<T>, pick: nat -> nat)
    requires forall k: nat :: pick(k) <= k
    ensures |Shuffled(s, pick)| == |s| && multiset(Shuffled(s, pick)) == multiset(s)
  {
    if s != [] {
      ShuffleDownPermutes(s, pick, |s| - 1);
    }
  }

  /** Always picking the cell itself leaves every cell in place. */
  lemma {:induction false} ShuffleDownIdentity<T>(s: seq<T>, pick: nat -> nat, i: nat)
    requires i < |s|
    requires forall k: nat :: pick(k) == k
    ensures ShuffleDown(s, pick, i) == s
    decreases i
  {
    if i > 0 {
      assert Swap(s, i, pick(i)) == s;
      ShuffleDownIdentity(s, pick, i - 1);
    }
  }

  /** `shuffleArray`: swaps the cells of a copy of the input, from the last cell down to the second. */
  method ShuffleArray<T>(input: seq<T>, pick: nat -> nat) returns (shuffled: seq<T>)
    requires forall k: nat :: pick(k) <= k
    ensures shuffled == Shuffled(input, pick)
    ensures multiset(shuffled) == multiset(input)
  {
    ShuffledPermutes(input, pick);
    if |input| == 0 {
      return [];
    }
    var a := new T[|input|](k requires 0 <= k < |input| => input[k]);
    assert a[..] == input;
    var i := |input| - 1;
    while i > 0
      invariant 0 <= i < a.Length
      invariant ShuffleDown(a[..], pick, i) == Shuffled(input, pick)
      modifies a
    {
      var j := pick(i);
      ghost var before := a[..];
      var t := a[i];
      a[i] := a[j];
      a[j] := t;
      assert a[..] == Swap(before, i, j);
      i := i - 1;
    }
    shuffled := a[..];
  }

  /** The number of links test mode allows (`limitCount || 10`), 0 outside test mode. */
  function TestLimit(cfg: Config): (n: int)
    ensures cfg.testMode.enabled <==> n != 0
    ensures cfg.testMode.enabled && cfg.testMode.limitCount != 0 ==> n == cfg.testMode.limitCount
  {
    if !cfg.testMode.enabled then 0
    else if cfg.testMode.limitCount != 0 then cfg.testMode.limitCount else 10
  }

  /** `s.slice(0, end)`, with a negative `end` counted from the end. */
  function SlicePrefix<T>(s: seq<T>, end: int): (r: seq<T>)
    ensures end >= 0 ==> |r| == if end < |s| then end else |s|
    ensures end < 0 ==> |r| == if |s| + end > 0 then |s| + end else 0
    ensures r <= s
  {
    if end >= |s| then s
    else if end >= 0 then s[..end]
    else if |s| + end > 0 then s[..|s| + end]
    else []
  }

  /** The resources `main` checks: all of them, or a shuffled prefix in test mode when there are too many. */
  method SelectForTest(cfg: Config, resources: seq<Resource>, pick: nat -> nat) returns (selected: seq<Resource>)
    requires forall k: nat :: pick(k) <= k
    ensures !(cfg.testMode.enabled && |resources| > TestLimit(cfg)) ==> selected == resources
    ensures cfg.testMode.enabled && |resources| > TestLimit(cfg) ==>
      selected == SlicePrefix(Shuffled(resources, pick), TestLimit(cfg))
    ensures cfg.testMode.enabled && TestLimit(cfg) >= 0 ==>
      |selected| == if |resources| < TestLimit(cfg) then |resources| else TestLimit(cfg)
    ensures multiset(selected) <= multiset(resources)
  {
    var limitCount := TestLimit(cfg);
    selected := resources;
    if cfg.testMode.enabled && |resources| > limitCount {
      var shuffled := ShuffleArray(resources, pick);
      selected := SlicePrefix(shuffled, limitCount);
      PrefixSubMultiset(shuffled, selected);
    }
  }

  lemma {:induction false} PrefixSubMultiset<T>(s: seq<T>, p: seq<T>)
    requires p <= s
    ensures multiset(p) <= multiset(s)
  {
    assert s == p + s[|p|..];
  }

  // ---------------------------------------------------------------------
  // Batching (`checkAllLinks`)

  /** The outcome `checkLink` has for resource `k`. */
  function Outcome(cfg: Config, matches: PatternTest, nets: nat -> Network, browsers: nat -> BrowserOracle,
                   resources: seq<Resource>, k: nat): Checked
    requires k < |resources|
  {
    CheckLinkSpec(cfg, matches, nets(k), browsers(k), resources[k])
  }

  /** `checkLink` on resource `k`, with the network and the browser that resource meets. */
  method CheckOne(cfg: Config, matches: PatternTest, nets: nat -> Network, browsers: nat -> BrowserOracle,
                  resources: seq<Resource>, k: nat) returns (c: Checked)
    requires k < |resources|
    ensures c == Outcome(cfg, matches, nets, browsers, resources, k)
  {
    c := CheckLink(cfg, matches, nets(k), browsers(k), resources[k]);
  }

  /** One slice `resources[lo..hi]`, mapped through `checkLink` and awaited together: its results in order, or None when one check rejects. */
  method CheckBatch(cfg: Config, matches: PatternTest, nets: nat -> Network, browsers: nat -> BrowserOracle,
                    resources: seq<Resource>, lo: nat, hi: nat) returns (out: Option<seq<CheckResult>>)
    requires lo <= hi <= |resources|
    ensures out.None? ==> exists k :: lo <= k < hi && OutcomeOf(cfg, matches, nets, browsers, resources)(k).Threw?
    ensures out.Some? ==> |out.value| == hi - lo && Agrees(OutcomeOf(cfg, matches, nets, browsers, resources), lo, out.value)
  {
    var results: seq<CheckResult> := [];
    while lo + |results| < hi
      invariant lo + |results| <= hi
      invariant Agrees(OutcomeOf(cfg, matches, nets, browsers, resources), lo, results)
      decreases hi - |results|
    {
      var next := CheckNext(cfg, matches, nets, browsers, resources, lo, results);
      if next.None? {
        return None;
      }
      results := next.value;
    }
    return Some(results);
  }

  /** `checkLink` on the next resource of the slice, appended to the results so far. */
  method CheckNext(cfg: Config, matches: PatternTest, nets: nat -> Network, browsers: nat -> BrowserOracle,
                   resources: seq<Resource>, lo: nat, results: seq<CheckResult>) returns (next: Option<seq<CheckResult>>)
    requires lo + |results| < |resources| && Agrees(OutcomeOf(cfg, matches, nets, browsers, resources), lo, results)
    ensures next.None? ==> OutcomeOf(cfg, matches, nets, browsers, resources)(lo + |results|).Threw?
    ensures next.Some? ==> |next.value| == |results| + 1 && Agrees(OutcomeOf(cfg, matches, nets, browsers, resources), lo, next.value)
  {
    var c := CheckOne(cfg, matches, nets, browsers, resources, lo + |results|);
    if c.Threw? {
      return None;
    }
    AgreesStep(OutcomeOf(cfg, matches, nets, browsers, resources), lo, results, c.result);
    return Some(results + [c.result]);
  }

  /** The outcome of every resource as one function of its index (indices past the end are never asked). */
  function OutcomeOf(cfg: Config, matches: PatternTest, nets: nat -> Network, browsers: nat -> BrowserOracle,
                     resources: seq<Resource>): nat -> Checked
  {
    (k: nat) => if k < |resources| then Outcome(cfg, matches, nets, browsers, resources, k) else Threw("")
  }

  /** `results` are the outcomes from index `lo` on, as far as they go. */
  predicate Agrees(outcome: nat -> Checked, lo: nat, results: seq<CheckResult>)
  {
    forall k :: lo <= k < lo + |results| ==> outcome(k) == Done(results[k - lo])
  }

  lemma AgreesStep(outcome: nat -> Checked, lo: nat, results: seq<CheckResult>, r: CheckResult)
    requires Agrees(outcome, lo, results) && outcome(lo + |results|) == Done(r)
    ensures Agrees(outcome, lo, results + [r])
  {
    var rs := results + [r];
    assert forall i :: 0 <= i < |results| ==> rs[i] == results[i];
  }

  /**
   * `checkAllLinks`: the resources in slices of `batchSize`, every slice's
   * checks awaited together. Resource `k` meets the network `nets(k)` and the
   * browser `browsers(k)`. When one check rejects, the whole run rejects (None).
   * With a batch size below 1 and a non-empty list the source loop never ends,
   * so the method asks for a positive batch size; the shipped configuration
   * uses 5 (ai-nav/scripts/config.js:20).
   */
  method CheckAllLinks(cfg: Config, matches: PatternTest, nets: nat -> Network, browsers: nat -> BrowserOracle,
                       resources: seq<Resource>) returns (out: Option<seq<CheckResult>>)
    requires cfg.batchSize >= 1 || |resources| == 0
    ensures out.Some? <==> forall k :: 0 <= k < |resources| ==> Outcome(cfg, matches, nets, browsers, resources, k).Done?
    ensures out.Some? ==> |out.value| == |resources|
    ensures out.Some? ==> forall k :: 0 <= k < |resources| ==> Outcome(cfg, matches, nets, browsers, resources, k) == Done(out.value[k])
  {
    ghost var outcome := OutcomeOf(cfg, matches, nets, browsers, resources);
    var results: seq<CheckResult> := [];
    var i := 0;
    while i < |resources|
      invariant 0 <= i && |results| == (if i < |resources| then i else |resources|)
      invariant Agrees(outcome, 0, results)
      decreases |resources| - i
    {
      var end := if i + cfg.batchSize < |resources| then i + cfg.batchSize else |resources|;
      var batchResults := CheckBatch(cfg, matches, nets, browsers, resources, i, end);
      if batchResults.None? {
        ghost var k :| i <= k < end && outcome(k).Threw?;
        assert Outcome(cfg, matches, nets, browsers, resources, k).Threw?;
        return None;
      }
      AgreesConcat(outcome, results, batchResults.value);
      results := results + batchResults.value;
      i := i + cfg.batchSize;
    }
    AgreesAll(cfg, matches, nets, browsers, resources, results);
    return Some(results);
  }

  lemma AgreesConcat(outcome: nat -> Checked, a: seq<CheckResult>, b: seq<CheckResult>)
    requires Agrees(outcome, 0, a) && Agrees(outcome, |a|, b)
    ensures Agrees(outcome, 0, a + b)
  {
    var c := a + b;
    assert forall k :: 0 <= k < |a| ==> c[k] == a[k];
    assert forall k :: |a| <= k < |c| ==> c[k] == b[k - |a|];
  }

  /** Agreement over every index is agreement with `checkLink`'s outcome on every resource. */
  lemma AgreesAll(cfg: Config, matches: PatternTest, nets: nat -> Network, browsers: nat -> BrowserOracle,
                  resources: seq<Resource>, results: seq<CheckResult>)
    requires |results| == |resources| && Agrees(OutcomeOf(cfg, matches, nets, browsers, resources), 0, results)
    ensures forall k :: 0 <= k < |resources| ==> Outcome(cfg, matches, nets, browsers, resources, k) == Done(results[k])
  {
    forall k | 0 <= k < |resources|
      ensures Outcome(cfg, matches, nets, browsers, resources, k) == Done(results[k])
    {
      assert OutcomeOf(cfg, matches, nets, browsers, resources)(k) == Done(results[k - 0]);
    }
  }
}
