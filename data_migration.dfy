// The tutorial record migration of app/utils/dataMigration.ts: the old
// free-text category becomes one of the primary categories of
// app/data/tutorials.ts, sub-categories are inferred from the tags by
// keyword, and the language from marker words in the tags.

module DataMigration {
  import opened Wrappers
  import opened Text
  import opened Seqs

  /** A tutorial in the old format (`Tutorial`); `kind` is its `type` field. */
  datatype Tutorial = Tutorial(
    id: string, title: string, description: string, link: string,
    tags: seq<string>, category: string,
    difficulty: string, kind: string, isFree: bool)

  /** A tutorial in the new format (`TutorialNew`). */
  datatype TutorialNew = TutorialNew(
    id: string, title: string, description: string, link: string,
    primaryCategory: string, subCategories: seq<string>, topics: seq<string>,
    difficulty: string, kind: string, language: string, isFree: bool)

  predicate Distinct<T(==)>(s: seq<T>)
  {
    forall i, j :: 0 <= i < j < |s| ==> s[i] != s[j]
  }

  // ---------------------------------------------------------------------
  // The category tables of app/data/tutorials.ts

  const All: string := "all"
  const Foundations: string := "foundations"
  const MachineLearning: string := "machine-learning"
  const DeepLearning: string := "deep-learning"
  const Nlp: string := "nlp"
  const ComputerVision: string := "computer-vision"
  const ReinforcementLearning: string := "reinforcement-learning"
  const GenerativeAi: string := "generative-ai"
  const Tools: string := "tools-platforms"
  const Other: string := "other"

  /** The values of `PRIMARY_CATEGORIES`, which are also the keys of `SUB_CATEGORIES`. */
  const PrimaryCategories: seq<string> :=
    [All, Foundations, MachineLearning, DeepLearning, Nlp, ComputerVision,
     ReinforcementLearning, GenerativeAi, Tools, Other]

  // `SUB_CATEGORIES`, one list per primary category.
  const FoundationsSubs: seq<string> := [All, "python-programming", "mathematics", "data-analysis", "ai-basics", "tools-platforms"]
  const MachineLearningSubs: seq<string> := [All, "supervised-learning", "unsupervised-learning", "model-evaluation"]
  const DeepLearningSubs: seq<string> := [All, "neural-networks", "cnn", "rnn", "transformers", "frameworks"]
  const NlpSubs: seq<string> := [All, "text-processing", "sentiment-analysis", "language-models", "translation"]
  const ComputerVisionSubs: seq<string> := [All, "image-classification", "object-detection", "segmentation", "face-recognition"]
  const ReinforcementLearningSubs: seq<string> := [All, "q-learning", "policy-gradients", "deep-reinforcement-learning"]
  const GenerativeAiSubs: seq<string> := [All, "gans", "diffusion-models", "text-to-image", "prompt-engineering"]
  const ToolsSubs: seq<string> := [All, "development-environments", "libraries", "cloud-platforms"]

  /** `SUB_CATEGORIES[primary]`, absent for a string that is not a primary category. */
  function SubCategoriesOf(primary: string): Option<seq<string>>
  {
    if primary == Foundations then Some(FoundationsSubs)
    else if primary == MachineLearning then Some(MachineLearningSubs)
    else if primary == DeepLearning then Some(DeepLearningSubs)
    else if primary == Nlp then Some(NlpSubs)
    else if primary == ComputerVision then Some(ComputerVisionSubs)
    else if primary == ReinforcementLearning then Some(ReinforcementLearningSubs)
    else if primary == GenerativeAi then Some(GenerativeAiSubs)
    else if primary == Tools then Some(ToolsSubs)
    else if primary == All || primary == Other then Some([All])
    else None
  }

  /** The keys of `LANGUAGE_NAMES`. */
  const LanguageNames: seq<string> := ["all", "zh", "en", "jp", "kr", "fr", "de", "es", "ru", "other"]

  // ---------------------------------------------------------------------
  // mapCategoryToPrimary

  /** The keys of `categoryMap`, and the primary category of each. */
  const CategoryKeys: seq<string> :=
    ["AI Fundamentals", "Math Fundamentals", "Programming Basics", "Machine Learning",
     "Deep Learning", "NLP", "Computer Vision", "Reinforcement Learning",
     "Generative AI", "Tools & Platforms"]
  const CategoryValues: seq<string> :=
    [Foundations, Foundations, Foundations, MachineLearning,
     DeepLearning, Nlp, ComputerVision, ReinforcementLearning,
     GenerativeAi, Tools]

  /** The value stored under `key` in the table `keys`/`values`, or `default`. */
  function LookupOr(keys: seq<string>, values: seq<string>, key: string, default: string): (r: string)
    requires |keys| == |values|
    ensures key in keys ==> exists i :: 0 <= i < |keys| && keys[i] == key && r == values[i]
    ensures key !in keys ==> r == default
  {
    if keys == [] then default
    else if keys[0] == key then values[0]
    else LookupOr(keys[1..], values[1..], key, default)
  }

  /** `mapCategoryToPrimary`: the table's value, and `other` for any string not in the table. */
  function MapCategoryToPrimary(category: string): (p: string)
    ensures p in PrimaryCategories && p != All
    ensures p == Other <==> category !in CategoryKeys
    ensures p == Foundations <==>
      category == "AI Fundamentals" || category == "Math Fundamentals" || category == "Programming Basics"
  {
    LookupOr(CategoryKeys, CategoryValues, category, Other)
  }

  /** `values[i]` occurs nowhere else in `values` and is not `default`. */
  predicate UniqueAt(values: seq<string>, i: nat, default: string)
    requires i < |values|
  {
    values[i] != default && forall j :: 0 <= j < |values| && j != i ==> values[j] != values[i]
  }

  /** With distinct keys, a value stored under one key only is returned for that key only. */
  lemma LookupOrUnique(keys: seq<string>, values: seq<string>, key: string, default: string, i: nat)
    requires |keys| == |values| && i < |keys| && Distinct(keys) && UniqueAt(values, i, default)
    ensures LookupOr(keys, values, key, default) == values[i] <==> key == keys[i]
  {
  }

  lemma CategoryTableFacts()
    ensures |CategoryKeys| == |CategoryValues| == 10 && Distinct(CategoryKeys)
    ensures forall i :: 3 <= i < 10 ==> UniqueAt(CategoryValues, i, Other)
  {
  }

  /** Each of the seven other table keys has a primary category of its own. */
  lemma CategoryOneToOne(category: string)
    ensures MapCategoryToPrimary(category) == MachineLearning <==> category == "Machine Learning"
    ensures MapCategoryToPrimary(category) == DeepLearning <==> category == "Deep Learning"
    ensures MapCategoryToPrimary(category) == Nlp <==> category == "NLP"
    ensures MapCategoryToPrimary(category) == ComputerVision <==> category == "Computer Vision"
    ensures MapCategoryToPrimary(category) == ReinforcementLearning <==> category == "Reinforcement Learning"
    ensures MapCategoryToPrimary(category) == GenerativeAi <==> category == "Generative AI"
    ensures MapCategoryToPrimary(category) == Tools <==> category == "Tools & Platforms"
  {
    CategoryTableFacts();
    LookupOrUnique(CategoryKeys, CategoryValues, category, Other, 3);
    LookupOrUnique(CategoryKeys, CategoryValues, category, Other, 4);
    LookupOrUnique(CategoryKeys, CategoryValues, category, Other, 5);
    LookupOrUnique(CategoryKeys, CategoryValues, category, Other, 6);
    LookupOrUnique(CategoryKeys, CategoryValues, category, Other, 7);
    LookupOrUnique(CategoryKeys, CategoryValues, category, Other, 8);
    LookupOrUnique(CategoryKeys, CategoryValues, category, Other, 9);
  }

  // ---------------------------------------------------------------------
  // inferSubCategories

  /** One entry of a `categoryMatchers` record: a sub-category and its keywords. */
  datatype Matcher = Matcher(subCategory: string, keywords: seq<string>)

  function SubCategoryName(m: Matcher): string
  {
    m.subCategory
  }

  /** `tagIncludes(keyword)`: some tag, lower-cased, contains the keyword. */
  predicate TagIncludes(tags: seq<string>, keyword: string)
  {
    exists i :: 0 <= i < |tags| && Contains(Lower(tags[i]), keyword)
  }

  /** `keywords.some(keyword => tagIncludes(keyword))` */
  predicate MatchesTags(tags: seq<string>, m: Matcher)
  {
    exists k :: 0 <= k < |m.keywords| && TagIncludes(tags, m.keywords[k])
  }

  /** Matching ignores case: lower-casing the tags first changes nothing. */
  lemma MatchingIgnoresCase(tags: seq<string>, keyword: string)
    ensures TagIncludes(tags, keyword) <==> TagIncludes(Map(tags, Lower), keyword)
  {
    forall i | 0 <= i < |tags|
      ensures Lower(Map(tags, Lower)[i]) == Lower(tags[i])
    {
      LowerIdempotent(tags[i]);
    }
  }

  // `categoryMatchers`, one record per primary category, in declaration order.
  const FoundationsMatchers: seq<Matcher> := [
    Matcher("python-programming", ["python", "programming", "coding"]),
    Matcher("mathematics", ["math", "statistics", "linear algebra"]),
    Matcher("data-analysis", ["data analysis", "data science", "pandas", "numpy"]),
    Matcher("ai-basics", ["ai", "basics", "fundamental"]),
    Matcher("tools-platforms", ["tool", "platform", "framework"])]
  const MachineLearningMatchers: seq<Matcher> := [
    Matcher("supervised-learning", ["supervised", "classification", "regression"]),
    Matcher("unsupervised-learning", ["unsupervised", "clustering", "dimensionality reduction"]),
    Matcher("model-evaluation", ["evaluation", "metrics", "validation"])]
  const DeepLearningMatchers: seq<Matcher> := [
    Matcher("neural-networks", ["neural network", "deep learning"]),
    Matcher("cnn", ["cnn", "convolutional"]),
    Matcher("rnn", ["rnn", "recurrent", "lstm"]),
    Matcher("transformers", ["transformer", "attention"]),
    Matcher("frameworks", ["tensorflow", "pytorch", "keras"])]
  const NlpMatchers: seq<Matcher> := [
    Matcher("text-processing", ["text processing"]),
    Matcher("sentiment-analysis", ["sentiment"]),
    Matcher("language-models", ["language model", "gpt", "bert"]),
    Matcher("translation", ["translation"])]
  const ComputerVisionMatchers: seq<Matcher> := [
    Matcher("image-classification", ["classification"]),
    Matcher("object-detection", ["detection"]),
    Matcher("segmentation", ["segmentation"]),
    Matcher("face-recognition", ["face"])]
  const ReinforcementLearningMatchers: seq<Matcher> := [
    Matcher("q-learning", ["q-learning"]),
    Matcher("policy-gradients", ["policy"]),
    Matcher("deep-reinforcement-learning", ["deep reinforcement"])]
  const GenerativeAiMatchers: seq<Matcher> := [
    Matcher("gans", ["gan", "generative adversarial"]),
    Matcher("diffusion-models", ["diffusion"]),
    Matcher("text-to-image", ["text-to-image", "text to image"]),
    Matcher("prompt-engineering", ["prompt"])]
  const ToolsMatchers: seq<Matcher> := [
    Matcher("development-environments", ["ide", "environment"]),
    Matcher("libraries", ["library", "framework"]),
    Matcher("cloud-platforms", ["cloud", "platform"])]

  /** `categoryMatchers[primary]`, absent for `all`, `other` and unknown strings. */
  function MatchersFor(primary: string): Option<seq<Matcher>>
  {
    if primary == Foundations then Some(FoundationsMatchers)
    else if primary == MachineLearning then Some(MachineLearningMatchers)
    else if primary == DeepLearning then Some(DeepLearningMatchers)
    else if primary == Nlp then Some(NlpMatchers)
    else if primary == ComputerVision then Some(ComputerVisionMatchers)
    else if primary == ReinforcementLearning then Some(ReinforcementLearningMatchers)
    else if primary == GenerativeAi then Some(GenerativeAiMatchers)
    else if primary == Tools then Some(ToolsMatchers)
    else None
  }

  /** The sub-categories of `ms` whose keywords some tag contains, in declaration order. */
  function Matched(ms: seq<Matcher>, tags: seq<string>): seq<string>
  {
    Map(Filter(ms, m => MatchesTags(tags, m)), SubCategoryName)
  }

  /** What `inferSubCategories` returns. */
  function InferredSubCategories(primary: string, tags: seq<string>): seq<string>
  {
    var found := if MatchersFor(primary).Some? then Matched(MatchersFor(primary).value, tags) else [];
    if found == [] then [All] else found
  }

  /** `inferSubCategories`: the matchers are visited in order and each matching sub-category is pushed. */
  method InferSubCategories(primary: string, tags: seq<string>) returns (subCategories: seq<string>)
    ensures subCategories == InferredSubCategories(primary, tags)
  {
    subCategories := [];
    var matchers := MatchersFor(primary);
    if matchers.Some? {
      subCategories := PushMatching(matchers.value, tags);
    }
    if |subCategories| == 0 {
      subCategories := [All];
    }
  }

  /** The `for…of` loop over `Object.entries(matchers)`. */
  method PushMatching(ms: seq<Matcher>, tags: seq<string>) returns (subCategories: seq<string>)
    ensures subCategories == Matched(ms, tags)
  {
    subCategories := [];
    var i := 0;
    while i < |ms|
      invariant 0 <= i <= |ms|
      invariant subCategories == Matched(ms[..i], tags)
    {
      MatchedStep(ms, tags, i);
      if MatchesTags(tags, ms[i]) {
        subCategories := subCategories + [ms[i].subCategory];
      }
      i := i + 1;
    }
    assert ms[..i] == ms;
  }

  /** One more matcher adds its sub-category exactly when it matches. */
  lemma MatchedStep(ms: seq<Matcher>, tags: seq<string>, i: nat)
    requires i < |ms|
    ensures Matched(ms[..i + 1], tags) ==
      Matched(ms[..i], tags) + (if MatchesTags(tags, ms[i]) then [ms[i].subCategory] else [])
  {
    var p := m => MatchesTags(tags, m);
    PrefixStep(ms, i);
    FilterAppend(ms[..i], [ms[i]], p);
    MapAppend(Filter(ms[..i], p), Filter([ms[i]], p), SubCategoryName);
    if MatchesTags(tags, ms[i]) {
      assert Filter([ms[i]], p) == [ms[i]];
    } else {
      assert Filter([ms[i]], p) == [];
    }
  }

  /** A sub-category is inferred exactly when its matcher matches. */
  lemma MatchedMembership(ms: seq<Matcher>, tags: seq<string>, x: string)
    ensures x in Matched(ms, tags) <==>
      exists j :: 0 <= j < |ms| && ms[j].subCategory == x && MatchesTags(tags, ms[j])
  {
    if x in Matched(ms, tags) {
      MatchedSound(ms, tags, x);
    }
    if exists j :: 0 <= j < |ms| && ms[j].subCategory == x && MatchesTags(tags, ms[j]) {
      var j :| 0 <= j < |ms| && ms[j].subCategory == x && MatchesTags(tags, ms[j]);
      MatchedComplete(ms, tags, j);
    }
  }

  lemma MatchedSound(ms: seq<Matcher>, tags: seq<string>, x: string)
    requires x in Matched(ms, tags)
    ensures exists j :: 0 <= j < |ms| && ms[j].subCategory == x && MatchesTags(tags, ms[j])
  {
    var p := m => MatchesTags(tags, m);
    var f := Filter(ms, p);
    var i :| 0 <= i < |f| && f[i].subCategory == x;
    FilterMembership(ms, p, f[i]);
    var j :| 0 <= j < |ms| && ms[j] == f[i];
    assert ms[j].subCategory == x && MatchesTags(tags, ms[j]);
  }

  lemma MatchedComplete(ms: seq<Matcher>, tags: seq<string>, j: nat)
    requires j < |ms| && MatchesTags(tags, ms[j])
    ensures ms[j].subCategory in Matched(ms, tags)
  {
    var p := m => MatchesTags(tags, m);
    var f := Filter(ms, p);
    FilterMembership(ms, p, ms[j]);
    var i :| 0 <= i < |f| && f[i] == ms[j];
    assert Matched(ms, tags)[i] == ms[j].subCategory;
  }

  /** The first matcher contributes its sub-category in front of the rest's, when it matches. */
  lemma MatchedCons(ms: seq<Matcher>, tags: seq<string>)
    requires ms != []
    ensures Matched(ms, tags) ==
      (if MatchesTags(tags, ms[0]) then [ms[0].subCategory] else []) + Matched(ms[1..], tags)
  {
    var p := m => MatchesTags(tags, m);
    MapAppend(if p(ms[0]) then [ms[0]] else [], Filter(ms[1..], p), SubCategoryName);
  }

  /** Distinct sub-category names stay distinct after filtering. */
  lemma {:induction false} MatchedDistinct(ms: seq<Matcher>, tags: seq<string>)
    requires Distinct(Map(ms, SubCategoryName))
    ensures Distinct(Matched(ms, tags))
  {
    if ms != [] {
      assert Map(ms, SubCategoryName) == [ms[0].subCategory] + Map(ms[1..], SubCategoryName);
      MatchedDistinct(ms[1..], tags);
      MatchedCons(ms, tags);
      var rest := Matched(ms[1..], tags);
      if MatchesTags(tags, ms[0]) && ms[0].subCategory in rest {
        MatchedMembership(ms[1..], tags, ms[0].subCategory);
        assert false;
      }
    }
  }

  /** `subs` lists `all` and then the sub-categories of `ms`, in the same order. */
  predicate ListsMatchers(subs: seq<string>, ms: seq<Matcher>)
  {
    && |subs| == |ms| + 1 && subs[0] == All
    && forall j :: 0 <= j < |ms| ==> subs[j + 1] == ms[j].subCategory
  }

  /** The `SUB_CATEGORIES` list of `primary` names exactly its matchers after `all`. */
  predicate TableAgrees(primary: string)
  {
    && SubCategoriesOf(primary).Some?
    && if MatchersFor(primary).Some? then ListsMatchers(SubCategoriesOf(primary).value, MatchersFor(primary).value)
       else SubCategoriesOf(primary).value == [All]
  }

  /** The matcher records and the `SUB_CATEGORIES` lists agree for every primary category. */
  lemma TablesAgree(primary: string)
    ensures primary in PrimaryCategories <==> SubCategoriesOf(primary).Some?
    ensures MatchersFor(primary).Some? ==> primary in PrimaryCategories
    ensures primary in PrimaryCategories ==> TableAgrees(primary)
  {
    RowsAgree();
  }

  /** Each `SUB_CATEGORIES` list is `all` followed by its record's sub-categories. */
  lemma RowsAgree()
    ensures ListsMatchers(FoundationsSubs, FoundationsMatchers)
    ensures ListsMatchers(MachineLearningSubs, MachineLearningMatchers)
    ensures ListsMatchers(DeepLearningSubs, DeepLearningMatchers)
    ensures ListsMatchers(NlpSubs, NlpMatchers)
    ensures ListsMatchers(ComputerVisionSubs, ComputerVisionMatchers)
    ensures ListsMatchers(ReinforcementLearningSubs, ReinforcementLearningMatchers)
    ensures ListsMatchers(GenerativeAiSubs, GenerativeAiMatchers)
    ensures ListsMatchers(ToolsSubs, ToolsMatchers)
  {
  }

  /** No `SUB_CATEGORIES` list names a sub-category twice. */
  lemma SubCategoriesDistinct(primary: string)
    ensures SubCategoriesOf(primary).Some? ==> Distinct(SubCategoriesOf(primary).value)
  {
    RowsDistinct();
  }

  lemma RowsDistinct()
    ensures Distinct(FoundationsSubs)
    ensures Distinct(MachineLearningSubs)
    ensures Distinct(DeepLearningSubs)
    ensures Distinct(NlpSubs)
    ensures Distinct(ComputerVisionSubs)
    ensures Distinct(ReinforcementLearningSubs)
    ensures Distinct(GenerativeAiSubs)
    ensures Distinct(ToolsSubs)
  {
  }

  /** No matcher named `all` means `['all']` stands only for "nothing matched". */
  lemma MatchedAllIff(ms: seq<Matcher>, tags: seq<string>)
    requires forall j :: 0 <= j < |ms| ==> ms[j].subCategory != All
    ensures Matched(ms, tags) != [All]
    ensures Matched(ms, tags) == [] <==> forall j :: 0 <= j < |ms| ==> !MatchesTags(tags, ms[j])
  {
    var found := Matched(ms, tags);
    if found != [] {
      MatchedMembership(ms, tags, found[0]);
    } else {
      forall j | 0 <= j < |ms|
        ensures !MatchesTags(tags, ms[j])
      {
        MatchedMembership(ms, tags, ms[j].subCategory);
      }
    }
  }

  /** Matched sub-categories are distinct and drawn from a duplicate-free list of the matchers. */
  lemma MatchedWithin(ms: seq<Matcher>, subs: seq<string>, tags: seq<string>)
    requires ListsMatchers(subs, ms) && Distinct(subs)
    ensures Distinct(Matched(ms, tags))
    ensures forall x :: x in Matched(ms, tags) ==> x in subs[1..]
  {
    assert Map(ms, SubCategoryName) == subs[1..];
    MatchedDistinct(ms, tags);
    forall x | x in Matched(ms, tags)
      ensures x in subs[1..]
    {
      MatchedMembership(ms, tags, x);
    }
  }

  /** The result is never empty, and it is `['all']` exactly when no matcher of the primary category matches. */
  lemma InferredAllIff(primary: string, tags: seq<string>)
    ensures |InferredSubCategories(primary, tags)| >= 1
    ensures InferredSubCategories(primary, tags) == [All] <==>
      (MatchersFor(primary).None? ||
       forall j :: 0 <= j < |MatchersFor(primary).value| ==> !MatchesTags(tags, MatchersFor(primary).value[j]))
  {
    TablesAgree(primary);
    if MatchersFor(primary).Some? {
      var ms := MatchersFor(primary).value;
      var subs := SubCategoriesOf(primary).value;
      forall j | 0 <= j < |ms|
        ensures ms[j].subCategory != All
      {
        assert subs[j + 1] == ms[j].subCategory;
      }
      MatchedAllIff(ms, tags);
    }
  }

  /** Inferred sub-categories are distinct and listed in `SUB_CATEGORIES[primary]`. */
  lemma InferredWithinSubCategories(primary: string, tags: seq<string>)
    requires primary in PrimaryCategories
    ensures Distinct(InferredSubCategories(primary, tags))
    ensures forall x :: x in InferredSubCategories(primary, tags) ==> x in SubCategoriesOf(primary).value
  {
    TablesAgree(primary);
    SubCategoriesDistinct(primary);
    if MatchersFor(primary).Some? {
      MatchedWithin(MatchersFor(primary).value, SubCategoriesOf(primary).value, tags);
    }
  }

  // ---------------------------------------------------------------------
  // inferLanguage

  /** A language code and the marker words that select it. */
  datatype Marker = Marker(code: string, words: seq<string>)

  /** The branches of `inferLanguage`, in priority order. */
  const LanguageMarkers: seq<Marker> := [
    Marker("zh", ["中文", "chinese", "mandarin"]),
    Marker("jp", ["日语", "japanese"]),
    Marker("kr", ["韩语", "korean"]),
    Marker("fr", ["法语", "french"]),
    Marker("de", ["德语", "german"]),
    Marker("es", ["西班牙语", "spanish"]),
    Marker("ru", ["俄语", "russian"])]

  const English: string := "en"

  predicate Mentions(text: string, m: Marker)
  {
    exists k :: 0 <= k < |m.words| && Contains(text, m.words[k])
  }

  /** The first marker `text` mentions, or `default` when it mentions none. */
  function FirstMentioned(markers: seq<Marker>, text: string, default: string): (r: string)
    ensures (exists i :: 0 <= i < |markers| && r == markers[i].code && Mentions(text, markers[i]) &&
               forall j :: 0 <= j < i ==> !Mentions(text, markers[j]))
         || (r == default && forall j :: 0 <= j < |markers| ==> !Mentions(text, markers[j]))
  {
    if markers == [] then default
    else if Mentions(text, markers[0]) then markers[0].code
    else
      var r := FirstMentioned(markers[1..], text, default);
      assert forall j :: 1 <= j < |markers| ==> markers[j] == markers[1..][j - 1];
      r
  }

  /** The tags joined by spaces and lower-cased, as `inferLanguage` searches them. */
  function TagText(tags: seq<string>): string
  {
    Lower(Join(tags, " "))
  }

  /** `inferLanguage`: always one of the keys of `LANGUAGE_NAMES`, never `all` or `other`. */
  function InferLanguage(tags: seq<string>): (r: string)
    ensures r in LanguageNames && r != "all" && r != "other"
  {
    MarkerCodesNamed();
    FirstMentioned(LanguageMarkers, TagText(tags), English)
  }

  /** Every marker code, and English, is a language name other than `all` and `other`. */
  predicate IsLanguageCode(code: string)
  {
    code in LanguageNames && code != "all" && code != "other"
  }

  lemma MarkerCodesNamed()
    ensures IsLanguageCode(English)
    ensures forall i :: 0 <= i < |LanguageMarkers| ==> IsLanguageCode(LanguageMarkers[i].code)
  {
  }

  /** The codes of `markers` are pairwise different and differ from `default`. */
  predicate CodesDistinct(markers: seq<Marker>, default: string)
  {
    && (forall i, j :: 0 <= i < j < |markers| ==> markers[i].code != markers[j].code)
    && (forall i :: 0 <= i < |markers| ==> markers[i].code != default)
  }

  lemma MarkerCodesDistinct()
    ensures CodesDistinct(LanguageMarkers, English)
  {
  }

  /** With distinct codes, marker `k` wins exactly when it is mentioned and no earlier one is. */
  lemma FirstMentionedPriority(markers: seq<Marker>, text: string, default: string, k: nat)
    requires CodesDistinct(markers, default) && k < |markers|
    ensures FirstMentioned(markers, text, default) == markers[k].code <==>
      Mentions(text, markers[k]) && forall j :: 0 <= j < k ==> !Mentions(text, markers[j])
  {
    var r := FirstMentioned(markers, text, default);
    if r == markers[k].code {
      assert r != default;
      var i :| 0 <= i < |markers| && r == markers[i].code && Mentions(text, markers[i]) &&
               forall j :: 0 <= j < i ==> !Mentions(text, markers[j]);
      assert i == k;
    }
  }

  /** Language `k` is chosen exactly when the tags mention it and none of higher priority. */
  lemma LanguagePriority(tags: seq<string>, k: nat)
    requires k < |LanguageMarkers|
    ensures InferLanguage(tags) == LanguageMarkers[k].code <==>
      Mentions(TagText(tags), LanguageMarkers[k]) &&
      forall j :: 0 <= j < k ==> !Mentions(TagText(tags), LanguageMarkers[j])
  {
    MarkerCodesDistinct();
    FirstMentionedPriority(LanguageMarkers, TagText(tags), English, k);
  }

  /** English is the default: chosen exactly when no language is mentioned. */
  lemma EnglishByDefault(tags: seq<string>)
    ensures InferLanguage(tags) == English <==>
      forall j :: 0 <= j < |LanguageMarkers| ==> !Mentions(TagText(tags), LanguageMarkers[j])
  {
    MarkerCodesDistinct();
  }

  // ---------------------------------------------------------------------
  // migrateTutorialsData

  /** One record of `migrateTutorialsData`. */
  function Migrate(t: Tutorial): (n: TutorialNew)
    ensures n.id == t.id && n.title == t.title && n.description == t.description && n.link == t.link
    ensures n.difficulty == t.difficulty && n.kind == t.kind && n.isFree == t.isFree
    ensures n.topics == t.tags
    ensures n.primaryCategory == MapCategoryToPrimary(t.category)
    ensures n.subCategories == InferredSubCategories(n.primaryCategory, t.tags)
    ensures n.language == InferLanguage(t.tags)
  {
    var primary := MapCategoryToPrimary(t.category);
    TutorialNew(t.id, t.title, t.description, t.link, primary, InferredSubCategories(primary, t.tags),
                t.tags, t.difficulty, t.kind, InferLanguage(t.tags), t.isFree)
  }

  /** `migrateTutorialsData`: one new record per old one, in the same order. */
  function MigrateTutorialsData(tutorials: seq<Tutorial>): (r: seq<TutorialNew>)
    ensures |r| == |tutorials|
    ensures forall k :: 0 <= k < |tutorials| ==> r[k] == Migrate(tutorials[k])
  {
    seq(|tutorials|, k requires 0 <= k < |tutorials| => Migrate(tutorials[k]))
  }

  /** Every migrated record is consistent with the tables of app/data/tutorials.ts. */
  lemma MigratedRecordsConsistent(tutorials: seq<Tutorial>, k: nat)
    requires k < |tutorials|
    ensures var n := MigrateTutorialsData(tutorials)[k];
      && n.primaryCategory in PrimaryCategories
      && SubCategoriesOf(n.primaryCategory).Some?
      && |n.subCategories| >= 1 && Distinct(n.subCategories)
      && (forall x :: x in n.subCategories ==> x in SubCategoriesOf(n.primaryCategory).value)
      && n.language in LanguageNames
  {
    var n := MigrateTutorialsData(tutorials)[k];
    InferredAllIff(n.primaryCategory, tutorials[k].tags);
    InferredWithinSubCategories(n.primaryCategory, tutorials[k].tags);
    TablesAgree(n.primaryCategory);
  }
}
