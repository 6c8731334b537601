// The card of app/components/ResourceCard.tsx: link normalisation, the
// card height, the action label, when the expand buttons appear, how many
// tags each variant shows, and the price badge; the two expand flags are
// the card's state.

module ResourceCard {
  import opened Wrappers
  import opened Text
  import opened Listing

  datatype Variant = DatasetCard | TutorialCard | ModelCard | FrameworkCard | DefaultCard

  /** An optional link: absent or empty becomes `''`, anything else is normalised like the main link. */
  function FormattedOptionalLink(link: Option<string>): (r: string)
    ensures r == "" <==> link.None? || link.value == ""
    ensures link.Some? && link.value != "" ==> r == FormatLink(link.value)
  {
    if link.Some? && link.value != "" then FormatLink(link.value) else ""
  }

  /** Normalising a normalised optional link changes nothing. */
  lemma FormattedOptionalLinkIdempotent(link: Option<string>)
    ensures FormattedOptionalLink(Some(FormattedOptionalLink(link))) == FormattedOptionalLink(link)
  {
    if link.Some? && link.value != "" {
      FormatLinkIdempotent(link.value);
    }
  }

  /** `getCardHeight`: no fixed height while anything is expanded, else a height per variant. */
  function CardHeight(variant: Variant, isTitleExpanded: bool, isDescriptionExpanded: bool): (r: string)
    ensures isTitleExpanded || isDescriptionExpanded <==> r == ""
    ensures !isTitleExpanded && !isDescriptionExpanded ==>
      && (variant == DatasetCard || variant == DefaultCard <==> r == "h-[320px]")
      && (variant == TutorialCard || variant == FrameworkCard <==> r == "h-[280px]")
      && (variant == ModelCard <==> r == "h-[330px]")
  {
    if isTitleExpanded || isDescriptionExpanded then ""
    else match variant
      case DatasetCard => "h-[320px]"
      case TutorialCard => "h-[280px]"
      case FrameworkCard => "h-[280px]"
      case ModelCard => "h-[330px]"
      case DefaultCard => "h-[320px]"
  }

  const DatasetCategories: seq<string> :=
    ["Image Datasets", "Text Datasets", "Audio Datasets", "Multimodal Datasets", "Tabular Datasets"]

  /** The labels the `type` field selects, in the order the card checks them. */
  const TypeLabels: seq<(string, string)> :=
    [("course", "Start Learning"), ("video", "Watch Video"), ("article", "Read Article"), ("book", "View Book")]

  /** The label of the first `(type, label)` pair whose type is `kind`. */
  function TypeLabel(labels: seq<(string, string)>, kind: string): (r: Option<string>)
    ensures r.None? <==> forall i :: 0 <= i < |labels| ==> labels[i].0 != kind
    ensures r.Some? ==> exists i :: 0 <= i < |labels| && labels[i].0 == kind && r.value == labels[i].1 &&
                                   (forall j :: 0 <= j < i ==> labels[j].0 != kind)
  {
    if labels == [] then None
    else if labels[0].0 == kind then Some(labels[0].1)
    else
      var r := TypeLabel(labels[1..], kind);
      assert forall j :: 1 <= j < |labels| ==> labels[j] == labels[1..][j - 1];
      r
  }

  /** `getActionText`: the type decides first, then a dataset category, then the framework variant. */
  function ActionText(kind: Option<string>, category: Option<string>, variant: Variant): (r: string)
    ensures kind.Some? && TypeLabel(TypeLabels, kind.value).Some? ==> r == TypeLabel(TypeLabels, kind.value).value
    ensures (kind.None? || TypeLabel(TypeLabels, kind.value).None?) ==>
      && (category.Some? && category.value in DatasetCategories ==> r == "Access Dataset")
      && (!(category.Some? && category.value in DatasetCategories) && variant == FrameworkCard ==> r == "Visit Framework")
      && (!(category.Some? && category.value in DatasetCategories) && variant != FrameworkCard ==> r == "View Link")
  {
    if kind.Some? && TypeLabel(TypeLabels, kind.value).Some? then TypeLabel(TypeLabels, kind.value).value
    else if category.Some? && category.value in DatasetCategories then "Access Dataset"
    else if variant == FrameworkCard then "Visit Framework"
    else "View Link"
  }

  /** A course, video, article or book is labelled by its type, whatever its category or variant. */
  lemma TypeWins(kind: string, category: Option<string>, variant: Variant)
    ensures kind == "course" ==> ActionText(Some(kind), category, variant) == "Start Learning"
    ensures kind == "video" ==> ActionText(Some(kind), category, variant) == "Watch Video"
    ensures kind == "article" ==> ActionText(Some(kind), category, variant) == "Read Article"
    ensures kind == "book" ==> ActionText(Some(kind), category, variant) == "View Book"
  {
    assert TypeLabels[0].0 == "course" && TypeLabels[1].0 == "video";
    assert TypeLabels[2].0 == "article" && TypeLabels[3].0 == "book";
  }

  /** The title toggle appears only for titles longer than 50 characters. */
  predicate ShowsTitleToggle(title: string)
  {
    |title| > 50
  }

  /** The description toggle: longer than 150 characters, or than 120 on a tutorial card. */
  predicate ShowsDescriptionToggle(description: string, variant: Variant)
  {
    |description| > 150 || (variant == TutorialCard && |description| > 120)
  }

  /** A tutorial card offers the toggle whenever any other card would. */
  lemma TutorialToggleThresholdLower(description: string, variant: Variant)
    ensures ShowsDescriptionToggle(description, variant) ==> ShowsDescriptionToggle(description, TutorialCard)
    ensures variant != TutorialCard ==> (ShowsDescriptionToggle(description, variant) <==> |description| > 150)
  {
  }

  /** The tags a card shows: two on tutorial cards, three on framework and dataset cards, all otherwise. */
  function ShownTags(tags: seq<string>, variant: Variant): (r: seq<string>)
    ensures |r| <= |tags| && r == tags[..|r|]
    ensures variant == TutorialCard ==> |r| == Min(|tags|, 2)
    ensures variant == FrameworkCard || variant == DatasetCard ==> |r| == Min(|tags|, 3)
    ensures variant == ModelCard || variant == DefaultCard ==> r == tags
  {
    match variant
    case TutorialCard => tags[..Min(|tags|, 2)]
    case FrameworkCard => tags[..Min(|tags|, 3)]
    case DatasetCard => tags[..Min(|tags|, 3)]
    case _ => tags
  }

  /** The price badge: shown exactly when `isFree` is defined, reading `Free` or `Paid`. */
  function PriceBadge(isFree: Option<bool>): (r: Option<string>)
    ensures r.Some? <==> isFree.Some?
    ensures r.Some? ==> (r.value == "Free" <==> isFree.value)
    ensures r.Some? ==> (r.value == "Paid" <==> !isFree.value)
  {
    match isFree
    case None => None
    case Some(free) => Some(if free then "Free" else "Paid")
  }

  /** `isTitleExpanded` and `isDescriptionExpanded`. */
  class Card {
    var isTitleExpanded: bool
    var isDescriptionExpanded: bool

    constructor ()
      ensures !isTitleExpanded && !isDescriptionExpanded
    {
      isTitleExpanded := false;
      isDescriptionExpanded := false;
    }

    method ToggleTitle()
      modifies this
      ensures isTitleExpanded == !old(isTitleExpanded) && isDescriptionExpanded == old(isDescriptionExpanded)
    {
      isTitleExpanded := !isTitleExpanded;
    }

    method ToggleDescription()
      modifies this
      ensures isDescriptionExpanded == !old(isDescriptionExpanded) && isTitleExpanded == old(isTitleExpanded)
    {
      isDescriptionExpanded := !isDescriptionExpanded;
    }
  }
}
