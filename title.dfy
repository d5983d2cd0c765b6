/**
 * The product title: the product name followed by at most one volume part and
 * one colour part taken from `filter_labels` (alcoteka.py, parse_product).
 * Python's `str.lower` is Unicode-aware; the model takes it as the parameter
 * `lower` and assumes nothing about it.
 */
module Title {
  import opened Options
  import opened Text
  import opened Search
  import opened Product

  const VOLUME_FILTER := "obem"
  const COLOUR_FILTER := "cvet"
  const PART_SEP := ", "

  /** Index of the first label whose `filter` is `filter`. */
  function FirstLabel(labels: seq<Label>, filter: string): Option<nat> {
    FirstMatch(labels, (l: Label) => l.filter == Some(filter))
  }

  /** A label title is staged when it is non-empty and, lower-cased, not already inside the lower-cased name. */
  predicate Admissible(name: string, title: string, lower: string -> string) {
    title != "" && !Contains(lower(name), lower(title))
  }

  /** The title of the first label with `filter`, the only one the spider looks at. */
  function Candidate(labels: seq<Label>, filter: string): Option<string> {
    match FirstLabel(labels, filter)
    case None => None
    case Some(i) => labels[i].title
  }

  /** The part staged for `filter`: the candidate when admissible, nothing otherwise. */
  function Staged(name: string, labels: seq<Label>, filter: string, lower: string -> string): seq<string> {
    match Candidate(labels, filter)
    case Some(t) => if Admissible(name, t, lower) then [t] else []
    case None => []
  }

  /** The list `extra_parts` once both scans are done: volume first, then colour. */
  function ExtraParts(name: string, labels: seq<Label>, lower: string -> string): seq<string> {
    Staged(name, labels, VOLUME_FILTER, lower) + Staged(name, labels, COLOUR_FILTER, lower)
  }

  /** `name`, or `f"{name}, {', '.join(parts)}"` when parts were staged. */
  function ComposeTitle(name: string, parts: seq<string>): (title: string)
    ensures name <= title
    ensures title == name <==> parts == []
  {
    if parts == [] then name else name + PART_SEP + Join(parts, PART_SEP)
  }

  /** The title the spider emits for a product named `name` with labels `labels`. */
  function TitleOf(name: string, labels: seq<Label>, lower: string -> string): string {
    ComposeTitle(name, ExtraParts(name, labels, lower))
  }

  /**
   * The title-building loops of parse_product: scan for the first volume
   * label, then for the first colour label, appending each admissible title
   * to `extraParts` and stopping at the first label of that kind.
   */
  method BuildTitle(name: string, labels: seq<Label>, lower: string -> string) returns (title: string)
    ensures title == TitleOf(name, labels, lower)
  {
    title := name;
    var extraParts: seq<string> := [];
    var nameLower := lower(name);

    var i := 0;
    while i < |labels|
      invariant 0 <= i <= |labels|
      invariant forall j :: 0 <= j < i ==> labels[j].filter != Some(VOLUME_FILTER)
      invariant extraParts == []
    {
      if labels[i].filter == Some(VOLUME_FILTER) {
        var volume := labels[i].title;
        if volume.Some? && volume.value != "" && !Contains(nameLower, lower(volume.value)) {
          extraParts := extraParts + [volume.value];
        }
        break;
      }
      i := i + 1;
    }
    assert extraParts == Staged(name, labels, VOLUME_FILTER, lower);

    var k := 0;
    while k < |labels|
      invariant 0 <= k <= |labels|
      invariant forall j :: 0 <= j < k ==> labels[j].filter != Some(COLOUR_FILTER)
      invariant extraParts == Staged(name, labels, VOLUME_FILTER, lower)
    {
      if labels[k].filter == Some(COLOUR_FILTER) {
        var colour := labels[k].title;
        if colour.Some? && colour.value != "" && !Contains(nameLower, lower(colour.value)) {
          extraParts := extraParts + [colour.value];
        }
        break;
      }
      k := k + 1;
    }
    assert extraParts == ExtraParts(name, labels, lower);

    if extraParts != [] {
      title := name + PART_SEP + Join(extraParts, PART_SEP);
    }
  }

  /**
   * At most two parts are staged; each is admissible; a staged volume part
   * comes first and a staged colour part last; and each is the title of the
   * first label of its kind.
   */
  lemma ExtraPartsShape(name: string, labels: seq<Label>, lower: string -> string)
    ensures var parts := ExtraParts(name, labels, lower);
      && |parts| <= 2
      && (forall k :: 0 <= k < |parts| ==> Admissible(name, parts[k], lower))
      && (forall k :: 0 <= k < |parts| ==> Some(parts[k]) == Candidate(labels, VOLUME_FILTER) || Some(parts[k]) == Candidate(labels, COLOUR_FILTER))
      && (Staged(name, labels, VOLUME_FILTER, lower) != [] ==> Some(parts[0]) == Candidate(labels, VOLUME_FILTER))
      && (Staged(name, labels, COLOUR_FILTER, lower) != [] ==> Some(parts[|parts| - 1]) == Candidate(labels, COLOUR_FILTER))
  {
  }

  /**
   * The title always starts with the name; it equals the name exactly when
   * nothing was staged; otherwise it is the name, ", " and the staged parts
   * joined by ", ".
   */
  lemma TitleShape(name: string, labels: seq<Label>, lower: string -> string)
    ensures var title := TitleOf(name, labels, lower);
      var parts := ExtraParts(name, labels, lower);
      && name <= title
      && (title == name <==> parts == [])
      && (|parts| == 1 ==> title == name + ", " + parts[0])
      && (|parts| == 2 ==> title == name + ", " + parts[0] + ", " + parts[1])
  {
    var parts := ExtraParts(name, labels, lower);
    if |parts| == 2 {
      assert parts == [parts[0]] + [parts[1]];
      JoinSnoc([parts[0]], parts[1], PART_SEP);
    }
  }

  /**
   * Only the first label of each kind is consulted: once `labels` holds a
   * label with `filter`, no label appended after it changes the staged part,
   * even when that first label was not admissible.
   */
  lemma StagedIgnoresLaterLabels(name: string, labels: seq<Label>, later: seq<Label>, filter: string, lower: string -> string)
    requires FirstLabel(labels, filter).Some?
    ensures Staged(name, labels + later, filter, lower) == Staged(name, labels, filter, lower)
  {
    FirstMatchIgnoresLater(labels, later, (l: Label) => l.filter == Some(filter));
    var i := FirstLabel(labels, filter).value;
    assert (labels + later)[i] == labels[i];
  }

  /** Once a volume and a colour label have been seen, later labels never change the title. */
  lemma TitleIgnoresLaterLabels(name: string, labels: seq<Label>, later: seq<Label>, lower: string -> string)
    requires FirstLabel(labels, VOLUME_FILTER).Some? && FirstLabel(labels, COLOUR_FILTER).Some?
    ensures TitleOf(name, labels + later, lower) == TitleOf(name, labels, lower)
  {
    StagedIgnoresLaterLabels(name, labels, later, VOLUME_FILTER, lower);
    StagedIgnoresLaterLabels(name, labels, later, COLOUR_FILTER, lower);
  }
}
