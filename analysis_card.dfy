/**
 * The analysis panel: nothing without an analysis; otherwise a moat alert
 * whose colour is read off the moat text and whose title is the moat's first
 * sentence, and one bullet per catalyst and per risk.
 */
module AnalysisCard {
  import opened Wrappers
  import opened Strings
  import AiCache

  datatype MoatColor = Green | Yellow | Gray

  /** One rendered list entry: its React key (the position) and its text. */
  datatype Bullet = Bullet(key: nat, text: string)

  /** What the card shows. */
  datatype CardView = CardView(
    color: MoatColor,
    title: string,
    moat: Option<string>,
    catalysts: seq<Bullet>,
    risks: seq<Bullet>,
    summary: string)

  /** `moat?.toLowerCase() || ""`. */
  function LoweredMoat(moat: Option<string>): string {
    if moat.Some? then ToLower(moat.value) else ""
  }

  /** Green for a wide moat, which wins over "narrow"; yellow for a narrow one; gray otherwise. */
  function MoatColorOf(moat: Option<string>): (c: MoatColor)
    ensures c == Green <==> Contains(LoweredMoat(moat), "wide")
    ensures c == Yellow <==> !Contains(LoweredMoat(moat), "wide") && Contains(LoweredMoat(moat), "narrow")
    ensures moat.None? ==> c == Gray
  {
    var lowered := LoweredMoat(moat);
    if Contains(lowered, "wide") then Green
    else if Contains(lowered, "narrow") then Yellow
    else Gray
  }

  /** The colour does not depend on letter case: upper-casing the moat text keeps it. */
  lemma MoatColorIgnoresCase(moat: string)
    ensures MoatColorOf(Some(ToUpper(moat))) == MoatColorOf(Some(moat))
  {
    LowerOfUpper(moat);
  }

  /** The text before the first '.', or all of it when there is none: `split('.')[0]`. */
  function BeforeFirstDot(s: string): (r: string)
    ensures r <= s
    ensures '.' !in r
    ensures |r| < |s| ==> s[|r|] == '.'
  {
    if |s| == 0 || s[0] == '.' then [] else [s[0]] + BeforeFirstDot(s[1..])
  }

  /** Without a '.' the whole text is the first sentence. */
  lemma NoDotWhole(s: string)
    requires '.' !in s
    ensures BeforeFirstDot(s) == s
  {
  }

  /** The alert title: the moat's first sentence, or "Unknown" when the moat is missing or empty. */
  function MoatTitle(moat: Option<string>): (t: string)
    ensures moat.None? || moat.value == "" ==> t == "Unknown"
    ensures moat.Some? && moat.value != "" ==> t <= moat.value && '.' !in t
    ensures moat.Some? && moat.value != "" && |t| < |moat.value| ==> moat.value[|t|] == '.'
  {
    if moat.Some? && moat.value != "" then BeforeFirstDot(moat.value) else "Unknown"
  }

  /** `renderListItems`: one bullet per item, in order; none for a missing list. */
  function RenderListItems(items: Option<seq<string>>): (r: seq<Bullet>)
    ensures items.None? ==> r == []
    ensures items.Some? ==> |r| == |items.value|
    ensures items.Some? ==> forall i :: 0 <= i < |r| ==> r[i].text == items.value[i] && r[i].key == i
  {
    match items
    case None => []
    case Some(xs) => seq(|xs|, i requires 0 <= i < |xs| => Bullet(i, xs[i]))
  }

  /** The texts of the bullets. */
  function Texts(bullets: seq<Bullet>): (r: seq<string>)
    ensures |r| == |bullets|
    ensures forall i :: 0 <= i < |bullets| ==> r[i] == bullets[i].text
  {
    seq(|bullets|, i requires 0 <= i < |bullets| => bullets[i].text)
  }

  /** Reading the bullets back gives the list: nothing dropped, duplicated or reordered. */
  lemma RenderListItemsRoundTrip(items: seq<string>)
    ensures Texts(RenderListItems(Some(items))) == items
  {
  }

  /** `AnalysisCard`: rendered exactly when an analysis is given. */
  function Render(analysis: Option<AiCache.Analysis>, summary: string): (r: Option<CardView>)
    ensures r.None? <==> analysis.None?
    ensures r.Some? ==>
      r.value.color == MoatColorOf(analysis.value.moat) &&
      r.value.title == MoatTitle(analysis.value.moat) &&
      r.value.moat == analysis.value.moat &&
      r.value.summary == summary &&
      r.value.catalysts == RenderListItems(analysis.value.catalysts) &&
      r.value.risks == RenderListItems(analysis.value.risks)
  {
    match analysis
    case None => None
    case Some(a) =>
      Some(CardView(MoatColorOf(a.moat), MoatTitle(a.moat), a.moat,
                    RenderListItems(a.catalysts), RenderListItems(a.risks), summary))
  }
}
