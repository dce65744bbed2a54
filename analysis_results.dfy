/**
 * The impact analysis list (client/src/components/AnalysisResults.tsx): the
 * level-to-badge and level-to-icon lookups, the conflict/recommendation
 * detail box, and the "Create New Task" shortcut.
 */
module AnalysisResults {
  import opened Wrappers
  import opened Text
  import opened Schema
  import TaskDialog
  import Bedrock

  const RedBadge: string := "bg-red-100 text-red-800"
  const YellowBadge: string := "bg-yellow-100 text-yellow-800"
  const GreenBadge: string := "bg-green-100 text-green-800"
  const BlueBadge: string := "bg-blue-100 text-blue-800"

  /** `getImpactBadgeColor`: high, medium and low in any letter case; anything else is blue. */
  function BadgeColor(level: string): (badge: string)
    ensures var l := ToLower(level);
            && (badge == RedBadge <==> l == "high")
            && (badge == YellowBadge <==> l == "medium")
            && (badge == GreenBadge <==> l == "low")
            && (badge == BlueBadge <==> l != "high" && l != "medium" && l != "low")
  {
    var l := ToLower(level);
    assert RedBadge[3] == 'r' && YellowBadge[3] == 'y' && GreenBadge[3] == 'g' && BlueBadge[3] == 'b';
    if l == "high" then RedBadge
    else if l == "medium" then YellowBadge
    else if l == "low" then GreenBadge
    else BlueBadge
  }

  /** `getImpactIcon`: high is "error", medium is "warning", low and anything else "info". */
  function ImpactIcon(level: string): (icon: string)
    ensures var l := ToLower(level);
            && (icon == "error" <==> l == "high")
            && (icon == "warning" <==> l == "medium")
            && (icon == "info" <==> l != "high" && l != "medium")
  {
    var l := ToLower(level);
    if l == "high" then "error"
    else if l == "medium" then "warning"
    else "info"
  }

  /** The three schema levels each get their own badge; blue is only for levels outside the schema. */
  lemma SchemaLevelsAreNotBlue(level: string)
    requires ValidImpactLevel(level)
    ensures BadgeColor(level) != BlueBadge
    ensures ImpactIcon(level) == "info" <==> level == "Low"
  {
    var l := ToLower(level);
    if level == "High" {
      assert l[0] == 'h' && l[1] == 'i' && l[2] == 'g' && l[3] == 'h';
      assert l == "high";
    } else if level == "Medium" {
      assert l[0] == 'm' && l[1] == 'e' && l[2] == 'd' && l[3] == 'i' && l[4] == 'u' && l[5] == 'm';
      assert l == "medium";
    } else {
      assert l[0] == 'l' && l[1] == 'o' && l[2] == 'w';
      assert l == "low";
    }
  }

  /** The badge and the icon agree: the icon says "info" exactly when the badge is green or blue. */
  lemma BadgeAndIconAgree(level: string)
    ensures ImpactIcon(level) == "info" <==> BadgeColor(level) == GreenBadge || BadgeColor(level) == BlueBadge
  {
  }

  datatype DetailBox = DetailBox(caption: string, text: string)

  const ConflictCaption: string := "Potential Conflict:"
  const RecommendationCaption: string := "Recommendation:"

  /**
   * The box under an area: shown when it has a non-empty conflict or
   * recommendation; a conflict wins over a recommendation, both for the
   * caption and for the text.
   */
  function Detail(area: ImpactArea): (box: Option<DetailBox>)
    ensures box.Some? <==> Truthy(area.conflict) || Truthy(area.recommendation)
    ensures box.Some? && Truthy(area.conflict) ==> box.value == DetailBox(ConflictCaption, area.conflict.value)
    ensures box.Some? && !Truthy(area.conflict) ==> box.value == DetailBox(RecommendationCaption, area.recommendation.value)
  {
    if Truthy(area.conflict) || Truthy(area.recommendation) then
      Some(DetailBox(
        if Truthy(area.conflict) then ConflictCaption else RecommendationCaption,
        OptOrElse(area.conflict, OptOrElse(area.recommendation, ""))))
    else None
  }

  /**
   * A task opened from an area starts with the text of that area's detail
   * box as its description, or an empty one when the area shows no box.
   */
  lemma TaskDefaultsFollowDetail(area: ImpactArea)
    ensures Detail(area).Some? ==> TaskDialog.DefaultValues(Some(area)).description == Detail(area).value.text
    ensures Detail(area).None? ==> TaskDialog.DefaultValues(Some(area)).description == ""
  {
  }

  /** Of the mock areas, the first shows its conflict and the other two their recommendation. */
  lemma MockAreasDetail()
    ensures Detail(Bedrock.MockImpactedAreas[0]).Some? && Detail(Bedrock.MockImpactedAreas[0]).value.caption == ConflictCaption
    ensures Detail(Bedrock.MockImpactedAreas[1]).Some? && Detail(Bedrock.MockImpactedAreas[1]).value.caption == RecommendationCaption
    ensures Detail(Bedrock.MockImpactedAreas[2]).Some? && Detail(Bedrock.MockImpactedAreas[2]).value.caption == RecommendationCaption
  {
  }

  /** "Create New Task": the first area, and only when there is one. */
  function CreateNewTaskTarget(areas: seq<ImpactArea>): (target: Option<ImpactArea>)
    ensures target.Some? <==> |areas| > 0
    ensures target.Some? ==> target.value == areas[0]
  {
    if |areas| > 0 then Some(areas[0]) else None
  }
}
