/**
 * A recommended career's card: the colour of its match bar and badge, the
 * badge's label, and the id the explore button hands on.
 */
module CareerCard {
  import opened Types

  /** `getMatchColor`: green from 90, blue from 80, yellow from 70, gray below. */
  function MatchColor(score: real): (c: string)
    ensures c == "bg-green-500" <==> score >= 90.0
    ensures c == "bg-blue-500" <==> 80.0 <= score < 90.0
    ensures c == "bg-yellow-500" <==> 70.0 <= score < 80.0
    ensures c == "bg-gray-500" <==> score < 70.0
  {
    if score >= 90.0 then "bg-green-500"
    else if score >= 80.0 then "bg-blue-500"
    else if score >= 70.0 then "bg-yellow-500"
    else "bg-gray-500"
  }

  /** The badge's label, on the same thresholds written out a second time. */
  function MatchLabel(score: real): (l: string)
    ensures l == "Perfect Match" <==> score >= 90.0
    ensures l == "Great Match" <==> 80.0 <= score < 90.0
    ensures l == "Good Match" <==> 70.0 <= score < 80.0
    ensures l == "Potential Match" <==> score < 70.0
  {
    if score >= 90.0 then "Perfect Match"
    else if score >= 80.0 then "Great Match"
    else if score >= 70.0 then "Good Match"
    else "Potential Match"
  }

  /** The four bands, lowest first. */
  datatype Band = Potential | Good | Great | Perfect

  function Rank(b: Band): nat {
    match b
    case Potential => 0
    case Good => 1
    case Great => 2
    case Perfect => 3
  }

  function BandColor(b: Band): string {
    match b
    case Perfect => "bg-green-500"
    case Great => "bg-blue-500"
    case Good => "bg-yellow-500"
    case Potential => "bg-gray-500"
  }

  function BandLabel(b: Band): string {
    match b
    case Perfect => "Perfect Match"
    case Great => "Great Match"
    case Good => "Good Match"
    case Potential => "Potential Match"
  }

  /** The band a colour names. */
  function BandOfColor(c: string): Band {
    if c == "bg-green-500" then Perfect
    else if c == "bg-blue-500" then Great
    else if c == "bg-yellow-500" then Good
    else Potential
  }

  /** Colour and label always name the same band, and a higher score never falls in a lower band. */
  lemma BandsAgree(score: real, higher: real)
    ensures MatchLabel(score) == BandLabel(BandOfColor(MatchColor(score)))
    ensures MatchColor(score) == BandColor(BandOfColor(MatchColor(score)))
    ensures score <= higher ==> Rank(BandOfColor(MatchColor(score))) <= Rank(BandOfColor(MatchColor(higher)))
  {
  }

  /** The explore button: `onSelect(career.id)`. */
  function SelectedId(career: CareerRecommendation): string {
    career.id
  }

  /** The first card whose career has the given id, or -1. */
  function CardIndex(recs: seq<CareerRecommendation>, id: string): (i: int)
    ensures -1 <= i < |recs|
    ensures i >= 0 ==> recs[i].id == id && forall j :: 0 <= j < i ==> recs[j].id != id
    ensures i == -1 <==> forall j :: 0 <= j < |recs| ==> recs[j].id != id
  {
    if |recs| == 0 then -1
    else if recs[0].id == id then 0
    else
      var r := CardIndex(recs[1..], id);
      assert forall j :: 1 <= j < |recs| ==> recs[j] == recs[1..][j - 1];
      if r == -1 then -1 else r + 1
  }

  predicate UniqueIds(recs: seq<CareerRecommendation>) {
    forall i, j :: 0 <= i < j < |recs| ==> recs[i].id != recs[j].id
  }

  /** With distinct ids, the id a card hands on names that card and no other. */
  lemma SelectionIdentifiesCard(recs: seq<CareerRecommendation>, i: nat)
    requires i < |recs| && UniqueIds(recs)
    ensures CardIndex(recs, SelectedId(recs[i])) == i
  {
  }
}
