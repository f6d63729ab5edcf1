/**
 The symptom-rating vector of the symptoms screen: ten slots, all zero when
 the screen opens, each star click overwriting one slot with 1..5.
 */
module Ratings {

  /** Number of symptoms asked about (nausea, headache, ..., feeling tired). */
  const SymptomCount: nat := 10
  /** Stars offered per symptom. */
  const MaxStars: nat := 5

  /** A click on star `star` in the row of symptom `symptom` (0-based). */
  datatype StarClick = StarClick(symptom: nat, star: int)

  /** The clicks the screen can produce: a listed symptom and a star 1..5. */
  predicate ValidClick(c: StarClick) {
    c.symptom < SymptomCount && 1 <= c.star <= MaxStars
  }

  /** Ten ratings, each 0 (unrated) or a severity 1..5. */
  predicate ValidRatings(rs: seq<int>) {
    |rs| == SymptomCount && forall i :: 0 <= i < |rs| ==> 0 <= rs[i] <= MaxStars
  }

  /** `mutableStateListOf(0,0,0,0,0,0,0,0,0,0)`. */
  function InitialRatings(): (rs: seq<int>)
    ensures ValidRatings(rs)
    ensures forall i :: 0 <= i < |rs| ==> rs[i] == 0
  {
    seq(SymptomCount, _ => 0)
  }

  /** `ratings[i] = star`: the clicked slot takes the star, the others stay. */
  function Click(rs: seq<int>, c: StarClick): (r: seq<int>)
    requires c.symptom < |rs|
    ensures |r| == |rs|
    ensures r[c.symptom] == c.star
    ensures forall j :: 0 <= j < |rs| && j != c.symptom ==> r[j] == rs[j]
  {
    rs[c.symptom := c.star]
  }

  /** Clicks the screen can produce keep the ratings within their range. */
  lemma ClickKeepsValid(rs: seq<int>, c: StarClick)
    requires ValidRatings(rs) && ValidClick(c)
    ensures ValidRatings(Click(rs, c))
  {
  }

  /** Star `t` of a row is drawn filled exactly when `t <= ratings[i]`. */
  predicate StarFilled(rs: seq<int>, i: nat, t: int)
    requires i < |rs|
  {
    t <= rs[i]
  }

  /** After clicking star `s` of a row, stars 1..s of that row are filled and
      the rest are outlined. */
  lemma ClickFillsStars(rs: seq<int>, c: StarClick, t: int)
    requires c.symptom < |rs| && 1 <= t <= MaxStars
    ensures StarFilled(Click(rs, c), c.symptom, t) <==> t <= c.star
  {
  }

  predicate AllValidClicks(clicks: seq<StarClick>) {
    forall k :: 0 <= k < |clicks| ==> ValidClick(clicks[k])
  }

  /** The ratings after a sequence of clicks, applied first to last. */
  function ApplyClicks(rs: seq<int>, clicks: seq<StarClick>): (r: seq<int>)
    requires |rs| == SymptomCount && AllValidClicks(clicks)
    ensures |r| == SymptomCount
    decreases |clicks|
  {
    if clicks == [] then rs else ApplyClicks(Click(rs, clicks[0]), clicks[1..])
  }

  /** Reference definition, read from the last click backwards: slot `i`
      holds the star of the last click on symptom `i`, or its starting value
      when there was none. */
  function LastStar(rs: seq<int>, clicks: seq<StarClick>, i: nat): int
    requires i < |rs|
    decreases |clicks|
  {
    if clicks == [] then rs[i]
    else if clicks[|clicks| - 1].symptom == i then clicks[|clicks| - 1].star
    else LastStar(rs, clicks[..|clicks| - 1], i)
  }

  /** Applying one more click is one more `Click` on the result so far. */
  lemma {:induction false} ApplyClicksSnoc(rs: seq<int>, clicks: seq<StarClick>, c: StarClick)
    requires |rs| == SymptomCount && AllValidClicks(clicks) && ValidClick(c)
    ensures AllValidClicks(clicks + [c])
    ensures ApplyClicks(rs, clicks + [c]) == Click(ApplyClicks(rs, clicks), c)
    decreases |clicks|
  {
    if clicks == [] {
      assert [c][1..] == [];
    } else {
      assert (clicks + [c])[0] == clicks[0];
      assert (clicks + [c])[1..] == clicks[1..] + [c];
      ApplyClicksSnoc(Click(rs, clicks[0]), clicks[1..], c);
    }
  }

  /** The last click on a symptom decides its rating. */
  lemma {:induction false} LastClickWins(rs: seq<int>, clicks: seq<StarClick>, i: nat)
    requires |rs| == SymptomCount && AllValidClicks(clicks) && i < SymptomCount
    ensures ApplyClicks(rs, clicks)[i] == LastStar(rs, clicks, i)
    decreases |clicks|
  {
    if clicks != [] {
      var front, last := clicks[..|clicks| - 1], clicks[|clicks| - 1];
      assert clicks == front + [last];
      ApplyClicksSnoc(rs, front, last);
      LastClickWins(rs, front, i);
    }
  }

  /** However many clicks follow, the list keeps ten entries in [0, 5]. */
  lemma {:induction false} ClicksKeepValid(rs: seq<int>, clicks: seq<StarClick>)
    requires ValidRatings(rs) && AllValidClicks(clicks)
    ensures ValidRatings(ApplyClicks(rs, clicks))
    decreases |clicks|
  {
    if clicks != [] {
      ClickKeepsValid(rs, clicks[0]);
      ClicksKeepValid(Click(rs, clicks[0]), clicks[1..]);
    }
  }
}
