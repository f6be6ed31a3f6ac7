/** The face overlay: the strongest expression of a face, the capitalised
    caption built from it, and the markers drawn over each detected face. */
module FaceOverlay {
  import opened Types

  // ---------------------------------------------------------------------
  // The strongest expression

  /** No entry has a value above zero. */
  predicate NoPositive(entries: seq<Entry>) {
    forall i :: 0 <= i < |entries| ==> entries[i].value <= 0.0
  }

  /** Entry `k` has a positive value, no entry is larger, and every earlier
      entry is strictly smaller: `k` is the first position of the maximum. */
  predicate IsFirstMax(entries: seq<Entry>, k: int) {
    && 0 <= k < |entries|
    && entries[k].value > 0.0
    && (forall i :: 0 <= i < |entries| ==> entries[i].value <= entries[k].value)
    && (forall i :: 0 <= i < k ==> entries[i].value < entries[k].value)
  }

  /** The (label, maximum) pair a left-to-right scan holds after visiting
      `entries`, starting from ("", 0) and replacing it only on a strictly
      larger value. */
  function TopOf(entries: seq<Entry>): (r: Entry)
    ensures r.value >= 0.0
    ensures entries != [] ==> r.value >= entries[|entries| - 1].value
    decreases |entries|
  {
    if entries == [] then Entry("", 0.0)
    else
      var best := TopOf(entries[..|entries| - 1]);
      var last := entries[|entries| - 1];
      if last.value > best.value then last else best
  }

  /** The scan's maximum bounds every value visited. */
  lemma {:induction false} TopOfBounds(entries: seq<Entry>)
    ensures forall i :: 0 <= i < |entries| ==> entries[i].value <= TopOf(entries).value
    decreases |entries|
  {
    if entries != [] {
      var prefix := entries[..|entries| - 1];
      TopOfBounds(prefix);
      assert forall i :: 0 <= i < |prefix| ==> entries[i] == prefix[i];
    }
  }

  /** What the scan computes: the maximum is never negative and bounds every
      value; with no positive value the label stays empty and the maximum 0;
      otherwise the result is the entry at the first position of the maximum. */
  lemma {:induction false} TopOfIsFirstMax(entries: seq<Entry>)
    ensures TopOf(entries).value >= 0.0
    ensures forall i :: 0 <= i < |entries| ==> entries[i].value <= TopOf(entries).value
    ensures NoPositive(entries) ==> TopOf(entries) == Entry("", 0.0)
    ensures !NoPositive(entries) ==> exists k :: IsFirstMax(entries, k) && TopOf(entries) == entries[k]
    decreases |entries|
  {
    TopOfBounds(entries);
    if entries != [] {
      var n := |entries| - 1;
      var prefix := entries[..n];
      var last := entries[n];
      TopOfIsFirstMax(prefix);
      var best := TopOf(prefix);
      assert forall i :: 0 <= i < n ==> entries[i] == prefix[i];
      if last.value > best.value {
        assert IsFirstMax(entries, n);
      } else if !NoPositive(prefix) {
        var k :| IsFirstMax(prefix, k) && best == prefix[k];
        assert IsFirstMax(entries, k);
      } else {
        assert NoPositive(entries);
      }
    }
  }

  /** The first position of the maximum is unique, so `IsFirstMax` pins the
      result of the scan down completely. */
  lemma FirstMaxUnique(entries: seq<Entry>, k1: int, k2: int)
    requires IsFirstMax(entries, k1) && IsFirstMax(entries, k2)
    ensures k1 == k2
  {
  }

  /** On a tie the earlier entry wins: among distinct labels, a later entry
      with the same positive maximal value is never the one chosen. */
  lemma TiesKeepEarliest(entries: seq<Entry>, i: int, j: int)
    requires 0 <= i < j < |entries|
    requires forall p, q :: 0 <= p < q < |entries| ==> entries[p].emotion != entries[q].emotion
    requires entries[i].value == entries[j].value > 0.0
    requires entries[j].value == TopOf(entries).value
    ensures TopOf(entries).emotion != entries[j].emotion
  {
    TopOfIsFirstMax(entries);
    assert !NoPositive(entries);
    var k :| IsFirstMax(entries, k) && TopOf(entries) == entries[k];
    assert k <= i;
  }

  /** The scan over the expression record: keeps the first entry whose value
      is strictly larger than everything before it and than 0. */
  method TopEmotion(entries: seq<Entry>) returns (topEmotion: string, maxValue: real)
    ensures Entry(topEmotion, maxValue) == TopOf(entries)
    ensures maxValue >= 0.0
    ensures forall i :: 0 <= i < |entries| ==> entries[i].value <= maxValue
    ensures NoPositive(entries) ==> topEmotion == "" && maxValue == 0.0
    ensures !NoPositive(entries) ==>
      exists k :: IsFirstMax(entries, k) && topEmotion == entries[k].emotion && maxValue == entries[k].value
  {
    topEmotion, maxValue := "", 0.0;
    for i := 0 to |entries|
      invariant Entry(topEmotion, maxValue) == TopOf(entries[..i])
    {
      assert entries[..i + 1][..i] == entries[..i];
      if entries[i].value > maxValue {
        maxValue := entries[i].value;
        topEmotion := entries[i].emotion;
      }
    }
    assert entries[..|entries|] == entries;
    TopOfIsFirstMax(entries);
  }

  // ---------------------------------------------------------------------
  // The caption

  /** Upper-casing of one character, for the ASCII letters. */
  function UpperCase(c: char): (u: char)
    ensures 'a' <= c <= 'z' ==> 'A' <= u <= 'Z' && u as int - c as int == 'A' as int - 'a' as int
    ensures !('a' <= c <= 'z') ==> u == c
  {
    if 'a' <= c <= 'z' then (c as int - 'a' as int + 'A' as int) as char else c
  }

  /** The first character upper-cased, the rest unchanged; "" stays "". */
  function Capitalize(s: string): (r: string)
    ensures |r| == |s|
    ensures |s| > 0 ==> r[0] == UpperCase(s[0]) && r[1..] == s[1..]
  {
    if s == [] then "" else [UpperCase(s[0])] + s[1..]
  }

  /** Capitalising twice is capitalising once. */
  lemma CapitalizeIdempotent(s: string)
    ensures Capitalize(Capitalize(s)) == Capitalize(s)
  {
  }

  /** Capitalising a non-empty string touches only its first character. */
  lemma CapitalizeCons(c: char, rest: string)
    ensures Capitalize([c] + rest) == [UpperCase(c)] + rest
  {
    assert ([c] + rest)[1..] == rest;
  }

  /** The captions of the seven expression labels. */
  lemma CapitalizedLabels()
    ensures Capitalize("neutral") == "Neutral" && Capitalize("happy") == "Happy"
    ensures Capitalize("sad") == "Sad" && Capitalize("angry") == "Angry"
    ensures Capitalize("fearful") == "Fearful" && Capitalize("disgusted") == "Disgusted"
    ensures Capitalize("surprised") == "Surprised"
  {
    CapitalizeCons('n', "eutral");
    CapitalizeCons('h', "appy");
    CapitalizeCons('s', "ad");
    CapitalizeCons('a', "ngry");
    CapitalizeCons('f', "earful");
    CapitalizeCons('d', "isgusted");
    CapitalizeCons('s', "urprised");
  }

  /** The caption of the strongest expression: its capitalised label and the
      maximum value (the percentage text built from it is not modelled). */
  method GetTopEmotion(entries: seq<Entry>) returns (caption: string, maxValue: real)
    ensures caption == Capitalize(TopOf(entries).emotion) && maxValue == TopOf(entries).value
    ensures NoPositive(entries) ==> caption == "" && maxValue == 0.0
    ensures !NoPositive(entries) ==>
      exists k :: IsFirstMax(entries, k) && caption == Capitalize(entries[k].emotion)
  {
    var topEmotion;
    topEmotion, maxValue := TopEmotion(entries);
    caption := Capitalize(topEmotion);
  }

  /** For an expression record the chosen label is "" (no positive
      probability) or one of the seven labels; the chosen value is at least
      every probability of the record and is that label's own probability. */
  lemma CaptionOfExpressions(e: Expressions)
    ensures var top := TopOf(Entries(e));
      top.emotion == "" || top.emotion in ExpressionLabels
    ensures var top := TopOf(Entries(e));
      && top.value >= e.neutral && top.value >= e.happy && top.value >= e.sad
      && top.value >= e.angry && top.value >= e.fearful
      && top.value >= e.disgusted && top.value >= e.surprised
    ensures var top := TopOf(Entries(e));
      && (top.emotion == "neutral" ==> top.value == e.neutral)
      && (top.emotion == "happy" ==> top.value == e.happy)
      && (top.emotion == "sad" ==> top.value == e.sad)
      && (top.emotion == "angry" ==> top.value == e.angry)
      && (top.emotion == "fearful" ==> top.value == e.fearful)
      && (top.emotion == "disgusted" ==> top.value == e.disgusted)
      && (top.emotion == "surprised" ==> top.value == e.surprised)
    ensures var top := TopOf(Entries(e));
      (top.emotion == "" <==>
        e.neutral <= 0.0 && e.happy <= 0.0 && e.sad <= 0.0 && e.angry <= 0.0 &&
        e.fearful <= 0.0 && e.disgusted <= 0.0 && e.surprised <= 0.0)
  {
    var es := Entries(e);
    TopOfIsFirstMax(es);
    if !NoPositive(es) {
      var k :| IsFirstMax(es, k) && TopOf(es) == es[k];
      assert TopOf(es).emotion == ExpressionLabels[k];
    }
  }

  // ---------------------------------------------------------------------
  // The markers

  /** A landmark dot, placed relative to its face's box (less 2 pixels so the
      4-pixel dot is centred on the point). */
  function LandmarkDot(p: Point, b: Box): (d: Point)
    ensures d.x + b.x + 2.0 == p.x && d.y + b.y + 2.0 == p.y
  {
    Point(p.x - b.x - 2.0, p.y - b.y - 2.0)
  }

  /** What the overlay draws for one face: a box at the face's native
      coordinates, whether the gender/age line is shown, the bare text
      rendered in its place when the guard short-circuits on a number, the
      expression caption if any, and the landmark dots. */
  datatype Marker = Marker(
    key: string,
    box: Box,
    showsGenderAge: bool,
    strayText: Option<string>,
    emotion: Option<string>,
    dots: seq<Point>)

  /** The dots of a face: none without landmarks, one per position otherwise. */
  function Dots(f: FaceDetection): (ds: seq<Point>)
    ensures f.landmarks.None? ==> ds == []
    ensures f.landmarks.Some? ==>
      |ds| == |f.landmarks.value.positions| &&
      forall i :: 0 <= i < |ds| ==>
        ds[i].x + f.detection.box.x + 2.0 == f.landmarks.value.positions[i].x &&
        ds[i].y + f.detection.box.y + 2.0 == f.landmarks.value.positions[i].y
  {
    match f.landmarks
    case None => []
    case Some(l) => seq(|l.positions|, i requires 0 <= i < |l.positions| => LandmarkDot(l.positions[i], f.detection.box))
  }

  /** The gender/age line appears only when both the gender and the age are
      truthy: a non-empty gender and a non-zero age. */
  predicate ShowsGenderAge(f: FaceDetection)
    ensures ShowsGenderAge(f) ==> f.gender.Some? && f.age.Some?
    ensures f.gender == Some("") || f.age == Some(0.0) ==> !ShowsGenderAge(f)
    ensures f.gender.Some? && f.gender.value != "" && f.age.Some? && f.age.value != 0.0 ==> ShowsGenderAge(f)
  {
    && f.gender.Some? && f.gender.value != ""
    && f.age.Some? && f.age.value != 0.0
  }

  /** The value of `gender && age` when it is not the line itself and
      renders as text: a non-empty gender with an age of 0 yields the number
      0, which appears as "0". An empty gender yields "" and an absent field
      yields nothing, neither of which shows. */
  function StrayAgeText(f: FaceDetection): (r: Option<string>)
    ensures r.Some? <==> f.gender.Some? && f.gender.value != "" && f.age == Some(0.0)
    ensures r.Some? ==> r.value == "0" && !ShowsGenderAge(f)
    ensures (ShowsGenderAge(f) || r.Some?) <==> f.gender.Some? && f.gender.value != "" && f.age.Some?
  {
    if f.gender.Some? && f.gender.value != "" && f.age == Some(0.0) then Some("0") else None
  }

  function MarkerOf(f: FaceDetection): (m: Marker)
    ensures m.key == f.id && m.box == f.detection.box
    ensures m.emotion.Some? <==> f.expressions.Some?
    ensures f.expressions.Some? ==>
      m.emotion.value == Capitalize(TopOf(Entries(f.expressions.value)).emotion)
    ensures m.showsGenderAge <==> ShowsGenderAge(f)
    ensures m.showsGenderAge <==>
      (f.gender.Some? && f.gender.value != "") && (f.age.Some? && f.age.value != 0.0)
    ensures m.strayText == StrayAgeText(f)
    ensures m.strayText.Some? ==> !m.showsGenderAge
    ensures m.dots == Dots(f)
  {
    Marker(
      f.id,
      f.detection.box,
      ShowsGenderAge(f),
      StrayAgeText(f),
      match f.expressions
      case None => None
      case Some(e) => Some(Capitalize(TopOf(Entries(e)).emotion)),
      Dots(f))
  }

  /** The overlay: nothing at all when there are no faces, otherwise one
      marker per face, in order, each box at the face's native coordinates
      (no scaling or offset is applied). */
  function Overlay(faces: seq<FaceDetection>): (r: Option<seq<Marker>>)
    ensures r.None? <==> faces == []
    ensures r.Some? ==> |r.value| == |faces|
    ensures r.Some? ==> forall i :: 0 <= i < |faces| ==> r.value[i] == MarkerOf(faces[i])
    ensures r.Some? ==> forall i :: 0 <= i < |faces| ==>
      r.value[i].key == faces[i].id && r.value[i].box == faces[i].detection.box
  {
    if |faces| == 0 then None
    else Some(seq(|faces|, i requires 0 <= i < |faces| => MarkerOf(faces[i])))
  }
}
