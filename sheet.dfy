/** The bottom sheet of the photo chat (components/PhotoRAGChat.tsx): its
    three resting offsets, the clamp applied while it is dragged, and the
    snap point chosen when the drag is released. Offsets are measured
    downwards from the fully expanded position, so a larger offset shows
    less of the sheet. Gesture values are reals; the sheet height derives
    from the window height scaled by 0.55 and rounded down, which is passed
    in as an integer. */
module Sheet {
  const MinSheetHeight := 400
  const Peek := 490
  /** `TRANSLATE_EXPANDED`. */
  const Expanded := 0
  /** Release velocities beyond this flick the sheet open or shut. */
  const FlickVelocity: real := 0.8

  /** `SHEET_HEIGHT = max(400, floor(SCREEN_HEIGHT * 0.55))`. */
  function SheetHeight(scaledHeight: int): (h: int)
    ensures h >= MinSheetHeight && h >= scaledHeight
    ensures h == MinSheetHeight || h == scaledHeight
  {
    if scaledHeight > MinSheetHeight then scaledHeight else MinSheetHeight
  }

  /** `TRANSLATE_COLLAPSED = SHEET_HEIGHT - PEEK`: negative on short screens. */
  function Collapsed(scaledHeight: int): (c: int)
    ensures c >= MinSheetHeight - Peek
    ensures c < 0 <==> SheetHeight(scaledHeight) < Peek
  {
    SheetHeight(scaledHeight) - Peek
  }

  /** `TRANSLATE_MID = floor((COLLAPSED + EXPANDED) / 2)`; Dafny's division
      by a positive divisor rounds down like `Math.floor`. */
  function Mid(scaledHeight: int): (m: int)
    ensures 2 * m <= Collapsed(scaledHeight) + Expanded < 2 * m + 2
  {
    (Collapsed(scaledHeight) + Expanded) / 2
  }

  /** The least and greatest resting offsets. */
  function Low(scaledHeight: int): real {
    if Collapsed(scaledHeight) < Expanded then Collapsed(scaledHeight) as real else Expanded as real
  }

  function High(scaledHeight: int): real {
    if Collapsed(scaledHeight) < Expanded then Expanded as real else Collapsed(scaledHeight) as real
  }

  /** The middle point lies between the two ends. */
  lemma MidBetween(scaledHeight: int)
    ensures Low(scaledHeight) <= Mid(scaledHeight) as real <= High(scaledHeight)
  {
  }

  function Abs(x: real): (r: real)
    ensures r >= 0.0 && (r == x || r == -x)
  {
    if x < 0.0 then -x else x
  }

  function Max(a: real, b: real): real {
    if a >= b then a else b
  }

  function Min(a: real, b: real): real {
    if a <= b then a else b
  }

  /** The pan-move rule `max(EXPANDED, min(COLLAPSED, next))`. When the
      collapsed offset is not negative the result lies between the two ends
      and is `next` whenever `next` already does; on a short screen, where
      the collapsed offset is negative, the result is always `EXPANDED`. */
  function Clamp(scaledHeight: int, next: real): (r: real)
    ensures Collapsed(scaledHeight) >= Expanded ==>
              Expanded as real <= r <= Collapsed(scaledHeight) as real
    ensures Collapsed(scaledHeight) >= Expanded && Expanded as real <= next <= Collapsed(scaledHeight) as real ==>
              r == next
    ensures Collapsed(scaledHeight) < Expanded ==> r == Expanded as real
    ensures Low(scaledHeight) <= r <= High(scaledHeight)
  {
    Max(Expanded as real, Min(Collapsed(scaledHeight) as real, next))
  }

  /** Clamping a clamped offset changes nothing. */
  lemma ClampIdempotent(scaledHeight: int, next: real)
    ensures Clamp(scaledHeight, Clamp(scaledHeight, next)) == Clamp(scaledHeight, next)
  {
  }

  // ---------------------------------------------------------------------
  // The snap choice: `choices.sort((a, b) => a.d - b.d)` then `choices[0].t`.

  /** A candidate resting offset and its distance from the release point. */
  datatype Choice = Choice(t: real, d: real)

  predicate SortedByDistance(s: seq<Choice>) {
    forall i, j :: 0 <= i < j < |s| ==> s[i].d <= s[j].d
  }

  /** Insertion in front of the first element that is not closer, so that
      among equal distances the inserted (earlier) choice comes first. */
  function Insert(x: Choice, s: seq<Choice>): (r: seq<Choice>)
    ensures multiset(r) == multiset(s) + multiset{x}
    ensures |r| == |s| + 1
    ensures (s == [] || x.d <= s[0].d) ==> r[0] == x
    ensures s != [] && x.d > s[0].d ==> r[0] == s[0]
  {
    if s == [] || x.d <= s[0].d then [x] + s
    else
      assert s == [s[0]] + s[1..];
      [s[0]] + Insert(x, s[1..])
  }

  /** Insertion keeps a sorted sequence sorted. */
  lemma {:induction false} InsertSorted(x: Choice, s: seq<Choice>)
    requires SortedByDistance(s)
    ensures SortedByDistance(Insert(x, s))
  {
    if s != [] && x.d > s[0].d {
      var t := Insert(x, s[1..]);
      InsertSorted(x, s[1..]);
      assert t[0] == x || t[0] == s[1];
      assert forall j :: 0 <= j < |t| ==> s[0].d <= t[0].d <= t[j].d;
    }
  }

  /** A stable sort by distance, as `Array.prototype.sort` is. */
  function SortByDistance(s: seq<Choice>): (r: seq<Choice>)
    ensures |r| == |s|
    ensures SortedByDistance(r)
  {
    if s == [] then []
    else
      InsertSorted(s[0], SortByDistance(s[1..]));
      Insert(s[0], SortByDistance(s[1..]))
  }

  /** The sort only reorders. */
  lemma {:induction false} SortByDistancePermutes(s: seq<Choice>)
    ensures multiset(SortByDistance(s)) == multiset(s)
  {
    if s != [] {
      SortByDistancePermutes(s[1..]);
      assert s == [s[0]] + s[1..];
    }
  }

  /** The head of the sorted choices is one of the choices. */
  lemma SortHeadIsAChoice(s: seq<Choice>) returns (k: nat)
    requires s != []
    ensures k < |s| && SortByDistance(s)[0] == s[k]
  {
    var r := SortByDistance(s);
    SortByDistancePermutes(s);
    assert r[0] in multiset(s);
    k :| 0 <= k < |s| && s[k] == r[0];
  }

  /** The head of the sorted choices is the FIRST choice of least distance. */
  lemma {:induction false} SortHeadIsFirstNearest(s: seq<Choice>, i: nat)
    requires i < |s|
    requires forall j :: 0 <= j < |s| ==> s[i].d <= s[j].d
    requires forall j :: 0 <= j < i ==> s[j].d > s[i].d
    ensures SortByDistance(s)[0] == s[i]
  {
    var tail := s[1..];
    if tail != [] {
      if i > 0 {
        SortHeadIsFirstNearest(tail, i - 1);
      } else {
        var k := SortHeadIsAChoice(tail);
        assert s[0].d <= s[k + 1].d;
      }
    }
  }

  /** The three resting offsets with their distances from `current`, in
      the order the source lists them. */
  function Choices(scaledHeight: int, current: real): (cs: seq<Choice>)
    ensures |cs| == 3
  {
    var e, m, c := Expanded as real, Mid(scaledHeight) as real, Collapsed(scaledHeight) as real;
    [Choice(e, Abs(current - e)), Choice(m, Abs(current - m)), Choice(c, Abs(current - c))]
  }

  /** The release rule: a fast upward flick expands, a fast downward flick
      collapses, anything slower goes to the nearest of the three offsets. */
  function SnapTarget(scaledHeight: int, current: real, vy: real): real {
    if vy < -FlickVelocity then Expanded as real
    else if vy > FlickVelocity then Collapsed(scaledHeight) as real
    else SortByDistance(Choices(scaledHeight, current))[0].t
  }

  /** The nearest of three choices, ties going to the earlier one. */
  lemma NearestOfThree(s: seq<Choice>)
    requires |s| == 3
    ensures var h := SortByDistance(s)[0];
            (s[0].d <= s[1].d && s[0].d <= s[2].d ==> h == s[0]) &&
            (s[1].d < s[0].d && s[1].d <= s[2].d ==> h == s[1]) &&
            (s[2].d < s[0].d && s[2].d < s[1].d ==> h == s[2])
  {
    if s[0].d <= s[1].d && s[0].d <= s[2].d {
      SortHeadIsFirstNearest(s, 0);
    } else if s[1].d <= s[2].d {
      SortHeadIsFirstNearest(s, 1);
    } else {
      SortHeadIsFirstNearest(s, 2);
    }
  }

  /** The release always rests on one of the three offsets: flicks decide by
      direction, otherwise the nearest wins and ties go to `EXPANDED`, then
      `MID`, then `COLLAPSED`. */
  lemma SnapTargetChoice(scaledHeight: int, current: real, vy: real)
    ensures var t := SnapTarget(scaledHeight, current, vy);
            t == Expanded as real || t == Mid(scaledHeight) as real || t == Collapsed(scaledHeight) as real
    ensures vy < -FlickVelocity ==> SnapTarget(scaledHeight, current, vy) == Expanded as real
    ensures vy > FlickVelocity ==> SnapTarget(scaledHeight, current, vy) == Collapsed(scaledHeight) as real
    ensures -FlickVelocity <= vy <= FlickVelocity ==>
              var t := SnapTarget(scaledHeight, current, vy);
              var de := Abs(current - Expanded as real);
              var dm := Abs(current - Mid(scaledHeight) as real);
              var dc := Abs(current - Collapsed(scaledHeight) as real);
              (de <= dm && de <= dc ==> t == Expanded as real) &&
              (dm < de && dm <= dc ==> t == Mid(scaledHeight) as real) &&
              (dc < de && dc < dm ==> t == Collapsed(scaledHeight) as real)
  {
    var s := Choices(scaledHeight, current);
    NearestOfThree(s);
  }

  /** Every snap target lies between the two ends. */
  lemma SnapTargetInRange(scaledHeight: int, current: real, vy: real)
    ensures Low(scaledHeight) <= SnapTarget(scaledHeight, current, vy) <= High(scaledHeight)
  {
    SnapTargetChoice(scaledHeight, current, vy);
    MidBetween(scaledHeight);
  }

  /** `bubbleMaxHeight`: the bubble always fits inside the sheet with at
      least 240 points of room. */
  function BubbleMaxHeight(scaledHeight: int, showChatControls: bool): (h: int)
    ensures MinSheetHeight - 160 <= h < SheetHeight(scaledHeight)
  {
    if showChatControls then SheetHeight(scaledHeight) - 160 else SheetHeight(scaledHeight) - 120
  }

  /** Without the chat controls the bubble loses 120 points to the sheet's
      chrome; the controls take 40 more. */
  lemma ControlsShrinkBubble(scaledHeight: int)
    ensures BubbleMaxHeight(scaledHeight, false) == SheetHeight(scaledHeight) - 120
    ensures BubbleMaxHeight(scaledHeight, false) - BubbleMaxHeight(scaledHeight, true) == 40
  {
  }
}
