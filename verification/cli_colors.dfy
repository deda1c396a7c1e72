/** Round-robin studio colours in the schedule table: each studio keeps the first colour it is
    given, and a studio not seen before takes the next colour of the palette. */
module StudioColors {
  import opened Models

  const Palette: seq<string> := ["red", "green", "yellow", "blue", "magenta", "cyan", "white"]

  /** The studio IDs of the classes the table shows (those not canceled), in schedule order. */
  function ShownStudioIds(classes: seq<ScheduledClass>): (r: seq<string>)
    ensures |r| <= |classes|
    ensures forall x :: x in r <==> exists i :: 0 <= i < |classes| && !classes[i].canceled && classes[i].studio.id == x
  {
    if |classes| == 0 then []
    else
      var rest := ShownStudioIds(classes[..|classes| - 1]);
      var last := classes[|classes| - 1];
      if last.canceled then rest else rest + [last.studio.id]
  }

  /** The IDs of a concatenation are those of each part in turn, so they follow the schedule's
      order. */
  lemma {:induction false} ShownStudioIdsAppend(a: seq<ScheduledClass>, b: seq<ScheduledClass>)
    ensures ShownStudioIds(a + b) == ShownStudioIds(a) + ShownStudioIds(b)
    decreases |b|
  {
    if |b| == 0 {
      assert a + b == a;
    } else {
      var init := b[..|b| - 1];
      assert (a + b)[..|a + b| - 1] == a + init;
      ShownStudioIdsAppend(a, init);
    }
  }

  /** The distinct IDs of `ids` in order of first appearance: a reference for which studios
      have been "seen" at each point. */
  function FirstSeen(ids: seq<string>): (r: seq<string>)
    ensures forall x :: x in r <==> x in ids
    ensures forall i, j :: 0 <= i < j < |r| ==> r[i] != r[j]
  {
    if |ids| == 0 then []
    else
      var prior := FirstSeen(ids[..|ids| - 1]);
      var x := ids[|ids| - 1];
      assert forall y :: y in ids <==> y in ids[..|ids| - 1] || y == x;
      if x in prior then prior else prior + [x]
  }

  /** Seeing more IDs only appends to the list: what was first seen stays first seen, in the
      same order. */
  lemma {:induction false} FirstSeenPrefix(a: seq<string>, b: seq<string>)
    ensures FirstSeen(a) <= FirstSeen(a + b)
    decreases |b|
  {
    if |b| == 0 {
      assert a + b == a;
    } else {
      var init := b[..|b| - 1];
      assert (a + b)[..|a + b| - 1] == a + init;
      FirstSeenPrefix(a, init);
    }
  }

  /** The first ID is the first one seen. */
  lemma {:induction false} FirstSeenHead(ids: seq<string>)
    requires |ids| > 0
    ensures FirstSeen(ids)[0] == ids[0]
    decreases |ids|
  {
    var init := ids[..|ids| - 1];
    if |init| == 0 {
      assert FirstSeen(init) == [];
    } else {
      FirstSeenHead(init);
      assert init[0] == ids[0];
    }
  }

  /** An ID not seen before goes to the end; one seen before changes nothing. */
  lemma FirstSeenSnoc(ids: seq<string>, x: string)
    ensures x !in ids ==> FirstSeen(ids + [x]) == FirstSeen(ids) + [x]
    ensures x in ids ==> FirstSeen(ids + [x]) == FirstSeen(ids)
  {
    assert (ids + [x])[..|ids|] == ids;
  }

  /** The position of `x` in a list of distinct IDs. */
  function Rank(r: seq<string>, x: string): (k: nat)
    requires x in r
    ensures k < |r| && r[k] == x
  {
    if r[0] == x then 0 else 1 + Rank(r[1..], x)
  }

  lemma RankUnique(r: seq<string>, k: nat)
    requires k < |r|
    requires forall i, j :: 0 <= i < j < |r| ==> r[i] != r[j]
    ensures Rank(r, r[k]) == k
  {
  }

  /** Adding an ID at the end does not move the IDs already ranked. */
  lemma {:induction false} RankAppend(r: seq<string>, y: string, z: string)
    requires y in r
    ensures Rank(r + [z], y) == Rank(r, y)
  {
    if r[0] != y {
      assert (r + [z])[1..] == r[1..] + [z];
      RankAppend(r[1..], y, z);
    }
  }

  /** The colour the schedule gives a studio: the palette entry at the studio's rank among the
      studios in order of first appearance, wrapping round the palette. */
  function ColorOf(ids: seq<string>, id: string): string
    requires id in ids
  {
    Palette[Rank(FirstSeen(ids), id) % |Palette|]
  }

  /** Extending the list by one ID keeps every earlier studio's colour, and gives a new
      studio the palette entry after the colours handed out so far. */
  lemma ColorOfExtend(ids: seq<string>, x: string)
    ensures forall y :: y in ids ==> ColorOf(ids + [x], y) == ColorOf(ids, y)
    ensures x !in ids ==> ColorOf(ids + [x], x) == Palette[|FirstSeen(ids)| % |Palette|]
    ensures |FirstSeen(ids + [x])| == |FirstSeen(ids)| + (if x in ids then 0 else 1)
  {
    var prior := FirstSeen(ids);
    assert (ids + [x])[..|ids|] == ids;
    if x in ids {
      assert FirstSeen(ids + [x]) == prior;
    } else {
      assert FirstSeen(ids + [x]) == prior + [x];
      forall y | y in ids
        ensures ColorOf(ids + [x], y) == ColorOf(ids, y)
      {
        RankAppend(prior, y, x);
      }
      RankUnique(prior + [x], |prior|);
    }
  }

  /** The studio-to-colour map after the first `k` rows holds exactly their studios, each with
      its colour. */
  ghost predicate MapSoFar(ids: seq<string>, k: nat, colorMap: map<string, string>)
    requires k <= |ids|
  {
    && (forall x :: x in colorMap <==> x in ids[..k])
    && (forall x :: x in colorMap ==> colorMap[x] == ColorOf(ids[..k], x))
  }

  /** The colours of the first `k` rows: each is its studio's colour so far. */
  ghost predicate RowsSoFar(ids: seq<string>, k: nat, colors: seq<string>)
    requires k <= |ids|
  {
    && |colors| == k
    && (forall i :: 0 <= i < k ==> colors[i] == ColorOf(ids[..k], ids[i]))
  }

  /** The rows among the first `k` where a studio first appears take the next palette entry. */
  ghost predicate FirstRowsSoFar(ids: seq<string>, k: nat, colors: seq<string>)
    requires k <= |ids| && |colors| == k
  {
    forall i :: 0 <= i < k && ids[i] !in ids[..i] ==> colors[i] == Palette[|FirstSeen(ids[..i])| % |Palette|]
  }

  /** The map after one more row. */
  lemma MapStep(ids: seq<string>, k: nat, colorMap: map<string, string>, colorIdx: nat)
    requires k < |ids|
    requires MapSoFar(ids, k, colorMap) && colorIdx == |FirstSeen(ids[..k])|
    ensures var id := ids[k];
      var colorMap' := if id !in colorMap then colorMap[id := Palette[colorIdx % |Palette|]] else colorMap;
      && MapSoFar(ids, k + 1, colorMap')
      && colorMap'[id] == ColorOf(ids[..k + 1], id)
      && (if id !in colorMap then colorIdx + 1 else colorIdx) == |FirstSeen(ids[..k + 1])|
  {
    var id := ids[k];
    assert ids[..k + 1] == ids[..k] + [id];
    ColorOfExtend(ids[..k], id);
  }

  /** The row colours after one more row. */
  lemma RowsStep(ids: seq<string>, k: nat, colors: seq<string>, color: string)
    requires k < |ids|
    requires RowsSoFar(ids, k, colors)
    requires color == ColorOf(ids[..k + 1], ids[k])
    ensures RowsSoFar(ids, k + 1, colors + [color])
  {
    var id := ids[k];
    var pre := ids[..k];
    assert ids[..k + 1] == pre + [id];
    ColorOfExtend(pre, id);
    var colors' := colors + [color];
    forall i | 0 <= i < k + 1
      ensures colors'[i] == ColorOf(ids[..k + 1], ids[i])
    {
      if i < k {
        assert colors'[i] == colors[i];
        assert ids[i] == pre[i];
      }
    }
  }

  /** The first-appearance rows after one more row. */
  lemma FirstRowsStep(ids: seq<string>, k: nat, colors: seq<string>, color: string)
    requires k < |ids| && |colors| == k
    requires FirstRowsSoFar(ids, k, colors)
    requires color == ColorOf(ids[..k + 1], ids[k])
    ensures FirstRowsSoFar(ids, k + 1, colors + [color])
  {
    var id := ids[k];
    var pre := ids[..k];
    assert ids[..k + 1] == pre + [id];
    if id !in pre {
      ColorOfExtend(pre, id);
    }
    var colors' := colors + [color];
    forall i | 0 <= i < k && ids[i] !in ids[..i]
      ensures colors'[i] == Palette[|FirstSeen(ids[..i])| % |Palette|]
    {
      assert colors'[i] == colors[i];
    }
  }

  /** The colour loop of the table over the shown studio IDs: `colors[i]` is the colour of the
      row of `ids[i]`, `colorMap` is the studio-to-colour map and `colorIdx` the counter. A
      studio always gets the same colour, a studio met for the first time gets the palette
      entry after those handed out so far, and the counter only moves on a new studio. */
  method AssignColors(ids: seq<string>) returns (colors: seq<string>, colorMap: map<string, string>, colorIdx: nat)
    ensures |colors| == |ids|
    ensures forall i :: 0 <= i < |ids| ==> colors[i] == ColorOf(ids, ids[i])
    ensures forall i :: 0 <= i < |ids| && ids[i] !in ids[..i] ==> colors[i] == Palette[|FirstSeen(ids[..i])| % |Palette|]
    ensures forall x :: x in colorMap <==> x in ids
    ensures forall x :: x in colorMap ==> colorMap[x] == ColorOf(ids, x)
    ensures colorIdx == |FirstSeen(ids)|
  {
    colors, colorMap, colorIdx := [], map[], 0;
    var k := 0;
    while k < |ids|
      invariant 0 <= k <= |ids|
      invariant colorIdx == |FirstSeen(ids[..k])|
      invariant MapSoFar(ids, k, colorMap)
      invariant RowsSoFar(ids, k, colors)
      invariant FirstRowsSoFar(ids, k, colors)
    {
      MapStep(ids, k, colorMap, colorIdx);
      var id := ids[k];
      if id !in colorMap {
        colorMap := colorMap[id := Palette[colorIdx % |Palette|]];
        colorIdx := colorIdx + 1;
      }
      RowsStep(ids, k, colors, colorMap[id]);
      FirstRowsStep(ids, k, colors, colorMap[id]);
      colors := colors + [colorMap[id]];
      k := k + 1;
    }
    assert ids[..k] == ids;
  }

  /** The colours of the schedule table: the colour loop run over the studios of the classes
      shown. Every studio of a class that is not canceled gets a colour, and no other. */
  method ScheduleColors(classes: seq<ScheduledClass>) returns (colors: seq<string>, colorMap: map<string, string>)
    ensures |colors| == |ShownStudioIds(classes)|
    ensures forall i :: 0 <= i < |colors| ==> colors[i] == ColorOf(ShownStudioIds(classes), ShownStudioIds(classes)[i])
    ensures forall x :: x in colorMap <==>
      exists i :: 0 <= i < |classes| && !classes[i].canceled && classes[i].studio.id == x
  {
    var ids := ShownStudioIds(classes);
    var colorIdx;
    colors, colorMap, colorIdx := AssignColors(ids);
  }
}
