/** The schedule table of the `schedules` command: fitting text to a column, the entry width
    chosen from the terminal width, the widths of the class-name and time columns, and the
    width left for the studio column. */
module Layout {
  import opened Text
  import opened Models

  /** `padOrTruncate`: exactly `width` runes, cutting the tail of a long string and padding a
      short one with spaces, so that a string that fits is a prefix of the result. */
  function PadOrTruncate(s: string, width: nat): (r: string)
    ensures |r| == width
    ensures width < |s| ==> r == s[..width]
    ensures |s| <= width ==> r[..|s|] == s && forall i :: |s| <= i < width ==> r[i] == ' '
  {
    if |s| > width then s[..width]
    else if |s| < width then s + Spaces(width - |s|)
    else s
  }

  /** A string already of the width comes back unchanged, so fitting twice is fitting once. */
  lemma PadOrTruncateIdempotent(s: string, width: nat)
    ensures |s| == width ==> PadOrTruncate(s, width) == s
    ensures PadOrTruncate(PadOrTruncate(s, width), width) == PadOrTruncate(s, width)
  {
  }

  /** The width of one table row for a terminal `termWidth` columns wide. */
  function EntryWidth(termWidth: int): (r: int)
    ensures r == 110 || r == 90 || r == 70
    ensures r == 110 <==> termWidth >= 120
    ensures r == 70 <==> termWidth < 100
  {
    if termWidth >= 120 then 110 else if termWidth >= 100 then 90 else 70
  }

  const MinSpace := 2
  const MinStudioWidth := 10

  /** The widest rune length among the class names and the formatted start and end times of
      the classes that are not canceled. */
  datatype Widths = Widths(name: nat, start: nat, end: nat)

  /** The first loop of the table: column maxima over the classes that are not canceled, with
      `format` standing for the time formatting. Every such class fits, each maximum is
      reached by one of them (or is 0), and canceled classes play no part. */
  method ColumnMaxima(classes: seq<ScheduledClass>, format: int -> string) returns (w: Widths)
    ensures forall i :: 0 <= i < |classes| && !classes[i].canceled ==>
      |classes[i].name| <= w.name && |format(classes[i].startsAt)| <= w.start && |format(classes[i].endsAt)| <= w.end
    ensures w.name == 0 || exists i :: 0 <= i < |classes| && !classes[i].canceled && |classes[i].name| == w.name
    ensures w.start == 0 || exists i :: 0 <= i < |classes| && !classes[i].canceled && |format(classes[i].startsAt)| == w.start
    ensures w.end == 0 || exists i :: 0 <= i < |classes| && !classes[i].canceled && |format(classes[i].endsAt)| == w.end
  {
    w := Widths(0, 0, 0);
    var k := 0;
    while k < |classes|
      invariant 0 <= k <= |classes|
      invariant forall i :: 0 <= i < k && !classes[i].canceled ==>
        |classes[i].name| <= w.name && |format(classes[i].startsAt)| <= w.start && |format(classes[i].endsAt)| <= w.end
      invariant w.name == 0 || exists i :: 0 <= i < k && !classes[i].canceled && |classes[i].name| == w.name
      invariant w.start == 0 || exists i :: 0 <= i < k && !classes[i].canceled && |format(classes[i].startsAt)| == w.start
      invariant w.end == 0 || exists i :: 0 <= i < k && !classes[i].canceled && |format(classes[i].endsAt)| == w.end
    {
      var cls := classes[k];
      if !cls.canceled {
        if |cls.name| > w.name {
          w := w.(name := |cls.name|);
        }
        var startTime, endTime := format(cls.startsAt), format(cls.endsAt);
        if |startTime| > w.start {
          w := w.(start := |startTime|);
        }
        if |endTime| > w.end {
          w := w.(end := |endTime|);
        }
      }
      k := k + 1;
    }
  }

  /** The studio column gets what the other three columns and their separators leave of the
      entry width, but never fewer than ten runes; when that much is left the row fills the
      entry width exactly. */
  function StudioColumnWidth(entryWidth: int, w: Widths): (r: int)
    ensures r >= MinStudioWidth
    ensures r >= entryWidth - (w.name + w.start + w.end + 3 * MinSpace)
    ensures r == MinStudioWidth || w.name + w.start + w.end + 3 * MinSpace + r == entryWidth
  {
    var studioColStart := w.name + MinSpace + w.start + MinSpace + w.end + MinSpace;
    var width := entryWidth - studioColStart;
    if width < MinStudioWidth then MinStudioWidth else width
  }

  /** One row of the table: the four fitted columns separated by two spaces, fitted again to
      the entry width. When the columns fit, each starts at its fixed offset. */
  function ScheduleRow(name: string, startTime: string, endTime: string, coloredStudio: string,
                       w: Widths, studioWidth: nat, entryWidth: nat): (r: string)
    ensures |r| == entryWidth
    ensures w.name + w.start + w.end + 3 * MinSpace + studioWidth <= entryWidth ==>
      && r[..w.name] == PadOrTruncate(name, w.name)
      && r[w.name + MinSpace .. w.name + MinSpace + w.start] == PadOrTruncate(startTime, w.start)
      && r[w.name + w.start + 2 * MinSpace .. w.name + w.start + 2 * MinSpace + w.end] == PadOrTruncate(endTime, w.end)
  {
    var gap := Spaces(MinSpace);
    var row := PadOrTruncate(name, w.name) + gap + PadOrTruncate(startTime, w.start) + gap
               + PadOrTruncate(endTime, w.end) + gap + PadOrTruncate(coloredStudio, studioWidth);
    PadOrTruncate(row, entryWidth)
  }
}
