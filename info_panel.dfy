/**
  The info panel beside the map: the CSV text of the damage export, the
  export format dispatch, and the panel's element state — the sidebar's
  collapse, the sections' visibility, the damage cards' details, the
  emergency status and the two counters the simulated updates bump.
 */
module InfoPanel {
  import opened Common
  import opened JsText
  import opened EarthquakeData

  // ---------------------------------------------------------------------------
  // Lines of text

  /** The length of the first line of `s`: the index of its first newline, or `|s|` when it has none. */
  function LineLength(s: string): (n: nat)
    ensures n <= |s| && '\n' !in s[..n]
    ensures n < |s| ==> s[n] == '\n'
  {
    if s == [] || s[0] == '\n' then 0 else 1 + LineLength(s[1..])
  }

  /** The lines of `s`, each without its terminating newline; a final unterminated piece is a line too. */
  function Lines(s: string): seq<string>
    decreases |s|
  {
    if s == [] then []
    else
      var n := LineLength(s);
      [s[..n]] + (if n < |s| then Lines(s[n + 1..]) else [])
  }

  lemma {:induction false} LineLengthOfLine(x: string, rest: string)
    requires '\n' !in x
    ensures LineLength(x + "\n" + rest) == |x|
  {
    if x != [] {
      assert (x + "\n" + rest)[1..] == x[1..] + "\n" + rest;
      LineLengthOfLine(x[1..], rest);
    }
  }

  /** A line followed by a newline reads back as that line, then the lines of what follows. */
  lemma LinesOfLine(x: string, rest: string)
    requires '\n' !in x
    ensures Lines(x + "\n" + rest) == [x] + Lines(rest)
  {
    var s := x + "\n" + rest;
    LineLengthOfLine(x, rest);
    assert s[..|x|] == x;
    assert s[|x| + 1..] == rest;
  }

  // ---------------------------------------------------------------------------
  // CSV export

  /** The column names of the CSV header, in order. */
  const CsvColumns: seq<string> :=
    ["Location", "Latitude", "Longitude", "Population", "Damage Level", "Buildings Damaged", "Injured"]

  /** The fields separated by commas. */
  function CommaJoined(fs: seq<string>): string
  {
    if fs == [] then "" else if |fs| == 1 then fs[0] else fs[0] + "," + CommaJoined(fs[1..])
  }

  /** The header line `downloadCSV` starts with. */
  const CsvHeader := CommaJoined(CsvColumns)

  /** A text field between double quotes, as the row template writes it: inner quotes are not doubled. */
  function Quoted(f: string): (r: string)
    ensures |r| == |f| + 2 && r[0] == '"' && r[|r| - 1] == '"' && r[1..|r| - 1] == f
  {
    "\"" + f + "\""
  }

  /**
    The row of one affected area, without its newline: it opens with the
    quoted name and a comma, and closes with the injured count.
   */
  function RowLine(a: AffectedArea): (r: string)
    ensures |r| > |a.name| + 2 && r[..|a.name| + 3] == Quoted(a.name) + ","
    ensures var n := NatToString(a.damage.injured); |n| < |r| && r[|r| - |n|..] == n
  {
    Quoted(a.name) + "," + a.lat + "," + a.lng + "," + NatToString(a.population) + ","
    + Quoted(a.damage.level) + "," + NatToString(a.damage.buildingsDamaged) + "," + NatToString(a.damage.injured)
  }

  /** The row text of each area, in dataset order. */
  function RowLines(areas: seq<AffectedArea>): (ls: seq<string>)
    ensures |ls| == |areas|
  {
    seq(|areas|, i requires 0 <= i < |areas| => RowLine(areas[i]))
  }

  /** The given lines, each followed by a newline. */
  function Terminated(ls: seq<string>): string
  {
    if ls == [] then "" else Terminated(ls[..|ls| - 1]) + ls[|ls| - 1] + "\n"
  }

  /**
    The whole CSV text of `downloadCSV`: the header line, then one line per
    area; it opens with the header and a newline and ends with a newline.
   */
  function CsvText(areas: seq<AffectedArea>): (r: string)
    ensures |r| > |CsvHeader| && r[..|CsvHeader| + 1] == CsvHeader + "\n"
    ensures r[|r| - 1] == '\n'
  {
    TerminatedStarts([CsvHeader] + RowLines(areas));
    Terminated([CsvHeader] + RowLines(areas))
  }

  /** The lines each followed by a newline open with the first line and its newline. */
  lemma {:induction false} TerminatedStarts(ls: seq<string>)
    requires ls != []
    ensures |Terminated(ls)| > |ls[0]| && Terminated(ls)[..|ls[0]| + 1] == ls[0] + "\n"
    ensures Terminated(ls)[|Terminated(ls)| - 1] == '\n'
  {
    if |ls| > 1 {
      var init := ls[..|ls| - 1];
      TerminatedStarts(init);
      assert init[0] == ls[0];
      var t := Terminated(init);
      assert Terminated(ls) == t + (ls[|ls| - 1] + "\n");
      assert (t + (ls[|ls| - 1] + "\n"))[..|ls[0]| + 1] == t[..|ls[0]| + 1];
    }
  }

  /** `downloadCSV`'s text: the header line, then one `+=` per area, in order. */
  method BuildCsv(areas: seq<AffectedArea>) returns (csv: string)
    ensures csv == CsvText(areas)
  {
    csv := CsvHeader + "\n";
    assert csv == Terminated([CsvHeader]);
    for i := 0 to |areas|
      invariant csv == Terminated([CsvHeader] + RowLines(areas[..i]))
    {
      AppendRow(areas, i);
      csv := csv + RowLine(areas[i]) + "\n";
    }
    assert areas[..|areas|] == areas;
  }

  lemma AppendRow(areas: seq<AffectedArea>, i: nat)
    requires i < |areas|
    ensures [CsvHeader] + RowLines(areas[..i + 1]) == [CsvHeader] + RowLines(areas[..i]) + [RowLine(areas[i])]
  {
  }

  /** The text fields of an area hold no line break (numbers never do). */
  predicate SingleLine(a: AffectedArea)
  {
    '\n' !in a.name && '\n' !in a.lat && '\n' !in a.lng && '\n' !in a.damage.level
  }

  lemma NatToStringSingleLine(n: nat)
    ensures '\n' !in NatToString(n)
  {
    NatToStringDigits(n);
    var s := NatToString(n);
    forall i | 0 <= i < |s| ensures s[i] != '\n' {
      assert IsDigitIn(s[i], 10);
    }
  }

  lemma RowLineSingleLine(a: AffectedArea)
    requires SingleLine(a)
    ensures '\n' !in RowLine(a)
  {
    NatToStringSingleLine(a.population);
    NatToStringSingleLine(a.damage.buildingsDamaged);
    NatToStringSingleLine(a.damage.injured);
  }

  /** A text ending in a newline is a first line, its newline, and a rest that is empty or ends in a newline too. */
  lemma FirstLine(a: string) returns (x: string, rest: string)
    requires a != [] && a[|a| - 1] == '\n'
    ensures a == x + "\n" + rest && '\n' !in x && |rest| < |a|
    ensures rest == [] || rest[|rest| - 1] == '\n'
  {
    var n := LineLength(a);
    assert a[..|a|] == a;
    x, rest := a[..n], a[n + 1..];
    assert a == x + "\n" + rest;
  }

  lemma Regroup(x: string, rest: string, b: string)
    ensures (x + "\n" + rest) + b == x + "\n" + (rest + b)
  {
  }

  lemma RegroupLines<T>(p: seq<T>, q: seq<T>, r: seq<T>)
    ensures p + (q + r) == (p + q) + r
  {
  }

  /** Lines of a concatenation whose first part ends with a newline. */
  lemma {:induction false} LinesAppend(a: string, b: string)
    requires a == [] || a[|a| - 1] == '\n'
    ensures Lines(a + b) == Lines(a) + Lines(b)
    decreases |a|
  {
    if a == [] {
      assert a + b == b;
    } else {
      var x, rest := FirstLine(a);
      LinesOfLine(x, rest);
      Regroup(x, rest, b);
      LinesOfLine(x, rest + b);
      LinesAppend(rest, b);
      RegroupLines([x], Lines(rest), Lines(b));
    }
  }

  /** Lines each followed by a newline split back into those lines, as long as none holds a newline. */
  lemma {:induction false} LinesOfTerminated(ls: seq<string>)
    requires forall i :: 0 <= i < |ls| ==> '\n' !in ls[i]
    ensures Lines(Terminated(ls)) == ls
  {
    if ls != [] {
      var init, last := ls[..|ls| - 1], ls[|ls| - 1];
      SplitLast(ls);
      var t := Terminated(init);
      LinesOfTerminated(init);
      TerminatedEnds(init);
      LinesAppend(t, last + "\n");
      LinesOfLine(last, "");
      RegroupLines(t, last, "\n");
      assert last + "\n" + "" == last + "\n";
    }
  }

  /** The header before the rows; no line of the result holds a newline. */
  lemma ConsLines(h: string, rows: seq<string>) returns (ls: seq<string>)
    requires '\n' !in h && forall i :: 0 <= i < |rows| ==> '\n' !in rows[i]
    ensures ls == [h] + rows && forall i :: 0 <= i < |ls| ==> '\n' !in ls[i]
  {
    ls := [h] + rows;
  }

  lemma SplitLast<T>(s: seq<T>)
    requires s != []
    ensures s[..|s| - 1] + [s[|s| - 1]] == s
  {
  }

  lemma HeaderSingleLine()
    ensures '\n' !in CsvHeader
  {
    forall i | 0 <= i < |CsvColumns| ensures '\n' !in CsvColumns[i] {
    }
    NoBreakJoined(CsvColumns);
  }

  lemma NoBreakJoined(fs: seq<string>)
    requires forall i :: 0 <= i < |fs| ==> '\n' !in fs[i]
    ensures '\n' !in CommaJoined(fs)
  {
  }

  lemma TerminatedEnds(ls: seq<string>)
    ensures Terminated(ls) == [] || Terminated(ls)[|Terminated(ls)| - 1] == '\n'
  {
  }

  /**
    The CSV text is the header line followed by exactly one line per area,
    in dataset order, as long as no text field holds a line break.
   */
  lemma CsvLines(areas: seq<AffectedArea>)
    requires forall i :: 0 <= i < |areas| ==> SingleLine(areas[i])
    ensures Lines(CsvText(areas)) == [CsvHeader] + RowLines(areas)
  {
    var rows := RowLines(areas);
    forall i | 0 <= i < |rows| ensures '\n' !in rows[i] {
      RowLineSingleLine(areas[i]);
    }
    HeaderSingleLine();
    var ls := ConsLines(CsvHeader, rows);
    LinesOfTerminated(ls);
  }

  /**
    The content of a quoted CSV field under section 2 (rule 7) of RFC 4180:
    a pair of double quotes stands for one, and a lone double quote ends
    the field early, so the text between the outer quotes is malformed.
   */
  function Unescape(body: string): (r: Option<string>)
    ensures r.Some? ==> |r.value| <= |body|
    ensures r.Some? && '"' in body ==> |r.value| < |body|
  {
    if body == [] then Some([])
    else if body[0] != '"' then
      match Unescape(body[1..])
      case None => None
      case Some(t) => Some([body[0]] + t)
    else if |body| >= 2 && body[1] == '"' then
      match Unescape(body[2..])
      case None => None
      case Some(t) => Some(['"'] + t)
    else None
  }

  /** What section 2 (rule 7) of RFC 4180 asks for: each double quote inside the field doubled. */
  function Escape(f: string): (e: string)
    ensures |e| >= |f|
  {
    if f == [] then [] else (if f[0] == '"' then "\"\"" else [f[0]]) + Escape(f[1..])
  }

  /** A field escaped as the RFC asks always reads back as itself. */
  lemma {:induction false} UnescapeEscape(f: string)
    ensures Unescape(Escape(f)) == Some(f)
  {
    if f != [] {
      UnescapeEscape(f[1..]);
      var e := Escape(f);
      if f[0] == '"' {
        assert e == "\"\"" + Escape(f[1..]);
        assert e[2..] == Escape(f[1..]);
      } else {
        assert e == [f[0]] + Escape(f[1..]);
        assert e[1..] == Escape(f[1..]);
      }
      assert [f[0]] + f[1..] == f;
    }
  }

  /**
    The row template writes a field between quotes unescaped; that field
    reads back as written exactly when it holds no double quote, and the
    unescaped text is then also what the RFC's escaping would produce.
   */
  lemma QuotedFieldReadsBack(f: string)
    ensures Unescape(f) == Some(f) <==> '"' !in f
    ensures Escape(f) == f <==> '"' !in f
  {
    if '"' !in f {
      NoQuoteUnescape(f);
      NoQuoteEscape(f);
    } else {
      QuoteEscapeGrows(f);
    }
  }

  lemma {:induction false} NoQuoteUnescape(f: string)
    requires '"' !in f
    ensures Unescape(f) == Some(f)
  {
    if f != [] {
      NoQuoteUnescape(f[1..]);
      assert [f[0]] + f[1..] == f;
    }
  }

  lemma {:induction false} NoQuoteEscape(f: string)
    requires '"' !in f
    ensures Escape(f) == f
  {
    if f != [] {
      NoQuoteEscape(f[1..]);
      assert [f[0]] + f[1..] == f;
    }
  }

  lemma {:induction false} QuoteEscapeGrows(f: string)
    requires '"' in f
    ensures |Escape(f)| > |f|
  {
    if f[0] != '"' {
      assert f[1..] != [] && '"' in f[1..] by {
        var i :| 0 <= i < |f| && f[i] == '"';
        assert f[1..][i - 1] == '"';
      }
      QuoteEscapeGrows(f[1..]);
    }
  }

  // ---------------------------------------------------------------------------
  // Export dispatch

  /** The record `exportData` builds: the event, the areas, the infrastructure, the tsunami areas and the time; no buffer zones and no stations. */
  datatype ExportRecord = ExportRecord(
    earthquake: EarthquakeInfo, affectedAreas: seq<AffectedArea>,
    infrastructure: seq<InfrastructurePoint>, tsunami: seq<TsunamiArea>, exportTime: string)

  /** What an export leaves the page to do: a file download, an alert, or nothing. */
  datatype ExportEffect =
    | DownloadJson(fileName: string, record: ExportRecord)
    | DownloadCsv(fileName: string, text: string)
    | ShowAlert(message: string)
    | NoEffect

  const JsonFileName := "kamchatka_earthquake_data.json"
  const CsvFileName := "kamchatka_earthquake_damage.csv"
  const PdfMessage := "PDF report generation would be implemented with a PDF library like jsPDF in a real application."

  /** `exportData(format)`: json and csv download, pdf shows a message, and any other format does nothing. */
  function ExportData(format: string, data: Dataset, exportTime: string): (e: ExportEffect)
    ensures e.DownloadJson? <==> format == "json"
    ensures e.DownloadCsv? <==> format == "csv"
    ensures e.ShowAlert? <==> format == "pdf"
    ensures e.NoEffect? <==> format != "json" && format != "csv" && format != "pdf"
    ensures e.DownloadJson? ==>
      e.fileName == JsonFileName && e.record == ExportRecord(data.earthquake, data.affectedAreas, data.infrastructureDamage, data.tsunamiAreas, exportTime)
    ensures e.DownloadCsv? ==> e.fileName == CsvFileName && e.text == CsvText(data.affectedAreas)
  {
    var record := ExportRecord(data.earthquake, data.affectedAreas, data.infrastructureDamage, data.tsunamiAreas, exportTime);
    if format == "json" then DownloadJson(JsonFileName, record)
    else if format == "csv" then DownloadCsv(CsvFileName, CsvText(record.affectedAreas))
    else if format == "pdf" then ShowAlert(PdfMessage)
    else NoEffect
  }

  // ---------------------------------------------------------------------------
  // Element state

  const ShownGlyph := "\U{25BC}"       // ▼
  const HiddenGlyph := "\U{25B6}"      // ▶
  const CollapseGlyph := "\U{25C0}"    // ◀

  datatype ButtonView = ButtonView(text: string, title: string)

  /** The sidebar's inline width and overflow, and the button `button:last-child` finds in it, if any. */
  datatype SidebarView = SidebarView(width: string, overflow: string, button: Option<ButtonView>)

  /** The styles and button text `toggleSidebar` gives a sidebar that it leaves collapsed or expanded. */
  function SidebarFor(collapsed: bool, s: SidebarView): (r: SidebarView)
    ensures r.width == (if collapsed then "60px" else "320px")
    ensures r.overflow == (if collapsed then "hidden" else "auto")
    ensures r.button.Some? <==> s.button.Some?
    ensures r.button.Some? ==> r.button.value.text == (if collapsed then HiddenGlyph else CollapseGlyph)
  {
    SidebarView(if collapsed then "60px" else "320px", if collapsed then "hidden" else "auto",
      match s.button
      case None => None
      case Some(_) => Some(if collapsed then ButtonView(HiddenGlyph, "Expand Sidebar")
                           else ButtonView(CollapseGlyph, "Collapse Sidebar")))
  }

  /** Restyling for one state and then for the other leaves the sidebar as styled for the second. */
  lemma SidebarForTwice(c1: bool, c2: bool, s: SidebarView)
    ensures SidebarFor(c2, SidebarFor(c1, s)) == SidebarFor(c2, s)
  {
  }

  /** A section's content element (`None` when the section has none) with its inline `display`, and its toggle button's text. */
  datatype SectionView = SectionView(display: Option<string>, buttonLabel: string)

  predicate Hidden(s: SectionView)
  {
    s.display == Some("none")
  }

  /** `toggleSection`: hidden content gets `block` and ▼, anything else `none` and ▶; without content nothing changes. */
  function ToggledSection(s: SectionView): (r: SectionView)
    ensures s.display.None? ==> r == s
    ensures s.display.Some? ==> (Hidden(r) <==> !Hidden(s)) && r.display.Some?
    ensures s.display.Some? ==> r.buttonLabel == if Hidden(r) then HiddenGlyph else ShownGlyph
  {
    match s.display
    case None => s
    case Some(d) =>
      if d == "none" then SectionView(Some("block"), ShownGlyph) else SectionView(Some("none"), HiddenGlyph)
  }

  /** Two toggles restore a section whose content is shown with `block` or hidden, but a section first shown by the page's stylesheet (any other display) comes back as `block`. */
  lemma SectionTwice(s: SectionView)
    requires s.display.Some?
    ensures ToggledSection(ToggledSection(s)).display == if Hidden(s) then Some("none") else Some("block")
  {
  }

  datatype CardChild = DetailsPanel(lastUpdated: string) | CardContent(text: string)

  /** A damage card's `data-expanded` attribute (`None` when absent) and its children. */
  datatype DamageCard = DamageCard(expanded: Option<string>, children: seq<CardChild>)

  predicate NoDetails(cs: seq<CardChild>)
  {
    forall i :: 0 <= i < |cs| ==> !cs[i].DetailsPanel?
  }

  /** A details panel that is not the leading child is among the rest. */
  lemma DetailsInTail(cs: seq<CardChild>)
    requires cs != [] && !cs[0].DetailsPanel? && !NoDetails(cs)
    ensures !NoDetails(cs[1..])
  {
    var i :| 0 <= i < |cs| && cs[i].DetailsPanel?;
    assert cs[1..][i - 1] == cs[i];
  }

  /** The index of the first details panel among the children. */
  function FirstDetails(cs: seq<CardChild>): (j: nat)
    requires !NoDetails(cs)
    ensures j < |cs| && cs[j].DetailsPanel? && NoDetails(cs[..j])
  {
    if cs[0].DetailsPanel? then 0
    else
      DetailsInTail(cs);
      var k := FirstDetails(cs[1..]);
      assert cs[..k + 1] == [cs[0]] + cs[1..][..k];
      k + 1
  }

  /** The children without the first details panel, the one `querySelector('.mt-3.pt-3')` finds; the rest keep their order. */
  function WithoutFirstDetails(cs: seq<CardChild>): (r: seq<CardChild>)
    ensures NoDetails(cs) ==> r == cs
    ensures !NoDetails(cs) ==> |r| == |cs| - 1 && r == cs[..FirstDetails(cs)] + cs[FirstDetails(cs) + 1..]
  {
    if cs == [] then []
    else if cs[0].DetailsPanel? then cs[1..]
    else
      var rest := WithoutFirstDetails(cs[1..]);
      if NoDetails(cs) then
        assert NoDetails(cs[1..]) by {
          forall i | 0 <= i < |cs[1..]| ensures !cs[1..][i].DetailsPanel? {
            assert cs[1..][i] == cs[i + 1];
          }
        }
        assert [cs[0]] + cs[1..] == cs;
        [cs[0]] + rest
      else
        KeepLeadingChild(cs, rest);
        [cs[0]] + rest
  }

  /** Putting back a leading child that is not a details panel keeps the removal of the first one. */
  lemma KeepLeadingChild(cs: seq<CardChild>, rest: seq<CardChild>)
    requires cs != [] && !cs[0].DetailsPanel? && !NoDetails(cs)
    requires !NoDetails(cs[1..]) ==>
      rest == cs[1..][..FirstDetails(cs[1..])] + cs[1..][FirstDetails(cs[1..]) + 1..]
    ensures |[cs[0]] + rest| == |cs| - 1 && [cs[0]] + rest == cs[..FirstDetails(cs)] + cs[FirstDetails(cs) + 1..]
  {
    DetailsInTail(cs);
    var k := FirstDetails(cs[1..]);
    assert FirstDetails(cs) == k + 1;
    assert [cs[0]] + cs[1..] == cs;
    ConsWithoutAt(cs[0], cs[1..], k);
  }

  /** Removing the child at `k` from the tail is removing the child at `k + 1` from the whole. */
  lemma ConsWithoutAt(c: CardChild, t: seq<CardChild>, k: nat)
    requires k < |t|
    ensures [c] + (t[..k] + t[k + 1..]) == ([c] + t)[..k + 1] + ([c] + t)[k + 2..]
  {
    assert ([c] + t)[..k + 1] == [c] + t[..k];
    assert ([c] + t)[k + 2..] == t[k + 1..];
  }

  /**
    `toggleDamageCard` at time `now`: a card not marked `'true'` gets a
    details panel appended as its last child; a marked one loses its first
    details panel, the other children keeping their order.
   */
  function ToggledCard(c: DamageCard, now: string): (r: DamageCard)
    ensures c.expanded != Some("true") ==>
      r.expanded == Some("true") && r.children == c.children + [DetailsPanel(now)]
    ensures c.expanded == Some("true") ==> r.expanded == Some("false") && |r.children| <= |c.children|
    ensures c.expanded == Some("true") && NoDetails(c.children) ==> r.children == c.children
    ensures c.expanded == Some("true") && !NoDetails(c.children) ==>
      var j := FirstDetails(c.children); r.children == c.children[..j] + c.children[j + 1..]
  {
    if c.expanded != Some("true") then DamageCard(Some("true"), c.children + [DetailsPanel(now)])
    else DamageCard(Some("false"), WithoutFirstDetails(c.children))
  }

  /** Expanding a card without details and collapsing it again restores its children. */
  lemma {:induction false} CardTwice(c: DamageCard, now: string, later: string)
    requires c.expanded != Some("true") && NoDetails(c.children)
    ensures ToggledCard(ToggledCard(c, now), later).children == c.children
    ensures ToggledCard(ToggledCard(c, now), later).expanded == Some("false")
  {
    RemoveAppendedDetails(c.children, now);
  }

  lemma {:induction false} RemoveAppendedDetails(cs: seq<CardChild>, now: string)
    requires NoDetails(cs)
    ensures WithoutFirstDetails(cs + [DetailsPanel(now)]) == cs
  {
    if cs != [] {
      assert (cs + [DetailsPanel(now)])[1..] == cs[1..] + [DetailsPanel(now)];
      RemoveAppendedDetails(cs[1..], now);
      assert [cs[0]] + cs[1..] == cs;
    }
  }

  // ---------------------------------------------------------------------------
  // Status and counters

  /** The statuses `updateEmergencyStatus` steps through. */
  const Statuses: seq<string> := ["Active Emergency", "Response Active", "Assessment Phase"]

  /** `Array.prototype.indexOf`: the first index holding `x`, or -1. */
  function IndexOf(xs: seq<string>, x: string): (i: int)
    ensures -1 <= i < |xs|
    ensures i >= 0 ==> xs[i] == x && forall j :: 0 <= j < i ==> xs[j] != x
    ensures i == -1 <==> x !in xs
  {
    if xs == [] then -1
    else if xs[0] == x then 0
    else
      var j := IndexOf(xs[1..], x);
      if j == -1 then -1 else j + 1
  }

  /** The status text after one call of `updateEmergencyStatus` with random draw `draw`. */
  function NextStatus(text: Option<string>, draw: real): (r: Option<string>)
    ensures text == Some("Active Emergency") && draw > 0.9 ==> r == Some("Response Active")
    ensures !(text == Some("Active Emergency") && draw > 0.9) ==> r == text
  {
    if text.Some? && text.value == "Active Emergency" then
      var current := IndexOf(Statuses, text.value);
      if draw > 0.9 && current < |Statuses| - 1 then Some(Statuses[current + 1]) else text
    else text
  }

  /** The status text after one call per draw: it only ever moves to 'Response Active'. */
  function StatusAfter(text: Option<string>, draws: seq<real>): (r: Option<string>)
    decreases |draws|
    ensures r != text ==> r == Some("Response Active")
  {
    if draws == [] then text else StatusAfter(NextStatus(text, draws[0]), draws[1..])
  }

  /**
    However many calls run, the status either stays as it was or has
    advanced once, to 'Response Active'; 'Assessment Phase' is reached only
    if it was there from the start.
   */
  lemma {:induction false} StatusAdvancesOnce(text: Option<string>, draws: seq<real>)
    decreases |draws|
    ensures StatusAfter(text, draws) == text || StatusAfter(text, draws) == Some("Response Active")
    ensures StatusAfter(text, draws) == Some("Assessment Phase") ==> text == Some("Assessment Phase")
  {
    if draws != [] {
      var t := NextStatus(text, draws[0]);
      StatusAdvancesOnce(t, draws[1..]);
      if t != text {
        ResponseStays(draws[1..]);
      }
    }
  }

  lemma {:induction false} ResponseStays(draws: seq<real>)
    ensures StatusAfter(Some("Response Active"), draws) == Some("Response Active")
  {
    if draws != [] {
      ResponseStays(draws[1..]);
    }
  }

  /** `Math.floor(draw * k)` for a draw of `Math.random()`: a whole number from 0 to k - 1. */
  function Scaled(draw: real, k: nat): (n: nat)
    requires 0.0 <= draw < 1.0 && k > 0
    ensures n < k
  {
    var f := (draw * k as real).Floor;
    assert f as real <= draw * k as real < k as real;
    f
  }

  /**
    The text a counter shows after `parseInt` of its text plus `step` is
    written back: the sum when the text starts with a number, and "NaN"
    when it does not.
   */
  function Bumped(text: string, step: nat): (r: string)
    ensures r == "NaN" <==> ParseInt(text).None?
  {
    match ParseInt(text)
    case None => "NaN"
    case Some(n) => IntToString(n + step)
  }

  /** Text that starts with a letter is not a number: `parseInt` gives NaN. */
  lemma LetterStartIsNaN(s: string)
    requires s != [] && ('A' <= s[0] <= 'Z' || 'a' <= s[0] <= 'z')
    ensures ParseInt(s).None?
  {
    assert !IsJsWhitespace(s[0]);
    assert TrimStart(s) == s;
    assert !IsDigitIn(s[0], 10);
    assert LeadingDigits(s, 10) == [];
  }

  /** A counter never goes down: it reads back as its old value plus the step, and one that is not a number stays "NaN". */
  lemma BumpedReadsBack(text: string, step: nat)
    ensures ParseInt(text).Some? ==> ParseInt(Bumped(text, step)) == Some(ParseInt(text).value + step)
    ensures ParseInt(text).None? ==> Bumped(text, step) == "NaN" && ParseInt(Bumped(text, step)).None?
  {
    match ParseInt(text)
    case None =>
      assert Bumped(text, step) == "NaN";
      LetterStartIsNaN("NaN");
    case Some(n) =>
      assert Bumped(text, step) == IntToString(n + step);
      ParseIntOfIntToString(n + step);
  }

  /**
    A status name in the shared `.text-red-400` element is not a number,
    so a passing roll of the buildings-damaged update replaces it with "NaN".
   */
  lemma StatusBumpsToNaN(i: nat, step: nat)
    requires i < |Statuses|
    ensures Bumped(Statuses[i], step) == "NaN"
  {
    LetterStartIsNaN(Statuses[i]);
  }

  /** A bumped counter starts with a minus sign, a digit, or the N of "NaN". */
  lemma BumpedStart(text: string, step: nat)
    ensures Bumped(text, step) != []
    ensures var c := Bumped(text, step)[0]; c == '-' || c == 'N' || '0' <= c <= '9'
  {
    match ParseInt(text)
    case None =>
    case Some(n) =>
      var m: nat := if n + step < 0 then -(n + step) else n + step;
      NatToStringDigits(m);
      assert IsDigitIn(NatToString(m)[0], 10);
  }

  /** The text of a number is never a status name: each of those starts with a capital other than N. */
  lemma BumpedIsNoStatus(text: string, step: nat)
    ensures Bumped(text, step) !in Statuses
  {
    BumpedStart(text, step);
    var r := Bumped(text, step);
    assert Statuses[0][0] == 'A' && Statuses[1][0] == 'R' && Statuses[2][0] == 'A';
    assert r != Statuses[0] && r != Statuses[1] && r != Statuses[2];
  }

  // ---------------------------------------------------------------------------
  // The panel

  /** Whether a call ran to its end or stopped with a TypeError. */
  datatype Outcome = Completed | TypeError

  /** `EarthquakeInfoPanel` and the page elements it reads and writes. */
  class Panel {
    var isCollapsed: bool
    /** The `aside` element, if the page has one. */
    var sidebar: Option<SidebarView>
    var sections: seq<SectionView>
    var cards: seq<DamageCard>
    /** The text of the first `.text-yellow-400` element (the injured count), if any. */
    var injuredText: Option<string>
    /**
      The text of the first `.text-red-400` element, if any: both the
      buildings-damaged counter and the emergency status are looked up
      with this one selector, so they are one element.
     */
    var redText: Option<string>

    /** A panel over the given elements; it starts expanded. */
    constructor (sidebar: Option<SidebarView>, sections: seq<SectionView>, cards: seq<DamageCard>,
                 injuredText: Option<string>, redText: Option<string>)
      ensures !isCollapsed
      ensures this.sidebar == sidebar && this.sections == sections && this.cards == cards
      ensures this.injuredText == injuredText && this.redText == redText
    {
      isCollapsed := false;
      this.sidebar, this.sections, this.cards := sidebar, sections, cards;
      this.injuredText, this.redText := injuredText, redText;
    }

    /**
      `toggleSidebar`. With no `aside` the lookup of its button throws
      before anything changes. Otherwise the flag flips and the width and
      overflow are set; a missing button then throws before its text is
      set.
     */
    method ToggleSidebar() returns (outcome: Outcome)
      modifies this`isCollapsed, this`sidebar
      ensures old(sidebar).None? ==> outcome == TypeError && isCollapsed == old(isCollapsed) && sidebar == None
      ensures old(sidebar).Some? ==>
        isCollapsed == !old(isCollapsed) && sidebar == Some(SidebarFor(isCollapsed, old(sidebar).value))
        && (outcome == TypeError <==> old(sidebar).value.button.None?)
    {
      if sidebar.None? {
        return TypeError;
      }
      var s := sidebar.value;
      isCollapsed := !isCollapsed;
      if isCollapsed {
        s := s.(width := "60px", overflow := "hidden");
      } else {
        s := s.(width := "320px", overflow := "auto");
      }
      if s.button.None? {
        sidebar := Some(s);
        return TypeError;
      }
      if isCollapsed {
        s := s.(button := Some(ButtonView(HiddenGlyph, "Expand Sidebar")));
      } else {
        s := s.(button := Some(ButtonView(CollapseGlyph, "Collapse Sidebar")));
      }
      sidebar := Some(s);
      outcome := Completed;
    }

    /** `toggleSection` on the `i`th section and its button. */
    method ToggleSection(i: nat)
      requires i < |sections|
      modifies this`sections
      ensures sections == old(sections)[i := ToggledSection(old(sections)[i])]
    {
      var s := sections[i];
      if s.display.Some? {
        var isHidden := s.display.value == "none";
        s := SectionView(Some(if isHidden then "block" else "none"), if isHidden then ShownGlyph else HiddenGlyph);
      }
      sections := sections[i := s];
    }

    /** `toggleDamageCard` on the `i`th card, at time `now`. */
    method ToggleDamageCard(i: nat, now: string)
      requires i < |cards|
      modifies this`cards
      ensures cards == old(cards)[i := ToggledCard(old(cards)[i], now)]
    {
      var card := cards[i];
      var isExpanded := card.expanded == Some("true");
      if !isExpanded {
        card := DamageCard(Some("true"), card.children + [DetailsPanel(now)]);
      } else {
        card := DamageCard(Some("false"), WithoutFirstDetails(card.children));
      }
      cards := cards[i := card];
    }

    /** `updateEmergencyStatus` with `draw` for its `Math.random()`. */
    method UpdateEmergencyStatus(draw: real)
      modifies this`redText
      ensures redText == NextStatus(old(redText), draw)
    {
      if redText.Some? && redText.value == "Active Emergency" {
        var currentIndex := IndexOf(Statuses, redText.value);
        if draw > 0.9 && currentIndex < |Statuses| - 1 {
          redText := Some(Statuses[currentIndex + 1]);
        }
      }
    }

    /**
      `simulateDataUpdates` with its four `Math.random()` draws: each
      counter that exists and whose roll passes is read with `parseInt`,
      increased by 0 to 2 (injured) or 0 to 1 (buildings damaged) and
      written back. A draw whose element is missing is not made.
     */
    method SimulateDataUpdates(injuredRoll: real, injuredDraw: real, damagedRoll: real, damagedDraw: real)
      requires 0.0 <= injuredDraw < 1.0 && 0.0 <= damagedDraw < 1.0
      modifies this`injuredText, this`redText
      ensures injuredText == if old(injuredText).Some? && injuredRoll > 0.7
        then Some(Bumped(old(injuredText).value, Scaled(injuredDraw, 3))) else old(injuredText)
      ensures redText == if old(redText).Some? && damagedRoll > 0.8
        then Some(Bumped(old(redText).value, Scaled(damagedDraw, 2))) else old(redText)
    {
      if injuredText.Some? && injuredRoll > 0.7 {
        var currentInjured := ParseInt(injuredText.value);
        var step := Scaled(injuredDraw, 3);
        var newInjured := if currentInjured.None? then "NaN" else IntToString(currentInjured.value + step);
        assert newInjured == Bumped(injuredText.value, step);
        injuredText := Some(newInjured);
      }
      if redText.Some? && damagedRoll > 0.8 {
        var currentDamaged := ParseInt(redText.value);
        var step := Scaled(damagedDraw, 2);
        var newDamaged := if currentDamaged.None? then "NaN" else IntToString(currentDamaged.value + step);
        assert newDamaged == Bumped(redText.value, step);
        redText := Some(newDamaged);
      }
    }
  }
}
