/**
 * The key-definition builders of mkkb.py. A definition says which template
 * texts a key shows (name to legend) and which template rectangles it
 * draws; the builders only decide labels, they never touch the drawing.
 */
module KeyDefinitions {
  import opened Wrappers

  /** A legend: a plain string, or a `(text, colour)` tuple whose colour overrides the template fill. */
  datatype Legend = Plain(text: string) | Colored(text: string, color: string)

  /**
   * A key definition: the `texts` dict and the `rects` list. `rects` is
   * `None` when the builder never creates the key (`background=False`).
   */
  datatype KeyDefinition = KeyDefinition(texts: map<string, Legend>, rects: Option<seq<string>>)

  /** Whether `name` is listed in the definition's rects, if it has any. */
  predicate WantsRect(def: KeyDefinition, name: string) {
    def.rects.Some? && name in def.rects.value
  }

  /** The rects of a key that has a background exactly when asked to. */
  function BackgroundRects(background: bool): (r: Option<seq<string>>)
    ensures r.Some? <==> background
    ensures r.Some? ==> r.value == ["background"]
  {
    if background then Some(["background"]) else None
  }

  /**
   * Adds `name` to the texts when the argument is not `None`, the way each
   * builder's `if x is not None: texts[name] = x` does.
   */
  function Optional(texts: map<string, Legend>, name: string, legend: Option<Legend>): (r: map<string, Legend>)
    ensures r.Keys == if legend.Some? then texts.Keys + {name} else texts.Keys
    ensures forall l :: l in r && l != name ==> r[l] == texts[l]
    ensures legend.Some? ==> r[name] == legend.value
  {
    if legend.Some? then texts[name := legend.value] else texts
  }

  // ---------------------------------------------------------------------------
  // make_special, make_arrow_vertical, make_arrow_horizontal
  // ---------------------------------------------------------------------------

  /**
   * `make_special`: one line is centred in the middle, otherwise the first
   * two lines go top and bottom (later lines are ignored). An empty list
   * raises in the source, hence the precondition.
   */
  function MakeSpecial(lines: seq<Legend>, background: bool): (r: KeyDefinition)
    requires |lines| >= 1
    ensures |lines| == 1 ==> r.texts.Keys == {"special middle"} && r.texts["special middle"] == lines[0]
    ensures |lines| > 1 ==> r.texts.Keys == {"special top", "special bottom"}
    ensures |lines| > 1 ==> r.texts["special top"] == lines[0] && r.texts["special bottom"] == lines[1]
    ensures r.rects == BackgroundRects(background)
    ensures WantsRect(r, "background") <==> background
  {
    var texts := if |lines| == 1 then map["special middle" := lines[0]]
                 else map["special top" := lines[0], "special bottom" := lines[1]];
    KeyDefinition(texts, BackgroundRects(background))
  }

  /** `make_arrow_vertical`: the first line is the arrow glyph. */
  function MakeArrowVertical(lines: seq<Legend>, background: bool): (r: KeyDefinition)
    requires |lines| >= 1
    ensures r.texts.Keys == {"arrow vertical"} && r.texts["arrow vertical"] == lines[0]
    ensures r.rects == BackgroundRects(background)
    ensures WantsRect(r, "background") <==> background
  {
    KeyDefinition(map["arrow vertical" := lines[0]], BackgroundRects(background))
  }

  /** `make_arrow_horizontal`: the first line is the arrow glyph. */
  function MakeArrowHorizontal(lines: seq<Legend>, background: bool): (r: KeyDefinition)
    requires |lines| >= 1
    ensures r.texts.Keys == {"arrow horizontal"} && r.texts["arrow horizontal"] == lines[0]
    ensures r.rects == BackgroundRects(background)
    ensures WantsRect(r, "background") <==> background
  {
    KeyDefinition(map["arrow horizontal" := lines[0]], BackgroundRects(background))
  }

  // ---------------------------------------------------------------------------
  // make_number
  // ---------------------------------------------------------------------------

  /** Python's `sub in s` on strings: `sub` occurs as a contiguous substring of `s`. */
  predicate Occurs(sub: string, s: string)
    decreases |s|
  {
    sub <= s || (|s| > 0 && Occurs(sub, s[1..]))
  }

  /** The text name a number goes to: its digit bucket. */
  function NumberLabel(number: string): (r: string)
    ensures r == "number 012" <==> Occurs(number, "012")
    ensures r == "number 34579" <==> !Occurs(number, "012") && Occurs(number, "34579")
    ensures r == "number" <==> !Occurs(number, "012") && !Occurs(number, "34579")
  {
    if Occurs(number, "012") then "number 012"
    else if Occurs(number, "34579") then "number 34579"
    else "number"
  }

  /** The rectangle a position of the five-character grid mask switches on. */
  const GridLabels: seq<string> := ["grid border", "grid a", "grid b", "grid c", "grid d"]

  /** Every rectangle name `make_number` can list, in the order it lists them. */
  const NumberRectOrder: seq<string> := ["background", "top background"] + GridLabels

  /** The position of a name in `NumberRectOrder` (past the end when absent). */
  function Rank(name: string): (r: nat)
    ensures r <= |NumberRectOrder|
    ensures r < |NumberRectOrder| ==> NumberRectOrder[r] == name
  {
    if name == "background" then 0
    else if name == "top background" then 1
    else if name == "grid border" then 2
    else if name == "grid a" then 3
    else if name == "grid b" then 4
    else if name == "grid c" then 5
    else if name == "grid d" then 6
    else 7
  }

  /** Mask position p's rectangle comes p places after the two background rectangles. */
  lemma GridRank(p: nat)
    requires p < 5
    ensures Rank(GridLabels[p]) == 2 + p
  {
    if p == 0 {
      assert GridLabels[p] == "grid border";
    } else if p == 1 {
      assert GridLabels[p] == "grid a";
    } else if p == 2 {
      assert GridLabels[p] == "grid b";
    } else if p == 3 {
      assert GridLabels[p] == "grid c";
    } else {
      assert GridLabels[p] == "grid d";
    }
  }

  /** A list of labels strictly in `NumberRectOrder` order (so without repeats). */
  predicate InRankOrder(labels: seq<string>) {
    forall i, j :: 0 <= i < j < |labels| ==> Rank(labels[i]) < Rank(labels[j])
  }

  /**
   * The grid rectangles for mask positions `i` to 4: one name for each
   * character that is not a space, in position order.
   */
  function GridRects(grid: string, i: nat): (r: seq<string>)
    requires |grid| >= 5 && i <= 5
    ensures forall l :: l in r <==> exists p :: i <= p < 5 && grid[p] != ' ' && l == GridLabels[p]
    ensures forall l :: l in r ==> Rank(l) >= 2 + i
    ensures InRankOrder(r)
    decreases 5 - i
  {
    if i == 5 then []
    else
      var rest := GridRects(grid, i + 1);
      GridRank(i);
      if grid[i] != ' ' then [GridLabels[i]] + rest else rest
  }

  /**
   * The rects of `make_number`: background, then the top background when
   * flagged, then one grid rectangle per non-space mask character.
   */
  function NumberRects(grid: string, topBackground: bool): (r: seq<string>)
    requires |grid| >= 5
    ensures |r| >= 1 && r[0] == "background"
    ensures forall l :: l in r <==>
              l == "background" || (l == "top background" && topBackground)
              || exists p :: 0 <= p < 5 && grid[p] != ' ' && l == GridLabels[p]
    ensures InRankOrder(r)
  {
    var head := RectsHead(topBackground);
    OrderedConcat(head, GridRects(grid, 0), 2);
    head + GridRects(grid, 0)
  }

  /** The rects `make_number` lists before the grid: background, then the top background when flagged. */
  function RectsHead(topBackground: bool): (r: seq<string>)
    ensures |r| >= 1 && r[0] == "background"
    ensures forall l :: l in r <==> l == "background" || (l == "top background" && topBackground)
    ensures forall l :: l in r ==> Rank(l) < 2
    ensures InRankOrder(r)
  {
    assert Rank("background") == 0 && Rank("top background") == 1;
    if topBackground then ["background", "top background"] else ["background"]
  }

  /** Two lists in rank order, the first entirely below `bound` and the second at or above it, join in rank order. */
  lemma OrderedConcat(a: seq<string>, b: seq<string>, bound: nat)
    requires InRankOrder(a) && InRankOrder(b)
    requires forall l :: l in a ==> Rank(l) < bound
    requires forall l :: l in b ==> Rank(l) >= bound
    ensures InRankOrder(a + b)
  {
    forall i, j | 0 <= i < j < |a + b|
      ensures Rank((a + b)[i]) < Rank((a + b)[j])
    {
      if j < |a| {
      } else if i < |a| {
        assert (a + b)[i] in a && (a + b)[j] in b;
      } else {
        assert (a + b)[i] == b[i - |a|] && (a + b)[j] == b[j - |a|];
      }
    }
  }

  /** The texts of `make_number`: the number in its digit bucket, then the optional legends. */
  function NumberTexts(number: Option<string>, top: Option<Legend>, bottom: Option<Legend>,
                       symbol: Option<Legend>): (r: map<string, Legend>)
    ensures number.Some? ==> NumberLabel(number.value) in r && r[NumberLabel(number.value)] == Plain(number.value)
    ensures r.Keys <= {"number 012", "number 34579", "number", "top", "bottom", "number symbol"}
    ensures "number 012" in r <==> number.Some? && NumberLabel(number.value) == "number 012"
    ensures "number 34579" in r <==> number.Some? && NumberLabel(number.value) == "number 34579"
    ensures "number" in r <==> number.Some? && NumberLabel(number.value) == "number"
    ensures ("top" in r <==> top.Some?) && (top.Some? ==> r["top"] == top.value)
    ensures ("bottom" in r <==> bottom.Some?) && (bottom.Some? ==> r["bottom"] == bottom.value)
    ensures ("number symbol" in r <==> symbol.Some?) && (symbol.Some? ==> r["number symbol"] == symbol.value)
  {
    var numbered: map<string, Legend> := if number.Some? then map[NumberLabel(number.value) := Plain(number.value)] else map[];
    Optional(Optional(Optional(numbered, "top", top), "bottom", bottom), "number symbol", symbol)
  }

  /**
   * `make_number`: the digit-bucketed number, the optional top, bottom and
   * symbol legends, and rects that always start with the background. A mask
   * shorter than five characters raises in the source.
   */
  function MakeNumber(number: Option<string>, top: Option<Legend>, bottom: Option<Legend>,
                      symbol: Option<Legend>, grid: string, topBackground: bool): (r: KeyDefinition)
    requires |grid| >= 5
    ensures r.rects == Some(NumberRects(grid, topBackground))
    ensures r.texts == NumberTexts(number, top, bottom, symbol)
  {
    KeyDefinition(NumberTexts(number, top, bottom, symbol), Some(NumberRects(grid, topBackground)))
  }

  // ---------------------------------------------------------------------------
  // make_letter_symbol, make_letter_word, make_space, alt_color
  // ---------------------------------------------------------------------------

  /** The texts shared by both letter builders; `fifth` is the name of the last argument. */
  function LetterTexts(letter: Option<Legend>, top: Option<Legend>, bottom: Option<Legend>,
                       secondary: Option<Legend>, fifthLabel: string, fifth: Option<Legend>): (r: map<string, Legend>)
    requires fifthLabel !in {"letter", "top", "bottom", "letter secondary"}
    ensures r.Keys <= {"letter", "top", "bottom", "letter secondary", fifthLabel}
    ensures ("letter" in r <==> letter.Some?) && (letter.Some? ==> r["letter"] == letter.value)
    ensures ("top" in r <==> top.Some?) && (top.Some? ==> r["top"] == top.value)
    ensures ("bottom" in r <==> bottom.Some?) && (bottom.Some? ==> r["bottom"] == bottom.value)
    ensures ("letter secondary" in r <==> secondary.Some?) && (secondary.Some? ==> r["letter secondary"] == secondary.value)
    ensures (fifthLabel in r <==> fifth.Some?) && (fifth.Some? ==> r[fifthLabel] == fifth.value)
  {
    var texts := Optional(map[], "letter", letter);
    var texts := Optional(texts, "top", top);
    var texts := Optional(texts, "bottom", bottom);
    var texts := Optional(texts, "letter secondary", secondary);
    Optional(texts, fifthLabel, fifth)
  }

  /** `make_letter_symbol`: a letter key whose fifth legend is a symbol. */
  function MakeLetterSymbol(letter: Option<Legend>, top: Option<Legend>, bottom: Option<Legend>,
                            secondary: Option<Legend>, symbol: Option<Legend>): (r: KeyDefinition)
    ensures r.rects == Some(["background"])
    ensures r.texts.Keys <= {"letter", "top", "bottom", "letter secondary", "letter symbol"}
    ensures "letter symbol" in r.texts <==> symbol.Some?
    ensures symbol.Some? ==> r.texts["letter symbol"] == symbol.value
    ensures "letter" in r.texts <==> letter.Some?
    ensures letter.Some? ==> r.texts["letter"] == letter.value
    ensures "letter secondary" in r.texts <==> secondary.Some?
    ensures secondary.Some? ==> r.texts["letter secondary"] == secondary.value
    ensures ("top" in r.texts <==> top.Some?) && (top.Some? ==> r.texts["top"] == top.value)
    ensures ("bottom" in r.texts <==> bottom.Some?) && (bottom.Some? ==> r.texts["bottom"] == bottom.value)
  {
    KeyDefinition(LetterTexts(letter, top, bottom, secondary, "letter symbol", symbol), Some(["background"]))
  }

  /** `make_letter_word`: a letter key whose fifth legend is a keyword. */
  function MakeLetterWord(letter: Option<Legend>, top: Option<Legend>, bottom: Option<Legend>,
                          secondary: Option<Legend>, tertiary: Option<Legend>): (r: KeyDefinition)
    ensures r.rects == Some(["background"])
    ensures r.texts.Keys <= {"letter", "top", "bottom", "letter secondary", "letter tertiary"}
    ensures "letter tertiary" in r.texts <==> tertiary.Some?
    ensures tertiary.Some? ==> r.texts["letter tertiary"] == tertiary.value
    ensures "letter" in r.texts <==> letter.Some?
    ensures letter.Some? ==> r.texts["letter"] == letter.value
    ensures "letter secondary" in r.texts <==> secondary.Some?
    ensures secondary.Some? ==> r.texts["letter secondary"] == secondary.value
    ensures ("top" in r.texts <==> top.Some?) && (top.Some? ==> r.texts["top"] == top.value)
    ensures ("bottom" in r.texts <==> bottom.Some?) && (bottom.Some? ==> r.texts["bottom"] == bottom.value)
  {
    KeyDefinition(LetterTexts(letter, top, bottom, secondary, "letter tertiary", tertiary), Some(["background"]))
  }

  /** `make_space`: the space bar, with fixed BREAK and SPACE legends. */
  function MakeSpace(): (r: KeyDefinition)
    ensures r.rects == Some(["background"])
    ensures r.texts.Keys == {"break", "space"}
    ensures r.texts["break"] == Plain("BREAK") && r.texts["space"] == Plain("SPACE")
  {
    KeyDefinition(map["break" := Plain("BREAK"), "space" := Plain("SPACE")], Some(["background"]))
  }

  /** `alt_color`: every name paired with black. */
  function AltColor(labels: seq<string>): (r: seq<Legend>)
    ensures |r| == |labels|
    ensures forall i :: 0 <= i < |r| ==> r[i].Colored? && r[i].color == "#000000"
    ensures forall i :: 0 <= i < |r| ==> r[i].text == labels[i]
  {
    seq(|labels|, i requires 0 <= i < |labels| => Colored(labels[i], "#000000"))
  }

  // ---------------------------------------------------------------------------
  // Properties
  // ---------------------------------------------------------------------------

  /** A single digit's bucket is decided by the digit: 0-2, 3/4/5/7/9, or 6 and 8. */
  lemma DigitBuckets(c: char)
    requires '0' <= c <= '9'
    ensures NumberLabel([c]) == "number 012" <==> c in "012"
    ensures NumberLabel([c]) == "number 34579" <==> c in "34579"
    ensures NumberLabel([c]) == "number" <==> c == '6' || c == '8'
  {
    SingleOccurs(c, "012");
    SingleOccurs(c, "34579");
  }

  /** A one-character string occurs in `s` exactly when the character does. */
  lemma {:induction false} SingleOccurs(c: char, s: string)
    ensures Occurs([c], s) <==> c in s
    decreases |s|
  {
    if |s| > 0 {
      SingleOccurs(c, s[1..]);
      assert s == [s[0]] + s[1..];
    }
  }

  /** Python's substring test sends "12" and "" to the 0-1-2 bucket too. */
  lemma SubstringBucketQuirk()
    ensures NumberLabel("12") == "number 012"
    ensures NumberLabel("") == "number 012"
  {
    assert "012"[1..] == "12";
    assert "12" <= "012"[1..];
  }

  /** The '1' key's mask "[a cd" lights the border and grids a, c and d, after the background. */
  lemma NumberOneRects()
    ensures MakeNumber(Some("1"), Some(Colored("BLUE", "#2aacfd")), Some(Plain("DEF FN")), Some(Plain("!")), "[a cd", false).rects
            == Some(["background", "grid border", "grid a", "grid c", "grid d"])
  {
    var grid := "[a cd";
    assert grid[0] == '[' && grid[1] == 'a' && grid[2] == ' ' && grid[3] == 'c' && grid[4] == 'd';
    assert GridRects(grid, 4) == ["grid d"];
    assert GridRects(grid, 3) == ["grid c", "grid d"];
    assert GridRects(grid, 2) == ["grid c", "grid d"];
    assert GridRects(grid, 1) == ["grid a", "grid c", "grid d"];
    assert GridRects(grid, 0) == ["grid border", "grid a", "grid c", "grid d"];
    assert RectsHead(false) == ["background"];
    var rects := NumberRects(grid, false);
    assert rects == ["background"] + ["grid border", "grid a", "grid c", "grid d"];
    assert rects == ["background", "grid border", "grid a", "grid c", "grid d"];
    var key := MakeNumber(Some("1"), Some(Colored("BLUE", "#2aacfd")), Some(Plain("DEF FN")), Some(Plain("!")), grid, false);
    assert key.rects == Some(rects);
  }

  /** The '1' key's legends: the digit in the 0-1-2 bucket, the BLUE top in its colour, bottom and symbol. */
  lemma NumberOneTexts()
    ensures MakeNumber(Some("1"), Some(Colored("BLUE", "#2aacfd")), Some(Plain("DEF FN")), Some(Plain("!")), "[a cd", false).texts
            == map["number 012" := Plain("1"), "top" := Colored("BLUE", "#2aacfd"),
                   "bottom" := Plain("DEF FN"), "number symbol" := Plain("!")]
  {
    DigitBuckets('1');
    assert NumberLabel("1") == "number 012";
    var texts := NumberTexts(Some("1"), Some(Colored("BLUE", "#2aacfd")), Some(Plain("DEF FN")), Some(Plain("!")));
    assert texts.Keys == {"number 012", "top", "bottom", "number symbol"};
  }

  /** With every argument `None` and a blank mask, only the background is left. */
  lemma NumberOmissionExample()
    ensures var r := MakeNumber(None, None, None, None, "     ", false);
            r.rects == Some(["background"]) && r.texts == map[]
  {
    var grid := "     ";
    assert forall p :: 0 <= p < 5 ==> grid[p] == ' ';
    assert GridRects(grid, 4) == [];
    assert GridRects(grid, 3) == [];
    assert GridRects(grid, 2) == [];
    assert GridRects(grid, 1) == [];
    assert GridRects(grid, 0) == [];
    assert NumberRects(grid, false) == ["background"];
    var texts := NumberTexts(None, None, None, None);
    assert texts.Keys == {};
  }

  /** `background=False` leaves no rects at all for special and arrow keys. */
  lemma NoBackgroundNoRects(lines: seq<Legend>, name: string)
    requires |lines| >= 1
    ensures !WantsRect(MakeSpecial(lines, false), name)
    ensures !WantsRect(MakeArrowVertical(lines, false), name)
    ensures !WantsRect(MakeArrowHorizontal(lines, false), name)
  {
  }
}
