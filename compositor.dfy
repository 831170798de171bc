/**
 * The compositing loop at the end of `main` in mkkb.py. For every
 * placeholder group of the key-frames layer whose id has a definition, the
 * template's rectangles and then its texts are visited in template order;
 * each one the definition asks for is copied, fitted to the placeholder's
 * outline and appended to the Cobra layer as a new group.
 */
module Compositor {
  import opened Wrappers
  import opened PathBounds
  import opened Placement
  import opened KeyDefinitions

  /** The loaded key template: its group's translation and its labelled rectangles and texts, in document order. */
  datatype Template = Template(translate: (real, real), rects: seq<(string, Rect)>, texts: seq<(string, Text)>)

  /** A placeholder group of the key frames: its id, and the path that outlines the key with its stroke width. */
  datatype Placeholder = Placeholder(id: string, outline: seq<Token>, strokeWidth: real)

  /** What a new group holds in place of the placeholder's path. */
  datatype Overlay = RectOverlay(rect: Rect) | TextOverlay(text: Text)

  /** A group appended to the Cobra layer: the placeholder's id, the frames' matrix as its transform, and its overlay. */
  datatype Group = Group(id: string, transform: Matrix, overlay: Overlay)

  /** One template element the definition asks for, with the flag it is placed with. */
  datatype Job = RectJob(name: string, rect: Rect, stretched: bool) | TextJob(name: string, text: Text, centred: bool)

  /** Texts placed in the middle of the key: the special-key labels and the space bar's two. */
  predicate IsCentred(name: string) {
    "special " <= name || name == "break" || name == "space"
  }

  /**
   * `replace_text`, and `replace_fill` for a coloured legend: the span's
   * content becomes the legend's text; a colour replaces the fill of both
   * the text and its span. Position and size are untouched.
   */
  function WithLegend(text: Text, legend: Legend): (r: Text)
    ensures r.span.content == legend.text
    ensures legend.Colored? ==> r.fill == legend.color && r.span.fill == legend.color
    ensures legend.Plain? ==> r.fill == text.fill && r.span.fill == text.span.fill
    ensures r.x == text.x && r.y == text.y
    ensures r.span.x == text.span.x && r.span.y == text.span.y && r.span.fontSize == text.span.fontSize
  {
    match legend
    case Plain(s) => text.(span := text.span.(content := s))
    case Colored(s, color) => text.(fill := color, span := text.span.(content := s, fill := color))
  }

  // ---------------------------------------------------------------------------
  // Label selection
  // ---------------------------------------------------------------------------

  /** The job for one template rectangle: wanted or not, stretched only if it is the background. */
  function RectJobFor(entry: (string, Rect), def: KeyDefinition): seq<Job> {
    if WantsRect(def, entry.0) then [RectJob(entry.0, entry.1, entry.0 == "background")] else []
  }

  /** The job for one template text: given a legend or not, centred by its label. */
  function TextJobFor(entry: (string, Text), def: KeyDefinition): seq<Job> {
    if entry.0 in def.texts then [TextJob(entry.0, WithLegend(entry.1, def.texts[entry.0]), IsCentred(entry.0))] else []
  }

  /**
   * The template rectangles a definition asks for, in template order; only
   * the background is stretched. A definition without rects asks for none.
   */
  function RectJobs(rects: seq<(string, Rect)>, def: KeyDefinition): (r: seq<Job>)
    ensures |r| <= |rects|
  {
    if |rects| == 0 then []
    else
      RectJobs(rects[..|rects| - 1], def) + RectJobFor(rects[|rects| - 1], def)
  }

  /**
   * The template texts a definition gives a legend for, in template order,
   * each carrying its legend; the special, break and space labels are centred.
   */
  function TextJobs(texts: seq<(string, Text)>, def: KeyDefinition): (r: seq<Job>)
    ensures |r| <= |texts|
  {
    if |texts| == 0 then []
    else
      TextJobs(texts[..|texts| - 1], def) + TextJobFor(texts[|texts| - 1], def)
  }

  /** Everything a key places: its rectangles first, then its texts. */
  function Jobs(template: Template, def: KeyDefinition): seq<Job> {
    RectJobs(template.rects, def) + TextJobs(template.texts, def)
  }

  // ---------------------------------------------------------------------------
  // Placement of one key
  // ---------------------------------------------------------------------------

  /** `add_rect` or `add_text` for one job, against the placeholder's measured outline. */
  function PlaceJob(m: Matrix, translate: (real, real), outline: Dimensions, job: Job): (r: Overlay)
    requires Invertible(m)
    ensures r.RectOverlay? <==> job.RectJob?
    ensures job.RectJob? ==> r.rect == PlaceRect(m, translate, outline, job.rect, job.stretched)
    ensures job.TextJob? ==> r.text == PlaceText(m, translate, outline, job.text, job.centred)
  {
    match job
    case RectJob(_, rect, stretched) => RectOverlay(PlaceRect(m, translate, outline, rect, stretched))
    case TextJob(_, text, centred) => TextOverlay(PlaceText(m, translate, outline, text, centred))
  }

  /** The groups for a list of jobs, one per job and in the same order. */
  function PlaceAll(id: string, m: Matrix, translate: (real, real), outline: Dimensions, jobs: seq<Job>): (r: seq<Group>)
    requires Invertible(m)
    ensures |r| == |jobs|
  {
    seq(|jobs|, i requires 0 <= i < |jobs| => Group(id, m, PlaceJob(m, translate, outline, jobs[i])))
  }

  /**
   * The groups for a list of jobs, or the outline's error. The outline is
   * measured only when there is a job, so an empty list never fails.
   */
  function Placed(translate: (real, real), ph: Placeholder, m: Matrix, jobs: seq<Job>): (r: Result<seq<Group>, PathError>)
    requires Invertible(m)
    ensures jobs == [] ==> r == Success([])
    ensures r.Failure? <==> jobs != [] && Measure(ph.outline, ph.strokeWidth).Failure?
    ensures r.Failure? ==> r.error == Measure(ph.outline, ph.strokeWidth).error
    ensures r.Success? ==> |r.value| == |jobs|
  {
    if jobs == [] then Success([])
    else
      var outline :- Measure(ph.outline, ph.strokeWidth);
      Success(PlaceAll(ph.id, m, translate, outline, jobs))
  }

  /** What the loop body of `main` appends for one defined placeholder. */
  function KeyPlacement(template: Template, def: KeyDefinition, ph: Placeholder, m: Matrix): Result<seq<Group>, PathError>
    requires Invertible(m)
  {
    Placed(template.translate, ph, m, Jobs(template, def))
  }

  /** The Cobra layer, to which placed groups are appended. */
  class Layer {
    var groups: seq<Group>

    /** `cobra.append(g)`. */
    method Append(g: Group)
      modifies this
      ensures groups == old(groups) + [g]
    {
      groups := groups + [g];
    }
  }

  /**
   * The two inner loops of `main` for one placeholder: rectangles, then
   * texts. A broken outline stops the run before anything of this key is
   * appended.
   */
  method PlaceKey(layer: Layer, template: Template, def: KeyDefinition, ph: Placeholder, m: Matrix)
      returns (err: Option<PathError>)
    requires Invertible(m)
    modifies layer
    ensures var expected := KeyPlacement(template, def, ph, m);
            if expected.Success? then err.None? && layer.groups == old(layer.groups) + expected.value
            else err == Some(expected.error) && layer.groups == old(layer.groups)
  {
    KeyPlacementSplits(template, def, ph, m);
    err := PlaceRects(layer, template, def, ph, m);
    if err.None? {
      err := PlaceTexts(layer, template, def, ph, m);
    }
  }

  /** The rectangle loop: each wanted template rectangle, measured against the outline and appended. */
  method PlaceRects(layer: Layer, template: Template, def: KeyDefinition, ph: Placeholder, m: Matrix)
      returns (err: Option<PathError>)
    requires Invertible(m)
    modifies layer
    ensures var expected := Placed(template.translate, ph, m, RectJobs(template.rects, def));
            if expected.Success? then err.None? && layer.groups == old(layer.groups) + expected.value
            else err == Some(expected.error) && layer.groups == old(layer.groups)
  {
    ghost var measured := Measure(ph.outline, ph.strokeWidth);
    var rects := template.rects;
    var i := 0;
    while i < |rects|
      invariant i <= |rects|
      invariant measured.Failure? ==> RectJobs(rects[..i], def) == [] && layer.groups == old(layer.groups)
      invariant measured.Success? ==>
                  layer.groups == old(layer.groups) + PlaceAll(ph.id, m, template.translate, measured.value, RectJobs(rects[..i], def))
    {
      RectJobsStep(rects, def, i);
      err := PlaceStep(layer, ph, m, template.translate, RectJobs(rects[..i], def), RectJobFor(rects[i], def), old(layer.groups));
      if err.Some? {
        RectJobsOfPrefix(rects, def, i + 1);
        return;
      }
      i := i + 1;
    }
    assert rects[..i] == rects;
    return None;
  }

  /** The text loop: each template text with a legend, relabelled, measured against the outline and appended. */
  method PlaceTexts(layer: Layer, template: Template, def: KeyDefinition, ph: Placeholder, m: Matrix)
      returns (err: Option<PathError>)
    requires Invertible(m)
    modifies layer
    ensures var expected := Placed(template.translate, ph, m, TextJobs(template.texts, def));
            if expected.Success? then err.None? && layer.groups == old(layer.groups) + expected.value
            else err == Some(expected.error) && layer.groups == old(layer.groups)
  {
    ghost var measured := Measure(ph.outline, ph.strokeWidth);
    var texts := template.texts;
    var j := 0;
    while j < |texts|
      invariant j <= |texts|
      invariant measured.Failure? ==> TextJobs(texts[..j], def) == [] && layer.groups == old(layer.groups)
      invariant measured.Success? ==>
                  layer.groups == old(layer.groups) + PlaceAll(ph.id, m, template.translate, measured.value, TextJobs(texts[..j], def))
    {
      TextJobsStep(texts, def, j);
      err := PlaceStep(layer, ph, m, template.translate, TextJobs(texts[..j], def), TextJobFor(texts[j], def), old(layer.groups));
      if err.Some? {
        TextJobsOfPrefix(texts, def, j + 1);
        return;
      }
      j := j + 1;
    }
    assert texts[..j] == texts;
    return None;
  }

  /**
   * One iteration of either inner loop: the template element's job, if
   * any, is placed against the outline measured afresh, as each `add_rect`
   * and `add_text` does. The layer goes on from `base` followed by the
   * groups of the jobs `done` so far.
   */
  method PlaceStep(layer: Layer, ph: Placeholder, m: Matrix, translate: (real, real),
                   ghost done: seq<Job>, step: seq<Job>, ghost base: seq<Group>)
      returns (err: Option<PathError>)
    requires Invertible(m) && |step| <= 1
    requires var measured := Measure(ph.outline, ph.strokeWidth);
             (measured.Failure? ==> done == [] && layer.groups == base)
             && (measured.Success? ==> layer.groups == base + PlaceAll(ph.id, m, translate, measured.value, done))
    modifies layer
    ensures var measured := Measure(ph.outline, ph.strokeWidth);
            if err.Some? then step != [] && measured.Failure? && err.value == measured.error && layer.groups == base
            else (measured.Failure? ==> done + step == [] && layer.groups == base)
                 && (measured.Success? ==> layer.groups == base + PlaceAll(ph.id, m, translate, measured.value, done + step))
  {
    err := None;
    if step != [] {
      var outline := MeasurePath(ph.outline, ph.strokeWidth);
      if outline.Failure? {
        return Some(outline.error);
      }
      ghost var before := layer.groups;
      AppendJob(layer, ph, m, translate, outline.value, step[0]);
      PlaceAllAppend(ph.id, m, translate, outline.value, done, step[0]);
      assert step == [step[0]];
      assert layer.groups == before + [Group(ph.id, m, PlaceJob(m, translate, outline.value, step[0]))];
    } else {
      assert done + step == done;
    }
  }

  /** `add_rect` or `add_text` followed by `cobra.append` for one job. */
  method AppendJob(layer: Layer, ph: Placeholder, m: Matrix, translate: (real, real), outline: Dimensions, job: Job)
    requires Invertible(m)
    modifies layer
    ensures layer.groups == old(layer.groups) + [Group(ph.id, m, PlaceJob(m, translate, outline, job))]
  {
    match job
    case RectJob(_, rect, stretched) =>
      layer.Append(Group(ph.id, m, RectOverlay(PlaceRect(m, translate, outline, rect, stretched))));
    case TextJob(_, text, centred) =>
      layer.Append(Group(ph.id, m, TextOverlay(PlaceText(m, translate, outline, text, centred))));
  }

  /** One more template rectangle adds its own job, if any, at the end. */
  lemma RectJobsStep(rects: seq<(string, Rect)>, def: KeyDefinition, i: nat)
    requires i < |rects|
    ensures RectJobs(rects[..i + 1], def) == RectJobs(rects[..i], def) + RectJobFor(rects[i], def)
  {
    assert rects[..i + 1][..i] == rects[..i];
  }

  /** One more template text adds its own job, if any, at the end. */
  lemma TextJobsStep(texts: seq<(string, Text)>, def: KeyDefinition, j: nat)
    requires j < |texts|
    ensures TextJobs(texts[..j + 1], def) == TextJobs(texts[..j], def) + TextJobFor(texts[j], def)
  {
    assert texts[..j + 1][..j] == texts[..j];
  }

  /** Placing one more job appends exactly its group. */
  lemma PlaceAllAppend(id: string, m: Matrix, translate: (real, real), outline: Dimensions, jobs: seq<Job>, job: Job)
    requires Invertible(m)
    ensures PlaceAll(id, m, translate, outline, jobs + [job])
            == PlaceAll(id, m, translate, outline, jobs) + [Group(id, m, PlaceJob(m, translate, outline, job))]
  {
  }

  /** Placing two lists of jobs one after the other places their concatenation. */
  lemma PlaceAllConcat(id: string, m: Matrix, translate: (real, real), outline: Dimensions, a: seq<Job>, b: seq<Job>)
    requires Invertible(m)
    ensures PlaceAll(id, m, translate, outline, a + b)
            == PlaceAll(id, m, translate, outline, a) + PlaceAll(id, m, translate, outline, b)
  {
  }

  /**
   * The rectangles and then the texts of a key, placed in two loops, give
   * what placing all its jobs at once gives, error included.
   */
  lemma PlacedConcat(translate: (real, real), ph: Placeholder, m: Matrix, a: seq<Job>, b: seq<Job>)
    requires Invertible(m)
    ensures Placed(translate, ph, m, a).Failure? ==> Placed(translate, ph, m, a + b) == Placed(translate, ph, m, a)
    ensures Placed(translate, ph, m, a).Success? && Placed(translate, ph, m, b).Failure? ==>
              Placed(translate, ph, m, a + b) == Placed(translate, ph, m, b)
    ensures Placed(translate, ph, m, a).Success? && Placed(translate, ph, m, b).Success? ==>
              Placed(translate, ph, m, a + b) == Success(Placed(translate, ph, m, a).value + Placed(translate, ph, m, b).value)
  {
    if a == [] {
      assert a + b == b;
      var rb := Placed(translate, ph, m, b);
      if rb.Success? {
        assert [] + rb.value == rb.value;
      }
    } else if b == [] {
      assert a + b == a;
      var ra := Placed(translate, ph, m, a);
      if ra.Success? {
        assert ra.value + [] == ra.value;
      }
    } else if Measure(ph.outline, ph.strokeWidth).Success? {
      PlaceAllConcat(ph.id, m, translate, Measure(ph.outline, ph.strokeWidth).value, a, b);
    }
  }

  /** Running one placement after another: the first error stops, otherwise the groups are joined. */
  function Then(first: Result<seq<Group>, PathError>, second: Result<seq<Group>, PathError>): Result<seq<Group>, PathError> {
    if first.Failure? then first
    else if second.Failure? then second
    else Success(first.value + second.value)
  }

  /** A key's placement is its rectangle loop followed by its text loop. */
  lemma KeyPlacementSplits(template: Template, def: KeyDefinition, ph: Placeholder, m: Matrix)
    requires Invertible(m)
    ensures KeyPlacement(template, def, ph, m)
            == Then(Placed(template.translate, ph, m, RectJobs(template.rects, def)),
                    Placed(template.translate, ph, m, TextJobs(template.texts, def)))
  {
    PlacedConcat(template.translate, ph, m, RectJobs(template.rects, def), TextJobs(template.texts, def));
  }

  // ---------------------------------------------------------------------------
  // All placeholders
  // ---------------------------------------------------------------------------

  /**
   * One placeholder of the outer loop of `main`: after an error nothing
   * more happens; a placeholder without a definition is skipped; otherwise
   * its groups are appended, or its outline's error stops the run.
   */
  function CompositeNext(soFar: (seq<Group>, Option<PathError>), template: Template, keys: map<string, KeyDefinition>,
                         ph: Placeholder, m: Matrix): (r: (seq<Group>, Option<PathError>))
    requires Invertible(m)
    ensures soFar.0 <= r.0
    ensures soFar.1.Some? || ph.id !in keys ==> r == soFar
  {
    var (placed, err) := soFar;
    if err.Some? || ph.id !in keys then soFar
    else match KeyPlacement(template, keys[ph.id], ph, m)
      case Success(groups) => (placed + groups, None)
      case Failure(e) => (placed, Some(e))
  }

  /**
   * The outer loop of `main` over the key frames: the groups appended and
   * the error that stopped the run, if any.
   */
  function CompositeAll(template: Template, keys: map<string, KeyDefinition>, phs: seq<Placeholder>, m: Matrix)
    : (seq<Group>, Option<PathError>)
    requires Invertible(m)
  {
    if |phs| == 0 then ([], None)
    else CompositeNext(CompositeAll(template, keys, phs[..|phs| - 1], m), template, keys, phs[|phs| - 1], m)
  }

  /** `main`'s loop over the placeholders, appending to the Cobra layer. */
  method Composite(layer: Layer, template: Template, keys: map<string, KeyDefinition>, phs: seq<Placeholder>, m: Matrix)
      returns (err: Option<PathError>)
    requires Invertible(m)
    modifies layer
    ensures err == CompositeAll(template, keys, phs, m).1
    ensures layer.groups == old(layer.groups) + CompositeAll(template, keys, phs, m).0
  {
    var i := 0;
    while i < |phs|
      invariant i <= |phs|
      invariant CompositeAll(template, keys, phs[..i], m).1.None?
      invariant layer.groups == old(layer.groups) + CompositeAll(template, keys, phs[..i], m).0
    {
      CompositeStep(template, keys, phs, m, i);
      err := PlaceNext(layer, template, keys, phs[i], m, CompositeAll(template, keys, phs[..i], m), old(layer.groups));
      if err.Some? {
        CompositeStops(template, keys, phs, m, i + 1);
        return;
      }
      i := i + 1;
    }
    assert phs[..i] == phs;
    return None;
  }

  /**
   * The body of `main`'s loop for one placeholder: a defined one has its
   * key placed, any other is skipped. The layer goes on from `base`
   * followed by the groups so far.
   */
  method PlaceNext(layer: Layer, template: Template, keys: map<string, KeyDefinition>, ph: Placeholder, m: Matrix,
                   ghost soFar: (seq<Group>, Option<PathError>), ghost base: seq<Group>)
      returns (err: Option<PathError>)
    requires Invertible(m) && soFar.1.None? && layer.groups == base + soFar.0
    modifies layer
    ensures var next := CompositeNext(soFar, template, keys, ph, m);
            err == next.1 && layer.groups == base + next.0
  {
    if ph.id in keys {
      CompositeNextOfKey(soFar, template, keys, ph, m);
      err := PlaceKey(layer, template, keys[ph.id], ph, m);
      if err.None? {
        assert layer.groups == base + (soFar.0 + KeyPlacement(template, keys[ph.id], ph, m).value);
      }
    } else {
      err := None;
    }
  }

  /** A defined placeholder, reached without an earlier error, adds its groups or stops the run with its error. */
  lemma CompositeNextOfKey(soFar: (seq<Group>, Option<PathError>), template: Template,
                           keys: map<string, KeyDefinition>, ph: Placeholder, m: Matrix)
    requires Invertible(m) && soFar.1.None? && ph.id in keys
    ensures var placed := KeyPlacement(template, keys[ph.id], ph, m);
            CompositeNext(soFar, template, keys, ph, m)
            == if placed.Success? then (soFar.0 + placed.value, None) else (soFar.0, Some(placed.error))
  {
  }

  /** The loop's prefix grows by one placeholder at a time. */
  lemma CompositeStep(template: Template, keys: map<string, KeyDefinition>, phs: seq<Placeholder>, m: Matrix, i: nat)
    requires Invertible(m) && i < |phs|
    ensures CompositeAll(template, keys, phs[..i + 1], m)
            == CompositeNext(CompositeAll(template, keys, phs[..i], m), template, keys, phs[i], m)
  {
    assert phs[..i + 1][..i] == phs[..i];
  }

  // ---------------------------------------------------------------------------
  // Properties
  // ---------------------------------------------------------------------------

  /**
   * The rectangles placed are exactly the template rectangles the
   * definition lists, and only the background is stretched.
   */
  lemma {:induction false} RectJobsSelect(rects: seq<(string, Rect)>, def: KeyDefinition)
    ensures forall j :: j in RectJobs(rects, def) ==>
              j.RectJob? && WantsRect(def, j.name) && (j.stretched <==> j.name == "background")
    ensures forall k :: 0 <= k < |rects| && WantsRect(def, rects[k].0) ==>
              RectJob(rects[k].0, rects[k].1, rects[k].0 == "background") in RectJobs(rects, def)
    decreases |rects|
  {
    if |rects| > 0 {
      var init := rects[..|rects| - 1];
      RectJobsSelect(init, def);
      assert forall k :: 0 <= k < |rects| - 1 ==> init[k] == rects[k];
    }
  }

  /**
   * The texts placed are exactly the template texts the definition gives a
   * legend for, each relabelled with it and centred by its label.
   */
  lemma {:induction false} TextJobsSelect(texts: seq<(string, Text)>, def: KeyDefinition)
    ensures forall j :: j in TextJobs(texts, def) ==>
              j.TextJob? && j.name in def.texts && (j.centred <==> IsCentred(j.name))
    ensures forall k :: 0 <= k < |texts| && texts[k].0 in def.texts ==>
              TextJob(texts[k].0, WithLegend(texts[k].1, def.texts[texts[k].0]), IsCentred(texts[k].0))
                in TextJobs(texts, def)
    decreases |texts|
  {
    if |texts| > 0 {
      var init := texts[..|texts| - 1];
      TextJobsSelect(init, def);
      assert forall k :: 0 <= k < |texts| - 1 ==> init[k] == texts[k];
    }
  }

  /**
   * What a key's groups are: group i places job i against the measured
   * outline, under the placeholder's id and the frames' matrix.
   */
  lemma PlacedGroups(translate: (real, real), ph: Placeholder, m: Matrix, jobs: seq<Job>)
    requires Invertible(m) && Placed(translate, ph, m, jobs).Success? && jobs != []
    ensures Measure(ph.outline, ph.strokeWidth).Success?
    ensures var outline := Measure(ph.outline, ph.strokeWidth).value;
            forall i :: 0 <= i < |jobs| ==>
              Placed(translate, ph, m, jobs).value[i] == Group(ph.id, m, PlaceJob(m, translate, outline, jobs[i]))
  {
  }

  /** Every group placed for a key carries the placeholder's id and the frames' matrix. */
  lemma PlaceAllKeepsId(id: string, m: Matrix, translate: (real, real), outline: Dimensions, jobs: seq<Job>)
    requires Invertible(m)
    ensures forall g :: g in PlaceAll(id, m, translate, outline, jobs) ==> g.id == id && g.transform == m
  {
  }

  /** The jobs of the first `i` rectangles come first, in the same order. */
  lemma {:induction false} RectJobsOfPrefix(rects: seq<(string, Rect)>, def: KeyDefinition, i: nat)
    requires i <= |rects|
    ensures RectJobs(rects[..i], def) <= RectJobs(rects, def)
    decreases |rects|
  {
    if i < |rects| {
      assert rects[..|rects| - 1][..i] == rects[..i];
      RectJobsOfPrefix(rects[..|rects| - 1], def, i);
    } else {
      assert rects[..i] == rects;
    }
  }

  /** The jobs of the first `j` texts come first, in the same order. */
  lemma {:induction false} TextJobsOfPrefix(texts: seq<(string, Text)>, def: KeyDefinition, j: nat)
    requires j <= |texts|
    ensures TextJobs(texts[..j], def) <= TextJobs(texts, def)
    decreases |texts|
  {
    if j < |texts| {
      assert texts[..|texts| - 1][..j] == texts[..j];
      TextJobsOfPrefix(texts[..|texts| - 1], def, j);
    } else {
      assert texts[..j] == texts;
    }
  }

  /** Once a key fails, no later placeholder changes the outcome. */
  lemma {:induction false} CompositeStops(template: Template, keys: map<string, KeyDefinition>, phs: seq<Placeholder>,
                                          m: Matrix, i: nat)
    requires Invertible(m) && i <= |phs|
    requires CompositeAll(template, keys, phs[..i], m).1.Some?
    ensures CompositeAll(template, keys, phs, m) == CompositeAll(template, keys, phs[..i], m)
    decreases |phs|
  {
    if i < |phs| {
      assert phs[..|phs| - 1][..i] == phs[..i];
      CompositeStops(template, keys, phs[..|phs| - 1], m, i);
    } else {
      assert phs[..i] == phs;
    }
  }

  /** Every group appended carries the id of a placeholder that has a definition, and the frames' matrix. */
  lemma {:induction false} CompositeKeepsIds(template: Template, keys: map<string, KeyDefinition>, phs: seq<Placeholder>,
                                             m: Matrix)
    requires Invertible(m)
    ensures forall g :: g in CompositeAll(template, keys, phs, m).0 ==>
              g.id in keys && g.transform == m && exists i :: 0 <= i < |phs| && phs[i].id == g.id
    decreases |phs|
  {
    if |phs| > 0 {
      var init := phs[..|phs| - 1];
      var ph := phs[|phs| - 1];
      CompositeKeepsIds(template, keys, init, m);
      var prior := CompositeAll(template, keys, init, m);
      if prior.1.None? && ph.id in keys {
        var jobs := Jobs(template, keys[ph.id]);
        if jobs != [] && Measure(ph.outline, ph.strokeWidth).Success? {
          PlaceAllKeepsId(ph.id, m, template.translate, Measure(ph.outline, ph.strokeWidth).value, jobs);
        }
      }
      forall g | g in CompositeAll(template, keys, phs, m).0
        ensures exists i :: 0 <= i < |phs| && phs[i].id == g.id
      {
        if g in prior.0 {
          var i :| 0 <= i < |init| && init[i].id == g.id;
          assert phs[i] == init[i];
        } else {
          assert phs[|phs| - 1].id == g.id;
        }
      }
    }
  }

  /** A key built with `background=False` asks for no rectangle of any template. */
  lemma {:induction false} NoBackgroundPlacesNoRects(rects: seq<(string, Rect)>, def: KeyDefinition)
    requires def.rects.None?
    ensures RectJobs(rects, def) == []
    decreases |rects|
  {
    if |rects| > 0 {
      NoBackgroundPlacesNoRects(rects[..|rects| - 1], def);
    }
  }

  /** Every legend of a special key or of the space bar is centred. */
  lemma SpecialLegendsAreCentred(lines: seq<Legend>, background: bool)
    requires |lines| >= 1
    ensures forall name :: name in MakeSpecial(lines, background).texts ==> IsCentred(name)
    ensures forall name :: name in MakeSpace().texts ==> IsCentred(name)
  {
  }

  /** The labels of number, letter and arrow legends. */
  const UncentredLabels: set<string> :=
    {"number 012", "number 34579", "number", "top", "bottom", "number symbol", "letter", "letter secondary",
     "letter symbol", "letter tertiary", "arrow vertical", "arrow horizontal"}

  /** A centred label starts with 's' or is "break"; none of the number, letter or arrow labels does. */
  lemma UncentredLabelsAreNotCentred()
    ensures forall name :: name in UncentredLabels ==> !IsCentred(name)
  {
    forall name | name in UncentredLabels
      ensures !IsCentred(name)
    {
      assert |name| > 0 && name[0] != 's' && name != "break";
    }
  }

  /** No legend of a number key is centred. */
  lemma NumberLegendsAreNotCentred(number: Option<string>, top: Option<Legend>, bottom: Option<Legend>,
                                   symbol: Option<Legend>, grid: string, topBackground: bool)
    requires |grid| >= 5
    ensures forall name :: name in MakeNumber(number, top, bottom, symbol, grid, topBackground).texts ==> !IsCentred(name)
  {
    UncentredLabelsAreNotCentred();
    assert MakeNumber(number, top, bottom, symbol, grid, topBackground).texts.Keys <= UncentredLabels;
  }

  /** No legend of a letter key is centred. */
  lemma LetterLegendsAreNotCentred(letter: Option<Legend>, top: Option<Legend>, bottom: Option<Legend>,
                                   secondary: Option<Legend>, fifth: Option<Legend>)
    ensures forall name :: name in MakeLetterSymbol(letter, top, bottom, secondary, fifth).texts ==> !IsCentred(name)
    ensures forall name :: name in MakeLetterWord(letter, top, bottom, secondary, fifth).texts ==> !IsCentred(name)
  {
    UncentredLabelsAreNotCentred();
    assert MakeLetterSymbol(letter, top, bottom, secondary, fifth).texts.Keys <= UncentredLabels;
    assert MakeLetterWord(letter, top, bottom, secondary, fifth).texts.Keys <= UncentredLabels;
  }

  /** No arrow glyph is centred. */
  lemma ArrowLegendsAreNotCentred(lines: seq<Legend>, background: bool)
    requires |lines| >= 1
    ensures forall name :: name in MakeArrowVertical(lines, background).texts ==> !IsCentred(name)
    ensures forall name :: name in MakeArrowHorizontal(lines, background).texts ==> !IsCentred(name)
  {
    UncentredLabelsAreNotCentred();
  }

  /** A placeholder without a definition adds nothing and cannot fail. */
  lemma UndefinedPlaceholderIsSkipped(template: Template, keys: map<string, KeyDefinition>, phs: seq<Placeholder>,
                                      ph: Placeholder, m: Matrix)
    requires Invertible(m) && ph.id !in keys
    ensures CompositeAll(template, keys, phs + [ph], m) == CompositeAll(template, keys, phs, m)
  {
    assert (phs + [ph])[..|phs|] == phs;
  }
}
