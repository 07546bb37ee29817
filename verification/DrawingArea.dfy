/** Fitting a sheet's content between the frame and the title block. */
module DrawingArea {
  import opened Lists

  /** Sheet millimetres, in exact reals. */
  datatype Rect = Rect(x0: real, y0: real, x1: real, y1: real) {
    predicate Proper() { x0 <= x1 && y0 <= y1 }
  }

  /** What the guard sees of a drawing entity: its layer and, unless it has none, its bounding box. */
  datatype Entity = Entity(layer: string, box: Option<Rect>)

  const FRAME_LAYERS: set<string> := {"FRAME", "TITLE_BLOCK"}
  const SHEET_W := 420.0
  const SHEET_H := 297.0
  const FRAME_INSET := 5.0
  const TITLE_W := 200.0
  const TITLE_H := 50.0
  const MARGIN := 2.0
  const TOLERANCE := 0.000001

  const FRAME_INNER := Rect(FRAME_INSET + MARGIN, FRAME_INSET + MARGIN, SHEET_W - FRAME_INSET - MARGIN, SHEET_H - FRAME_INSET - MARGIN)
  const TITLE_KEEPOUT := Rect(SHEET_W - FRAME_INSET - TITLE_W - MARGIN, FRAME_INSET, SHEET_W - FRAME_INSET, FRAME_INSET + TITLE_H + MARGIN)
  const FIT_AREA := Rect(FRAME_INNER.x0, TITLE_KEEPOUT.y1 + MARGIN, FRAME_INNER.x1, FRAME_INNER.y1)

  predicate IsContent(e: Entity) { e.layer !in FRAME_LAYERS }

  predicate Inside(r: Rect, outer: Rect) {
    && r.x0 >= outer.x0 - TOLERANCE && r.y0 >= outer.y0 - TOLERANCE
    && r.x1 <= outer.x1 + TOLERANCE && r.y1 <= outer.y1 + TOLERANCE
  }

  predicate Overlaps(a: Rect, b: Rect) { a.x0 < b.x1 && b.x0 < a.x1 && a.y0 < b.y1 && b.y0 < a.y1 }

  function Shifted(r: Rect, dx: real): Rect { Rect(r.x0 - dx, r.y0, r.x1 - dx, r.y1) }

  predicate Escapes(e: Entity, dx: real) {
    IsContent(e) && e.box.Some?
    && (!Inside(Shifted(e.box.value, dx), FRAME_INNER) || Overlaps(Shifted(e.box.value, dx), TITLE_KEEPOUT))
  }

  function EscapesAt(dx: real): Entity -> bool { (e: Entity) => Escapes(e, dx) }

  /** violations */
  method Violations(entities: seq<Entity>, dx: real) returns (found: seq<Entity>)
    ensures found == Filter(EscapesAt(dx), entities)
  {
    found := [];
    for i := 0 to |entities|
      invariant found == Filter(EscapesAt(dx), entities[..i])
    {
      assert entities[..i + 1][..i] == entities[..i];
      if Escapes(entities[i], dx) {
        found := found + [entities[i]];
      }
    }
    assert entities[..|entities|] == entities;
  }

  // ----- fitting -----

  function Min(a: real, b: real): real { if b < a then b else a }

  function Max(a: real, b: real): real { if a < b then b else a }

  predicate Measured(e: Entity) { IsContent(e) && e.box.Some? }

  /** Bounding box of all content. */
  function Extents(entities: seq<Entity>): Option<Rect> {
    if entities == [] then None
    else
      var init, e := Extents(entities[..|entities| - 1]), entities[|entities| - 1];
      if !Measured(e) then init
      else if init.None? then e.box
      else
        var (a, b) := (init.value, e.box.value);
        Some(Rect(Min(a.x0, b.x0), Min(a.y0, b.y0), Max(a.x1, b.x1), Max(a.y1, b.y1)))
  }

  ghost predicate Proper(entities: seq<Entity>) {
    forall i :: 0 <= i < |entities| && entities[i].box.Some? ==> entities[i].box.value.Proper()
  }

  predicate Within(r: Rect, outer: Rect) { outer.x0 <= r.x0 && outer.y0 <= r.y0 && r.x1 <= outer.x1 && r.y1 <= outer.y1 }

  lemma {:induction false} ExtentsCover(entities: seq<Entity>, i: nat)
    requires Proper(entities) && i < |entities| && Measured(entities[i])
    ensures Extents(entities).Some? && Extents(entities).value.Proper() && Within(entities[i].box.value, Extents(entities).value)
  {
    var last := |entities| - 1;
    var init := entities[..last];
    if i < last {
      ExtentsCover(init, i);
    } else if Extents(init).Some? {
      ExtentsProper(init);
    }
  }

  lemma {:induction false} ExtentsProper(entities: seq<Entity>)
    requires Proper(entities) && Extents(entities).Some?
    ensures Extents(entities).value.Proper()
  {
    var init := entities[..|entities| - 1];
    if Extents(init).Some? {
      ExtentsProper(init);
    }
  }

  /** A dimension with no extent puts no limit on the scale. */
  function Limit(room: real, extent: real): real { if extent > 0.0 then room / extent else 1.0 }

  function ScaleFor(x: Rect): real {
    Min(1.0, Min(Limit(FIT_AREA.x1 - FIT_AREA.x0, x.x1 - x.x0), Limit(FIT_AREA.y1 - FIT_AREA.y0, x.y1 - x.y0)))
  }

  /** Scale about the content's top-left corner, which lands on the fit area's. */
  function Affine(a: real, origin: real, scale: real, to: real): real { (a - origin) * scale + to }

  function MoveX(x: real, from: Rect, scale: real): real { Affine(x, from.x0, scale, FIT_AREA.x0) }

  function MoveY(y: real, from: Rect, scale: real): real { Affine(y, from.y1, scale, FIT_AREA.y1) }

  function Moved(r: Rect, from: Rect, scale: real): Rect {
    Rect(MoveX(r.x0, from, scale), MoveY(r.y0, from, scale), MoveX(r.x1, from, scale), MoveY(r.y1, from, scale))
  }

  /** Frame and title block stay where they are. */
  function Fitted(e: Entity, from: Rect, scale: real): Entity {
    if Measured(e) then e.(box := Some(Moved(e.box.value, from, scale))) else e
  }

  function AllFitted(entities: seq<Entity>, from: Rect, scale: real): seq<Entity> {
    Map((e: Entity) => Fitted(e, from, scale), entities)
  }

  lemma Monotone(a: real, b: real, c: real)
    requires a <= b && c >= 0.0
    ensures a * c <= b * c
  {
  }

  lemma LimitFits(room: real, extent: real, scale: real)
    requires room > 0.0 && extent >= 0.0 && 0.0 < scale <= 1.0 && scale <= Limit(room, extent)
    ensures extent * scale <= room
  {
    if extent > 0.0 {
      Monotone(scale, room / extent, extent);
      assert room / extent * extent == room;
    }
  }

  lemma LimitPositive(room: real, extent: real)
    requires room > 0.0
    ensures Limit(room, extent) > 0.0
  {
  }

  /** One scale, never up. */
  lemma ScaleInRange(x: Rect)
    requires x.Proper()
    ensures FitsAt(x, ScaleFor(x))
  {
    LimitPositive(FIT_AREA.x1 - FIT_AREA.x0, x.x1 - x.x0);
    LimitPositive(FIT_AREA.y1 - FIT_AREA.y0, x.y1 - x.y0);
    LimitFits(FIT_AREA.x1 - FIT_AREA.x0, x.x1 - x.x0, ScaleFor(x));
    LimitFits(FIT_AREA.y1 - FIT_AREA.y0, x.y1 - x.y0, ScaleFor(x));
  }

  lemma LimitIsLargest(room: real, extent: real, scale: real)
    requires scale <= 1.0 && extent * scale <= room
    ensures scale <= Limit(room, extent)
  {
    if extent > 0.0 && scale > room / extent {
      StrictlyMonotone(room / extent, scale, extent);
      assert room / extent * extent == room;
    }
  }

  lemma StrictlyMonotone(a: real, b: real, c: real)
    requires a < b && c > 0.0
    ensures a * c < b * c
  {
  }

  /** The scale used is the largest one, up to full size, at which the content fits the area. */
  ghost predicate LargestFit(from: Rect, scale: real) {
    FitsAt(from, scale) && forall s :: FitsAt(from, s) ==> s <= scale
  }

  lemma ScaleIsLargest(x: Rect)
    requires x.Proper()
    ensures LargestFit(x, ScaleFor(x))
  {
    ScaleInRange(x);
    forall s | FitsAt(x, s) ensures s <= ScaleFor(x) {
      LimitIsLargest(FIT_AREA.x1 - FIT_AREA.x0, x.x1 - x.x0, s);
      LimitIsLargest(FIT_AREA.y1 - FIT_AREA.y0, x.y1 - x.y0, s);
    }
  }

  /** The extents are the smallest box around the content. */
  lemma {:induction false} ExtentsSmallest(entities: seq<Entity>, r: Rect)
    requires Extents(entities).Some?
    requires forall i :: 0 <= i < |entities| && Measured(entities[i]) ==> Within(entities[i].box.value, r)
    ensures Within(Extents(entities).value, r)
  {
    var init := entities[..|entities| - 1];
    if Extents(init).Some? {
      ExtentsSmallest(init, r);
    }
  }

  /** One axis, anchored at its low end. */
  lemma LandsFromLow(a: real, b: real, lo: real, hi: real, s: real, to: real, end: real)
    requires lo <= a <= b <= hi && s > 0.0 && (hi - lo) * s <= end - to
    ensures to <= Affine(a, lo, s, to) <= Affine(b, lo, s, to) <= end
  {
    Monotone(0.0, a - lo, s);
    Monotone(a - lo, b - lo, s);
    Monotone(b - lo, hi - lo, s);
  }

  /** One axis, anchored at its high end. */
  lemma LandsFromHigh(a: real, b: real, lo: real, hi: real, s: real, to: real, end: real)
    requires lo <= a <= b <= hi && s > 0.0 && (hi - lo) * s <= end - to
    ensures to <= Affine(a, hi, s, end) <= Affine(b, hi, s, end) <= end
  {
    Monotone(b - hi, 0.0, s);
    Monotone(a - hi, b - hi, s);
    Monotone(lo - hi, a - hi, s);
    assert (lo - hi) * s == -((hi - lo) * s);
  }

  ghost predicate FitsAt(from: Rect, s: real) {
    && 0.0 < s <= 1.0
    && (from.x1 - from.x0) * s <= FIT_AREA.x1 - FIT_AREA.x0 && (from.y1 - from.y0) * s <= FIT_AREA.y1 - FIT_AREA.y0
  }

  lemma LandsInFitArea(r: Rect, from: Rect, s: real)
    requires r.Proper() && Within(r, from) && FitsAt(from, s)
    ensures Within(Moved(r, from, s), FIT_AREA) && Moved(r, from, s).Proper()
  {
    LandsFromLow(r.x0, r.x1, from.x0, from.x1, s, FIT_AREA.x0, FIT_AREA.x1);
    LandsFromHigh(r.y0, r.y1, from.y0, from.y1, s, FIT_AREA.y0, FIT_AREA.y1);
  }

  /** After fitting nothing escapes: the guard's own failure branch cannot be taken. */
  lemma {:induction false} FittingAlwaysSucceeds(entities: seq<Entity>)
    requires Proper(entities) && Extents(entities).Some?
    ensures var from := Extents(entities).value;
            Filter(EscapesAt(0.0), AllFitted(entities, from, ScaleFor(from))) == []
  {
    var from := Extents(entities).value;
    var after := AllFitted(entities, from, ScaleFor(from));
    forall i | 0 <= i < |after| ensures !Escapes(after[i], 0.0) {
      if Measured(entities[i]) {
        ExtentsCover(entities, i);
        ScaleInRange(from);
        LandsInFitArea(entities[i].box.value, from, ScaleFor(from));
        var r := Moved(entities[i].box.value, from, ScaleFor(from));
        assert Shifted(r, 0.0) == r;
      }
    }
    FilterNone(EscapesAt(0.0), after);
  }

  lemma {:induction false} EscapeIsMeasured(entities: seq<Entity>)
    requires Filter(EscapesAt(0.0), entities) != [] && Proper(entities)
    ensures Extents(entities).Some?
  {
    var e := Filter(EscapesAt(0.0), entities)[0];
    FilterMember(EscapesAt(0.0), entities, e);
    var i :| 0 <= i < |entities| && entities[i] == e;
    ExtentsCover(entities, i);
  }

  /** Frame entities keep their place; content keeps its order and its shape up to one scale. */
  ghost predicate OneScale(before: seq<Entity>, after: seq<Entity>, scale: real) {
    && 0.0 < scale <= 1.0 && |after| == |before|
    && forall i :: 0 <= i < |before| ==>
         && after[i].layer == before[i].layer && (after[i].box.Some? <==> before[i].box.Some?)
         && (!Measured(before[i]) ==> after[i] == before[i])
         && (Measured(before[i]) ==>
               && after[i].box.value.x1 - after[i].box.value.x0 == (before[i].box.value.x1 - before[i].box.value.x0) * scale
               && after[i].box.value.y1 - after[i].box.value.y0 == (before[i].box.value.y1 - before[i].box.value.y0) * scale)
  }

  lemma SidesScale(a: real, b: real, origin: real, scale: real, to: real)
    ensures Affine(b, origin, scale, to) - Affine(a, origin, scale, to) == (b - a) * scale
  {
  }

  lemma FittedToScale(entities: seq<Entity>, from: Rect)
    requires from.Proper()
    ensures OneScale(entities, AllFitted(entities, from, ScaleFor(from)), ScaleFor(from))
  {
    var s := ScaleFor(from);
    ScaleInRange(from);
    forall i | 0 <= i < |entities| && Measured(entities[i])
      ensures var r, m := entities[i].box.value, Moved(entities[i].box.value, from, s);
              m.x1 - m.x0 == (r.x1 - r.x0) * s && m.y1 - m.y0 == (r.y1 - r.y0) * s
    {
      var r := entities[i].box.value;
      SidesScale(r.x0, r.x1, from.x0, s, FIT_AREA.x0);
      SidesScale(r.y0, r.y1, from.y1, s, FIT_AREA.y1);
    }
  }

  /** What the guard leaves: the sheet as it was when nothing escaped, else everything fitted at one scale. */
  function Bound(entities: seq<Entity>): seq<Entity> {
    if Filter(EscapesAt(0.0), entities) == [] || Extents(entities).None? then entities
    else AllFitted(entities, Extents(entities).value, ScaleFor(Extents(entities).value))
  }

  /** bind_to_drawing_area: `failed` is the ValueError its last check raises. */
  method BindToDrawingArea(sheet: array<Entity>) returns (failed: bool)
    requires Proper(sheet[..])
    modifies sheet
    ensures !failed && sheet[..] == Bound(old(sheet[..]))
    ensures Filter(EscapesAt(0.0), sheet[..]) == []
    ensures || sheet[..] == old(sheet[..])
            || exists scale :: LargestFit(Extents(old(sheet[..])).value, scale) && OneScale(old(sheet[..]), sheet[..], scale)
  {
    var found := Violations(sheet[..], 0.0);
    if found == [] {
      return false;
    }
    ghost var before := sheet[..];
    EscapeIsMeasured(before);
    ExtentsProper(before);
    var from := Extents(sheet[..]).value;
    TransformAll(sheet, from, ScaleFor(from));
    FittingAlwaysSucceeds(before);
    FittedToScale(before, from);
    ScaleIsLargest(from);
    var left := Violations(sheet[..], 0.0);
    failed := left != [];
  }

  method TransformAll(sheet: array<Entity>, from: Rect, scale: real)
    modifies sheet
    ensures sheet[..] == AllFitted(old(sheet[..]), from, scale)
  {
    ghost var before := sheet[..];
    for i := 0 to sheet.Length
      invariant forall k :: 0 <= k < i ==> sheet[k] == Fitted(before[k], from, scale)
      invariant forall k :: i <= k < sheet.Length ==> sheet[k] == before[k]
    {
      sheet[i] := Fitted(sheet[i], from, scale);
    }
    assert sheet[..] == AllFitted(before, from, scale);
  }

  /** Binding twice is binding once. */
  lemma BindingIsIdempotent(entities: seq<Entity>)
    requires Proper(entities)
    ensures Bound(Bound(entities)) == Bound(entities) && Filter(EscapesAt(0.0), Bound(entities)) == []
  {
    if Filter(EscapesAt(0.0), entities) != [] {
      EscapeIsMeasured(entities);
      FittingAlwaysSucceeds(entities);
    }
  }
}
