/**
  * The home page's grid of project cards: the selection state machine (a
  * first click selects a card, a second click on it asks for its detail page,
  * a click outside every card clears the selection), the pointer tracking that
  * turns the cursor position into a tilt, the mobile switch, and the style of
  * each card computed from its index and that state.
  *
  * Geometry is real-valued. The style function takes `Math.sqrt` as a
  * parameter and relies only on its result being non-negative.
  */
module ProjectGrid {
  import opened Wrappers
  import opened Catalog
  import opened RealRatios

  /** A card's place in the 3D layout, in percent of the grid and pixels of depth. */
  datatype Slot = Slot(x: real, y: real, z: real)

  /** The slot table: two rows of four, and two spare slots. */
  function Card3DPositions(): (slots: seq<Slot>)
    ensures |slots| == 10
  {
    [ Slot(12.5, 25.0, 15.0), Slot(37.5, 25.0, 18.0), Slot(62.5, 25.0, 16.0), Slot(87.5, 25.0, 14.0),
      Slot(12.5, 70.0, 17.0), Slot(37.5, 70.0, 13.0), Slot(62.5, 70.0, 15.0), Slot(87.5, 70.0, 16.0),
      Slot(50.0, 95.0, 10.0), Slot(50.0, 95.0, 11.0) ]
  }

  /**
    * `globalTilt`: before the first pointer sample it has no `mouseX`
    * (`Unsampled`); afterwards it holds the normalised pointer position and the
    * base tilts.
    */
  datatype Tilt =
    | Unsampled
    | Sampled(mouseX: real, mouseY: real, baseTiltX: real, baseTiltY: real, isInside: bool)

  /** The state written when the pointer is outside the section: facing forward. */
  const Neutral: Tilt := Sampled(0.5, 0.5, 0.0, 0.0, false)

  /** The section's bounding rectangle in viewport coordinates. */
  datatype Rect = Rect(left: real, top: real, width: real, height: real)

  const MobileMaxWidth: int := 768
  const ProjectPhase: real := 1.0
  const AboutPhase: real := 0.0
  const SelectedZIndex: int := 9999

  /** Both style branches compute `pointerEvents` from the two phase constants. */
  const PointerEventsAll: bool := ProjectPhase > 0.3 && AboutPhase < 0.5

  /** `window.innerWidth <= 768`. */
  predicate IsMobileWidth(innerWidth: int)
  {
    innerWidth <= MobileMaxWidth
  }

  /** The pointer is inside the section; both bounds are inclusive. */
  predicate InsideSection(mouseX: real, mouseY: real, rect: Rect)
  {
    0.0 <= mouseX <= rect.width && 0.0 <= mouseY <= rect.height
  }

  /**
    * The tilt state `handleGlobalMouseMove` writes for a pointer at (clientX, clientY).
    * The sample is marked inside exactly when the pointer is inside the section;
    * there the normalised position is in [0, 1] and both tilts are in [-10, 10],
    * and outside the state is reset to neutral, whatever was sampled before.
    */
  function PointerTilt(clientX: real, clientY: real, rect: Rect): (t: Tilt)
    requires rect.width > 0.0 && rect.height > 0.0
    ensures t.Sampled?
    ensures t.isInside <==> InsideSection(clientX - rect.left, clientY - rect.top, rect)
    ensures !t.isInside ==> t == Neutral
    ensures t.isInside ==>
      0.0 <= t.mouseX <= 1.0 && 0.0 <= t.mouseY <= 1.0
      && -10.0 <= t.baseTiltX <= 10.0 && -10.0 <= t.baseTiltY <= 10.0
    ensures t.isInside ==>
      t.mouseX * rect.width == clientX - rect.left && t.mouseY * rect.height == clientY - rect.top
      && t.baseTiltX == (t.mouseY - 0.5) * -20.0 && t.baseTiltY == (t.mouseX - 0.5) * 20.0
  {
    var mouseX := clientX - rect.left;
    var mouseY := clientY - rect.top;
    if InsideSection(mouseX, mouseY, rect) then
      RatioBounds(mouseX, rect.width);
      RatioBounds(mouseY, rect.height);
      var nx := mouseX / rect.width;
      var ny := mouseY / rect.height;
      Sampled(nx, ny, (ny - 0.5) * -20.0, (nx - 0.5) * 20.0, true)
    else
      Neutral
  }

  /** The outcome of a click: the new selection and the route to navigate to, if any. */
  datatype ClickResult = ClickResult(selected: Option<string>, navigation: Option<string>)

  function DetailRoute(id: string): string
  {
    "/project/" + id
  }

  /**
    * `handleProjectClick`: a card click always leaves that card selected, and
    * requests its detail page exactly when it was already the selected one.
    */
  function CardClick(selected: Option<string>, projectId: string): (r: ClickResult)
    ensures r.selected == Some(projectId)
    ensures r.navigation.Some? <==> selected == Some(projectId)
    ensures r.navigation.Some? ==> r.navigation.value == DetailRoute(projectId)
  {
    if selected == Some(projectId) then ClickResult(selected, Some(DetailRoute(projectId)))
    else ClickResult(Some(projectId), None)
  }

  /** `selectedProject` is truthy: present and not the empty string. */
  predicate Truthy(selected: Option<string>)
  {
    selected.Some? && selected.value != ""
  }

  /**
    * `handleClickOutside`: the selection is kept or cleared, and it is cleared
    * exactly when it is truthy and the target lies outside every card.
    */
  function OutsideClick(selected: Option<string>, targetInsideCard: bool): (r: Option<string>)
    ensures r == selected || r.None?
    ensures r.None? <==> selected.None? || (Truthy(selected) && !targetInsideCard)
  {
    if Truthy(selected) && !targetInsideCard then None else selected
  }

  /** Where a click lands: on the card of a project, or outside every card. */
  datatype Target = OnCard(id: string) | OffCards

  /**
    * One click as the page handles it: a card's handler stops propagation, so
    * the document's handler only sees clicks outside the cards.
    */
  function Click(selected: Option<string>, target: Target): (r: ClickResult)
    ensures r.navigation.Some? <==> target.OnCard? && selected == Some(target.id)
    ensures target.OnCard? ==> r.selected == Some(target.id)
    ensures target.OnCard? && r.navigation.Some? ==> r.navigation.value == DetailRoute(target.id)
  {
    match target
    case OnCard(id) => CardClick(selected, id)
    case OffCards => ClickResult(OutsideClick(selected, false), None)
  }

  /** The style a card gets. */
  datatype CardStyle =
      /** Mobile layout, card not selected: stacked in the page flow. */
    | Stacked(opacity: real, pointerEventsAll: bool, zIndex: int)
      /** 3D layout: position, depth, scale, opacity, rotations in degrees, stacking order. */
    | Placed(x: real, y: real, z: real, scale: real, opacity: real,
             rotateX: real, rotateY: real, rotateZ: real, zIndex: int, pointerEventsAll: bool)

  /**
    * The distance factor for a card at `pos`: farther cards rotate more. With a
    * square root that is never negative, the factor is at least 1.
    */
  function Multiplier(tilt: Tilt, pos: Slot, sqrt: real -> real): (m: real)
    requires tilt.Sampled?
    ensures (forall d :: 0.0 <= d ==> 0.0 <= sqrt(d)) ==> m >= 1.0
  {
    var distX := tilt.mouseX - pos.x / 100.0;
    var distY := tilt.mouseY - pos.y / 100.0;
    var d := distX * distX + distY * distY;
    assert 0.0 <= d;
    1.0 + sqrt(d) * 1.5
  }

  /**
    * `getCardStyle(index)`. The result is `None` exactly where the source would
    * throw: a non-selected card in the 3D layout whose index has no slot. Every
    * style lets pointer events through, and a card that is not selected stacks
    * at 300 + 50 * index in both layouts.
    */
  function GetCardStyle(projects: seq<Project>, slots: seq<Slot>, index: nat, selected: Option<string>,
                        tilt: Tilt, isMobile: bool, sqrt: real -> real): (r: Option<CardStyle>)
    requires index < |projects|
    ensures r.None? <==> !isMobile && selected != Some(projects[index].id) && index >= |slots|
    ensures r.Some? ==> r.value.pointerEventsAll
    ensures r.Some? && selected != Some(projects[index].id) ==> r.value.zIndex == 300 + 50 * index
    ensures isMobile && selected != Some(projects[index].id) ==>
      r.Some? && r.value.Stacked? && r.value.opacity == 1.0
    ensures r.Some? && !isMobile && selected != Some(projects[index].id) ==>
      r.value.Placed? && r.value.x == slots[index].x && r.value.y == slots[index].y
      && r.value.z == slots[index].z && r.value.scale == 0.85 && r.value.opacity == 1.0
      && r.value.rotateZ == 0.0
  {
    var isSelected := selected == Some(projects[index].id);
    if isMobile && !isSelected then
      Some(Stacked(ProjectPhase, PointerEventsAll, 300 + index * 50))
    else if isSelected then
      Some(Placed(50.0, 50.0, 200.0, 1.0, 1.0, 0.0, 0.0, 0.0, SelectedZIndex, PointerEventsAll))
    else if index >= |slots| then
      None
    else
      var pos := slots[index];
      var rotateX := if tilt.Sampled? then tilt.baseTiltX * Multiplier(tilt, pos, sqrt) else 0.0;
      var rotateY := if tilt.Sampled? then tilt.baseTiltY * Multiplier(tilt, pos, sqrt) else 0.0;
      Some(Placed(pos.x, pos.y, pos.z, 0.85, ProjectPhase, rotateX, rotateY, 0.0, 300 + index * 50, PointerEventsAll))
  }

  function Abs(r: real): real { if r < 0.0 then -r else r }

  /** The pointer position can be read back from the tilt: the tilt loses nothing inside the section. */
  lemma PointerFromTilt(clientX: real, clientY: real, rect: Rect)
    requires rect.width > 0.0 && rect.height > 0.0
    requires InsideSection(clientX - rect.left, clientY - rect.top, rect)
    ensures var t := PointerTilt(clientX, clientY, rect);
      clientX == rect.left + rect.width * (t.baseTiltY / 20.0 + 0.5)
      && clientY == rect.top + rect.height * (0.5 - t.baseTiltX / 20.0)
  {
    var nx := (clientX - rect.left) / rect.width;
    var ny := (clientY - rect.top) / rect.height;
    RatioBounds(clientX - rect.left, rect.width);
    RatioBounds(clientY - rect.top, rect.height);
    assert (nx - 0.5) * 20.0 / 20.0 + 0.5 == nx;
    assert 0.5 - (ny - 0.5) * -20.0 / 20.0 == ny;
  }

  /** Selecting another card switches to it directly, and a second click on it opens its page. */
  lemma SwitchThenOpen(current: string, id: string)
    requires current != id
    ensures CardClick(Some(current), id) == ClickResult(Some(id), None)
    ensures CardClick(CardClick(Some(current), id).selected, id).navigation == Some(DetailRoute(id))
  {
  }

  /** From any state, two clicks on the same card open its page. */
  lemma DoubleClickOpens(selected: Option<string>, id: string)
    ensures Click(Click(selected, OnCard(id)).selected, OnCard(id))
      == ClickResult(Some(id), Some(DetailRoute(id)))
  {
  }

  /** A click outside the cards never navigates and clears any selection with a non-empty id. */
  lemma ClickOffCards(selected: Option<string>)
    ensures Click(selected, OffCards).navigation.None?
    ensures Click(selected, OffCards).selected.None? || selected == Some("")
    ensures Click(selected, OffCards).selected.None? <==> (selected.None? || selected.value != "")
  {
  }

  /** The document handler keeps the selection for a target inside a card. */
  lemma OutsideClickInsideCard(selected: Option<string>)
    ensures OutsideClick(selected, true) == selected
  {
  }

  /** A selected card is centred, upright, unscaled, opaque and on top, in both layouts. */
  lemma SelectedCardCentred(projects: seq<Project>, slots: seq<Slot>, index: nat, tilt: Tilt, isMobile: bool,
                            sqrt: real -> real)
    requires index < |projects|
    ensures GetCardStyle(projects, slots, index, Some(projects[index].id), tilt, isMobile, sqrt)
      == Some(Placed(50.0, 50.0, 200.0, 1.0, 1.0, 0.0, 0.0, 0.0, 9999, true))
  {
  }

  /**
    * Of two catalog cards that are not selected, the later one stacks above the
    * earlier one, and both stack below a selected card.
    */
  lemma ZIndexOrder(i: nat, j: nat, selected: Option<string>, tilt: Tilt, isMobile: bool, sqrt: real -> real)
    requires i < j < |ProjectsData()|
    requires selected != Some(ProjectsData()[i].id) && selected != Some(ProjectsData()[j].id)
    ensures var si := GetCardStyle(ProjectsData(), Card3DPositions(), i, selected, tilt, isMobile, sqrt);
      var sj := GetCardStyle(ProjectsData(), Card3DPositions(), j, selected, tilt, isMobile, sqrt);
      si.Some? && sj.Some? && si.value.zIndex < sj.value.zIndex < SelectedZIndex
  {
    CatalogShape();
  }

  /** The distance factor is at least 1, so a card never tilts less than the base tilt, nor the other way. */
  lemma TiltAmplified(projects: seq<Project>, slots: seq<Slot>, index: nat, selected: Option<string>,
                      tilt: Tilt, sqrt: real -> real)
    requires index < |projects| && index < |slots|
    requires tilt.Sampled? && selected != Some(projects[index].id)
    requires forall d :: 0.0 <= d ==> 0.0 <= sqrt(d)
    ensures var s := GetCardStyle(projects, slots, index, selected, tilt, false, sqrt);
      s.Some? && s.value.Placed?
      && Abs(s.value.rotateX) >= Abs(tilt.baseTiltX) && Abs(s.value.rotateY) >= Abs(tilt.baseTiltY)
      && s.value.rotateX * tilt.baseTiltX >= 0.0 && s.value.rotateY * tilt.baseTiltY >= 0.0
  {
    var pos := slots[index];
    var distX := tilt.mouseX - pos.x / 100.0;
    var distY := tilt.mouseY - pos.y / 100.0;
    assert 0.0 <= distX * distX + distY * distY;
    var m := Multiplier(tilt, pos, sqrt);
    assert m >= 1.0;
    Amplify(tilt.baseTiltX, m);
    Amplify(tilt.baseTiltY, m);
  }

  lemma Amplify(b: real, m: real)
    requires m >= 1.0
    ensures Abs(b * m) >= Abs(b) && b * m * b >= 0.0
  {
    if b >= 0.0 {
      assert b * m >= b * 1.0;
    } else {
      assert b * m <= b * 1.0;
    }
  }

  /** Before any pointer sample, cards in the 3D layout are not rotated. */
  lemma UnsampledIsFlat(projects: seq<Project>, slots: seq<Slot>, index: nat, selected: Option<string>,
                        sqrt: real -> real)
    requires index < |projects| && index < |slots|
    ensures var s := GetCardStyle(projects, slots, index, selected, Unsampled, false, sqrt);
      s.Some? && s.value.Placed? && s.value.rotateX == 0.0 && s.value.rotateY == 0.0 && s.value.rotateZ == 0.0
  {
  }

  /**
    * The slot table has a slot for every catalog record, so every card of the
    * catalog gets a style; and every slot lies behind the selected card's depth.
    */
  lemma SlotsCoverCatalog(index: nat, selected: Option<string>, tilt: Tilt, isMobile: bool, sqrt: real -> real)
    requires index < |ProjectsData()|
    ensures GetCardStyle(ProjectsData(), Card3DPositions(), index, selected, tilt, isMobile, sqrt).Some?
    ensures forall k :: 0 <= k < |Card3DPositions()| ==> 0.0 < Card3DPositions()[k].z < 200.0
  {
    CatalogShape();
  }

  /** The state of the mounted card grid. */
  class CardGrid {
    const projects: seq<Project>
    var hoveredProject: Option<string>
    var selectedProject: Option<string>
    var globalTilt: Tilt
    var isMobile: bool

    /** The initial state, before the mount effects run. */
    constructor(projects: seq<Project>)
      ensures this.projects == projects
      ensures hoveredProject.None? && selectedProject.None? && globalTilt == Unsampled && !isMobile
    {
      this.projects := projects;
      hoveredProject := None;
      selectedProject := None;
      globalTilt := Unsampled;
      isMobile := false;
    }

    /** `checkMobile`, run on mount and on every resize. */
    method CheckMobile(innerWidth: int)
      modifies this
      ensures isMobile == IsMobileWidth(innerWidth)
      ensures hoveredProject == old(hoveredProject) && selectedProject == old(selectedProject)
      ensures globalTilt == old(globalTilt)
    {
      isMobile := innerWidth <= MobileMaxWidth;
    }

    /** `handleProjectClick`; the returned route is the navigation request. */
    method HandleProjectClick(projectId: string) returns (navigation: Option<string>)
      modifies this
      ensures ClickResult(selectedProject, navigation) == CardClick(old(selectedProject), projectId)
      ensures hoveredProject == old(hoveredProject) && globalTilt == old(globalTilt) && isMobile == old(isMobile)
    {
      if selectedProject == Some(projectId) {
        navigation := Some(DetailRoute(projectId));
      } else {
        selectedProject := Some(projectId);
        navigation := None;
      }
    }

    /** `handleClickOutside`, the document's click listener. */
    method HandleClickOutside(targetInsideCard: bool)
      modifies this
      ensures selectedProject == OutsideClick(old(selectedProject), targetInsideCard)
      ensures hoveredProject == old(hoveredProject) && globalTilt == old(globalTilt) && isMobile == old(isMobile)
    {
      if selectedProject.Some? && selectedProject.value != "" && !targetInsideCard {
        selectedProject := None;
      }
    }

    /**
      * `handleGlobalMouseMove`; `section` is the bounding rectangle of the
      * section, `None` while it is not mounted (then nothing happens).
      */
    method HandleGlobalMouseMove(clientX: real, clientY: real, section: Option<Rect>)
      requires section.Some? ==> section.value.width > 0.0 && section.value.height > 0.0
      modifies this
      ensures section.None? ==> globalTilt == old(globalTilt)
      ensures section.Some? ==> globalTilt == PointerTilt(clientX, clientY, section.value)
      ensures hoveredProject == old(hoveredProject) && selectedProject == old(selectedProject)
      ensures isMobile == old(isMobile)
    {
      if section.Some? {
        globalTilt := PointerTilt(clientX, clientY, section.value);
      }
    }

    /** `onMouseEnter` of a card. */
    method MouseEnter(projectId: string)
      modifies this
      ensures hoveredProject == Some(projectId)
      ensures selectedProject == old(selectedProject) && globalTilt == old(globalTilt) && isMobile == old(isMobile)
    {
      hoveredProject := Some(projectId);
    }

    /** `onMouseLeave` of a card. */
    method MouseLeave()
      modifies this
      ensures hoveredProject.None?
      ensures selectedProject == old(selectedProject) && globalTilt == old(globalTilt) && isMobile == old(isMobile)
    {
      hoveredProject := None;
    }

    /** The style of card `index` in the current state. */
    function CardStyleAt(index: nat, sqrt: real -> real): Option<CardStyle>
      reads this
      requires index < |projects|
    {
      GetCardStyle(projects, Card3DPositions(), index, selectedProject, globalTilt, isMobile, sqrt)
    }
  }
}
