/**
  * The application shell's scroll tracking. A scroll listener coalesces
  * scroll events into at most one pending animation-frame callback (the
  * `ticking` flag); the callback reads the page geometry and computes the
  * overall scroll progress, clamped to [0, 1], and the projects-section
  * progress, which is in [0, 1] while the section is on screen and 2 once it
  * has been scrolled past. Off the home route the tracked progress is not
  * passed on.
  *
  * The browser's frame queue is modelled by the `pending` sequence and its
  * handle counter; the page geometry is a parameter of the frame callback.
  */
module ScrollTracking {
  import opened Wrappers
  import opened RealRatios

  /** `offsetTop` and `offsetHeight` of the projects section. */
  datatype Section = Section(offsetTop: real, offsetHeight: real)

  /** What the frame callback reads from the page when it runs. */
  datatype Geometry = Geometry(
    scrollY: real,
    innerHeight: real,
    documentScrollHeight: real,
    projects: Option<Section>)

  /** A JavaScript number as far as these computations reach: a real, or `NaN`. */
  datatype JsNumber = Finite(value: real) | NaN

  function Min(a: real, b: real): real { if a <= b then a else b }
  function Max(a: real, b: real): real { if a >= b then a else b }

  /** `Math.max(0, Math.min(1, v))` on a real. */
  function Clamp01(v: real): real
  {
    Max(0.0, Min(1.0, v))
  }

  /** The overall progress: `scrollY / scrollHeight` clamped to [0, 1], 0 when nothing scrolls. */
  function ScrollProgress(g: Geometry): (r: real)
    ensures 0.0 <= r <= 1.0
  {
    var scrollHeight := g.documentScrollHeight - g.innerHeight;
    var progress := if scrollHeight > 0.0 then g.scrollY / scrollHeight else 0.0;
    Min(Max(progress, 0.0), 1.0)
  }

  /** The section overlaps the viewport. */
  predicate Overlaps(g: Geometry, s: Section)
  {
    g.scrollY + g.innerHeight > s.offsetTop && g.scrollY < s.offsetTop + s.offsetHeight
  }

  /**
    * `Math.max(0, Math.min(1, num / den))` in IEEE arithmetic: a zero
    * denominator gives an infinity for a non-zero numerator (clamped to 1 or
    * 0) and `NaN` for a zero one, which both clamps pass on. Every number
    * that comes out is in [0, 1].
    */
  function ClampedRatio(num: real, den: real): (r: JsNumber)
    ensures r.Finite? ==> 0.0 <= r.value <= 1.0
    ensures r.NaN? <==> num == 0.0 && den == 0.0
  {
    if den != 0.0 then Finite(Clamp01(num / den))
    else if num > 0.0 then Finite(1.0)
    else if num < 0.0 then Finite(0.0)
    else NaN
  }

  /**
    * The projects-section progress computed in the frame callback: 0, 2, a
    * value in [0, 1], or `NaN` for an empty section hit exactly at its entry
    * point.
    */
  function ProjectsProgress(g: Geometry): (r: JsNumber)
    ensures r.Finite? ==> 0.0 <= r.value <= 1.0 || r.value == 2.0
    ensures r.NaN? <==>
      g.projects.Some? && Overlaps(g, g.projects.value) && g.projects.value.offsetHeight == 0.0
      && g.scrollY == g.projects.value.offsetTop - g.innerHeight * 0.5
  {
    match g.projects
    case None => Finite(0.0)
    case Some(s) =>
      var bottom := s.offsetTop + s.offsetHeight;
      if g.scrollY + g.innerHeight > s.offsetTop && g.scrollY < bottom then
        var entryPoint := s.offsetTop - g.innerHeight * 0.5;
        var exitPoint := bottom - g.innerHeight * 0.5;
        ClampedRatio(g.scrollY - entryPoint, exitPoint - entryPoint)
      else if g.scrollY >= bottom then Finite(2.0)
      else Finite(0.0)
  }

  /**
    * The progress handed to the background scene and the home page: zero off
    * the home route, and in [0, 1] whenever the tracked value is.
    */
  function ReceivedProgress(pathname: string, scrollProgress: real): (r: real)
    ensures pathname != "/" ==> r == 0.0
    ensures 0.0 <= scrollProgress <= 1.0 ==> 0.0 <= r <= 1.0
  {
    if pathname == "/" then scrollProgress else 0.0
  }

  /** Inside the scrollable range the progress is exactly the scrolled fraction; nothing to scroll means 0. */
  lemma ScrollProgressIsFraction(g: Geometry)
    ensures g.documentScrollHeight - g.innerHeight <= 0.0 ==> ScrollProgress(g) == 0.0
    ensures var h := g.documentScrollHeight - g.innerHeight;
      h > 0.0 && 0.0 <= g.scrollY <= h ==> ScrollProgress(g) * h == g.scrollY
    ensures g.scrollY <= 0.0 ==> ScrollProgress(g) == 0.0
    ensures var h := g.documentScrollHeight - g.innerHeight;
      h > 0.0 && g.scrollY >= h ==> ScrollProgress(g) == 1.0
  {
    var h := g.documentScrollHeight - g.innerHeight;
    if h > 0.0 {
      RatioBounds(g.scrollY, h);
    }
  }

  /** 2 exactly once the section has been scrolled past; 0 when it is missing or not reached. */
  lemma ProjectsProgressPhases(g: Geometry)
    ensures ProjectsProgress(g) == Finite(2.0) <==>
      g.projects.Some? && g.scrollY >= g.projects.value.offsetTop + g.projects.value.offsetHeight
    ensures g.projects.None? ==> ProjectsProgress(g) == Finite(0.0)
    ensures g.projects.Some? && g.scrollY + g.innerHeight <= g.projects.value.offsetTop
            && g.scrollY < g.projects.value.offsetTop + g.projects.value.offsetHeight
            ==> ProjectsProgress(g) == Finite(0.0)
  {
    if g.projects.Some? {
      var s := g.projects.value;
      if Overlaps(g, s) {
        var entryPoint := s.offsetTop - g.innerHeight * 0.5;
        var exitPoint := s.offsetTop + s.offsetHeight - g.innerHeight * 0.5;
        var r := ClampedRatio(g.scrollY - entryPoint, exitPoint - entryPoint);
        assert r.Finite? ==> r.value <= 1.0;
      }
    }
  }

  /** Inside the overlap of a section with height, the value is the clamped fraction between entry and exit points. */
  lemma ProjectsProgressInside(g: Geometry)
    requires g.projects.Some? && Overlaps(g, g.projects.value) && g.projects.value.offsetHeight > 0.0
    ensures var s := g.projects.value;
      var entryPoint := s.offsetTop - g.innerHeight * 0.5;
      var exitPoint := s.offsetTop + s.offsetHeight - g.innerHeight * 0.5;
      ProjectsProgress(g) == Finite(Clamp01((g.scrollY - entryPoint) / (exitPoint - entryPoint)))
      && (g.scrollY <= entryPoint ==> ProjectsProgress(g) == Finite(0.0))
      && (g.scrollY >= exitPoint ==> ProjectsProgress(g) == Finite(1.0))
  {
    var s := g.projects.value;
    var entryPoint := s.offsetTop - g.innerHeight * 0.5;
    var exitPoint := s.offsetTop + s.offsetHeight - g.innerHeight * 0.5;
    var den := exitPoint - entryPoint;
    assert den == s.offsetHeight;
    RatioBounds(g.scrollY - entryPoint, den);
  }

  /** Scrolling further down through the section never lowers its progress. */
  lemma ProjectsProgressMonotone(g: Geometry, scrollY2: real)
    requires g.projects.Some? && g.projects.value.offsetHeight > 0.0
    requires g.scrollY <= scrollY2
    requires Overlaps(g, g.projects.value) && Overlaps(g.(scrollY := scrollY2), g.projects.value)
    ensures ProjectsProgress(g).Finite? && ProjectsProgress(g.(scrollY := scrollY2)).Finite?
    ensures ProjectsProgress(g).value <= ProjectsProgress(g.(scrollY := scrollY2)).value
  {
    var g2 := g.(scrollY := scrollY2);
    var s := g.projects.value;
    var entryPoint := s.offsetTop - g.innerHeight * 0.5;
    var den := s.offsetTop + s.offsetHeight - g.innerHeight * 0.5 - entryPoint;
    assert den > 0.0;
    RatioMonotone(g.scrollY - entryPoint, scrollY2 - entryPoint, den);
  }

  /** Off the home route both receivers get 0; on it, the tracked value, which stays in [0, 1]. */
  lemma ReceivedProgressGated(pathname: string, g: Geometry)
    ensures pathname != "/" ==> ReceivedProgress(pathname, ScrollProgress(g)) == 0.0
    ensures pathname == "/" ==> ReceivedProgress(pathname, ScrollProgress(g)) == ScrollProgress(g)
    ensures 0.0 <= ReceivedProgress(pathname, ScrollProgress(g)) <= 1.0
  {
  }

  /**
    * The scroll effect's state: its two closure variables, the browser's frame
    * queue as far as this effect uses it, and what the frame callback writes.
    */
  class ScrollTracker {
    /** The scroll listener is registered. */
    var listening: bool
    var ticking: bool
    /** The last handle `requestAnimationFrame` returned; the callback never clears it. */
    var rafId: Option<nat>
    /** Frame callbacks scheduled and neither run nor cancelled, by handle. */
    var pending: seq<nat>
    /** The handle the browser gives the next frame request; handles are positive. */
    var nextHandle: nat
    /** The `scrollProgress` state. */
    var scrollProgress: real
    /** `window.projectsProgress`: the last projects progress computed, undefined before the first frame. */
    var projectsProgress: Option<JsNumber>

    /**
      * At most one frame is pending; while listening, `ticking` says whether
      * one is, and the pending frame is the one `rafId` names.
      */
    ghost predicate Valid()
      reads this
    {
      nextHandle >= 1
      && |pending| <= 1
      && (listening ==> (ticking <==> |pending| == 1))
      && (!listening ==> pending == [])
      && (pending != [] ==> rafId == Some(pending[0]))
      && (rafId.Some? ==> 1 <= rafId.value < nextHandle)
      && 0.0 <= scrollProgress <= 1.0
    }

    /** Mounting the effect: register the listener and call the handler once, which schedules a frame. */
    constructor Mount(firstHandle: nat)
      requires firstHandle >= 1
      ensures Valid()
      ensures listening && ticking && pending == [firstHandle] && rafId == Some(firstHandle)
      ensures nextHandle == firstHandle + 1
      ensures scrollProgress == 0.0 && projectsProgress.None?
    {
      listening := true;
      ticking := false;
      rafId := None;
      pending := [];
      nextHandle := firstHandle;
      scrollProgress := 0.0;
      projectsProgress := None;
      new;
      HandleScroll();
    }

    /** `handleScroll`: schedule a frame unless one is already pending. */
    method HandleScroll()
      requires Valid() && listening
      modifies this
      ensures Valid() && listening
      ensures old(ticking) ==> unchanged(this)
      ensures !old(ticking) ==>
        ticking && pending == [old(nextHandle)] && rafId == Some(old(nextHandle))
        && nextHandle == old(nextHandle) + 1
        && scrollProgress == old(scrollProgress) && projectsProgress == old(projectsProgress)
    {
      if !ticking {
        rafId := Some(nextHandle);
        pending := pending + [nextHandle];
        nextHandle := nextHandle + 1;
        ticking := true;
      }
    }

    /** The pending frame runs against the geometry of that moment. */
    method FrameFires(g: Geometry)
      requires Valid() && pending != []
      modifies this
      ensures Valid()
      ensures pending == [] && !ticking
      ensures scrollProgress == ScrollProgress(g) && projectsProgress == Some(ProjectsProgress(g))
      ensures listening == old(listening) && rafId == old(rafId) && nextHandle == old(nextHandle)
    {
      pending := pending[1..];
      projectsProgress := Some(ProjectsProgress(g));
      scrollProgress := ScrollProgress(g);
      ticking := false;
    }

    /** Unmounting: remove the listener and cancel the frame `rafId` names, if it is still pending. */
    method Unmount()
      requires Valid() && listening
      modifies this
      ensures Valid()
      ensures !listening && pending == []
      ensures ticking == old(ticking) && nextHandle == old(nextHandle)
      ensures rafId == old(rafId) && scrollProgress == old(scrollProgress)
      ensures projectsProgress == old(projectsProgress)
    {
      listening := false;
      if rafId.Some? && pending == [rafId.value] {
        pending := [];
      }
    }
  }
}
