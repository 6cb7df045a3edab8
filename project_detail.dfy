/**
  * The project detail page: loading the record named by the route (or
  * redirecting home when there is none), the previous/next links, and the
  * image lightbox with its keyboard navigation.
  *
  * The lightbox transitions are pure functions over a `Lightbox` value; the
  * `DetailPage` class holds the page's state variables and each of its
  * methods is specified by those functions.
  */
module ProjectDetail {
  import opened Wrappers
  import opened Catalog

  /** The pair `selectedImage` / `selectedImageIndex`; `None` is `null`. */
  datatype Lightbox = Lightbox(image: Option<Image>, index: Option<int>)

  const Closed: Lightbox := Lightbox(None, None)

  const HomeRoute: string := "/"

  /** `selectedImage` is truthy: present and not the empty string. */
  predicate Showing(lb: Lightbox)
  {
    lb.image.Some? && lb.image.value != ""
  }

  /** The number JavaScript reads from `selectedImageIndex` in `<`, `>`, `+` and `-`: `null` is 0. */
  function IndexNumber(lb: Lightbox): int
  {
    if lb.index.Some? then lb.index.value else 0
  }

  /** A lightbox state the page can be in: closed, or showing the gallery image at the index. */
  ghost predicate Coherent(gallery: seq<Image>, lb: Lightbox)
  {
    lb == Closed
    || (lb.index.Some? && 0 <= lb.index.value < |gallery| && lb.image == Some(gallery[lb.index.value]))
  }

  /** Every gallery entry is a non-empty reference, so showing one keeps the lightbox truthy. */
  ghost predicate NonEmptyImages(gallery: seq<Image>)
  {
    forall k :: 0 <= k < |gallery| ==> gallery[k] != ""
  }

  /** `s.includes(t)`. */
  predicate Contains(s: string, t: string)
    decreases |s|
  {
    (|t| <= |s| && s[..|t|] == t) || (|s| > 0 && Contains(s[1..], t))
  }

  /** The two ammo-batics slides that render as animated widgets instead of clickable images. */
  predicate IsFrameWidget(p: Project, image: Image)
  {
    p.id == "ammo-batics" && (Contains(image, "Frame 9.png") || Contains(image, "Frame 10.png"))
  }

  /**
    * A click on gallery entry `index`: it has a click handler (which opens the
    * lightbox there) only when the project has an overview and the entry is an
    * ordinary image.
    */
  function ClickImage(p: Project, lb: Lightbox, index: int): (r: Lightbox)
    requires 0 <= index < |p.gallery|
    ensures Coherent(p.gallery, lb) ==> Coherent(p.gallery, r)
    ensures p.hasOverview && !IsFrameWidget(p, p.gallery[index]) ==>
      r.index == Some(index) && r.image == Some(p.gallery[index])
    ensures !(p.hasOverview && !IsFrameWidget(p, p.gallery[index])) ==> r == lb
  {
    if p.hasOverview && !IsFrameWidget(p, p.gallery[index])
    then Lightbox(Some(p.gallery[index]), Some(index))
    else lb
  }

  /**
    * `goToPreviousImage`: from an open lightbox it moves one image back and
    * stops at the first one.
    */
  function Previous(gallery: seq<Image>, lb: Lightbox): (r: Lightbox)
    ensures Coherent(gallery, lb) ==> Coherent(gallery, r)
    ensures Coherent(gallery, lb) && lb != Closed ==> r.index == Some(Max(lb.index.value - 1, 0))
  {
    var k := IndexNumber(lb);
    if k > 0 then Lightbox(At(gallery, k - 1), Some(k - 1)) else lb
  }

  /**
    * `goToNextImage`: from an open lightbox it moves one image forward and
    * stops at the last one.
    */
  function Next(gallery: seq<Image>, lb: Lightbox): (r: Lightbox)
    ensures Coherent(gallery, lb) ==> Coherent(gallery, r)
    ensures Coherent(gallery, lb) && lb != Closed ==> r.index == Some(Min(lb.index.value + 1, |gallery| - 1))
  {
    var k := IndexNumber(lb);
    if k < |gallery| - 1 then Lightbox(At(gallery, k + 1), Some(k + 1)) else lb
  }

  /**
    * The window's `keydown` handler. Keys act only while an image is shown;
    * then Escape closes the lightbox and keys other than Escape and the two
    * arrows change nothing. Every key keeps the lightbox coherent.
    */
  function KeyPress(gallery: seq<Image>, lb: Lightbox, key: string): (r: Lightbox)
    ensures Coherent(gallery, lb) ==> Coherent(gallery, r)
    ensures !Showing(lb) ==> r == lb
    ensures Showing(lb) && key == "Escape" ==> r == Closed
    ensures key != "Escape" && key != "ArrowLeft" && key != "ArrowRight" ==> r == lb
  {
    if !Showing(lb) then lb
    else if key == "Escape" then Closed
    else if key == "ArrowLeft" then Previous(gallery, lb)
    else if key == "ArrowRight" then Next(gallery, lb)
    else lb
  }

  /**
    * A sequence of key presses, handled in order. No sequence leads out of
    * the coherent states, and none has any effect while no image is shown.
    */
  function PressKeys(gallery: seq<Image>, lb: Lightbox, keys: seq<string>): (r: Lightbox)
    ensures Coherent(gallery, lb) ==> Coherent(gallery, r)
    ensures !Showing(lb) ==> r == lb
    decreases |keys|
  {
    if keys == [] then lb else PressKeys(gallery, KeyPress(gallery, lb, keys[0]), keys[1..])
  }

  function Repeat(key: string, n: nat): (keys: seq<string>)
    ensures |keys| == n
    ensures forall i :: 0 <= i < n ==> keys[i] == key
  {
    if n == 0 then [] else [key] + Repeat(key, n - 1)
  }

  function Min(a: int, b: int): int { if a <= b then a else b }
  function Max(a: int, b: int): int { if a >= b then a else b }

  /** ArrowLeft undoes ArrowRight away from the last image. */
  lemma NextThenPrevious(gallery: seq<Image>, lb: Lightbox)
    requires Coherent(gallery, lb) && Showing(lb) && NonEmptyImages(gallery)
    requires lb.index.value < |gallery| - 1
    ensures KeyPress(gallery, KeyPress(gallery, lb, "ArrowRight"), "ArrowLeft") == lb
  {
    assert KeyPress(gallery, lb, "ArrowRight") == Next(gallery, lb);
  }

  /** ArrowRight undoes ArrowLeft away from the first image. */
  lemma PreviousThenNext(gallery: seq<Image>, lb: Lightbox)
    requires Coherent(gallery, lb) && Showing(lb) && NonEmptyImages(gallery)
    requires lb.index.value > 0
    ensures KeyPress(gallery, KeyPress(gallery, lb, "ArrowLeft"), "ArrowRight") == lb
  {
    assert KeyPress(gallery, lb, "ArrowLeft") == Previous(gallery, lb);
  }

  /** Holding ArrowRight n times walks n images forward and stays on the last one. */
  lemma {:induction false} ArrowRightRun(gallery: seq<Image>, lb: Lightbox, n: nat)
    requires Coherent(gallery, lb) && Showing(lb) && NonEmptyImages(gallery)
    ensures var m := Min(lb.index.value + n, |gallery| - 1);
      PressKeys(gallery, lb, Repeat("ArrowRight", n)) == Lightbox(Some(gallery[m]), Some(m))
    decreases n
  {
    var keys := Repeat("ArrowRight", n);
    if n == 0 {
    } else {
      var lb' := KeyPress(gallery, lb, "ArrowRight");
      assert keys[1..] == Repeat("ArrowRight", n - 1);
      ArrowRightRun(gallery, lb', n - 1);
    }
  }

  /** Holding ArrowLeft n times walks n images back and stays on the first one. */
  lemma {:induction false} ArrowLeftRun(gallery: seq<Image>, lb: Lightbox, n: nat)
    requires Coherent(gallery, lb) && Showing(lb) && NonEmptyImages(gallery)
    ensures var m := Max(lb.index.value - n, 0);
      PressKeys(gallery, lb, Repeat("ArrowLeft", n)) == Lightbox(Some(gallery[m]), Some(m))
    decreases n
  {
    var keys := Repeat("ArrowLeft", n);
    if n == 0 {
    } else {
      var lb' := KeyPress(gallery, lb, "ArrowLeft");
      assert keys[1..] == Repeat("ArrowLeft", n - 1);
      ArrowLeftRun(gallery, lb', n - 1);
    }
  }

  /** The state of one mounted detail page. */
  class DetailPage {
    const catalog: seq<Project>
    var project: Option<Project>
    var adjacentProjects: Option<Adjacent>
    var selectedImage: Option<Image>
    var selectedImageIndex: Option<int>

    function Box(): Lightbox
      reads this
    {
      Lightbox(selectedImage, selectedImageIndex)
    }

    function Gallery(): seq<Image>
      reads this
    {
      if project.Some? then project.value.gallery else []
    }

    /**
      * A loaded project is a catalog record and the neighbours are its own; the
      * lightbox is coherent with that project's gallery and closed before any
      * project is loaded.
      */
    ghost predicate Valid()
      reads this
    {
      (project.Some? ==>
         project.value in catalog
         && adjacentProjects == Some(GetAdjacentProjects(catalog, project.value.id)))
      && (project.None? ==> adjacentProjects.None? && Box() == Closed)
      && Coherent(Gallery(), Box())
    }

    constructor(catalog: seq<Project>)
      ensures Valid()
      ensures this.catalog == catalog
      ensures project.None? && adjacentProjects.None? && Box() == Closed
    {
      this.catalog := catalog;
      project := None;
      adjacentProjects := None;
      selectedImage := None;
      selectedImageIndex := None;
    }

    /**
      * The effect run when the route's project id changes: an unknown id
      * redirects home and leaves the state alone; a known id loads the record
      * and its neighbours and closes the lightbox.
      */
    method ProjectIdChanged(projectId: string) returns (redirect: Option<string>)
      requires Valid()
      modifies this
      ensures Valid()
      ensures GetProjectById(catalog, projectId).None? ==>
        redirect == Some(HomeRoute) && unchanged(this)
      ensures GetProjectById(catalog, projectId).Some? ==>
        redirect.None?
        && project == GetProjectById(catalog, projectId)
        && adjacentProjects == Some(GetAdjacentProjects(catalog, projectId))
        && Box() == Closed
    {
      var projectData := GetProjectById(catalog, projectId);
      if projectData.None? {
        return Some(HomeRoute);
      }
      project := projectData;
      adjacentProjects := Some(GetAdjacentProjects(catalog, projectId));
      selectedImage := None;
      selectedImageIndex := None;
      redirect := None;
    }

    /** `openLightbox(image, index)`. */
    method OpenLightbox(image: Image, index: int)
      modifies this
      ensures Box() == Lightbox(Some(image), Some(index))
      ensures project == old(project) && adjacentProjects == old(adjacentProjects)
    {
      selectedImage := Some(image);
      selectedImageIndex := Some(index);
    }

    /** A click on the gallery entry at `index`. */
    method ClickGalleryImage(index: int)
      requires Valid() && project.Some? && 0 <= index < |project.value.gallery|
      modifies this
      ensures Valid()
      ensures project == old(project) && adjacentProjects == old(adjacentProjects)
      ensures Box() == ClickImage(project.value, old(Box()), index)
    {
      var p := project.value;
      if p.hasOverview && !IsFrameWidget(p, p.gallery[index]) {
        OpenLightbox(p.gallery[index], index);
      }
    }

    /** `closeLightbox`: the close button, a click on the backdrop. */
    method CloseLightbox()
      requires Valid()
      modifies this
      ensures Valid()
      ensures Box() == Closed
      ensures project == old(project) && adjacentProjects == old(adjacentProjects)
    {
      selectedImage := None;
      selectedImageIndex := None;
    }

    /** `goToPreviousImage`; it reads `project.gallery`, so a project is loaded. */
    method GoToPreviousImage()
      requires Valid() && project.Some?
      modifies this
      ensures Valid()
      ensures Box() == Previous(Gallery(), old(Box()))
      ensures project == old(project) && adjacentProjects == old(adjacentProjects)
    {
      var k := IndexNumber(Box());
      if k > 0 {
        var newIndex := k - 1;
        selectedImageIndex := Some(newIndex);
        selectedImage := At(project.value.gallery, newIndex);
      }
    }

    /** `goToNextImage`; it reads `project.gallery`, so a project is loaded. */
    method GoToNextImage()
      requires Valid() && project.Some?
      modifies this
      ensures Valid()
      ensures Box() == Next(Gallery(), old(Box()))
      ensures project == old(project) && adjacentProjects == old(adjacentProjects)
    {
      var k := IndexNumber(Box());
      if k < |project.value.gallery| - 1 {
        var newIndex := k + 1;
        selectedImageIndex := Some(newIndex);
        selectedImage := At(project.value.gallery, newIndex);
      }
    }

    /** The window's `keydown` listener. */
    method HandleKeyPress(key: string)
      requires Valid()
      modifies this
      ensures Valid()
      ensures Box() == KeyPress(Gallery(), old(Box()), key)
      ensures project == old(project) && adjacentProjects == old(adjacentProjects)
    {
      if !Showing(Box()) {
        return;
      }
      if key == "Escape" {
        CloseLightbox();
      } else if key == "ArrowLeft" {
        GoToPreviousImage();
      } else if key == "ArrowRight" {
        GoToNextImage();
      }
    }
  }
}
