/**
  * The project catalog: an ordered, constant list of project records, the
  * lookup of a record by id and the circular previous/next neighbours that the
  * detail page links to.
  *
  * Only the fields the site's logic reads are kept: the id (used in routes),
  * the `isHidden` flag, whether the record has a non-empty overview (the
  * gallery opens the lightbox only then), the gallery image references and the
  * keys of the `links` object in insertion order. Descriptive prose is dropped.
  */
module Catalog {
  import opened Wrappers
  import opened Remainders

  /** A gallery image reference, as a path relative to the site's base URL. */
  type Image = string

  datatype Project = Project(
    id: string,
    isHidden: bool,
    hasOverview: bool,
    gallery: seq<Image>,
    linkKeys: seq<string>)

  /** The value `getAdjacentProjects` returns; `None` stands for `undefined`. */
  datatype Adjacent = Adjacent(next: Option<Project>, previous: Option<Project>)

  /** The catalog, in display order. */
  function ProjectsData(): seq<Project>
  {
    [ Project("dp2-motor-play", false, true,
        [ "images/projects/dp2-motor-play/Initial research.png",
          "images/projects/dp2-motor-play/Apps For ASD kids.png",
          "images/projects/dp2-motor-play/Field Research.png",
          "images/projects/dp2-motor-play/Inferences.png",
          "images/projects/dp2-motor-play/Character Ref1.png",
          "images/projects/dp2-motor-play/Character Ref 2.png",
          "images/projects/dp2-motor-play/Hand Ref.png" ],
        ["conceptGdd", "gameGdd"]),
      Project("flowlog", false, false,
        [ "images/projects/flowlog/Slides/Frame 1.png",
          "images/projects/flowlog/Slides/Frame 2.png",
          "images/projects/flowlog/Slides/Frame 3.png",
          "images/projects/flowlog/Slides/Frame 4.png",
          "images/projects/flowlog/Slides/Frame 5.png",
          "images/projects/flowlog/Slides/Frame 6.png",
          "images/projects/flowlog/Slides/Frame 7.png",
          "images/projects/flowlog/Slides/Frame 8.png",
          "images/projects/flowlog/Slides/Frame 9.png" ],
        ["gdd"]),
      Project("moti", false, false,
        [ "images/projects/Moti/moti 1.png",
          "images/projects/Moti/moti 2.png",
          "images/projects/Moti/moti 3.png",
          "images/projects/Moti/moti 4.png",
          "images/projects/Moti/moti 5.png",
          "images/projects/Moti/moti 6.png",
          "images/projects/Moti/moti 7.png",
          "images/projects/Moti/moti 8.png",
          "images/projects/Moti/moti 9.png",
          "images/projects/Moti/moti 10.png" ],
        []),
      Project("pack-less", false, false,
        [ "images/projects/Pack-less/pack-1.png",
          "images/projects/Pack-less/pack-2.png",
          "images/projects/Pack-less/pack-3.png",
          "images/projects/Pack-less/pack-4.png",
          "images/projects/Pack-less/pack-5.png",
          "images/projects/Pack-less/pack-6.png",
          "images/projects/Pack-less/pack-7.png",
          "images/projects/Pack-less/pack-8.png",
          "images/projects/Pack-less/pack-9.png",
          "images/projects/Pack-less/pack-10.png",
          "images/projects/Pack-less/pack-11.png",
          "images/projects/Pack-less/pack-12.png" ],
        ["ppt"]),
      Project("ammo-batics", false, false,
        [ "images/projects/ammo-batics/Slides/Frame 1.png",
          "images/projects/ammo-batics/Slides/Frame 2.png",
          "images/projects/ammo-batics/Slides/Frame 4.png",
          "images/projects/ammo-batics/Slides/Frame 5.png",
          "images/projects/ammo-batics/Slides/Frame 6.png",
          "images/projects/ammo-batics/Slides/Frame 8.png",
          "images/projects/ammo-batics/Slides/Frame 9.png",
          "images/projects/ammo-batics/Slides/Frame 10.png",
          "images/projects/ammo-batics/Slides/Frame 11.png",
          "images/projects/ammo-batics/Slides/Frame 12.png" ],
        ["itchIo", "gdd"]),
      Project("flow-and-hold", false, true,
        [ "images/projects/flow-and-hold/Frame-22.png",
          "images/projects/flow-and-hold/Frame-24.png",
          "images/projects/flow-and-hold/Frame-25.png",
          "images/projects/flow-and-hold/Frame-26.png",
          "images/projects/flow-and-hold/Frame-27.png",
          "images/projects/flow-and-hold/Frame-28.png",
          "images/projects/flow-and-hold/Frame-29.png",
          "images/projects/flow-and-hold/Frame-30.png" ],
        ["gdd"]),
      Project("spring-twilight", false, true,
        [ "images/projects/spring-twilight/thumbnail.png",
          "images/projects/spring-twilight/screenshot-1.png",
          "images/projects/spring-twilight/screenshot-2.png",
          "images/projects/spring-twilight/screenshot-3.png",
          "images/projects/spring-twilight/screenshot-4.png" ],
        ["itchIo"]),
      Project("nmt-app", false, false,
        [ "images/projects/Nuclear Medicine-UI-UX/Nuclear 1.png",
          "images/projects/Nuclear Medicine-UI-UX/Nuclear 2.png",
          "images/projects/Nuclear Medicine-UI-UX/Nuclear 3.png",
          "images/projects/Nuclear Medicine-UI-UX/Nuclear 4.png",
          "images/projects/Nuclear Medicine-UI-UX/Nuclear 5.png",
          "images/projects/Nuclear Medicine-UI-UX/Nuclear 6.png",
          "images/projects/Nuclear Medicine-UI-UX/Nuclear 7.png",
          "images/projects/Nuclear Medicine-UI-UX/Nuclear 8.png",
          "images/projects/Nuclear Medicine-UI-UX/Nuclear 9.png",
          "images/projects/Nuclear Medicine-UI-UX/Nuclear 10.png",
          "images/projects/Nuclear Medicine-UI-UX/Nuclear 11.png",
          "images/projects/Nuclear Medicine-UI-UX/Nuclear 12.png",
          "images/projects/Nuclear Medicine-UI-UX/Nuclear 13.png",
          "images/projects/Nuclear Medicine-UI-UX/Nuclear 14.png",
          "images/projects/Nuclear Medicine-UI-UX/Nuclear 15.png",
          "images/projects/Nuclear Medicine-UI-UX/Nuclear 16 (2).png",
          "images/projects/Nuclear Medicine-UI-UX/Nuclear 17.png" ],
        []),
      Project("artwork", true, true, [], [])
    ]
  }

  /** No two records share an id. */
  ghost predicate IdsDistinct(cat: seq<Project>)
  {
    forall i, j :: 0 <= i < j < |cat| ==> cat[i].id != cat[j].id
  }

  /** Some record carries `id`. */
  ghost predicate HasId(cat: seq<Project>, id: string)
  {
    exists k :: 0 <= k < |cat| && cat[k].id == id
  }

  /** `Array.prototype.findIndex` on the id: the first matching index, or -1. */
  function FindIndex(cat: seq<Project>, id: string): (k: int)
    ensures -1 <= k < |cat|
    ensures k == -1 <==> !HasId(cat, id)
    ensures k >= 0 ==> cat[k].id == id && forall j :: 0 <= j < k ==> cat[j].id != id
  {
    if |cat| == 0 then -1
    else if cat[0].id == id then 0
    else
      var k := FindIndex(cat[1..], id);
      assert forall j :: 1 <= j < |cat| ==> cat[j] == cat[1..][j - 1];
      if k == -1 then -1 else k + 1
  }

  /** `getProjectById`: `Array.prototype.find` on the id. */
  function GetProjectById(cat: seq<Project>, id: string): (r: Option<Project>)
    ensures r.None? <==> !HasId(cat, id)
    ensures r.Some? ==> r.value in cat && r.value.id == id
  {
    if |cat| == 0 then None
    else if cat[0].id == id then Some(cat[0])
    else
      var r := GetProjectById(cat[1..], id);
      assert forall j :: 1 <= j < |cat| ==> cat[j] == cat[1..][j - 1];
      r
  }

  /**
    * JavaScript's `%` on integers with a positive divisor: the remainder of
    * division truncated toward zero, which differs from the dividend by a
    * multiple of `n`, lies strictly within (-n, n) and takes the sign of the
    * dividend.
    */
  function JsRem(a: int, n: int): (r: int)
    requires n > 0
    ensures -n < r < n
    ensures (a - r) % n == 0
    ensures a >= 0 ==> r >= 0
    ensures a < 0 ==> r <= 0
  {
    RemainderCongruent(a, n);
    if a >= 0 then a % n else -((-a) % n)
  }

  /** Both branches of `JsRem` differ from the dividend by a multiple of `n`. */
  lemma RemainderCongruent(a: int, n: int)
    requires n > 0
    ensures (a - a % n) % n == 0
    ensures (a + (-a) % n) % n == 0
  {
    assert a == n * (a / n) + a % n;
    MultipleMod(a / n, n);
    var b := -a;
    assert b == n * (b / n) + b % n;
    MultipleMod(-(b / n), n);
    assert a + b % n == n * (-(b / n));
  }

  /** Array indexing: `undefined` outside the array. */
  function At<T>(s: seq<T>, k: int): (r: Option<T>)
    ensures r.Some? <==> 0 <= k < |s|
    ensures r.Some? ==> r.value == s[k]
  {
    if 0 <= k < |s| then Some(s[k]) else None
  }

  /** `nextIndex` of `getAdjacentProjects`: `(currentIndex + 1) % length`. */
  function NextIndex(cat: seq<Project>, currentId: string): (r: int)
    requires |cat| > 0
    ensures 0 <= r < |cat|
    ensures FindIndex(cat, currentId) >= 0 ==> r == (FindIndex(cat, currentId) + 1) % |cat|
  {
    JsRem(FindIndex(cat, currentId) + 1, |cat|)
  }

  /** `prevIndex` of `getAdjacentProjects`: `(currentIndex - 1 + length) % length`. */
  function PrevIndex(cat: seq<Project>, currentId: string): (r: int)
    requires |cat| > 0
    ensures 0 <= r < |cat|
    ensures FindIndex(cat, currentId) >= 0 ==> r == (FindIndex(cat, currentId) - 1 + |cat|) % |cat|
  {
    JsRem(FindIndex(cat, currentId) - 1 + |cat|, |cat|)
  }

  /**
    * `getAdjacentProjects`. With an empty catalog `x % 0` is NaN and both
    * neighbours are `undefined`; with an unknown id the index -1 is used as is.
    */
  function GetAdjacentProjects(cat: seq<Project>, currentId: string): (r: Adjacent)
    ensures r.next.Some? <==> |cat| > 0
    ensures r.previous.Some? <==> |cat| > 0
    ensures r.next.Some? ==> r.next.value in cat
    ensures r.previous.Some? ==> r.previous.value in cat
  {
    if |cat| == 0 then Adjacent(None, None)
    else Adjacent(At(cat, NextIndex(cat, currentId)), At(cat, PrevIndex(cat, currentId)))
  }

  /** `find` and `findIndex` agree: the record found is the one at the first matching index. */
  lemma {:induction false} FindAgreesWithFindIndex(cat: seq<Project>, id: string)
    ensures GetProjectById(cat, id) == At(cat, FindIndex(cat, id))
  {
    if |cat| > 0 && cat[0].id != id {
      FindAgreesWithFindIndex(cat[1..], id);
    }
  }

  /** Lookup returns the first record in catalog order whose id matches. */
  lemma LookupIsFirstMatch(cat: seq<Project>, id: string)
    ensures GetProjectById(cat, id).Some? ==>
      exists k :: 0 <= k < |cat| && GetProjectById(cat, id) == Some(cat[k]) &&
        forall j :: 0 <= j < k ==> cat[j].id != id
  {
    FindAgreesWithFindIndex(cat, id);
  }

  /** For a found id at index i, next is the record at (i+1) mod N and previous the one at (i-1+N) mod N. */
  lemma AdjacentOfFound(cat: seq<Project>, id: string)
    requires FindIndex(cat, id) >= 0
    ensures var i, n := FindIndex(cat, id), |cat|;
      && GetAdjacentProjects(cat, id).next == Some(cat[(i + 1) % n])
      && GetAdjacentProjects(cat, id).previous == Some(cat[(i - 1 + n) % n])
  {
  }

  /** The circular neighbours of the record found at index i wrap to index 0 after the last record and to the last record before index 0. */
  lemma AdjacentWraps(cat: seq<Project>, id: string)
    requires FindIndex(cat, id) >= 0
    ensures var i, n := FindIndex(cat, id), |cat|;
      && GetAdjacentProjects(cat, id).next == Some(if i == n - 1 then cat[0] else cat[i + 1])
      && GetAdjacentProjects(cat, id).previous == Some(if i == 0 then cat[n - 1] else cat[i - 1])
  {
    var i, n := FindIndex(cat, id), |cat|;
    NeighbourIndices(i, n);
  }

  /** The two index formulas, case by case. */
  lemma NeighbourIndices(i: nat, n: nat)
    requires i < n
    ensures JsRem(i + 1, n) == if i == n - 1 then 0 else i + 1
    ensures JsRem(i - 1 + n, n) == if i == 0 then n - 1 else i - 1
  {
    if i < n - 1 {
      ModSmall(i + 1, n);
    }
    if i > 0 {
      ModShifted(i - 1, n);
    } else {
      ModSmall(n - 1, n);
    }
  }

  lemma ModSmall(k: int, n: int)
    requires 0 <= k < n
    ensures k % n == k
  {
  }

  lemma ModShifted(k: int, n: int)
    requires 0 <= k < n
    ensures (k + n) % n == k
  {
  }

  /**
    * For an unknown id `findIndex` yields -1: next is the first record and
    * previous is record N-2 (record 0 when N = 1, since -1 % 1 is -0). No error
    * is signalled.
    */
  lemma AdjacentOfUnknown(cat: seq<Project>, id: string)
    requires |cat| >= 1 && !HasId(cat, id)
    ensures NextIndex(cat, id) == 0
    ensures PrevIndex(cat, id) == if |cat| >= 2 then |cat| - 2 else 0
    ensures GetAdjacentProjects(cat, id).next == Some(cat[0])
    ensures GetAdjacentProjects(cat, id).previous == Some(cat[if |cat| >= 2 then |cat| - 2 else 0])
  {
    var n := |cat|;
    assert FindIndex(cat, id) == -1;
    if n >= 2 {
      ModSmall(n - 2, n);
    }
  }

  /** With distinct ids, each record is found at its own index. */
  lemma FindIndexOfDistinct(cat: seq<Project>, i: nat)
    requires IdsDistinct(cat) && i < |cat|
    ensures FindIndex(cat, cat[i].id) == i
  {
  }

  /** With distinct ids, stepping back then forward returns to the same record. */
  lemma NextOfPrevious(cat: seq<Project>, id: string)
    requires IdsDistinct(cat) && HasId(cat, id)
    ensures GetAdjacentProjects(cat, id).previous.Some?
    ensures GetAdjacentProjects(cat, GetAdjacentProjects(cat, id).previous.value.id).next.value.id == id
  {
    var n := |cat|;
    var i := FindIndex(cat, id);
    AdjacentWraps(cat, id);
    var p := if i == 0 then n - 1 else i - 1;
    var pid := cat[p].id;
    FindIndexOfDistinct(cat, p);
    AdjacentWraps(cat, pid);
  }

  /** With distinct ids, stepping forward then back returns to the same record. */
  lemma PreviousOfNext(cat: seq<Project>, id: string)
    requires IdsDistinct(cat) && HasId(cat, id)
    ensures GetAdjacentProjects(cat, id).next.Some?
    ensures GetAdjacentProjects(cat, GetAdjacentProjects(cat, id).next.value.id).previous.value.id == id
  {
    var n := |cat|;
    var i := FindIndex(cat, id);
    AdjacentWraps(cat, id);
    var q := if i == n - 1 then 0 else i + 1;
    var qid := cat[q].id;
    FindIndexOfDistinct(cat, q);
    AdjacentWraps(cat, qid);
  }

  /** The catalog has nine records, at most the ten card slots; only `artwork`, the last, is hidden. */
  lemma CatalogShape()
    ensures |ProjectsData()| == 9 <= 10
    ensures forall k :: 0 <= k < 9 ==> (ProjectsData()[k].isHidden <==> k == 8)
    ensures ProjectsData()[8].id == "artwork"
  {
  }

  /** Catalog ids are pairwise distinct: no two share both their first letter and their length. */
  lemma CatalogIdsDistinct()
    ensures IdsDistinct(ProjectsData())
  {
    var cat := ProjectsData();
    var signature := [('d', 14), ('f', 7), ('m', 4), ('p', 9), ('a', 11), ('f', 13), ('s', 15), ('n', 7), ('a', 7)];
    assert forall k :: 0 <= k < 9 ==> |cat[k].id| > 0 && (cat[k].id[0], |cat[k].id|) == signature[k];
    assert forall i, j :: 0 <= i < j < 9 ==> signature[i] != signature[j];
  }

  /** Lookup does not filter on `isHidden`: the hidden record is found. */
  lemma HiddenRecordIsFound()
    ensures GetProjectById(ProjectsData(), "artwork") == Some(ProjectsData()[8])
    ensures ProjectsData()[8].isHidden
  {
    var cat := ProjectsData();
    CatalogShape();
    CatalogIdsDistinct();
    FindIndexOfDistinct(cat, 8);
    FindAgreesWithFindIndex(cat, "artwork");
  }

  /** Adjacency does not filter on `isHidden`: the hidden record is the previous of the first record and the next of the eighth. */
  lemma HiddenRecordIsNeighbour()
    ensures GetAdjacentProjects(ProjectsData(), "dp2-motor-play").previous == Some(ProjectsData()[8])
    ensures GetAdjacentProjects(ProjectsData(), "nmt-app").next == Some(ProjectsData()[8])
  {
    var cat := ProjectsData();
    CatalogShape();
    CatalogIdsDistinct();
    FindIndexOfDistinct(cat, 0);
    AdjacentWraps(cat, "dp2-motor-play");
    FindIndexOfDistinct(cat, 7);
    AdjacentWraps(cat, "nmt-app");
  }
}
