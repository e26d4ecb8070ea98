/**
 * The gallery page's lightbox. The categories are flattened into one list of
 * images, each tagged with its category and position; the lightbox holds an
 * optional selection that can be opened on any image, closed, and moved to
 * the previous or next image of the flat list, wrapping around at both ends.
 */
module Gallery {
  import opened Wrappers

  datatype Image = Image(src: string, alt: string, caption: string)

  datatype Category = Category(title: string, description: string, images: seq<Image>)

  /** An image of the flat list, tagged with the category and position it came from. */
  datatype Entry = Entry(image: Image, categoryIndex: nat, imageIndex: nat)

  datatype Direction = Prev | Next

  /** The "k / n" counter under the open image. */
  datatype Count = Count(shown: int, total: int)

  // ---------------------------------------------------------------------------
  // The flat list
  // ---------------------------------------------------------------------------

  /** `category.images.map((image, imageIndex) => ({ ...image, categoryIndex, imageIndex }))` */
  function Tag(images: seq<Image>, c: nat): seq<Entry> {
    seq(|images|, i requires 0 <= i < |images| => Entry(images[i], c, i))
  }

  /** `galleryCategories.flatMap((category, categoryIndex) => ...)` */
  function Flatten(cats: seq<Category>): seq<Entry> {
    if cats == [] then []
    else Flatten(cats[..|cats| - 1]) + Tag(cats[|cats| - 1].images, |cats| - 1)
  }

  /** The number of images over all the given categories. */
  function TotalImages(cats: seq<Category>): nat {
    if cats == [] then 0 else TotalImages(cats[..|cats| - 1]) + |cats[|cats| - 1].images|
  }

  /** Where category `c` starts in the flat list: the images of the categories before it. */
  function Offset(cats: seq<Category>, c: nat): nat
    requires c <= |cats|
  {
    TotalImages(cats[..c])
  }

  /** The flat list holds as many entries as there are images. */
  lemma {:induction false} FlattenLength(cats: seq<Category>)
    ensures |Flatten(cats)| == TotalImages(cats)
  {
    if cats != [] {
      FlattenLength(cats[..|cats| - 1]);
    }
  }

  /** Image `i` of category `c` sits at `Offset(c) + i`, carrying the tags `(c, i)`. */
  lemma {:induction false} FlattenAt(cats: seq<Category>, c: nat, i: nat)
    requires c < |cats| && i < |cats[c].images|
    ensures Offset(cats, c) + i < |Flatten(cats)|
    ensures Flatten(cats)[Offset(cats, c) + i] == Entry(cats[c].images[i], c, i)
  {
    var init := cats[..|cats| - 1];
    FlattenLength(init);
    FlattenLength(cats);
    if c == |cats| - 1 {
      assert cats[..c] == init;
    } else {
      assert init[..c] == cats[..c];
      FlattenAt(init, c, i);
    }
  }

  /** Every entry of the flat list is some image `i` of some category `c`, at `Offset(c) + i`. */
  lemma {:induction false} FlattenEntry(cats: seq<Category>, p: nat)
    requires p < |Flatten(cats)|
    ensures var e := Flatten(cats)[p];
            e.categoryIndex < |cats| && e.imageIndex < |cats[e.categoryIndex].images|
            && e.image == cats[e.categoryIndex].images[e.imageIndex]
            && p == Offset(cats, e.categoryIndex) + e.imageIndex
  {
    var init := cats[..|cats| - 1];
    FlattenLength(init);
    if p < |Flatten(init)| {
      FlattenEntry(init, p);
      var e := Flatten(init)[p];
      assert init[..e.categoryIndex] == cats[..e.categoryIndex];
    } else {
      assert cats[..|cats| - 1] == init;
    }
  }

  /** No two positions carry the same `(categoryIndex, imageIndex)` tags. */
  ghost predicate TagsUnique(all: seq<Entry>) {
    forall p, q :: 0 <= p < q < |all| ==>
      all[p].categoryIndex != all[q].categoryIndex || all[p].imageIndex != all[q].imageIndex
  }

  lemma FlattenTagsUnique(cats: seq<Category>)
    ensures TagsUnique(Flatten(cats))
  {
    var all := Flatten(cats);
    forall p, q | 0 <= p < q < |all|
      ensures all[p].categoryIndex != all[q].categoryIndex || all[p].imageIndex != all[q].imageIndex
    {
      FlattenEntry(cats, p);
      FlattenEntry(cats, q);
    }
  }

  // ---------------------------------------------------------------------------
  // findIndex and the wrap-around step
  // ---------------------------------------------------------------------------

  /** `allImages.findIndex(img => img.categoryIndex === c && img.imageIndex === i)` */
  function FindIndex(all: seq<Entry>, c: int, i: int): int {
    if all == [] then -1
    else if all[0].categoryIndex == c && all[0].imageIndex == i then 0
    else
      var k := FindIndex(all[1..], c, i);
      if k == -1 then -1 else k + 1
  }

  /** `FindIndex` gives the first position carrying the tags, or -1 when none does. */
  lemma {:induction false} FindIndexSpec(all: seq<Entry>, c: int, i: int)
    ensures var k := FindIndex(all, c, i);
            (k == -1 || (0 <= k < |all| && all[k].categoryIndex == c && all[k].imageIndex == i))
            && forall m :: 0 <= m < |all| && (k == -1 || m < k) ==>
                 all[m].categoryIndex != c || all[m].imageIndex != i
  {
    if all != [] && !(all[0].categoryIndex == c && all[0].imageIndex == i) {
      FindIndexSpec(all[1..], c, i);
      var k := FindIndex(all[1..], c, i);
      forall m | 0 < m < |all| && (k == -1 || m < k + 1)
        ensures all[m].categoryIndex != c || all[m].imageIndex != i
      {
        assert all[m] == all[1..][m - 1];
      }
    }
  }

  /** With unique tags, looking up an entry's tags recovers exactly its position. */
  lemma FindIndexRecovers(all: seq<Entry>, p: nat)
    requires TagsUnique(all) && p < |all|
    ensures FindIndex(all, all[p].categoryIndex, all[p].imageIndex) == p
  {
    FindIndexSpec(all, all[p].categoryIndex, all[p].imageIndex);
  }

  /** The new index of `navigateImage`: wraps from the first to the last and from the last to the first. */
  function Step(dir: Direction, p: int, n: int): int {
    match dir
    case Prev => if p > 0 then p - 1 else n - 1
    case Next => if p < n - 1 then p + 1 else 0
  }

  /** On a valid position the step stays in range and is a rotation by one. */
  lemma StepIsRotation(p: int, n: int)
    requires 0 <= p < n
    ensures 0 <= Step(Next, p, n) < n && Step(Next, p, n) == (p + 1) % n
    ensures 0 <= Step(Prev, p, n) < n && Step(Prev, p, n) == (p + n - 1) % n
  {
  }

  /** `prev` undoes `next` and `next` undoes `prev`. */
  lemma StepInverse(p: int, n: int)
    requires 0 <= p < n
    ensures Step(Prev, Step(Next, p, n), n) == p
    ensures Step(Next, Step(Prev, p, n), n) == p
  {
  }

  // ---------------------------------------------------------------------------
  // The selection
  // ---------------------------------------------------------------------------

  /**
   * `navigateImage`: nothing selected stays nothing selected; otherwise the
   * entry one step away from the selection's position. Reading past either
   * end of the list (which only an empty list allows) gives `undefined`,
   * which closes the lightbox.
   */
  function Navigate(all: seq<Entry>, sel: Option<Entry>, dir: Direction): Option<Entry> {
    match sel
    case None => None
    case Some(e) =>
      var q := Step(dir, FindIndex(all, e.categoryIndex, e.imageIndex), |all|);
      if 0 <= q < |all| then Some(all[q]) else None
  }

  /** Moving from the entry at `p` selects the entry at the neighbouring position. */
  lemma NavigateFrom(all: seq<Entry>, p: nat, dir: Direction)
    requires TagsUnique(all) && p < |all|
    ensures 0 <= Step(dir, p, |all|) < |all|
    ensures Navigate(all, Some(all[p]), dir) == Some(all[Step(dir, p, |all|)])
  {
    FindIndexRecovers(all, p);
  }

  /** `prev` after `next`, and `next` after `prev`, give back the selection. */
  lemma NavigateRoundTrip(all: seq<Entry>, p: nat)
    requires TagsUnique(all) && p < |all|
    ensures Navigate(all, Navigate(all, Some(all[p]), Next), Prev) == Some(all[p])
    ensures Navigate(all, Navigate(all, Some(all[p]), Prev), Next) == Some(all[p])
  {
    NavigateFrom(all, p, Next);
    NavigateFrom(all, Step(Next, p, |all|), Prev);
    NavigateFrom(all, p, Prev);
    NavigateFrom(all, Step(Prev, p, |all|), Next);
  }

  /** `k` presses in the same direction. */
  function NavigateTimes(all: seq<Entry>, sel: Option<Entry>, dir: Direction, k: nat): Option<Entry> {
    if k == 0 then sel else Navigate(all, NavigateTimes(all, sel, dir, k - 1), dir)
  }

  /** Position `p + k` taken round a cycle of length `n`, for `p < n` and `k <= n`. */
  function Advance(p: nat, k: nat, n: nat): nat {
    if p + k < n then p + k else p + k - n
  }

  /** `k` presses of `next` from position `p`, for up to one full round, land `k` places further on. */
  lemma {:induction false} NavigateNextTimes(all: seq<Entry>, p: nat, k: nat)
    requires TagsUnique(all) && p < |all| && k <= |all|
    ensures Advance(p, k, |all|) < |all|
    ensures NavigateTimes(all, Some(all[p]), Next, k) == Some(all[Advance(p, k, |all|)])
  {
    if k > 0 {
      NavigateNextTimes(all, p, k - 1);
      NavigateFrom(all, Advance(p, k - 1, |all|), Next);
    }
  }

  /** Pressing `next` once per image comes back to the starting image. */
  lemma NavigateNextPeriod(all: seq<Entry>, p: nat)
    requires TagsUnique(all) && p < |all|
    ensures NavigateTimes(all, Some(all[p]), Next, |all|) == Some(all[p])
  {
    NavigateNextTimes(all, p, |all|);
  }

  // ---------------------------------------------------------------------------
  // The page's data and state
  // ---------------------------------------------------------------------------

  const AiTrainingImages := [
    Image("/images/gallery/ai-training-at-unik/WhatsApp Image 2025-09-12 at 22.04.32.jpeg",
          "AI Training at University of Kisubi - Session 1",
          "Interactive AI training session with participants"),
    Image("/images/gallery/ai-training-at-unik/WhatsApp Image 2025-09-12 at 22.04.34.jpeg",
          "AI Training at University of Kisubi - Session 2",
          "Hands-on practical exercises during the training"),
    Image("/images/gallery/ai-training-at-unik/WhatsApp Image 2025-09-12 at 22.04.36.jpeg",
          "AI Training at University of Kisubi - Session 3",
          "Group discussions and collaborative learning")
  ]

  const DataManagementImages := [
    Image("/images/gallery/data-management-training-at-muk/20250905_110401.jpg",
          "Data Management Training at MUK - Session 1",
          "Data management workshop in progress"),
    Image("/images/gallery/data-management-training-at-muk/20250905_110409.jpg",
          "Data Management Training at MUK - Session 2",
          "Participants working with data analysis tools")
  ]

  const GalleryCategories := [
    Category("AI Training at UniK (University of Kisubi)",
             "A hands-on training for lecturers and graduate students to learn about AI and its applications in their research and teaching.",
             AiTrainingImages),
    Category("Data Management Training at MUK",
             "Comprehensive data management training covering data collection, analysis, and visualization techniques.",
             DataManagementImages)
  ]

  /** The page's two categories flatten to five images. */
  lemma GalleryHasFiveImages()
    ensures |Flatten(GalleryCategories)| == 5
  {
    FlattenLength(GalleryCategories);
    assert GalleryCategories[..1] == [GalleryCategories[0]];
    assert [GalleryCategories[0]][..0] == [];
    assert TotalImages([GalleryCategories[0]]) == 3;
  }

  class GalleryPage {
    const categories: seq<Category>
    const allImages: seq<Entry>
    var selectedImage: Option<Entry>

    /** The flat list is the flattening of the categories, and a selection is one of its entries. */
    ghost predicate Valid()
      reads this
    {
      allImages == Flatten(categories)
      && (selectedImage.Some? ==> selectedImage.value in allImages)
    }

    /** The page's own categories, with the lightbox closed. */
    constructor ()
      ensures Valid() && categories == GalleryCategories && selectedImage == None
    {
      categories := GalleryCategories;
      allImages := Flatten(GalleryCategories);
      selectedImage := None;
    }

    /** `openModal(c, i)`: selects image `i` of category `c`, carrying those indices. */
    method OpenModal(c: nat, i: nat)
      requires Valid() && c < |categories| && i < |categories[c].images|
      modifies this
      ensures Valid() && selectedImage == Some(Entry(categories[c].images[i], c, i))
    {
      FlattenAt(categories, c, i);
      selectedImage := Some(Entry(categories[c].images[i], c, i));
    }

    /** `closeModal`: nothing selected. */
    method CloseModal()
      requires Valid()
      modifies this
      ensures Valid() && selectedImage == None
    {
      selectedImage := None;
    }

    /** `navigateImage(direction)` */
    method NavigateImage(dir: Direction)
      requires Valid()
      modifies this
      ensures Valid() && selectedImage == Navigate(allImages, old(selectedImage), dir)
      ensures old(selectedImage).Some? ==> selectedImage.Some?
    {
      if selectedImage.Some? {
        // the selection is in the list, so `findIndex` finds it and the step stays in range
        var e := selectedImage.value;
        FindIndexSpec(allImages, e.categoryIndex, e.imageIndex);
      }
      selectedImage := Navigate(allImages, selectedImage, dir);
    }

    /**
     * The counter "k / n": the selection's position plus one over the number
     * of images; `k` is in `1..n` and names the selected entry.
     */
    function Counter(): (c: Count)
      reads this
      requires Valid() && selectedImage.Some?
      ensures c.total == |allImages| && 1 <= c.shown <= c.total
      ensures allImages[c.shown - 1] == selectedImage.value
    {
      var e := selectedImage.value;
      var k := FindIndex(allImages, e.categoryIndex, e.imageIndex);
      assert 0 <= k < |allImages| && allImages[k] == e by {
        var p :| 0 <= p < |allImages| && allImages[p] == e;
        FlattenTagsUnique(categories);
        FindIndexRecovers(allImages, p);
      }
      Count(k + 1, |allImages|)
    }
  }
}
