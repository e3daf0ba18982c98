/**
 * The portfolio gallery (class PortfolioManager): the list of images is
 * either flattened from the image server's category → images answer or
 * replaced by a fixed fallback list when loading fails; the gallery then shows
 * the images of one category (or all of them), at most twelve.
 * The fetch is not modelled: its outcome, a decoded answer or a failure, is a parameter.
 */
module Portfolio {

  /** The image server the API answer's relative paths are resolved against. */
  const ApiBaseUrl: string := "https://janaina-api.onrender.com"

  /** An image of the gallery's list. */
  datatype PortfolioImage = PortfolioImage(src: string, category: string, alt: string)

  /** An image as the API lists it under its category, with a path relative to the server. */
  datatype ApiImage = ApiImage(src: string, alt: string)

  /** One `[category, images]` pair of the answer, in the order Object.entries yields them. */
  datatype Category = Category(name: string, images: seq<ApiImage>)

  /** What the request produced: the decoded answer, or a failure of any kind. */
  datatype LoadOutcome = Loaded(categories: seq<Category>) | LoadFailed

  /** The list entry for one API image of `category`, its path made absolute. */
  function Entry(base: string, category: string, image: ApiImage): (e: PortfolioImage)
    ensures e.category == category && e.alt == image.alt
    ensures |e.src| == |base| + 1 + |image.src| && e.src[..|base| + 1] == base + "/"
    ensures e.src[|base| + 1..] == image.src
  {
    PortfolioImage(base + "/" + image.src, category, image.alt)
  }

  /** The entries of one category, in the order of its images. */
  function CategoryEntries(base: string, c: Category): seq<PortfolioImage> {
    seq(|c.images|, j requires 0 <= j < |c.images| => Entry(base, c.name, c.images[j]))
  }

  /** The whole answer flattened: category by category, image by image. */
  function Flatten(base: string, cs: seq<Category>): seq<PortfolioImage> {
    if |cs| == 0 then []
    else Flatten(base, cs[..|cs| - 1]) + CategoryEntries(base, cs[|cs| - 1])
  }

  /** How many images the answer lists across its categories. */
  function TotalImages(cs: seq<Category>): nat {
    if |cs| == 0 then 0 else TotalImages(cs[..|cs| - 1]) + |cs[|cs| - 1].images|
  }

  /** Flattening keeps one entry per image. */
  lemma {:induction false} FlattenLength(base: string, cs: seq<Category>)
    ensures |Flatten(base, cs)| == TotalImages(cs)
  {
    if |cs| > 0 {
      FlattenLength(base, cs[..|cs| - 1]);
    }
  }

  /** The images of the first c categories come first. */
  lemma {:induction false} FlattenPrefix(base: string, cs: seq<Category>, c: int)
    requires 0 <= c <= |cs|
    ensures |Flatten(base, cs[..c])| <= |Flatten(base, cs)|
    ensures Flatten(base, cs)[..|Flatten(base, cs[..c])|] == Flatten(base, cs[..c])
  {
    if c < |cs| {
      FlattenPrefix(base, cs[..|cs| - 1], c);
      assert cs[..|cs| - 1][..c] == cs[..c];
    } else {
      assert cs[..c] == cs;
    }
  }

  /**
   * Image j of category c sits at position TotalImages(cs[..c]) + j: entries
   * are ordered by category, then by image, each with the absolute path, the
   * category's name and the image's alt text.
   */
  lemma FlattenAt(base: string, cs: seq<Category>, c: int, j: int)
    requires 0 <= c < |cs| && 0 <= j < |cs[c].images|
    ensures TotalImages(cs[..c]) + j < |Flatten(base, cs)|
    ensures Flatten(base, cs)[TotalImages(cs[..c]) + j] == Entry(base, cs[c].name, cs[c].images[j])
  {
    var upTo := cs[..c + 1];
    assert upTo[..c] == cs[..c];
    FlattenLength(base, cs[..c]);
    FlattenPrefix(base, cs, c + 1);
    assert Flatten(base, upTo)[TotalImages(cs[..c]) + j] == CategoryEntries(base, cs[c])[j];
  }

  /** The list shown when loading fails: three images each of `small`, `medium` and `large`. */
  const FallbackImages: seq<PortfolioImage> := [
    PortfolioImage("https://via.placeholder.com/400x300/4ECDC4/FFFFFF?text=Pequeno+Porte+1", "small", "Trabalho profissional - Pequeno Porte"),
    PortfolioImage("https://via.placeholder.com/400x300/4ECDC4/FFFFFF?text=Pequeno+Porte+2", "small", "Trabalho profissional - Pequeno Porte"),
    PortfolioImage("https://via.placeholder.com/400x300/4ECDC4/FFFFFF?text=Pequeno+Porte+3", "small", "Trabalho profissional - Pequeno Porte"),
    PortfolioImage("https://via.placeholder.com/400x300/45B7D1/FFFFFF?text=Medio+Porte+1", "medium", "Trabalho profissional - Médio Porte"),
    PortfolioImage("https://via.placeholder.com/400x300/45B7D1/FFFFFF?text=Medio+Porte+2", "medium", "Trabalho profissional - Médio Porte"),
    PortfolioImage("https://via.placeholder.com/400x300/45B7D1/FFFFFF?text=Medio+Porte+3", "medium", "Trabalho profissional - Médio Porte"),
    PortfolioImage("https://via.placeholder.com/400x300/E74C3C/FFFFFF?text=Grande+Porte+1", "large", "Trabalho profissional - Grande Porte"),
    PortfolioImage("https://via.placeholder.com/400x300/E74C3C/FFFFFF?text=Grande+Porte+2", "large", "Trabalho profissional - Grande Porte"),
    PortfolioImage("https://via.placeholder.com/400x300/E74C3C/FFFFFF?text=Grande+Porte+3", "large", "Trabalho profissional - Grande Porte")
  ]

  /** `images.filter(img => img.category === category)`. */
  function FilterCategory(images: seq<PortfolioImage>, category: string): (r: seq<PortfolioImage>)
    ensures |r| <= |images|
  {
    if |images| == 0 then []
    else
      var rest := FilterCategory(images[1..], category);
      if images[0].category == category then [images[0]] + rest else rest
  }

  /** The filter keeps exactly the images of the category. */
  lemma {:induction false} FilterMembership(images: seq<PortfolioImage>, category: string)
    ensures forall x :: x in FilterCategory(images, category) <==> x in images && x.category == category
  {
    if |images| > 0 {
      FilterMembership(images[1..], category);
      assert forall x :: x in images <==> x == images[0] || x in images[1..];
    }
  }

  /** Filtering a concatenation filters each part and keeps their order. */
  lemma {:induction false} FilterAppend(a: seq<PortfolioImage>, b: seq<PortfolioImage>, category: string)
    ensures FilterCategory(a + b, category) == FilterCategory(a, category) + FilterCategory(b, category)
  {
    if |a| > 0 {
      FilterAppend(a[1..], b, category);
      assert (a + b)[1..] == a[1..] + b;
    } else {
      assert a + b == b;
    }
  }

  /** A list whose images all have the category is its own filter. */
  lemma {:induction false} FilterAll(images: seq<PortfolioImage>, category: string)
    requires forall i :: 0 <= i < |images| ==> images[i].category == category
    ensures FilterCategory(images, category) == images
  {
    if |images| > 0 {
      FilterAll(images[1..], category);
    }
  }

  /** A list with no image of the category filters to nothing. */
  lemma {:induction false} FilterNone(images: seq<PortfolioImage>, category: string)
    requires forall i :: 0 <= i < |images| ==> images[i].category != category
    ensures FilterCategory(images, category) == []
  {
    if |images| > 0 {
      FilterNone(images[1..], category);
    }
  }

  /** A list made of a run of category a, a run of b and a run of c filters, for each, to its run. */
  lemma FilterOfRuns(first: seq<PortfolioImage>, second: seq<PortfolioImage>, third: seq<PortfolioImage>,
                     a: string, b: string, c: string)
    requires a != b && a != c && b != c
    requires forall i :: 0 <= i < |first| ==> first[i].category == a
    requires forall i :: 0 <= i < |second| ==> second[i].category == b
    requires forall i :: 0 <= i < |third| ==> third[i].category == c
    ensures FilterCategory(first + second + third, a) == first
    ensures FilterCategory(first + second + third, b) == second
    ensures FilterCategory(first + second + third, c) == third
  {
    assert FilterCategory(first + second + third, a) == first by {
      FilterOfThirds(first, second, third, a);
      FilterAll(first, a);
      FilterNone(second, a);
      FilterNone(third, a);
    }
    assert FilterCategory(first + second + third, b) == second by {
      FilterOfThirds(first, second, third, b);
      FilterNone(first, b);
      FilterAll(second, b);
      FilterNone(third, b);
    }
    assert FilterCategory(first + second + third, c) == third by {
      FilterOfThirds(first, second, third, c);
      FilterNone(first, c);
      FilterNone(second, c);
      FilterAll(third, c);
    }
  }

  lemma FilterOfThirds(a: seq<PortfolioImage>, b: seq<PortfolioImage>, c: seq<PortfolioImage>, category: string)
    ensures FilterCategory(a + b + c, category) ==
      FilterCategory(a, category) + FilterCategory(b, category) + FilterCategory(c, category)
  {
    FilterAppend(a + b, c, category);
    FilterAppend(a, b, category);
  }

  /** The fallback list: nine images, the first three `small`, the next three `medium`, the last three `large`. */
  lemma FallbackCategories()
    ensures |FallbackImages| == 9
    ensures FilterCategory(FallbackImages, "small") == FallbackImages[..3]
    ensures FilterCategory(FallbackImages, "medium") == FallbackImages[3..6]
    ensures FilterCategory(FallbackImages, "large") == FallbackImages[6..]
  {
    var small, medium, large := FallbackImages[..3], FallbackImages[3..6], FallbackImages[6..];
    assert FallbackImages == small + medium + large;
    assert "small"[0] != "medium"[0] && "small"[0] != "large"[0] && "medium"[0] != "large"[0];
    FilterOfRuns(small, medium, large, "small", "medium", "large");
  }

  /** The gallery shows at most this many images. */
  const DisplayLimit: nat := 12

  /** The images a category selects: everything for `all`, otherwise that category's images. */
  function Filtered(images: seq<PortfolioImage>, category: string): seq<PortfolioImage> {
    if category == "all" then images else FilterCategory(images, category)
  }

  /** What the portfolio grid holds. */
  datatype GalleryView =
    | Blank                                // before the first display
    | NoImagesMessage                      // "Nenhuma imagem encontrada para esta categoria."
    | Gallery(items: seq<PortfolioImage>)  // one item per image, in order

  /** The grid for `category`: the first twelve selected images, or the message when there are none. */
  function GalleryFor(images: seq<PortfolioImage>, category: string): GalleryView {
    var filtered := Filtered(images, category);
    var shown := if |filtered| <= DisplayLimit then filtered else filtered[..DisplayLimit];
    if |shown| == 0 then NoImagesMessage else Gallery(shown)
  }

  /**
   * The gallery shows the first min(12, n) of the n selected images, in order,
   * and the message exactly when no image is selected: for `all`, when the
   * list is empty; for a category, when no image has it.
   */
  lemma GalleryContents(images: seq<PortfolioImage>, category: string)
    ensures var filtered := Filtered(images, category);
      match GalleryFor(images, category)
      case Gallery(items) =>
        && |items| == (if |filtered| <= DisplayLimit then |filtered| else DisplayLimit)
        && items == filtered[..|items|]
      case NoImagesMessage => |filtered| == 0
      case Blank => false
    ensures GalleryFor(images, category) == NoImagesMessage <==>
      if category == "all" then |images| == 0
      else forall i :: 0 <= i < |images| ==> images[i].category != category
  {
    var filtered := Filtered(images, category);
    FilterMembership(images, category);
    if category != "all" && |filtered| > 0 {
      assert filtered[0] in FilterCategory(images, category);
    }
    if category != "all" && |filtered| == 0 {
      forall i | 0 <= i < |images|
        ensures images[i].category != category
      {
        assert images[i] !in filtered;
      }
    }
  }

  /** Every image the gallery shows for a category other than `all` has that category. */
  lemma GalleryShowsOnlyCategory(images: seq<PortfolioImage>, category: string, x: PortfolioImage)
    requires category != "all" && GalleryFor(images, category).Gallery?
    requires x in GalleryFor(images, category).items
    ensures x in images && x.category == category
  {
    var filtered := FilterCategory(images, category);
    var items := GalleryFor(images, category).items;
    FilterMembership(images, category);
    assert items == filtered[..|items|];
    assert x in filtered;
  }

  class PortfolioManager {
    const apiBaseUrl: string
    var portfolioImages: seq<PortfolioImage>
    var grid: GalleryView

    /** The constructor, before init(): no images, nothing in the grid. */
    constructor()
      ensures apiBaseUrl == ApiBaseUrl && portfolioImages == [] && grid == Blank
    {
      apiBaseUrl := ApiBaseUrl;
      portfolioImages := [];
      grid := Blank;
    }

    /** init(): loads the list, then shows every category. */
    method Init(outcome: LoadOutcome)
      modifies this`portfolioImages, this`grid
      ensures portfolioImages ==
        (match outcome case Loaded(cs) => Flatten(apiBaseUrl, cs) case LoadFailed => FallbackImages)
      ensures grid == GalleryFor(portfolioImages, "all")
    {
      LoadImagesFromApi(outcome);
      DisplayPortfolioItems("all");
    }

    /**
     * loadImagesFromAPI: on a decoded answer the list is rebuilt by pushing,
     * category by category, one entry per image; any failure loads the fallback list.
     */
    method LoadImagesFromApi(outcome: LoadOutcome)
      modifies this`portfolioImages
      ensures portfolioImages ==
        (match outcome case Loaded(cs) => Flatten(apiBaseUrl, cs) case LoadFailed => FallbackImages)
    {
      match outcome {
        case LoadFailed =>
          LoadFallbackImages();
        case Loaded(cs) =>
          portfolioImages := [];
          var c := 0;
          while c < |cs|
            invariant 0 <= c <= |cs|
            invariant portfolioImages == Flatten(apiBaseUrl, cs[..c])
          {
            var images := cs[c].images;
            var j := 0;
            while j < |images|
              invariant 0 <= j <= |images|
              invariant portfolioImages == Flatten(apiBaseUrl, cs[..c]) + CategoryEntries(apiBaseUrl, cs[c])[..j]
            {
              portfolioImages := portfolioImages + [Entry(apiBaseUrl, cs[c].name, images[j])];
              j := j + 1;
            }
            assert cs[..c + 1][..c] == cs[..c];
            c := c + 1;
          }
          assert cs[..c] == cs;
      }
    }

    /** loadFallbackImages: the fixed nine-image list replaces the current one. */
    method LoadFallbackImages()
      modifies this`portfolioImages
      ensures portfolioImages == FallbackImages
    {
      portfolioImages := FallbackImages;
    }

    /** displayPortfolioItems: fills the grid from the images of `category`. */
    method DisplayPortfolioItems(category: string)
      modifies this`grid
      ensures grid == GalleryFor(portfolioImages, category)
    {
      var filteredImages := if category == "all" then portfolioImages else FilterCategory(portfolioImages, category);
      var displayImages := if |filteredImages| <= DisplayLimit then filteredImages else filteredImages[..DisplayLimit];
      if |displayImages| == 0 {
        grid := NoImagesMessage;
      } else {
        grid := Gallery(displayImages);
      }
    }
  }
}
