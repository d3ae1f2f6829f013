/** The public gallery (src/pages/Gallery.tsx): the media-type tabs and the
    featured strip over the items `fetchGallery` returned. */
module GalleryPage {

  import Seqs
  import Api

  /** The tabs: 'all', 'image' and 'video'. */
  datatype MediaFilter = AllMedia | Images | Videos {
    function Name(): (r: string) {
      match this
      case AllMedia => "all"
      case Images => "image"
      case Videos => "video"
    }
  }

  predicate Shown(f: MediaFilter, item: Api.GalleryItem) {
    f == AllMedia || item.mediaType == f.Name()
  }

  predicate Featured(item: Api.GalleryItem) { item.isFeatured }

  /** `filteredItems`. */
  function FilteredItems(items: seq<Api.GalleryItem>, f: MediaFilter): (r: seq<Api.GalleryItem>)
    ensures Seqs.IsSubsequence(r, items)
    ensures !f.AllMedia? ==> forall x :: x in r <==> x in items && x.mediaType == f.Name()
    ensures forall x :: multiset(r)[x] == if Shown(f, x) then multiset(items)[x] else 0
  {
    Seqs.FilterIsSubsequence(items, (x: Api.GalleryItem) => Shown(f, x));
    Seqs.FilterCounts(items, (x: Api.GalleryItem) => Shown(f, x));
    Seqs.Filter(items, (x: Api.GalleryItem) => Shown(f, x))
  }

  /** The 'all' tab shows every item in order. */
  lemma AllTabShowsEverything(items: seq<Api.GalleryItem>)
    ensures FilteredItems(items, AllMedia) == items
  {
    Seqs.FilterAllKept(items, (x: Api.GalleryItem) => Shown(AllMedia, x));
  }

  /** `featuredItems`: exactly the featured items, in order; the active tab
      plays no part. */
  function FeaturedItems(items: seq<Api.GalleryItem>): (r: seq<Api.GalleryItem>)
    ensures Seqs.IsSubsequence(r, items)
    ensures forall x :: x in r <==> x in items && x.isFeatured
    ensures forall x :: multiset(r)[x] == if x.isFeatured then multiset(items)[x] else 0
  {
    Seqs.FilterIsSubsequence(items, Featured);
    Seqs.FilterCounts(items, Featured);
    Seqs.Filter(items, Featured)
  }

  /** The image and video tabs never share an item, and an item of any other
      media type shows only under 'all'. */
  lemma TabsPartition(items: seq<Api.GalleryItem>)
    ensures forall x :: x in FilteredItems(items, Images) ==> x !in FilteredItems(items, Videos)
    ensures forall x :: x in items && x.mediaType != "image" && x.mediaType != "video" ==>
      x in FilteredItems(items, AllMedia) && x !in FilteredItems(items, Images) && x !in FilteredItems(items, Videos)
  {
    AllTabShowsEverything(items);
  }

  /** The image and video tabs together hold no more than the whole list. */
  lemma TabsCount(items: seq<Api.GalleryItem>)
    ensures |FilteredItems(items, Images)| + |FilteredItems(items, Videos)| <= |items|
  {
    var notImage := (x: Api.GalleryItem) => !Shown(Images, x);
    Seqs.FilterPartition(items, (x: Api.GalleryItem) => Shown(Images, x), notImage);
    Seqs.FilterFilter(items, notImage, (x: Api.GalleryItem) => Shown(Videos, x), (x: Api.GalleryItem) => Shown(Videos, x));
  }
}
