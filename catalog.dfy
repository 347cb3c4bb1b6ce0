/**
 * The main VR menu: a catalog of categories, each an ordered list of photo
 * or video items, with one category selected and its items shown as
 * content buttons.
 */
module Catalog {
  import opened Runtime

  datatype ContentType = Photo | Video

  const ThumbnailFolder: string := "Thumbnails/"

  /**
   * A photo or video entry.  The C# class `ContentItem` has only private setters,
   * assigned once by its constructor, so it is a value here; the datatype
   * constructor stores title, resource path and type exactly as given.
   */
  datatype ContentItem = ContentItem(title: string, resourcePath: string, contentType: ContentType)
  {
    /**
     * Derived from the title on every call, never stored: the thumbnail
     * folder followed by the title with every capital lowered, one
     * character per title character and none of them upper case.  Titles
     * that differ only in case therefore share their thumbnail.
     */
    function ThumbnailPath(): (p: string)
      ensures |p| == |ThumbnailFolder| + |title| && p[..|ThumbnailFolder|] == ThumbnailFolder
      ensures forall i :: 0 <= i < |title| ==> p[|ThumbnailFolder| + i] == LowerChar(title[i])
      ensures forall i :: |ThumbnailFolder| <= i < |p| ==> !IsUpper(p[i])
    {
      ThumbnailFolder + ToLower(title)
    }
  }

  /** A category: a fixed name and an append-only list of items in display order. */
  class Category {
    const name: string
    var contents: seq<ContentItem>

    constructor (name: string)
      ensures this.name == name && contents == []
    {
      this.name := name;
      contents := [];
    }

    /** Adds `item` after every item already present. */
    method AddContent(item: ContentItem)
      modifies this
      ensures contents == old(contents) + [item]
      ensures |contents| == |old(contents)| + 1 && contents[..|old(contents)|] == old(contents)
    {
      contents := contents + [item];
    }
  }

  // The demonstration catalog built at start-up.

  const PhotosName: string := "Fotos 360°"
  const VideosName: string := "Vídeos 360°"

  const DemoPhotos: seq<ContentItem> := [
    ContentItem("Praia", "Photos/beach", Photo),
    ContentItem("Montanha", "Photos/mountain", Photo),
    ContentItem("Cidade", "Photos/city", Photo)
  ]

  const DemoVideos: seq<ContentItem> := [
    ContentItem("Tour Virtual", "Videos/tour", Video),
    ContentItem("Natureza", "Videos/nature", Video)
  ]

  predicate AllOfType(items: seq<ContentItem>, t: ContentType) {
    forall i :: 0 <= i < |items| ==> items[i].contentType == t
  }

  /** Every demo item's type matches its category, and every resource path is non-empty. */
  lemma DemoCatalogConsistent()
    ensures AllOfType(DemoPhotos, Photo) && AllOfType(DemoVideos, Video)
    ensures forall i :: 0 <= i < |DemoPhotos| ==> !IsNullOrEmpty(Some(DemoPhotos[i].resourcePath))
    ensures forall i :: 0 <= i < |DemoVideos| ==> !IsNullOrEmpty(Some(DemoVideos[i].resourcePath))
  {
  }

  /**
   * The menu component.  `categoryButtons` lists the category each menu
   * button selects (left to right) and `contentButtons` the item each
   * content button opens (top to bottom); a button's caption is its
   * category's name or its item's title.
   */
  class VRMenuManager {
    var categories: seq<Category>
    var currentCategory: Option<Category>
    var title: string
    var categoryButtons: seq<Category>
    var contentButtons: seq<ContentItem>

    constructor ()
      ensures categories == [] && currentCategory == None
      ensures title == "" && categoryButtons == [] && contentButtons == []
    {
      categories := [];
      currentCategory := None;
      title := "";
      categoryButtons := [];
      contentButtons := [];
    }

    /**
     * Builds the catalog, one button per category, and selects the first
     * category, which is always the photo category on a fresh menu.
     */
    method Start()
      modifies this
      ensures |categories| == |old(categories)| + 2
      ensures categories[..|old(categories)|] == old(categories)
      ensures forall c :: c in old(categories) ==> c.contents == old(c.contents)
      ensures var k := |old(categories)|;
        && categories[k].name == PhotosName && categories[k].contents == DemoPhotos
        && categories[k + 1].name == VideosName && categories[k + 1].contents == DemoVideos
      ensures categoryButtons == categories
      ensures currentCategory == Some(categories[0])
      ensures title == categories[0].name && contentButtons == categories[0].contents
    {
      LoadCategories();
      CreateCategoryButtons();
      SelectDefaultCategory();
    }

    /** The default selection made by `Start`: the first category, if there is one. */
    method SelectDefaultCategory()
      modifies this`currentCategory, this`title, this`contentButtons
      ensures currentCategory == if |categories| > 0 then Some(categories[0]) else old(currentCategory)
      ensures |categories| > 0 ==> title == categories[0].name && contentButtons == categories[0].contents
      ensures |categories| == 0 ==> title == old(title) && contentButtons == old(contentButtons)
    {
      if |categories| > 0 {
        SelectCategory(categories[0]);
      }
    }

    /**
     * Appends the two demo categories, photos then videos, each a fresh
     * category holding its demo items in order.  Existing categories and
     * their contents are untouched.
     */
    method LoadCategories()
      modifies this`categories
      ensures |categories| == |old(categories)| + 2
      ensures categories[..|old(categories)|] == old(categories)
      ensures forall c :: c in old(categories) ==> c.contents == old(c.contents)
      ensures var photos, videos := categories[|old(categories)|], categories[|old(categories)| + 1];
        && fresh(photos) && fresh(videos) && photos != videos
        && photos.name == PhotosName && photos.contents == DemoPhotos
        && videos.name == VideosName && videos.contents == DemoVideos
    {
      var photos := new Category(PhotosName);
      photos.AddContent(ContentItem("Praia", "Photos/beach", Photo));
      photos.AddContent(ContentItem("Montanha", "Photos/mountain", Photo));
      photos.AddContent(ContentItem("Cidade", "Photos/city", Photo));
      categories := categories + [photos];

      var videos := new Category(VideosName);
      videos.AddContent(ContentItem("Tour Virtual", "Videos/tour", Video));
      videos.AddContent(ContentItem("Natureza", "Videos/nature", Video));
      categories := categories + [videos];
    }

    /** Replaces the menu buttons by one per category, in catalog order. */
    method CreateCategoryButtons()
      modifies this`categoryButtons
      ensures categoryButtons == categories
    {
      categoryButtons := [];
      var i := 0;
      while i < |categories|
        invariant 0 <= i <= |categories|
        invariant categoryButtons == categories[..i]
      {
        categoryButtons := categoryButtons + [categories[i]];
        i := i + 1;
      }
    }

    /**
     * Records `category` as the current one, shows its name as the title and
     * replaces the content buttons by one per item, in the category's order.
     * The catalog itself is not changed.
     */
    method SelectCategory(category: Category)
      modifies this`currentCategory, this`title, this`contentButtons
      ensures currentCategory == Some(category)
      ensures title == category.name
      ensures contentButtons == category.contents
    {
      currentCategory := Some(category);
      title := category.name;

      contentButtons := [];
      var i := 0;
      while i < |category.contents|
        invariant 0 <= i <= |category.contents|
        invariant currentCategory == Some(category) && title == category.name
        invariant contentButtons == category.contents[..i]
      {
        contentButtons := contentButtons + [category.contents[i]];
        i := i + 1;
      }
    }

    /**
     * Opening an item only logs it: loading the viewer scene is not part of
     * the component, so no catalog or selection state changes.
     */
    method OpenContent(item: ContentItem)
      ensures unchanged(this)
    {
    }
  }

  /** After start-up on a fresh menu the photo category is selected and its three items are shown. */
  method StartScenario() returns (menu: VRMenuManager)
    ensures |menu.categories| == 2
    ensures menu.categories[0].name == PhotosName && menu.categories[1].name == VideosName
    ensures menu.currentCategory == Some(menu.categories[0])
    ensures menu.title == PhotosName && menu.contentButtons == DemoPhotos
  {
    menu := new VRMenuManager();
    menu.Start();
  }
}
