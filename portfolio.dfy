/** The home page's rendering rules for portfolio documents: which stored image a
    document shows, the stock image chosen when it names none, the card text preview, and
    how many cards and gallery tiles are drawn. Fetching the documents is not modelled:
    the list of documents is a parameter. */
module Portfolio {
  import opened Common
  import Storage

  /** A portfolio document as far as the page reads it. Every field is a string; a field
      the document lacks is the empty string, which is falsy exactly as `undefined` is. */
  datatype PortfolioItem = PortfolioItem(
    imageId: string,
    image: string,
    image_id: string,
    fileId: string,
    thumbnail: string,
    title: string,
    serviceName: string,
    shortDescription: string,
    description: string)

  /** The fields tried for a stored image, in the order of the `||` chain. */
  function ImageIdFields(item: PortfolioItem): seq<string>
  {
    [item.imageId, item.image, item.image_id, item.fileId, item.thumbnail]
  }

  /** `item.imageId || item.image || item.image_id || item.fileId || item.thumbnail`:
      the first non-empty candidate, or empty when all five are empty. */
  function ResolveImageId(item: PortfolioItem): (id: string)
    ensures id == "" <==> forall k :: 0 <= k < 5 ==> ImageIdFields(item)[k] == ""
    ensures id != "" ==>
              exists k :: 0 <= k < 5 && ImageIdFields(item)[k] == id &&
                          forall j :: 0 <= j < k ==> ImageIdFields(item)[j] == ""
  {
    var fields := ImageIdFields(item);
    if item.imageId != "" then
      assert fields[0] == item.imageId;
      item.imageId
    else if item.image != "" then
      assert fields[1] == item.image;
      item.image
    else if item.image_id != "" then
      assert fields[2] == item.image_id;
      item.image_id
    else if item.fileId != "" then
      assert fields[3] == item.fileId;
      item.fileId
    else
      assert fields[4] == item.thumbnail;
      assert fields[0] == "" && fields[1] == "" && fields[2] == "" && fields[3] == "";
      item.thumbnail
  }

  /** The stock images are photos of one image host, told apart by their photo id. */
  const StockPrefix: string := "https://images.unsplash.com/photo-"
  const StockQuery: string := "?ixlib=rb-4.0.3&auto=format&fit=crop&w=800&q=80"

  function StockImage(photoId: string): string
  {
    StockPrefix + photoId + StockQuery
  }

  const PhotoImage: string := StockImage("1554048612-b6a482bc67e5")
  const VideoImage: string := StockImage("1516035069371-29a1b244cc32")
  const DesignImage: string := StockImage("1558655146-364adaf1fcc9")
  const DefaultImage: string := StockImage("1542744095-fcf48d80b0fd")

  /** `item.title || item.serviceName || ''`. */
  function FallbackTitle(item: PortfolioItem): (t: string)
    ensures item.title != "" ==> t == item.title
    ensures item.title == "" ==> t == item.serviceName
  {
    if item.title != "" then item.title else item.serviceName
  }

  /** The stock image picked from a title by the ordered, case-insensitive keyword tests. */
  function FallbackImage(title: string): (url: string)
    ensures url in {PhotoImage, VideoImage, DesignImage, DefaultImage}
    ensures StockPrefix <= url
  {
    if Includes(ToLower(title), "photo") || Includes(ToLower(title), "photography") then PhotoImage
    else if Includes(ToLower(title), "video") || Includes(ToLower(title), "videography") then VideoImage
    else if Includes(ToLower(title), "design") || Includes(ToLower(title), "graphic") then DesignImage
    else DefaultImage
  }

  /** The keyword tests ignore case: a title and its lower-cased form get the same image,
      so "PHOTO SHOOT" and "photo shoot" are both shown with the photo image. */
  lemma FallbackImageIgnoresCase(title: string)
    ensures FallbackImage(ToLower(title)) == FallbackImage(title)
  {
    ToLowerIdempotent(title);
  }

  /** `getImageUrl`: the storage view URL of the first image id found, otherwise a stock
      image chosen from the title. The result is never empty. */
  function GetImageUrl(env: Storage.Env, item: PortfolioItem): (url: string)
    ensures url != ""
    ensures ResolveImageId(item) != "" ==>
              Storage.GetFileViewUrl(env, ResolveImageId(item)) == Some(url)
    ensures ResolveImageId(item) == "" ==> url == FallbackImage(FallbackTitle(item))
  {
    var imageId := ResolveImageId(item);
    if imageId != "" then
      env.endpoint + "/storage/buckets/" + env.bucketId + "/files/" + imageId + "/view?project=" + env.projectId
    else
      FallbackImage(FallbackTitle(item))
  }

  /** The longer keywords "photography" and "videography" are never decisive: each test
      behaves as if it tried only its first keyword. A title naming both a photo and a
      video gets the photo image. */
  lemma FallbackImageByKeyword(title: string)
    ensures Includes(ToLower(title), "photo") ==> FallbackImage(title) == PhotoImage
    ensures !Includes(ToLower(title), "photo") && Includes(ToLower(title), "video") ==>
              FallbackImage(title) == VideoImage
    ensures !Includes(ToLower(title), "photo") && !Includes(ToLower(title), "video") ==>
              FallbackImage(title) ==
                if Includes(ToLower(title), "design") || Includes(ToLower(title), "graphic")
                then DesignImage else DefaultImage
  {
    var lower := ToLower(title);
    if Includes(lower, "photography") {
      IncludesPrefix(lower, "photography", "photo");
    }
    if Includes(lower, "videography") {
      IncludesPrefix(lower, "videography", "video");
    }
  }

  /** Each stock image is chosen exactly under its own keyword condition. */
  lemma FallbackImageClassified(title: string)
    ensures FallbackImage(title) == PhotoImage <==> Includes(ToLower(title), "photo")
    ensures FallbackImage(title) == VideoImage <==>
              !Includes(ToLower(title), "photo") && Includes(ToLower(title), "video")
    ensures FallbackImage(title) == DesignImage <==>
              !Includes(ToLower(title), "photo") && !Includes(ToLower(title), "video") &&
              (Includes(ToLower(title), "design") || Includes(ToLower(title), "graphic"))
  {
    FallbackImageByKeyword(title);
    var k := |StockPrefix| + 3;
    assert PhotoImage[k] == '4' && VideoImage[k] == '6' && DesignImage[k] == '8' && DefaultImage[k] == '2';
  }

  /** The text of a portfolio card, as the two adjacent expressions that render it. */
  datatype CardText = CardText(text: string, ellipsis: string)

  const PreviewLength: nat := 100

  /** `service.shortDescription || service.description?.substring(0, 100)` followed by
      `service.description?.length > 100 ? '...' : ''`. */
  function CardDescription(item: PortfolioItem): (c: CardText)
    ensures item.shortDescription != "" ==> c.text == item.shortDescription
    ensures item.shortDescription == "" ==>
              c.text <= item.description &&
              |c.text| == if |item.description| <= PreviewLength then |item.description| else PreviewLength
    ensures c.ellipsis == "..." <==> |item.description| > PreviewLength
    ensures c.ellipsis == "" <==> |item.description| <= PreviewLength
  {
    CardText(
      if item.shortDescription != "" then item.shortDescription
      else Take(item.description, PreviewLength),
      if |item.description| > PreviewLength then "..." else "")
  }

  /** Without a short description, a description of at most 100 characters is shown whole,
      and a longer one is cut to its first 100 characters followed by "...". */
  lemma CardDescriptionShowsDescription(item: PortfolioItem)
    requires item.shortDescription == ""
    ensures |item.description| <= PreviewLength ==>
              CardDescription(item).text + CardDescription(item).ellipsis == item.description
    ensures |item.description| > PreviewLength ==>
              CardDescription(item).text + CardDescription(item).ellipsis ==
              item.description[..PreviewLength] + "..."
  {
    var c := CardDescription(item);
    if |item.description| <= PreviewLength {
      assert c.text == item.description;
    } else {
      assert c.text == item.description[..PreviewLength];
    }
  }

  const CardLimit: nat := 4
  const GalleryLimit: nat := 8

  /** `portfolioServices.slice(0, 4)`: the first four documents, in order. */
  function Cards(items: seq<PortfolioItem>): (r: seq<PortfolioItem>)
    ensures |r| <= CardLimit && r <= items
    ensures |items| >= CardLimit ==> |r| == CardLimit
    ensures |items| < CardLimit ==> r == items
  {
    Take(items, CardLimit)
  }

  /** The image URL the page computes for each document under `env`. */
  function ImageUrlOf(env: Storage.Env): PortfolioItem -> string
  {
    (item: PortfolioItem) => GetImageUrl(env, item)
  }

  /** The gallery tiles drawn for `items[i..]`, with `imageUrl` the page's URL function:
      the document at `index` is drawn iff `getImageUrl(service) && index < 8`. */
  function GalleryFrom(imageUrl: PortfolioItem -> string, items: seq<PortfolioItem>, i: nat): (r: seq<PortfolioItem>)
    requires i <= |items|
    ensures |r| <= |items| - i
    ensures forall x :: x in r ==> x in items[i..] && imageUrl(x) != ""
    decreases |items| - i
  {
    if i == |items| then []
    else
      assert forall x :: x in items[i + 1..] ==> x in items[i..];
      (if imageUrl(items[i]) != "" && i < GalleryLimit then [items[i]] else [])
      + GalleryFrom(imageUrl, items, i + 1)
  }

  /** The gallery: never more tiles than documents, and only documents of the list. */
  function Gallery(env: Storage.Env, items: seq<PortfolioItem>): (r: seq<PortfolioItem>)
    ensures |r| <= |items|
    ensures forall x :: x in r ==> x in items
  {
    assert items[0..] == items;
    GalleryFrom(ImageUrlOf(env), items, 0)
  }

  /** The index one past the last gallery tile of `n` documents. */
  function GalleryEnd(n: nat): (e: nat)
    ensures e <= n && e <= GalleryLimit
    ensures e == n || e == GalleryLimit
  {
    if n <= GalleryLimit then n else GalleryLimit
  }

  /** When no URL is empty, the gallery draws, from index `i` on, exactly the documents at
      indices `i .. 7`. */
  lemma {:induction false} GalleryFromIsWindow(
    imageUrl: PortfolioItem -> string, items: seq<PortfolioItem>, i: nat)
    requires i <= |items|
    requires forall item :: imageUrl(item) != ""
    ensures i <= GalleryEnd(|items|) ==> GalleryFrom(imageUrl, items, i) == items[i..GalleryEnd(|items|)]
    ensures i >= GalleryLimit ==> GalleryFrom(imageUrl, items, i) == []
    decreases |items| - i
  {
    if i < |items| {
      GalleryFromIsWindow(imageUrl, items, i + 1);
      var hi := GalleryEnd(|items|);
      if i < GalleryLimit {
        assert GalleryFrom(imageUrl, items, i) == [items[i]] + GalleryFrom(imageUrl, items, i + 1);
        assert items[i..hi] == [items[i]] + items[i + 1..hi];
      } else {
        assert GalleryFrom(imageUrl, items, i) == GalleryFrom(imageUrl, items, i + 1);
      }
    }
  }

  /** Because every document has a non-empty image URL, the gallery is exactly the first
      eight documents, in order. */
  lemma GalleryIsFirstEight(env: Storage.Env, items: seq<PortfolioItem>)
    ensures Gallery(env, items) == Take(items, GalleryLimit)
  {
    var imageUrl := ImageUrlOf(env);
    assert forall item :: imageUrl(item) == GetImageUrl(env, item);
    GalleryFromIsWindow(imageUrl, items, 0);
    assert items[0..|items|] == items;
  }
}
