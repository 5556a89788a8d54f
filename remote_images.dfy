/**
 * The image list both providers build from a fetched record's images: the first image is Primary, the
 * rest are Backdrop, in the catalog's order, all under the provider name "Discogs".
 */
module RemoteImages {
  import opened Wrappers
  import opened MediaBrowser
  import opened DiscogsClient
  import Constants

  function Info(image: Image, imageType: ImageType): RemoteImageInfo {
    RemoteImageInfo(Constants.Name, image.uri, imageType)
  }

  /**
   * The image list as the providers' code builds it: `images[0]` is read unconditionally once the
   * array is known to be non-null, so an empty array raises IndexOutOfRangeException.
   */
  function ImageListAsWritten(images: seq<Image>): (r: Outcome<seq<RemoteImageInfo>>)
  {
    if |images| == 0 then Threw(IndexOutOfRangeException)
    else Returned([Info(images[0], Primary)] + seq(|images| - 1, i requires 0 <= i < |images| - 1 => Info(images[i + 1], Backdrop)))
  }

  /** The image list with the empty array handled: one entry per image, and none for no images. */
  function ImageList(images: seq<Image>): (r: seq<RemoteImageInfo>)
  {
    seq(|images|, i requires 0 <= i < |images| => Info(images[i], if i == 0 then Primary else Backdrop))
  }

  /** The list has one entry per image, in order: the first Primary, the others Backdrop, all from "Discogs". */
  lemma ImageListShape(images: seq<Image>)
    ensures |ImageList(images)| == |images|
    ensures forall i :: 0 <= i < |images| ==>
      ImageList(images)[i].url == images[i].uri && ImageList(images)[i].providerName == "Discogs" &&
      (ImageList(images)[i].imageType == Primary <==> i == 0)
  {
  }

  /** An empty image array makes the code as written throw, where the intended result is an empty list. */
  lemma EmptyImageArrayThrows()
    ensures ImageListAsWritten([]) == Threw(IndexOutOfRangeException)
    ensures ImageList([]) == []
  {
  }

  /** On every non-empty image array the code as written and the corrected list agree. */
  lemma ImageListAgreesWhenNonEmpty(images: seq<Image>)
    requires |images| > 0
    ensures ImageListAsWritten(images) == Returned(ImageList(images))
  {
    var written := ImageListAsWritten(images).value;
    assert |written| == |images|;
    forall i | 0 <= i < |images| ensures written[i] == ImageList(images)[i] {
      if i > 0 {
        assert written[i] == Info(images[i], Backdrop);
      }
    }
    assert written == ImageList(images);
  }
}
