/**
  * The mock image-processing service: building the result of a cartoon
  * request, saving a result, and the link that downloads it.
  *
  * The service's clock and random generator are parameters: `createdAt`
  * stands for `new Date().toISOString()`, `random36` for the base-36 digits
  * cut from `Math.random()`, and `now` for `Date.now()`.
  */
module Api {
  import opened Wrappers
  import opened Strings

  /** The options bundle of a request. */
  datatype Settings = Settings(enhanceDetails: bool, preserveColors: bool)

  /** What the page sends: the encoded image, the style id, the options. */
  datatype ProcessPayload = ProcessPayload(image: string, style: string, settings: Option<Settings>)

  datatype ProcessedImage = ProcessedImage(
    id: string,
    originalImage: string,
    cartoonImage: string,
    style: string,
    createdAt: string)

  /** How a promise for a processed image settles. */
  datatype Outcome = Resolved(image: ProcessedImage) | Rejected(reason: string)

  datatype SaveResult = SaveResult(success: bool)

  /** An `<a>` element built for a download. */
  datatype Anchor = Anchor(href: string, download: string)

  /** The children of `document.body`, as far as a download touches them. */
  datatype Element = Link(anchor: Anchor) | OtherElement(tag: string)

  const PlaceholderCartoon: string := "/avatar-cartoon.png"
  const IdPrefix: string := "img_"
  const FilenamePrefix: string := "toonifyme-"
  const FilenameSuffix: string := ".png"

  /**
    * The settled value of `processImage`: it always resolves, echoes the
    * image and style of the request and answers with the fixed placeholder.
    */
  function ProcessImage(payload: ProcessPayload, random36: string, createdAt: string): (r: Outcome)
    ensures r.Resolved?
    ensures r.image.originalImage == payload.image && r.image.style == payload.style
    ensures r.image.cartoonImage == PlaceholderCartoon
    ensures IdPrefix <= r.image.id && r.image.createdAt == createdAt
  {
    Resolved(ProcessedImage(IdPrefix + random36, payload.image, PlaceholderCartoon, payload.style, createdAt))
  }

  /** The settled value of `saveProcessedImage`: it always reports success. */
  function SaveProcessedImage(image: ProcessedImage): (r: SaveResult)
    ensures r.success
  {
    SaveResult(true)
  }

  /** The suggested file name of a download: prefix, style, `-`, timestamp, `.png`. */
  function DownloadName(style: string, now: nat): (name: string)
    ensures FilenamePrefix <= name && EndsWith(name, FilenameSuffix)
  {
    var name := FilenamePrefix + style + "-" + NatToDecimal(now) + FilenameSuffix;
    assert name[|name| - |FilenameSuffix|..] == FilenameSuffix;
    name
  }

  /**
    * Reads a style and a timestamp back from a download name; the timestamp
    * is the digits after the last `-`, so a style may itself contain `-`.
    */
  function ParseDownloadName(name: string): Option<(string, nat)> {
    var n := |FilenamePrefix| + |FilenameSuffix|;
    if |name| < n || name[..|FilenamePrefix|] != FilenamePrefix || !EndsWith(name, FilenameSuffix) then None
    else
      var middle := name[|FilenamePrefix|..|name| - |FilenameSuffix|];
      match LastIndexOf(middle, '-')
      case None => None
      case Some(j) =>
        var digits := middle[j + 1..];
        if digits != [] && AllDigits(digits) then Some((middle[..j], DecimalValue(digits))) else None
  }

  /** The download name determines the style and the timestamp it was built from. */
  lemma {:induction false} DownloadNameRoundTrip(style: string, now: nat)
    ensures ParseDownloadName(DownloadName(style, now)) == Some((style, now))
  {
    var digits := NatToDecimal(now);
    var name := DownloadName(style, now);
    assert name == FilenamePrefix + (style + "-" + digits) + FilenameSuffix;
    var middle := name[|FilenamePrefix|..|name| - |FilenameSuffix|];
    assert middle == style + ['-'] + digits;
    assert name[..|FilenamePrefix|] == FilenamePrefix;
    LastIndexOfSeparator(style, '-', digits);
    assert middle[..|style|] == style;
    assert middle[|style| + 1..] == digits;
    DecimalRoundTrip(now);
  }

  /**
    * `downloadProcessedImage`: builds a link to the cartoon with the
    * suggested name, appends it to the body, clicks it and removes it again.
    */
  method DownloadProcessedImage(body: seq<Element>, image: ProcessedImage, now: nat)
    returns (clicked: Anchor, bodyAfter: seq<Element>)
    ensures clicked.href == image.cartoonImage
    ensures clicked.download == DownloadName(image.style, now)
    ensures bodyAfter == body
  {
    var link := Anchor(image.cartoonImage, DownloadName(image.style, now));
    var withLink := body + [Link(link)];
    clicked := withLink[|withLink| - 1].anchor;
    bodyAfter := withLink[..|withLink| - 1];
  }
}
