/**
  * The avatar workflow of the style-selection page: the style registry, the
  * page state, the events that change it, and the two views derived from it
  * (the result pane and the Download button).
  *
  * The asynchronous `processImage` is split into two events: `Start`, the
  * synchronous part that runs when a request is issued, and `Settle`, which
  * runs when the service's promise settles. Settling is not tied to the
  * request that produced it, exactly as in the page: whichever request
  * settles last writes the state.
  */
module StyleSelectionPage {
  import opened Wrappers
  import opened Strings
  import Api

  datatype StyleOption = StyleOption(id: string, name: string, description: string, emoji: string)

  /** The fixed, ordered style registry. */
  const StyleOptions: seq<StyleOption> := [
    StyleOption("simpsons", "Simpsons", "Yellow-skinned cartoon style inspired by The Simpsons",
                "\U{1F468}\U{200D}\U{1F469}\U{200D}\U{1F467}\U{200D}\U{1F466}"),
    StyleOption("familyguy", "Family Guy", "Rounded shapes and bold lines in Family Guy style",
                "\U{1F468}\U{200D}\U{1F468}\U{200D}\U{1F466}"),
    StyleOption("southpark", "South Park", "Simple and colorful South Park inspired characters",
                "\U{1F466}"),
    StyleOption("disney", "Disney", "Classic Disney animation inspired character style",
                "\U{1F9DA}")
  ]

  const DefaultStyle: string := "simpsons"

  /** The registry holds four styles with distinct ids, the default first. */
  lemma StyleRegistry()
    ensures |StyleOptions| == 4 && StyleOptions[0].id == DefaultStyle
    ensures forall i, j :: 0 <= i < j < |StyleOptions| ==> StyleOptions[i].id != StyleOptions[j].id
    ensures StyleOptions[1].id == "familyguy" && StyleOptions[2].id == "southpark" && StyleOptions[3].id == "disney"
  {
    assert StyleOptions[0].id == "simpsons" && StyleOptions[1].id == "familyguy";
    assert StyleOptions[2].id == "southpark" && StyleOptions[3].id == "disney";
  }

  /** `Array.prototype.find` on the registry by id: the first option with that id. */
  function FindStyle(options: seq<StyleOption>, id: string): (r: Option<StyleOption>)
    ensures r.None? <==> forall k :: 0 <= k < |options| ==> options[k].id != id
    ensures r.Some? ==> exists k :: 0 <= k < |options| && options[k] == r.value && r.value.id == id &&
                                   forall j :: 0 <= j < k ==> options[j].id != id
  {
    if options == [] then None
    else if options[0].id == id then Some(options[0])
    else
      var r := FindStyle(options[1..], id);
      assert forall k :: 1 <= k < |options| ==> options[k] == options[1..][k - 1];
      if r.Some? then
        var k :| 0 <= k < |options[1..]| && options[1..][k] == r.value && r.value.id == id &&
                 forall j :: 0 <= j < k ==> options[1..][j].id != id;
        assert options[k + 1] == r.value;
        r
      else r
  }

  /** The style whose name the page shows: the selected one, or the first when the id is unknown. */
  function SelectedStyleObj(selected: string): (r: StyleOption)
    ensures r in StyleOptions
    ensures (exists k :: 0 <= k < |StyleOptions| && StyleOptions[k].id == selected) ==> r.id == selected
    ensures (forall k :: 0 <= k < |StyleOptions| ==> StyleOptions[k].id != selected) ==> r == StyleOptions[0]
  {
    match FindStyle(StyleOptions, selected)
    case Some(o) => o
    case None => StyleOptions[0]
  }

  datatype PageState = PageState(
    selectedStyle: string,
    uploadedImage: Option<string>,
    cartoonImage: Option<string>,
    isProcessing: bool,
    isDragging: bool,
    processedImageData: Option<Api.ProcessedImage>)

  const Initial: PageState := PageState(DefaultStyle, None, None, false, false, None)

  /** A file handed over by the picker or by a drop, with its declared media type. */
  datatype FileInfo = FileInfo(name: string, mediaType: string)

  /**
    * A `FileReader` a handler has started; `style` is the `selectedStyle`
    * that handler's closure captured, which the load callback uses.
    */
  datatype PendingRead = PendingRead(style: string)

  /** A new page state together with the request it issued, if any. */
  datatype Transition = Transition(next: PageState, request: Option<Api.ProcessPayload>)

  /** Every request carries the same fixed options. */
  const RequestSettings: Api.Settings := Api.Settings(true, false)

  function Payload(image: string, style: string): (p: Api.ProcessPayload)
    ensures p.image == image && p.style == style
    ensures p.settings == Some(Api.Settings(enhanceDetails := true, preserveColors := false))
  {
    Api.ProcessPayload(image, style, Some(RequestSettings))
  }

  /** The synchronous part of `processImage`: busy, and the old cartoon cleared. */
  function Start(s: PageState): PageState {
    s.(isProcessing := true, cartoonImage := None)
  }

  /**
    * The continuation of `processImage`: a resolved request installs its
    * cartoon and result, a rejected one changes nothing else; either way
    * processing ends.
    */
  function Settle(s: PageState, outcome: Api.Outcome): (r: PageState)
    ensures !r.isProcessing
    ensures r.selectedStyle == s.selectedStyle && r.uploadedImage == s.uploadedImage && r.isDragging == s.isDragging
    ensures outcome.Resolved? ==>
              r.cartoonImage == Some(outcome.image.cartoonImage) && r.processedImageData == Some(outcome.image)
    ensures outcome.Rejected? ==>
              r.cartoonImage == s.cartoonImage && r.processedImageData == s.processedImageData
  {
    match outcome
    case Resolved(image) => s.(cartoonImage := Some(image.cartoonImage), processedImageData := Some(image), isProcessing := false)
    case Rejected(_) => s.(isProcessing := false)
  }

  /**
    * `handleStyleSelect`: the style is always recorded; a request for the
    * same image and the new style is issued only when an image is present.
    */
  function SelectStyle(s: PageState, value: string): (t: Transition)
    ensures t.next.selectedStyle == value
    ensures t.request.Some? <==> Truthy(s.uploadedImage)
    ensures t.request.Some? ==> t.request.value == Payload(s.uploadedImage.value, value)
    ensures t.request.Some? ==>
              t.next.isProcessing && t.next.cartoonImage.None? &&
              t.next.uploadedImage == s.uploadedImage && t.next.processedImageData == s.processedImageData &&
              t.next.isDragging == s.isDragging
    ensures t.request.None? ==> t.next == s.(selectedStyle := value)
  {
    var s' := s.(selectedStyle := value);
    if Truthy(s.uploadedImage) then Transition(Start(s'), Some(Payload(s.uploadedImage.value, value)))
    else Transition(s', None)
  }

  /** `handleFileUpload`: any chosen file is read, whatever its type. */
  function PickFile(s: PageState, file: Option<FileInfo>): (read: Option<PendingRead>)
    ensures read.Some? <==> file.Some?
    ensures read.Some? ==> read.value.style == s.selectedStyle
  {
    if file.Some? then Some(PendingRead(s.selectedStyle)) else None
  }

  /** Whether `handleDrop` accepts a dropped file: only declared image types. */
  predicate AcceptsDrop(file: Option<FileInfo>) {
    file.Some? && "image/" <= file.value.mediaType
  }

  /** `handleDrop`: dragging ends, and only an image file is read. */
  function Drop(s: PageState, file: Option<FileInfo>): (r: (PageState, Option<PendingRead>))
    ensures r.0 == s.(isDragging := false)
    ensures r.1.Some? <==> AcceptsDrop(file)
    ensures r.1.Some? ==> r.1.value.style == s.selectedStyle
  {
    (s.(isDragging := false), if AcceptsDrop(file) then Some(PendingRead(s.selectedStyle)) else None)
  }

  /**
    * The reader's load callback (shared by both paths): the decoded image
    * replaces the uploaded one and a request is issued for it with the
    * captured style.
    */
  function ImageLoaded(s: PageState, read: PendingRead, dataUrl: string): (t: Transition)
    ensures t.next.uploadedImage == Some(dataUrl)
    ensures t.request == Some(Payload(dataUrl, read.style))
    ensures t.next.isProcessing && t.next.cartoonImage.None?
    ensures t.next.selectedStyle == s.selectedStyle && t.next.processedImageData == s.processedImageData
    ensures t.next.isDragging == s.isDragging
  {
    Transition(Start(s.(uploadedImage := Some(dataUrl))), Some(Payload(dataUrl, read.style)))
  }

  /** What the result pane shows. */
  datatype Pane = Spinner | CartoonImage(src: string) | Placeholder

  function ResultPane(s: PageState): (p: Pane)
    ensures p.Spinner? <==> s.isProcessing
    ensures p.CartoonImage? <==> !s.isProcessing && Truthy(s.cartoonImage)
    ensures p.CartoonImage? ==> s.cartoonImage == Some(p.src)
  {
    if s.isProcessing then Spinner
    else if Truthy(s.cartoonImage) then CartoonImage(s.cartoonImage.value)
    else Placeholder
  }

  /** The Download button's `disabled={!cartoonImage || isProcessing}`, negated. */
  predicate DownloadEnabled(s: PageState): (b: bool)
    ensures b <==> Truthy(s.cartoonImage) && !s.isProcessing
  {
    !(!Truthy(s.cartoonImage) || s.isProcessing)
  }

  /** Every reachable state: a shown cartoon belongs to the stored result. */
  predicate Consistent(s: PageState) {
    s.cartoonImage.Some? ==>
      s.processedImageData.Some? && s.cartoonImage.value == s.processedImageData.value.cartoonImage
  }

  /** Download is enabled exactly when the pane shows a cartoon. */
  lemma DownloadEnabledIffCartoonShown(s: PageState)
    ensures DownloadEnabled(s) <==> ResultPane(s).CartoonImage?
  {
  }

  /** An enabled Download button always has a result to download: the one on screen. */
  lemma EnabledDownloadHasTarget(s: PageState)
    requires Consistent(s)
    requires DownloadEnabled(s)
    ensures s.processedImageData.Some?
    ensures s.processedImageData.value.cartoonImage == ResultPane(s).src
  {
  }

  /** Every event keeps the state consistent. */
  lemma EventsPreserveConsistency(s: PageState, value: string, read: PendingRead, dataUrl: string,
                                  file: Option<FileInfo>, outcome: Api.Outcome)
    requires Consistent(s)
    ensures Consistent(SelectStyle(s, value).next)
    ensures Consistent(ImageLoaded(s, read, dataUrl).next)
    ensures Consistent(Drop(s, file).0)
    ensures Consistent(Settle(s, outcome))
    ensures Consistent(Initial)
  {
  }

  /**
    * A resolved settle erases whatever earlier settles did: the state is the
    * same as if only this one had settled.
    */
  lemma LastResolvedSettleWins(s: PageState, earlier: Api.Outcome, image: Api.ProcessedImage)
    ensures Settle(Settle(s, earlier), Api.Resolved(image)) == Settle(s, Api.Resolved(image))
  {
  }

  /**
    * Two requests issued one after the other (styles `a` then `b`) that
    * settle in the opposite order: the page ends up holding the result for
    * `a` although `b` is the selected style, and a download is named after `a`.
    */
  lemma {:induction false} StaleResultOverwrites(s: PageState, a: string, b: string, idA: string, idB: string,
                                                 createdA: string, createdB: string, now: nat)
    requires Truthy(s.uploadedImage) && a != b
    ensures
      var t1 := SelectStyle(s, a);
      var t2 := SelectStyle(t1.next, b);
      var resultA := Api.ProcessImage(t1.request.value, idA, createdA);
      var resultB := Api.ProcessImage(t2.request.value, idB, createdB);
      var last := Settle(Settle(t2.next, resultB), resultA);
      last.selectedStyle == b && last.processedImageData == Some(resultA.image) &&
      last.processedImageData.value.style == a &&
      Api.ParseDownloadName(Api.DownloadName(last.processedImageData.value.style, now)) == Some((a, now))
  {
    var t1 := SelectStyle(s, a);
    var t2 := SelectStyle(t1.next, b);
    var resultA := Api.ProcessImage(t1.request.value, idA, createdA);
    Api.DownloadNameRoundTrip(a, now);
  }

  /**
    * With two requests outstanding, the first to settle already ends the
    * busy state and enables Download, although the second is still pending.
    */
  lemma EarlySettleEndsProcessing(s: PageState, a: string, b: string, idA: string, createdA: string)
    requires Truthy(s.uploadedImage)
    ensures
      var t1 := SelectStyle(s, a);
      var t2 := SelectStyle(t1.next, b);
      var after := Settle(t2.next, Api.ProcessImage(t1.request.value, idA, createdA));
      t2.next.isProcessing && !after.isProcessing && DownloadEnabled(after) &&
      ResultPane(after) == CartoonImage(Api.PlaceholderCartoon)
  {
  }

  /** A failed request leaves the pane on its placeholder and Download disabled. */
  lemma FailedRequestShowsPlaceholder(s: PageState, read: PendingRead, dataUrl: string, reason: string)
    ensures
      var after := Settle(ImageLoaded(s, read, dataUrl).next, Api.Rejected(reason));
      ResultPane(after) == Placeholder && !DownloadEnabled(after) && after.processedImageData == s.processedImageData
  {
  }

  /**
    * Uploading a photo with the default style issues one request for
    * `simpsons`; once the service answers, the cartoon shows and can be
    * downloaded.
    */
  lemma UploadThenDownload(file: FileInfo, dataUrl: string, random36: string, createdAt: string)
    ensures
      var read := PickFile(Initial, Some(file));
      var t := ImageLoaded(Initial, read.value, dataUrl);
      var done := Settle(t.next, Api.ProcessImage(t.request.value, random36, createdAt));
      t.request.value.style == "simpsons" && t.request.value.image == dataUrl &&
      ResultPane(t.next) == Spinner && !DownloadEnabled(t.next) &&
      ResultPane(done) == CartoonImage(Api.PlaceholderCartoon) && DownloadEnabled(done) &&
      done.processedImageData.value.originalImage == dataUrl
  {
  }

  /** The page as a component: its state fields and its event handlers. */
  class Page {
    var selectedStyle: string
    var uploadedImage: Option<string>
    var cartoonImage: Option<string>
    var isProcessing: bool
    var isDragging: bool
    var processedImageData: Option<Api.ProcessedImage>

    function Snapshot(): PageState
      reads this
    {
      PageState(selectedStyle, uploadedImage, cartoonImage, isProcessing, isDragging, processedImageData)
    }

    ghost predicate Valid()
      reads this
    {
      Consistent(Snapshot())
    }

    constructor ()
      ensures Valid() && Snapshot() == Initial
    {
      selectedStyle := DefaultStyle;
      uploadedImage := None;
      cartoonImage := None;
      isProcessing := false;
      isDragging := false;
      processedImageData := None;
    }

    /** `processImage`, synchronous part: returns the request it sends. */
    method ProcessImageStart(imageUrl: string, style: string) returns (request: Api.ProcessPayload)
      requires Valid()
      modifies this
      ensures Valid()
      ensures Snapshot() == Start(old(Snapshot())) && request == Payload(imageUrl, style)
    {
      isProcessing := true;
      cartoonImage := None;
      request := Payload(imageUrl, style);
    }

    /** `processImage`, continuation after the service's promise settles. */
    method ProcessImageSettle(outcome: Api.Outcome)
      requires Valid()
      modifies this
      ensures Valid()
      ensures Snapshot() == Settle(old(Snapshot()), outcome)
    {
      if outcome.Resolved? {
        cartoonImage := Some(outcome.image.cartoonImage);
        processedImageData := Some(outcome.image);
      }
      isProcessing := false;
    }

    method HandleStyleSelect(value: string) returns (request: Option<Api.ProcessPayload>)
      requires Valid()
      modifies this
      ensures Valid()
      ensures Transition(Snapshot(), request) == SelectStyle(old(Snapshot()), value)
    {
      var image := uploadedImage;
      selectedStyle := value;
      if Truthy(image) {
        var r := ProcessImageStart(image.value, value);
        request := Some(r);
      } else {
        request := None;
      }
    }

    method HandleFileUpload(file: Option<FileInfo>) returns (read: Option<PendingRead>)
      ensures read == PickFile(Snapshot(), file)
    {
      if file.Some? {
        read := Some(PendingRead(selectedStyle));
      } else {
        read := None;
      }
    }

    method HandleDragOver()
      requires Valid()
      modifies this
      ensures Valid() && Snapshot() == old(Snapshot()).(isDragging := true)
    {
      isDragging := true;
    }

    method HandleDragLeave()
      requires Valid()
      modifies this
      ensures Valid() && Snapshot() == old(Snapshot()).(isDragging := false)
    {
      isDragging := false;
    }

    method HandleDrop(file: Option<FileInfo>) returns (read: Option<PendingRead>)
      requires Valid()
      modifies this
      ensures Valid()
      ensures (Snapshot(), read) == Drop(old(Snapshot()), file)
    {
      isDragging := false;
      if AcceptsDrop(file) {
        read := Some(PendingRead(selectedStyle));
      } else {
        read := None;
      }
    }

    /** The `onload` callback of a reader started by either handler. */
    method ReaderLoaded(read: PendingRead, dataUrl: string) returns (request: Api.ProcessPayload)
      requires Valid()
      modifies this
      ensures Valid()
      ensures Transition(Snapshot(), Some(request)) == ImageLoaded(old(Snapshot()), read, dataUrl)
    {
      uploadedImage := Some(dataUrl);
      request := ProcessImageStart(dataUrl, read.style);
    }

    /**
      * `handleDownload`: downloads the stored result, does nothing without
      * one. A click on an enabled button saves the cartoon on screen.
      */
    method HandleDownload(body: seq<Api.Element>, now: nat) returns (clicked: Option<Api.Anchor>, bodyAfter: seq<Api.Element>)
      requires Valid()
      ensures clicked.None? <==> processedImageData.None?
      ensures clicked.Some? ==>
                clicked.value.href == processedImageData.value.cartoonImage &&
                clicked.value.download == Api.DownloadName(processedImageData.value.style, now)
      ensures DownloadEnabled(Snapshot()) ==> clicked.Some? && clicked.value.href == ResultPane(Snapshot()).src
      ensures bodyAfter == body
    {
      if DownloadEnabled(Snapshot()) {
        EnabledDownloadHasTarget(Snapshot());
      }
      if processedImageData.Some? {
        var a, b := Api.DownloadProcessedImage(body, processedImageData.value, now);
        clicked, bodyAfter := Some(a), b;
      } else {
        clicked, bodyAfter := None, body;
      }
    }
  }
}
