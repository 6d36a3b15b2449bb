/** The photo viewer's state and its event handlers. The toolkit's events,
    the directory listing, the outcome of decoding an image and the monitor
    geometry arrive as parameters; the widgets, drawing and decoding
    themselves are not modelled. */
module Viewer {
  import opened Basics
  import opened ImageList
  import opened Transform

  /** The keys the full-screen window reacts to; every other key is KeyOther. */
  datatype Key = KeyEscape | KeyLeft | KeyRight | KeyUp | KeyDown | KeyOther

  /** The toolkit's button-press event types: a plain press, and the extra
      event it sends for a double or a triple click. */
  datatype PressKind = SinglePress | DoublePress | TriplePress

  /** The primary (left) mouse button. */
  const LeftButton: int := 1

  /** What the command-line argument names on disk. */
  datatype PathKind = RegularFile | Directory | Neither

  /** Python's list subscript: a negative index counts from the end, and an
      index outside [-|s|, |s|) raises IndexError (None here). */
  function PyIndex<T>(s: seq<T>, i: int): (r: Option<T>)
    ensures r.Some? <==> -|s| <= i < |s|
    ensures 0 <= i < |s| ==> r == Some(s[i])
    ensures -|s| <= i < 0 ==> r == Some(s[|s| + i])
    ensures r.Some? ==> r.value in s
  {
    if 0 <= i < |s| then Some(s[i])
    else if -|s| <= i < 0 then Some(s[|s| + i])
    else None
  }

  /** In a non-empty list with the index in range, both navigation keys
      reach an element of the list, the neighbour in the direction of the
      key or the end photo itself. */
  lemma NavigationFindsNeighbour(files: seq<string>, i: int)
    requires 0 <= i < |files|
    ensures PyIndex(files, NavigatedLeft(i)) == Some(files[if i == 0 then 0 else i - 1])
    ensures PyIndex(files, NavigatedRight(i, |files|)) == Some(files[if i == |files| - 1 then i else i + 1])
  {
  }

  /** In an empty list both navigation keys fail to find a photo, whatever
      the index; from a non-negative index Right leaves the index at -1. */
  lemma NavigationInEmptyList(i: int)
    ensures PyIndex<string>([], NavigatedLeft(i)) == None
    ensures PyIndex<string>([], NavigatedRight(i, 0)) == None
    ensures i >= 0 ==> NavigatedRight(i, 0) == -1
  {
  }

  class PhotoViewer {
    /** The browser's list of image paths and the folder it was read from. */
    var imageFiles: seq<string>
    var currentFolder: Option<string>
    /** The position used by the navigation keys. */
    var currentIndex: int
    /** Whether the viewer was started on a single file, so that closing the
        full-screen window ends the program. */
    var singleOpened: bool
    /** The dimensions of the decoded image on display, if any. */
    var image: Option<Size>
    /** The transform state. */
    var scaleFactor: real
    var offset: Point
    var dragStart: Option<Point>
    var rotationAngle: int
    var currentImagePath: string

    /** The viewer's invariant: the zoom is within its clamp and the image is
        turned by a whole number of quarter turns. */
    ghost predicate Valid()
      reads this
    {
      MinScale <= scaleFactor <= MaxScale && IsRightAngle(rotationAngle)
    }

    constructor ()
      ensures Valid()
      ensures imageFiles == [] && currentFolder == None && currentIndex == 0 && !singleOpened
      ensures image == None && currentImagePath == ""
      ensures scaleFactor == 1.0 && offset == Origin && dragStart == None && rotationAngle == 0
    {
      imageFiles := [];
      currentFolder := None;
      currentIndex := 0;
      singleOpened := false;
      image := None;
      scaleFactor := 1.0;
      offset := Origin;
      dragStart := None;
      rotationAngle := 0;
      currentImagePath := "";
    }

    /** Reads a folder into the image list. A path that is not a directory
        changes nothing. The current index is not reset. */
    method LoadFolder(folder: string, isDirectory: bool, listing: seq<string>)
      requires Valid()
      modifies this`currentFolder, this`imageFiles
      ensures Valid()
      ensures isDirectory ==> currentFolder == Some(folder) && imageFiles == ImageFiles(folder, listing)
      ensures !isDirectory ==> currentFolder == old(currentFolder) && imageFiles == old(imageFiles)
    {
      if !isDirectory {
        return;
      }
      currentFolder := Some(folder);
      imageFiles := ImageFiles(folder, listing);
    }

    /** Opens an image full screen. `decoded` is the size of the decoded
        image, or None when decoding raised: then nothing changes. Otherwise
        the image is fitted to the screen and the pan and rotation reset; a
        drag in progress is kept. */
    method ShowFullscreen(path: string, decoded: Option<Size>, screen: Size)
      requires Valid()
      modifies this`image, this`currentImagePath, this`scaleFactor, this`offset, this`rotationAngle
      ensures Valid()
      ensures decoded.None? ==> unchanged(this)
      ensures decoded.Some? ==>
        image == decoded && currentImagePath == path &&
        scaleFactor == FitScale(decoded.value, screen) && offset == Origin && rotationAngle == 0
    {
      if decoded.None? {
        return;
      }
      image := decoded;
      currentImagePath := path;
      var fitted := MinReal(MinReal(AxisScale(SafeWidth(screen), decoded.value.width),
                                    AxisScale(SafeHeight(screen), decoded.value.height)), 1.0);
      scaleFactor := fitted;
      if scaleFactor < MinScale {
        scaleFactor := MinScale;
      }
      offset := Origin;
      rotationAngle := 0;
    }

    /** The command-line argument, handled right after construction. A file
        loads its folder (`parentFolder`, the directory holding it), opens
        the file full screen and marks the session as single-file; a
        directory is loaded into the browser; anything else ends the program
        with status 1. An absent or empty argument does nothing. `listing` is
        the listing of the folder that gets loaded. */
    method HandleArgument(argument: Option<string>, kind: PathKind, parentFolder: string,
                          listing: seq<string>, decoded: Option<Size>, screen: Size)
      returns (exitStatus: Option<int>)
      requires Valid()
      modifies this`currentFolder, this`imageFiles, this`image, this`currentImagePath,
               this`scaleFactor, this`offset, this`rotationAngle, this`singleOpened
      ensures Valid()
      ensures argument.None? || argument.value == "" ==> exitStatus == None && unchanged(this)
      ensures argument.Some? && argument.value != "" ==>
        match kind
        case Neither => exitStatus == Some(1) && unchanged(this)
        case Directory =>
          exitStatus == None && currentFolder == Some(argument.value) &&
          imageFiles == ImageFiles(argument.value, listing) &&
          image == old(image) && currentImagePath == old(currentImagePath) &&
          scaleFactor == old(scaleFactor) && offset == old(offset) &&
          rotationAngle == old(rotationAngle) && singleOpened == old(singleOpened)
        case RegularFile =>
          exitStatus == None && currentFolder == Some(parentFolder) &&
          imageFiles == ImageFiles(parentFolder, listing) && singleOpened &&
          (decoded.None? ==>
            image == old(image) && currentImagePath == old(currentImagePath) &&
            scaleFactor == old(scaleFactor) && offset == old(offset) &&
            rotationAngle == old(rotationAngle)) &&
          (decoded.Some? ==>
            image == decoded && currentImagePath == argument.value &&
            scaleFactor == FitScale(decoded.value, screen) && offset == Origin && rotationAngle == 0)
    {
      exitStatus := None;
      if argument.None? || argument.value == "" {
        return;
      }
      match kind {
        case RegularFile =>
          LoadFolder(parentFolder, true, listing);
          ShowFullscreen(argument.value, decoded, screen);
          singleOpened := true;
        case Directory =>
          LoadFolder(argument.value, true, listing);
        case Neither =>
          exitStatus := Some(1);
      }
    }

    /** A left double click resets zoom, pan and rotation; any other left
        press starts a drag at the pointer. Other buttons change nothing. */
    method OnButtonPress(button: int, kind: PressKind, x: real, y: real)
      requires Valid()
      modifies this`scaleFactor, this`offset, this`rotationAngle, this`dragStart
      ensures Valid()
      ensures button != LeftButton ==> unchanged(this)
      ensures button == LeftButton && kind.DoublePress? ==>
        scaleFactor == 1.0 && offset == Origin && rotationAngle == 0 && dragStart == old(dragStart)
      ensures button == LeftButton && !kind.DoublePress? ==>
        dragStart == Some(Point(x, y)) &&
        scaleFactor == old(scaleFactor) && offset == old(offset) && rotationAngle == old(rotationAngle)
    {
      if button == LeftButton {
        if kind.DoublePress? {
          scaleFactor := 1.0;
          offset := Origin;
          rotationAngle := 0;
        } else {
          dragStart := Some(Point(x, y));
        }
      }
    }

    /** Pointer motion: during a drag the image is panned by the pointer's
        displacement since the last event, which becomes the new drag point;
        without a drag nothing changes. */
    method OnMouseMove(x: real, y: real)
      requires Valid()
      modifies this`offset, this`dragStart
      ensures Valid()
      ensures old(dragStart).None? ==> unchanged(this)
      ensures old(dragStart).Some? ==>
        offset == Panned(old(offset), old(dragStart).value, Point(x, y)) &&
        dragStart == Some(Point(x, y))
    {
      if dragStart.Some? {
        var dx := x - dragStart.value.x;
        var dy := y - dragStart.value.y;
        offset := Point(offset.x + dx, offset.y + dy);
        dragStart := Some(Point(x, y));
      }
    }

    /** Releasing any button ends the drag. */
    method OnButtonRelease()
      requires Valid()
      modifies this`dragStart
      ensures Valid()
      ensures dragStart == None
    {
      dragStart := None;
    }

    /** A scroll event. A wheel notch zooms and the result is clamped to the
        zoom range whatever the scale was. A smooth scroll raises while its
        deltas are unpacked, which ends the handler before it zooms or
        clamps, so the scale is left as it was. */
    method OnScroll(direction: ScrollDirection)
      requires Valid()
      modifies this`scaleFactor
      ensures Valid()
      ensures scaleFactor == Scrolled(old(scaleFactor), direction)
    {
      match direction {
        case ScrollUp =>
          scaleFactor := scaleFactor * ZoomStep;
        case ScrollDown =>
          scaleFactor := scaleFactor / ZoomStep;
        case ScrollSmooth(_, _) =>
          return;
        case _ =>
      }
      scaleFactor := ClampScale(scaleFactor);
    }

    /** A key in the full-screen window. Left and Right move the index
        without wrapping around and then open the photo at the new index
        (which fails, leaving the index moved, when Python's subscript
        raises); `decoded` is the outcome of decoding that photo. Up and
        Down turn the image by a quarter. Escape closes the window and
        reports whether the program then quits. */
    method OnKeyPress(key: Key, decoded: Option<Size>, screen: Size) returns (quit: bool)
      requires Valid()
      modifies this`currentIndex, this`image, this`currentImagePath, this`scaleFactor,
               this`offset, this`rotationAngle
      ensures Valid()
      ensures quit == (key == KeyEscape && singleOpened)
      ensures key.KeyLeft? ==> currentIndex == NavigatedLeft(old(currentIndex))
      ensures key.KeyRight? ==> currentIndex == NavigatedRight(old(currentIndex), |imageFiles|)
      ensures !(key.KeyLeft? || key.KeyRight?) ==>
        currentIndex == old(currentIndex) && image == old(image) &&
        currentImagePath == old(currentImagePath) && scaleFactor == old(scaleFactor) &&
        offset == old(offset)
      ensures key.KeyUp? ==> rotationAngle == RotatedUp(old(rotationAngle))
      ensures key.KeyDown? ==> rotationAngle == RotatedDown(old(rotationAngle))
      ensures key.KeyEscape? || key.KeyOther? ==> rotationAngle == old(rotationAngle)
      ensures (key.KeyLeft? || key.KeyRight?) ==>
        var target := PyIndex(imageFiles, currentIndex);
        if target.Some? && decoded.Some? then
          image == decoded && currentImagePath == target.value &&
          scaleFactor == FitScale(decoded.value, screen) && offset == Origin && rotationAngle == 0
        else
          image == old(image) && currentImagePath == old(currentImagePath) &&
          scaleFactor == old(scaleFactor) && offset == old(offset) &&
          rotationAngle == old(rotationAngle)
    {
      quit := false;
      match key {
        case KeyEscape =>
          quit := singleOpened;
        case KeyLeft =>
          currentIndex := NavigatedLeft(currentIndex);
          var target := PyIndex(imageFiles, currentIndex);
          if target.Some? {
            ShowFullscreen(target.value, decoded, screen);
          }
        case KeyRight =>
          currentIndex := NavigatedRight(currentIndex, |imageFiles|);
          var target := PyIndex(imageFiles, currentIndex);
          if target.Some? {
            ShowFullscreen(target.value, decoded, screen);
          }
        case KeyUp =>
          rotationAngle := RotatedUp(rotationAngle);
        case KeyDown =>
          rotationAngle := RotatedDown(rotationAngle);
        case KeyOther =>
      }
    }
  }
}
