# PicasaLinux viewer kernel in Dafny

PicasaLinux is a GTK photo browser. You pick a folder, its images appear as
thumbnails, and activating one opens it in a full-screen viewer. Almost all of
the program is widget and drawing glue. The part modelled here is the small
state machine inside the viewer's event handlers:

- **Opening an image** (`show_fullscreen`) fits it to the screen. It resets
  the pan and the rotation, and a decode failure leaves everything as it was.
- **Mouse events** do three things. A left press starts a drag, and a left
  double click resets the transform. Motion during a drag pans the image.
  Releasing a button ends the drag.
- **Scrolling** zooms by 1.1 per wheel notch, and the result is clamped to
  [0.1, 10]. A smooth scroll is meant to zoom by `1 + 0.1·dy`. As written, the
  handler raises while it unpacks the deltas, so a smooth scroll changes
  nothing (see "Findings").
- **Arrow keys** work as follows. Left and Right move through the image list
  without wrapping around and open the photo they land on. Up and Down turn
  the image by a quarter turn. Escape closes the viewer and quits the program
  when it was started on a single file.
- **Loading a folder** (`load_folder`) turns a directory listing into the
  ordered list of image paths. It keeps each name whose lower-cased form ends
  with `png`, `jpg`, `jpeg`, `bmp` or `heic`.
- **The information overlay** is placed at a margin from the top-left corner,
  and is pulled back when it would cross the right or bottom edge.

Files:

- `basics.dfy` (module `Basics`) holds an option type, points and sizes.
- `image_list.dfy` (module `ImageList`) holds the extension filter, POSIX
  path joining, and the lemmas about the image list.
- `transform.dfy` (module `Transform`) holds the pure arithmetic: fit scale,
  scroll zoom and clamp, rotation, navigation, panning and overlay placement.
  Each comes with its lemmas.
- `viewer.dfy` (module `Viewer`) holds the class `PhotoViewer`. Its fields are
  the viewer's state, and it has one method per event handler. Each method's
  postcondition gives the whole new state in terms of the functions of
  `Transform` and `ImageList`. `Valid()` is the invariant every handler keeps:
  the zoom is in [0.1, 10] and the rotation is one of 0, 90, 180 or 270.

The surroundings are turned into inputs:

- The toolkit event becomes the button number, the click kind, the pointer
  position, the scroll direction and its deltas, or the key.
- `os.listdir` becomes a `listing` sequence.
- `os.path.isdir` becomes a flag, and on the command line a `PathKind`.
- Decoding becomes `decoded: Option<Size>`. `None` stands for the exception.
- The monitor geometry becomes a `Size`.

Scales and offsets are exact `real`s.

## Model

| member | source | states |
|---|---|---|
| `ImageList.ImageFiles` | Picasa.py:109-113 | the image list is never longer than the listing |
| `ImageList.Join` | Picasa.py:110 | a joined path ends with the name, starts with the folder unless the name is absolute, and is the name itself when it is absolute |
| `ImageList.ImageFilesAppend` | Picasa.py:109-113 | listing order is preserved: the list for `a + b` is the list for `a` followed by the list for `b` |
| `ImageList.ImageFilesSingle` | Picasa.py:109-113 | one listed name contributes its joined path exactly when it passes the filter, and nothing otherwise |
| `ImageList.ImageFilesMembership` | Picasa.py:109-113 | a path is in the list if and only if it is the folder joined with some listed name that passes the filter |
| `ImageList.IsImageName` | Picasa.py:112 | the filter: every kept name has at least three characters, and its lower-cased last letter is `g`, `p` or `c` |
| `ImageList.GifIsExcluded` | Picasa.py:112 | a name whose lower-cased form ends with `gif` is never kept |
| `ImageList.IsImageNameIgnoresCase` | Picasa.py:112 | a name is kept exactly when its lower-cased form is kept |
| `ImageList.IsImageNameAnyPrefix` | Picasa.py:112 | no dot is needed: putting anything in front of a kept name gives a kept name |
| `ImageList.UpperCaseExtensionIsListed` | Picasa.py:112 | `IMG.JPG` is kept |
| `ImageList.NameWithoutDotIsListed` | Picasa.py:112 | `xpng` is kept |
| `ImageList.TextFileIsNotListed` | Picasa.py:112 | `a.txt` is not kept |
| `Transform.ClampScale` | Picasa.py:340 | the result is in [0.1, 10]; a scale already in range is kept, and one outside it goes to the nearer bound |
| `Transform.FitScale` | Picasa.py:200-209 | the scale on open is in [0.1, 1.0] |
| `Transform.AxisScaleFits` | Picasa.py:204-205 | for a positive image extent, a scale is at most the axis scale exactly when the scaled extent fits the safe extent |
| `Transform.FitScaleFits` | Picasa.py:200-209 | unless the 0.1 floor applied, the opened image fits inside the screen less 5% padding on each axis with a positive extent |
| `Transform.FitScaleIsLargest` | Picasa.py:200-209 | every scale of at most 1 at which the image fits is at most the fit scale |
| `Transform.FitScaleOfSmallImage` | Picasa.py:200-209 | an image that fits at natural size opens at scale 1.0; an image with no positive extent does too |
| `Transform.WheelZoom` | Picasa.py:331-334 | for a positive scale, a notch up zooms in, a notch down zooms out and both keep the scale positive; a horizontal notch keeps it |
| `Transform.Scrolled` | Picasa.py:330-340 | as written: after a wheel notch the scale is in [0.1, 10] whatever it was before; a smooth scroll leaves the scale as it was; a scale in range stays in range |
| `Transform.IntendedZoom` | Picasa.py:335-338 | as intended: it agrees with `WheelZoom` on notches; a smooth scroll with `dy = 0` keeps the scale; for a positive scale, `dy > 0` zooms in and `dy < 0` zooms out |
| `Transform.IntendedScrolled` | Picasa.py:330-340 | as intended: after any scroll event, smooth ones included, the scale is in [0.1, 10] whatever it was before |
| `Transform.ScrolledAgreesWithIntended` | Picasa.py:330-340 | the handler as written and as intended agree on every wheel notch, and on a smooth scroll with `dy = 0` from a scale in range |
| `Transform.SmoothScrollIsIgnored` | Picasa.py:335-338 | at scale 1.0 a smooth scroll with `dy = -20` leaves 1.0 as written, but gives 0.1 as intended |
| `Transform.ScrollUpThenDown` | Picasa.py:331-334 | a notch up then a notch down restores a scale that the notch up did not clamp |
| `Transform.ScrollDownThenUp` | Picasa.py:331-334 | a notch down then a notch up restores a scale that the notch down did not clamp |
| `Transform.ScrollIsMonotone` | Picasa.py:331-334 | from a scale in range, a notch up never zooms out and a notch down never zooms in |
| `Transform.SidewaysAndSmoothScrollKeepScale` | Picasa.py:330-340 | horizontal notches keep a scale that is in range; as written, a smooth scroll keeps every scale |
| `Transform.SmoothScrollWithNegativeFactor` | Picasa.py:336-340 | as intended, a smooth scroll whose factor `1 + 0.1·dy` is zero or negative lands on the 0.1 floor |
| `Transform.RotatedUp` | Picasa.py:363-364 | Up yields an angle in [0, 360) and keeps the angle a multiple of 90 |
| `Transform.RotatedDown` | Picasa.py:366-367 | Down, with the non-negative modulo, yields an angle in [0, 360) and keeps the angle a multiple of 90 |
| `Transform.RotateUpThenDown` | Picasa.py:363-367 | Down undoes Up on every reduced angle |
| `Transform.RotateDownThenUp` | Picasa.py:363-367 | Up undoes Down on every reduced angle |
| `Transform.FourUpsAreIdentity` | Picasa.py:363-364 | four Ups are the identity on reduced angles |
| `Transform.NavigatedLeft` | Picasa.py:357 | Left steps back by one from a positive index and gives 0 from any index up to 0; it never goes below 0 and never moves a non-negative index forward |
| `Transform.NavigatedRight` | Picasa.py:361 | Right steps forward by one before the last index and gives `len - 1` from any index at or past it; it never goes past `len - 1` and never moves an index up to `len - 1` back |
| `Transform.NavigationStaysInBounds` | Picasa.py:355-362 | in a non-empty list both keys keep an in-range index in range; Left at 0 and Right at the last index stay put |
| `Transform.Panned` | Picasa.py:321-323 | a drag step moves the offset by the pointer's displacement since the last drag point |
| `Transform.PannedComposes` | Picasa.py:319-324 | two drag steps pan as far as one step from the first point to the last |
| `Transform.OverlayOrigin` | Picasa.py:287-296 | the overlay box stays at the margin when it fits there, and otherwise is placed at `screen - box - margin` on that axis; so it never crosses the right or bottom edge and is never placed past the margin |
| `Viewer.PyIndex` | Picasa.py:358 | a list subscript succeeds exactly for indices in [-len, len); it yields `s[i]` for a non-negative index and `s[len + i]` for a negative one |
| `Viewer.NavigationFindsNeighbour` | Picasa.py:355-362 | in a non-empty list with an in-range index, Left and Right open the neighbouring photo, or the end photo when already there |
| `Viewer.NavigationInEmptyList` | Picasa.py:355-362 | in an empty list both keys fail to find a photo; from a non-negative index Right leaves the index at -1 |
| `Viewer.PhotoViewer.constructor` | Picasa.py:19-32 | the initial state: empty list, index 0, scale 1.0, offset (0,0), no drag, rotation 0, empty path |
| `Viewer.PhotoViewer.LoadFolder` | Picasa.py:103-113 | a directory replaces the folder and the image list with the filtered listing; a non-directory changes nothing; the index is not reset |
| `Viewer.PhotoViewer.ShowFullscreen` | Picasa.py:179-215 | a decode failure changes nothing; a success sets the image, the path and the fit scale, and resets offset and rotation |
| `Viewer.PhotoViewer.HandleArgument` | Picasa.py:41-52 | a file loads its folder, opens the file and marks the session single-file; a directory is loaded; anything else exits with status 1 |
| `Viewer.PhotoViewer.OnButtonPress` | Picasa.py:309-317 | a left double click sets scale 1.0, offset (0,0) and rotation 0; another left press only records the drag point; other buttons change nothing |
| `Viewer.PhotoViewer.OnMouseMove` | Picasa.py:319-325 | during a drag the offset moves by the displacement and the drag point moves to the pointer; without a drag nothing changes |
| `Viewer.PhotoViewer.OnButtonRelease` | Picasa.py:327-328 | the drag always ends |
| `Viewer.PhotoViewer.OnScroll` | Picasa.py:330-341 | as written: a wheel notch gives the clamped zoom of the old scale, and a smooth scroll leaves the scale as it was; the invariant is kept |
| `Viewer.PhotoViewer.OnKeyPress` | Picasa.py:348-368 | Left/Right move the index and open the photo there, if the subscript and the decode succeed; Up/Down rotate; Escape reports a quit exactly in a single-file session; nothing else changes |

## Left out

- The widgets and windows are not modelled: the browser grid, the toolbar, the FlowBox, the dialogs, the context menu and its clipboard and file-manager actions. They are toolkit and OS calls.
- Thumbnail creation (`update_thumbnails`, `create_thumbnail`) is not modelled. It decodes files through the toolkit, and the image list it reads is modelled.
- `on_thumbnail_click` is not modelled. It takes the index from the FlowBox, which skips thumbnails that failed to load, so the index depends on the toolkit.
- Drawing in `on_draw` is not modelled; it is a foreign drawing library. This includes the scale compensation for a quarter-turned image. Of `draw_info_overlay`, only the position clamp is modelled.
- The animation stubs are not modelled: `start_animation`, `update_animation` and `reset_animation` only touch toolkit timeouts.
- Decoding is an input. A successful decode contributes only the image's width and height. An exception is `None`, whatever raised it.
- `ImageList.IsImageName`: the lower-casing is ASCII only. Other characters are kept as they are, whereas Python lower-cases all of Unicode. For the five extension suffixes this makes no difference.
- `Transform.Scrolled`: the scale is an exact real, not a double. Python's rounding, and NaN or infinite deltas, are not modelled. Which scroll events the drawing area receives is decided by the toolkit's event masks, and that is not modelled either; every direction is accepted as an input.
- `Viewer.PhotoViewer.OnKeyPress`: for Escape, destroying the window and stopping the main loop are reduced to the returned quit flag. The same goes for the animation reset that Escape, Left and Right perform.
- `Viewer.PhotoViewer.HandleArgument`: `os.path.abspath` and `os.path.dirname` are reduced to the `parentFolder` input, and iconifying the browser is not modelled. The error message and `sys.exit(1)` become the returned exit status.
- `Viewer.PhotoViewer.ShowFullscreen`: replacing the full-screen window is not modelled. This happens before decoding, even when decoding then fails, and it is toolkit state.
- Three behaviours of the code worth knowing, all of which the model follows:
  - Right in an empty list sets the index to -1 before the lookup fails.
  - Left and Right move the index even when the photo they land on fails to decode.
  - `load_folder` does not reset the index.

## Findings

| source | as written | input that shows it | evidently intended | confidence | as-written member | corrected member |
|---|---|---|---|---|---|---|
| Picasa.py:335-338 | `delta_x, delta_y = event.get_scroll_deltas()` unpacks into two names. The binding returns three values: a success flag and the two deltas. The unpack raises, so the handler stops before the zoom and the clamp, and the scale is unchanged. | scale 1.0, smooth scroll with `dy = -20`: the scale stays 1.0 | the scale is multiplied by `1 + 0.1·dy` and then clamped, here to 0.1 | medium, not executed; it rests on the binding's return shape for this call | `Transform.Scrolled` (shown by `Transform.SmoothScrollIsIgnored`) | `Transform.IntendedScrolled` (range proved in its contract; `Transform.SmoothScrollWithNegativeFactor`) |

The viewer's `OnScroll` follows the code as written. `Transform.ScrolledAgreesWithIntended` shows that the two versions differ only on smooth scrolls.
