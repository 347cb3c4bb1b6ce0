/**
 * The 360-degree photo viewer: loads one panorama at a time onto the
 * sphere's material, and lets the right stick zoom while no load is in
 * flight.
 */
module PhotoViewer {
  import opened Runtime

  /** A texture asset as returned by the resource loader. */
  datatype Texture = Texture(asset: string)

  const InitialZoom: real := 10.0
  const MinZoom: real := 5.0
  const MaxZoom: real := 20.0
  const LoadingTitle: string := "Carregando..."
  const LoadErrorTitle: string := "Erro ao carregar foto"

  /**
   * The viewer component.  The scene objects it is wired to (material,
   * title text, control panel) may be missing; their presence is fixed
   * when the component is created.  The photo-loading coroutine is split
   * in two: `LoadPhotoCoroutineStart` runs up to its wait, and
   * `LoadPhotoCoroutineFinish` runs the rest; `suspendedLoad` holds the
   * path of the coroutine waiting in between.
   */
  class PhotoViewer360 {
    const hasMaterial: bool
    const hasTitleText: bool
    const hasControlPanel: bool
    const zoomSpeed: real             // set in the scene; 0.5 unless overridden

    var texture: Option<Texture>      // the material's main texture
    var title: string                 // the title text
    var panelActive: bool             // the control panel's active flag
    var hasLeftController: bool
    var hasRightController: bool

    var currentPhotoPath: Option<string>
    var currentZoom: real
    var isLoading: bool
    var suspendedLoad: Option<string>

    /**
     * Single-flight loading: a coroutine is suspended exactly when a load is
     * in flight, and it is loading the current photo path.  The zoom stays
     * within its bounds.
     */
    ghost predicate Valid()
      reads this
    {
      && MinZoom <= currentZoom <= MaxZoom
      && (isLoading <==> suspendedLoad.Some?)
      && (suspendedLoad.Some? ==> currentPhotoPath == suspendedLoad)
      && (currentPhotoPath.Some? ==> currentPhotoPath.value != "")
    }

    constructor (hasMaterial: bool, hasTitleText: bool, hasControlPanel: bool, zoomSpeed: real,
                 texture: Option<Texture>, title: string, panelActive: bool)
      ensures Valid()
      ensures this.hasMaterial == hasMaterial && this.hasTitleText == hasTitleText
      ensures this.hasControlPanel == hasControlPanel && this.zoomSpeed == zoomSpeed
      ensures this.texture == texture && this.title == title && this.panelActive == panelActive
      ensures !hasLeftController && !hasRightController
      ensures currentPhotoPath == None && currentZoom == InitialZoom && !isLoading
    {
      this.hasMaterial := hasMaterial;
      this.hasTitleText := hasTitleText;
      this.hasControlPanel := hasControlPanel;
      this.zoomSpeed := zoomSpeed;
      this.texture := texture;
      this.title := title;
      this.panelActive := panelActive;
      hasLeftController := false;
      hasRightController := false;
      currentPhotoPath := None;
      currentZoom := InitialZoom;
      isLoading := false;
      suspendedLoad := None;
    }

    /**
     * Finds the controllers and starts loading the photo selected in the
     * menu (`selectedPhoto` is the stored preference, "" when none).
     */
    method Start(leftFound: bool, rightFound: bool, selectedPhoto: string)
      requires Valid()
      modifies this
      ensures Valid()
      ensures hasLeftController == leftFound && hasRightController == rightFound
      ensures if old(isLoading) || selectedPhoto == "" then
                && isLoading == old(isLoading) && currentPhotoPath == old(currentPhotoPath)
                && title == old(title) && suspendedLoad == old(suspendedLoad)
              else
                && isLoading && currentPhotoPath == Some(selectedPhoto) && suspendedLoad == Some(selectedPhoto)
                && title == (if hasTitleText then LoadingTitle else old(title))
      ensures texture == old(texture) && currentZoom == old(currentZoom) && panelActive == old(panelActive)
    {
      hasLeftController := leftFound;
      hasRightController := rightFound;
      if selectedPhoto != "" {
        LoadPhoto(Some(selectedPhoto));
      }
    }

    /**
     * Per-frame input: nothing at all while a load is in flight; otherwise
     * zoom, then the return-to-menu check.  `menuRequested` tells whether
     * `ReturnToMainMenu` was invoked.
     */
    method Update(left: ControllerInput, right: ControllerInput, deltaTime: real)
      returns (menuRequested: bool)
      requires Valid()
      modifies this`currentZoom
      ensures Valid()
      ensures isLoading ==> currentZoom == old(currentZoom) && !menuRequested
      ensures !isLoading ==> currentZoom == ZoomAfter(old(currentZoom), left, right, deltaTime)
      ensures !isLoading ==> menuRequested == (hasLeftController && Pressed(left.menuButton))
    {
      if isLoading {
        return false;
      }
      HandleZoom(left, right, deltaTime);
      menuRequested := CheckReturnToMenu(left);
    }

    /** The zoom after one `HandleZoom` from `zoom`. */
    function ZoomAfter(zoom: real, left: ControllerInput, right: ControllerInput, deltaTime: real): (z: real)
      reads this
      ensures MinZoom <= z <= MaxZoom || z == zoom
      ensures !hasLeftController || !hasRightController ==> z == zoom
      ensures left.stickY.None? || right.stickY.None? ==> z == zoom
    {
      if hasLeftController && hasRightController && left.stickY.Some? && right.stickY.Some?
      then Clamp(zoom + right.stickY.value * zoomSpeed * deltaTime, MinZoom, MaxZoom)
      else zoom
    }

    /**
     * Moves the zoom by the right stick's vertical axis, scaled by the zoom
     * speed and the frame time, and clamps it to [MinZoom, MaxZoom]; does
     * nothing unless both controllers are present and both stick reads
     * succeed.
     */
    method HandleZoom(left: ControllerInput, right: ControllerInput, deltaTime: real)
      requires Valid()
      modifies this`currentZoom
      ensures Valid()
      ensures currentZoom == ZoomAfter(old(currentZoom), left, right, deltaTime)
    {
      if !hasLeftController || !hasRightController {
        return;
      }
      if left.stickY.Some? && right.stickY.Some? {
        var zoomInput := right.stickY.value;
        currentZoom := currentZoom + zoomInput * zoomSpeed * deltaTime;
        currentZoom := Clamp(currentZoom, MinZoom, MaxZoom);
      }
    }

    /** Asks for the menu when the left controller reports its menu button pressed. */
    method CheckReturnToMenu(left: ControllerInput) returns (menuRequested: bool)
      ensures menuRequested <==> hasLeftController && Pressed(left.menuButton)
    {
      menuRequested := false;
      if !hasLeftController {
        return;
      }
      if left.menuButton.Some? && left.menuButton.value {
        ReturnToMainMenu();
        menuRequested := true;
      }
    }

    /** Leaving the viewer only logs: the scene change is not part of the component. */
    method ReturnToMainMenu()
      ensures unchanged(this)
    {
    }

    /**
     * Starts loading `photoPath` unless a load is already in flight or the
     * path is null or empty, in which case nothing changes.
     */
    method LoadPhoto(photoPath: Option<string>)
      requires Valid()
      modifies this`isLoading, this`currentPhotoPath, this`title, this`suspendedLoad
      ensures Valid()
      ensures if old(isLoading) || IsNullOrEmpty(photoPath) then
                && isLoading == old(isLoading) && currentPhotoPath == old(currentPhotoPath)
                && title == old(title) && suspendedLoad == old(suspendedLoad)
              else
                && isLoading && currentPhotoPath == photoPath && suspendedLoad == photoPath
                && title == (if hasTitleText then LoadingTitle else old(title))
    {
      if isLoading || IsNullOrEmpty(photoPath) {
        return;
      }
      LoadPhotoCoroutineStart(photoPath.value);
    }

    /** The coroutine up to its wait: marks the load in flight and shows the loading title. */
    method LoadPhotoCoroutineStart(photoPath: string)
      requires Valid() && !isLoading && photoPath != ""
      modifies this`isLoading, this`currentPhotoPath, this`title, this`suspendedLoad
      ensures Valid()
      ensures isLoading && currentPhotoPath == Some(photoPath) && suspendedLoad == Some(photoPath)
      ensures title == if hasTitleText then LoadingTitle else old(title)
    {
      isLoading := true;
      currentPhotoPath := Some(photoPath);
      if hasTitleText {
        title := LoadingTitle;
      }
      suspendedLoad := Some(photoPath);
    }

    /**
     * The coroutine after its wait, given what the resource loader returned
     * for its path: on success the texture goes onto the material and the
     * title becomes the file name without extension; on failure the texture
     * is kept and the title shows the error.  Either way the load is over.
     */
    method LoadPhotoCoroutineFinish(loaded: Option<Texture>)
      requires Valid() && isLoading
      modifies this`isLoading, this`texture, this`title, this`suspendedLoad
      ensures Valid()
      ensures !isLoading && suspendedLoad == None
      ensures loaded.Some? ==>
        && texture == (if hasMaterial then loaded else old(texture))
        && title == (if hasTitleText then GetFileNameWithoutExtension(old(suspendedLoad).value) else old(title))
      ensures loaded.None? ==>
        && texture == old(texture)
        && title == (if hasTitleText then LoadErrorTitle else old(title))
    {
      var photoPath := suspendedLoad.value;
      if loaded.Some? {
        if hasMaterial {
          texture := loaded;
        }
        if hasTitleText {
          title := GetFileNameWithoutExtension(photoPath);
        }
      } else {
        if hasTitleText {
          title := LoadErrorTitle;
        }
      }
      isLoading := false;
      suspendedLoad := None;
    }

    /** Flips the control panel's visibility, when there is a panel. */
    method ToggleControlPanel()
      modifies this`panelActive
      ensures panelActive == if hasControlPanel then !old(panelActive) else old(panelActive)
    {
      if hasControlPanel {
        panelActive := !panelActive;
      }
    }
  }

  /**
   * A load cannot be started twice: while the first is in flight a second
   * request for another photo is ignored, and the first one's result is the
   * one shown when it finishes.
   */
  method SingleFlightScenario(viewer: PhotoViewer360, first: string, second: string, t: Texture)
    requires viewer.Valid() && !viewer.isLoading && first != "" && second != ""
    modifies viewer
    ensures viewer.Valid() && !viewer.isLoading
    ensures viewer.currentPhotoPath == Some(first)
    ensures viewer.hasTitleText ==> viewer.title == GetFileNameWithoutExtension(first)
  {
    viewer.LoadPhoto(Some(first));
    viewer.LoadPhoto(Some(second));
    assert viewer.suspendedLoad == Some(first);
    viewer.LoadPhotoCoroutineFinish(Some(t));
  }
}
