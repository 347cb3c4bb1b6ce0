/**
 * The 360-degree video player: play, pause, seek and volume controls over
 * the engine's video player, a "MM:SS / MM:SS" time label and a progress
 * slider refreshed while the video plays.
 */
module VideoPlayer {
  import opened Runtime
  import opened TimeFormat

  const LoadingTitle: string := "Carregando..."
  const InitialVolumeSliderValue: real := 0.8

  /**
   * The player component.  The engine's video player is abstracted to
   * whether it is present, whether it is playing, its playback time and
   * its clip length, and its direct audio volume; the scene objects it is
   * wired to may be missing, and their presence is fixed when the
   * component is created.  `SimulateVideoLoading` coroutines started by
   * `LoadVideo` all wait the same time, so they resume in the order they
   * were started: `pendingLoads` holds their paths, oldest first.
   */
  class VideoPlayer360 {
    const hasPlayer: bool
    const playerLength: real
    var playerPlaying: bool
    var playerTime: real
    var audioVolume: real

    const hasTitleText: bool
    const hasTimeText: bool
    const hasProgressSlider: bool
    const hasVolumeSlider: bool
    const hasControlPanel: bool
    var title: string
    var timeText: string
    var progressValue: real           // the progress slider's value
    var volumeValue: real             // the volume slider's value
    var panelActive: bool

    var hasLeftController: bool
    var hasRightController: bool
    var currentVideoPath: Option<string>
    var isPlaying: bool
    var isDraggingSlider: bool
    var pendingLoads: seq<string>

    /**
     * The playback time lies within the clip and the progress slider within
     * [0, 1]; `isPlaying` is only ever set with a player present, and the
     * engine player plays only while `isPlaying` says so (the reverse fails
     * once `ReturnToMainMenu` has stopped it); the newest pending load is
     * the current video path.
     */
    ghost predicate Valid()
      reads this
    {
      && 0.0 < playerLength
      && 0.0 <= playerTime <= playerLength
      && 0.0 <= progressValue <= 1.0
      && (isPlaying ==> hasPlayer)
      && (playerPlaying ==> isPlaying)
      && (pendingLoads != [] ==> hasPlayer && currentVideoPath == Some(pendingLoads[|pendingLoads| - 1]))
      && (forall i :: 0 <= i < |pendingLoads| ==> pendingLoads[i] != "")
      && (currentVideoPath.Some? ==> currentVideoPath.value != "")
    }

    constructor (hasPlayer: bool, playerLength: real,
                 hasTitleText: bool, hasTimeText: bool, hasProgressSlider: bool,
                 hasVolumeSlider: bool, hasControlPanel: bool, panelActive: bool,
                 audioVolume: real, title: string, timeText: string, volumeValue: real)
      requires 0.0 < playerLength
      ensures Valid()
      ensures this.hasPlayer == hasPlayer && this.playerLength == playerLength
      ensures this.hasTitleText == hasTitleText && this.hasTimeText == hasTimeText
      ensures this.hasProgressSlider == hasProgressSlider && this.hasVolumeSlider == hasVolumeSlider
      ensures this.hasControlPanel == hasControlPanel && this.panelActive == panelActive
      ensures this.audioVolume == audioVolume && this.title == title
      ensures this.timeText == timeText && this.volumeValue == volumeValue
      ensures !playerPlaying && playerTime == 0.0 && progressValue == 0.0
      ensures !hasLeftController && !hasRightController
      ensures currentVideoPath == None && !isPlaying && !isDraggingSlider && pendingLoads == []
    {
      this.hasPlayer := hasPlayer;
      this.playerLength := playerLength;
      this.hasTitleText := hasTitleText;
      this.hasTimeText := hasTimeText;
      this.hasProgressSlider := hasProgressSlider;
      this.hasVolumeSlider := hasVolumeSlider;
      this.hasControlPanel := hasControlPanel;
      this.panelActive := panelActive;
      playerPlaying := false;
      playerTime := 0.0;
      this.audioVolume := audioVolume;
      this.title := title;
      this.timeText := timeText;
      progressValue := 0.0;
      this.volumeValue := volumeValue;
      hasLeftController := false;
      hasRightController := false;
      currentVideoPath := None;
      isPlaying := false;
      isDraggingSlider := false;
      pendingLoads := [];
    }

    /**
     * Finds the controllers, sets the volume slider to its initial value and
     * loads the video selected in the menu (`selectedVideo` is the stored
     * preference, "" when none).
     */
    method Start(leftFound: bool, rightFound: bool, selectedVideo: string)
      requires Valid()
      modifies this`hasLeftController, this`hasRightController, this`volumeValue
      modifies this`currentVideoPath, this`title, this`pendingLoads
      ensures Valid()
      ensures hasLeftController == leftFound && hasRightController == rightFound
      ensures volumeValue == if hasVolumeSlider then InitialVolumeSliderValue else old(volumeValue)
      ensures if selectedVideo == "" || !hasPlayer then
                && currentVideoPath == old(currentVideoPath) && title == old(title)
                && pendingLoads == old(pendingLoads)
              else
                && currentVideoPath == Some(selectedVideo)
                && title == (if hasTitleText then LoadingTitle else old(title))
                && pendingLoads == old(pendingLoads) + [selectedVideo]
    {
      hasLeftController := leftFound;
      hasRightController := rightFound;
      if hasVolumeSlider {
        volumeValue := InitialVolumeSliderValue;
      }
      if selectedVideo != "" {
        assert !IsNullOrEmpty(Some(selectedVideo));
        LoadVideo(Some(selectedVideo));
      }
    }

    /** The primary button of the right controller toggles playback this frame. */
    predicate PlayToggleFires(right: ControllerInput)
      reads this
    {
      hasRightController && Pressed(right.primaryButton) && hasPlayer
    }

    /** The secondary button of the right controller toggles the control panel this frame. */
    predicate PanelToggleFires(right: ControllerInput)
      reads this
    {
      hasRightController && Pressed(right.secondaryButton) && hasControlPanel
    }

    /**
     * One frame: refresh the time label and progress slider from the state
     * before this frame's input, then the playback buttons, then the
     * return-to-menu check.  `menuRequested` tells whether
     * `ReturnToMainMenu` was invoked.
     */
    method Update(left: ControllerInput, right: ControllerInput) returns (menuRequested: bool)
      requires Valid()
      modifies this`timeText, this`progressValue, this`playerTime
      modifies this`isPlaying, this`playerPlaying, this`panelActive
      ensures Valid()
      ensures playerTime == old(playerTime)
      ensures !hasPlayer || !old(playerPlaying) ==>
        timeText == old(timeText) && progressValue == old(progressValue)
      ensures hasPlayer && old(playerPlaying) ==>
        && timeText == (if hasTimeText then TimeLabel(playerTime, playerLength) else old(timeText))
        && progressValue == (if hasProgressSlider && !isDraggingSlider then playerTime / playerLength
                             else old(progressValue))
      ensures isPlaying == if PlayToggleFires(right) then !old(isPlaying) else old(isPlaying)
      ensures menuRequested <==> hasLeftController && Pressed(left.menuButton)
      ensures playerPlaying == if menuRequested then false
                               else if PlayToggleFires(right) then isPlaying
                               else old(playerPlaying)
      ensures panelActive == if PanelToggleFires(right) then !old(panelActive) else old(panelActive)
    {
      UpdateTimeDisplay();
      CheckPlaybackControls(right);
      menuRequested := CheckReturnToMenu(left);
    }

    /**
     * Sets the path and the loading title and starts the simulated load,
     * unless the path is null or empty or there is no player.  There is no
     * in-flight guard: a load requested while others are pending is queued
     * behind them and becomes the current path.
     */
    method LoadVideo(videoPath: Option<string>)
      requires Valid()
      modifies this`currentVideoPath, this`title, this`pendingLoads
      ensures Valid()
      ensures if IsNullOrEmpty(videoPath) || !hasPlayer then
                && currentVideoPath == old(currentVideoPath) && title == old(title)
                && pendingLoads == old(pendingLoads)
              else
                && currentVideoPath == videoPath
                && title == (if hasTitleText then LoadingTitle else old(title))
                && pendingLoads == old(pendingLoads) + [videoPath.value]
    {
      if IsNullOrEmpty(videoPath) || !hasPlayer {
        return;
      }
      currentVideoPath := videoPath;
      if hasTitleText {
        title := LoadingTitle;
      }
      pendingLoads := pendingLoads + [videoPath.value];
    }

    /**
     * The oldest pending `SimulateVideoLoading` after its wait: shows that
     * video's file name without extension and starts playback, which always
     * succeeds since a load is only started with a player present.
     */
    method SimulateVideoLoadingFinish()
      requires Valid() && pendingLoads != []
      modifies this`title, this`pendingLoads, this`isPlaying, this`playerPlaying
      ensures Valid()
      ensures pendingLoads == old(pendingLoads)[1..]
      ensures title == if hasTitleText then GetFileNameWithoutExtension(old(pendingLoads)[0]) else old(title)
      ensures isPlaying && playerPlaying
    {
      var videoPath := pendingLoads[0];
      pendingLoads := pendingLoads[1..];
      if hasTitleText {
        title := GetFileNameWithoutExtension(videoPath);
      }
      PlayVideo();
    }

    /** Plays, when there is a player. */
    method PlayVideo()
      requires Valid()
      modifies this`isPlaying, this`playerPlaying
      ensures Valid()
      ensures hasPlayer ==> isPlaying && playerPlaying
      ensures !hasPlayer ==> isPlaying == old(isPlaying) && playerPlaying == old(playerPlaying)
    {
      if !hasPlayer {
        return;
      }
      playerPlaying := true;
      isPlaying := true;
    }

    /** Pauses, when there is a player. */
    method PauseVideo()
      requires Valid()
      modifies this`isPlaying, this`playerPlaying
      ensures Valid()
      ensures hasPlayer ==> !isPlaying && !playerPlaying
      ensures !hasPlayer ==> isPlaying == old(isPlaying) && playerPlaying == old(playerPlaying)
    {
      if !hasPlayer {
        return;
      }
      playerPlaying := false;
      isPlaying := false;
    }

    /** Pauses when `isPlaying`, plays otherwise. */
    method TogglePlayPause()
      requires Valid()
      modifies this`isPlaying, this`playerPlaying
      ensures Valid()
      ensures hasPlayer ==> isPlaying == !old(isPlaying) && playerPlaying == isPlaying
      ensures !hasPlayer ==> isPlaying == old(isPlaying) && playerPlaying == old(playerPlaying)
    {
      if isPlaying {
        PauseVideo();
      } else {
        PlayVideo();
      }
    }

    /** Passes the volume to the player's first audio track as it is, without clamping. */
    method SetVolume(volume: real)
      modifies this`audioVolume
      ensures audioVolume == if hasPlayer then volume else old(audioVolume)
    {
      if !hasPlayer {
        return;
      }
      audioVolume := volume;
    }

    /**
     * Seeks to `progress` of the clip, but only while the user drags the
     * progress slider; `progress` is the slider's value.
     */
    method SetVideoProgress(progress: real)
      requires Valid() && 0.0 <= progress <= 1.0
      modifies this`playerTime
      ensures Valid()
      ensures playerTime == if hasPlayer && isDraggingSlider then progress * playerLength else old(playerTime)
    {
      if !hasPlayer || !isDraggingSlider {
        return;
      }
      ProgressWithinClip(progress, playerLength);
      playerTime := progress * playerLength;
    }

    /**
     * While the engine player plays: writes the time label and, unless the
     * user is dragging it, the progress slider.  Writing the slider notifies
     * its listener `SetVideoProgress`, which ignores the value because no
     * drag is in progress, so the playback time is not disturbed.
     */
    method UpdateTimeDisplay()
      requires Valid()
      modifies this`timeText, this`progressValue, this`playerTime
      ensures Valid()
      ensures playerTime == old(playerTime)
      ensures !hasPlayer || !playerPlaying ==>
        timeText == old(timeText) && progressValue == old(progressValue)
      ensures hasPlayer && playerPlaying ==>
        && timeText == (if hasTimeText then TimeLabel(playerTime, playerLength) else old(timeText))
        && progressValue == (if hasProgressSlider && !isDraggingSlider then playerTime / playerLength
                             else old(progressValue))
    {
      if !hasPlayer || !playerPlaying {
        return;
      }
      if hasTimeText {
        timeText := TimeLabel(playerTime, playerLength);
      }
      if hasProgressSlider && !isDraggingSlider {
        FractionWithinUnit(playerTime, playerLength);
        progressValue := playerTime / playerLength;
        SetVideoProgress(progressValue);
        assert timeText == old(if hasTimeText then TimeLabel(playerTime, playerLength) else timeText);
      }
    }

    /** Playback buttons of the right controller: primary toggles play, secondary the panel. */
    method CheckPlaybackControls(right: ControllerInput)
      requires Valid()
      modifies this`isPlaying, this`playerPlaying, this`panelActive
      ensures Valid()
      ensures PlayToggleFires(right) ==> isPlaying == !old(isPlaying) && playerPlaying == isPlaying
      ensures !PlayToggleFires(right) ==> isPlaying == old(isPlaying) && playerPlaying == old(playerPlaying)
      ensures panelActive == if PanelToggleFires(right) then !old(panelActive) else old(panelActive)
    {
      if !hasRightController {
        return;
      }
      if right.primaryButton.Some? && right.primaryButton.value {
        TogglePlayPause();
      }
      if right.secondaryButton.Some? && right.secondaryButton.value {
        ToggleControlPanel();
      }
    }

    /** Leaves for the menu when the left controller reports its menu button pressed. */
    method CheckReturnToMenu(left: ControllerInput) returns (menuRequested: bool)
      requires Valid()
      modifies this`playerPlaying
      ensures Valid()
      ensures menuRequested <==> hasLeftController && Pressed(left.menuButton)
      ensures playerPlaying == if menuRequested then false else old(playerPlaying)
    {
      menuRequested := false;
      if !hasLeftController {
        return;
      }
      if left.menuButton.Some? && left.menuButton.value {
        ReturnToMainMenu();
        menuRequested := true;
      }
    }

    /**
     * Stops the engine player if it is playing.  `isPlaying` is left as it
     * was, so it may still say "playing" afterwards.
     */
    method ReturnToMainMenu()
      requires Valid()
      modifies this`playerPlaying
      ensures Valid()
      ensures !playerPlaying
      ensures isPlaying == old(isPlaying)
    {
      if hasPlayer && playerPlaying {
        playerPlaying := false;
      }
    }

    /** Flips the control panel's visibility, when there is a panel. */
    method ToggleControlPanel()
      modifies this`panelActive
      ensures panelActive == if hasControlPanel then !old(panelActive) else old(panelActive)
    {
      if hasControlPanel {
        panelActive := !panelActive;
      }
    }

    /** The user starts dragging the progress slider. */
    method OnProgressDragStart()
      modifies this`isDraggingSlider
      ensures isDraggingSlider
    {
      isDraggingSlider := true;
    }

    /** The user releases the progress slider. */
    method OnProgressDragEnd()
      modifies this`isDraggingSlider
      ensures !isDraggingSlider
    {
      isDraggingSlider := false;
    }
  }

  /**
   * The time text: the current time and the clip's length, each as
   * "MM:SS", separated by " / ".
   */
  function TimeLabel(current: real, total: real): string
    requires 0.0 <= current && 0.0 <= total
  {
    FormatTime(current) + " / " + FormatTime(total)
  }

  /**
   * The time text is two clock labels around " / ", and each reads back as
   * the whole seconds of its time.
   */
  lemma TimeLabelReadsBack(current: real, total: real)
    requires 0.0 <= current && 0.0 <= total
    ensures var clock, k := TimeLabel(current, total), |FormatTime(current)|;
      && k + 3 <= |clock| && clock[k..k + 3] == " / "
      && ParseClock(clock[..k]) == Some(current.Floor)
      && ParseClock(clock[k + 3..]) == Some(total.Floor)
  {
    var currentStr, totalStr := FormatTime(current), FormatTime(total);
    SplitAround(currentStr, " / ", totalStr);
    FormatTimeRoundTrip(current);
    FormatTimeRoundTrip(total);
  }

  /** The parts of `a + sep + b`, recovered by position. */
  lemma SplitAround(a: string, sep: string, b: string)
    ensures var s := a + sep + b;
      && |s| == |a| + |sep| + |b| && s[..|a|] == a
      && s[|a|..|a| + |sep|] == sep && s[|a| + |sep|..] == b
  {
    var s := a + sep + b;
    assert s[..|a|] == a;
    assert s[|a|..|a| + |sep|] == sep;
    assert s[|a| + |sep|..] == b;
  }

  /** A fraction of the clip is a time within the clip. */
  lemma ProgressWithinClip(progress: real, length: real)
    requires 0.0 <= progress <= 1.0 && 0.0 < length
    ensures 0.0 <= progress * length <= length
  {
  }

  /** A time within the clip is a fraction in [0, 1] of it. */
  lemma FractionWithinUnit(time: real, length: real)
    requires 0.0 <= time <= length && 0.0 < length
    ensures 0.0 <= time / length <= 1.0
  {
  }

  /**
   * Loads requested back to back are both carried out, in order: the last
   * request's path is the current one, its name is the title shown and the
   * video plays.
   */
  method LastLoadWinsScenario(player: VideoPlayer360, first: string, second: string)
    requires player.Valid() && player.hasPlayer && player.hasTitleText && player.pendingLoads == []
    requires first != "" && second != ""
    modifies player
    ensures player.Valid() && player.pendingLoads == []
    ensures player.currentVideoPath == Some(second)
    ensures player.title == GetFileNameWithoutExtension(second)
    ensures player.isPlaying && player.playerPlaying
  {
    player.LoadVideo(Some(first));
    player.LoadVideo(Some(second));
    assert player.pendingLoads == [first, second];
    player.SimulateVideoLoadingFinish();
    assert player.pendingLoads == [second];
    assert player.currentVideoPath == Some(second);
    assert player.title == GetFileNameWithoutExtension(first);
    player.SimulateVideoLoadingFinish();
  }

  /** Toggling twice restores `isPlaying` and leaves the engine player in step with it. */
  method ToggleTwiceScenario(player: VideoPlayer360)
    requires player.Valid() && player.hasPlayer
    modifies player
    ensures player.Valid()
    ensures player.isPlaying == old(player.isPlaying) && player.playerPlaying == player.isPlaying
  {
    player.TogglePlayPause();
    player.TogglePlayPause();
  }

  /** A seek takes effect only inside a drag: drag, seek to half, release, then a stray seek. */
  method SeekScenario(player: VideoPlayer360, stray: real)
    requires player.Valid() && player.hasPlayer && 0.0 <= stray <= 1.0
    modifies player
    ensures player.Valid() && !player.isDraggingSlider
    ensures player.playerTime == 0.5 * player.playerLength
  {
    player.OnProgressDragStart();
    player.SetVideoProgress(0.5);
    player.OnProgressDragEnd();
    player.SetVideoProgress(stray);
  }
}
