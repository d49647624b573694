// The builder session (components/Builder/BuilderShell.tsx). React state is
// the value `ui`, replaced as a whole by each handler; the refs are fields
// updated in place. The two asynchronous jobs (background removal and
// back-art generation) are split into a start step, which runs before the
// first await and returns the request id it captured, and completion steps
// that receive that id together with the outcome of the awaited work.
module BuilderShell {
  import opened Common
  import opened CardTypes
  import opened BuilderLogic
  import Templates

  datatype LayoutMode = Off | TextMode | PhotoMode

  /** The component's `useState` values. */
  datatype Ui = Ui(
    selectedId: string,
    frontFields: FrontRecord<string>,
    backFields: BackRecord<string>,
    photoFile: Option<PhotoFile>,
    photoUrl: Option<string>,
    cutoutUrl: Option<string>,
    removeBackground: bool,
    subjectStyle: SubjectStyle,
    autoFitPhoto: bool,
    photoOffsets: map<string, Point>,
    layoutMode: LayoutMode,
    frontOverrides: map<string, FrontOverrides>,
    backOverrides: map<string, BackOverrides>,
    backAiUrl: Option<string>,
    isGeneratingBack: bool,
    backAiStatus: Option<string>,
    backAiError: Option<string>,
    isRemovingBackground: bool,
    removeBackgroundError: Option<string>,
    removeBackgroundStatus: Option<string>)
  {
    function SelectedTemplate(): Template { Templates.FindTemplate(selectedId) }

    /** `frontOverridesByTemplate[selectedId] ?? {}` */
    function FrontTextOverrides(): FrontOverrides
    {
      if selectedId in frontOverrides then frontOverrides[selectedId] else map[]
    }

    function BackTextOverrides(): BackOverrides
    {
      if selectedId in backOverrides then backOverrides[selectedId] else map[]
    }

    /** `photoOffsetByTemplate[selectedId] ?? { x: 0, y: 0 }` */
    function PhotoOffset(): Point
    {
      if selectedId in photoOffsets then photoOffsets[selectedId] else Point(0.0, 0.0)
    }

    /** The front preview treats the photo as a cutout only when removal is on and its result exists. */
    predicate IsCutout() { removeBackground && cutoutUrl.Some? }

    function FrontPhotoUrl(): Option<string> { ActivePhotoUrl(removeBackground, cutoutUrl, photoUrl) }
  }

  /** How an awaited background removal ends. */
  datatype RemovalOutcome = Removed(url: string) | RemovalFailed(message: Option<string>)

  /**
   * How an awaited back-art request ends: a response that is ok (with its
   * `imageDataUrl`, if any), a response that is not ok (with its `error`, if
   * any), another thrown error (with its message when it is an `Error`), or
   * the abort of its controller.
   */
  datatype BackArtOutcome =
    | Delivered(imageDataUrl: Option<string>)
    | HttpError(error: Option<string>)
    | Threw(message: Option<string>)
    | AbortError

  function DefaultFrontFields(): FrontRecord<string>
  {
    FrontRecord("Avery Anderson", "Henderson Wildcats", "SS", "02", "AVG .328 | HR 9 | RBI 31",
                "Speed 88 | Fielding 92", "Steady shortstop with quick hands and a big bat.")
  }

  function DefaultBackFields(): BackRecord<string>
  {
    BackRecord("Shortstop with a quick first step, known for clean fielding and smart reads.",
               "2024 Highlights: 28 games, 9 HR, 31 RBI, Gold Glove nominee.",
               "Flex Trading Cards · 2025 Season")
  }

  class Builder {
    var ui: Ui
    var removeRequest: nat              // removeRequestRef
    var backRequest: nat                // backRequestRef
    var backSourceKey: Option<string>   // backSourceKeyRef
    var backAbort: Option<nat>          // backAbortRef, named by the request id that created the controller
    var aborted: set<nat>               // request ids whose controller has been aborted
    ghost var removalsRunning: set<nat> // removal requests started and not yet settled

    /**
     * The abort ref only ever holds the current request's controller, which
     * has not been aborted; every removal job still running has a captured
     * id; and the "removing" flag is set only while the current removal job
     * runs, so that job's settlement will clear it.
     */
    ghost predicate Valid()
      reads this
    {
      RefsValid() && RemovalFlagHeld()
    }

    /** The refs part of `Valid`. */
    ghost predicate RefsValid()
      reads this
    {
      && (backAbort.Some? ==> backAbort.value == backRequest && backRequest !in aborted)
      && (forall i :: i in aborted ==> i <= backRequest)
      && (forall i :: i in removalsRunning ==> 1 <= i <= removeRequest)
    }

    /** The removal flag is owned by a running job, whose settlement will clear it. */
    ghost predicate RemovalFlagHeld()
      reads this
    {
      ui.isRemovingBackground ==> removeRequest in removalsRunning
    }

    constructor ()
      ensures Valid()
      ensures ui == Ui(Templates.AllTemplates()[0].id, DefaultFrontFields(), DefaultBackFields(),
                       None, None, None, true, Classic, true, map[], Off, map[], map[],
                       None, false, None, None, false, None, None)
      ensures removeRequest == 0 && backRequest == 0 && backSourceKey.None? && backAbort.None?
      ensures aborted == {} && removalsRunning == {}
    {
      ui := Ui(Templates.AllTemplates()[0].id, DefaultFrontFields(), DefaultBackFields(),
               None, None, None, true, Classic, true, map[], Off, map[], map[],
               None, false, None, None, false, None, None);
      removeRequest := 0;
      backRequest := 0;
      backSourceKey := None;
      backAbort := None;
      aborted := {};
      removalsRunning := {};
    }

    // ------------------------------------------------- background removal

    /** `runBackgroundRemoval` up to its first await: flag, clear, and capture a fresh id. */
    method StartBackgroundRemoval() returns (id: nat)
      requires RefsValid()
      modifies this
      ensures Valid()
      ensures id == removeRequest == old(removeRequest) + 1
      ensures removalsRunning == old(removalsRunning) + {id}
      ensures ui == old(ui).(isRemovingBackground := true, removeBackgroundError := None,
                             removeBackgroundStatus := Some(RemovingStatus))
      ensures unchanged(this`backRequest, this`backSourceKey, this`backAbort, this`aborted)
    {
      ui := ui.(isRemovingBackground := true, removeBackgroundError := None,
                removeBackgroundStatus := Some(RemovingStatus));
      removeRequest := removeRequest + 1;
      id := removeRequest;
      removalsRunning := removalsRunning + {id};
    }

    /** The removal library's progress callback; only the current job may change the status. */
    method RemovalProgress(id: nat, key: string, current: real, total: real)
      requires Valid() && id in removalsRunning
      modifies this`ui
      ensures Valid()
      ensures id != removeRequest ==> ui == old(ui)
      ensures id == removeRequest ==> ui == old(ui).(removeBackgroundStatus := Some(ProgressStatus(key, current, total)))
    {
      if id != removeRequest {
        return;
      }
      ui := ui.(removeBackgroundStatus := Some(ProgressStatus(key, current, total)));
    }

    /**
     * The rest of `runBackgroundRemoval`: a result or error of a job that is
     * no longer current changes nothing (the `finally` clears the flag only
     * for the current job).
     */
    method CompleteBackgroundRemoval(id: nat, outcome: RemovalOutcome)
      requires RefsValid() && id in removalsRunning
      modifies this`ui, this`removalsRunning
      ensures RefsValid()
      ensures old(RemovalFlagHeld()) ==> RemovalFlagHeld()
      ensures removalsRunning == old(removalsRunning) - {id}
      ensures id != removeRequest ==> ui == old(ui)
      ensures id == removeRequest && outcome.Removed? ==>
                ui == old(ui).(cutoutUrl := Some(outcome.url), removeBackgroundStatus := Some(ReadyStatus),
                               isRemovingBackground := false)
      ensures id == removeRequest && outcome.RemovalFailed? ==>
                ui == old(ui).(removeBackgroundError := Some(OrDefault(outcome.message, "Background removal failed.")),
                               removeBackgroundStatus := Some(FailedStatus), isRemovingBackground := false)
    {
      removalsRunning := removalsRunning - {id};
      if id != removeRequest {
        return;
      }
      match outcome {
        case Removed(url) =>
          ui := ui.(cutoutUrl := Some(url), removeBackgroundStatus := Some(ReadyStatus));
        case RemovalFailed(message) =>
          ui := ui.(removeBackgroundError := Some(OrDefault(message, "Background removal failed.")),
                    removeBackgroundStatus := Some(FailedStatus));
      }
      ui := ui.(isRemovingBackground := false);
    }

    // ---------------------------------------------------------- back art

    /**
     * `generateBackArt` up to its first await: capture a fresh id, abort the
     * previous request's controller, install a new one, and show progress.
     */
    method StartBackArt(source: BackSource) returns (id: nat)
      requires Valid()
      modifies this`backRequest, this`backAbort, this`aborted, this`ui
      ensures Valid()
      ensures id == backRequest == old(backRequest) + 1
      ensures backAbort == Some(id)
      ensures aborted == old(aborted) + (if old(backAbort).Some? then {old(backAbort).value} else {})
      ensures ui == old(ui).(isGeneratingBack := true, backAiError := None, backAiStatus := Some(GeneratingStatus))
    {
      backRequest := backRequest + 1;
      id := backRequest;
      if backAbort.Some? {
        aborted := aborted + {backAbort.value};
      }
      backAbort := Some(id);
      ui := ui.(isGeneratingBack := true, backAiError := None, backAiStatus := Some(GeneratingStatus));
    }

    /**
     * The rest of `generateBackArt`. A request that is no longer current
     * changes nothing at all: its result and error are dropped, the flag is
     * left alone, and the abort ref holds another controller. For the
     * current request a delivered image (or null) becomes the back art; any
     * failure records its message and keeps the previous art; an abort only
     * runs the `finally`.
     */
    method CompleteBackArt(id: nat, outcome: BackArtOutcome)
      requires Valid()
      modifies this`ui, this`backAbort
      ensures Valid()
      ensures id != old(backRequest) ==> ui == old(ui) && backAbort == old(backAbort)
      ensures id == old(backRequest) ==> backAbort.None?
      ensures id == old(backRequest) ==> ui == (match outcome
        case Delivered(url) => old(ui).(backAiUrl := url, backAiStatus := Some(ReadyStatus), isGeneratingBack := false)
        case HttpError(e) => old(ui).(backAiError := Some(OrDefault(e, "Failed to generate back art.")),
                                      backAiStatus := Some(FailedStatus), isGeneratingBack := false)
        case Threw(m) => old(ui).(backAiError := Some(OrDefault(m, "Back art generation failed.")),
                                  backAiStatus := Some(FailedStatus), isGeneratingBack := false)
        case AbortError => old(ui).(isGeneratingBack := false))
    {
      match outcome {
        case Delivered(url) =>
          if id == backRequest {
            ui := ui.(backAiUrl := url, backAiStatus := Some(ReadyStatus));
          }
        case HttpError(e) =>
          if id == backRequest {
            ui := ui.(backAiError := Some(OrDefault(e, "Failed to generate back art.")), backAiStatus := Some(FailedStatus));
          }
        case Threw(m) =>
          if id == backRequest {
            ui := ui.(backAiError := Some(OrDefault(m, "Back art generation failed.")), backAiStatus := Some(FailedStatus));
          }
        case AbortError =>
      }
      // finally
      if id == backRequest {
        ui := ui.(isGeneratingBack := false);
      }
      if backAbort == Some(id) {
        backAbort := None;
      }
    }

    /**
     * `requestBackGeneration(force)`: with no photo nothing happens; with no
     * source yet only the waiting status is shown; a request whose key is
     * the stored one is dropped unless forced; otherwise the key is stored
     * and a job starts.
     */
    method RequestBackGeneration(force: bool) returns (job: Option<nat>)
      requires Valid()
      modifies this`backRequest, this`backAbort, this`aborted, this`ui, this`backSourceKey
      ensures Valid()
      ensures var source := GetBackSource(old(ui).photoFile, old(ui).removeBackground, old(ui).cutoutUrl);
        && (old(ui).photoFile.None? ==> job.None? && unchanged(this))
        && (old(ui).photoFile.Some? && source.None? ==>
              job.None? && ui == old(ui).(backAiStatus := Some(WaitingStatus))
              && unchanged(this`backRequest, this`backAbort, this`aborted, this`backSourceKey))
        && (source.Some? ==>
              var key := CompositeKey(source.value, old(ui).subjectStyle);
              && (job.Some? <==> force || old(backSourceKey) != Some(key))
              && (job.None? ==> unchanged(this))
              && (job.Some? ==> backSourceKey == Some(key) && job.value == backRequest == old(backRequest) + 1
                                && backAbort == job
                                && ui == old(ui).(isGeneratingBack := true, backAiError := None,
                                                  backAiStatus := Some(GeneratingStatus))))
    {
      if ui.photoFile.None? {
        return None;
      }
      var source := GetBackSource(ui.photoFile, ui.removeBackground, ui.cutoutUrl);
      if source.None? {
        ui := ui.(backAiStatus := Some(WaitingStatus));
        return None;
      }
      var compositeKey := CompositeKey(source.value, ui.subjectStyle);
      if !force && Some(compositeKey) == backSourceKey {
        return None;
      }
      backSourceKey := Some(compositeKey);
      var id := StartBackArt(source.value);
      job := Some(id);
    }

    /**
     * `resetBackArt(nextStatus)`: make every in-flight request stale, forget
     * the dedup key, abort and drop the controller, and clear the art.
     */
    method ResetBackArt(nextStatus: Option<string>)
      requires RefsValid()
      modifies this`backRequest, this`backSourceKey, this`backAbort, this`aborted, this`ui
      ensures RefsValid()
      ensures backRequest == old(backRequest) + 1
      ensures backSourceKey.None? && backAbort.None?
      ensures aborted == old(aborted) + (if old(backAbort).Some? then {old(backAbort).value} else {})
      ensures ui == old(ui).(backAiUrl := None, backAiError := None, backAiStatus := nextStatus,
                             isGeneratingBack := false)
    {
      backRequest := backRequest + 1;
      backSourceKey := None;
      if backAbort.Some? {
        aborted := aborted + {backAbort.value};
        backAbort := None;
      }
      ui := ui.(backAiUrl := None, backAiError := None, backAiStatus := nextStatus, isGeneratingBack := false);
    }

    /** The unmount cleanup: abort the in-flight request, if any. */
    method Unmount()
      requires Valid()
      modifies this`backAbort, this`aborted
      ensures Valid()
      ensures backAbort.None?
      ensures aborted == old(aborted) + (if old(backAbort).Some? then {old(backAbort).value} else {})
    {
      if backAbort.Some? {
        aborted := aborted + {backAbort.value};
        backAbort := None;
      }
    }

    // ----------------------------------------------------------- handlers

    /**
     * `handlePhotoChange`, corrected (see the removal flag below): a new photo
     * makes the running removal stale, resets the back art, forgets the old
     * cutout, keeps only a zero offset for the selected template, and starts
     * a removal when removal is on. The flag of the job it made stale is
     * cleared here, as `handleClearPhoto` does.
     */
    method PhotoChange(file: Option<PhotoFile>, newUrl: string) returns (removal: Option<nat>)
      requires Valid()
      modifies this
      ensures Valid()
      ensures file.None? ==> removal.None? && unchanged(this)
      ensures file.Some? ==>
        && ui.photoFile == file && ui.photoUrl == Some(newUrl) && ui.cutoutUrl.None?
        && ui.photoOffsets == map[old(ui).selectedId := Point(0.0, 0.0)]
        && ui.removeBackgroundError.None?
        && ui.backAiUrl.None? && ui.backAiError.None? && !ui.isGeneratingBack
        && backSourceKey.None? && backAbort.None? && backRequest == old(backRequest) + 1
        && aborted == old(aborted) + (if old(backAbort).Some? then {old(backAbort).value} else {})
        && ui.isRemovingBackground == old(ui).removeBackground
        && (removal.Some? <==> old(ui).removeBackground)
        && (removal.Some? ==> removal.value == removeRequest == old(removeRequest) + 2
                              && removalsRunning == old(removalsRunning) + {removal.value})
        && (removal.None? ==> removeRequest == old(removeRequest) + 1 && removalsRunning == old(removalsRunning))
        && ui.backAiStatus == (if old(ui).removeBackground then Some(WaitingStatus) else None)
        && ui.removeBackgroundStatus == (if old(ui).removeBackground then Some(RemovingStatus) else None)
        && ui == old(ui).(photoFile := ui.photoFile, photoUrl := ui.photoUrl, cutoutUrl := ui.cutoutUrl,
                          photoOffsets := ui.photoOffsets, removeBackgroundError := ui.removeBackgroundError,
                          backAiUrl := ui.backAiUrl, backAiError := ui.backAiError,
                          isGeneratingBack := ui.isGeneratingBack, backAiStatus := ui.backAiStatus,
                          isRemovingBackground := ui.isRemovingBackground,
                          removeBackgroundStatus := ui.removeBackgroundStatus)
    {
      removal := None;
      if file.None? {
        return;
      }
      var removeBackground := ui.removeBackground;
      removeRequest := removeRequest + 1;
      ResetBackArt(if removeBackground then Some(WaitingStatus) else None);
      ui := ui.(photoFile := file, removeBackgroundError := None,
                removeBackgroundStatus := if removeBackground then Some(RemovingStatus) else None,
                cutoutUrl := None, photoUrl := Some(newUrl),
                photoOffsets := map[ui.selectedId := Point(0.0, 0.0)],
                isRemovingBackground := false);
      if removeBackground {
        var id := StartBackgroundRemoval();
        removal := Some(id);
      }
    }

    /**
     * `handlePhotoChange` as written: the same steps, but the removal flag is
     * left as it was. A flag set by a job this call makes stale then has no
     * job left to clear it.
     */
    method PhotoChangeAsWritten(file: Option<PhotoFile>, newUrl: string) returns (removal: Option<nat>)
      requires Valid()
      modifies this
      ensures RefsValid()
      ensures file.Some? && !old(ui).removeBackground ==>
                && removal.None? && removeRequest == old(removeRequest) + 1
                && ui.isRemovingBackground == old(ui).isRemovingBackground
                && removalsRunning == old(removalsRunning)
                && ui.photoFile == file && ui.cutoutUrl.None? && ui.removeBackground == old(ui).removeBackground
      ensures file.Some? && old(ui).removeBackground ==>
                && Valid() && ui.isRemovingBackground
                && removal.Some? && removal.value == removeRequest == old(removeRequest) + 2
                && removalsRunning == old(removalsRunning) + {removal.value}
                && ui.photoFile == file && ui.cutoutUrl.None? && ui.removeBackground
      ensures file.Some? ==>
                aborted == old(aborted) + (if old(backAbort).Some? then {old(backAbort).value} else {})
      ensures file.None? ==> unchanged(this)
    {
      removal := None;
      if file.None? {
        return;
      }
      var removeBackground := ui.removeBackground;
      removeRequest := removeRequest + 1;
      ResetBackArt(if removeBackground then Some(WaitingStatus) else None);
      ui := ui.(photoFile := file, removeBackgroundError := None,
                removeBackgroundStatus := if removeBackground then Some(RemovingStatus) else None,
                cutoutUrl := None, photoUrl := Some(newUrl),
                photoOffsets := map[ui.selectedId := Point(0.0, 0.0)]);
      if removeBackground {
        var id := StartBackgroundRemoval();
        removal := Some(id);
      }
    }

    /**
     * `handleToggleRemoveBackground`: turning removal on for a photo with no
     * cutout and no removal running starts one; the back art is reset
     * either way.
     */
    method ToggleRemoveBackground(next: bool) returns (removal: Option<nat>)
      requires RefsValid()
      modifies this
      ensures RefsValid()
      ensures old(RemovalFlagHeld()) ==> RemovalFlagHeld()
      ensures removal.Some? <==>
                next && old(ui).photoFile.Some? && old(ui).cutoutUrl.None? && !old(ui).isRemovingBackground
      ensures removal.Some? ==> removal.value == removeRequest == old(removeRequest) + 1 && ui.isRemovingBackground
      ensures removal.Some? ==> removalsRunning == old(removalsRunning) + {removal.value}
      ensures removal.None? ==> removeRequest == old(removeRequest) && removalsRunning == old(removalsRunning)
                                && ui.isRemovingBackground == old(ui).isRemovingBackground
      ensures ui.removeBackground == next
      ensures ui.removeBackgroundStatus == (if next then Some(RemovingStatus) else None)
      ensures ui.backAiStatus == (if next then Some(WaitingStatus) else None)
      ensures ui.backAiUrl.None? && !ui.isGeneratingBack && backSourceKey.None? && backAbort.None?
      ensures backRequest == old(backRequest) + 1
      ensures aborted == old(aborted) + (if old(backAbort).Some? then {old(backAbort).value} else {})
      ensures ui.photoFile == old(ui).photoFile && ui.cutoutUrl == old(ui).cutoutUrl
      ensures ui == old(ui).(removeBackground := next,
                             removeBackgroundStatus := if next then Some(RemovingStatus) else None,
                             isRemovingBackground := removal.Some? || old(ui).isRemovingBackground,
                             removeBackgroundError := if removal.Some? then None else old(ui).removeBackgroundError,
                             backAiUrl := None, backAiError := None,
                             backAiStatus := if next then Some(WaitingStatus) else None,
                             isGeneratingBack := false)
    {
      var startRemoval := next && ui.photoFile.Some? && ui.cutoutUrl.None? && !ui.isRemovingBackground;
      ui := ui.(removeBackground := next, removeBackgroundStatus := if next then Some(RemovingStatus) else None);
      removal := None;
      if startRemoval {
        var id := StartBackgroundRemoval();
        removal := Some(id);
        ResetBackArt(Some(WaitingStatus));
        return;
      }
      ResetBackArt(if next then Some(WaitingStatus) else None);
    }

    /**
     * `handleToggleAutoFit`: turning auto-fit on zeroes the selected
     * template's offset and leaves photo layout mode.
     */
    method ToggleAutoFit(next: bool)
      requires Valid()
      modifies this`ui
      ensures Valid()
      ensures !next ==> ui == old(ui).(autoFitPhoto := false)
      ensures next ==> ui == old(ui).(autoFitPhoto := true,
                                      photoOffsets := old(ui).photoOffsets[old(ui).selectedId := Point(0.0, 0.0)],
                                      layoutMode := if old(ui).layoutMode == PhotoMode then Off else old(ui).layoutMode)
    {
      ui := ui.(autoFitPhoto := next);
      if next {
        ui := ui.(photoOffsets := ui.photoOffsets[ui.selectedId := Point(0.0, 0.0)]);
        if ui.layoutMode == PhotoMode {
          ui := ui.(layoutMode := Off);
        }
      }
    }

    /** `handleLayoutModeChange`: photo mode switches auto-fit off. */
    method LayoutModeChange(mode: LayoutMode)
      requires Valid()
      modifies this`ui
      ensures Valid()
      ensures ui == old(ui).(layoutMode := mode,
                             autoFitPhoto := if mode == PhotoMode then false else old(ui).autoFitPhoto)
      ensures ui.layoutMode == PhotoMode ==> !ui.autoFitPhoto
    {
      ui := ui.(layoutMode := mode);
      if mode == PhotoMode {
        ui := ui.(autoFitPhoto := false);
      }
    }

    /** The effect on `[autoFitPhoto, selectedId]`. */
    method AutoFitEffect()
      requires Valid()
      modifies this`ui
      ensures Valid()
      ensures ui == (if old(ui).autoFitPhoto
                     then old(ui).(photoOffsets := old(ui).photoOffsets[old(ui).selectedId := Point(0.0, 0.0)])
                     else old(ui))
      ensures ui.autoFitPhoto ==> ui.PhotoOffset() == Point(0.0, 0.0)
    {
      if ui.autoFitPhoto {
        ui := ui.(photoOffsets := ui.photoOffsets[ui.selectedId := Point(0.0, 0.0)]);
      }
    }

    /** The effect on `[layoutMode]`. */
    method PhotoModeEffect()
      requires Valid()
      modifies this`ui
      ensures Valid()
      ensures ui == (if old(ui).layoutMode == PhotoMode then old(ui).(autoFitPhoto := false) else old(ui))
    {
      if ui.layoutMode == PhotoMode {
        ui := ui.(autoFitPhoto := false);
      }
    }

    /** `handleClearPhoto`: stale removal, reset back art, and no photo, cutout or offsets. */
    method ClearPhoto()
      requires Valid()
      modifies this
      ensures Valid()
      ensures removeRequest == old(removeRequest) + 1 && backRequest == old(backRequest) + 1
      ensures backSourceKey.None? && backAbort.None?
      ensures aborted == old(aborted) + (if old(backAbort).Some? then {old(backAbort).value} else {})
      ensures removalsRunning == old(removalsRunning)
      ensures ui == old(ui).(backAiUrl := None, backAiError := None, backAiStatus := None, isGeneratingBack := false,
                             photoFile := None, removeBackgroundError := None, isRemovingBackground := false,
                             removeBackgroundStatus := None, photoUrl := None, cutoutUrl := None,
                             photoOffsets := map[])
    {
      removeRequest := removeRequest + 1;
      ResetBackArt(None);
      ui := ui.(photoFile := None, removeBackgroundError := None, isRemovingBackground := false,
                removeBackgroundStatus := None, photoUrl := None, cutoutUrl := None, photoOffsets := map[]);
    }

    method FrontFieldChange(key: FrontFieldKey, value: string)
      requires Valid()
      modifies this`ui
      ensures Valid()
      ensures ui == old(ui).(frontFields := old(ui).frontFields.Set(key, value))
    {
      ui := ui.(frontFields := ui.frontFields.Set(key, value));
    }

    method BackFieldChange(key: BackFieldKey, value: string)
      requires Valid()
      modifies this`ui
      ensures Valid()
      ensures ui == old(ui).(backFields := old(ui).backFields.Set(key, value))
    {
      ui := ui.(backFields := ui.backFields.Set(key, value));
    }

    /** `handlePhotoOffsetChange`: the offset of the selected template only. */
    method PhotoOffsetChange(next: Point)
      requires Valid()
      modifies this`ui
      ensures Valid()
      ensures ui == old(ui).(photoOffsets := old(ui).photoOffsets[old(ui).selectedId := next])
      ensures ui.PhotoOffset() == next
      ensures forall id :: id != ui.selectedId && id in old(ui).photoOffsets ==>
                id in ui.photoOffsets && ui.photoOffsets[id] == old(ui).photoOffsets[id]
    {
      ui := ui.(photoOffsets := ui.photoOffsets[ui.selectedId := next]);
    }

    /**
     * `handleFrontTextPositionChange`: merge the position into the selected
     * template's entry for this field; every other template and field keeps
     * its override.
     */
    method FrontTextPositionChange(key: FrontFieldKey, next: Point)
      requires Valid()
      modifies this`ui
      ensures Valid()
      ensures ui == old(ui).(frontOverrides := old(ui).frontOverrides[old(ui).selectedId :=
                               old(ui).FrontTextOverrides()[key := next]])
      ensures ui.FrontTextOverrides()[key] == next
      ensures forall k :: k != key ==> Lookup(ui.FrontTextOverrides(), k) == Lookup(old(ui).FrontTextOverrides(), k)
      ensures forall id :: id != ui.selectedId ==> Lookup(ui.frontOverrides, id) == Lookup(old(ui).frontOverrides, id)
    {
      ui := ui.(frontOverrides := ui.frontOverrides[ui.selectedId := ui.FrontTextOverrides()[key := next]]);
    }

    /** `handleBackTextPositionChange`, the same merge for a back field. */
    method BackTextPositionChange(key: BackFieldKey, next: Point)
      requires Valid()
      modifies this`ui
      ensures Valid()
      ensures ui == old(ui).(backOverrides := old(ui).backOverrides[old(ui).selectedId :=
                               old(ui).BackTextOverrides()[key := next]])
      ensures ui.BackTextOverrides()[key] == next
      ensures forall k :: k != key ==> Lookup(ui.BackTextOverrides(), k) == Lookup(old(ui).BackTextOverrides(), k)
      ensures forall id :: id != ui.selectedId ==> Lookup(ui.backOverrides, id) == Lookup(old(ui).backOverrides, id)
    {
      ui := ui.(backOverrides := ui.backOverrides[ui.selectedId := ui.BackTextOverrides()[key := next]]);
    }

    /** `handleResetLayout`: empty the selected template's overrides on both sides, and only those. */
    method ResetLayout()
      requires Valid()
      modifies this`ui
      ensures Valid()
      ensures ui == old(ui).(frontOverrides := old(ui).frontOverrides[old(ui).selectedId := map[]],
                             backOverrides := old(ui).backOverrides[old(ui).selectedId := map[]])
      ensures ui.FrontTextOverrides() == map[] && ui.BackTextOverrides() == map[]
      ensures forall id :: id != ui.selectedId ==>
                Lookup(ui.frontOverrides, id) == Lookup(old(ui).frontOverrides, id)
                && Lookup(ui.backOverrides, id) == Lookup(old(ui).backOverrides, id)
    {
      ui := ui.(frontOverrides := ui.frontOverrides[ui.selectedId := map[]],
                backOverrides := ui.backOverrides[ui.selectedId := map[]]);
    }

    /** The template picker's `onSelect`. */
    method SelectTemplate(id: string)
      requires Valid()
      modifies this`ui
      ensures Valid()
      ensures ui == old(ui).(selectedId := id)
    {
      ui := ui.(selectedId := id);
    }

    method SelectSubjectStyle(style: SubjectStyle)
      requires Valid()
      modifies this`ui
      ensures Valid()
      ensures ui == old(ui).(subjectStyle := style)
    {
      ui := ui.(subjectStyle := style);
    }

    /** The status effect of the back-art panel. */
    method SyncBackStatus()
      requires Valid()
      modifies this`ui
      ensures Valid()
      ensures var s := DerivedBackStatus(old(ui).photoFile.Some?, old(ui).isGeneratingBack, old(ui).backAiUrl.Some?,
                                         old(ui).removeBackground, old(ui).cutoutUrl.Some?);
              ui == (if s.Some? then old(ui).(backAiStatus := s) else old(ui))
    {
      var s := DerivedBackStatus(ui.photoFile.Some?, ui.isGeneratingBack, ui.backAiUrl.Some?,
                                 ui.removeBackground, ui.cutoutUrl.Some?);
      if s.Some? {
        ui := ui.(backAiStatus := s);
      }
    }
  }

  // ------------------------------------------------------------- scenarios

  /**
   * Two back-art requests in a row: the first one's late result, whatever
   * it is, is dropped, and its controller was aborted when the second began.
   */
  method StaleBackArtIsDropped(b: Builder, first: BackSource, second: BackSource, late: BackArtOutcome)
    returns (a: nat, c: nat)
    requires b.Valid()
    modifies b
    ensures b.Valid()
    ensures a != c && a in b.aborted
    ensures b.ui.isGeneratingBack && b.ui.backAiStatus == Some(GeneratingStatus)
    ensures b.ui.backAiUrl == old(b.ui.backAiUrl) && b.ui.backAiError.None?
    ensures b.backAbort == Some(c)
  {
    a := b.StartBackArt(first);
    c := b.StartBackArt(second);
    b.CompleteBackArt(a, late);
  }

  /** After a reset, the result of the request that was running is dropped and the art stays cleared. */
  method ResetDropsInFlightResult(b: Builder, source: BackSource, url: string)
    requires b.Valid()
    modifies b
    ensures b.Valid()
    ensures b.ui.backAiUrl.None? && !b.ui.isGeneratingBack && b.backSourceKey.None?
  {
    var a := b.StartBackArt(source);
    b.ResetBackArt(None);
    b.CompleteBackArt(a, Delivered(Some(url)));
  }

  /** Asking twice for the same source and style issues one job; forcing issues another. */
  method RepeatedRequestIsDeduplicated(b: Builder) returns (first: Option<nat>, second: Option<nat>, forced: Option<nat>)
    requires b.Valid()
    requires GetBackSource(b.ui.photoFile, b.ui.removeBackground, b.ui.cutoutUrl).Some?
    modifies b
    ensures first.Some? ==> second.None?
    ensures forced.Some?
  {
    first := b.RequestBackGeneration(false);
    second := b.RequestBackGeneration(false);
    forced := b.RequestBackGeneration(true);
  }

  /**
   * The sequence that leaves the removal flag stuck with the handler as
   * written: removal on, a photo (its removal starts), removal off, a second
   * photo, the first removal settles (stale), removal on again. The flag is
   * still set with no running job to clear it, so the last toggle does not
   * start a removal although the new photo has no cutout, and the status
   * claims a removal is under way.
   */
  method StuckRemovalAsWritten(fileA: PhotoFile, fileB: PhotoFile, urlA: string, urlB: string, cutout: string)
    returns (b: Builder, restarted: Option<nat>)
    ensures restarted.None?
    ensures b.ui.removeBackground && b.ui.photoFile == Some(fileB) && b.ui.cutoutUrl.None?
    ensures b.ui.isRemovingBackground && b.removeRequest !in b.removalsRunning
    ensures b.ui.removeBackgroundStatus == Some(RemovingStatus)
  {
    b := new Builder();
    var first := b.PhotoChangeAsWritten(Some(fileA), urlA);
    var _ := b.ToggleRemoveBackground(false);
    var _ := b.PhotoChangeAsWritten(Some(fileB), urlB);
    b.CompleteBackgroundRemoval(first.value, Removed(cutout));
    restarted := b.ToggleRemoveBackground(true);
  }

  /** The same sequence with the corrected handler restarts the removal for the new photo. */
  method RemovalRestartsWhenCorrected(fileA: PhotoFile, fileB: PhotoFile, urlA: string, urlB: string, cutout: string)
    returns (b: Builder, restarted: Option<nat>)
    ensures restarted.Some? && b.removeRequest in b.removalsRunning
    ensures b.ui.removeBackground && b.ui.photoFile == Some(fileB) && b.ui.isRemovingBackground
  {
    b := new Builder();
    var first := b.PhotoChange(Some(fileA), urlA);
    var _ := b.ToggleRemoveBackground(false);
    var _ := b.PhotoChange(Some(fileB), urlB);
    b.CompleteBackgroundRemoval(first.value, Removed(cutout));
    restarted := b.ToggleRemoveBackground(true);
  }
}
