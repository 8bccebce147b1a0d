/**
 * The two dialogs of the chat client: SettingsDialog edits the settings
 * dictionary the main window shares with it, ModelDownloadDialog reads a
 * model name and runs a ModelDownloadWorker for it. Widgets are reduced to
 * the values they hold: a slider to its value, a text box to its text, a
 * button to whether it is enabled.
 */
module Dialogs {
  import opened Wrappers
  import opened Text
  import Workers

  /** Range of the temperature slider, in tenths (0.0 to 2.0). */
  const TemperatureMin := 0
  const TemperatureMax := 20
  /** Range of the max-tokens slider. */
  const TokensMin := 100
  const TokensMax := 4000

  /**
   * The settings dictionary with its three keys. The temperature is kept in
   * tenths: 7 stands for 0.7.
   */
  class Settings {
    var temperature: int
    var maxTokens: int
    var systemPrompt: string

    constructor (temperature: int, maxTokens: int, systemPrompt: string)
      ensures this.temperature == temperature && this.maxTokens == maxTokens
      ensures this.systemPrompt == systemPrompt
    {
      this.temperature := temperature;
      this.maxTokens := maxTokens;
      this.systemPrompt := systemPrompt;
    }
  }

  /** The dialog's result code as accept() and reject() set it, or Open before either is called. */
  datatype DialogResult = Open | Accepted | Rejected

  function Distance(a: int, b: int): nat {
    if a <= b then b - a else a - b
  }

  /**
   * The value a QSlider with range [lo, hi] holds after setValue(v): the
   * point of the range nearest to v.
   */
  function Clamp(v: int, lo: int, hi: int): (r: int)
    requires lo <= hi
    ensures lo <= r <= hi
    ensures lo <= v <= hi ==> r == v
    ensures forall w :: lo <= w <= hi ==> Distance(r, v) <= Distance(w, v)
  {
    if v < lo then lo else if v > hi then hi else v
  }

  class SettingsDialog {
    const settings: Settings
    var temperatureSlider: int
    var tokensSlider: int
    var systemText: string
    var result: DialogResult

    /** Both sliders hold a value of their range. */
    predicate Valid()
      reads this
    {
      && TemperatureMin <= temperatureSlider <= TemperatureMax
      && TokensMin <= tokensSlider <= TokensMax
    }

    /**
     * __init__ and setup_ui: the sliders start from the current settings.
     * With the temperature in tenths, int(temperature * 10) is the
     * temperature itself.
     */
    constructor (settings: Settings)
      ensures this.settings == settings
      ensures temperatureSlider == Clamp(settings.temperature, TemperatureMin, TemperatureMax)
      ensures tokensSlider == Clamp(settings.maxTokens, TokensMin, TokensMax)
      ensures systemText == settings.systemPrompt
      ensures result == Open
      ensures Valid()
    {
      this.settings := settings;
      temperatureSlider := Clamp(settings.temperature, TemperatureMin, TemperatureMax);
      tokensSlider := Clamp(settings.maxTokens, TokensMin, TokensMax);
      systemText := settings.systemPrompt;
      result := Open;
    }

    /** The user moves the temperature slider towards v. */
    method MoveTemperature(v: int)
      modifies this`temperatureSlider
      ensures temperatureSlider == Clamp(v, TemperatureMin, TemperatureMax)
      ensures old(Valid()) ==> Valid()
    {
      temperatureSlider := Clamp(v, TemperatureMin, TemperatureMax);
    }

    /** The user moves the max-tokens slider towards v. */
    method MoveTokens(v: int)
      modifies this`tokensSlider
      ensures tokensSlider == Clamp(v, TokensMin, TokensMax)
      ensures old(Valid()) ==> Valid()
    {
      tokensSlider := Clamp(v, TokensMin, TokensMax);
    }

    /** The user edits the system prompt box. */
    method EditSystemPrompt(text: string)
      modifies this`systemText
      ensures systemText == text
    {
      systemText := text;
    }

    /**
     * save_settings: the three keys of the shared dictionary get the
     * slider values and the prompt text, which are within the slider
     * ranges, and the dialog is accepted.
     */
    method SaveSettings()
      requires Valid()
      modifies settings, this`result
      ensures settings.temperature == temperatureSlider
      ensures settings.maxTokens == tokensSlider
      ensures settings.systemPrompt == systemText
      ensures TemperatureMin <= settings.temperature <= TemperatureMax
      ensures TokensMin <= settings.maxTokens <= TokensMax
      ensures result == Accepted
    {
      settings.temperature := temperatureSlider;
      settings.maxTokens := tokensSlider;
      settings.systemPrompt := systemText;
      result := Accepted;
    }

    /** The Cancel button: reject() leaves the settings as they were. */
    method Cancel()
      modifies this`result
      ensures result == Rejected
    {
      result := Rejected;
    }
  }

  /** Saving and opening the dialog again shows exactly what was saved. */
  method ReopenAfterSave(dialog: SettingsDialog) returns (again: SettingsDialog)
    requires dialog.Valid()
    modifies dialog.settings, dialog
    ensures dialog.result == Accepted
    ensures fresh(again) && again.settings == dialog.settings
    ensures again.temperatureSlider == old(dialog.temperatureSlider)
    ensures again.tokensSlider == old(dialog.tokensSlider)
    ensures again.systemText == old(dialog.systemText)
  {
    dialog.SaveSettings();
    again := new SettingsDialog(dialog.settings);
  }

  /** The text of the progress label: plain text, or a progress message of the worker. */
  datatype ProgressLabel = Text(text: string) | Report(report: Workers.Progress)

  /**
   * The model name start_download accepts: the stripped input, or None when
   * nothing but whitespace was entered.
   */
  function ModelNameOf(input: string): (r: Option<string>)
    ensures r.None? <==> AllSpace(input)
    ensures r.Some? ==> r.value == Strip(input) && r.value != []
    ensures r.Some? ==> !IsSpace(r.value[0]) && !IsSpace(r.value[|r.value| - 1])
  {
    var name := Strip(input);
    if name == [] then None else Some(name)
  }

  class ModelDownloadDialog {
    var worker: Workers.ModelDownloadWorker?
    var modelInput: string
    var downloadEnabled: bool  // the Download button
    var inputEnabled: bool     // the model name box
    var progressVisible: bool
    var progressLabel: ProgressLabel
    var result: DialogResult
    var detached: bool         // the worker's signals no longer reach the slots

    /**
     * The Download button and the name box are enabled together; while they
     * are disabled a download is under way; the progress label is shown once
     * a worker has been created.
     */
    predicate Valid()
      reads this
    {
      && downloadEnabled == inputEnabled
      && (!downloadEnabled ==> worker != null)
      && (progressVisible <==> worker != null)
    }

    constructor ()
      ensures worker == null && modelInput == ""
      ensures downloadEnabled && inputEnabled && !progressVisible
      ensures progressLabel == Text("") && result == Open && !detached
      ensures Valid()
    {
      detached := false;
      worker := null;
      modelInput := "";
      downloadEnabled := true;
      inputEnabled := true;
      progressVisible := false;
      progressLabel := Text("");
      result := Open;
    }

    method TypeModelName(text: string)
      modifies this`modelInput
      ensures modelInput == text
    {
      modelInput := text;
    }

    /**
     * start_download: a name that strips to nothing only raises the warning
     * (`warned`) and changes nothing; otherwise the controls are disabled and
     * a fresh worker for the stripped name is started.
     */
    method StartDownload() returns (warned: bool)
      requires Valid()
      modifies this
      ensures warned <==> AllSpace(old(modelInput))
      ensures warned ==> unchanged(this)
      ensures !warned ==> && worker != null && fresh(worker)
                          && worker.modelName == Strip(old(modelInput))
                          && worker.isRunning && worker.started && worker.emitted == []
      ensures !warned ==> && !downloadEnabled && !inputEnabled && progressVisible
                          && progressLabel == Text("Starting download...")
                          && modelInput == old(modelInput) && result == old(result) && detached == old(detached)
      ensures Valid()
    {
      var name := ModelNameOf(modelInput);
      if name.None? {
        return true;
      }
      downloadEnabled := false;
      inputEnabled := false;
      progressVisible := true;
      progressLabel := Text("Starting download...");
      var w := new Workers.ModelDownloadWorker(name.value);
      w.Start();
      worker := w;
      return false;
    }

    /** update_progress: the label shows the worker's message. */
    method UpdateProgress(report: Workers.Progress)
      modifies this`progressLabel
      ensures progressLabel == Report(report)
    {
      progressLabel := Report(report);
    }

    /** download_finished: the label reports success and the dialog is accepted. */
    method DownloadFinished()
      modifies this`progressLabel, this`result
      ensures progressLabel == Text("\U{2705} Download complete!")
      ensures result == Accepted
    {
      progressLabel := Text("\U{2705} Download complete!");
      result := Accepted;
    }

    /** download_error: the label shows the error and the controls are enabled again. */
    method DownloadError(error: string)
      requires Valid()
      modifies this`progressLabel, this`downloadEnabled, this`inputEnabled
      ensures progressLabel == Text("\U{274C} Error: " + error)
      ensures downloadEnabled && inputEnabled
      ensures Valid()
    {
      progressLabel := Text("\U{274C} Error: " + error);
      downloadEnabled := true;
      inputEnabled := true;
    }

    /** The slot each signal of the worker is connected to. */
    method Deliver(e: Workers.DownloadEvent)
      requires Valid()
      modifies this`progressLabel, this`result, this`downloadEnabled, this`inputEnabled
      ensures e.Progressed? ==> && progressLabel == Report(e.report) && result == old(result)
                                && downloadEnabled == old(downloadEnabled) && inputEnabled == old(inputEnabled)
      ensures e.DownloadFinished? ==> && progressLabel == Text("\U{2705} Download complete!") && result == Accepted
                                      && downloadEnabled == old(downloadEnabled) && inputEnabled == old(inputEnabled)
      ensures e.DownloadFailed? ==> && progressLabel == Text("\U{274C} Error: " + e.message)
                                    && downloadEnabled && inputEnabled && result == old(result)
      ensures Valid()
    {
      match e
      case Progressed(report) => UpdateProgress(report);
      case DownloadFinished => DownloadFinished();
      case DownloadFailed(message) => DownloadError(message);
    }

    /**
     * cancel_download: stop() only reaches a worker that exists and whose
     * thread is alive (`threadAlive`, QThread.isRunning()); the dialog is
     * rejected in every case.
     */
    method CancelDownload(threadAlive: bool)
      modifies this`result, worker
      ensures result == Rejected
      ensures worker == old(worker)
      ensures worker != null && threadAlive ==> !worker.isRunning
      ensures worker != null && !threadAlive ==> unchanged(worker)
      ensures worker != null ==> worker.emitted == old(worker.emitted) && worker.started == old(worker.started)
      ensures old(Valid()) ==> Valid()
    {
      if worker != null && threadAlive {
        worker.Stop();
      }
      result := Rejected;
    }

    /**
     * cancel_download with the worker's signals disconnected first, so that
     * the finished signal a stopped pull still emits is not taken for success.
     */
    method CancelDownloadDetached(threadAlive: bool)
      modifies this`result, this`detached, worker
      ensures result == Rejected && detached
      ensures worker == old(worker)
      ensures worker != null && threadAlive ==> !worker.isRunning
      ensures worker != null && !threadAlive ==> unchanged(worker)
      ensures worker != null ==> worker.emitted == old(worker.emitted) && worker.started == old(worker.started)
      ensures old(Valid()) ==> Valid()
    {
      detached := true;
      CancelDownload(threadAlive);
    }

    /** A signal of the worker reaches its slot only while the dialog is still connected to it. */
    method DeliverConnected(e: Workers.DownloadEvent)
      requires Valid()
      modifies this`progressLabel, this`result, this`downloadEnabled, this`inputEnabled
      ensures detached ==> unchanged(this)
      ensures !detached && e.Progressed? ==> && progressLabel == Report(e.report) && result == old(result)
                                             && downloadEnabled == old(downloadEnabled) && inputEnabled == old(inputEnabled)
      ensures !detached && e.DownloadFinished? ==> && progressLabel == Text("\U{2705} Download complete!") && result == Accepted
                                                   && downloadEnabled == old(downloadEnabled) && inputEnabled == old(inputEnabled)
      ensures !detached && e.DownloadFailed? ==> && progressLabel == Text("\U{274C} Error: " + e.message)
                                                 && downloadEnabled && inputEnabled && result == old(result)
      ensures Valid()
    {
      if !detached {
        Deliver(e);
      }
    }
  }

  /** The dialog after "llama3.2" is entered, the download is started and then cancelled at once. */
  method StartThenCancel(detach: bool) returns (d: ModelDownloadDialog, w: Workers.ModelDownloadWorker)
    ensures fresh(d) && fresh(w) && d.Valid() && d.worker == w
    ensures d.result == Rejected && d.progressLabel == Text("Starting download...") && d.detached == detach
    ensures !w.isRunning && w.emitted == [] && w.modelName == "llama3.2"
  {
    d := new ModelDownloadDialog();
    d.TypeModelName("llama3.2");
    assert !IsSpace(d.modelInput[0]);
    var warned := d.StartDownload();
    w := d.worker;
    if detach {
      d.CancelDownloadDetached(true);
    } else {
      d.CancelDownload(true);
    }
  }

  /**
   * A pull cancelled before its first progress line still ends with
   * finished, and download_finished then reports success.
   */
  method CancelledDownloadReportsSuccess() returns (caption: ProgressLabel, result: DialogResult)
    ensures caption == Text("\U{2705} Download complete!") && result == Accepted
  {
    var d, w := StartThenCancel(false);
    var _ := w.Run(Workers.Stream([Workers.Record(None, false, Some("pulling manifest"), None, None)]), 0);
    assert w.emitted == [Workers.DownloadFinished];
    d.Deliver(w.emitted[0]);
    caption, result := d.progressLabel, d.result;
  }

  /** With the signals disconnected on cancel, the cancelled dialog stays rejected. */
  method CancelledDownloadStaysCancelled() returns (caption: ProgressLabel, result: DialogResult)
    ensures caption == Text("Starting download...") && result == Rejected
  {
    var d, w := StartThenCancel(true);
    var _ := w.Run(Workers.Stream([Workers.Record(None, false, Some("pulling manifest"), None, None)]), 0);
    assert w.emitted == [Workers.DownloadFinished];
    d.DeliverConnected(w.emitted[0]);
    caption, result := d.progressLabel, d.result;
  }
}
