/**
 * The `Home` page of src/pages/Home.tsx as one component: the settings, high
 * scores and stats it loads through `useSettings`, `useHighscores` and `useStats`
 * (lines 8-10), the hit detector it configures (lines 18-23), and the session
 * controller whose handlers also start, stop and reset that detector. Each handler
 * is proved to perform the session transition of the Session module and the
 * detector transition of the AudioDetection module, and every save writes the new
 * high scores and stats through to storage. React re-renders after every handler
 * and frame, so each one ends by running the hit-tracking effect (lines 191-198)
 * on the detector's new state; the effect acts only when that state changed.
 */
module Home {
  import Storage
  import AudioDetection
  import Session

  /** Lines 18-23: the detector listens to 2 kHz - 8 kHz with the user's settings. */
  function DetectorConfig(settings: Storage.Settings): (c: AudioDetection.Config)
    ensures c.frequencyMin == 2000 && c.frequencyMax == 8000
    ensures c.sensitivity == settings.sensitivity && c.minHitInterval == settings.minHitInterval
  {
    AudioDetection.Config(settings.sensitivity, settings.minHitInterval, 2000, 8000)
  }

  /** What `useSettings`, `useHighscores` and `useStats` load on mount. */
  function LoadedSettings(entries: map<string, Storage.Entry>, readable: bool): Storage.Value {
    Storage.LoadOrDefault(entries, readable, Storage.SettingsKey, Storage.SettingsValue(Storage.DefaultSettings))
  }

  function LoadedScores(entries: map<string, Storage.Entry>, readable: bool): Storage.Value {
    Storage.LoadOrDefault(entries, readable, Storage.ScoresKey, Storage.ScoresValue(Storage.DefaultScores))
  }

  function LoadedStats(entries: map<string, Storage.Entry>, readable: bool): Storage.Value {
    Storage.LoadOrDefault(entries, readable, Storage.StatsKey, Storage.StatsValue(Storage.DefaultStats))
  }

  /**
   * The storage writes of one `saveScore` (lines 158-173): `setHighscores` then
   * `setStats`, each of which may fail on its own without effect.
   */
  function SaveWrites(entries: map<string, Storage.Entry>, highscores: seq<Storage.Score>, stats: Storage.Stats,
                      scoresOk: bool, statsOk: bool): map<string, Storage.Entry>
  {
    var afterScores := if scoresOk then Storage.Store(entries, Storage.ScoresKey, Storage.ScoresValue(highscores)) else entries;
    if statsOk then Storage.Store(afterScores, Storage.StatsKey, Storage.StatsValue(stats)) else afterScores
  }

  /**
   * A page mounted after a save loads the saved high scores and stats when their
   * writes succeeded, and what it loaded before otherwise; the settings are not
   * touched by a save.
   */
  lemma ReloadAfterSave(entries: map<string, Storage.Entry>, highscores: seq<Storage.Score>, stats: Storage.Stats,
                        scoresOk: bool, statsOk: bool, readable: bool)
    ensures var e := SaveWrites(entries, highscores, stats, scoresOk, statsOk);
      (scoresOk ==> LoadedScores(e, true) == Storage.ScoresValue(highscores)) &&
      (statsOk ==> LoadedStats(e, true) == Storage.StatsValue(stats)) &&
      (!scoresOk ==> LoadedScores(e, readable) == LoadedScores(entries, readable)) &&
      (!statsOk ==> LoadedStats(e, readable) == LoadedStats(entries, readable)) &&
      LoadedSettings(e, readable) == LoadedSettings(entries, readable)
  {
  }

  class Page {
    const storage: Storage.LocalStorage
    const settingsCell: Storage.Cell
    const scoresCell: Storage.Cell
    const statsCell: Storage.Cell
    const detector: AudioDetection.Detector
    const controller: Session.Controller

    /**
     * The detector's refs match its recorded levels; the hit-tracking effect has
     * seen the detector's current `(isActive, hitCount)`, as it has after every
     * re-render; and the two writable cells share the page's storage and hold the
     * controller's high scores and stats.
     */
    ghost predicate Valid()
      reads this, detector, controller, scoresCell, statsCell
    {
      detector.Valid() &&
      controller.seenActive == detector.isActive && controller.seenHitCount == detector.hitCount &&
      scoresCell.storage == storage && statsCell.storage == storage &&
      scoresCell.key == Storage.ScoresKey && statsCell.key == Storage.StatsKey &&
      scoresCell != statsCell &&
      scoresCell.stored == Storage.ScoresValue(controller.highscores) &&
      statsCell.stored == Storage.StatsValue(controller.stats)
    }

    /**
     * The mounted page. `readable` is false when reading storage throws. The three
     * keys must hold (or default to) values of their own record types.
     */
    constructor (storage: Storage.LocalStorage, readable: bool)
      requires LoadedSettings(storage.entries, readable).SettingsValue?
      requires LoadedScores(storage.entries, readable).ScoresValue?
      requires LoadedStats(storage.entries, readable).StatsValue?
      ensures Valid() && this.storage == storage && fresh(detector) && fresh(controller)
      ensures var settings := LoadedSettings(storage.entries, readable).settings;
        detector.config == DetectorConfig(settings) && !detector.audioReady &&
        detector.State() == AudioDetection.DetectorState(false, false, 0.0, 0, 0) &&
        controller.State() == Session.Mounted(settings.sessionTimeout,
                                              LoadedScores(storage.entries, readable).scores,
                                              LoadedStats(storage.entries, readable).stats)
    {
      var settingsCell := new Storage.Cell(storage, Storage.SettingsKey, Storage.SettingsValue(Storage.DefaultSettings), readable);
      var scoresCell := new Storage.Cell(storage, Storage.ScoresKey, Storage.ScoresValue(Storage.DefaultScores), readable);
      var statsCell := new Storage.Cell(storage, Storage.StatsKey, Storage.StatsValue(Storage.DefaultStats), readable);
      var settings := settingsCell.stored.settings;
      this.storage := storage;
      this.settingsCell, this.scoresCell, this.statsCell := settingsCell, scoresCell, statsCell;
      detector := new AudioDetection.Detector(DetectorConfig(settings));
      controller := new Session.Controller(settings.sessionTimeout, scoresCell.stored.scores, statsCell.stored.stats);
    }

    /**
     * The writes of `setHighscores` and `setStats` in `saveScore` (lines 158-173),
     * through `useLocalStorage`'s setter: each cell takes the controller's new list
     * or stats in memory, and storage takes it when that write succeeds.
     */
    method Persist(scoresOk: bool, statsOk: bool)
      requires scoresCell.storage == storage && statsCell.storage == storage
      requires scoresCell.key == Storage.ScoresKey && statsCell.key == Storage.StatsKey && scoresCell != statsCell
      modifies scoresCell, statsCell, storage
      ensures scoresCell.stored == Storage.ScoresValue(controller.highscores)
      ensures statsCell.stored == Storage.StatsValue(controller.stats)
      ensures storage.entries == SaveWrites(old(storage.entries), controller.highscores, controller.stats, scoresOk, statsOk)
    {
      scoresCell.SetValue(Storage.ScoresValue(controller.highscores), scoresOk);
      statsCell.SetValue(Storage.StatsValue(controller.stats), statsOk);
    }

    /** `handleStart` (lines 25-47); `initOk` says whether the microphone could be opened. */
    method HandleStart(initOk: bool, now: int) returns (success: bool)
      requires Valid()
      modifies detector, controller
      ensures Valid()
      ensures success == (old(detector.audioReady) || initOk) && detector.audioReady == success
      ensures controller.State() ==
        Session.DetectorUpdate(Session.Start(old(controller.State()), success, now), detector.isActive, detector.hitCount, now)
      ensures !success ==> detector.State() == old(detector.State()) &&
                           detector.Refs() == old(detector.Refs()) && detector.levels == old(detector.levels)
      ensures success ==> (detector.Refs() == AudioDetection.Reset && detector.levels == [] &&
        detector.State() == old(detector.State()).(isActive := true, hitCount := 0,
                                                   isListening := old(detector.audioReady) ==> old(detector.isListening)))
    {
      Session.StartProperties(controller.State(), old(detector.audioReady) || initOk, now);
      success := detector.StartDetection(initOk);
      controller.HandleStart(success, now);
      Session.DetectorUpdateProperties(controller.State(), detector.isActive, detector.hitCount, now);
      controller.OnDetectorChange(detector.isActive, detector.hitCount, now);
    }

    /**
     * `handleStop` (lines 76-98): storage is written only when a session with a
     * (truthy) start time is saved.
     */
    method HandleStop(now: int, id: string, date: string, scoresOk: bool, statsOk: bool)
      requires Valid()
      modifies detector, controller, scoresCell, statsCell, storage
      ensures Valid()
      ensures controller.State() ==
        Session.DetectorUpdate(Session.Stop(old(controller.State()), now, id, date), detector.isActive, detector.hitCount, now)
      ensures detector.State() == old(detector.State()).(isActive := false)
      ensures detector.Refs() == old(detector.Refs()) && detector.levels == old(detector.levels) &&
              detector.audioReady == old(detector.audioReady)
      ensures storage.entries ==
        if Session.HasStart(old(controller.State()))
        then SaveWrites(old(storage.entries), controller.highscores, controller.stats, scoresOk, statsOk)
        else old(storage.entries)
    {
      var saving := Session.HasStart(controller.State());
      Session.StopProperties(controller.State(), now, id, date);
      controller.HandleStop(now, id, date);
      detector.StopDetection();
      if saving {
        Persist(scoresOk, statsOk);
      }
      Session.DetectorUpdateProperties(controller.State(), detector.isActive, detector.hitCount, now);
      controller.OnDetectorChange(detector.isActive, detector.hitCount, now);
    }

    /** `handleReset` (lines 130-135), then the effect sees the zeroed count at `now`. */
    method HandleReset(now: int)
      requires Valid()
      modifies detector, controller
      ensures Valid()
      ensures controller.State() ==
        Session.DetectorUpdate(Session.Reset(old(controller.State())), detector.isActive, detector.hitCount, now)
      ensures detector.State() == old(detector.State()).(hitCount := 0, lastHitTime := 0)
      ensures detector.Refs() == old(detector.Refs()) && detector.levels == old(detector.levels) &&
              detector.audioReady == old(detector.audioReady)
    {
      Session.ResetProperties(controller.State());
      controller.HandleReset();
      detector.ResetCounter();
      Session.DetectorUpdateProperties(controller.State(), detector.isActive, detector.hitCount, now);
      controller.OnDetectorChange(detector.isActive, detector.hitCount, now);
    }

    /**
     * One run of the inactivity interval (lines 58-69); when it times out,
     * `handleTimeoutStop` (lines 100-120) also stops the detector and the save is
     * written through to storage.
     */
    method OnInterval(now: int, id: string, date: string, scoresOk: bool, statsOk: bool)
      requires Valid()
      modifies detector, controller, scoresCell, statsCell, storage
      ensures Valid()
      ensures controller.State() ==
        Session.DetectorUpdate(Session.Tick(old(controller.State()), now, id, date), detector.isActive, detector.hitCount, now)
      ensures var timedOut := old(controller.timerArmed) && Session.Remaining(old(controller.State()), now) <= 0.0;
        detector.State() == (if timedOut then old(detector.State()).(isActive := false) else old(detector.State())) &&
        storage.entries ==
          if timedOut then SaveWrites(old(storage.entries), controller.highscores, controller.stats, scoresOk, statsOk)
          else old(storage.entries)
      ensures detector.Refs() == old(detector.Refs()) && detector.levels == old(detector.levels) &&
              detector.audioReady == old(detector.audioReady)
    {
      var timedOut := controller.timerArmed && Session.Remaining(controller.State(), now) <= 0.0;
      Session.TickProperties(controller.State(), now, id, date);
      controller.OnInterval(now, id, date);
      if timedOut {
        detector.StopDetection();
        Persist(scoresOk, statsOk);
      }
      Session.DetectorUpdateProperties(controller.State(), detector.isActive, detector.hitCount, now);
      controller.OnDetectorChange(detector.isActive, detector.hitCount, now);
    }

    /**
     * One animation frame: the detector analyses a spectrum snapshot, then the
     * hit-tracking effect (lines 191-198) sees the detector's new state.
     */
    method OnFrame(data: array<AudioDetection.byte>, sampleRate: nat, now: int)
      requires Valid()
      requires AudioDetection.WellFormed(AudioDetection.BinsFor(detector.config, data.Length, sampleRate), data.Length)
      modifies detector, controller
      ensures Valid()
      ensures var f := AudioDetection.FeaturesOf(data[..], AudioDetection.BinsFor(detector.config, data.Length, sampleRate));
        detector.levels == old(detector.levels) + [f.currentLevel] &&
        detector.Refs() == AudioDetection.Record(old(detector.Refs()), f.currentLevel) &&
        detector.audioReady == old(detector.audioReady) &&
        AudioDetection.NonNegative(detector.history) && f.lowMidAvg >= 0.0 &&
        detector.State() == AudioDetection.Updater(detector.config, detector.Refs(), f, now, old(detector.State()))
      ensures controller.State() ==
        Session.DetectorUpdate(old(controller.State()), detector.isActive, detector.hitCount, now)
    {
      detector.Analyze(data, sampleRate, now);
      Session.DetectorUpdateProperties(controller.State(), detector.isActive, detector.hitCount, now);
      controller.OnDetectorChange(detector.isActive, detector.hitCount, now);
    }
  }
}
