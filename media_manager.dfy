/**
 * The downloadable background audio and the media settings
 * (lib/media-manager.ts): the audio file's presence in the documents
 * directory, its download with progress reports, its deletion, and the two
 * playback switches kept in the device's key-value store.
 */
module MediaManager {
  import opened Storage

  const AudioUrl := "https://gorbzonklzeidxivpseg.supabase.co/storage/v1/object/public/Audios/sunsalutation.mp3"
  const AudioFilename := "sunsalutation.mp3"

  datatype MediaSettings = MediaSettings(ttsEnabled: bool, bgAudioEnabled: bool)

  const DefaultSettings := MediaSettings(true, true)

  /** The object stored under `@aasanify_media_settings`; a field may be missing. */
  datatype StoredSettings = StoredSettings(ttsEnabled: Option<bool>, bgAudioEnabled: Option<bool>)

  /** `{ ...DEFAULT_SETTINGS, ...stored }`: a stored field overrides its default, a missing one keeps it. */
  function MergeDefaults(stored: StoredSettings): (s: MediaSettings)
    ensures s.ttsEnabled == if stored.ttsEnabled.Some? then stored.ttsEnabled.value else DefaultSettings.ttsEnabled
    ensures s.bgAudioEnabled == if stored.bgAudioEnabled.Some? then stored.bgAudioEnabled.value else DefaultSettings.bgAudioEnabled
  {
    MediaSettings(
      match stored.ttsEnabled case Some(v) => v case None => DefaultSettings.ttsEnabled,
      match stored.bgAudioEnabled case Some(v) => v case None => DefaultSettings.bgAudioEnabled)
  }

  /** What `saveMediaSettings` stores: every field present. */
  function Serialize(s: MediaSettings): StoredSettings {
    StoredSettings(Some(s.ttsEnabled), Some(s.bgAudioEnabled))
  }

  /** `getMediaSettings`: the merged stored object, or the defaults when nothing is stored or it cannot be read. */
  function ReadSettings(slot: Slot<StoredSettings>): (s: MediaSettings)
    ensures !slot.Holds? ==> s == DefaultSettings
    ensures slot.Holds? ==> s == MergeDefaults(slot.value)
  {
    match slot
    case Holds(stored) => MergeDefaults(stored)
    case _ => DefaultSettings
  }

  /** Settings that were saved read back unchanged. */
  lemma SettingsRoundTrip(s: MediaSettings)
    ensures ReadSettings(Holds(Serialize(s))) == s
    ensures ReadSettings(Holds(StoredSettings(None, None))) == DefaultSettings
  {
  }

  /** One call of `getMediaSettings`: a rejected read is caught and gives the defaults, whatever the key holds. */
  function ReadSettingsOnce(slot: Slot<StoredSettings>, readFails: bool): (s: MediaSettings)
    ensures readFails ==> s == DefaultSettings
    ensures !readFails ==> s == ReadSettings(slot)
  {
    if readFails then DefaultSettings else ReadSettings(slot)
  }

  /** The profile screen's `toggleTTS`: the settings it last read with speech flipped. */
  function ToggleTts(s: MediaSettings): MediaSettings {
    s.(ttsEnabled := !s.ttsEnabled)
  }

  /**
   * What the key reads as after the profile screen loads the settings and
   * one speech toggle is saved: speech is flipped and background audio is
   * kept when the load read the key, but background audio is switched back
   * on when that one load's read rejected.
   */
  lemma ToggleTtsSaves(slot: Slot<StoredSettings>, readFails: bool)
    ensures var saved := ReadSettings(Holds(Serialize(ToggleTts(ReadSettingsOnce(slot, readFails)))));
      && (!readFails ==> saved.ttsEnabled != ReadSettings(slot).ttsEnabled && saved.bgAudioEnabled == ReadSettings(slot).bgAudioEnabled)
      && (readFails ==> saved == MediaSettings(false, true))
  {
    SettingsRoundTrip(ToggleTts(ReadSettingsOnce(slot, readFails)));
  }

  /** A stored `bgAudioEnabled: false` is lost by one speech toggle saved after a failed load. */
  lemma ToggleAfterFailedReadEnablesBgAudio(slot: Slot<StoredSettings>)
    requires !ReadSettings(slot).bgAudioEnabled
    ensures ReadSettings(Holds(Serialize(ToggleTts(ReadSettingsOnce(slot, true))))).bgAudioEnabled
  {
    ToggleTtsSaves(slot, true);
  }

  /** One progress event of the download: bytes written so far and the expected total. */
  datatype ProgressEvent = ProgressEvent(written: int, expected: int)

  /** A progress value handed to `onProgress`, as the ratio `written / expected`. */
  datatype Progress = Progress(written: int, expected: int)

  /** The progress values the callback reports: one per event whose expected total is positive, in order. */
  function Reports(events: seq<ProgressEvent>): (r: seq<Progress>)
    ensures |r| <= |events|
    ensures forall i :: 0 <= i < |r| ==> r[i].expected > 0
    decreases |events|
  {
    if events == [] then []
    else
      var e := events[|events| - 1];
      Reports(events[..|events| - 1]) + (if e.expected > 0 then [Progress(e.written, e.expected)] else [])
  }

  /** A single event is reported exactly when its expected total is positive. */
  lemma ReportsOne(e: ProgressEvent)
    ensures e.expected > 0 ==> Reports([e]) == [Progress(e.written, e.expected)]
    ensures e.expected <= 0 ==> Reports([e]) == []
  {
    assert [e][..0] == [];
  }

  /**
   * The reports of a run of events are the reports of its first part followed
   * by those of the rest; with `ReportsOne` this fixes the reports of every
   * sequence, one event at a time, in order.
   */
  lemma {:induction false} ReportsAppend(a: seq<ProgressEvent>, b: seq<ProgressEvent>)
    ensures Reports(a + b) == Reports(a) + Reports(b)
    decreases |b|
  {
    if b == [] {
      assert a + b == a;
    } else {
      var front, e := b[..|b| - 1], b[|b| - 1];
      assert (a + b)[..|a + b| - 1] == a + front;
      assert (a + b)[|a + b| - 1] == e;
      ReportsAppend(a, front);
    }
  }

  /** The reports of events mixing known and unknown totals, as in a download whose size header arrives late. */
  lemma ReportsSkipUnknown(written: int, expected: int)
    requires expected > 0
    ensures Reports([ProgressEvent(0, 0), ProgressEvent(written, expected)]) == [Progress(written, expected)]
  {
    ReportsAppend([ProgressEvent(0, 0)], [ProgressEvent(written, expected)]);
    ReportsOne(ProgressEvent(0, 0));
    ReportsOne(ProgressEvent(written, expected));
    assert [ProgressEvent(0, 0)] + [ProgressEvent(written, expected)] == [ProgressEvent(0, 0), ProgressEvent(written, expected)];
  }

  /** When every expected total is known, each event is reported, in order. */
  lemma {:induction false} ReportsAllKnown(events: seq<ProgressEvent>)
    requires forall i :: 0 <= i < |events| ==> events[i].expected > 0
    ensures |Reports(events)| == |events|
    ensures forall i :: 0 <= i < |events| ==> Reports(events)[i] == Progress(events[i].written, events[i].expected)
    decreases |events|
  {
    if events != [] {
      var front, e := events[..|events| - 1], events[|events| - 1];
      ReportsAllKnown(front);
      assert Reports(events) == Reports(front) + [Progress(e.written, e.expected)];
    }
  }

  /** When no expected total is known, nothing is reported. */
  lemma {:induction false} ReportsNoneKnown(events: seq<ProgressEvent>)
    requires forall i :: 0 <= i < |events| ==> events[i].expected <= 0
    ensures Reports(events) == []
    decreases |events|
  {
    if events != [] {
      ReportsNoneKnown(events[..|events| - 1]);
    }
  }

  /** How `downloadAsync` ends: it rejects, resolves with no result, or saves the file and gives its uri. */
  datatype DownloadOutcome = Rejected | NoResult | Saved(uri: string)

  /** The device side of the media manager: the settings key and the files present. */
  class MediaStore {
    const documentDirectory: string
    var settings: Slot<StoredSettings>
    var files: set<string>

    constructor (documentDirectory: string, settings: Slot<StoredSettings>, files: set<string>)
      ensures this.documentDirectory == documentDirectory && this.settings == settings && this.files == files
    {
      this.documentDirectory := documentDirectory;
      this.settings := settings;
      this.files := files;
    }

    /** `getAudioPath()`. */
    function AudioPath(): (path: string)
      reads this
      ensures |path| == |documentDirectory| + |AudioFilename|
      ensures path[..|documentDirectory|] == documentDirectory && path[|documentDirectory|..] == AudioFilename
    {
      documentDirectory + AudioFilename
    }

    /** `isAudioDownloaded`: whether the file is there; a failing file-info query counts as absent. */
    method IsAudioDownloaded(infoFails: bool) returns (downloaded: bool)
      ensures downloaded <==> !infoFails && AudioPath() in files
    {
      if infoFails {
        return false;
      }
      downloaded := AudioPath() in files;
    }

    /** `getAudioUri`: the fixed path when the file is there, otherwise nothing. */
    method GetAudioUri(infoFails: bool) returns (uri: Option<string>)
      ensures uri.Some? <==> !infoFails && AudioPath() in files
      ensures uri.Some? ==> uri.value == AudioPath()
    {
      var downloaded := IsAudioDownloaded(infoFails);
      if downloaded {
        return Some(AudioPath());
      }
      return None;
    }

    /**
     * `downloadAudio`: the progress callback reports each event whose
     * expected total is positive; the call succeeds when the download saved
     * the file with a non-empty uri, and a rejection is caught.
     */
    method DownloadAudio(events: seq<ProgressEvent>, outcome: DownloadOutcome) returns (ok: bool, reported: seq<Progress>)
      modifies this`files
      ensures reported == Reports(events)
      ensures ok <==> outcome.Saved? && outcome.uri != ""
      ensures files == if outcome.Saved? then old(files) + {AudioPath()} else old(files)
    {
      reported := [];
      var i := 0;
      while i < |events|
        invariant 0 <= i <= |events|
        invariant reported == Reports(events[..i])
      {
        assert events[..i + 1][..i] == events[..i];
        if events[i].expected > 0 {
          reported := reported + [Progress(events[i].written, events[i].expected)];
        }
        i := i + 1;
      }
      assert events[..i] == events;
      match outcome {
        case Saved(uri) =>
          files := files + {AudioPath()};
          ok := uri != "";
        case _ =>
          ok := false;
      }
    }

    /**
     * `deleteAudio`: removes the file when it is there and succeeds whether
     * or not it was; a failing info query or delete is caught and reported
     * as failure, leaving the files as they were.
     */
    method DeleteAudio(infoFails: bool, deleteFails: bool) returns (ok: bool)
      modifies this`files
      ensures ok <==> !infoFails && (AudioPath() in old(files) ==> !deleteFails)
      ensures files == if ok then old(files) - {AudioPath()} else old(files)
      ensures ok ==> AudioPath() !in files
    {
      if infoFails {
        return false;
      }
      var path := AudioPath();
      if path in files {
        if deleteFails {
          return false;
        }
        files := files - {path};
      }
      return true;
    }

    /** `getMediaSettings`. */
    method GetMediaSettings() returns (s: MediaSettings)
      ensures s == ReadSettings(settings)
      ensures !settings.Holds? ==> s == DefaultSettings
    {
      s := ReadSettings(settings);
    }

    /** `saveMediaSettings`: stores all fields; a failed write is logged and swallowed. */
    method SaveMediaSettings(s: MediaSettings, writeFails: bool)
      modifies this`settings
      ensures settings == if writeFails then old(settings) else Holds(Serialize(s))
      ensures !writeFails ==> ReadSettings(settings) == s
    {
      if !writeFails {
        settings := Holds(Serialize(s));
      }
    }
  }
}
