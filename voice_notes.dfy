/**
 * The voice-note screen (components/screens/HomeScreen.jsx) without its
 * rendering: the note list kept in memory and under one key of the
 * device's key/value store, the recording handle, the entered name and
 * the playing sound. Every call into the audio library is replaced by an
 * outcome the caller passes in; `uuidv4()` and the clock become the
 * `id` and `date` parameters; JSON encoding is the identity.
 */
module VoiceNotes {
  import opened Wrappers
  import opened Sequences

  /** A saved note: its id, display name, recording URI (`getURI()` may give null) and creation date. */
  datatype VoiceNote = VoiceNote(id: string, name: string, uri: Option<string>, date: string)

  /** An opaque handle to an in-progress recording. */
  datatype Recording = Recording(handle: nat)

  /** An opaque handle to a loaded sound. */
  datatype Sound = Sound(handle: nat)

  /** The single store key under which the whole list is kept. */
  const StorageKey := "voiceNotes"

  const DefaultNoteName := "Unnamed Note"

  /** `name || 'Unnamed Note'`: the entered name when there is one, the placeholder otherwise. */
  function NoteName(entered: string): (r: string)
    ensures r != ""
    ensures entered != "" ==> r == entered
    ensures entered == "" ==> r == DefaultNoteName
  {
    if entered != "" then entered else DefaultNoteName
  }

  /** The note built when a recording stops. */
  function NewNote(id: string, entered: string, uri: Option<string>, date: string): (r: VoiceNote)
    ensures r.name != "" && r.id == id && r.uri == uri && r.date == date
    ensures entered != "" ==> r.name == entered
    ensures entered == "" ==> r.name == DefaultNoteName
  {
    VoiceNote(id, NoteName(entered), uri, date)
  }

  /** `voiceNotes.filter((note) => note.id !== id)`. */
  function WithoutId(notes: seq<VoiceNote>, id: string): seq<VoiceNote>
  {
    Filter(notes, (n: VoiceNote) => n.id != id)
  }

  /** Deleting removes every note with the id and keeps the others, each as often as before and in order. */
  lemma WithoutIdSpec(notes: seq<VoiceNote>, id: string, n: VoiceNote)
    ensures IsSubsequence(WithoutId(notes, id), notes)
    ensures n in WithoutId(notes, id) <==> n in notes && n.id != id
    ensures multiset(WithoutId(notes, id))[n] == if n.id != id then multiset(notes)[n] else 0
  {
    FilterIsSubsequence(notes, (n: VoiceNote) => n.id != id);
    FilterMembership(notes, (n: VoiceNote) => n.id != id, n);
    FilterCount(notes, (n: VoiceNote) => n.id != id, n);
  }

  /** Deleting an id no note carries leaves the list as it is. */
  lemma WithoutAbsentId(notes: seq<VoiceNote>, id: string)
    requires forall i :: 0 <= i < |notes| ==> notes[i].id != id
    ensures WithoutId(notes, id) == notes
  {
    FilterKeepsAll(notes, (n: VoiceNote) => n.id != id);
  }

  /** Deleting the same id twice is the same as deleting it once. */
  lemma WithoutIdIdempotent(notes: seq<VoiceNote>, id: string)
    ensures WithoutId(WithoutId(notes, id), id) == WithoutId(notes, id)
  {
    FilterIdempotent(notes, (n: VoiceNote) => n.id != id);
  }

  /** The list a fresh load finds in the store: the stored one, or empty when the key is absent. */
  function StoredNotes(items: map<string, seq<VoiceNote>>): seq<VoiceNote>
  {
    if StorageKey in items then items[StorageKey] else []
  }

  /** AsyncStorage, holding already-decoded values. */
  class KeyValueStore {
    var items: map<string, seq<VoiceNote>>

    constructor (initial: map<string, seq<VoiceNote>>)
      ensures items == initial
    {
      items := initial;
    }

    /** `getItem(key)`: the stored value, or None when nothing is stored under `key`. */
    method GetItem(key: string) returns (v: Option<seq<VoiceNote>>)
      ensures v.Some? <==> key in items
      ensures v.Some? ==> v.value == items[key]
    {
      v := if key in items then Some(items[key]) else None;
    }

    /** `setItem(key, value)`: replace the value under `key`, leave the other keys alone. */
    method SetItem(key: string, value: seq<VoiceNote>)
      modifies this
      ensures key in items && items[key] == value
      ensures forall k :: k != key ==> (k in items <==> k in old(items)) && (k in items ==> items[k] == old(items)[k])
    {
      items := items[key := value];
    }
  }

  /** What `requestPermissionsAsync`, `setAudioModeAsync` and `Recording.createAsync` gave. */
  datatype StartOutcome = PermissionDenied | StartFailed | Started(recording: Recording)

  /** What `stopAndUnloadAsync` and `getURI` gave. */
  datatype StopOutcome = StopFailed | Stopped(uri: Option<string>)

  /** What `loadAsync` and `playAsync` gave for a note that is not yet playing. */
  datatype PlayOutcome = LoadFailed | PlayFailed | PlayStarted

  /** The component state of the voice-note screen and the store it writes to. */
  class HomeScreen {
    var recording: Option<Recording>
    var voiceNotes: seq<VoiceNote>
    var name: string
    var playing: Option<Sound>
    /** The sounds whose playback-status callback has been registered. */
    var listeners: set<Sound>
    const storage: KeyValueStore

    /** The stored list is the one in memory: a reload would show what the screen shows. */
    ghost predicate Synced()
      reads this, storage
    {
      StoredNotes(storage.items) == voiceNotes
    }

    /** The initial `useState` values, over the given store. */
    constructor (storage: KeyValueStore)
      ensures this.storage == storage
      ensures recording == None && voiceNotes == [] && name == "" && playing == None && listeners == {}
    {
      this.storage := storage;
      recording := None;
      voiceNotes := [];
      name := "";
      playing := None;
      listeners := {};
    }

    /** `loadVoiceNotes`: take the stored list when there is one, otherwise keep the current list. */
    method LoadVoiceNotes()
      modifies this
      ensures StorageKey in storage.items ==> voiceNotes == storage.items[StorageKey]
      ensures StorageKey !in storage.items ==> voiceNotes == old(voiceNotes)
      ensures old(voiceNotes) == [] || old(Synced()) ==> Synced()
      ensures recording == old(recording) && name == old(name)
      ensures playing == old(playing) && listeners == old(listeners)
    {
      var stored := storage.GetItem(StorageKey);
      if stored.Some? {
        voiceNotes := stored.value;
      }
    }

    /** `saveVoiceNotes(notes)`: write the whole list under the one key. */
    method SaveVoiceNotes(notes: seq<VoiceNote>)
      modifies storage
      ensures storage.items == old(storage.items)[StorageKey := notes]
      ensures StoredNotes(storage.items) == notes
    {
      storage.SetItem(StorageKey, notes);
      assert storage.items == old(storage.items)[StorageKey := notes];
    }

    /**
     * `startRecording`: the new recording is kept only when permission was
     * granted and the driver started it. The handler has no guard of its own;
     * the screen's one button calls it only while nothing is recording.
     */
    method StartRecording(outcome: StartOutcome)
      requires recording.None?
      modifies this
      ensures outcome.Started? ==> recording == Some(outcome.recording)
      ensures !outcome.Started? ==> recording == old(recording)
      ensures voiceNotes == old(voiceNotes) && name == old(name)
      ensures playing == old(playing) && listeners == old(listeners)
      ensures old(Synced()) ==> Synced()
    {
      match outcome {
        case PermissionDenied =>
          return;
        case StartFailed =>
        case Started(r) =>
          recording := Some(r);
      }
    }

    /**
     * `stopRecording`: with a recording that stopped, append one note named
     * after the entered name, write the whole list, clear the name and the
     * recording. Without a recording, or when stopping fails, nothing changes.
     */
    method StopRecording(outcome: StopOutcome, id: string, date: string)
      modifies this, storage
      ensures var stopped := old(recording).Some? && outcome.Stopped?;
        && (stopped ==>
          && voiceNotes == old(voiceNotes) + [NewNote(id, old(name), outcome.uri, date)]
          && storage.items == old(storage.items)[StorageKey := voiceNotes]
          && name == "" && recording == None)
        && (!stopped ==>
          && voiceNotes == old(voiceNotes) && storage.items == old(storage.items)
          && name == old(name) && recording == old(recording))
      ensures old(recording).Some? && outcome.Stopped? ==> Synced()
      ensures old(Synced()) ==> Synced()
      ensures playing == old(playing) && listeners == old(listeners)
    {
      if recording.None? || outcome.StopFailed? {
        // `recording.stopAndUnloadAsync()` threw; the handler only alerts
        return;
      }
      var note := NewNote(id, name, outcome.uri, date);
      var updated := voiceNotes + [note];
      voiceNotes := updated;
      SaveVoiceNotes(updated);
      name := "";
      recording := None;
    }

    /** `deleteVoiceNote`: drop every note with the id and write the whole list. */
    method DeleteVoiceNote(id: string)
      modifies this, storage
      ensures voiceNotes == WithoutId(old(voiceNotes), id)
      ensures storage.items == old(storage.items)[StorageKey := voiceNotes]
      ensures Synced()
      ensures recording == old(recording) && name == old(name)
      ensures playing == old(playing) && listeners == old(listeners)
    {
      var updated := WithoutId(voiceNotes, id);
      voiceNotes := updated;
      SaveVoiceNotes(updated);
    }

    /**
     * `playVoiceNote`: a toggle. While a sound is playing, stop it and clear
     * `playing` (unless stopping threw) without starting the requested note.
     * Otherwise load `sound` from `uri`: once loaded it becomes `playing`, and
     * once it plays its status callback is registered.
     */
    method PlayVoiceNote(uri: Option<string>, sound: Sound, stopped: bool, outcome: PlayOutcome)
      requires sound !in listeners && playing != Some(sound)  // `new Audio.Sound()` is a fresh object
      modifies this
      ensures old(playing).Some? ==>
        playing == (if stopped then None else old(playing)) && listeners == old(listeners)
      ensures old(playing).None? ==>
        && playing == (if outcome.LoadFailed? then None else Some(sound))
        && listeners == (if outcome.PlayStarted? then old(listeners) + {sound} else old(listeners))
      ensures voiceNotes == old(voiceNotes) && recording == old(recording) && name == old(name)
      ensures old(Synced()) ==> Synced()
    {
      if playing.Some? {
        if stopped {
          playing := None;
        }
      } else {
        if outcome.LoadFailed? {
          return;
        }
        playing := Some(sound);
        if outcome.PlayStarted? {
          listeners := listeners + {sound};
        }
      }
    }

    /** The status callback of `sound`: a report that it is no longer playing clears `playing`. */
    method OnPlaybackStatusUpdate(sound: Sound, isPlaying: bool)
      requires sound in listeners
      modifies this
      ensures playing == if isPlaying then old(playing) else None
      ensures voiceNotes == old(voiceNotes) && recording == old(recording) && name == old(name)
      ensures listeners == old(listeners)
      ensures old(Synced()) ==> Synced()
    {
      if !isPlaying {
        playing := None;
      }
    }
  }

  /**
   * A note recorded on one screen is found, equal in every field, by a new
   * screen that loads from the same store (an app restart).
   */
  method RecordThenReload(storage: KeyValueStore, start: Recording, uri: Option<string>, id: string, date: string)
    returns (reloaded: seq<VoiceNote>)
    modifies storage
    ensures |reloaded| >= 1 && reloaded[|reloaded| - 1] == VoiceNote(id, DefaultNoteName, uri, date)
  {
    var screen := new HomeScreen(storage);
    screen.LoadVoiceNotes();
    screen.StartRecording(Started(start));
    screen.StopRecording(Stopped(uri), id, date);
    var restarted := new HomeScreen(storage);
    restarted.LoadVoiceNotes();
    reloaded := restarted.voiceNotes;
  }

  /**
   * Two taps on a note with no status report in between: the first starts
   * it, the second stops it instead of starting a second sound.
   */
  method TapTwice(storage: KeyValueStore, uri: Option<string>, first: Sound, second: Sound)
    returns (afterFirst: Option<Sound>, afterSecond: Option<Sound>)
    requires first != second
    ensures afterFirst == Some(first) && afterSecond == None
  {
    var screen := new HomeScreen(storage);
    screen.PlayVoiceNote(uri, first, true, PlayStarted);
    afterFirst := screen.playing;
    screen.PlayVoiceNote(uri, second, true, PlayStarted);
    afterSecond := screen.playing;
  }
}
