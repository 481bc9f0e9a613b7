/** The viewer's settings store: a process-wide cached settings object that is
    loaded lazily from the settings file on first read, shallow-merged with
    patches and written back whole after every update. */
module Settings {
  import opened Values

  const ThumbnailSize := "thumbnail_size"
  const ShowCaptions := "show_captions"
  const ShowSingleCaption := "show_single_caption"

  /** The settings every first read starts from. */
  const Defaults: Object :=
    map[ThumbnailSize := JInt(128), ShowCaptions := JBool(true), ShowSingleCaption := JBool(true)]

  const DefaultKeys: set<string> := {ThumbnailSize, ShowCaptions, ShowSingleCaption}

  /** The settings file as the first read finds it. The JSON text itself is
      not modelled: a file is either absent, unreadable as JSON (its decoding
      error propagates to the caller) or holds a decoded JSON value. */
  datatype SettingsFile =
    | Missing
    | Unreadable
    | Holds(value: Json)

  datatype ConfigError =
    | Unparsable   // the settings file exists but does not decode
    | WriteFailed  // the settings file could not be opened for writing

  /** How writing the settings file goes. Opening it for writing truncates
      it, so a write that fails after the open leaves a strict prefix of the
      JSON text behind, which no longer decodes. */
  datatype WriteAccess =
    | Writable       // the open and the write succeed
    | CannotOpen     // the open fails and the file is not touched
    | FailsMidWrite  // the open truncates the file, then the write fails

  /** Everything the store depends on: the cached object (None until the
      first read), the file, and how writing the file goes. */
  datatype ConfigState = ConfigState(cached: Option<Object>, file: SettingsFile, access: WriteAccess)

  predicate HasDefaultKeys(c: Object) {
    DefaultKeys <= c.Keys
  }

  /** Once something is cached, it still holds every default key. */
  predicate ConfigInv(s: ConfigState) {
    s.cached.Some? ==> HasDefaultKeys(s.cached.value)
  }

  /** The shallow update of a dictionary: the patch's keys win, every other
      key keeps its value and no key is removed. */
  function Merge(base: Object, patch: Object): (r: Object)
    ensures r.Keys == base.Keys + patch.Keys
    ensures forall k :: k in patch ==> r[k] == patch[k]
    ensures forall k :: k in base && k !in patch ==> r[k] == base[k]
  {
    base + patch
  }

  datatype ReadOutcome = ReadOutcome(config: Result<Object, ConfigError>, after: ConfigState)

  /** Reading the settings. The first read caches the defaults BEFORE looking
      at the file, so when the file does not decode the error reaches the
      caller but the defaults stay cached for every later read. */
  function ReadConfig(s: ConfigState): (r: ReadOutcome)
    ensures r.after.file == s.file && r.after.access == s.access
    ensures r.after.cached.Some?
    ensures s.cached.Some? ==> r == ReadOutcome(Ok(s.cached.value), s)
    ensures r.config.Ok? ==> r.after.cached == Some(r.config.value)
    ensures r.config.Err? <==> s.cached.None? && s.file == Unreadable
    ensures r.config.Err? ==> r.config.error == Unparsable && r.after.cached == Some(Defaults)
    ensures ConfigInv(s) ==> ConfigInv(r.after)
    ensures ConfigInv(s) && r.config.Ok? ==> HasDefaultKeys(r.config.value)
  {
    match s.cached
    case Some(c) => ReadOutcome(Ok(c), s)
    case None =>
      match s.file
      case Missing => ReadOutcome(Ok(Defaults), s.(cached := Some(Defaults)))
      case Unreadable => ReadOutcome(Err(Unparsable), s.(cached := Some(Defaults)))
      case Holds(v) =>
        var c := if v.JObject? then Merge(Defaults, v.fields) else Defaults;
        ReadOutcome(Ok(c), s.(cached := Some(c)))
  }

  datatype UpdateOutcome = UpdateOutcome(fault: Option<ConfigError>, after: ConfigState)

  /** Updating the settings: read (possibly loading), merge the patch into the
      cached object, then write the whole merged object to the file. The
      cache is merged before the write is attempted, so a failed write leaves
      cache and file apart; one that fails after the open leaves a file that
      no longer decodes. */
  function UpdateConfig(s: ConfigState, patch: Object): (r: UpdateOutcome)
    ensures r.after.access == s.access
    ensures r.fault == Some(Unparsable) <==> s.cached.None? && s.file == Unreadable
    ensures r.fault == Some(WriteFailed) <==> ReadConfig(s).config.Ok? && !s.access.Writable?
    ensures ReadConfig(s).config.Ok? ==> r.after.cached == Some(Merge(ReadConfig(s).config.value, patch))
    ensures r.fault.None? ==> r.after.cached.Some? && r.after.file == Holds(JObject(r.after.cached.value))
    ensures r.fault == Some(Unparsable) ==> r.after == ReadConfig(s).after && r.after.cached == Some(Defaults)
    ensures r.fault == Some(Unparsable) ==> r.after.file == s.file
    ensures r.fault == Some(WriteFailed) ==> r.after.file == if s.access.CannotOpen? then s.file else Unreadable
    ensures ConfigInv(s) ==> ConfigInv(r.after)
  {
    var read := ReadConfig(s);
    match read.config
    case Err(e) => UpdateOutcome(Some(e), read.after)
    case Ok(c) =>
      var merged := Merge(c, patch);
      match s.access
      case Writable => UpdateOutcome(None, read.after.(cached := Some(merged), file := Holds(JObject(merged))))
      case CannotOpen => UpdateOutcome(Some(WriteFailed), read.after.(cached := Some(merged)))
      case FailsMidWrite => UpdateOutcome(Some(WriteFailed), read.after.(cached := Some(merged), file := Unreadable))
  }

  /** With no settings file, the first read yields exactly the three defaults. */
  lemma FirstReadWithoutFile(access: WriteAccess)
    ensures ReadConfig(ConfigState(None, Missing, access)).config
         == Ok(map["thumbnail_size" := JInt(128), "show_captions" := JBool(true), "show_single_caption" := JBool(true)])
  {
  }

  /** A file holding an object overrides or extends the defaults key by key. */
  lemma FirstReadOverlaysObject(o: Object, access: WriteAccess)
    ensures var r := ReadConfig(ConfigState(None, Holds(JObject(o)), access)).config;
      && r.Ok?
      && r.value.Keys == DefaultKeys + o.Keys
      && (forall k :: k in o ==> r.value[k] == o[k])
      && (forall k :: k in DefaultKeys && k !in o ==> r.value[k] == Defaults[k])
  {
  }

  /** A file holding anything but an object is ignored. */
  lemma FirstReadIgnoresNonObject(v: Json, access: WriteAccess)
    requires !v.JObject?
    ensures ReadConfig(ConfigState(None, Holds(v), access)).config == Ok(Defaults)
  {
  }

  /** Once cached, reads never look at the file again. */
  lemma CachedReadIgnoresFile(c: Object, f1: SettingsFile, f2: SettingsFile, access: WriteAccess)
    ensures ReadConfig(ConfigState(Some(c), f1, access)).config
         == ReadConfig(ConfigState(Some(c), f2, access)).config
         == Ok(c)
  {
  }

  /** Two successive updates are one update with the merged patch. */
  lemma MergeLaw(c: Object, p: Object, q: Object)
    ensures Merge(Merge(c, p), q) == Merge(c, Merge(p, q))
  {
  }

  /** The same patch applied twice changes nothing the second time. */
  lemma MergeIdempotent(c: Object, p: Object)
    ensures Merge(Merge(c, p), p) == Merge(c, p)
  {
  }

  /** Applying an update twice leaves the store as applying it once, unless
      the first attempt was the one that found the file unreadable. */
  lemma UpdateTwiceIsOnce(s: ConfigState, p: Object)
    requires ReadConfig(s).config.Ok?
    ensures UpdateConfig(UpdateConfig(s, p).after, p) == UpdateConfig(s, p)
  {
    var c := ReadConfig(s).config.value;
    MergeIdempotent(c, p);
  }

  /** A defaulted object is its own overlay on the defaults. */
  lemma OverlayOnDefaults(c: Object)
    requires HasDefaultKeys(c)
    ensures Merge(Defaults, c) == c
  {
  }

  /** After a successful update, a fresh process reading the written file
      sees exactly the merged configuration. */
  lemma ReloadAfterUpdate(s: ConfigState, p: Object, access: WriteAccess)
    requires ConfigInv(s)
    requires UpdateConfig(s, p).fault.None?
    ensures var u := UpdateConfig(s, p).after;
      ReadConfig(ConfigState(None, u.file, access)).config == Ok(u.cached.value)
  {
    var u := UpdateConfig(s, p).after;
    OverlayOnDefaults(u.cached.value);
  }

  /** A write that fails after the open loses every stored setting: the next
      process's first read raises, and from then on it sees the bare
      defaults. */
  lemma TruncatedWriteLosesSettings(s: ConfigState, p: Object, access: WriteAccess)
    requires ReadConfig(s).config.Ok? && s.access == FailsMidWrite
    ensures var next := ConfigState(None, UpdateConfig(s, p).after.file, access);
      && ReadConfig(next).config == Err(Unparsable)
      && ReadConfig(ReadConfig(next).after).config == Ok(Defaults)
  {
  }

  /** The process-wide settings store. */
  class ConfigStore {
    var cached: Option<Object>
    var file: SettingsFile
    var access: WriteAccess

    function State(): ConfigState
      reads this
    {
      ConfigState(cached, file, access)
    }

    constructor (file: SettingsFile, access: WriteAccess)
      ensures State() == ConfigState(None, file, access)
    {
      this.cached := None;
      this.file := file;
      this.access := access;
    }

    /** read_config */
    method Read() returns (config: Result<Object, ConfigError>)
      modifies this
      ensures ReadOutcome(config, State()) == ReadConfig(old(State()))
    {
      if cached.None? {
        cached := Some(Defaults);
        match file {
          case Missing =>
          case Unreadable =>
            return Err(Unparsable);
          case Holds(v) =>
            if v.JObject? {
              cached := Some(Merge(cached.value, v.fields));
            }
        }
      }
      return Ok(cached.value);
    }

    /** update_config */
    method Update(patch: Object) returns (fault: Option<ConfigError>)
      modifies this
      ensures UpdateOutcome(fault, State()) == UpdateConfig(old(State()), patch)
    {
      var c := Read();
      if c.Err? {
        return Some(c.error);
      }
      cached := Some(Merge(c.value, patch));
      if access == CannotOpen {
        return Some(WriteFailed);
      }
      file := Unreadable;  // opening for writing truncates the file
      if access == FailsMidWrite {
        return Some(WriteFailed);
      }
      file := Holds(JObject(cached.value));
      return None;
    }
  }
}
