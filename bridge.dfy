/** The page-to-host message bridge: a batch of messages polled from the page
    script is dispatched, in order, to the host handlers named by each
    message's "func" field. */
module Bridge {
  import opened Values
  import opened Settings

  /** The host handlers a page message may name. */
  datatype Handler =
    | UpdateSettings
    | ShowingGrid
    | ShowingImage
    | UnhandledError
    | RefreshGrid
    | SetWallpaper
    | ExitApplication

  /** Handler names as the page script writes them. */
  const HandlerTable: map<string, Handler> := map[
    "update_settings" := UpdateSettings,
    "showing_grid" := ShowingGrid,
    "showing_image" := ShowingImage,
    "unhandled_error" := UnhandledError,
    "refresh_grid" := RefreshGrid,
    "set_wallpaper" := SetWallpaper,
    "exit_application" := ExitApplication]

  /** How a run of the external wallpaper tool ends: it succeeds, exits with
      a non-zero status, is not installed, or cannot be started for any other
      reason (not executable, another OS error, a path the process launcher
      refuses), which is not caught. */
  datatype WallpaperRun =
    | Applied
    | ExitedNonZero(description: string)
    | ToolNotFound
    | CouldNotStart(reason: string)

  /** A modal message box shown to the user. */
  datatype Dialog = Dialog(title: string, text: string)

  /** The foreign parts a dispatch depends on: URL to local path conversion
      and the outcome of running the wallpaper tool on a path. */
  datatype Env = Env(toLocalFile: string -> string, runWallpaperTool: string -> WallpaperRun)

  /** The exceptions a message can raise. Each one ends the batch. */
  datatype Fault =
    | MissingFunc                      // the message has no "func" key
    | FuncNotString                    // "func" is not a string
    | MissingUrl                       // the payload has no "url" key
    | UrlNotString                     // "url" is not a string
    | SettingsFault(error: ConfigError)
    | WallpaperFault(reason: string)   // starting the wallpaper tool raised

  /** What the handlers can change: the last title emitted, the number of
      refresh requests emitted, whether quitting was requested, the dialogs
      shown and the settings store. */
  datatype Host = Host(
    title: Option<string>,
    refreshes: nat,
    quitRequested: bool,
    dialogs: seq<Dialog>,
    config: ConfigState)

  datatype Outcome = Outcome(host: Host, fault: Option<Fault>)

  const FuncKey := "func"
  const WallpaperErrorTitle := "Wallpaper Error"
  const ToolNotFoundText := "swww command not found. Please install swww."

  /** The text after the last '/' of a path (posix basename). */
  function Basename(path: string): (r: string)
    ensures |r| <= |path| && r == path[|path| - |r|..]
    ensures '/' !in r
    ensures |r| < |path| ==> path[|path| - |r| - 1] == '/'
  {
    if path == [] || path[|path| - 1] == '/' then ""
    else Basename(path[..|path| - 1]) + [path[|path| - 1]]
  }

  /** A message without its "func" key: what the handler receives. */
  function Payload(msg: Object): (data: Object)
    ensures data.Keys == msg.Keys - {FuncKey}
    ensures forall k :: k in data ==> data[k] == msg[k]
  {
    msg - {FuncKey}
  }

  /** The local file path named by the payload's "url". */
  function LocalPath(data: Object, env: Env): (r: Result<string, Fault>)
    ensures r == Err(MissingUrl) <==> "url" !in data
    ensures r == Err(UrlNotString) <==> "url" in data && !data["url"].JString?
    ensures r.Ok? <==> "url" in data && data["url"].JString?
    ensures r.Ok? ==> r.value == env.toLocalFile(data["url"].s)
  {
    if "url" !in data then Err(MissingUrl)
    else if !data["url"].JString? then Err(UrlNotString)
    else Ok(env.toLocalFile(data["url"].s))
  }

  /** The dialogs a caught failure of the wallpaper tool shows: one, titled
      as a wallpaper error, exactly when the tool exited non-zero or is not
      installed; a failure to start it raises instead. */
  function WallpaperDialogs(run: WallpaperRun): (r: seq<Dialog>)
    ensures |r| == if run.ExitedNonZero? || run.ToolNotFound? then 1 else 0
    ensures forall d :: d in r ==> d.title == WallpaperErrorTitle
    ensures run.ExitedNonZero? ==> r[0].text == "Failed to set wallpaper: " + run.description
    ensures run.ToolNotFound? ==> r[0].text == ToolNotFoundText
  {
    match run
    case Applied => []
    case ExitedNonZero(d) => [Dialog(WallpaperErrorTitle, "Failed to set wallpaper: " + d)]
    case ToolNotFound => [Dialog(WallpaperErrorTitle, ToolNotFoundText)]
    case CouldNotStart(_) => []
  }

  function SettingsFaultOf(f: Option<ConfigError>): (r: Option<Fault>)
    ensures r.None? <==> f.None?
    ensures f.Some? ==> r == Some(SettingsFault(f.value))
  {
    if f.Some? then Some(SettingsFault(f.value)) else None
  }

  /** Running one handler on a payload. */
  function Handle(h: Handler, data: Object, s: Host, env: Env): (r: Outcome)
    // the settings store: only update_settings touches it, and it raises
    // exactly the settings update's error
    ensures h != UpdateSettings ==> r.host.config == s.config
    ensures h == UpdateSettings ==> r.host.config == UpdateConfig(s.config, data).after
    ensures h == UpdateSettings ==> r.fault == SettingsFaultOf(UpdateConfig(s.config, data).fault)
    // the title
    ensures h != ShowingGrid && h != ShowingImage ==> r.host.title == s.title
    ensures h == ShowingGrid ==> r.host.title == None
    ensures h == ShowingImage ==> (r.fault.None? <==> LocalPath(data, env).Ok?)
    ensures h == ShowingImage && r.fault.None? ==>
      r.host.title.Some? && '/' !in r.host.title.value && r.host.title.value == Basename(LocalPath(data, env).value)
    // the refresh requests and the quit request
    ensures r.host.refreshes == if h == RefreshGrid then s.refreshes + 1 else s.refreshes
    ensures r.host.quitRequested == (s.quitRequested || h == ExitApplication)
    // the dialogs: only a caught wallpaper-tool failure adds one
    ensures h != SetWallpaper ==> r.host.dialogs == s.dialogs
    ensures h == SetWallpaper ==>
      (r.fault.None? <==> LocalPath(data, env).Ok? && !env.runWallpaperTool(LocalPath(data, env).value).CouldNotStart?)
    ensures h == SetWallpaper && r.fault.None? ==>
      r.host.dialogs == s.dialogs + WallpaperDialogs(env.runWallpaperTool(LocalPath(data, env).value))
    ensures h == SetWallpaper && LocalPath(data, env).Ok? && env.runWallpaperTool(LocalPath(data, env).value).CouldNotStart? ==>
      r.fault == Some(WallpaperFault(env.runWallpaperTool(LocalPath(data, env).value).reason))
    // which handlers raise, and what a raise leaves behind
    ensures (h == ShowingImage || h == SetWallpaper) && LocalPath(data, env).Err? ==> r == Outcome(s, Some(LocalPath(data, env).error))
    ensures r.fault.Some? ==> h in {UpdateSettings, ShowingImage, SetWallpaper}
    ensures r.fault.Some? && h != UpdateSettings ==> r.host == s
    ensures h == UnhandledError ==> r == Outcome(s, None)
  {
    match h
    case UpdateSettings =>
      var u := UpdateConfig(s.config, data);
      Outcome(s.(config := u.after), SettingsFaultOf(u.fault))
    case ShowingGrid =>
      Outcome(s.(title := None), None)
    case ShowingImage =>
      (match LocalPath(data, env)
       case Err(f) => Outcome(s, Some(f))
       case Ok(p) => Outcome(s.(title := Some(Basename(p))), None))
    case UnhandledError =>
      Outcome(s, None)
    case RefreshGrid =>
      Outcome(s.(refreshes := s.refreshes + 1), None)
    case SetWallpaper =>
      (match LocalPath(data, env)
       case Err(f) => Outcome(s, Some(f))
       case Ok(p) =>
         var run := env.runWallpaperTool(p);
         if run.CouldNotStart? then Outcome(s, Some(WallpaperFault(run.reason)))
         else Outcome(s.(dialogs := s.dialogs + WallpaperDialogs(run)), None))
    case ExitApplication =>
      Outcome(s.(quitRequested := true), None)
  }

  /** Resolving and running one message: a name outside the table is skipped. */
  function Deliver(s: Host, msg: Object, env: Env): (r: Outcome)
    ensures r.fault == Some(MissingFunc) <==> FuncKey !in msg
    ensures r.fault == Some(FuncNotString) <==> FuncKey in msg && !msg[FuncKey].JString?
    ensures FuncKey in msg && msg[FuncKey].JString? && msg[FuncKey].s !in HandlerTable ==> r == Outcome(s, None)
    ensures r.fault.Some? && !r.fault.value.SettingsFault? ==> r.host == s
    ensures Grows(s, r.host)
  {
    if FuncKey !in msg then Outcome(s, Some(MissingFunc))
    else if !msg[FuncKey].JString? then Outcome(s, Some(FuncNotString))
    else if msg[FuncKey].s !in HandlerTable then Outcome(s, None)
    else Handle(HandlerTable[msg[FuncKey].s], Payload(msg), s, env)
  }

  /** What no handler ever takes back: refresh requests are only added, a
      quit request stays, dialogs are only appended, the write access of the
      settings file is not changed and the cached settings keep the default
      keys. */
  predicate Grows(before: Host, after: Host) {
    && before.refreshes <= after.refreshes
    && (before.quitRequested ==> after.quitRequested)
    && before.dialogs <= after.dialogs
    && after.config.access == before.config.access
    && (ConfigInv(before.config) ==> ConfigInv(after.config))
  }

  /** Running a batch in order; the first fault ends it, keeping what the
      earlier messages did. */
  function Dispatch(s: Host, batch: seq<Object>, env: Env): (r: Outcome)
    ensures batch == [] ==> r == Outcome(s, None)
    ensures Grows(s, r.host)
    decreases |batch|
  {
    if batch == [] then Outcome(s, None)
    else
      var r := Deliver(s, batch[0], env);
      if r.fault.Some? then r else Dispatch(r.host, batch[1..], env)
  }

  /** What the host does with the page's answer: raw is its text (the empty
      string also standing for no answer at all), batch what it decodes to. */
  function Received(s: Host, raw: string, batch: seq<Object>, env: Env): (r: Outcome)
    ensures raw == "" || raw == "[]" ==> r == Outcome(s, None)
    ensures raw != "" && raw != "[]" ==> r == Dispatch(s, batch, env)
    ensures Grows(s, r.host)
  {
    if raw == "" || raw == "[]" then Outcome(s, None) else Dispatch(s, batch, env)
  }

  /** An empty answer runs no handler. */
  lemma EmptyAnswerIsNoOp(s: Host, batch: seq<Object>, env: Env)
    ensures Received(s, "", batch, env) == Outcome(s, None)
    ensures Received(s, "[]", batch, env) == Outcome(s, None)
  {
  }

  /** A resolved handler gets the message minus "func", every other key intact. */
  lemma HandlerGetsPayload(s: Host, msg: Object, env: Env)
    requires FuncKey in msg && msg[FuncKey].JString? && msg[FuncKey].s in HandlerTable
    ensures Deliver(s, msg, env) == Handle(HandlerTable[msg[FuncKey].s], Payload(msg), s, env)
  {
  }

  /** A batch of one message has exactly that message's effect and fault. */
  lemma DispatchOne(s: Host, msg: Object, env: Env)
    ensures Dispatch(s, [msg], env) == Deliver(s, msg, env)
  {
    assert [msg][1..] == [];
  }

  /** Messages run in array order: a batch is its prefix, then its suffix
      unless the prefix raised. */
  lemma {:induction false} DispatchAppend(s: Host, a: seq<Object>, b: seq<Object>, env: Env)
    ensures Dispatch(s, a + b, env)
         == var r := Dispatch(s, a, env); if r.fault.Some? then r else Dispatch(r.host, b, env)
    decreases |a|
  {
    if a == [] {
      assert a + b == b;
    } else {
      assert (a + b)[0] == a[0];
      assert (a + b)[1..] == a[1..] + b;
      var r := Deliver(s, a[0], env);
      if r.fault.None? {
        DispatchAppend(r.host, a[1..], b, env);
      }
    }
  }

  /** A message naming no handler is skipped: the batch behaves as if it
      were not there, and later messages are still dispatched. */
  lemma DispatchSkipsUnknown(s: Host, before: seq<Object>, msg: Object, after: seq<Object>, env: Env)
    requires FuncKey in msg && msg[FuncKey].JString? && msg[FuncKey].s !in HandlerTable
    ensures Dispatch(s, before + [msg] + after, env) == Dispatch(s, before + after, env)
  {
    DispatchAppend(s, before, [msg] + after, env);
    DispatchAppend(s, before, after, env);
    assert before + [msg] + after == before + ([msg] + after);
    var r := Dispatch(s, before, env);
    assert ([msg] + after)[1..] == after;
  }

  /** A message that raises ends the batch: nothing after it runs. */
  lemma FaultEndsBatch(s: Host, before: seq<Object>, msg: Object, after: seq<Object>, env: Env)
    requires Dispatch(s, before, env).fault.None?
    requires Deliver(Dispatch(s, before, env).host, msg, env).fault.Some?
    ensures Dispatch(s, before + [msg] + after, env) == Deliver(Dispatch(s, before, env).host, msg, env)
  {
    DispatchAppend(s, before, [msg] + after, env);
    assert before + [msg] + after == before + ([msg] + after);
  }

  /** The number of messages in a batch naming the given handler. */
  function CountNamed(batch: seq<Object>, name: string): (n: nat) {
    if batch == [] then 0
    else (if FuncKey in batch[0] && batch[0][FuncKey] == JString(name) then 1 else 0) + CountNamed(batch[1..], name)
  }

  /** A batch that runs to the end emits one refresh per refresh_grid message. */
  lemma {:induction false} RefreshesCounted(s: Host, batch: seq<Object>, env: Env)
    requires Dispatch(s, batch, env).fault.None?
    ensures Dispatch(s, batch, env).host.refreshes == s.refreshes + CountNamed(batch, "refresh_grid")
    decreases |batch|
  {
    if batch != [] {
      var r := Deliver(s, batch[0], env);
      RefreshesCounted(r.host, batch[1..], env);
    }
  }

  /** The contract of Basename pins its result down: any suffix of the
      path that has no '/' and is the whole path or follows a '/' is it. */
  lemma BasenameUnique(path: string, r: string)
    requires |r| <= |path| && r == path[|path| - |r|..]
    requires '/' !in r
    requires |r| < |path| ==> path[|path| - |r| - 1] == '/'
    ensures Basename(path) == r
  {
  }

  lemma CatBasename()
    ensures Basename("/a/b/cat.png") == "cat.png"
  {
  }

  /** The batch [showing_image cat.png, an unknown name, refresh_grid] ends
      with title cat.png and exactly one more refresh. */
  lemma ImageUnknownRefresh(s: Host, env: Env)
    requires env.toLocalFile("file:///a/b/cat.png") == "/a/b/cat.png"
    ensures var r := Dispatch(s, [
        map[FuncKey := JString("showing_image"), "url" := JString("file:///a/b/cat.png")],
        map[FuncKey := JString("unknown_handler")],
        map[FuncKey := JString("refresh_grid")]], env);
      && r.fault.None?
      && r.host.title == Some("cat.png")
      && r.host.refreshes == s.refreshes + 1
      && r.host.config == s.config
      && r.host.dialogs == s.dialogs
      && r.host.quitRequested == s.quitRequested
  {
    var m1 := map[FuncKey := JString("showing_image"), "url" := JString("file:///a/b/cat.png")];
    var m2 := map[FuncKey := JString("unknown_handler")];
    var m3 := map[FuncKey := JString("refresh_grid")];
    var batch := [m1, m2, m3];
    CatBasename();
    assert Payload(m1)["url"] == JString("file:///a/b/cat.png");
    var h1 := s.(title := Some("cat.png"));
    assert Deliver(s, m1, env) == Outcome(h1, None);
    assert batch[1..] == [m2, m3];
    assert Dispatch(s, batch, env) == Dispatch(h1, [m2, m3], env);
    assert "unknown_handler" !in HandlerTable;
    assert Deliver(h1, m2, env) == Outcome(h1, None);
    assert [m2, m3][1..] == [m3];
    assert Dispatch(h1, [m2, m3], env) == Dispatch(h1, [m3], env);
    var h3 := h1.(refreshes := s.refreshes + 1);
    assert Deliver(h1, m3, env) == Outcome(h3, None);
    assert [m3][1..] == [];
    assert Dispatch(h1, [m3], env) == Dispatch(h3, [], env) == Outcome(h3, None);
  }

  datatype PageSignal = PageSetTitle | PageRefreshAll

  const AllPageSignals: set<PageSignal> := {PageSetTitle, PageRefreshAll}

  /** The page object: the host end of the bridge. */
  class Page {
    var title: Option<string>
    var refreshes: nat
    var quitRequested: bool
    var dialogs: seq<Dialog>
    var connected: set<PageSignal>
    const store: ConfigStore

    function State(): Host
      reads this, store
    {
      Host(title, refreshes, quitRequested, dialogs, store.State())
    }

    constructor (store: ConfigStore)
      ensures this.store == store
      ensures title == None && refreshes == 0 && !quitRequested && dialogs == []
      ensures connected == {}
    {
      this.store := store;
      title := None;
      refreshes := 0;
      quitRequested := false;
      dialogs := [];
      connected := {};
    }

    /** break_cycles: both page signals lose their connections. */
    method BreakCycles()
      requires connected == AllPageSignals
      modifies this
      ensures connected == {}
      ensures title == old(title) && refreshes == old(refreshes)
      ensures quitRequested == old(quitRequested) && dialogs == old(dialogs)
    {
      connected := {};
    }

    method OnUpdateSettings(data: Object) returns (fault: Option<Fault>)
      modifies store
      ensures var u := UpdateConfig(old(store.State()), data);
        store.State() == u.after && fault == SettingsFaultOf(u.fault)
    {
      var f := store.Update(data);
      fault := SettingsFaultOf(f);
    }

    method OnShowingGrid(data: Object)
      modifies this
      ensures title == None
      ensures refreshes == old(refreshes) && quitRequested == old(quitRequested) && dialogs == old(dialogs)
      ensures connected == old(connected)
    {
      title := None;
    }

    method OnShowingImage(data: Object, env: Env) returns (fault: Option<Fault>)
      modifies this
      ensures Outcome(State(), fault) == Handle(ShowingImage, data, old(State()), env)
      ensures connected == old(connected)
    {
      var path := LocalPath(data, env);
      if path.Err? {
        return Some(path.error);
      }
      title := Some(Basename(path.value));
      return None;
    }

    method OnRefreshGrid(data: Object)
      modifies this
      ensures refreshes == old(refreshes) + 1
      ensures title == old(title) && quitRequested == old(quitRequested) && dialogs == old(dialogs)
      ensures connected == old(connected)
    {
      refreshes := refreshes + 1;
    }

    method OnSetWallpaper(data: Object, env: Env) returns (fault: Option<Fault>)
      modifies this
      ensures Outcome(State(), fault) == Handle(SetWallpaper, data, old(State()), env)
      ensures connected == old(connected)
    {
      var path := LocalPath(data, env);
      if path.Err? {
        return Some(path.error);
      }
      var run := env.runWallpaperTool(path.value);
      match run {
        case Applied =>
        case ExitedNonZero(d) =>
          dialogs := dialogs + [Dialog(WallpaperErrorTitle, "Failed to set wallpaper: " + d)];
        case ToolNotFound =>
          dialogs := dialogs + [Dialog(WallpaperErrorTitle, ToolNotFoundText)];
        case CouldNotStart(e) =>
          return Some(WallpaperFault(e));
      }
      return None;
    }

    method OnExitApplication(data: Object)
      modifies this
      ensures quitRequested
      ensures title == old(title) && refreshes == old(refreshes) && dialogs == old(dialogs)
      ensures connected == old(connected)
    {
      quitRequested := true;
    }

    /** Calls the handler h on data. */
    method Call(h: Handler, data: Object, env: Env) returns (fault: Option<Fault>)
      modifies this, store
      ensures Outcome(State(), fault) == Handle(h, data, old(State()), env)
      ensures connected == old(connected)
    {
      match h {
        case UpdateSettings =>
          fault := OnUpdateSettings(data);
        case ShowingGrid =>
          OnShowingGrid(data);
          fault := None;
        case ShowingImage =>
          fault := OnShowingImage(data, env);
        case UnhandledError =>
          fault := None;
        case RefreshGrid =>
          OnRefreshGrid(data);
          fault := None;
        case SetWallpaper =>
          fault := OnSetWallpaper(data, env);
        case ExitApplication =>
          OnExitApplication(data);
          fault := None;
      }
    }

    /** messages_received_from_js */
    method MessagesReceived(raw: string, batch: seq<Object>, env: Env) returns (fault: Option<Fault>)
      modifies this, store
      ensures Outcome(State(), fault) == Received(old(State()), raw, batch, env)
      ensures connected == old(connected)
    {
      if raw == "" || raw == "[]" {
        return None;
      }
      ghost var start := State();
      for i := 0 to |batch|
        invariant Dispatch(start, batch[..i], env) == Outcome(State(), None)
        invariant connected == old(connected)
      {
        var msg := batch[i];
        ghost var before := State();
        DispatchAppend(start, batch[..i], [msg], env);
        assert batch[..i + 1] == batch[..i] + [msg];
        assert Dispatch(start, batch[..i + 1], env) == Deliver(before, msg, env);
        if FuncKey !in msg {
          fault := Some(MissingFunc);
        } else if !msg[FuncKey].JString? {
          fault := Some(FuncNotString);
        } else if msg[FuncKey].s !in HandlerTable {
          continue;
        } else {
          fault := Call(HandlerTable[msg[FuncKey].s], Payload(msg), env);
        }
        if fault.Some? {
          FaultEndsBatch(start, batch[..i], msg, batch[i + 1..], env);
          assert batch == batch[..i] + [msg] + batch[i + 1..];
          return;
        }
      }
      assert batch[..|batch|] == batch;
      return None;
    }
  }
}
