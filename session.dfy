/** The view that owns a page: its construction wires the page's signals to
    its own and to the polling trigger, and its explicit teardown drops the
    page and disconnects every signal so that no reference cycle and no
    callback outlives the session. */
module Session {
  import opened Values
  import opened Settings
  import opened Bridge

  datatype ViewSignal = ViewSetTitle | ViewRefreshAll | TitleChanged | RenderProcessTerminated

  const AllViewSignals: set<ViewSignal> := {ViewSetTitle, ViewRefreshAll, TitleChanged, RenderProcessTerminated}

  class View {
    var page: Page?
    var connected: set<ViewSignal>

    /** A live session: the page is held and all six signals are connected
        (disconnecting a signal that has no connection raises). */
    predicate Active()
      reads this, page
    {
      page != null && page.connected == AllPageSignals && connected == AllViewSignals
    }

    /** Construction connects the page's two signals, the title-change
        polling trigger and the render-process notification; the view's
        own title and refresh signals are connected by its owner. */
    constructor (store: ConfigStore)
      ensures page != null && fresh(page) && page.store == store
      ensures page.State() == Host(None, 0, false, [], store.State())
      ensures page.connected == AllPageSignals
      ensures connected == {TitleChanged, RenderProcessTerminated}
    {
      var p := new Page(store);
      p.connected := AllPageSignals;
      page := p;
      connected := {TitleChanged, RenderProcessTerminated};
    }

    /** An owner connecting one of the view's signals. */
    method Connect(signal: ViewSignal)
      modifies this
      ensures page == old(page)
      ensures connected == old(connected) + {signal}
    {
      connected := connected + {signal};
    }

    /** A title change polls the page for messages; it reaches the page only
        while the trigger is connected. */
    method OnTitleChanged(raw: string, batch: seq<Object>, env: Env) returns (fault: Option<Fault>)
      requires page != null && TitleChanged in connected
      modifies page, page.store
      ensures Outcome(page.State(), fault) == Received(old(page.State()), raw, batch, env)
      ensures page.connected == old(page.connected)
      ensures Active() == old(Active())
    {
      fault := page.MessagesReceived(raw, batch, env);
    }

    /** break_cycles: one-shot transition out of the active state. */
    method BreakCycles()
      requires Active()
      modifies this, page
      ensures page == null && connected == {}
      ensures old(page).connected == {}
      ensures old(page).State() == old(page.State())
      ensures !Active()
      ensures TitleChanged !in connected
    {
      page.BreakCycles();
      page := null;
      connected := connected - {ViewSetTitle};
      connected := connected - {ViewRefreshAll};
      connected := connected - {TitleChanged};
      connected := connected - {RenderProcessTerminated};
    }
  }

  /** A session's normal end: a poll answered while active, then teardown. */
  method PollThenTeardown(v: View, raw: string, batch: seq<Object>, env: Env) returns (fault: Option<Fault>)
    requires v.Active()
    modifies v, v.page, v.page.store
    ensures Outcome(old(v.page).State(), fault) == Received(old(v.page.State()), raw, batch, env)
    ensures v.page == null && v.connected == {} && old(v.page).connected == {}
  {
    fault := v.OnTitleChanged(raw, batch, env);
    v.BreakCycles();
  }
}
