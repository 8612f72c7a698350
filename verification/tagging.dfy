/** One `Tagging` instance: the session that lives from the typed delimiter
    until it is committed or cleaned away. Every DOM effect is reduced to a
    field of the immutable Session value, and every handler to a pure
    transition on it. */
module Tagging {
  import opened Wrappers
  import opened JsText
  import opened Options
  import Highlight
  import Trigger

  /** A list row: its `data-tagging-id`, its content, and the item its click
      handler inserts. */
  datatype Row = Row(key: string, text: string, item: Item)

  /** The dropdown: not in the page, freshly created and empty, showing a
      message, or showing a list of rows. */
  datatype View = Absent | Blank | Message(message: string) | Rows(rows: seq<Row>)

  /** What the session has put into the editor in place of its placeholder. */
  datatype Fragment = PlainText(text: string) | Markup(html: string)

  /** The editor document as far as the session is concerned: whether the
      placeholder span is still there, and what has been written in its
      place, in order. */
  datatype Doc = Doc(placeholder: bool, written: seq<Fragment>)

  /** The instance's state. `bound` says whether its keydown, keyup and body
      click handlers are attached. Debounce timers are named by numbers:
      `searching` is the handle last returned by setTimeout, `timers` the
      scheduled timers that have neither fired nor been cleared, and
      `nextTimer` the handle the next setTimeout returns. `queries` records
      every call of the source function, with the text it was given. */
  datatype Session = Session(
    config: Config,
    bound: bool,
    view: View,
    active: Option<nat>,
    tracking: string,
    items: seq<Item>,
    searching: Option<nat>,
    timers: set<nat>,
    nextTimer: nat,
    queries: seq<string>,
    doc: Doc)

  /** The state after a handler: it either returned, or threw part way, in
      which case the effects made before the throw remain. */
  datatype Outcome = Done(state: Session) | Threw(state: Session)

  /** What happens to the instance: handler calls made by the browser, a
      debounce timer firing, and the source delivering results. A key-up
      carries the text the placeholder's text span shows at that moment. */
  datatype Event =
    | KeyDown(code: int)
    | KeyUp(code: int, spanText: string)
    | RowClick(index: nat)
    | BodyClick
    | TimerFires(timer: nat)
    | Deliver(results: seq<Item>)

  const BackspaceKey: int := 8
  const TabKey: int := 9
  const EnterKey: int := 13
  const ShiftKey: int := 16
  const CtrlKey: int := 17
  const AltKey: int := 18
  const EscapeKey: int := 27
  const UpKey: int := 38
  const DownKey: int := 40

  /** The zero-width no-break space the placeholder's text span starts with. */
  const Dummy: char := '\U{FEFF}'

  function RowCount(v: View): nat {
    if v.Rows? then |v.rows| else 0
  }

  /** The representation invariant: the DOM can hold an active row only
      among the rows shown, the rows shown are those rendered from the
      stored items, the handlers are attached exactly while the dropdown is
      in the page, and at most the last scheduled timer is pending. */
  ghost predicate Valid(s: Session) {
    && Highlight.InRange(s.active, RowCount(s.view))
    && (s.view.Rows? ==> s.view.rows == RenderRows(s.config, s.items, s.config.limit))
    && (s.bound <==> !s.view.Absent?)
    && (forall t :: t in s.timers ==> s.searching == Some(t))
    && (s.searching.Some? ==> s.searching.value < s.nextTimer)
  }

  /** The constructor: the dropdown is created empty, the placeholder is
      written at the caret, and the handlers are attached. */
  function Init(c: Config): (s: Session)
    ensures Valid(s)
    ensures s.config == c && s.searching == None
    ensures s.bound && s.view == Blank && s.active == None
    ensures s.tracking == "" && s.items == [] && s.timers == {} && s.queries == []
    ensures s.doc == Doc(true, [])
  {
    Session(c, true, Blank, None, "", [], None, {}, 0, [], Doc(true, []))
  }

  /** The keypress trigger: a new session when the typed character starts
      one, configured from the first matching tag. */
  function Start(tags: seq<TagOptions>, typed: char, data: Option<string>, offset: nat): (r: Option<Session>)
    ensures r.Some? <==> Trigger.Detect(tags, typed, data, offset).Some?
    ensures r.Some? ==> Valid(r.value) && r.value.config.delimiter == [typed]
    ensures r.Some? ==> r.value == Init(Configure(Trigger.FirstTag(tags, typed).value))
  {
    match Trigger.Detect(tags, typed, data, offset)
    case None => None
    case Some(o) => Some(Init(Configure(o)))
  }

  /** One list row: keyed by the item's selector field, labelled by its
      title field. */
  function RowOf(c: Config, item: Item): (r: Row)
    ensures r.key == Attr(item, c.selector) && r.text == Attr(item, c.title) && r.item == item
  {
    Row(Attr(item, c.selector), Attr(item, c.title), item)
  }

  /** The rows `render` builds: one per item among the first `limit`, in
      source order. */
  function RenderRows(c: Config, items: seq<Item>, limit: int): (rows: seq<Row>)
    ensures |rows| == if limit <= 0 then 0 else if limit < |items| then limit else |items|
    ensures forall i :: 0 <= i < |rows| ==> rows[i] == RowOf(c, items[i])
  {
    if limit <= 0 || |items| == 0 then []
    else
      var rest := RenderRows(c, items[1..], limit - 1);
      assert forall i :: 1 <= i < |items| ==> items[i] == items[1..][i - 1];
      [RowOf(c, items[0])] + rest
  }

  /** `render`, the source's callback. It throws when the dropdown is gone
      (the items are then not stored); otherwise it shows at most `limit`
      rows, or the empty message for no results, and stores the full list. */
  function Render(s: Session, results: seq<Item>): (r: Outcome)
    ensures s.view.Absent? ==> r == Threw(s)
    ensures !s.view.Absent? ==> r.Done? && r.state.items == results && r.state.active == None
    ensures !s.view.Absent? && |results| == 0 ==> r.state.view == Message(s.config.emptyMessage)
    ensures !s.view.Absent? && |results| > 0 ==>
      && r.state.view.Rows?
      && |r.state.view.rows| == (if s.config.limit <= 0 then 0
                                 else if s.config.limit < |results| then s.config.limit else |results|)
      && (forall i :: 0 <= i < |r.state.view.rows| ==>
            r.state.view.rows[i].key == Attr(results[i], s.config.selector)
            && r.state.view.rows[i].text == Attr(results[i], s.config.title))
    ensures r.state == s.(view := r.state.view, active := r.state.active, items := r.state.items)
  {
    if s.view.Absent? then Threw(s)
    else if |results| != 0 then
      Done(s.(view := Rows(RenderRows(s.config, results, s.config.limit)), active := None, items := results))
    else
      Done(s.(view := Message(s.config.emptyMessage), active := None, items := results))
  }

  /** `lookup`: read the typed text, show the loading message, and replace
      any scheduled source call by a fresh one. It throws before doing
      anything when the placeholder has gone, and after storing the text
      when the dropdown has gone. */
  function Lookup(s: Session, spanText: string): (r: Outcome)
    ensures !s.doc.placeholder ==> r == Threw(s)
    ensures s.doc.placeholder ==> r.state.tracking == RemoveFirst(spanText, Dummy)
    ensures s.doc.placeholder && s.view.Absent? ==> r == Threw(s.(tracking := r.state.tracking))
    ensures s.doc.placeholder && !s.view.Absent? ==>
      && r.Done? && r.state.view == Message(s.config.loadingMessage) && r.state.active == None
      && r.state.searching == Some(s.nextTimer) && r.state.nextTimer == s.nextTimer + 1
      && s.nextTimer in r.state.timers
      && (forall t :: t in r.state.timers ==> t == s.nextTimer || (t in s.timers && s.searching != Some(t)))
    ensures r.state.queries == s.queries && r.state.doc == s.doc && r.state.items == s.items
    ensures r.state.bound == s.bound && r.state.config == s.config
  {
    if !s.doc.placeholder then Threw(s)
    else
      var s1 := s.(tracking := RemoveFirst(spanText, Dummy));
      if s1.view.Absent? then Threw(s1)
      else
        var kept := if s.searching.Some? then s.timers - {s.searching.value} else s.timers;
        Done(s1.(view := Message(s.config.loadingMessage), active := None,
                 timers := kept + {s.nextTimer}, searching := Some(s.nextTimer), nextTimer := s.nextTimer + 1))
  }

  /** A debounce timer firing: the source is called with the tracking text
      stored at that moment. */
  function Fire(s: Session, t: nat): (r: Session)
    ensures r.queries == s.queries + [s.tracking]
    ensures r.timers == s.timers - {t}
    ensures r == s.(queries := r.queries, timers := r.timers)
  {
    s.(queries := s.queries + [s.tracking], timers := s.timers - {t})
  }

  /** `clean(rollback)`: the handlers are detached and the dropdown removed,
      always. A placeholder still in the document is replaced by the
      delimiter followed, on rollback only, by the tracking text; without a
      placeholder the document is untouched. Pending timers are NOT
      cleared. */
  function Clean(s: Session, rollback: bool): (r: Session)
    ensures !r.bound && r.view == Absent && r.active == None && !r.doc.placeholder
    ensures s.doc.placeholder && rollback ==>
      r.doc.written == s.doc.written + [PlainText(s.config.delimiter + s.tracking)]
    ensures s.doc.placeholder && !rollback ==>
      r.doc.written == s.doc.written + [PlainText(s.config.delimiter)]
    ensures !s.doc.placeholder ==> r.doc == s.doc
    ensures r.tracking == s.tracking && r.items == s.items && r.queries == s.queries
    ensures r.timers == s.timers && r.searching == s.searching && r.nextTimer == s.nextTimer
    ensures r.config == s.config
  {
    var doc :=
      if s.doc.placeholder then
        Doc(false, s.doc.written + [PlainText(if rollback then s.config.delimiter + s.tracking else s.config.delimiter)])
      else s.doc;
    s.(bound := false, view := Absent, active := None, doc := doc)
  }

  /** `insertItem(item)`: the placeholder is removed (if it is there), then
      the formatted item is inserted at the caret. Formatting `undefined`
      throws, after the removal. */
  function InsertItem(s: Session, item: Option<Item>): (r: Outcome)
    ensures !r.state.doc.placeholder
    ensures item.None? ==> r == Threw(s.(doc := Doc(false, s.doc.written)))
    ensures item.Some? ==>
      && r.Done?
      && r.state.doc.written == s.doc.written + [Markup(Format(s.config, item).value)]
    ensures r.state == s.(doc := r.state.doc)
  {
    var s1 := s.(doc := s.doc.(placeholder := false));
    match Format(s.config, item)
    case None => Threw(s1)
    case Some(m) => Done(s1.(doc := s1.doc.(written := s1.doc.written + [Markup(m)])))
  }

  /** `getActiveItem`: the row carrying the active class, if any. */
  function ActiveRow(s: Session): (r: Option<Row>)
    ensures Valid(s) ==> (r.Some? <==> s.active.Some?)
    ensures r.Some? ==> s.view.Rows? && s.active.Some? && s.active.value < |s.view.rows|
                        && r.value == s.view.rows[s.active.value]
  {
    if s.active.Some? && s.view.Rows? && s.active.value < |s.view.rows| then
      Some(s.view.rows[s.active.value])
    else None
  }

  /** The stored item `selectActiveItem` looks up for a row key: the first
      whose selector field is strictly equal to the key, or `undefined`. */
  function ItemForKey(s: Session, key: string): (r: Option<Item>)
    ensures r.None? <==> forall j :: 0 <= j < |s.items| ==> !KeyMatches(s.items[j], s.config.selector, key)
    ensures r.Some? ==> exists k :: (0 <= k < |s.items| && s.items[k] == r.value
                                     && KeyMatches(s.items[k], s.config.selector, key)
                                     && forall j :: 0 <= j < k ==> !KeyMatches(s.items[j], s.config.selector, key))
  {
    var k := FindIndex(s.items, (it: Item) => KeyMatches(it, s.config.selector, key));
    if k == -1 then None else Some(s.items[k])
  }

  /** `selectActiveItem`: insert the stored item matching the active row's
      key; nothing when no row is active. */
  function SelectActiveItem(s: Session): (r: Outcome)
    ensures ActiveRow(s).None? ==> r == Done(s)
    ensures ActiveRow(s).Some? ==> r == InsertItem(s, ItemForKey(s, ActiveRow(s).value.key))
  {
    match ActiveRow(s)
    case None => Done(s)
    case Some(row) => InsertItem(s, ItemForKey(s, row.key))
  }

  /** `onKeydown`: the arrows move the highlight; nothing else changes. */
  function OnKeydown(s: Session, code: int): (r: Session)
    ensures code == DownKey ==> r.active == Highlight.Next(s.active, RowCount(s.view))
    ensures code == UpKey ==> r.active == Highlight.Previous(s.active, RowCount(s.view))
    ensures code != DownKey && code != UpKey ==> r == s
    ensures r == s.(active := r.active)
  {
    if code == UpKey then s.(active := Highlight.Previous(s.active, RowCount(s.view)))
    else if code == DownKey then s.(active := Highlight.Next(s.active, RowCount(s.view)))
    else s
  }

  /** `onKeyup`'s dispatch on the key code. A key-up never calls the source
      itself (only a timer does), only Backspace, Tab, Enter and Escape end
      the session, and it throws only in the lookup or the commit. */
  function OnKeyup(s: Session, code: int, spanText: string): (r: Outcome)
    ensures r.state.queries == s.queries && r.state.config == s.config
    ensures s.bound && !r.state.bound ==> code in {BackspaceKey, TabKey, EnterKey, EscapeKey}
    ensures r.Threw? && (code == TabKey || code == EnterKey) ==>
      ActiveRow(s).Some? && ItemForKey(s, ActiveRow(s).value.key).None?
    ensures r.Threw? && code != TabKey && code != EnterKey ==> !s.doc.placeholder || s.view.Absent?
  {
    if code == ShiftKey || code == CtrlKey || code == AltKey || code == UpKey || code == DownKey then
      Done(s)
    else if code == BackspaceKey then
      if s.tracking == "" then Done(Clean(s, false)) else Lookup(s, spanText)
    else if code == TabKey || code == EnterKey then
      if ActiveRow(s).Some? then
        match SelectActiveItem(s)
        case Threw(s1) => Threw(s1)
        case Done(s1) => Done(Clean(s1, false))
      else Done(Clean(s, true))
    else if code == EscapeKey then
      Done(Clean(s, true))
    else
      Lookup(s, spanText)
  }

  /** The effect of one event. Key and body-click handlers reach the
      instance only while attached; timers and the source callback are never
      detached. A row click runs the row's handler and then bubbles up to
      the body handler. */
  function Handle(s: Session, e: Event): (r: Outcome)
    ensures !e.TimerFires? ==> r.state.queries == s.queries
    ensures r.state.config == s.config
    ensures !s.bound ==> !r.state.bound
    ensures s.bound && !r.state.bound ==>
      || (e.KeyUp? && e.code in {BackspaceKey, TabKey, EnterKey, EscapeKey})
      || e.RowClick? || e.BodyClick?
  {
    match e
    case KeyDown(code) => if s.bound then Done(OnKeydown(s, code)) else Done(s)
    case KeyUp(code, text) => if s.bound then OnKeyup(s, code, text) else Done(s)
    case RowClick(i) =>
      if s.view.Rows? && i < |s.view.rows| then
        var s1 := InsertItem(s, Some(s.view.rows[i].item)).state;
        Done(if s1.bound then Clean(s1, true) else s1)
      else Done(s)
    case BodyClick => if s.bound then Done(Clean(s, true)) else Done(s)
    case TimerFires(t) => if t in s.timers then Done(Fire(s, t)) else Done(s)
    case Deliver(results) => Render(s, results)
  }

  /** The state after a sequence of events; a throw ends only the handler
      that threw. */
  function Run(s: Session, events: seq<Event>): Session
    decreases |events|
  {
    if |events| == 0 then s else Run(Handle(s, events[0]).state, events[1..])
  }
}
